/**
 * The insurance-card agent (`insurance_agent.py`): its prompt, its pattern
 * table and its confidence weights, as an instance of the shared extraction
 * skeleton.
 */
module InsuranceAgent {
  import opened Wrappers
  import opened Strings
  import opened DataModels
  import opened Regexes
  import opened Dates
  import opened Extraction
  import opened Seqs
  import opened LineItems

  const Prompt: string := @"
        Extract the following information from this insurance card or policy document and return it as a JSON object:
        
        {
            ""policy_number"": ""Policy or card number"",
            ""card_holder_name"": ""Name of the card holder"",
            ""insurance_company"": ""Insurance company name"",
            ""sum_insured"": 123456.78,
            ""validity_date"": ""YYYY-MM-DD""
        }
        
        If any field is not found, use null. For dates, use YYYY-MM-DD format.
        For sum_insured, extract the numeric value only.
        Return only the JSON object, no additional text.
        "

  /** Policy-number patterns; a match needs at least 8 characters. */
  const PolicyPatterns: seq<string> := [
    @"(?:Policy|Card|Member)[\s\w]*[:\s]*([A-Z0-9\-]{8,})",
    @"([0-9]{10,})",
    @"([A-Z]{2,}[0-9]{8,})",
    @"Policy No[\s.:]*([A-Z0-9\-]+)",
    @"Card No[\s.:]*([A-Z0-9\-]+)"
  ]

  /** Holder-name patterns; a match needs two words. */
  const HolderPatterns: seq<string> := [
    @"(?:Name|Card Holder|Member)[\s:]*([A-Z][a-z]+ [A-Z][a-z]+)",
    @"(?:Mr\.?|Mrs\.?|Ms\.?)\s+([A-Z][a-z]+ [A-Z][a-z]+)",
    @"Member Name[\s:]*([A-Za-z\s]+)",
    @"Insured[\s:]*([A-Z][a-z]+ [A-Z][a-z]+)"
  ]

  /** The named insurers, tried before the generic shapes. */
  const BrandPatterns: seq<string> := [
    @"(ACKO General Insurance)",
    @"(SBI General Insurance)",
    @"(Family Health Plan)",
    @"(HDFC ERGO)",
    @"(ICICI Lombard)",
    @"(Bajaj Allianz)",
    @"(Star Health)",
    @"(Max Bupa)"
  ]

  const GenericInsurerPatterns: seq<string> := [
    @"([A-Z][a-z]+ Insurance)",
    @"Insurance Company[\s:]*([A-Z][a-z\s]+)",
    @"Insurer[\s:]*([A-Z][a-z\s]+)"
  ]

  const SumInsuredPatterns: seq<string> := [
    @"(?:Sum Insured|Coverage|Limit)[\s:]*(?:Rs\.?|INR|₹)?\s*([0-9,]+\.?[0-9]*)",
    @"(?:₹|Rs\.?)\s*([0-9,]+\.?[0-9]*)",
    @"([0-9,]+\.?[0-9]*)\s*(?:/-|Rs|INR)",
    @"Coverage[\s:]*([0-9,]+)",
    @"Limit[\s:]*([0-9,]+)"
  ]

  /** Amounts below this are not taken for a sum insured. */
  const SumInsuredFloor: real := 10000.0

  const ValidityKeywords: seq<string> := ["validity", "valid", "expiry", "expires", "until"]

  /** `len(policy_num) >= 8`. */
  const PolicyCheck: Accept := LongerThan(7)

  /** `len(company) > 3`. */
  const CompanyCheck: Accept := LongerThan(3)

  /** All insurer patterns, searched case-insensitively. */
  const InsurerRegexes: seq<Regex> := Compile(BrandPatterns + GenericInsurerPatterns, true, false)

  /** `_rule_based_extract`'s dictionary, key by key. */
  const Fields: seq<Field> := [
    Field("policy_number", FirstMatchRule(Compile(PolicyPatterns, true, false), PolicyCheck)),
    Field("card_holder_name", FirstMatchRule(Compile(HolderPatterns, true, false), TwoWords)),
    Field("insurance_company", FirstMatchRule(InsurerRegexes, CompanyCheck)),
    Field("sum_insured", LargestAmountRule(Compile(SumInsuredPatterns, true, false), Some(SumInsuredFloor))),
    Field("validity_date", KeywordDateRule(ValidityKeywords))
  ]

  /** `_calculate_confidence`'s weights. */
  const Slots: seq<Slot> := [
    AnyOf(["policy_number"], 0.3),
    AnyOf(["card_holder_name"], 0.25),
    AnyOf(["insurance_company"], 0.25),
    AnyOf(["sum_insured"], 0.15),
    AnyOf(["validity_date"], 0.05)
  ]

  /** The agent `extract_data` runs. */
  const Insurance: Agent := Agent("insurance_card", Prompt, Fields, Slots)

  // ---------------------------------------------------------------------------
  // Properties

  /** The weights are non-negative and add up to 1. */
  lemma InsuranceWeights()
    ensures NonNegativeWeights(Slots) && TotalWeight(Slots) == 1.0
  {
    assert Slots[..1][..0] == [];
    assert TotalWeight(Slots[..1]) == 0.3;
    assert Slots[..2][..1] == Slots[..1];
    assert TotalWeight(Slots[..2]) == 0.55;
    assert Slots[..3][..2] == Slots[..2];
    assert TotalWeight(Slots[..3]) == 0.8;
    assert Slots[..4][..3] == Slots[..3];
    assert TotalWeight(Slots[..4]) == 0.95;
    assert Slots[..5] == Slots;
  }

  lemma InsuranceKeys()
    ensures KeysOf(Fields) == ["policy_number", "card_holder_name", "insurance_company", "sum_insured", "validity_date"]
    ensures DistinctKeys(Fields)
  {
  }

  /** Every slot only tests truthiness, so the confidence never raises; it
      lies in [0, 1] and is the weight of the filled slots. */
  lemma InsuranceConfidence(data: Fields)
    ensures ConfidenceOf(Slots, data).Ok?
    ensures 0.0 <= ConfidenceOf(Slots, data).value <= 1.0
    ensures ConfidenceOf(Slots, data).value == FilledWeight(Slots, data)
  {
    TruthSlotsNeverRaise(Slots, data);
    InsuranceWeights();
    ConfidenceBounds(Slots, data);
  }

  /** The policy number is `null` or a stripped string of at least 8 characters. */
  lemma InsurancePolicy(e: Engine, text: string)
    ensures var v := RuleData(e, Fields, text)[Fields[0].key];
      v.Null? || (v.Str? && Trimmed(v.s) && |v.s| >= 8)
  {
    InsuranceKeys();
    MatchField(e, Fields, text, 0);
  }

  /** The holder name is `null` or a stripped string of at least two words. */
  lemma InsuranceHolder(e: Engine, text: string)
    ensures var v := RuleData(e, Fields, text)[Fields[1].key];
      v.Null? || (v.Str? && Trimmed(v.s) && |Words(v.s)| >= 2)
  {
    InsuranceKeys();
    MatchField(e, Fields, text, 1);
  }

  /** The insurer is `null` or a stripped string longer than 3 characters. */
  lemma InsuranceCompany(e: Engine, text: string)
    ensures var v := RuleData(e, Fields, text)[Fields[2].key];
      v.Null? || (v.Str? && Trimmed(v.s) && |v.s| > 3)
  {
    InsuranceKeys();
    MatchField(e, Fields, text, 2);
  }

  /** A named insurer in the text wins over any generic insurer shape. */
  lemma BrandBeforeGeneric(e: Engine, text: string)
    requires FirstAccepted(e, InsurerRegexes[..8], CompanyCheck, text).Some?
    ensures FirstAccepted(e, InsurerRegexes, CompanyCheck, text)
      == FirstAccepted(e, InsurerRegexes[..8], CompanyCheck, text)
  {
    assert InsurerRegexes == InsurerRegexes[..8] + InsurerRegexes[8..];
    FirstAcceptedPrefix(e, InsurerRegexes[..8], InsurerRegexes[8..], CompanyCheck, text);
  }

  /** The sum insured is `null` or at least 10000. */
  lemma SumInsuredFloorHolds(e: Engine, text: string)
    ensures var v := RuleData(e, Fields, text)[Fields[3].key];
      v.Null? || (v.Num? && v.n >= SumInsuredFloor)
  {
    InsuranceKeys();
    AmountField(e, Fields, text, 3);
  }

  lemma CoverageDigits()
    ensures AllDigits("500000") && DigitsValue("500000") == 500000
  {
    assert "500000"[..5] == "50000" && "50000"[..4] == "5000" && "5000"[..3] == "500";
    assert "500"[..2] == "50" && "50"[..1] == "5" && "5"[..0] == "";
    assert DigitsValue("5") == 5;
    assert DigitsValue("50") == 50;
    assert DigitsValue("500") == 500;
    assert DigitsValue("5000") == 5000;
    assert DigitsValue("50000") == 50000;
  }

  /** "500,000" reads as 500000 once its comma is dropped. */
  lemma ParseCoverage()
    ensures ParseAmount("500,000") == Some(500000.0)
  {
    assert "500,000" == "500" + "," + "000";
    assert "500" + "000" == "500000";
    CoverageDigits();
    ParseGroupedAmount("500", "000");
  }

  lemma ParseStray()
    ensures ParseAmount("50") == Some(50.0)
  {
    assert "50"[..1] == "5" && "5"[..0] == "";
    assert DigitsValue("50") == 50;
    ParsePlainAmount("50");
  }

  /** Of a coverage amount above the floor and a stray amount below it, the
      coverage is the sum insured. */
  lemma {:induction false} SumInsuredOf(coverage: string, stray: string, c: real, x: real)
    requires ParseAmount(coverage) == Some(c) && c >= SumInsuredFloor
    requires ParseAmount(stray) == Some(x) && x < SumInsuredFloor
    ensures MaxOf(Collect(Keeper(Some(SumInsuredFloor)), [coverage, stray])) == Some(c)
  {
    var keep := Keeper(Some(SumInsuredFloor));
    assert keep(coverage) == Some(c) && keep(stray) == None;
    assert [] + [coverage] == [coverage];
    assert [coverage] + [stray] == [coverage, stray];
    CollectSnoc(keep, [], coverage);
    CollectSnoc(keep, [coverage], stray);
  }

  /** A coverage of "500,000" next to a stray "50" gives 500000: the stray
      amount falls below the floor and is dropped. */
  lemma SumInsuredExample()
    ensures MaxOf(Collect(Keeper(Some(SumInsuredFloor)), ["500,000", "50"])) == Some(500000.0)
  {
    ParseCoverage();
    ParseStray();
    SumInsuredOf("500,000", "50", 500000.0, 50.0);
  }

  /** The validity date is `null` or `YYYY-MM-DD`. */
  lemma InsuranceValidity(e: Engine, text: string)
    ensures var v := RuleData(e, Fields, text)[Fields[4].key]; v.Null? || (v.Str? && IsIsoShape(v.s))
  {
    InsuranceKeys();
    DateField(e, Fields, text, 4);
  }
}
