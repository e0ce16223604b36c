/**
 * The hospital-bill agent (`bill_agent.py`): its prompt, its pattern table
 * and its confidence weights, as an instance of the shared extraction
 * skeleton.
 */
module BillAgent {
  import opened Wrappers
  import opened Strings
  import opened Seqs
  import opened DataModels
  import opened Regexes
  import opened Dates
  import opened LineItems
  import opened BaseAgent
  import opened Extraction

  const Prompt: string := @"
        Extract the following information from this hospital bill and return it as a JSON object:
        
        {
            ""hospital_name"": ""Name of the hospital"",
            ""total_amount"": 123.45,
            ""date_of_service"": ""YYYY-MM-DD"",
            ""patient_name"": ""Patient's name"",
            ""admission_date"": ""YYYY-MM-DD"",
            ""discharge_date"": ""YYYY-MM-DD"",
            ""insurance_company"": ""Insurance company name"",
            ""policy_number"": ""Policy number"",
            ""items"": [
                {
                    ""description"": ""Service description"",
                    ""amount"": 123.45,
                    ""quantity"": 1
                }
            ]
        }
        
        If any field is not found, use null. For dates, use YYYY-MM-DD format.
        Return only the JSON object, no additional text.
        "

  /** Hospital-name shapes, then the brand names; searched case-insensitively. */
  const HospitalPatterns: seq<string> := [
    @"([A-Z][a-z]+ (?:Hospital|Medical|Health|Care|Centre|Center))",
    @"((?:Sir |Dr\. )?[A-Z][a-z]+ [A-Z][a-z]+ Hospital)",
    @"([A-Z][A-Z\s]+HOSPITAL)",
    @"(Max Healthcare|Fortis|Apollo|AIIMS|PGIMER)"
  ]

  /** Total-amount patterns; every group found by any of them is a candidate. */
  const TotalPatterns: seq<string> := [
    @"(?:Total|Grand Total|Net Amount|Bill Amount)[\s:]*(?:Rs\.?|INR|₹)?\s*([0-9,]+\.?[0-9]*)",
    @"(?:₹|Rs\.?)\s*([0-9,]+\.?[0-9]*)",
    @"([0-9,]+\.?[0-9]*)\s*(?:/-|Rs|INR)"
  ]

  /** Patient-name patterns; searched case-sensitively. */
  const PatientPatterns: seq<string> := [
    @"(?:Patient|Name)[\s:]*([A-Z][a-z]+ [A-Z][a-z]+)",
    @"(?:Mr\.?|Mrs\.?|Ms\.?)\s+([A-Z][a-z]+ [A-Z][a-z]+)",
    @"Name[\s:]*([A-Z][A-Z\s]+)"
  ]

  /** Insurer patterns: three named insurers, then two generic shapes. */
  const InsurerPatterns: seq<string> := [
    @"(ACKO General Insurance)",
    @"(Family Health Plan)",
    @"(SBI General Insurance)",
    @"([A-Z][a-z]+ Insurance)",
    @"Insurance Company[\s:]*([A-Z][a-z\s]+)"
  ]

  /** Policy-number patterns; searched case-sensitively. */
  const PolicyPatterns: seq<string> := [
    @"Policy[\s\w]*[:\s]*([A-Z0-9\-]+)",
    @"([0-9]{10,})",
    @"([A-Z]{2,}[0-9]{8,})"
  ]

  const ServiceKeywords: seq<string> := ["service", "treatment", "visit"]
  const AdmissionKeywords: seq<string> := ["admission", "admit"]
  const DischargeKeywords: seq<string> := ["discharge"]

  /** `_rule_based_extract`'s dictionary, key by key. */
  const Fields: seq<Field> := [
    Field("hospital_name", FirstMatchRule(Compile(HospitalPatterns, true, false), AnyMatch)),
    Field("total_amount", LargestAmountRule(Compile(TotalPatterns, true, false), None)),
    Field("date_of_service", KeywordDateRule(ServiceKeywords)),
    Field("patient_name", FirstMatchRule(Compile(PatientPatterns, false, false), AnyMatch)),
    Field("admission_date", KeywordDateRule(AdmissionKeywords)),
    Field("discharge_date", KeywordDateRule(DischargeKeywords)),
    Field("insurance_company", FirstMatchRule(Compile(InsurerPatterns, true, false), AnyMatch)),
    Field("policy_number", FirstMatchRule(Compile(PolicyPatterns, false, false), AnyMatch)),
    Field("items", LineItemsRule)
  ]

  /** `_calculate_confidence`'s weights. */
  const Slots: seq<Slot> := [
    AnyOf(["hospital_name"], 0.2),
    AnyOf(["total_amount"], 0.2),
    AnyOf(["patient_name"], 0.15),
    AnyOf(["date_of_service", "admission_date"], 0.15),
    AnyOf(["insurance_company"], 0.1),
    AnyOf(["policy_number"], 0.1),
    NonEmpty("items", 0.1)
  ]

  /** The agent `extract_data` runs. */
  const Bill: Agent := Agent("hospital_bill", Prompt, Fields, Slots)

  // ---------------------------------------------------------------------------
  // Properties

  /** The weights are non-negative and add up to 1. */
  lemma BillWeights()
    ensures NonNegativeWeights(Slots) && TotalWeight(Slots) == 1.0
  {
    assert Slots[..1][..0] == [];
    assert TotalWeight(Slots[..1]) == 0.2;
    assert Slots[..2][..1] == Slots[..1];
    assert TotalWeight(Slots[..2]) == 0.4;
    assert Slots[..3][..2] == Slots[..2];
    assert TotalWeight(Slots[..3]) == 0.55;
    assert Slots[..4][..3] == Slots[..3];
    assert TotalWeight(Slots[..4]) == 0.7;
    assert Slots[..5][..4] == Slots[..4];
    assert TotalWeight(Slots[..5]) == 0.8;
    assert Slots[..6][..5] == Slots[..5];
    assert TotalWeight(Slots[..6]) == 0.9;
    assert Slots[..7] == Slots;
  }

  /** Every key of the table occurs once; the record holds exactly these nine keys. */
  lemma BillKeys()
    ensures KeysOf(Fields) == ["hospital_name", "total_amount", "date_of_service", "patient_name",
      "admission_date", "discharge_date", "insurance_company", "policy_number", "items"]
    ensures DistinctKeys(Fields)
  {
  }

  /** The confidence lies in [0, 1] and is the weight of the filled slots. */
  lemma BillConfidenceBounds(data: Fields)
    requires ConfidenceOf(Slots, data).Ok?
    ensures 0.0 <= ConfidenceOf(Slots, data).value <= 1.0
    ensures ConfidenceOf(Slots, data).value == FilledWeight(Slots, data)
  {
    BillWeights();
    ConfidenceBounds(Slots, data);
  }

  /** The pattern pass reads the cleaned, single-line text, so `items` holds
      at most one item. */
  lemma BillItemsAtMostOne(e: Engine, text: string)
    ensures var items := RuleData(e, Fields, CleanForProcessing(text))["items"];
      items.List? && |items.elems| <= 1
  {
    BillKeys();
    ItemsField(e, Fields, CleanForProcessing(text), 8);
    ExtractedItemsAtMostOne(text);
  }

  /** A brand name only counts when none of the three generic hospital
      shapes matches: a generic match wins, whatever brand the text names. */
  lemma GenericHospitalWins(e: Engine, text: string)
    requires FirstAccepted(e, Compile(HospitalPatterns, true, false)[..3], AnyMatch, text).Some?
    ensures FirstAccepted(e, Compile(HospitalPatterns, true, false), AnyMatch, text)
      == FirstAccepted(e, Compile(HospitalPatterns, true, false)[..3], AnyMatch, text)
  {
    var ps := Compile(HospitalPatterns, true, false);
    assert ps == ps[..3] + ps[3..];
    FirstAcceptedPrefix(e, ps[..3], ps[3..], AnyMatch, text);
  }

  /** The three bill dates are each `null` or `YYYY-MM-DD`. */
  lemma BillDates(e: Engine, text: string, i: nat)
    requires i == 2 || i == 4 || i == 5
    ensures var v := RuleData(e, Fields, text)[Fields[i].key]; v.Null? || (v.Str? && IsIsoShape(v.s))
  {
    BillKeys();
    DateField(e, Fields, text, i);
  }

  /** The hospital, patient, insurer and policy fields are each `null` or a
      stripped string. */
  lemma BillNames(e: Engine, text: string, i: nat)
    requires i == 0 || i == 3 || i == 6 || i == 7
    ensures var v := RuleData(e, Fields, text)[Fields[i].key]; v.Null? || (v.Str? && Trimmed(v.s))
  {
    BillKeys();
    MatchField(e, Fields, text, i);
  }

  /** The total is `null` or a non-negative number. */
  lemma BillTotal(e: Engine, text: string)
    ensures var v := RuleData(e, Fields, text)[Fields[1].key]; v.Null? || (v.Num? && v.n >= 0.0)
  {
    BillKeys();
    AmountField(e, Fields, text, 1);
  }
}
