/**
 * The discharge-summary agent (`discharge_agent.py`): its prompt, its
 * pattern table and its confidence weights, as an instance of the shared
 * extraction skeleton.
 */
module DischargeAgent {
  import opened Wrappers
  import opened Strings
  import opened DataModels
  import opened Regexes
  import opened Dates
  import opened Extraction

  const Prompt: string := @"
        Extract the following information from this discharge summary and return it as a JSON object:
        
        {
            ""patient_name"": ""Patient's full name"",
            ""diagnosis"": ""Primary diagnosis or condition"",
            ""admission_date"": ""YYYY-MM-DD"",
            ""discharge_date"": ""YYYY-MM-DD"",
            ""doctor_name"": ""Attending physician name"",
            ""hospital_name"": ""Hospital name"",
            ""treatment_summary"": ""Brief summary of treatment provided""
        }
        
        If any field is not found, use null. For dates, use YYYY-MM-DD format.
        Return only the JSON object, no additional text.
        "

  /** Patient-name patterns; searched case-sensitively, a match needs two words. */
  const PatientPatterns: seq<string> := [
    @"(?:Patient|Name)[\s:]*([A-Z][a-z]+ [A-Z][a-z]+)",
    @"(?:Mr\.?|Mrs\.?|Ms\.?)\s+([A-Z][a-z]+ [A-Z][a-z]+)",
    @"Name[\s:]*([A-Z][A-Z\s]+)",
    @"Patient Name[\s:]*([A-Za-z\s]+)"
  ]

  /** Diagnosis patterns: the text up to a newline or a full stop. */
  const DiagnosisPatterns: seq<string> := [
    @"(?:Diagnosis|Primary Diagnosis|Final Diagnosis)[\s:]*([A-Za-z\s,\-]+?)(?:\n|\.)",
    @"(?:Condition|Medical Condition)[\s:]*([A-Za-z\s,\-]+?)(?:\n|\.)",
    @"(?:Admitted for|Treated for)[\s:]*([A-Za-z\s,\-]+?)(?:\n|\.)"
  ]

  const DoctorPatterns: seq<string> := [
    @"(?:Dr\.?|Doctor)\s+([A-Z][a-z]+ [A-Z][a-z]+)",
    @"(?:Attending|Consultant)[\s\w]*[:\s]*(?:Dr\.?)\s*([A-Z][a-z]+ [A-Z][a-z]+)",
    @"(?:Physician|Surgeon)[\s:]*(?:Dr\.?)\s*([A-Z][a-z]+ [A-Z][a-z]+)"
  ]

  const HospitalPatterns: seq<string> := [
    @"([A-Z][a-z]+ (?:Hospital|Medical|Health|Care|Centre|Center))",
    @"((?:Sir |Dr\. )?[A-Z][a-z]+ [A-Z][a-z]+ Hospital)",
    @"([A-Z][A-Z\s]+HOSPITAL)",
    @"(Max Healthcare|Fortis|Apollo|AIIMS|PGIMER)"
  ]

  /** Treatment patterns, the text up to a blank line or a new capitalised
      line; searched case-insensitively with `.` matching newlines. */
  const TreatmentPatterns: seq<string> := [
    @"(?:Treatment|Procedure|Management)[\s:]*([A-Za-z\s,\.\-]+?)(?:\n\n|\n[A-Z])",
    @"(?:Summary|Course)[\s:]*([A-Za-z\s,\.\-]+?)(?:\n\n|\n[A-Z])"
  ]

  const AdmissionKeywords: seq<string> := ["admission", "admit", "admitted"]
  const DischargeKeywords: seq<string> := ["discharge", "discharged"]

  /** A diagnosis longer than 5 characters once whitespace is collapsed. */
  const DiagnosisCheck: Accept := Condensed(5, None)

  /** A treatment summary longer than 20 characters once whitespace is
      collapsed, cut to 500. */
  const TreatmentCheck: Accept := Condensed(20, Some(500))

  /** `_rule_based_extract`'s dictionary, key by key. */
  const Fields: seq<Field> := [
    Field("patient_name", FirstMatchRule(Compile(PatientPatterns, false, false), TwoWords)),
    Field("diagnosis", FirstMatchRule(Compile(DiagnosisPatterns, true, false), DiagnosisCheck)),
    Field("admission_date", KeywordDateRule(AdmissionKeywords)),
    Field("discharge_date", KeywordDateRule(DischargeKeywords)),
    Field("doctor_name", FirstMatchRule(Compile(DoctorPatterns, true, false), AnyMatch)),
    Field("hospital_name", FirstMatchRule(Compile(HospitalPatterns, true, false), AnyMatch)),
    Field("treatment_summary", FirstMatchRule(Compile(TreatmentPatterns, true, true), TreatmentCheck))
  ]

  /** `_calculate_confidence`'s weights. */
  const Slots: seq<Slot> := [
    AnyOf(["patient_name"], 0.2),
    AnyOf(["diagnosis"], 0.25),
    AnyOf(["admission_date"], 0.15),
    AnyOf(["discharge_date"], 0.15),
    AnyOf(["doctor_name"], 0.1),
    AnyOf(["hospital_name"], 0.1),
    AnyOf(["treatment_summary"], 0.05)
  ]

  /** The agent `extract_data` runs. */
  const Discharge: Agent := Agent("discharge_summary", Prompt, Fields, Slots)

  // ---------------------------------------------------------------------------
  // Properties

  /** The weights are non-negative and add up to 1. */
  lemma DischargeWeights()
    ensures NonNegativeWeights(Slots) && TotalWeight(Slots) == 1.0
  {
    assert Slots[..1][..0] == [];
    assert TotalWeight(Slots[..1]) == 0.2;
    assert Slots[..2][..1] == Slots[..1];
    assert TotalWeight(Slots[..2]) == 0.45;
    assert Slots[..3][..2] == Slots[..2];
    assert TotalWeight(Slots[..3]) == 0.6;
    assert Slots[..4][..3] == Slots[..3];
    assert TotalWeight(Slots[..4]) == 0.75;
    assert Slots[..5][..4] == Slots[..4];
    assert TotalWeight(Slots[..5]) == 0.85;
    assert Slots[..6][..5] == Slots[..5];
    assert TotalWeight(Slots[..6]) == 0.95;
    assert Slots[..7] == Slots;
  }

  lemma DischargeKeys()
    ensures KeysOf(Fields) == ["patient_name", "diagnosis", "admission_date", "discharge_date",
      "doctor_name", "hospital_name", "treatment_summary"]
    ensures DistinctKeys(Fields)
  {
  }

  /** Every slot only tests truthiness, so the confidence never raises; it
      lies in [0, 1] and is the weight of the filled slots. */
  lemma DischargeConfidence(data: Fields)
    ensures ConfidenceOf(Slots, data).Ok?
    ensures 0.0 <= ConfidenceOf(Slots, data).value <= 1.0
    ensures ConfidenceOf(Slots, data).value == FilledWeight(Slots, data)
  {
    TruthSlotsNeverRaise(Slots, data);
    DischargeWeights();
    ConfidenceBounds(Slots, data);
  }

  /** The patient name is `null` or a stripped string of at least two words. */
  lemma DischargePatient(e: Engine, text: string)
    ensures var v := RuleData(e, Fields, text)[Fields[0].key];
      v.Null? || (v.Str? && Trimmed(v.s) && |Words(v.s)| >= 2)
  {
    DischargeKeys();
    MatchField(e, Fields, text, 0);
  }

  /** The diagnosis is `null` or longer than 5 characters with no two
      consecutive spaces. */
  lemma DischargeDiagnosis(e: Engine, text: string)
    ensures var v := RuleData(e, Fields, text)[Fields[1].key];
      v.Null? || (v.Str? && |v.s| > 5 && NoDoubleSpace(v.s))
  {
    DischargeKeys();
    MatchField(e, Fields, text, 1);
  }

  /** The treatment summary is `null` or 21 to 500 characters with no two
      consecutive spaces. */
  lemma DischargeTreatment(e: Engine, text: string)
    ensures var v := RuleData(e, Fields, text)[Fields[6].key];
      v.Null? || (v.Str? && 20 < |v.s| <= 500 && NoDoubleSpace(v.s))
  {
    DischargeKeys();
    MatchField(e, Fields, text, 6);
  }

  /** Both dates are each `null` or `YYYY-MM-DD`. */
  lemma DischargeDates(e: Engine, text: string, i: nat)
    requires i == 2 || i == 3
    ensures var v := RuleData(e, Fields, text)[Fields[i].key]; v.Null? || (v.Str? && IsIsoShape(v.s))
  {
    DischargeKeys();
    DateField(e, Fields, text, i);
  }
}
