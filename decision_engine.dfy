/**
 * The claim decision (`services/decision_engine.py`): an ordered chain of
 * rejection gates over the extracted records and the validation result,
 * approval when every gate passes, and the optional model that may replace
 * the rule decision.
 */
module DecisionEngine {
  import opened Wrappers
  import opened Strings
  import opened Seqs
  import opened DataModels
  import opened BaseAgent
  import Validator

  // ---------------------------------------------------------------------------
  // The rule set (`approval_rules`)

  const MaxDiscrepancies: nat := 2
  const MinConfidence: real := 0.3
  const MaxClaimAmount: real := 1000000.0
  /** How many discrepancies a rejection reason cites. */
  const CitedDiscrepancies: nat := 3

  /** The `:.2f` and `:,.2f` renderings of a number inside a reason; number
      formatting is not modelled and comes from here. */
  datatype Formats = Formats(fixed2: real -> string, grouped2: real -> string)

  // ---------------------------------------------------------------------------
  // _get_claim_amount

  /** A bill record whose `total_amount` is a non-zero number (`bool` counts
      as a number, as `isinstance(True, int)` holds in Python). */
  predicate Billed(record: ExtractedData) {
    && record.documentType == "hospital_bill"
    && Truthy(Get(record.data, "total_amount"))
    && NumberOf(Get(record.data, "total_amount")).Some?
  }

  function BilledAmount(record: ExtractedData): real
    requires Billed(record)
  {
    NumberOf(Get(record.data, "total_amount")).value
  }

  /** The total of the first billed record, or `None`. */
  function ClaimAmountOf(records: seq<ExtractedData>): (r: Option<real>)
    ensures r.Some? <==> exists j :: 0 <= j < |records| && Billed(records[j])
    ensures r.Some? ==> r.value != 0.0
  {
    if records == [] then None
    else if Billed(records[0]) then Some(BilledAmount(records[0]))
    else
      assert forall j :: 1 <= j < |records| ==> records[1..][j - 1] == records[j];
      ClaimAmountOf(records[1..])
  }

  /** `_get_claim_amount`: the loop over the records with its early return. */
  method GetClaimAmount(records: seq<ExtractedData>) returns (r: Option<real>)
    ensures r == ClaimAmountOf(records)
  {
    for i := 0 to |records|
      invariant ClaimAmountOf(records[i..]) == ClaimAmountOf(records)
    {
      assert records[i..][1..] == records[i + 1..];
      var record := records[i];
      if record.documentType == "hospital_bill" {
        var amount := Get(record.data, "total_amount");
        if Truthy(amount) && NumberOf(amount).Some? {
          return Some(NumberOf(amount).value);
        }
      }
    }
    return None;
  }

  /** The claim amount is the total of the first billed record: a later bill,
      or an earlier bill without a numeric total, is ignored. */
  lemma {:induction false} FirstBillWins(records: seq<ExtractedData>, j: nat)
    requires j < |records| && Billed(records[j])
    requires forall k :: 0 <= k < j ==> !Billed(records[k])
    ensures ClaimAmountOf(records) == Some(BilledAmount(records[j]))
    decreases j
  {
    if j > 0 {
      assert forall k :: 0 <= k < j - 1 ==> records[1..][k] == records[k + 1];
      FirstBillWins(records[1..], j - 1);
    }
  }

  // ---------------------------------------------------------------------------
  // _is_claim_valid

  /** Some record was extracted with confidence above 0.3. */
  predicate HasValidDocument(records: seq<ExtractedData>) {
    exists j :: 0 <= j < |records| && records[j].confidence > 0.3
  }

  predicate HasPatient(record: ExtractedData) {
    && (record.documentType == "hospital_bill" || record.documentType == "discharge_summary")
    && Truthy(Get(record.data, "patient_name"))
  }

  predicate HasAmount(record: ExtractedData) {
    record.documentType == "hospital_bill" && Truthy(Get(record.data, "total_amount"))
  }

  /** The three validity requirements. */
  predicate ClaimValid(records: seq<ExtractedData>) {
    && HasValidDocument(records)
    && (exists j :: 0 <= j < |records| && HasPatient(records[j]))
    && (exists j :: 0 <= j < |records| && HasAmount(records[j]))
  }

  /** `_is_claim_valid`: `any(...)` for the confidence, then one pass setting
      the patient and amount flags. */
  method IsClaimValid(records: seq<ExtractedData>) returns (valid: bool)
    ensures valid == ClaimValid(records)
  {
    var hasValidDoc := HasValidDocument(records);
    var hasPatientInfo := false;
    var hasAmountInfo := false;
    for i := 0 to |records|
      invariant hasPatientInfo <==> exists j :: 0 <= j < i && HasPatient(records[j])
      invariant hasAmountInfo <==> exists j :: 0 <= j < i && HasAmount(records[j])
    {
      var record := records[i];
      if record.documentType == "hospital_bill" || record.documentType == "discharge_summary" {
        if Truthy(Get(record.data, "patient_name")) {
          hasPatientInfo := true;
        }
      }
      if record.documentType == "hospital_bill" {
        if Truthy(Get(record.data, "total_amount")) {
          hasAmountInfo := true;
        }
      }
    }
    valid := hasValidDoc && hasPatientInfo && hasAmountInfo;
  }

  /** A claim amount implies amount information, but not the converse: a
      truthy total that is not a number counts for validity only. */
  lemma AmountImpliesAmountInfo(records: seq<ExtractedData>)
    requires ClaimAmountOf(records).Some?
    ensures exists j :: 0 <= j < |records| && HasAmount(records[j])
  {
    var j :| 0 <= j < |records| && Billed(records[j]);
    assert HasAmount(records[j]);
  }

  // ---------------------------------------------------------------------------
  // The mean confidence

  function TotalConfidence(records: seq<ExtractedData>): real {
    if records == [] then 0.0 else TotalConfidence(records[..|records| - 1]) + records[|records| - 1].confidence
  }

  /** `sum(data.extraction_confidence ...) / len(extracted_data)`. */
  function MeanConfidence(records: seq<ExtractedData>): real
    requires records != []
  {
    TotalConfidence(records) / (|records| as real)
  }

  /** Confidences in [0, 1] have a mean in [0, 1]. */
  lemma {:induction false} TotalConfidenceBounds(records: seq<ExtractedData>)
    requires forall j :: 0 <= j < |records| ==> 0.0 <= records[j].confidence <= 1.0
    ensures 0.0 <= TotalConfidence(records) <= |records| as real
    decreases |records|
  {
    if records != [] {
      var front := records[..|records| - 1];
      assert forall j :: 0 <= j < |front| ==> front[j] == records[j];
      TotalConfidenceBounds(front);
    }
  }

  lemma MeanConfidenceBounds(records: seq<ExtractedData>)
    requires records != []
    requires forall j :: 0 <= j < |records| ==> 0.0 <= records[j].confidence <= 1.0
    ensures 0.0 <= MeanConfidence(records) <= 1.0
  {
    TotalConfidenceBounds(records);
    var n := |records| as real;
    assert TotalConfidence(records) / n <= n / n;
  }

  // ---------------------------------------------------------------------------
  // _rule_based_decision

  /** Some missing-document entry mentions the bill. */
  predicate MissingBill(missing: seq<string>) {
    exists i :: 0 <= i < |missing| && Contains(missing[i], "hospital_bill")
  }

  const BillReasonPrefix := "Missing critical documents: "
  const ApprovalBase := "All documents verified and validation checks passed"

  function DiscrepancyReason(discrepancies: seq<string>): string {
    "Too many discrepancies found (" + NatToString(|discrepancies|) + "): " +
      JoinWith(Take(discrepancies, CitedDiscrepancies), "; ")
  }

  function LowConfidenceReason(fmt: Formats, mean: real): string {
    "Low data extraction confidence (" + fmt.fixed2(mean) + "). Unable to verify claim details."
  }

  function OverLimitReason(fmt: Formats, amount: real): string {
    "Claim amount (₹" + fmt.grouped2(amount) + ") exceeds maximum limit (₹" + fmt.grouped2(MaxClaimAmount) + ")"
  }

  function ApprovalReason(warnings: seq<string>): string {
    if warnings == [] then ApprovalBase
    else ApprovalBase + ". Note: " + NatToString(|warnings|) + " warnings found"
  }

  /** `min(x, 1.0)`. */
  function CapAtOne(x: real): real {
    if 1.0 < x then 1.0 else x
  }

  /** `_rule_based_decision`: the gates in order, each returning at once;
      the mean confidence divides by the record count, so no records raise
      `ZeroDivisionError` once the first two gates pass. The `claim_amount
      and` test of the amount gate is implied by the amount exceeding the
      limit. */
  function RuleDecision(fmt: Formats, records: seq<ExtractedData>, v: ValidationResult): Result<ClaimDecision, Fault>
  {
    if MissingBill(v.missingDocuments) then
      Ok(ClaimDecision(Rejected, BillReasonPrefix + JoinWith(v.missingDocuments, ", "), 0.9, None))
    else if |v.discrepancies| > MaxDiscrepancies then
      Ok(ClaimDecision(Rejected, DiscrepancyReason(v.discrepancies), 0.8, None))
    else if records == [] then
      Err(ZeroDivision)
    else
      var mean := MeanConfidence(records);
      if mean < MinConfidence then
        Ok(ClaimDecision(Rejected, LowConfidenceReason(fmt, mean), 0.7, None))
      else
        var amount := ClaimAmountOf(records);
        if amount.Some? && amount.value > MaxClaimAmount then
          Ok(ClaimDecision(Rejected, OverLimitReason(fmt, amount.value), 0.9, Some(MaxClaimAmount)))
        else if !ClaimValid(records) then
          Ok(ClaimDecision(Rejected, "Claim does not meet basic validity requirements", 0.8, None))
        else
          Ok(ClaimDecision(Approved, ApprovalReason(v.warnings), CapAtOne(mean + 0.2), amount))
  }

  /** Every gate passes. */
  predicate GatesPass(records: seq<ExtractedData>, v: ValidationResult) {
    && !MissingBill(v.missingDocuments)
    && |v.discrepancies| <= MaxDiscrepancies
    && records != []
    && MeanConfidence(records) >= MinConfidence
    && !(ClaimAmountOf(records).Some? && ClaimAmountOf(records).value > MaxClaimAmount)
    && ClaimValid(records)
  }

  /** The rules approve exactly when every gate passes, and then with a
      confidence in [0.5, 1.0] and the claim amount, at most the limit, as
      the recommended amount; every other outcome is a rejection or the
      division error, never pending. */
  lemma ApprovalSpec(fmt: Formats, records: seq<ExtractedData>, v: ValidationResult)
    ensures RuleDecision(fmt, records, v).Ok? && RuleDecision(fmt, records, v).value.status == Approved
      <==> GatesPass(records, v)
    ensures RuleDecision(fmt, records, v).Ok? ==> RuleDecision(fmt, records, v).value.status != Pending
    ensures GatesPass(records, v) ==>
      var d := RuleDecision(fmt, records, v).value;
      && 0.5 <= d.confidence <= 1.0
      && d.recommendedAmount == ClaimAmountOf(records)
      && (d.recommendedAmount.Some? ==> d.recommendedAmount.value <= MaxClaimAmount)
  {
  }

  /** A missing entry naming the bill rejects with confidence 0.9, whatever
      the discrepancies and the records are. */
  lemma MissingBillRejects(fmt: Formats, records: seq<ExtractedData>, v: ValidationResult)
    requires MissingBill(v.missingDocuments)
    ensures RuleDecision(fmt, records, v).Ok?
    ensures RuleDecision(fmt, records, v).value.status == Rejected
    ensures RuleDecision(fmt, records, v).value.confidence == 0.9
    ensures RuleDecision(fmt, records, v).value.recommendedAmount.None?
  {
  }

  /** Past the bill gate, more than two discrepancies reject with confidence
      0.8 and the reason cites exactly the first three. */
  lemma TooManyDiscrepanciesReject(fmt: Formats, records: seq<ExtractedData>, v: ValidationResult)
    requires !MissingBill(v.missingDocuments) && |v.discrepancies| > MaxDiscrepancies
    ensures RuleDecision(fmt, records, v) == Ok(ClaimDecision(Rejected, DiscrepancyReason(v.discrepancies), 0.8, None))
    ensures Take(v.discrepancies, CitedDiscrepancies) == v.discrepancies[..3]
  {
  }

  /** Past the first two gates, a mean confidence below 0.3 rejects with
      confidence 0.7 and no recommended amount. */
  lemma LowConfidenceRejects(fmt: Formats, records: seq<ExtractedData>, v: ValidationResult)
    requires !MissingBill(v.missingDocuments) && |v.discrepancies| <= MaxDiscrepancies
    requires records != [] && MeanConfidence(records) < MinConfidence
    ensures RuleDecision(fmt, records, v) ==
      Ok(ClaimDecision(Rejected, LowConfidenceReason(fmt, MeanConfidence(records)), 0.7, None))
  {
  }

  /** Past the first three gates, a claim amount above 1,000,000 rejects with
      confidence 0.9 and recommends exactly the limit. */
  lemma OverLimitRejects(fmt: Formats, records: seq<ExtractedData>, v: ValidationResult)
    requires !MissingBill(v.missingDocuments) && |v.discrepancies| <= MaxDiscrepancies
    requires records != [] && MeanConfidence(records) >= MinConfidence
    requires ClaimAmountOf(records).Some? && ClaimAmountOf(records).value > MaxClaimAmount
    ensures RuleDecision(fmt, records, v) ==
      Ok(ClaimDecision(Rejected, OverLimitReason(fmt, ClaimAmountOf(records).value), 0.9, Some(1000000.0)))
  {
  }

  /** Past the first four gates, a claim failing basic validity rejects with
      confidence 0.8 and the fixed reason. */
  lemma InvalidRejects(fmt: Formats, records: seq<ExtractedData>, v: ValidationResult)
    requires !MissingBill(v.missingDocuments) && |v.discrepancies| <= MaxDiscrepancies
    requires records != [] && MeanConfidence(records) >= MinConfidence
    requires !(ClaimAmountOf(records).Some? && ClaimAmountOf(records).value > MaxClaimAmount)
    requires !ClaimValid(records)
    ensures RuleDecision(fmt, records, v) ==
      Ok(ClaimDecision(Rejected, "Claim does not meet basic validity requirements", 0.8, None))
  {
  }

  /** With no records the rule decision raises once the first two gates
      pass; a claim amount of exactly the limit is not rejected for its
      amount, so it is approved exactly when the claim is valid. */
  lemma EdgeCases(fmt: Formats, records: seq<ExtractedData>, v: ValidationResult)
    ensures !MissingBill(v.missingDocuments) && |v.discrepancies| <= MaxDiscrepancies && records == [] ==>
      RuleDecision(fmt, records, v) == Err(ZeroDivision)
    ensures (&& ClaimAmountOf(records) == Some(MaxClaimAmount) && !MissingBill(v.missingDocuments)
             && |v.discrepancies| <= MaxDiscrepancies && records != [] && MeanConfidence(records) >= MinConfidence) ==>
      (RuleDecision(fmt, records, v).value.status == Approved <==> ClaimValid(records))
  {
  }

  /** The approval reason mentions the warnings only when there are some,
      and it tells different warning counts apart. */
  lemma ApprovalReasonCounts(w1: seq<string>, w2: seq<string>)
    ensures ApprovalReason(w1) == ApprovalBase <==> w1 == []
    ensures ApprovalReason(w1) == ApprovalReason(w2) ==> |w1| == |w2|
  {
    var n := |ApprovalBase|;
    if w1 != [] {
      assert |ApprovalReason(w1)| > n;
    }
    if ApprovalReason(w1) == ApprovalReason(w2) && w1 != [] && w2 != [] {
      var p := ApprovalBase + ". Note: ";
      var s1, s2 := NatToString(|w1|), NatToString(|w2|);
      var tail := " warnings found";
      assert p + s1 + tail == p + s2 + tail;
      assert (p + s1 + tail)[|p|..|p| + |s1|] == s1;
      assert (p + s2 + tail)[|p|..|p| + |s2|] == s2;
      assert |s1| == |s2|;
      NatToStringInjective(|w1|, |w2|);
    }
  }

  /** Validation's own missing-document list names the bill exactly when
      there is no bill record: a missing discharge summary alone never fires
      the bill gate. */
  lemma ValidatedBillGate(records: seq<ExtractedData>)
    ensures MissingBill(Validator.MissingOf(records)) <==> !Validator.HasType(records, "hospital_bill")
  {
    Validator.MissingSpec(records);
    var m := Validator.MissingOf(records);
    var bill := Validator.MissingPrefix + "hospital_bill";
    var discharge := Validator.MissingPrefix + "discharge_summary";
    if Validator.HasType(records, "hospital_bill") {
      NoBillInDischarge();
      assert m == [] || m == [discharge];
    } else {
      assert m[0] == bill;
      var n := |Validator.MissingPrefix|;
      assert bill[n..n + 13] == "hospital_bill";
      ContainsAt(bill, "hospital_bill", n);
    }
  }

  /** The discharge-summary entry has no `b`, so it cannot mention the bill. */
  lemma NoBillInDischarge()
    ensures !Contains(Validator.MissingPrefix + "discharge_summary", "hospital_bill")
  {
    var discharge := Validator.MissingPrefix + "discharge_summary";
    assert 'b' !in discharge;
    if Contains(discharge, "hospital_bill") {
      ContainsChars(discharge, "hospital_bill", 9);
      assert false;
    }
  }

  // ---------------------------------------------------------------------------
  // make_decision

  /**
   * The optional decision model. `ask` is the model call on the prompt built
   * from the records, the validation result and the rule decision (`None`
   * when it raises); `decodeJson` is `json.loads` (`None` for its error);
   * `build` is `ClaimDecision(**fields)` (`None` when it raises).
   */
  datatype DecisionModel =
    | NoDecisionModel
    | DecisionModel(
        ask: (seq<ExtractedData>, ValidationResult, ClaimDecision) -> Option<string>,
        decodeJson: string -> Option<Value>,
        build: Fields -> Option<ClaimDecision>)

  /** `_parse_ai_response`: the greedy `{ ... }` span decoded; no span is no result. */
  function ParseAiResponse(decodeJson: string -> Option<Value>, reply: string): (r: Option<Value>)
    ensures JsonSpan(reply).None? ==> r.None?
  {
    match JsonSpan(reply)
    case Some((i, j)) => decodeJson(reply[i..j])
    case None => None
  }

  /** `_ai_assisted_decision`: the model's decision when its reply parses to
      a non-empty object that builds a decision, and the rule decision in
      every other case. */
  function AiDecision(model: DecisionModel, records: seq<ExtractedData>, v: ValidationResult, rule: ClaimDecision): ClaimDecision
    requires model.DecisionModel?
  {
    match model.ask(records, v, rule)
    case None => rule
    case Some(reply) =>
      match ParseAiResponse(model.decodeJson, reply)
      case Some(Obj(fields)) =>
        if fields != map[] then
          match model.build(fields)
          case Some(d) => d
          case None => rule
        else rule
      case _ => rule
  }

  const SystemErrorPrefix := "Unable to process claim due to system error: "

  /** `make_decision`: the rule decision, replaced by the model's when a model
      is configured; an exception from the rules becomes a rejection with
      confidence 0.1 carrying its message. */
  function MakeDecision(fmt: Formats, model: DecisionModel, records: seq<ExtractedData>, v: ValidationResult): (d: ClaimDecision)
    ensures RuleDecision(fmt, records, v).Err? ==>
      d == ClaimDecision(Rejected, SystemErrorPrefix + RuleDecision(fmt, records, v).error.Message(), 0.1, None)
    ensures model.NoDecisionModel? && RuleDecision(fmt, records, v).Ok? ==> d == RuleDecision(fmt, records, v).value
  {
    match RuleDecision(fmt, records, v)
    case Err(f) => ClaimDecision(Rejected, SystemErrorPrefix + f.Message(), 0.1, None)
    case Ok(rule) =>
      if model.NoDecisionModel? then rule else AiDecision(model, records, v, rule)
  }

  /** A model that fails, answers without a `{ ... }` span, or answers with
      something that does not build a decision leaves the rule decision in
      place; only a built decision replaces it. */
  lemma AiFallback(model: DecisionModel, records: seq<ExtractedData>, v: ValidationResult, rule: ClaimDecision)
    requires model.DecisionModel?
    ensures model.ask(records, v, rule).None? ==> AiDecision(model, records, v, rule) == rule
    ensures model.ask(records, v, rule).Some? && JsonSpan(model.ask(records, v, rule).value).None? ==>
      AiDecision(model, records, v, rule) == rule
    ensures AiDecision(model, records, v, rule) == rule ||
      exists fields :: fields != map[] && model.build(fields) == Some(AiDecision(model, records, v, rule))
  {
  }

  /** With no records (and the first two gates passing) the claim is
      rejected with confidence 0.1 whatever the model says. */
  lemma EmptyClaimRejected(fmt: Formats, model: DecisionModel, v: ValidationResult)
    requires !MissingBill(v.missingDocuments) && |v.discrepancies| <= MaxDiscrepancies
    ensures MakeDecision(fmt, model, [], v) ==
      ClaimDecision(Rejected, SystemErrorPrefix + "division by zero", 0.1, None)
  {
  }
}
