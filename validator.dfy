/**
 * The cross-document validator (`services/validator.py`): missing required
 * document types, disagreements between the last record of each type, and
 * warnings for low confidence and missing fields.
 */
module Validator {
  import opened Wrappers
  import opened Strings
  import opened Seqs
  import opened DataModels

  /** How values are rendered inside messages. A string is rendered as
      itself; `str()` of any other value and the `:.2f` rendering of a
      confidence are not modelled and come from here. */
  datatype Show = Show(other: Value -> string, fixed2: real -> string)

  /** `str(v)` inside an f-string. */
  function Render(show: Show, v: Value): string {
    if v.Str? then v.s else show.other(v)
  }

  /** The types whose absence is reported, in order. */
  const RequiredDocuments: seq<string> := ["hospital_bill", "discharge_summary"]

  // ---------------------------------------------------------------------------
  // Missing documents

  /** Some record has this document type. */
  predicate HasType(records: seq<ExtractedData>, t: string) {
    exists j :: 0 <= j < |records| && records[j].documentType == t
  }

  const MissingPrefix := "Missing required document: "

  function MissingEntry(records: seq<ExtractedData>, t: string): Option<string> {
    if HasType(records, t) then None else Some(MissingPrefix + t)
  }

  function MissingStep(records: seq<ExtractedData>): string -> Option<string> {
    t => MissingEntry(records, t)
  }

  /** `_check_missing_documents`. */
  function MissingOf(records: seq<ExtractedData>): seq<string>
  {
    Collect(MissingStep(records), RequiredDocuments)
  }

  /** The loop over the required types. */
  method CheckMissingDocuments(records: seq<ExtractedData>) returns (missing: seq<string>)
    ensures missing == MissingOf(records)
  {
    var types := seq(|records|, j requires 0 <= j < |records| => records[j].documentType);
    missing := [];
    var entry := MissingStep(records);
    for i := 0 to |RequiredDocuments|
      invariant missing == Collect(entry, RequiredDocuments[..i])
    {
      var required := RequiredDocuments[i];
      assert RequiredDocuments[..i + 1] == RequiredDocuments[..i] + [required];
      CollectSnoc(entry, RequiredDocuments[..i], required);
      assert required in types <==> HasType(records, required) by {
        if required in types {
          var j :| 0 <= j < |types| && types[j] == required;
          assert records[j].documentType == required;
        }
        if HasType(records, required) {
          var j :| 0 <= j < |records| && records[j].documentType == required;
          assert types[j] == required;
        }
      }
      if required !in types {
        missing := missing + [MissingPrefix + required];
      }
    }
    assert RequiredDocuments[..|RequiredDocuments|] == RequiredDocuments;
  }

  /** One entry per absent required type, the bill first; an insurance card
      is never reported. */
  lemma MissingSpec(records: seq<ExtractedData>)
    ensures MissingOf(records) ==
      (if HasType(records, "hospital_bill") then [] else [MissingPrefix + "hospital_bill"]) +
      (if HasType(records, "discharge_summary") then [] else [MissingPrefix + "discharge_summary"])
    ensures |MissingOf(records)| <= 2
    ensures MissingPrefix + "insurance_card" !in MissingOf(records)
  {
    var n := |MissingPrefix|;
    assert (MissingPrefix + "insurance_card")[n] == 'i';
    assert (MissingPrefix + "hospital_bill")[n] == 'h';
    assert (MissingPrefix + "discharge_summary")[n] == 'd';
    var entry := MissingStep(records);
    assert RequiredDocuments == [] + ["hospital_bill"] + ["discharge_summary"];
    CollectSnoc(entry, [], "hospital_bill");
    CollectSnoc(entry, [] + ["hospital_bill"], "discharge_summary");
  }

  // ---------------------------------------------------------------------------
  // Grouping by type

  /** `data_by_type`: each type's data, a later record overwriting an earlier one. */
  function DataByType(records: seq<ExtractedData>): (m: map<string, Fields>)
    ensures forall t :: t in m <==> HasType(records, t)
  {
    if records == [] then map[]
    else
      var front := records[..|records| - 1];
      var last := records[|records| - 1];
      assert forall j :: 0 <= j < |front| ==> front[j] == records[j];
      DataByType(front)[last.documentType := last.data]
  }

  /** The loop filling `data_by_type`. */
  method GroupByType(records: seq<ExtractedData>) returns (m: map<string, Fields>)
    ensures m == DataByType(records)
  {
    m := map[];
    for i := 0 to |records|
      invariant m == DataByType(records[..i])
    {
      assert records[..i + 1][..i] == records[..i];
      m := m[records[i].documentType := records[i].data];
    }
    assert records[..|records|] == records;
  }

  /** Only the last record of a type counts: its data is the type's data. */
  lemma {:induction false} LastRecordWins(records: seq<ExtractedData>, j: nat)
    requires j < |records|
    requires forall k :: j < k < |records| ==> records[k].documentType != records[j].documentType
    ensures DataByType(records)[records[j].documentType] == records[j].data
    decreases |records|
  {
    if j < |records| - 1 {
      var front := records[..|records| - 1];
      assert front[j] == records[j];
      assert forall k :: j < k < |front| ==> front[k] == records[k];
      LastRecordWins(front, j);
    }
  }

  // ---------------------------------------------------------------------------
  // Name normalisation

  /** `' '.join(name.lower().split())`; a name that is not a string has no
      `.lower()`. */
  function PatientKey(v: Value): Result<string, Fault> {
    if v.Str? then Ok(Squash(Lower(v.s))) else Err(AttributeError(TypeName(v), "lower"))
  }

  /** A JSON integer or fraction given as a name raises `AttributeError`
      naming Python's own type, `int` or `float`. */
  lemma NumericNameRaises(i: int, r: real)
    ensures PatientKey(Int(i)) == Err(AttributeError("int", "lower"))
    ensures HospitalKey(Num(r)) == Err(AttributeError("float", "lower"))
  {
  }

  /** The words deleted from hospital names, in the order `.replace` applies them. */
  const HospitalWords: seq<string> := ["hospital", "medical", "centre", "center"]

  /** The words deleted from insurer names, in order. */
  const InsurerWords: seq<string> := ["insurance", "general", "ltd", "limited"]

  /** Each word of `words` deleted in turn. */
  function RemoveWords(s: string, words: seq<string>): string
    requires forall i :: 0 <= i < |words| ==> words[i] != []
    decreases |words|
  {
    if words == [] then s else RemoveWords(RemoveAll(s, words[0]), words[1..])
  }

  /** Lowercased, the words deleted, whitespace collapsed. */
  function CoreName(s: string, words: seq<string>): string
    requires forall i :: 0 <= i < |words| ==> words[i] != []
  {
    Squash(RemoveWords(Lower(s), words))
  }

  function HospitalKey(v: Value): Result<string, Fault> {
    if v.Str? then Ok(CoreName(v.s, HospitalWords)) else Err(AttributeError(TypeName(v), "lower"))
  }

  function InsurerKey(v: Value): Result<string, Fault> {
    if v.Str? then Ok(CoreName(v.s, InsurerWords)) else Err(AttributeError(TypeName(v), "lower"))
  }

  /** The normalised names, in order, or the error of the first name that
      cannot be normalised. */
  function NormalizeAll(key: Value -> Result<string, Fault>, names: seq<Value>): (r: Result<seq<string>, Fault>)
    ensures r.Ok? ==> |r.value| == |names| && forall i :: 0 <= i < |names| ==> key(names[i]) == Ok(r.value[i])
  {
    if names == [] then Ok([])
    else
      match NormalizeAll(key, names[..|names| - 1])
      case Err(f) => Err(f)
      case Ok(front) =>
        match key(names[|names| - 1])
        case Err(f) => Err(f)
        case Ok(k) =>
          assert forall i :: 0 <= i < |names| - 1 ==> names[..|names| - 1][i] == names[i];
          Ok(front + [k])
  }

  /** The loop building `normalized_names`. */
  method NormalizeNames(key: Value -> Result<string, Fault>, names: seq<Value>) returns (r: Result<seq<string>, Fault>)
    ensures r == NormalizeAll(key, names)
  {
    var normalized: seq<string> := [];
    for i := 0 to |names|
      invariant NormalizeAll(key, names[..i]) == Ok(normalized)
    {
      assert names[..i + 1][..i] == names[..i];
      var k := key(names[i]);
      if k.Err? {
        FirstFaultStays(key, names, i + 1);
        assert names[..|names|] == names;
        return Err(k.error);
      }
      normalized := normalized + [k.value];
    }
    assert names[..|names|] == names;
    return Ok(normalized);
  }

  /** Once a prefix of the names fails to normalise, so do all the names. */
  lemma {:induction false} FirstFaultStays(key: Value -> Result<string, Fault>, names: seq<Value>, n: nat)
    requires n <= |names| && NormalizeAll(key, names[..n]).Err?
    ensures NormalizeAll(key, names) == NormalizeAll(key, names[..n])
    decreases |names| - n
  {
    if n < |names| {
      assert names[..n + 1][..n] == names[..n];
      FirstFaultStays(key, names, n + 1);
    } else {
      assert names[..n] == names;
    }
  }

  /** `_names_match` / `_hospital_names_match`: no names match trivially;
      otherwise every normalised name must equal the first. */
  function AllMatch(key: Value -> Result<string, Fault>, names: seq<Value>): Result<bool, Fault>
  {
    if names == [] then Ok(true)
    else
      match NormalizeAll(key, names)
      case Err(f) => Err(f)
      case Ok(ns) => Ok(forall i :: 0 <= i < |ns| ==> ns[i] == ns[0])
  }

  /** `_names_match` with the loop over `normalized_names`. */
  method NamesMatch(key: Value -> Result<string, Fault>, names: seq<Value>) returns (r: Result<bool, Fault>)
    ensures r == AllMatch(key, names)
  {
    if names == [] {
      return Ok(true);
    }
    var normalized := NormalizeNames(key, names);
    if normalized.Err? {
      return Err(normalized.error);
    }
    var ns := normalized.value;
    var first := ns[0];
    var same := true;
    for i := 0 to |ns|
      invariant same <==> forall k :: 0 <= k < i ==> ns[k] == first
    {
      same := same && ns[i] == first;
    }
    return Ok(same);
  }

  /** Two names match exactly when they normalise to the same text; the
      first name that cannot be normalised raises. */
  lemma PairMatch(key: Value -> Result<string, Fault>, x: Value, y: Value)
    ensures key(x).Err? ==> AllMatch(key, [x, y]) == Err(key(x).error)
    ensures key(x).Ok? && key(y).Err? ==> AllMatch(key, [x, y]) == Err(key(y).error)
    ensures key(x).Ok? && key(y).Ok? ==> AllMatch(key, [x, y]) == Ok(key(x).value == key(y).value)
  {
    assert [x, y][..1] == [x];
    assert [x][..0] == [];
    assert NormalizeAll(key, []) == Ok([]);
    if key(x).Ok? {
      assert [] + [key(x).value] == [key(x).value];
      assert NormalizeAll(key, [x]) == Ok([key(x).value]);
      assert [x, y][|[x, y]| - 1] == y;
      if key(y).Ok? {
        assert [key(x).value] + [key(y).value] == [key(x).value, key(y).value];
        var ns := [key(x).value, key(y).value];
        assert NormalizeAll(key, [x, y]) == Ok(ns);
        assert (forall i :: 0 <= i < |ns| ==> ns[i] == ns[0]) <==> ns[1] == ns[0];
      } else {
        assert NormalizeAll(key, [x, y]) == Err(key(y).error);
      }
    } else {
      assert NormalizeAll(key, [x]) == Err(key(x).error);
      assert NormalizeAll(key, [x, y]) == Err(key(x).error);
    }
  }

  /** Two patient names match exactly when they have the same words once
      lowercased: case and whitespace runs make no difference. */
  lemma PatientNamesMatch(a: string, b: string)
    ensures AllMatch(PatientKey, [Str(a), Str(b)]) == Ok(Words(Lower(a)) == Words(Lower(b)))
  {
    SquashSameWords(Lower(a), Lower(b));
    PairMatch(PatientKey, Str(a), Str(b));
  }

  /** Two hospital names match exactly when their core names (lowercased,
      the four words deleted, whitespace collapsed) are equal. */
  lemma HospitalNamesMatch(a: string, b: string)
    ensures AllMatch(HospitalKey, [Str(a), Str(b)]) == Ok(CoreName(a, HospitalWords) == CoreName(b, HospitalWords))
  {
    PairMatch(HospitalKey, Str(a), Str(b));
  }

  /** `_insurance_companies_match`: the first name is normalised first. */
  function InsurersMatch(a: Value, b: Value): Result<bool, Fault>
  {
    match InsurerKey(a)
    case Err(f) => Err(f)
    case Ok(x) =>
      match InsurerKey(b)
      case Err(f) => Err(f)
      case Ok(y) => Ok(x == y)
  }

  /** Insurer matching is an equivalence on names: symmetric, reflexive and
      transitive. */
  lemma InsurersMatchEquivalence(a: string, b: string, c: string)
    ensures InsurersMatch(Str(a), Str(b)) == InsurersMatch(Str(b), Str(a))
    ensures InsurersMatch(Str(a), Str(a)) == Ok(true)
    ensures InsurersMatch(Str(a), Str(b)) == Ok(true) && InsurersMatch(Str(b), Str(c)) == Ok(true) ==>
      InsurersMatch(Str(a), Str(c)) == Ok(true)
  {
  }

  // ---------------------------------------------------------------------------
  // Discrepancies

  /** `get("patient_name") or get("card_holder_name")`. */
  function PatientNameOf(data: Fields): Value {
    if Truthy(Get(data, "patient_name")) then Get(data, "patient_name") else Get(data, "card_holder_name")
  }

  /** The entry for one type, when that type is present and the field truthy. */
  function NamedEntry(byType: map<string, Fields>, field: Fields -> Value, t: string): Option<(string, Value)> {
    if t in byType && Truthy(field(byType[t])) then Some((t, field(byType[t]))) else None
  }

  function HospitalNameOf(data: Fields): Value { Get(data, "hospital_name") }

  const NameTypes: seq<string> := ["hospital_bill", "discharge_summary", "insurance_card"]
  const HospitalTypes: seq<string> := ["hospital_bill", "discharge_summary"]

  function EntryStep(byType: map<string, Fields>, field: Fields -> Value): string -> Option<(string, Value)> {
    t => NamedEntry(byType, field, t)
  }

  /** `patient_names` / `hospital_names`: the (type, name) pairs in type order. */
  function Entries(byType: map<string, Fields>, field: Fields -> Value, types: seq<string>): seq<(string, Value)>
  {
    Collect(EntryStep(byType, field), types)
  }

  /** The loop filling `patient_names` or `hospital_names`. */
  method CollectEntries(byType: map<string, Fields>, field: Fields -> Value, types: seq<string>) returns (entries: seq<(string, Value)>)
    ensures entries == Entries(byType, field, types)
  {
    entries := [];
    var entry := EntryStep(byType, field);
    for i := 0 to |types|
      invariant entries == Collect(entry, types[..i])
    {
      var t := types[i];
      assert types[..i + 1] == types[..i] + [t];
      CollectSnoc(entry, types[..i], t);
      if t in byType {
        var name := field(byType[t]);
        if Truthy(name) {
          entries := entries + [(t, name)];
        }
      }
    }
    assert types[..|types|] == types;
  }

  function EntryNames(entries: seq<(string, Value)>): seq<Value> {
    seq(|entries|, i requires 0 <= i < |entries| => entries[i].1)
  }

  /** `', '.join(f'{doc}: {name}' ...)`. */
  function EntryList(show: Show, entries: seq<(string, Value)>): string {
    JoinWith(seq(|entries|, i requires 0 <= i < |entries| => entries[i].0 + ": " + Render(show, entries[i].1)), ", ")
  }

  /** A mismatch entry when more than one name is present and they do not
      all match. */
  function MismatchCheck(show: Show, key: Value -> Result<string, Fault>, entries: seq<(string, Value)>, prefix: string): Result<seq<string>, Fault>
  {
    if |entries| <= 1 then Ok([])
    else
      match AllMatch(key, EntryNames(entries))
      case Err(f) => Err(f)
      case Ok(same) => Ok(if same then [] else [prefix + EntryList(show, entries)])
  }

  const NamePrefix := "Patient name mismatch across documents: "
  const HospitalPrefix := "Hospital name mismatch: "

  /** One date comparison between the bill and the discharge summary. */
  function DateCheck(show: Show, byType: map<string, Fields>, field: string, title: string): seq<string>
  {
    if "hospital_bill" in byType && "discharge_summary" in byType then
      var b := Get(byType["hospital_bill"], field);
      var d := Get(byType["discharge_summary"], field);
      if Truthy(b) && Truthy(d) && !PyEq(b, d) then
        [title + " date mismatch: Bill shows " + Render(show, b) + ", Discharge summary shows " + Render(show, d)]
      else []
    else []
  }

  /** The insurer comparison between the bill and the card. */
  function InsurerCheck(show: Show, byType: map<string, Fields>): Result<seq<string>, Fault>
  {
    if "hospital_bill" in byType && "insurance_card" in byType then
      var b := Get(byType["hospital_bill"], "insurance_company");
      var c := Get(byType["insurance_card"], "insurance_company");
      if Truthy(b) && Truthy(c) then
        match InsurersMatch(b, c)
        case Err(f) => Err(f)
        case Ok(same) => Ok(if same then [] else ["Insurance company mismatch: Bill shows " + Render(show, b) + ", Card shows " + Render(show, c)])
      else Ok([])
    else Ok([])
  }

  /** `_check_discrepancies`: the name, admission-date, discharge-date,
      hospital and insurer checks, in that order, each contributing at most
      one entry; a name that is not a string raises in the first check that
      normalises it. */
  function DiscrepanciesOf(show: Show, records: seq<ExtractedData>): Result<seq<string>, Fault>
  {
    var byType := DataByType(records);
    match MismatchCheck(show, PatientKey, Entries(byType, PatientNameOf, NameTypes), NamePrefix)
    case Err(f) => Err(f)
    case Ok(names) =>
      var dates := DateCheck(show, byType, "admission_date", "Admission") + DateCheck(show, byType, "discharge_date", "Discharge");
      match MismatchCheck(show, HospitalKey, Entries(byType, HospitalNameOf, HospitalTypes), HospitalPrefix)
      case Err(f) => Err(f)
      case Ok(hospitals) =>
        match InsurerCheck(show, byType)
        case Err(f) => Err(f)
        case Ok(insurers) => Ok(names + dates + hospitals + insurers)
  }

  /** `_check_discrepancies` as the source runs it, check by check. */
  method CheckDiscrepancies(show: Show, records: seq<ExtractedData>) returns (r: Result<seq<string>, Fault>)
    ensures r == DiscrepanciesOf(show, records)
  {
    var byType := GroupByType(records);
    var patientNames := CollectEntries(byType, PatientNameOf, NameTypes);
    var names := MismatchEntry(show, PatientKey, patientNames, NamePrefix);
    if names.Err? {
      return Err(names.error);
    }
    var dates := DateCheck(show, byType, "admission_date", "Admission") + DateCheck(show, byType, "discharge_date", "Discharge");
    var hospitalNames := CollectEntries(byType, HospitalNameOf, HospitalTypes);
    var hospitals := MismatchEntry(show, HospitalKey, hospitalNames, HospitalPrefix);
    if hospitals.Err? {
      return Err(hospitals.error);
    }
    var insurers := InsurerCheck(show, byType);
    if insurers.Err? {
      return Err(insurers.error);
    }
    return Ok(names.value + dates + hospitals.value + insurers.value);
  }

  /** The name or hospital block of `_check_discrepancies`. */
  method MismatchEntry(show: Show, key: Value -> Result<string, Fault>, entries: seq<(string, Value)>, prefix: string)
    returns (r: Result<seq<string>, Fault>)
    ensures r == MismatchCheck(show, key, entries, prefix)
  {
    if |entries| <= 1 {
      return Ok([]);
    }
    var same := NamesMatch(key, EntryNames(entries));
    if same.Err? {
      return Err(same.error);
    }
    if same.value {
      return Ok([]);
    }
    return Ok([prefix + EntryList(show, entries)]);
  }

  /** At most five discrepancies, at most one per check. */
  lemma DiscrepancyCount(show: Show, records: seq<ExtractedData>)
    requires DiscrepanciesOf(show, records).Ok?
    ensures |DiscrepanciesOf(show, records).value| <= 5
  {
    var byType := DataByType(records);
    MismatchAtMostOne(show, PatientKey, Entries(byType, PatientNameOf, NameTypes), NamePrefix);
    DateCheckSpec(show, byType, "admission_date", "Admission");
    DateCheckSpec(show, byType, "discharge_date", "Discharge");
    MismatchAtMostOne(show, HospitalKey, Entries(byType, HospitalNameOf, HospitalTypes), HospitalPrefix);
    InsurerAtMostOne(show, byType);
  }

  /** A name or hospital check contributes at most one entry. */
  lemma MismatchAtMostOne(show: Show, key: Value -> Result<string, Fault>, entries: seq<(string, Value)>, prefix: string)
    ensures MismatchCheck(show, key, entries, prefix).Ok? ==> |MismatchCheck(show, key, entries, prefix).value| <= 1
  {
  }

  /** The insurer check contributes at most one entry. */
  lemma InsurerAtMostOne(show: Show, byType: map<string, Fields>)
    ensures InsurerCheck(show, byType).Ok? ==> |InsurerCheck(show, byType).value| <= 1
  {
  }

  /** A date discrepancy is reported exactly when both a bill and a
      discharge summary exist, both values are present and they differ
      under Python's `!=`. */
  lemma DateCheckSpec(show: Show, byType: map<string, Fields>, field: string, title: string)
    ensures |DateCheck(show, byType, field, title)| <= 1
    ensures DateCheck(show, byType, field, title) != [] <==>
      && "hospital_bill" in byType && "discharge_summary" in byType
      && Truthy(Get(byType["hospital_bill"], field)) && Truthy(Get(byType["discharge_summary"], field))
      && !PyEq(Get(byType["hospital_bill"], field), Get(byType["discharge_summary"], field))
  {
  }

  /** Values Python's `==` identifies never give a date discrepancy, so a
      bill's `True` and a discharge summary's `1` agree. */
  lemma DateCheckPythonEquality(show: Show, byType: map<string, Fields>, field: string, title: string)
    requires "hospital_bill" in byType && "discharge_summary" in byType
    requires PyEq(Get(byType["hospital_bill"], field), Get(byType["discharge_summary"], field))
    ensures DateCheck(show, byType, field, title) == []
  {
  }

  /** With fewer than two names there is no check; with two string names
      whose words differ once lowercased there is exactly one entry, and
      with the same words none. */
  lemma NameCheckSpec(show: Show, entries: seq<(string, Value)>)
    ensures |entries| <= 1 ==> MismatchCheck(show, PatientKey, entries, NamePrefix) == Ok([])
    ensures |entries| == 2 && entries[0].1.Str? && entries[1].1.Str? ==>
      MismatchCheck(show, PatientKey, entries, NamePrefix) ==
        Ok(if Words(Lower(entries[0].1.s)) == Words(Lower(entries[1].1.s)) then []
           else [NamePrefix + EntryList(show, entries)])
  {
    if |entries| == 2 && entries[0].1.Str? && entries[1].1.Str? {
      assert EntryNames(entries) == [Str(entries[0].1.s), Str(entries[1].1.s)];
      PatientNamesMatch(entries[0].1.s, entries[1].1.s);
    }
  }

  // ---------------------------------------------------------------------------
  // Warnings

  const LowPrefix := "Low confidence extraction for "

  /** The low-confidence warning for one record, if its confidence is below 0.5. */
  function LowConfidence(show: Show, record: ExtractedData): Option<string> {
    if record.confidence < 0.5 then
      Some(LowPrefix + record.documentType + ": " + show.fixed2(record.confidence))
    else None
  }

  function Warn(missing: bool, message: string): seq<string> {
    if missing then [message] else []
  }

  /** The two missing-field warnings of one document type, when present. */
  function TypeWarnings(byType: map<string, Fields>, t: string, f1: string, m1: string, f2: string, m2: string): (w: seq<string>)
    ensures t !in byType ==> w == []
    ensures |w| <= 2
  {
    if t in byType then Warn(!Truthy(Get(byType[t], f1)), m1) + Warn(!Truthy(Get(byType[t], f2)), m2) else []
  }

  /** The missing-field warnings for the bill, the discharge summary and
      the card, in that order. */
  function FieldWarnings(byType: map<string, Fields>): (w: seq<string>)
    ensures |w| <= 6
  {
    TypeWarnings(byType, "hospital_bill", "total_amount", "Hospital bill missing total amount",
      "patient_name", "Hospital bill missing patient name") +
    TypeWarnings(byType, "discharge_summary", "diagnosis", "Discharge summary missing diagnosis",
      "patient_name", "Discharge summary missing patient name") +
    TypeWarnings(byType, "insurance_card", "policy_number", "Insurance card missing policy number",
      "sum_insured", "Insurance card missing sum insured amount")
  }

  /** `_check_warnings`: one low-confidence warning per record in input
      order, then the missing-field warnings. */
  function LowStep(show: Show): ExtractedData -> Option<string> {
    r => LowConfidence(show, r)
  }

  function WarningsOf(show: Show, records: seq<ExtractedData>): seq<string>
  {
    Collect(LowStep(show), records) + FieldWarnings(DataByType(records))
  }

  /** `_check_warnings` as the source runs it. */
  method CheckWarnings(show: Show, records: seq<ExtractedData>) returns (warnings: seq<string>)
    ensures warnings == WarningsOf(show, records)
  {
    warnings := LowConfidenceWarnings(show, records);
    var byType := GroupByType(records);
    var fields := AllFieldWarnings(byType);
    warnings := warnings + fields;
  }

  /** The three missing-field blocks of `_check_warnings`, in order. */
  method AllFieldWarnings(byType: map<string, Fields>) returns (w: seq<string>)
    ensures w == FieldWarnings(byType)
  {
    var bill := MissingFieldWarnings(byType, "hospital_bill", "total_amount", "Hospital bill missing total amount",
      "patient_name", "Hospital bill missing patient name");
    var discharge := MissingFieldWarnings(byType, "discharge_summary", "diagnosis", "Discharge summary missing diagnosis",
      "patient_name", "Discharge summary missing patient name");
    var card := MissingFieldWarnings(byType, "insurance_card", "policy_number", "Insurance card missing policy number",
      "sum_insured", "Insurance card missing sum insured amount");
    w := bill + discharge + card;
  }

  /** The low-confidence loop of `_check_warnings`. */
  method LowConfidenceWarnings(show: Show, records: seq<ExtractedData>) returns (warnings: seq<string>)
    ensures warnings == Collect(LowStep(show), records)
  {
    warnings := [];
    var low := LowStep(show);
    for i := 0 to |records|
      invariant warnings == Collect(low, records[..i])
    {
      assert records[..i + 1] == records[..i] + [records[i]];
      CollectSnoc(low, records[..i], records[i]);
      if records[i].confidence < 0.5 {
        warnings := warnings + [LowPrefix + records[i].documentType + ": " + show.fixed2(records[i].confidence)];
      }
    }
    assert records[..|records|] == records;
  }

  /** One of the three missing-field blocks of `_check_warnings`. */
  method MissingFieldWarnings(byType: map<string, Fields>, t: string, f1: string, m1: string, f2: string, m2: string)
    returns (w: seq<string>)
    ensures w == TypeWarnings(byType, t, f1, m1, f2, m2)
  {
    w := [];
    if t in byType {
      var data := byType[t];
      if !Truthy(Get(data, f1)) {
        w := w + [m1];
      }
      if !Truthy(Get(data, f2)) {
        w := w + [m2];
      }
    }
  }

  /** The warnings start with one entry for each record below 0.5, and a
      record at or above 0.5 contributes none; at most six field warnings follow. */
  lemma WarningsSpec(show: Show, records: seq<ExtractedData>, j: nat)
    requires j < |records|
    ensures records[j].confidence < 0.5 ==>
      LowConfidence(show, records[j]).value in WarningsOf(show, records)
    ensures |FieldWarnings(DataByType(records))| <= 6
    ensures |WarningsOf(show, records)| <= |records| + 6
  {
    var low := LowStep(show);
    if records[j].confidence < 0.5 {
      CollectComplete(low, records, j);
    }
  }

  // ---------------------------------------------------------------------------
  // validate

  /** `validate`: the three checks in order; only the discrepancy check can raise. */
  function ValidateOf(show: Show, records: seq<ExtractedData>): Result<ValidationResult, Fault>
  {
    match DiscrepanciesOf(show, records)
    case Err(f) => Err(f)
    case Ok(d) => Ok(ValidationResult(MissingOf(records), d, WarningsOf(show, records)))
  }

  method Validate(show: Show, records: seq<ExtractedData>) returns (r: Result<ValidationResult, Fault>)
    ensures r == ValidateOf(show, records)
  {
    var missing := CheckMissingDocuments(records);
    var discrepancies := CheckDiscrepancies(show, records);
    if discrepancies.Err? {
      return Err(discrepancies.error);
    }
    var warnings := CheckWarnings(show, records);
    return Ok(ValidationResult(missing, discrepancies.value, warnings));
  }

  /** A present name field holds a string. */
  predicate StringOrFalsy(v: Value) { Truthy(v) ==> v.Str? }

  /** Every name field the validator normalises is a string where present. */
  predicate StringNames(data: Fields) {
    && StringOrFalsy(Get(data, "patient_name"))
    && StringOrFalsy(Get(data, "card_holder_name"))
    && StringOrFalsy(Get(data, "hospital_name"))
    && StringOrFalsy(Get(data, "insurance_company"))
  }

  lemma {:induction false} GroupedStringNames(records: seq<ExtractedData>)
    requires forall j :: 0 <= j < |records| ==> StringNames(records[j].data)
    ensures forall t :: t in DataByType(records) ==> StringNames(DataByType(records)[t])
    decreases |records|
  {
    if records != [] {
      var front := records[..|records| - 1];
      assert forall j :: 0 <= j < |front| ==> front[j] == records[j];
      GroupedStringNames(front);
    }
  }

  lemma EntriesAreStrings(byType: map<string, Fields>, field: Fields -> Value, types: seq<string>)
    requires forall t :: t in byType ==> StringOrFalsy(field(byType[t]))
    ensures forall i :: 0 <= i < |Entries(byType, field, types)| ==> Entries(byType, field, types)[i].1.Str?
  {
    var entries := Entries(byType, field, types);
    CollectFrom(EntryStep(byType, field), types);
    forall i | 0 <= i < |entries| ensures entries[i].1.Str? {
      assert ResultOf(EntryStep(byType, field), types, entries[i]);
      var j :| 0 <= j < |types| && EntryStep(byType, field)(types[j]) == Some(entries[i]);
    }
  }

  lemma MismatchOk(show: Show, key: Value -> Result<string, Fault>, entries: seq<(string, Value)>, prefix: string)
    requires forall i :: 0 <= i < |entries| ==> key(entries[i].1).Ok?
    ensures MismatchCheck(show, key, entries, prefix).Ok?
  {
    NormalizeAllOk(key, EntryNames(entries));
  }

  lemma {:induction false} NormalizeAllOk(key: Value -> Result<string, Fault>, names: seq<Value>)
    requires forall i :: 0 <= i < |names| ==> key(names[i]).Ok?
    ensures NormalizeAll(key, names).Ok?
    decreases |names|
  {
    if names != [] {
      var front := names[..|names| - 1];
      assert forall i :: 0 <= i < |front| ==> front[i] == names[i];
      NormalizeAllOk(key, front);
    }
  }

  /** Records whose name fields are strings wherever they are present never
      make the validator raise: the only exception `validate` can raise is a
      name without `.lower()`. */
  lemma StringNamesNeverRaise(show: Show, records: seq<ExtractedData>)
    requires forall j :: 0 <= j < |records| ==> StringNames(records[j].data)
    ensures ValidateOf(show, records).Ok?
  {
    var byType := DataByType(records);
    GroupedStringNames(records);
    EntriesAreStrings(byType, PatientNameOf, NameTypes);
    MismatchOk(show, PatientKey, Entries(byType, PatientNameOf, NameTypes), NamePrefix);
    EntriesAreStrings(byType, HospitalNameOf, HospitalTypes);
    MismatchOk(show, HospitalKey, Entries(byType, HospitalNameOf, HospitalTypes), HospitalPrefix);
  }
}
