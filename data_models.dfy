/**
 * The record types of the claim processor (`models/data_models.py`), the
 * JSON-like values its field dictionaries hold, and the Python exceptions
 * that can escape a pipeline stage.
 */
module DataModels {
  import opened Wrappers
  import opened Strings

  // ---------------------------------------------------------------------------
  // Field values

  /** A value of a `Dict[str, Any]` field map: what the pattern extractors
      produce and what a parsed model reply (JSON) may hold. A JSON integer
      is a Python `int`; a JSON fraction and every amount the patterns parse
      is a `float`. */
  datatype Value =
    | Null
    | Bool(b: bool)
    | Int(i: int)
    | Num(n: real)
    | Str(s: string)
    | List(elems: seq<Value>)
    | Obj(fields: map<string, Value>)

  /** The field map of one extracted record (`ExtractedData.data`). */
  type Fields = map<string, Value>

  /** Python truthiness: `None`, `False`, `0`, `""`, `[]` and `{}` are false. */
  predicate Truthy(v: Value) {
    match v
    case Null => false
    case Bool(b) => b
    case Int(i) => i != 0
    case Num(n) => n != 0.0
    case Str(s) => s != []
    case List(xs) => xs != []
    case Obj(m) => m != map[]
  }

  /** `d.get(key)`: the stored value, or `None` when the key is absent. */
  function Get(d: Fields, key: string): (v: Value)
    ensures key !in d ==> v == Null
  {
    if key in d then d[key] else Null
  }

  /** `len(v)`, or `None` where Python raises `TypeError`. */
  function Len(v: Value): Option<nat> {
    match v
    case Str(s) => Some(|s|)
    case List(xs) => Some(|xs|)
    case Obj(m) => Some(|m|)
    case _ => None
  }

  /** A truthy value that has a length has a positive one. */
  lemma TruthyLen(v: Value)
    requires Truthy(v) && Len(v).Some?
    ensures Len(v).value > 0
  {
    match v
    case Obj(m) =>
      var k :| k in m;
      assert k in m.Keys;
    case _ =>
  }

  /** The Python type name used in exception messages. */
  function TypeName(v: Value): string {
    match v
    case Null => "NoneType"
    case Bool(_) => "bool"
    case Int(_) => "int"
    case Num(_) => "float"
    case Str(_) => "str"
    case List(_) => "list"
    case Obj(_) => "dict"
  }

  /** `isinstance(v, (int, float))` and `float(v)`; `bool` is an `int` in Python. */
  function NumberOf(v: Value): Option<real> {
    match v
    case Num(n) => Some(n)
    case Int(i) => Some(i as real)
    case Bool(b) => Some(if b then 1.0 else 0.0)
    case _ => None
  }

  /** The representative of a value under Python's `==`: `True`, `1` and
      `1.0` are equal, inside lists and dictionaries as well. */
  function Canon(v: Value): (c: Value)
    ensures !c.Bool? && !c.Int?
    decreases v
  {
    match v
    case Bool(b) => Num(if b then 1.0 else 0.0)
    case Int(i) => Num(i as real)
    case List(xs) => List(seq(|xs|, j requires 0 <= j < |xs| => Canon(xs[j])))
    case Obj(m) => Obj(map k | k in m :: Canon(m[k]))
    case _ => v
  }

  /** Python's `==` on field values. */
  predicate PyEq(a: Value, b: Value) {
    Canon(a) == Canon(b)
  }

  /** `==` identifies a boolean with the number it counts as, and an `int`
      with the `float` of the same value, but never a string with a number. */
  lemma PyEqNumbers(b: bool, i: int, s: string)
    ensures PyEq(Bool(b), Int(if b then 1 else 0))
    ensures PyEq(Int(i), Num(i as real))
    ensures !PyEq(Str(s), Int(i)) && !PyEq(Str(s), Num(i as real))
  {
  }

  // ---------------------------------------------------------------------------
  // Exceptions

  /** The exceptions that can leave a pipeline stage. */
  datatype Fault =
    | AttributeError(typeName: string, attribute: string)
    | NoLen(typeName: string)
    | ZeroDivision
    | KeyError(key: string)
  {
    /** `str(e)`. */
    function Message(): string {
      match this
      case AttributeError(t, a) => "'" + t + "' object has no attribute '" + a + "'"
      case NoLen(t) => "object of type '" + t + "' has no len()"
      case ZeroDivision => "division by zero"
      case KeyError(k) => "'" + k + "'"
    }
  }

  // ---------------------------------------------------------------------------
  // Records

  /** The closed label set of the classifier. */
  datatype DocumentType = HospitalBill | DischargeSummary | InsuranceCard | Other
  {
    /** The label string used as `document_type`. */
    function Label(): string {
      match this
      case HospitalBill => "hospital_bill"
      case DischargeSummary => "discharge_summary"
      case InsuranceCard => "insurance_card"
      case Other => "other"
    }
  }

  /** The four label strings, in the order the source lists them. */
  const Labels: seq<string> := ["hospital_bill", "discharge_summary", "insurance_card", "other"]

  /** `ClassifiedDocument`: its type is one of the four labels by construction;
      `confidence` defaults to 0.0. */
  datatype ClassifiedDocument = ClassifiedDocument(fileId: string, documentType: DocumentType, confidence: real)

  function NewClassifiedDocument(fileId: string, documentType: DocumentType): ClassifiedDocument {
    ClassifiedDocument(fileId, documentType, 0.0)
  }

  /** A calendar date (`datetime.date`). */
  datatype Date = Date(year: int, month: int, day: int)

  /** One bill line item as the pattern extractor builds it. */
  datatype LineItem = LineItem(description: string, amount: real, quantity: int)

  /** The dictionary form `{"description", "amount", "quantity"}` of a line item. */
  function ItemValue(item: LineItem): Value {
    Obj(map["description" := Str(item.description), "amount" := Num(item.amount),
            "quantity" := Int(item.quantity)])
  }

  /** `HospitalBillData`: every field optional, `items` defaults to `[]`. */
  datatype HospitalBillData = HospitalBillData(
    hospitalName: Option<string>,
    totalAmount: Option<real>,
    dateOfService: Option<Date>,
    patientName: Option<string>,
    admissionDate: Option<Date>,
    dischargeDate: Option<Date>,
    items: seq<Fields>,
    insuranceCompany: Option<string>,
    policyNumber: Option<string>)

  const EmptyBill := HospitalBillData(None, None, None, None, None, None, [], None, None)

  /** `DischargeSummaryData`: every field optional. */
  datatype DischargeSummaryData = DischargeSummaryData(
    patientName: Option<string>,
    diagnosis: Option<string>,
    admissionDate: Option<Date>,
    dischargeDate: Option<Date>,
    doctorName: Option<string>,
    hospitalName: Option<string>,
    treatmentSummary: Option<string>)

  const EmptyDischarge := DischargeSummaryData(None, None, None, None, None, None, None)

  /** `InsuranceCardData`: every field optional. */
  datatype InsuranceCardData = InsuranceCardData(
    policyNumber: Option<string>,
    cardHolderName: Option<string>,
    insuranceCompany: Option<string>,
    sumInsured: Option<real>,
    validityDate: Option<Date>)

  const EmptyCard := InsuranceCardData(None, None, None, None, None)

  /** `ValidationResult`: three ordered lists, each defaulting to empty. */
  datatype ValidationResult = ValidationResult(
    missingDocuments: seq<string>,
    discrepancies: seq<string>,
    warnings: seq<string>)

  const EmptyValidation := ValidationResult([], [], [])

  /** `ClaimDecision.status`. */
  datatype Status = Approved | Rejected | Pending
  {
    function Label(): string {
      match this
      case Approved => "approved"
      case Rejected => "rejected"
      case Pending => "pending"
    }
  }

  /** `ClaimDecision`: `confidence` defaults to 0.0, `recommended_amount` to `None`. */
  datatype ClaimDecision = ClaimDecision(
    status: Status,
    reason: string,
    confidence: real,
    recommendedAmount: Option<real>)

  function NewDecision(status: Status, reason: string): ClaimDecision {
    ClaimDecision(status, reason, 0.0, None)
  }

  /** `ExtractedData`: the document type is an unconstrained string; confidence
      defaults to 0.0 and `raw_text` to `""`. */
  datatype ExtractedData = ExtractedData(
    documentType: string,
    data: Fields,
    confidence: real,
    rawText: string)

  function NewExtractedData(documentType: string, data: Fields): ExtractedData {
    ExtractedData(documentType, data, 0.0, "")
  }

  /** The defaults of the records: confidences start at 0.0, the recommended
      amount at `None`, `raw_text` at `""`, and every optional data field and
      validation list empty. */
  lemma Defaults(fileId: string, t: DocumentType, status: Status, reason: string, documentType: string, data: Fields)
    ensures NewClassifiedDocument(fileId, t).confidence == 0.0
    ensures NewDecision(status, reason).confidence == 0.0 && NewDecision(status, reason).recommendedAmount.None?
    ensures NewExtractedData(documentType, data).confidence == 0.0 && NewExtractedData(documentType, data).rawText == ""
    ensures EmptyValidation.missingDocuments == [] && EmptyValidation.discrepancies == [] && EmptyValidation.warnings == []
    ensures EmptyBill.items == [] && EmptyBill.totalAmount.None? && EmptyDischarge.diagnosis.None? && EmptyCard.sumInsured.None?
  {
  }

  /** Each document type has its own label among the four; each status its own
      among "approved", "rejected" and "pending". */
  lemma LabelsDistinct(t1: DocumentType, t2: DocumentType, s1: Status, s2: Status)
    ensures t1.Label() in Labels && (t1.Label() == t2.Label() ==> t1 == t2)
    ensures s1.Label() in ["approved", "rejected", "pending"] && (s1.Label() == s2.Label() ==> s1 == s2)
  {
  }
}
