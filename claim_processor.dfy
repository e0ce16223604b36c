/**
 * The orchestration of `services/claim_processor.py`: classify each
 * document, route it to the agent for its type, validate the records,
 * decide, and shape the response. Reading the uploaded files and the PDF
 * text extraction are not modelled: the documents arrive with their text.
 */
module ClaimProcessor {
  import opened Wrappers
  import opened Strings
  import opened Seqs
  import opened DataModels
  import opened Regexes
  import opened BaseAgent
  import opened Extraction
  import BillAgent
  import DischargeAgent
  import InsuranceAgent
  import opened DocumentClassifier
  import Validator
  import DecisionEngine

  /** One prepared upload (an entry of `documents_data`). */
  datatype Document = Document(fileId: string, filename: string, text: string)

  /** The collaborators of a `ClaimProcessor`: the classifier and agent
      models, the pattern engine, and the renderings used in messages. */
  datatype Services = Services(
    classifier: ClassifierModel,
    llm: Llm,
    engine: Engine,
    show: Validator.Show,
    formats: DecisionEngine.Formats,
    decider: DecisionEngine.DecisionModel)

  // ---------------------------------------------------------------------------
  // _classify_documents

  /** One classification per document, in order. */
  function Classified(model: ClassifierModel, docs: seq<Document>): (cs: seq<ClassifiedDocument>)
    ensures |cs| == |docs|
    ensures forall i :: 0 <= i < |docs| ==> cs[i].fileId == docs[i].fileId
  {
    var cs := seq(|docs|, i requires 0 <= i < |docs| => Classify(model, docs[i].fileId, docs[i].filename, docs[i].text));
    assert forall i :: 0 <= i < |docs| ==> cs[i].fileId == docs[i].fileId by {
      forall i | 0 <= i < |docs| ensures cs[i].fileId == docs[i].fileId {
        ClassifyKeepsId(model, docs[i].fileId, docs[i].filename, docs[i].text);
      }
    }
    cs
  }

  /** Every path of `classify` reports the file id it was given. */
  lemma ClassifyKeepsId(model: ClassifierModel, fileId: string, filename: string, text: string)
    ensures Classify(model, fileId, filename, text).fileId == fileId
  {
    match model
    case NoClassifier =>
    case Classifier(generate) =>
      match generate(filename, Take(text, ClassifierTextLimit))
      case None =>
      case Some(reply) =>
        ParseReplyCases(fileId, reply);
  }

  /** `_classify_documents`. */
  method ClassifyDocuments(model: ClassifierModel, docs: seq<Document>) returns (cs: seq<ClassifiedDocument>)
    ensures cs == Classified(model, docs)
  {
    cs := [];
    for i := 0 to |docs|
      invariant cs == Classified(model, docs[..i])
    {
      ClassifiedSnoc(model, docs, i);
      cs := cs + [Classify(model, docs[i].fileId, docs[i].filename, docs[i].text)];
    }
    assert docs[..|docs|] == docs;
  }

  /** One more document adds its classification at the end. */
  lemma ClassifiedSnoc(model: ClassifierModel, docs: seq<Document>, i: nat)
    requires i < |docs|
    ensures Classified(model, docs[..i + 1])
      == Classified(model, docs[..i]) + [Classify(model, docs[i].fileId, docs[i].filename, docs[i].text)]
  {
    var a := Classified(model, docs[..i + 1]);
    var b := Classified(model, docs[..i]) + [Classify(model, docs[i].fileId, docs[i].filename, docs[i].text)];
    assert forall k :: 0 <= k < |a| ==> a[k] == b[k];
  }

  // ---------------------------------------------------------------------------
  // _extract_data

  /** `doc_data_map`: each file id to its document, a later one winning. */
  function DocMap(docs: seq<Document>): (m: map<string, Document>)
    ensures forall id :: id in m <==> exists j :: 0 <= j < |docs| && docs[j].fileId == id
    ensures forall id :: id in m ==> m[id].fileId == id
  {
    if docs == [] then map[]
    else
      var front := docs[..|docs| - 1];
      assert forall j :: 0 <= j < |front| ==> front[j] == docs[j];
      DocMap(front)[docs[|docs| - 1].fileId := docs[|docs| - 1]]
  }

  /** The dict comprehension building `doc_data_map`. */
  method BuildDocMap(docs: seq<Document>) returns (m: map<string, Document>)
    ensures m == DocMap(docs)
  {
    m := map[];
    for i := 0 to |docs|
      invariant m == DocMap(docs[..i])
    {
      assert docs[..i + 1][..i] == docs[..i];
      m := m[docs[i].fileId := docs[i]];
    }
    assert docs[..|docs|] == docs;
  }

  /** The agent for a classified type; `other` has none. */
  function AgentFor(t: DocumentType): (a: Option<Agent>)
    ensures a.Some? ==> a.value.documentType == t.Label()
    ensures a.None? <==> t == Other
  {
    match t
    case HospitalBill => Some(BillAgent.Bill)
    case DischargeSummary => Some(DischargeAgent.Discharge)
    case InsuranceCard => Some(InsuranceAgent.Insurance)
    case Other => None
  }

  /** One iteration of `_extract_data`: look the document up (a `KeyError`
      for an unknown id), run the agent for its type or build the empty
      `other` record, then set `raw_text` to the document's text. */
  function ExtractOne(llm: Llm, e: Engine, docMap: map<string, Document>, c: ClassifiedDocument): (r: Result<ExtractedData, Fault>)
    ensures c.fileId !in docMap ==> r == Err(KeyError(c.fileId))
    ensures r.Ok? ==> r.value.documentType == c.documentType.Label() && r.value.rawText == docMap[c.fileId].text
  {
    if c.fileId !in docMap then Err(KeyError(c.fileId))
    else
      var text := docMap[c.fileId].text;
      match AgentFor(c.documentType)
      case None => Ok(ExtractedData("other", map[], 0.0, text))
      case Some(agent) =>
        var x := ExtractionOf(agent, llm, e, text);
        if x.Err? then Err(x.error)
        else
          ExtractionShape(agent, llm, e, text);
          Ok(x.value.(rawText := text))
  }

  function ExtractStep(llm: Llm, e: Engine, docMap: map<string, Document>): ClassifiedDocument -> Result<ExtractedData, Fault> {
    c => ExtractOne(llm, e, docMap, c)
  }

  /** `_extract_data`: one record per classified document, in order, or the
      first exception. */
  function ExtractedOf(llm: Llm, e: Engine, classified: seq<ClassifiedDocument>, docs: seq<Document>): Result<seq<ExtractedData>, Fault>
  {
    MapAll(ExtractStep(llm, e, DocMap(docs)), classified)
  }

  /** `_extract_data` with its loop. */
  method ExtractData(llm: Llm, e: Engine, classified: seq<ClassifiedDocument>, docs: seq<Document>)
    returns (r: Result<seq<ExtractedData>, Fault>)
    ensures r == ExtractedOf(llm, e, classified, docs)
  {
    var docMap := BuildDocMap(docs);
    var step := ExtractStep(llm, e, docMap);
    var extracted: seq<ExtractedData> := [];
    for i := 0 to |classified|
      invariant MapAll(step, classified[..i]) == Ok(extracted)
    {
      var c := classified[i];
      assert classified[..i + 1] == classified[..i] + [c];
      MapAllSnoc(step, classified[..i], c);
      var record := ExtractRecord(llm, e, docMap, c);
      if record.Err? {
        MapAllErrorStays(step, classified, i + 1);
        return Err(record.error);
      }
      extracted := extracted + [record.value];
    }
    assert classified[..|classified|] == classified;
    return Ok(extracted);
  }

  /** The body of the `_extract_data` loop for one classified document. */
  method ExtractRecord(llm: Llm, e: Engine, docMap: map<string, Document>, c: ClassifiedDocument)
    returns (r: Result<ExtractedData, Fault>)
    ensures r == ExtractOne(llm, e, docMap, c)
  {
    if c.fileId !in docMap {
      return Err(KeyError(c.fileId));
    }
    var text := docMap[c.fileId].text;
    var agent := AgentFor(c.documentType);
    var record;
    if agent.None? {
      record := ExtractedData("other", map[], 0.0, text);
    } else {
      var x := Extraction.ExtractData(agent.value, llm, e, text);
      if x.Err? {
        return Err(x.error);
      }
      record := x.value;
    }
    return Ok(record.(rawText := text));
  }

  /** The records follow the classified documents one to one: the i-th
      record has the i-th document's label as its type (`other` for an
      unknown type, with no data and confidence 0.0) and its text as
      `raw_text`. */
  lemma ExtractedRouting(llm: Llm, e: Engine, classified: seq<ClassifiedDocument>, docs: seq<Document>, i: nat)
    requires ExtractedOf(llm, e, classified, docs).Ok? && i < |classified|
    ensures var records := ExtractedOf(llm, e, classified, docs).value;
      && |records| == |classified|
      && classified[i].fileId in DocMap(docs)
      && records[i].documentType == classified[i].documentType.Label()
      && records[i].rawText == DocMap(docs)[classified[i].fileId].text
      && (classified[i].documentType == Other ==> records[i] == ExtractedData("other", map[], 0.0, records[i].rawText))
  {
    var step := ExtractStep(llm, e, DocMap(docs));
    assert step(classified[i]).Ok?;
  }

  /** A known type is extracted by its agent, on the document's text. */
  lemma ExtractedByAgent(llm: Llm, e: Engine, docMap: map<string, Document>, c: ClassifiedDocument)
    requires c.fileId in docMap && c.documentType != Other
    ensures ExtractOne(llm, e, docMap, c) == ExtractionOf(AgentFor(c.documentType).value, llm, e, docMap[c.fileId].text)
  {
    var text := docMap[c.fileId].text;
    var x := ExtractionOf(AgentFor(c.documentType).value, llm, e, text);
    if x.Ok? {
      assert x.value.rawText == text;
      assert x.value.(rawText := text) == x.value;
    }
  }

  /** An id that names no document raises `KeyError` for the first such
      classified document. */
  lemma UnknownIdRaises(llm: Llm, e: Engine, classified: seq<ClassifiedDocument>, docs: seq<Document>, i: nat)
    requires i < |classified| && classified[i].fileId !in DocMap(docs)
    ensures ExtractedOf(llm, e, classified, docs).Err?
  {
    MapAllError(ExtractStep(llm, e, DocMap(docs)), classified);
    assert ExtractStep(llm, e, DocMap(docs))(classified[i]).Err?;
  }

  // ---------------------------------------------------------------------------
  // _format_documents_response

  /** One entry of the `documents` map. */
  datatype DocumentEntry = DocumentEntry(documentType: string, data: Fields, confidence: real)

  function EntryOf(record: ExtractedData): DocumentEntry {
    DocumentEntry(record.documentType, record.data, record.confidence)
  }

  /** `f"document_{n}"`. */
  function DocumentKey(n: nat): string {
    "document_" + NatToString(n)
  }

  lemma DocumentKeyInjective(a: nat, b: nat)
    requires DocumentKey(a) == DocumentKey(b)
    ensures a == b
  {
    var p := "document_";
    assert DocumentKey(a)[|p|..] == NatToString(a);
    assert DocumentKey(b)[|p|..] == NatToString(b);
    NatToStringInjective(a, b);
  }

  /** The response map for the records, keyed from `document_1`. */
  function DocumentsOf(records: seq<ExtractedData>): map<string, DocumentEntry>
  {
    if records == [] then map[]
    else DocumentsOf(records[..|records| - 1])[DocumentKey(|records|) := EntryOf(records[|records| - 1])]
  }

  /** `_format_documents_response`. */
  method FormatDocumentsResponse(records: seq<ExtractedData>) returns (documents: map<string, DocumentEntry>)
    ensures documents == DocumentsOf(records)
  {
    documents := map[];
    for i := 0 to |records|
      invariant documents == DocumentsOf(records[..i])
    {
      assert records[..i + 1][..i] == records[..i];
      documents := documents[DocumentKey(i + 1) := EntryOf(records[i])];
    }
    assert records[..|records|] == records;
  }

  /** The keys are exactly `document_1` to `document_n`. */
  lemma {:induction false} DocumentsKeys(records: seq<ExtractedData>)
    ensures forall key :: key in DocumentsOf(records) <==> exists k :: 1 <= k <= |records| && key == DocumentKey(k)
    decreases |records|
  {
    if records != [] {
      var n := |records|;
      DocumentsKeys(records[..n - 1]);
      forall key | key in DocumentsOf(records) ensures exists k :: 1 <= k <= n && key == DocumentKey(k) {
        if key != DocumentKey(n) {
          assert key in DocumentsOf(records[..n - 1]);
        }
      }
    }
  }

  /** `document_k` holds the k-th record's type, data and confidence. */
  lemma {:induction false} DocumentsEntries(records: seq<ExtractedData>)
    ensures forall k :: 1 <= k <= |records| ==>
      DocumentKey(k) in DocumentsOf(records) && DocumentsOf(records)[DocumentKey(k)] == EntryOf(records[k - 1])
    decreases |records|
  {
    if records != [] {
      var n := |records|;
      var front := records[..n - 1];
      DocumentsEntries(front);
      var m := DocumentsOf(records);
      forall k | 1 <= k <= n ensures DocumentKey(k) in m && m[DocumentKey(k)] == EntryOf(records[k - 1]) {
        if k < n {
          if DocumentKey(k) == DocumentKey(n) {
            DocumentKeyInjective(k, n);
          }
          assert front[k - 1] == records[k - 1];
        }
      }
    }
  }

  /** There are as many entries as records. */
  lemma DocumentsCount(records: seq<ExtractedData>)
    ensures |DocumentsOf(records)| == |records|
  {
    DocumentsKeys(records);
    var keys := set k | 1 <= k <= |records| :: DocumentKey(k);
    assert DocumentsOf(records).Keys == keys;
    KeysCount(|records|);
  }

  lemma {:induction false} KeysCount(n: nat)
    ensures |set k | 1 <= k <= n :: DocumentKey(k)| == n
    decreases n
  {
    if n > 0 {
      var smaller := set k | 1 <= k <= n - 1 :: DocumentKey(k);
      var all := set k | 1 <= k <= n :: DocumentKey(k);
      KeysCount(n - 1);
      assert all == smaller + {DocumentKey(n)};
      if DocumentKey(n) in smaller {
        var k :| 1 <= k <= n - 1 && DocumentKey(k) == DocumentKey(n);
        DocumentKeyInjective(k, n);
      }
    }
  }

  // ---------------------------------------------------------------------------
  // process_claim

  /** `processing_summary`: the three counts, or empty on the error path. */
  datatype ProcessingSummary = NoSummary | Counts(totalDocuments: nat, classifiedDocuments: nat, extractedDocuments: nat)

  datatype ProcessClaimResponse = ProcessClaimResponse(
    documents: map<string, DocumentEntry>,
    validation: ValidationResult,
    decision: ClaimDecision,
    summary: ProcessingSummary)

  /** The response built in the `except` branch. */
  function ErrorResponse(f: Fault): ProcessClaimResponse {
    ProcessClaimResponse(
      map[],
      ValidationResult([], ["Processing error: " + f.Message()], []),
      NewDecision(Rejected, "Unable to process claim due to error: " + f.Message()),
      NoSummary)
  }

  /** `process_claim` from the prepared documents on: classification,
      extraction, validation, decision and the response; an exception from
      extraction or validation gives the error response. */
  function ProcessClaim(s: Services, docs: seq<Document>): ProcessClaimResponse
  {
    var classified := Classified(s.classifier, docs);
    match ExtractedOf(s.llm, s.engine, classified, docs)
    case Err(f) => ErrorResponse(f)
    case Ok(records) =>
      match Validator.ValidateOf(s.show, records)
      case Err(f) => ErrorResponse(f)
      case Ok(v) =>
        ProcessClaimResponse(
          DocumentsOf(records),
          v,
          DecisionEngine.MakeDecision(s.formats, s.decider, records, v),
          Counts(|docs|, |classified|, |records|))
  }

  /** `process_claim` as the source sequences it. */
  method ProcessClaimMethod(s: Services, docs: seq<Document>) returns (response: ProcessClaimResponse)
    ensures response == ProcessClaim(s, docs)
  {
    var classified := ClassifyDocuments(s.classifier, docs);
    var extracted := ExtractData(s.llm, s.engine, classified, docs);
    if extracted.Err? {
      return ErrorResponse(extracted.error);
    }
    var records := extracted.value;
    var validation := Validator.Validate(s.show, records);
    if validation.Err? {
      return ErrorResponse(validation.error);
    }
    var v := validation.value;
    var documents := FormatDocumentsResponse(records);
    var decision := DecisionEngine.MakeDecision(s.formats, s.decider, records, v);
    return ProcessClaimResponse(documents, v, decision, Counts(|docs|, |classified|, |records|));
  }

  /** On success the three counts agree: one classification and one record
      per document; on failure the response is empty and rejected. */
  lemma ResponseShape(s: Services, docs: seq<Document>)
    ensures var r := ProcessClaim(s, docs);
      r.summary.Counts? ==>
        && r.summary == Counts(|docs|, |docs|, |docs|)
        && |r.documents| == |docs|
    ensures var r := ProcessClaim(s, docs);
      r.summary.NoSummary? ==> r.documents == map[] && r.decision.status == Rejected && r.decision.confidence == 0.0
  {
    var classified := Classified(s.classifier, docs);
    var x := ExtractedOf(s.llm, s.engine, classified, docs);
    if x.Ok? {
      DocumentsCount(x.value);
    }
  }

  /** Without a decision model, a claim in which no document is classified
      as a hospital bill is always rejected. */
  lemma NoBillRejected(s: Services, docs: seq<Document>)
    requires s.decider.NoDecisionModel?
    requires forall i :: 0 <= i < |docs| ==> Classified(s.classifier, docs)[i].documentType != HospitalBill
    ensures ProcessClaim(s, docs).decision.status == Rejected
  {
    var classified := Classified(s.classifier, docs);
    var x := ExtractedOf(s.llm, s.engine, classified, docs);
    if x.Ok? {
      var records := x.value;
      var v := Validator.ValidateOf(s.show, records);
      if v.Ok? {
        assert !Validator.HasType(records, "hospital_bill") by {
          forall j | 0 <= j < |records| ensures records[j].documentType != "hospital_bill" {
            ExtractedRouting(s.llm, s.engine, classified, docs, j);
          }
        }
        DecisionEngine.ValidatedBillGate(records);
        DecisionEngine.MissingBillRejects(s.formats, records, v.value);
      }
    }
  }
}
