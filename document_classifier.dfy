/**
 * The document classifier (`services/document_classifier.py`): a keyword
 * score per document type with a fixed tie-break, and the parse of the
 * one-line `label,confidence` reply of the optional model.
 */
module DocumentClassifier {
  import opened Wrappers
  import opened Strings
  import opened Seqs
  import opened DataModels

  const BillKeywords: seq<string> := ["bill", "invoice", "charges", "amount", "total", "hospital", "medical"]
  const DischargeKeywords: seq<string> := ["discharge", "summary", "diagnosis", "admission", "patient"]
  const InsuranceKeywords: seq<string> := ["insurance", "policy", "card", "coverage", "premium"]

  /** The keyword occurs in the lowercased file name or the lowercased text. */
  predicate Hit(keyword: string, filename: string, text: string) {
    Contains(Lower(filename), keyword) || Contains(Lower(text), keyword)
  }

  /** `sum(1 for keyword in keywords if keyword in filename_lower or keyword in text_lower)`. */
  function Score(keywords: seq<string>, filename: string, text: string): (n: nat)
    ensures n <= |keywords|
  {
    if keywords == [] then 0
    else Score(keywords[..|keywords| - 1], filename, text) + (if Hit(keywords[|keywords| - 1], filename, text) then 1 else 0)
  }

  /** The score is 0 exactly when no keyword occurs, and the list length
      exactly when every keyword does. */
  lemma {:induction false} ScoreExtremes(keywords: seq<string>, filename: string, text: string)
    ensures Score(keywords, filename, text) == 0 <==> forall i :: 0 <= i < |keywords| ==> !Hit(keywords[i], filename, text)
    ensures Score(keywords, filename, text) == |keywords| <==> forall i :: 0 <= i < |keywords| ==> Hit(keywords[i], filename, text)
    decreases |keywords|
  {
    if keywords != [] {
      var front := keywords[..|keywords| - 1];
      assert forall i :: 0 <= i < |front| ==> front[i] == keywords[i];
      ScoreExtremes(front, filename, text);
    }
  }

  /** Matching ignores case: lowercasing the file name and the text first
      changes no score. */
  lemma {:induction false} ScoreIgnoresCase(keywords: seq<string>, filename: string, text: string)
    ensures Score(keywords, Lower(filename), Lower(text)) == Score(keywords, filename, text)
    decreases |keywords|
  {
    LowerIdempotent(filename);
    LowerIdempotent(text);
    if keywords != [] {
      ScoreIgnoresCase(keywords[..|keywords| - 1], filename, text);
    }
  }

  /** `min(0.9, score / size)`. */
  function RuleConfidence(score: nat, size: nat): real
    requires size > 0
  {
    var x := score as real / size as real;
    if 0.9 <= x then 0.9 else x
  }

  /** `_rule_based_classify`: the highest of the three scores, the bill
      winning ties with both others and the discharge summary ties with the
      insurance card. */
  function RuleClassify(fileId: string, filename: string, text: string): ClassifiedDocument
  {
    var b := Score(BillKeywords, filename, text);
    var d := Score(DischargeKeywords, filename, text);
    var i := Score(InsuranceKeywords, filename, text);
    if b >= d && b >= i then ClassifiedDocument(fileId, HospitalBill, RuleConfidence(b, |BillKeywords|))
    else if d >= i then ClassifiedDocument(fileId, DischargeSummary, RuleConfidence(d, |DischargeKeywords|))
    else if i > 0 then ClassifiedDocument(fileId, InsuranceCard, RuleConfidence(i, |InsuranceKeywords|))
    else ClassifiedDocument(fileId, Other, 0.1)
  }

  /** The chosen type follows the tie-break order, `other` can never be
      chosen, the confidence lies in [0, 0.9], and the file id is kept. */
  lemma RuleClassifySpec(fileId: string, filename: string, text: string)
    ensures var c := RuleClassify(fileId, filename, text);
      var b := Score(BillKeywords, filename, text);
      var d := Score(DischargeKeywords, filename, text);
      var i := Score(InsuranceKeywords, filename, text);
      && c.fileId == fileId
      && (c.documentType == HospitalBill <==> b >= d && b >= i)
      && (c.documentType == DischargeSummary <==> !(b >= d && b >= i) && d >= i)
      && (c.documentType == InsuranceCard <==> !(b >= d && b >= i) && d < i)
      && c.documentType != Other
      && 0.0 <= c.confidence <= 0.9
  {
  }

  /** No keyword of the list occurs: the score is 0. */
  lemma NoHitScoresZero(keywords: seq<string>, filename: string, text: string)
    requires forall k :: k in keywords ==> !Hit(k, filename, text)
    ensures Score(keywords, filename, text) == 0
  {
    ScoreExtremes(keywords, filename, text);
  }

  /** A document without any keyword is a hospital bill with confidence 0. */
  lemma NoKeywordIsBill(fileId: string, filename: string, text: string)
    requires forall k :: k in BillKeywords ==> !Hit(k, filename, text)
    requires forall k :: k in DischargeKeywords ==> !Hit(k, filename, text)
    requires forall k :: k in InsuranceKeywords ==> !Hit(k, filename, text)
    ensures RuleClassify(fileId, filename, text) == ClassifiedDocument(fileId, HospitalBill, 0.0)
  {
    NoHitScoresZero(BillKeywords, filename, text);
    NoHitScoresZero(DischargeKeywords, filename, text);
    NoHitScoresZero(InsuranceKeywords, filename, text);
  }

  /** Classification ignores the case of the file name and the text. */
  lemma RuleClassifyIgnoresCase(fileId: string, filename: string, text: string)
    ensures RuleClassify(fileId, Lower(filename), Lower(text)) == RuleClassify(fileId, filename, text)
  {
    ScoreIgnoresCase(BillKeywords, filename, text);
    ScoreIgnoresCase(DischargeKeywords, filename, text);
    ScoreIgnoresCase(InsuranceKeywords, filename, text);
  }

  // ---------------------------------------------------------------------------
  // The model reply

  /** The type a valid label names. */
  function TypeOfLabel(tag: string): (t: DocumentType)
    requires tag in Labels
    ensures t.Label() == tag
  {
    if tag == "hospital_bill" then HospitalBill
    else if tag == "discharge_summary" then DischargeSummary
    else if tag == "insurance_card" then InsuranceCard
    else Other
  }

  /** Labels and types correspond one to one. */
  lemma LabelRoundTrip(t: DocumentType)
    ensures t.Label() in Labels && TypeOfLabel(t.Label()) == t
  {
  }

  /** The part of `_llm_classify` after the model call: the stripped reply
      split at commas must have exactly two parts, and the second must be a
      number, or the rule result is used (`None`); a label outside the four
      gives `other` with confidence 0.1. */
  function ParseReply(fileId: string, reply: string): Option<ClassifiedDocument>
  {
    var parts := SplitOn(Strip(reply), ',');
    if |parts| != 2 then None
    else
      match ParseSignedDecimal(Strip(parts[1]))
      case None => None
      case Some(confidence) =>
        var tag := Strip(parts[0]);
        if tag in Labels then Some(ClassifiedDocument(fileId, TypeOfLabel(tag), confidence))
        else Some(ClassifiedDocument(fileId, Other, 0.1))
  }

  /** The three reply shapes: without exactly one comma, or with a
      non-numeric confidence, the rules decide; a valid label keeps the
      model's label and confidence; any other label is `other` with 0.1. */
  lemma ParseReplyCases(fileId: string, reply: string)
    ensures var parts := SplitOn(Strip(reply), ',');
      && (|parts| != 2 ==> ParseReply(fileId, reply).None?)
      && (|parts| == 2 && ParseSignedDecimal(Strip(parts[1])).None? ==> ParseReply(fileId, reply).None?)
      && (|parts| == 2 && ParseSignedDecimal(Strip(parts[1])).Some? && Strip(parts[0]) in Labels ==>
            ParseReply(fileId, reply) == Some(ClassifiedDocument(fileId, TypeOfLabel(Strip(parts[0])),
              ParseSignedDecimal(Strip(parts[1])).value)))
      && (|parts| == 2 && ParseSignedDecimal(Strip(parts[1])).Some? && Strip(parts[0]) !in Labels ==>
            ParseReply(fileId, reply) == Some(ClassifiedDocument(fileId, Other, 0.1)))
  {
    var parts := SplitOn(Strip(reply), ',');
    if |parts| == 2 {
      var confidence := ParseSignedDecimal(Strip(parts[1]));
      if confidence.Some? {
        assert ParseReply(fileId, reply) ==
          if Strip(parts[0]) in Labels then Some(ClassifiedDocument(fileId, TypeOfLabel(Strip(parts[0])), confidence.value))
          else Some(ClassifiedDocument(fileId, Other, 0.1));
      }
    }
  }

  /** A reply names a type only through its label: a parsed reply's label
      is the reply's first part when that is valid. */
  lemma ParseReplyLabel(fileId: string, reply: string)
    requires ParseReply(fileId, reply).Some?
    ensures var c := ParseReply(fileId, reply).value;
      var tag := Strip(SplitOn(Strip(reply), ',')[0]);
      c.fileId == fileId && (c.documentType.Label() == tag || (tag !in Labels && c == ClassifiedDocument(fileId, Other, 0.1)))
  {
  }

  /** How much of the text the model is shown (`text_content[:2000]`). */
  const ClassifierTextLimit: nat := 2000

  /** The optional classifier backend: `generate(filename, text)` is the model
      call on a prompt holding the file name and the first 2000 characters of
      the text, `None` when it raises. */
  datatype ClassifierModel =
    | NoClassifier
    | Classifier(generate: (string, string) -> Option<string>)

  /** `classify`. */
  function Classify(model: ClassifierModel, fileId: string, filename: string, text: string): ClassifiedDocument
  {
    match model
    case NoClassifier => RuleClassify(fileId, filename, text)
    case Classifier(generate) =>
      match generate(filename, Take(text, ClassifierTextLimit))
      case None => RuleClassify(fileId, filename, text)
      case Some(reply) =>
        match ParseReply(fileId, reply)
        case None => RuleClassify(fileId, filename, text)
        case Some(c) => c
  }

  /** Without a model, or when the model fails or its reply does not parse,
      the rules decide; otherwise the parsed reply is the result. Either way
      the file id is kept. */
  lemma ClassifyFallback(model: ClassifierModel, fileId: string, filename: string, text: string)
    ensures model.NoClassifier? ==> Classify(model, fileId, filename, text) == RuleClassify(fileId, filename, text)
    ensures model.Classifier? && model.generate(filename, Take(text, ClassifierTextLimit)).None? ==>
      Classify(model, fileId, filename, text) == RuleClassify(fileId, filename, text)
    ensures model.Classifier? && model.generate(filename, Take(text, ClassifierTextLimit)).Some? ==>
      Classify(model, fileId, filename, text) ==
        (match ParseReply(fileId, model.generate(filename, Take(text, ClassifierTextLimit)).value)
         case None => RuleClassify(fileId, filename, text)
         case Some(c) => c)
    ensures Classify(model, fileId, filename, text).fileId == fileId
  {
    if model.Classifier? {
      var g := model.generate(filename, Take(text, ClassifierTextLimit));
      if g.Some? && ParseReply(fileId, g.value).Some? {
        ParseReplyLabel(fileId, g.value);
      }
    }
  }
}
