# Medical claim processor: a verified model of the decision pipeline

This project models, in Dafny, the deterministic core of the medical claim
processor. A claim is a set of uploaded documents. The pipeline runs in six steps:

1. Each document is classified as a hospital bill, a discharge summary, an
   insurance card or "other".
2. The agent for that type extracts a record of fields from the document's text.
3. The records are validated across documents: required documents, name, date,
   hospital and insurer consistency, and warnings.
4. A rule engine decides to approve or reject the claim.
5. The decision can be replaced by a generative model's answer.
6. The response maps `document_1` … `document_n` to the records.

The model follows the program's structure, one module per source file plus
shared pieces:

| module | models |
|---|---|
| `DataModels` | the record types of `models/data_models.py`; the untyped dictionaries the agents build are maps from strings to JSON-like `Value`s, with Python's truthiness |
| `Strings`, `Seqs`, `Wrappers` | the string operations the source relies on (`lower`, `strip`, `split`, `' '.join(s.split())`, `re.sub(r'\s+', ' ', s)`, `replace`); the "append what qualifies", "first success wins" and "stop at the first exception" loop shapes; `Option` and `Result` |
| `Regexes` | regular-expression search as a given engine over the source's literal patterns |
| `Dates` | `_normalize_date`: `datetime.strptime` for the five numeric formats (`%d` and `%m` as one or two digits, `%Y` as four), calendar validity, and `YYYY-MM-DD` output |
| `LineItems` | `_extract_line_items`, with the amount-token pattern `[0-9,]+\.?[0-9]*` written out |
| `BaseAgent` | `_clean_text_for_processing`, the greedy `{ ... }` span of `_extract_json_from_response`, and `_llm_extract`'s guard and 4000-character truncation |
| `Extraction` | the skeleton the three agents share: ordered-pattern field extractors with their acceptance tests, the largest-amount extractor, keyword dates, merging model data over the rule dictionary, and the weighted-field confidence |
| `BillAgent`, `DischargeAgent`, `InsuranceAgent` | each agent's patterns, keyword lists, acceptance rules and weight table as an instance of the skeleton |
| `DocumentClassifier` | keyword scoring with its tie-break, parsing of the model's `label,confidence` reply, and the fallback to the rules |
| `TextExtractor` | `clean_text` |
| `Validator` | `validate` and its checks, as loops proved against functions |
| `DecisionEngine` | the reject gates, `_get_claim_amount`, `_is_claim_valid`, the model fallback and the exception handler of `make_decision` |
| `ClaimProcessor` | classification, routing of `_extract_data`, `_format_documents_response` and `process_claim` from the prepared documents on |

Where the source changes state step by step, the model is a method with a
loop: the validator's lists, the agents' `combined` dictionaries, score
accumulators, amount and item lists, and the orchestration loops. Each such
method is proved equal to a function, and the properties are lemmas about
that function.

The model follows the code where it departs from the intended design:
- The rule classifier never returns "other". When no keyword hits, the
  scores tie at 0 and the result is `hospital_bill` with confidence 0.0
  (`DocumentClassifier.NoKeywordIsBill`).
- An invalid model label becomes `other` with confidence 0.1; it does not
  fall back to the rules (`DocumentClassifier.ParseReplyCases`).
- The hospital brand literals are tried last (`BillAgent.GenericHospitalWins`).
- A `D Month YYYY` match never normalises, since none of the five formats
  reads a month name (`Dates.NoSeparatorNoDate`, `Extraction.KeywordDateShape`).
- The agents extract from text whose whitespace runs have become single
  spaces, so line-item scanning sees one line (`BillAgent.BillItemsAtMostOne`).
- NULs are deleted after whitespace is collapsed, so a NUL between two spaces
  leaves a double space (`BaseAgent.CleanNulLeavesDoubleSpace`).
- With no records, the mean confidence divides by zero. Once the first two
  gates pass, `make_decision` catches this and rejects with confidence 0.1
  (`DecisionEngine.EmptyClaimRejected`).
- A patient or hospital name that is a truthy non-string raises in `.lower()`.
  The validator models this error path, and it is proved not to happen when
  every name is a string or falsy (`Validator.StringNamesNeverRaise`).

## Model

| member | source | states |
|---|---|---|
| DecisionEngine.ClaimAmountOf | medical_claim_processor/src/services/decision_engine.py:221-230 | there is a claim amount exactly when some record is a bill whose total is a non-zero number, and the amount is then non-zero |
| DecisionEngine.GetClaimAmount | medical_claim_processor/src/services/decision_engine.py:221-230 | the loop with its early return yields exactly the claim amount of the records |
| DecisionEngine.FirstBillWins | medical_claim_processor/src/services/decision_engine.py:225-229 | the amount is the total of the first billed record; later bills and earlier bills without a numeric total are ignored |
| DecisionEngine.IsClaimValid | medical_claim_processor/src/services/decision_engine.py:232-252 | the flag loop returns true iff some record has confidence above 0.3, some bill or discharge record has a truthy patient name and some bill has a truthy total |
| DecisionEngine.AmountImpliesAmountInfo | medical_claim_processor/src/services/decision_engine.py:228-249 | a claim amount implies amount information for validity (the converse fails for a truthy non-numeric total) |
| DecisionEngine.TotalConfidenceBounds | medical_claim_processor/src/services/decision_engine.py:77 | confidences in [0, 1] sum to between 0 and the record count |
| DecisionEngine.MeanConfidenceBounds | medical_claim_processor/src/services/decision_engine.py:77 | for a non-empty list of confidences in [0, 1] the mean lies in [0, 1] |
| DecisionEngine.ApprovalSpec | medical_claim_processor/src/services/decision_engine.py:52-113 | the rules approve iff every gate passes; an approval has confidence in [0.5, 1.0] and recommends the claim amount, which is then at most 1,000,000; the rules never return pending |
| DecisionEngine.MissingBillRejects | medical_claim_processor/src/services/decision_engine.py:58-65 | a missing-document entry containing "hospital_bill" rejects with confidence 0.9 and no amount, whatever else holds |
| DecisionEngine.TooManyDiscrepanciesReject | medical_claim_processor/src/services/decision_engine.py:68-74 | past the bill gate, more than two discrepancies reject with confidence 0.8 and the reason cites exactly the first three |
| DecisionEngine.LowConfidenceRejects | medical_claim_processor/src/services/decision_engine.py:77-83 | past the first two gates, a mean record confidence below 0.3 rejects with confidence 0.7, the low-confidence reason and no amount |
| DecisionEngine.OverLimitRejects | medical_claim_processor/src/services/decision_engine.py:86-93 | past the first three gates, a claim amount above 1,000,000 rejects with confidence 0.9 and recommends exactly 1,000,000 |
| DecisionEngine.InvalidRejects | medical_claim_processor/src/services/decision_engine.py:96-101 | past the first four gates, a claim failing basic validity rejects with confidence 0.8, the fixed reason and no amount |
| DecisionEngine.EdgeCases | medical_claim_processor/src/services/decision_engine.py:77-101 | with no records the mean raises a division by zero; a claim amount of exactly 1,000,000 is not rejected for its amount, so approval then depends on validity alone |
| DecisionEngine.ApprovalReasonCounts | medical_claim_processor/src/services/decision_engine.py:104-106 | the approval reason is the plain sentence iff there are no warnings, and different warning counts give different reasons |
| DecisionEngine.ValidatedBillGate | medical_claim_processor/src/services/decision_engine.py:58-60 | on validation's own missing list, the bill gate fires iff no record is a bill, so a missing discharge summary alone never fires it |
| DecisionEngine.NoBillInDischarge | medical_claim_processor/src/services/decision_engine.py:59 | the missing-discharge-summary entry does not contain "hospital_bill" |
| DecisionEngine.ParseAiResponse | medical_claim_processor/src/services/decision_engine.py:203-219 | a reply without a `{ ... }` span parses to nothing |
| DecisionEngine.MakeDecision | medical_claim_processor/src/services/decision_engine.py:28-50 | an exception from the rules becomes a rejection with confidence 0.1 carrying its message; with no model the rule decision is returned unchanged |
| DecisionEngine.AiFallback | medical_claim_processor/src/services/decision_engine.py:115-167 | a failed model call or a reply without a JSON span leaves the rule decision; otherwise the result is the rule decision or one built from a non-empty parsed object |
| DecisionEngine.EmptyClaimRejected | medical_claim_processor/src/services/decision_engine.py:28-77 | with no records, once the first two gates pass, the claim is rejected with confidence 0.1 and the division-by-zero message, whatever the model answers |
| Validator.CheckMissingDocuments | medical_claim_processor/src/services/validator.py:27-38 | the loop returns exactly the missing-document list of the records |
| Validator.MissingSpec | medical_claim_processor/src/services/validator.py:10-38 | one "Missing required document: X" entry for each absent type, the bill first and then the discharge summary; at most two entries; the insurance card is never reported |
| Validator.DataByType | medical_claim_processor/src/services/validator.py:47-49 | the grouped map has a key exactly for each document type that occurs |
| Validator.GroupByType | medical_claim_processor/src/services/validator.py:47-49 | the overwriting loop builds exactly the grouped map |
| Validator.LastRecordWins | medical_claim_processor/src/services/validator.py:47-49 | when several records share a type, the grouped map holds the data of the last one |
| Validator.NormalizeAll | medical_claim_processor/src/services/validator.py:154-179 | on success there is one normalised name per name, each the normalisation of its input |
| Validator.NormalizeNames | medical_claim_processor/src/services/validator.py:154-179 | the normalising loop returns exactly the normalised list, or the first error |
| Validator.FirstFaultStays | medical_claim_processor/src/services/validator.py:154-158 | once a name fails to normalise, the whole normalisation fails with that error |
| Validator.NamesMatch | medical_claim_processor/src/services/validator.py:146-183 | the matching loop returns exactly whether every normalised name equals the first, or the normalisation error |
| Validator.PairMatch | medical_claim_processor/src/services/validator.py:146-183 | for two names: the first name's error, else the second's, else whether their normalisations are equal |
| Validator.PatientNamesMatch | medical_claim_processor/src/services/validator.py:146-162 | two string names match iff their lowercased whitespace-separated words are equal |
| Validator.HospitalNamesMatch | medical_claim_processor/src/services/validator.py:164-183 | two hospital names match iff they are equal after lowercasing, deleting "hospital", "medical", "centre", "center" and collapsing whitespace |
| Validator.InsurersMatchEquivalence | medical_claim_processor/src/services/validator.py:185-196 | insurer matching on strings is symmetric, reflexive and transitive |
| Validator.CollectEntries | medical_claim_processor/src/services/validator.py:52-90 | the collecting loop returns exactly the (type, name) entries for the present types with a truthy name, in type order |
| Validator.CheckDiscrepancies | medical_claim_processor/src/services/validator.py:40-105 | the check-by-check method returns exactly the discrepancy list, or the error a non-string name raises |
| Validator.MismatchEntry | medical_claim_processor/src/services/validator.py:59-95 | the name or hospital block returns exactly the mismatch check's result |
| Validator.DiscrepancyCount | medical_claim_processor/src/services/validator.py:40-105 | a successful discrepancy check reports at most five entries |
| Validator.MismatchAtMostOne | medical_claim_processor/src/services/validator.py:59-95 | the name or hospital check contributes at most one entry |
| Validator.InsurerAtMostOne | medical_claim_processor/src/services/validator.py:98-103 | the insurer check contributes at most one entry |
| Validator.DateCheckSpec | medical_claim_processor/src/services/validator.py:66-82 | a date check gives at most one entry, and one iff a bill and a discharge summary exist, both values are truthy and they differ under Python's `!=` |
| Validator.DateCheckPythonEquality | medical_claim_processor/src/services/validator.py:71-81 | bill and discharge values that Python's `==` identifies, such as `True` and `1`, give no date discrepancy |
| Validator.NumericNameRaises | medical_claim_processor/src/services/validator.py:154-179 | a JSON integer name raises `AttributeError` naming `int`, a fraction one naming `float` |
| Validator.NameCheckSpec | medical_claim_processor/src/services/validator.py:52-63 | fewer than two names give no entry; two string names give exactly one entry iff their normalised words differ |
| Validator.TypeWarnings | medical_claim_processor/src/services/validator.py:123-142 | an absent document type gives no field warning, a present one at most two |
| Validator.FieldWarnings | medical_claim_processor/src/services/validator.py:123-142 | there are at most six missing-field warnings |
| Validator.CheckWarnings | medical_claim_processor/src/services/validator.py:107-144 | the method returns exactly the low-confidence warnings in input order followed by the field warnings |
| Validator.AllFieldWarnings | medical_claim_processor/src/services/validator.py:123-142 | the three blocks give exactly the field warnings for the bill, the discharge summary and the card, in that order |
| Validator.LowConfidenceWarnings | medical_claim_processor/src/services/validator.py:114-116 | the loop collects exactly one warning per record below 0.5, in input order |
| Validator.MissingFieldWarnings | medical_claim_processor/src/services/validator.py:123-142 | one block returns exactly its document type's field warnings |
| Validator.WarningsSpec | medical_claim_processor/src/services/validator.py:107-144 | each record below 0.5 has its warning among the warnings; there are at most six field warnings and at most six more warnings than records |
| Validator.Validate | medical_claim_processor/src/services/validator.py:13-25 | validation returns exactly the missing list, the discrepancies and the warnings, or the discrepancy check's error |
| Validator.GroupedStringNames | medical_claim_processor/src/services/validator.py:47-49 | when every record's names are strings or falsy, so are those of the grouped map |
| Validator.EntriesAreStrings | medical_claim_processor/src/services/validator.py:52-90 | entries drawn from string-or-falsy names are all strings |
| Validator.MismatchOk | medical_claim_processor/src/services/validator.py:59-63 | when every entry normalises, the mismatch check does not raise |
| Validator.NormalizeAllOk | medical_claim_processor/src/services/validator.py:154-158 | when every name normalises, normalisation succeeds |
| Validator.StringNamesNeverRaise | medical_claim_processor/src/services/validator.py:13-105 | when every record's names are strings or falsy, validation does not raise |
| DocumentClassifier.Score | medical_claim_processor/src/services/document_classifier.py:48-50 | each keyword counts at most once, so a score never exceeds the keyword list's length |
| DocumentClassifier.ScoreExtremes | medical_claim_processor/src/services/document_classifier.py:48-50 | the score is 0 iff no keyword hits, and the list's length iff every keyword hits |
| DocumentClassifier.ScoreIgnoresCase | medical_claim_processor/src/services/document_classifier.py:40-50 | lowercasing the filename and text beforehand does not change a score |
| DocumentClassifier.RuleClassifySpec | medical_claim_processor/src/services/document_classifier.py:36-70 | the bill wins iff its score is at least both others; otherwise discharge wins iff its score is at least insurance's; "other" is never returned; the confidence lies in [0, 0.9]; the file id is kept |
| DocumentClassifier.NoHitScoresZero | medical_claim_processor/src/services/document_classifier.py:48-50 | a list none of whose keywords hit scores 0 |
| DocumentClassifier.NoKeywordIsBill | medical_claim_processor/src/services/document_classifier.py:53-64 | with no keyword hits at all the result is hospital_bill with confidence 0.0 |
| DocumentClassifier.RuleClassifyIgnoresCase | medical_claim_processor/src/services/document_classifier.py:40-41 | rule classification is insensitive to the case of the filename and the text |
| DocumentClassifier.TypeOfLabel | medical_claim_processor/src/services/document_classifier.py:103-104 | a valid label maps to the document type whose label it is |
| DocumentClassifier.LabelRoundTrip | medical_claim_processor/src/services/document_classifier.py:103 | every document type's label is valid and maps back to that type |
| DocumentClassifier.ParseReplyCases | medical_claim_processor/src/services/document_classifier.py:94-119 | not exactly two comma-separated parts, or a non-numeric confidence, give no parse (rule fallback); a valid label gives that type with the parsed confidence; any other label gives other/0.1 |
| DocumentClassifier.ParseReplyLabel | medical_claim_processor/src/services/document_classifier.py:97-112 | a parsed reply keeps the file id and carries the stripped first part as its label, unless that label is invalid and the result is other/0.1 |
| DocumentClassifier.ClassifyFallback | medical_claim_processor/src/services/document_classifier.py:15-119 | with no model, or a failed model call, the rule result is returned; otherwise the parsed reply, or the rule result when the reply does not parse; the model sees the filename and the first 2000 characters |
| BaseAgent.CleanForProcessing | medical_claim_processor/src/agents/base_agent.py:48-56 | the cleaned text has no NUL, no newline or tab (every whitespace run becomes one space) and no leading or trailing whitespace |
| BaseAgent.CleanNoDoubleSpace | medical_claim_processor/src/agents/base_agent.py:53-56 | for input without NUL the cleaned text has no two consecutive spaces |
| BaseAgent.RemoveNulBetweenSpaces | medical_claim_processor/src/agents/base_agent.py:55 | deleting the NUL of `x, ' ', NUL, ' ', y` leaves two adjacent spaces |
| BaseAgent.CollapseAroundNul | medical_claim_processor/src/agents/base_agent.py:53 | whitespace collapsing leaves `x, ' ', NUL, ' ', y` unchanged, since NUL is not whitespace |
| BaseAgent.CleanNulLeavesDoubleSpace | medical_claim_processor/src/agents/base_agent.py:53-56 | because NULs are removed after collapsing, a NUL between two spaces yields a double space in the cleaned text |
| BaseAgent.CleanNulExample | medical_claim_processor/src/agents/base_agent.py:53-56 | "a NUL b" with spaces around the NUL cleans to "a  b" |
| BaseAgent.CleanIdempotent | medical_claim_processor/src/agents/base_agent.py:48-56 | for input without NUL, cleaning twice is cleaning once |
| BaseAgent.CollapseOfClean | medical_claim_processor/src/agents/base_agent.py:53 | collapsing text already made of single plain spaces changes nothing |
| BaseAgent.JsonSpan | medical_claim_processor/src/agents/base_agent.py:37 | the greedy `{ ... }` span runs from the first '{' to the last '}' after it; there is none iff no '{' precedes a '}' |
| BaseAgent.JsonCandidateSpan | medical_claim_processor/src/agents/base_agent.py:37-40 | when some '{' precedes a '}', the parsed candidate is a slice of the reply beginning with '{' and ending with '}', with no '{' before it and no '}' after it |
| BaseAgent.JsonCandidateWhole | medical_claim_processor/src/agents/base_agent.py:41-43 | with no such span, the whole reply is parsed |
| BaseAgent.LlmExtract | medical_claim_processor/src/agents/base_agent.py:58-63 | with no model there is no model data |
| BaseAgent.FullPromptShape | medical_claim_processor/src/agents/base_agent.py:66 | the prompt is the agent prompt, the 17-character separator, then only the first 4000 characters of the text |
| BaseAgent.LlmExtractSeesPrefix | medical_claim_processor/src/agents/base_agent.py:66-68 | two texts agreeing on their first 4000 characters get the same model data |
| Extraction.AcceptedSpec | medical_claim_processor/src/agents/discharge_agent.py:92-114 | a matched group is stripped and then kept as is, kept only with at least two words, kept only when longer than a bound, or collapsed (kept when longer than a bound, then cut to a limit); a condensed result has no double space and is a prefix of the collapsed group of at most the limit's length |
| Extraction.FirstMatch | medical_claim_processor/src/agents/bill_agent.py:100-105 | the pattern loop with its early return yields exactly the first accepted match |
| Extraction.FirstAcceptedIsFirst | medical_claim_processor/src/agents/discharge_agent.py:89-97 | there is no result iff no pattern matches acceptably; otherwise the result is the accepted group of a pattern that succeeds while every earlier one fails |
| Extraction.FirstAcceptedPrefix | medical_claim_processor/src/agents/bill_agent.py:100-103 | patterns after the first successful one are never consulted |
| Extraction.AcceptedPasses | medical_claim_processor/src/agents/insurance_agent.py:90-137 | an accepted group meets its acceptance test |
| Extraction.FirstAcceptedValid | medical_claim_processor/src/agents/insurance_agent.py:87-95 | whatever an ordered-pattern extractor returns meets its acceptance test |
| Extraction.KeptAmount | medical_claim_processor/src/agents/insurance_agent.py:155-160 | a kept amount is the parsed token and is at least the floor when there is one |
| Extraction.MaxOf | medical_claim_processor/src/agents/bill_agent.py:128 | there is no maximum iff the list is empty; otherwise it is an element at least every element |
| Extraction.LargestAmount | medical_claim_processor/src/agents/bill_agent.py:116-128 | the candidate loop returns exactly the largest candidate amount, or none |
| Extraction.KeepAmounts | medical_claim_processor/src/agents/insurance_agent.py:154-162 | the loop keeps exactly the tokens that parse to an amount at least the floor, in order |
| Extraction.KeptStep | medical_claim_processor/src/agents/insurance_agent.py:155-162 | one more token appends its amount iff it parses and clears the floor |
| Extraction.LargestAmountSpec | medical_claim_processor/src/agents/insurance_agent.py:151-165 | the result is none iff there is no candidate; otherwise it is a candidate, at least the floor and at least every candidate |
| Extraction.ExtractDate | medical_claim_processor/src/agents/bill_agent.py:142-160 | the keyword-by-pattern loop returns exactly the normalised first date match |
| Extraction.KeywordDateShape | medical_claim_processor/src/agents/bill_agent.py:142-177 | a keyword date is always `YYYY-MM-DD`; a first match containing neither '/' nor '-' (the `D Month YYYY` shape) normalises to nothing |
| Extraction.FirstKeywordDecides | medical_claim_processor/src/agents/bill_agent.py:151-158 | once a keyword's date pattern matches, later keywords do not matter, even when normalisation then fails |
| Extraction.FirstDateMatchPrefix | medical_claim_processor/src/agents/bill_agent.py:151-157 | later keywords never change the first date match |
| Extraction.KeysOf | medical_claim_processor/src/agents/bill_agent.py:76-86 | the keys of a field table, one per field, in order |
| Extraction.RuleData | medical_claim_processor/src/agents/bill_agent.py:72-88 | the rule dictionary has exactly the table's keys |
| Extraction.RuleDataValues | medical_claim_processor/src/agents/bill_agent.py:72-88 | with distinct keys, each key holds its own extractor's value |
| Extraction.RuleDataAt | medical_claim_processor/src/agents/bill_agent.py:76-86 | with distinct keys, field i's key is present and holds field i's value |
| Extraction.MatchField | medical_claim_processor/src/agents/discharge_agent.py:80-116 | an ordered-pattern field is null or a string meeting its acceptance test |
| Extraction.AmountField | medical_claim_processor/src/agents/insurance_agent.py:141-165 | an amount field is null or a non-negative number, at least the floor when there is one |
| Extraction.DateField | medical_claim_processor/src/agents/bill_agent.py:142-177 | a keyword-date field is null or a `YYYY-MM-DD` string |
| Extraction.ItemsField | medical_claim_processor/src/agents/bill_agent.py:226-248 | the items field is the list of the text's line items |
| Extraction.Merge | medical_claim_processor/src/agents/bill_agent.py:250-261 | with no model data the rule dict is returned unchanged; a merged dict has exactly the rule keys |
| Extraction.Combine | medical_claim_processor/src/agents/bill_agent.py:250-261 | the merging loop returns exactly the merge |
| Extraction.MergeNoModel | medical_claim_processor/src/agents/bill_agent.py:253-254 | no model data, or a null reply, returns the rule dict unchanged |
| Extraction.MergeFromObject | medical_claim_processor/src/agents/bill_agent.py:257-261 | for a model object, each rule key takes the model value when truthy and the rule value otherwise, so 0, "" and [] fall through |
| Extraction.MergeKeepsTruthy | medical_claim_processor/src/agents/discharge_agent.py:220-222 | merging never loses a truthy rule value |
| Extraction.Confidence | medical_claim_processor/src/agents/bill_agent.py:263-284 | the scoring loop returns exactly the weighted-slot confidence |
| Extraction.TruthSlotsNeverRaise | medical_claim_processor/src/agents/discharge_agent.py:226-246 | scoring that only tests truthiness never raises |
| Extraction.FirstErrorStays | medical_claim_processor/src/agents/bill_agent.py:281 | once a slot raises, scoring raises with that error |
| Extraction.ScoreIsFilledWeight | medical_claim_processor/src/agents/bill_agent.py:265-282 | the score is the total weight of the filled slots, between 0 and the total weight |
| Extraction.ConfidenceBounds | medical_claim_processor/src/agents/bill_agent.py:263-284 | with weights summing to 1, the confidence is the filled weight and lies in [0, 1] |
| Extraction.FilledWeightMonotone | medical_claim_processor/src/agents/insurance_agent.py:221-237 | filling more slots never lowers the filled weight |
| Extraction.ConfidenceMonotone | medical_claim_processor/src/agents/discharge_agent.py:226-246 | populating more fields never lowers the confidence |
| Extraction.MergeKeepsFilled | medical_claim_processor/src/agents/bill_agent.py:257-282 | a slot filled in the rule dict stays filled after the merge |
| Extraction.MergeNeverLowersConfidence | medical_claim_processor/src/agents/bill_agent.py:250-284 | the merged dict's confidence is at least the rule dict's |
| Extraction.ScoreOkSlotOk | medical_claim_processor/src/agents/bill_agent.py:265-282 | when scoring succeeds, every slot's own score succeeds |
| Extraction.Assemble | medical_claim_processor/src/agents/bill_agent.py:29-39 | the record has the agent's type, the original text, exactly the rule keys, the rule dict itself when there is no model data, and the confidence of its data |
| Extraction.ExtractData | medical_claim_processor/src/agents/bill_agent.py:15-39 | the agent's `extract_data` returns exactly the modelled extraction |
| Extraction.ExtractionShape | medical_claim_processor/src/agents/discharge_agent.py:15-39 | an extraction has the agent's type, the original raw text, exactly the rule keys, and with no model exactly the rule dict on the cleaned text |
| Extraction.ExtractedItemsAtMostOne | medical_claim_processor/src/agents/bill_agent.py:226-248 | on cleaned, newline-free text there is at most one line item |
| BillAgent.BillWeights | medical_claim_processor/src/agents/bill_agent.py:263-284 | the bill weights are non-negative and sum to 1.0, service and admission date sharing one 0.15 slot |
| BillAgent.BillKeys | medical_claim_processor/src/agents/bill_agent.py:76-86 | the rule dict has exactly the nine bill keys, each once |
| BillAgent.BillConfidenceBounds | medical_claim_processor/src/agents/bill_agent.py:263-284 | the bill confidence lies in [0, 1] and is the weight of the filled slots |
| BillAgent.BillItemsAtMostOne | medical_claim_processor/src/agents/bill_agent.py:226-248 | on the cleaned text the items list has at most one entry |
| BillAgent.GenericHospitalWins | medical_claim_processor/src/agents/bill_agent.py:93-103 | when a generic hospital shape matches, the brand literals are never consulted |
| BillAgent.BillDates | medical_claim_processor/src/agents/bill_agent.py:130-177 | the service, admission and discharge dates are each null or `YYYY-MM-DD` |
| BillAgent.BillNames | medical_claim_processor/src/agents/bill_agent.py:90-224 | the hospital, patient, insurer and policy fields are each null or a stripped string |
| BillAgent.BillTotal | medical_claim_processor/src/agents/bill_agent.py:107-128 | the total is null or a non-negative number |
| DischargeAgent.DischargeWeights | medical_claim_processor/src/agents/discharge_agent.py:226-246 | the weights 0.2, 0.25, 0.15, 0.15, 0.1, 0.1 and 0.05 are non-negative and sum to 1.0 |
| DischargeAgent.DischargeKeys | medical_claim_processor/src/agents/discharge_agent.py:67-76 | the rule dict has exactly the seven discharge keys, each once |
| DischargeAgent.DischargeConfidence | medical_claim_processor/src/agents/discharge_agent.py:226-246 | scoring never raises; the confidence lies in [0, 1] and is the weight of the filled slots |
| DischargeAgent.DischargePatient | medical_claim_processor/src/agents/discharge_agent.py:80-97 | the patient name is null or a stripped string of at least two words |
| DischargeAgent.DischargeDiagnosis | medical_claim_processor/src/agents/discharge_agent.py:99-116 | the diagnosis is null or a whitespace-collapsed string longer than 5 |
| DischargeAgent.DischargeTreatment | medical_claim_processor/src/agents/discharge_agent.py:194-211 | the treatment summary is null or a whitespace-collapsed string longer than 20 and at most 500 long |
| DischargeAgent.DischargeDates | medical_claim_processor/src/agents/discharge_agent.py:118-161 | the admission and discharge dates are each null or `YYYY-MM-DD` |
| InsuranceAgent.InsuranceWeights | medical_claim_processor/src/agents/insurance_agent.py:221-237 | the weights 0.3, 0.25, 0.25, 0.15 and 0.05 are non-negative and sum to 1.0 |
| InsuranceAgent.InsuranceKeys | medical_claim_processor/src/agents/insurance_agent.py:67-73 | the rule dict has exactly the five card keys, each once |
| InsuranceAgent.InsuranceConfidence | medical_claim_processor/src/agents/insurance_agent.py:221-237 | scoring never raises; the confidence lies in [0, 1] and is the weight of the filled slots |
| InsuranceAgent.InsurancePolicy | medical_claim_processor/src/agents/insurance_agent.py:77-95 | the policy number is null or a stripped string of at least 8 characters |
| InsuranceAgent.InsuranceHolder | medical_claim_processor/src/agents/insurance_agent.py:97-114 | the card holder is null or a stripped string of at least two words |
| InsuranceAgent.InsuranceCompany | medical_claim_processor/src/agents/insurance_agent.py:116-139 | the insurer is null or a stripped string longer than 3 |
| InsuranceAgent.BrandBeforeGeneric | medical_claim_processor/src/agents/insurance_agent.py:118-137 | when one of the eight brand literals matches acceptably, the generic patterns are never consulted |
| InsuranceAgent.SumInsuredFloorHolds | medical_claim_processor/src/agents/insurance_agent.py:141-165 | the sum insured is null or a number of at least 10,000 |
| InsuranceAgent.CoverageDigits | medical_claim_processor/src/agents/insurance_agent.py:157 | "500000" is a digit string of value 500000 |
| InsuranceAgent.ParseCoverage | medical_claim_processor/src/agents/insurance_agent.py:157 | the token "500,000" parses to 500000.0 once its comma is removed |
| InsuranceAgent.ParseStray | medical_claim_processor/src/agents/insurance_agent.py:157 | the token "50" parses to 50.0 |
| InsuranceAgent.SumInsuredOf | medical_claim_processor/src/agents/insurance_agent.py:151-165 | a candidate above the floor followed by one below it gives the first as the sum insured |
| InsuranceAgent.SumInsuredExample | medical_claim_processor/src/agents/insurance_agent.py:141-165 | the candidates "500,000" and a stray "50" give 500000 |
| InsuranceAgent.InsuranceValidity | medical_claim_processor/src/agents/insurance_agent.py:167-206 | the validity date is null or `YYYY-MM-DD` |
| LineItems.AmountRun | medical_claim_processor/src/agents/bill_agent.py:234 | the leading run of digits and commas is maximal |
| LineItems.DigitRun | medical_claim_processor/src/agents/bill_agent.py:234 | the leading run of digits is maximal |
| LineItems.TokenLength | medical_claim_processor/src/agents/bill_agent.py:234 | an amount token starting at an amount character is non-empty and fits the text |
| LineItems.FirstToken | medical_claim_processor/src/agents/bill_agent.py:234 | there is no amount token iff the line has no digit or comma; a token starts with one |
| LineItems.RemoveTokens | medical_claim_processor/src/agents/bill_agent.py:238 | removing the amount tokens leaves no digit or comma, and leaves a line without them unchanged |
| LineItems.ParseAmount | medical_claim_processor/src/agents/bill_agent.py:122 | a parsed amount is non-negative |
| LineItems.ParsePlainAmount | medical_claim_processor/src/agents/bill_agent.py:122 | a non-empty digit string parses to its value |
| LineItems.ParseGroupedAmount | medical_claim_processor/src/agents/bill_agent.py:122 | a digit string with one comma parses as if the comma were absent |
| LineItems.LineItemOf | medical_claim_processor/src/agents/bill_agent.py:234-244 | an item comes only from a line longer than 10 once stripped that holds an amount token; its amount is that token's value and the item is valid (quantity 1, positive amount, non-empty description) |
| LineItems.Description | medical_claim_processor/src/agents/bill_agent.py:238 | the description is stripped and holds no digit or comma |
| LineItems.ExtractLineItems | medical_claim_processor/src/agents/bill_agent.py:226-248 | the line loop returns exactly the line items of the text |
| LineItems.LineItemCases | medical_claim_processor/src/agents/bill_agent.py:234-244 | a line yields an item iff it has a token, is longer than 10 stripped, the token parses to a positive amount and the description is non-empty; the item then has that description, that amount and quantity 1 |
| LineItems.LineItemsFromLines | medical_claim_processor/src/agents/bill_agent.py:231-244 | every item comes from one of the text's lines |
| LineItems.LineItemsValid | medical_claim_processor/src/agents/bill_agent.py:239-248 | there are at most 10 items and each is valid |
| LineItems.QualifyingLineKept | medical_claim_processor/src/agents/bill_agent.py:232-248 | when at most 10 lines qualify, every qualifying line's item is kept |
| LineItems.SingleLineAtMostOneItem | medical_claim_processor/src/agents/bill_agent.py:231 | text without newlines yields at most one item |
| LineItems.ShortLineNoItem | medical_claim_processor/src/agents/bill_agent.py:235 | a line of at most 10 characters once stripped yields no item |
| Dates.DayField | medical_claim_processor/src/agents/bill_agent.py:166-170 | a `%d` field (one or two digits) reads as a day in 1..31 |
| Dates.MonthField | medical_claim_processor/src/agents/bill_agent.py:166-170 | a `%m` field reads as a month in 1..12 |
| Dates.YearField | medical_claim_processor/src/agents/bill_agent.py:166-170 | a `%Y` field reads only from exactly four digits |
| Dates.ParseWith | medical_claim_processor/src/agents/bill_agent.py:170 | a parse under one format is a valid calendar date |
| Dates.FirstParse | medical_claim_processor/src/agents/bill_agent.py:168-173 | the first format that parses gives a valid calendar date |
| Dates.FirstParseFirst | medical_claim_processor/src/agents/bill_agent.py:166-175 | no format parses iff the result is none; otherwise the result is that of a format all of whose predecessors fail |
| Dates.ZeroPadValue | medical_claim_processor/src/agents/bill_agent.py:171 | zero-padding to a width gives that many digits with the number's value |
| Dates.IsoParts | medical_claim_processor/src/agents/bill_agent.py:171 | the `%Y-%m-%d` rendering of a valid date has the ISO shape and its three fields read back as year, month and day |
| Dates.NormalizeDateShape | medical_claim_processor/src/agents/bill_agent.py:162-177 | a normalised date is `YYYY-MM-DD` text of a valid date |
| Dates.NoSeparatorNoDate | medical_claim_processor/src/agents/bill_agent.py:148-166 | a string with neither '/' nor '-', such as a `D Month YYYY` match, never normalises |
| Dates.DayFirstWins | medical_claim_processor/src/agents/bill_agent.py:166-171 | when the day-first reading parses it is the result, so an ambiguous date is read day first |
| Dates.IsoFields | medical_claim_processor/src/agents/bill_agent.py:171 | the padded fields of a valid date read back through the `%d`, `%m` and `%Y` fields |
| Dates.IsoNoSlash | medical_claim_processor/src/agents/bill_agent.py:171 | ISO output holds no '/' |
| Dates.IsoSplit | medical_claim_processor/src/agents/bill_agent.py:171 | ISO output splits on '-' into its three padded fields |
| Dates.IsoReadsBack | medical_claim_processor/src/agents/bill_agent.py:166-171 | ISO output of a valid date parses back to that date |
| Dates.NormalizeDateIdempotent | medical_claim_processor/src/agents/bill_agent.py:162-177 | normalising a normalised date changes nothing |
| Dates.SplitThree | medical_claim_processor/src/agents/bill_agent.py:170 | three separator-free fields joined by the separator split back into those fields |
| Dates.ParseThreeFields | medical_claim_processor/src/agents/bill_agent.py:170 | when the string splits into the format's three fields and each reads, the parse is the date they form if it is valid, and none otherwise |
| ClaimProcessor.Classified | medical_claim_processor/src/services/claim_processor.py:130-144 | one classification per document, in order, each carrying its document's file id |
| ClaimProcessor.ClassifyKeepsId | medical_claim_processor/src/services/claim_processor.py:137-141 | classifying a document keeps the file id passed in |
| ClaimProcessor.ClassifyDocuments | medical_claim_processor/src/services/claim_processor.py:130-144 | the classifying loop returns exactly the classifications of the documents |
| ClaimProcessor.ClassifiedSnoc | medical_claim_processor/src/services/claim_processor.py:136-142 | one more document appends its classification |
| ClaimProcessor.DocMap | medical_claim_processor/src/services/claim_processor.py:154 | the file-id map has a key exactly for each document's id and maps it to a document with that id |
| ClaimProcessor.BuildDocMap | medical_claim_processor/src/services/claim_processor.py:154 | building the map document by document gives exactly the file-id map, a later duplicate id overwriting an earlier one |
| ClaimProcessor.AgentFor | medical_claim_processor/src/services/claim_processor.py:160-166 | the three known types route to the agent for that type, and only `other` has no agent |
| ClaimProcessor.ExtractOne | medical_claim_processor/src/services/claim_processor.py:157-176 | an unknown file id raises a KeyError; a record has the classified type's label and its document's text as raw text |
| ClaimProcessor.ExtractData | medical_claim_processor/src/services/claim_processor.py:146-179 | the routing loop returns exactly the records, or the first error |
| ClaimProcessor.ExtractRecord | medical_claim_processor/src/services/claim_processor.py:157-177 | one iteration of the loop returns exactly the record for one classified document |
| ClaimProcessor.ExtractedRouting | medical_claim_processor/src/services/claim_processor.py:156-179 | there is one record per classified document, in order; each carries the classified type's label and its document's text; an `other` document gives type "other", empty data and confidence 0.0 |
| ClaimProcessor.ExtractedByAgent | medical_claim_processor/src/services/claim_processor.py:161-166 | a known type's record is exactly its agent's extraction of the document's text |
| ClaimProcessor.UnknownIdRaises | medical_claim_processor/src/services/claim_processor.py:157 | a classified document whose id is not among the documents makes extraction raise |
| ClaimProcessor.DocumentKeyInjective | medical_claim_processor/src/services/claim_processor.py:201 | different positions get different `document_N` keys |
| ClaimProcessor.FormatDocumentsResponse | medical_claim_processor/src/services/claim_processor.py:194-207 | the enumerate loop builds exactly the response map of the records |
| ClaimProcessor.DocumentsKeys | medical_claim_processor/src/services/claim_processor.py:200-201 | the keys are exactly `document_1` to `document_n` |
| ClaimProcessor.DocumentsEntries | medical_claim_processor/src/services/claim_processor.py:200-205 | the key `document_k` holds the type, data and confidence of the k-th record |
| ClaimProcessor.DocumentsCount | medical_claim_processor/src/services/claim_processor.py:194-207 | the response map has exactly one entry per record |
| ClaimProcessor.KeysCount | medical_claim_processor/src/services/claim_processor.py:200-201 | the keys for positions 1 to n are n distinct strings |
| ClaimProcessor.ProcessClaimMethod | medical_claim_processor/src/services/claim_processor.py:31-76 | the sequenced steps return exactly the modelled response |
| ClaimProcessor.ResponseShape | medical_claim_processor/src/services/claim_processor.py:52-76 | on success the summary counts are the number of documents three times over, and there is one response entry per document; on the error path the documents are empty and the decision is rejected with confidence 0.0 |
| ClaimProcessor.NoBillRejected | medical_claim_processor/src/services/claim_processor.py:43-49 | without a decision model, a claim none of whose documents is classified as a bill is rejected |
| TextExtractor.KeptLine | medical_claim_processor/src/services/text_extractor.py:57-60 | a line is dropped iff it is blank once stripped, and otherwise kept stripped |
| TextExtractor.CleanText | medical_claim_processor/src/services/text_extractor.py:46-62 | the line loop returns exactly the cleaned text |
| TextExtractor.CleanLinesClean | medical_claim_processor/src/services/text_extractor.py:54-60 | every kept line is non-empty and stripped, and is the stripped form of an input line |
| TextExtractor.StripHasNo | medical_claim_processor/src/services/text_extractor.py:58 | stripping introduces no character |
| TextExtractor.CleanTextEmpty | medical_claim_processor/src/services/text_extractor.py:50-51 | empty input gives "" |
| TextExtractor.CleanTextLines | medical_claim_processor/src/services/text_extractor.py:54-62 | the output is empty iff no line is kept; otherwise splitting it on newlines gives exactly the kept lines, each non-empty and stripped |
| TextExtractor.NoLinesOfEmpty | medical_claim_processor/src/services/text_extractor.py:50-51 | no lines give no kept lines |
| TextExtractor.CleanTextKeepsLine | medical_claim_processor/src/services/text_extractor.py:57-60 | every non-blank input line appears, stripped, among the output lines |
| TextExtractor.CleanTextTrimmed | medical_claim_processor/src/services/text_extractor.py:62 | the output has no leading or trailing whitespace and neither starts nor ends with a newline |
| TextExtractor.CleanTextIdempotent | medical_claim_processor/src/services/text_extractor.py:46-62 | cleaning cleaned text changes nothing |
| Strings.Lower | medical_claim_processor/src/services/validator.py:157 | lowercasing keeps the length |
| Strings.LowerIdempotent | medical_claim_processor/src/services/document_classifier.py:40-41 | lowercasing twice is lowercasing once |
| Strings.ContainsAt | medical_claim_processor/src/services/document_classifier.py:48 | a substring occurring at some position is contained (`in` on strings) |
| Strings.ContainsChars | medical_claim_processor/src/services/decision_engine.py:59 | every character of a contained substring occurs in the string |
| Strings.IndexOf | medical_claim_processor/src/agents/base_agent.py:37 | the first position of a character holds it, and no earlier position does |
| Strings.LastIndexOf | medical_claim_processor/src/agents/base_agent.py:37 | the last position of a character holds it, and no later position does |
| Strings.Strip | medical_claim_processor/src/services/text_extractor.py:58 | `str.strip()` gives a stripped slice of the input with only whitespace cut from either end |
| Strings.StripKeepsContent | medical_claim_processor/src/services/text_extractor.py:58 | stripping keeps every non-whitespace character |
| Strings.StripOfTrimmed | medical_claim_processor/src/services/text_extractor.py:58 | stripping a stripped string changes nothing |
| Strings.StripIdempotent | medical_claim_processor/src/services/text_extractor.py:58 | stripping twice is stripping once |
| Strings.SplitOn | medical_claim_processor/src/services/text_extractor.py:54 | `str.split(sep)` gives at least one part and no part contains the separator |
| Strings.SplitJoin | medical_claim_processor/src/services/text_extractor.py:62 | joining separator-free parts and splitting again gives the parts back |
| Strings.Words | medical_claim_processor/src/services/validator.py:157 | `str.split()` gives non-empty whitespace-free words |
| Strings.SquashSameWords | medical_claim_processor/src/services/validator.py:157 | two strings normalise alike with `' '.join(s.split())` iff they have the same words |
| Strings.SquashWords | medical_claim_processor/src/services/validator.py:157 | the normalised string is empty iff there are no words, and otherwise splits on ' ' into exactly the words |
| Strings.Collapse | medical_claim_processor/src/agents/base_agent.py:53 | `re.sub(r'\s+', ' ', s)` is empty iff its input is, keeps a leading non-space, has only plain spaces, no double space, and only characters of the input |
| Strings.RemoveChar | medical_claim_processor/src/agents/base_agent.py:55 | `str.replace(c, '')` leaves no c, only characters of the input, and input without c unchanged |
| Strings.RemoveCharAppend | medical_claim_processor/src/agents/base_agent.py:55 | deleting a character distributes over concatenation |
| Strings.RemoveOneComma | medical_claim_processor/src/agents/bill_agent.py:122 | deleting the comma of `a,b` gives `ab` |
| Strings.NatToString | medical_claim_processor/src/services/claim_processor.py:201 | the decimal rendering of a number is a non-empty digit string |
| Strings.NatToStringValue | medical_claim_processor/src/services/claim_processor.py:201 | the decimal rendering reads back as the number |
| Strings.NatToStringInjective | medical_claim_processor/src/services/claim_processor.py:201 | different numbers render differently |
| Strings.ParseDecimal | medical_claim_processor/src/services/document_classifier.py:100 | a parsed unsigned decimal is non-negative and comes from non-empty text |
| Strings.ParseDecimalOfNat | medical_claim_processor/src/services/document_classifier.py:100 | the rendering of a number parses back as that number |
| Strings.ZeroPad | medical_claim_processor/src/agents/bill_agent.py:171 | zero-padding gives digits at least as wide as asked |
| DateExamples.ParseDayFirst | medical_claim_processor/src/agents/bill_agent.py:166-170 | "03/04/2024" parses day first as 3 April 2024 |
| DateExamples.ParseMonthFirstDayFails | medical_claim_processor/src/agents/bill_agent.py:166-173 | "05/13/2024" fails the day-first format, month 13 being invalid |
| DateExamples.ParseMonthFirst | medical_claim_processor/src/agents/bill_agent.py:166-170 | "05/13/2024" parses month first as 13 May 2024 |
| DateExamples.ParseIso | medical_claim_processor/src/agents/bill_agent.py:166-170 | "2024-1-5" parses under `%Y-%m-%d` as 5 January 2024 |
| DateExamples.ParseImpossibleSlash | medical_claim_processor/src/agents/bill_agent.py:166-173 | "30/02/2024" fails every slash format |
| DateExamples.ParseImpossibleDash | medical_claim_processor/src/agents/bill_agent.py:166-173 | "30/02/2024" fails every dash format |
| DateExamples.NormalizeDayFirstExample | medical_claim_processor/src/agents/bill_agent.py:162-177 | "03/04/2024" normalises to 2024-04-03, the day-first reading |
| DateExamples.NormalizeMonthFirstExample | medical_claim_processor/src/agents/bill_agent.py:162-177 | "05/13/2024" normalises to 2024-05-13 through the second format |
| DateExamples.NormalizeIsoExample | medical_claim_processor/src/agents/bill_agent.py:162-177 | "2024-1-5" normalises to 2024-01-05 |
| DateExamples.NormalizeImpossibleDayExample | medical_claim_processor/src/agents/bill_agent.py:162-177 | "30/02/2024" normalises to nothing, 30 February not being a date |
| DateExamples.FormatsInOrder | medical_claim_processor/src/agents/bill_agent.py:166 | the five formats are tried in the source's order |
| Seqs.Collect | medical_claim_processor/src/services/validator.py:114-116 | an "append what qualifies" loop yields at most one result per input |
| Seqs.CollectFrom | medical_claim_processor/src/services/validator.py:114-116 | every collected result is the step's result on some input |
| Seqs.CollectAppend | medical_claim_processor/src/services/text_extractor.py:57-60 | collecting over two blocks collects over each in turn |
| Seqs.CollectSnoc | medical_claim_processor/src/services/text_extractor.py:57-60 | one more input appends its result, if any |
| Seqs.CollectComplete | medical_claim_processor/src/services/validator.py:114-116 | every input with a result contributes it |
| Seqs.MapAll | medical_claim_processor/src/services/claim_processor.py:156-177 | appending each result and letting an exception escape gives one result per input on success |
| Seqs.MapAllSnoc | medical_claim_processor/src/services/claim_processor.py:156-177 | one more input appends its result or ends the run with its error |
| Seqs.MapAllErrorStays | medical_claim_processor/src/services/claim_processor.py:156-177 | once a prefix fails, the whole run fails with that error |
| Seqs.MapAllError | medical_claim_processor/src/services/claim_processor.py:156-177 | the run fails iff some input fails, and then with the first failing input's error |
| Seqs.FirstSomeIsFirst | medical_claim_processor/src/agents/bill_agent.py:100-105 | the first success wins: none iff every input gives none; otherwise the result of an input whose predecessors all give none |
| Seqs.FirstSomePrefix | medical_claim_processor/src/agents/bill_agent.py:100-103 | inputs after the first success are never consulted |
| Seqs.Take | medical_claim_processor/src/agents/base_agent.py:66 | `xs[:n]` has the first min(n, len) elements |
| DataModels.Get | medical_claim_processor/src/services/validator.py:55 | `dict.get` of an absent key is None |
| DataModels.TruthyLen | medical_claim_processor/src/agents/bill_agent.py:281 | a truthy value with a length has a positive length |
| DataModels.PyEqNumbers | medical_claim_processor/src/services/validator.py:74 | under Python's `==` a boolean equals the number it counts as and an `int` the `float` of the same value, while a string equals neither |
| DataModels.Defaults | medical_claim_processor/src/models/data_models.py:10-64 | confidences default to 0.0, the recommended amount to None, raw_text to "", the validation lists and bill items to empty, and the optional data fields to None |
| DataModels.LabelsDistinct | medical_claim_processor/src/models/data_models.py:12-48 | each document type's label is one of the four and names only that type; each status's label one of the three and names only that status |

## Left out

- File upload, temporary files, `pdftotext` and `_prepare_documents`/`_extract_text_from_pdf` are not modelled: `process_claim` is modelled from the prepared documents on, each with an id, a file name and its text. The call at `claim_processor.py:95` is not awaited, which the model does not reflect.
- The `except` branch of `process_claim` is modelled for the exceptions the modelled steps raise. Failures of the preparation step are not modelled.
- `pdf_generator.py` and `main.py` (report layout, web routes) are not part of this model.
- The Gemini models are given functions. An agent's model maps the full prompt to an optional reply, `None` standing for a raised exception. The classifier's model sees the file name and the first 2000 characters. The decision model gives an optional reply. `genai.configure` and the reading of environment variables are left out: a model is present or absent.
- The prompt text of `_ai_assisted_decision` and `_prepare_data_summary` is not modelled, because it only feeds the model.
- Python's regular-expression engine is a given `Engine` over the literal patterns. The exception is the amount-token pattern of the line items, which is written out. `json.loads` and `ClaimDecision(**fields)` are given functions, with parse errors as `None`.
- `float()` is modelled for unsigned digits with an optional fraction, and for an optional sign in the classifier's reply. Exponents, `inf`, `nan`, underscores and surrounding whitespace are left out.
- IEEE floating point is modelled as exact `real` arithmetic. The agents add their weight tables in doubles, so a confidence can be one unit in the last place away from the exact sum: 0.0 + 0.2 + 0.1 is 0.30000000000000004, and 0.2 + 0.15 + 0.1 + 0.05 is 0.49999999999999994. In the model the bill agent's `min(score, 1.0)` and the weight sums are exact.
- DecisionEngine.IsClaimValid: the "confidence above 0.3" test sees the exact weight sum. A record whose Python confidence lands just above 0.3, such as a bill with only its total and items filled, counts as valid in Python but not in the model.
- DecisionEngine.ApprovalSpec: the mean-confidence gate (below 0.3) and the validity gate compare exact sums. A claim whose confidences sit at exactly 0.3 in the model can be rejected here and approved in Python, because the double sums are slightly above 0.3.
- Validator.LowConfidenceWarnings: the "below 0.5" test sees the exact weight sum. A discharge summary with only its patient, admission date, doctor and treatment filled is exactly 0.5 here and gets no warning, while its double sum is below 0.5 and Python warns. That also changes the warning count in the approval reason.
- The rendering of numbers inside messages (`:.2f`, `:,.2f`, `str()` of a non-string value) is a parameter, `Validator.Show` or `DecisionEngine.Formats`.
- `Strings.Lower`: lowercases ASCII letters only; Unicode case mapping is left out. (`Strings.IsSpace` does follow Python's full `str.isspace()` set.)
- `Strings.IsDigit`: only the ASCII digits `0`-`9` are digits. The line-item pattern `[0-9,]` is ASCII-only in Python too, but `strptime`'s `%d`, `%m` and `%Y` and Python's `float()` also accept other Unicode decimal digits. So `Dates.NormalizeDate` gives no date for "01/01/" followed by Arabic-Indic digits, and `DocumentClassifier.ParseReply` does not parse a confidence written in them, where Python does.
- A `date` object compared with a string in the validator's date checks is left out: the extracted dates are strings.
- Dictionary key order is not modelled: the response map and the record dictionaries are Dafny maps.
- async and await are left out: every stage runs sequentially.
- `print` calls in the exception handlers are left out.
