/**
 * The skeleton the three extraction agents share (`bill_agent.py`,
 * `discharge_agent.py`, `insurance_agent.py`): ordered pattern candidates
 * with a validity filter, the largest parsed amount, keyword-anchored dates,
 * the merge of model output over pattern output, and the weighted-field
 * confidence. An agent is this skeleton applied to its own table of fields
 * and weights.
 */
module Extraction {
  import opened Wrappers
  import opened Strings
  import opened Seqs
  import opened DataModels
  import opened Regexes
  import opened Dates
  import opened LineItems
  import opened BaseAgent

  // ---------------------------------------------------------------------------
  // First accepted match

  /** The check a stripped match must pass before it is returned. */
  datatype Accept =
    | AnyMatch                                      // returned as found
    | TwoWords                                      // `len(x.split()) >= 2`
    | LongerThan(n: nat)                            // `len(x) > n`
    | Condensed(longerThan: nat, limit: Option<nat>) // whitespace collapsed, `len > n`, cut to `limit`

  /** What an extractor returns for the group text of one match, or `None`
      when the check fails and the next pattern is tried. */
  function Accepted(accept: Accept, group: string): Option<string>
  {
    var t := Strip(group);
    match accept
    case AnyMatch => Some(t)
    case TwoWords => if |Words(t)| >= 2 then Some(t) else None
    case LongerThan(n) => if |t| > n then Some(t) else None
    case Condensed(n, limit) =>
      var c := Collapse(t);
      if |c| <= n then None
      else
        match limit
        case None => Some(c)
        case Some(m) => Some(Take(c, m))
  }

  /** Each check on the stripped group text: a plain match is kept as is, a
      two-word or length check keeps it only when it holds, and a condensed
      value is the collapsed text, longer than the bound, cut to the limit. */
  lemma AcceptedSpec(accept: Accept, group: string)
    ensures var r := Accepted(accept, group);
      && (accept.AnyMatch? ==> r == Some(Strip(group)))
      && (accept.TwoWords? ==> r == (if |Words(Strip(group))| >= 2 then Some(Strip(group)) else None))
      && (accept.LongerThan? ==> r == (if |Strip(group)| > accept.n then Some(Strip(group)) else None))
      && (accept.Condensed? ==> (r.None? <==> |Collapse(Strip(group))| <= accept.longerThan))
    ensures var r := Accepted(accept, group);
      accept.Condensed? && r.Some? ==>
      && r.value <= Collapse(Strip(group))
      && NoDoubleSpace(r.value)
      && (accept.limit.None? ==> r.value == Collapse(Strip(group)))
      && (accept.limit.Some? ==> |r.value| <= accept.limit.value)
      && (accept.limit.Some? && |r.value| < accept.limit.value ==> r.value == Collapse(Strip(group)))
  {
    if accept.Condensed? {
      var c := Collapse(Strip(group));
      if |c| > accept.longerThan && accept.limit.Some? {
        var cut := Take(c, accept.limit.value);
        SliceNoDoubleSpace(c, 0, |cut|);
        assert cut == c[0..|cut|];
      }
    }
  }

  /** Pattern `p` matches and its match passes the check. */
  predicate Succeeds(e: Engine, p: Regex, accept: Accept, text: string) {
    Attempt(e, accept, text)(p).Some?
  }

  /** One pattern tried on the text: its match, if it passes the check. */
  function Attempt(e: Engine, accept: Accept, text: string): Regex -> Option<string>
  {
    p => if e.search(p, text).Some? then Accepted(accept, e.search(p, text).value) else None
  }

  /** The value of the first pattern, in list order, whose match passes the check. */
  function FirstAccepted(e: Engine, patterns: seq<Regex>, accept: Accept, text: string): Option<string>
  {
    FirstSome(Attempt(e, accept, text), patterns)
  }

  /** The ordered-pattern extractor loop: each pattern in turn, the first
      match that passes the check is returned. */
  method FirstMatch(e: Engine, patterns: seq<Regex>, accept: Accept, text: string) returns (r: Option<string>)
    ensures r == FirstAccepted(e, patterns, accept, text)
  {
    var i := 0;
    while i < |patterns|
      invariant 0 <= i <= |patterns|
      invariant FirstAccepted(e, patterns, accept, text) == FirstAccepted(e, patterns[i..], accept, text)
    {
      assert patterns[i..][1..] == patterns[i + 1..];
      var m := e.search(patterns[i], text);
      if m.Some? {
        var v := Accepted(accept, m.value);
        if v.Some? {
          return v;
        }
      }
      i := i + 1;
    }
    return None;
  }

  /** First success wins: the result is the accepted match of some pattern
      all of whose predecessors failed; it is `None` exactly when every
      pattern fails. */
  lemma FirstAcceptedIsFirst(e: Engine, patterns: seq<Regex>, accept: Accept, text: string)
    ensures FirstAccepted(e, patterns, accept, text).None? <==>
      forall j :: 0 <= j < |patterns| ==> !Succeeds(e, patterns[j], accept, text)
    ensures FirstAccepted(e, patterns, accept, text).Some? ==>
      exists i :: 0 <= i < |patterns| && Succeeds(e, patterns[i], accept, text)
        && FirstAccepted(e, patterns, accept, text) == Accepted(accept, e.search(patterns[i], text).value)
        && forall j :: 0 <= j < i ==> !Succeeds(e, patterns[j], accept, text)
  {
    FirstSomeIsFirst(Attempt(e, accept, text), patterns);
  }

  /** A pattern placed after one that succeeds is never consulted: patterns
      behind it make no difference. */
  lemma FirstAcceptedPrefix(e: Engine, patterns: seq<Regex>, more: seq<Regex>, accept: Accept, text: string)
    requires FirstAccepted(e, patterns, accept, text).Some?
    ensures FirstAccepted(e, patterns + more, accept, text) == FirstAccepted(e, patterns, accept, text)
  {
    FirstSomePrefix(Attempt(e, accept, text), patterns, more);
  }

  /** What a value selected under `accept` satisfies. */
  predicate Passes(accept: Accept, v: string) {
    match accept
    case AnyMatch => Trimmed(v)
    case TwoWords => Trimmed(v) && |Words(v)| >= 2
    case LongerThan(n) => Trimmed(v) && |v| > n
    case Condensed(n, limit) =>
      && NoDoubleSpace(v)
      && (|v| > n || (limit.Some? && |v| == limit.value))
      && (limit.Some? ==> |v| <= limit.value)
  }

  /** A match that passes its check satisfies `Passes`. */
  lemma AcceptedPasses(accept: Accept, group: string)
    requires Accepted(accept, group).Some?
    ensures Passes(accept, Accepted(accept, group).value)
  {
    AcceptedSpec(accept, group);
  }

  /** Whatever is returned passes the check it was selected by. */
  lemma {:induction false} FirstAcceptedValid(e: Engine, patterns: seq<Regex>, accept: Accept, text: string)
    requires FirstAccepted(e, patterns, accept, text).Some?
    ensures Passes(accept, FirstAccepted(e, patterns, accept, text).value)
    decreases |patterns|
  {
    if Succeeds(e, patterns[0], accept, text) {
      AcceptedPasses(accept, e.search(patterns[0], text).value);
    } else {
      FirstAcceptedValid(e, patterns[1..], accept, text);
    }
  }

  // ---------------------------------------------------------------------------
  // Largest amount

  /** One `findall` group converted to an amount, kept when at least `floor`. */
  function KeptAmount(floor: Option<real>, token: string): (r: Option<real>)
    ensures r.Some? ==> ParseAmount(token) == r && (floor.Some? ==> r.value >= floor.value)
  {
    match ParseAmount(token)
    case None => None
    case Some(a) => if floor.None? || a >= floor.value then Some(a) else None
  }

  /** The `findall` groups of every pattern, pattern after pattern. */
  function AllMatches(e: Engine, patterns: seq<Regex>, text: string): seq<string>
  {
    if patterns == [] then []
    else AllMatches(e, patterns[..|patterns| - 1], text) + e.findAll(patterns[|patterns| - 1], text)
  }

  /** `KeptAmount` for one floor, as a step function. */
  function Keeper(floor: Option<real>): string -> Option<real>
  {
    token => KeptAmount(floor, token)
  }

  /** The amounts kept from all the groups, in order. */
  function Candidates(e: Engine, patterns: seq<Regex>, floor: Option<real>, text: string): seq<real>
  {
    Collect(Keeper(floor), AllMatches(e, patterns, text))
  }

  /** `max(amounts) if amounts else None`. */
  function MaxOf(xs: seq<real>): (r: Option<real>)
    ensures r.None? <==> xs == []
    ensures r.Some? ==> r.value in xs && forall k :: 0 <= k < |xs| ==> xs[k] <= r.value
  {
    if xs == [] then None
    else
      match MaxOf(xs[..|xs| - 1])
      case None =>
        assert xs == [xs[0]];
        Some(xs[0])
      case Some(m) =>
        assert forall k :: 0 <= k < |xs| - 1 ==> xs[k] == xs[..|xs| - 1][k];
        Some(if xs[|xs| - 1] > m then xs[|xs| - 1] else m)
  }

  /** The amount extractors' loop over patterns, each pattern's `findall`
      groups converted and filtered in turn, then the largest amount. */
  method LargestAmount(e: Engine, patterns: seq<Regex>, floor: Option<real>, text: string) returns (r: Option<real>)
    ensures r == MaxOf(Candidates(e, patterns, floor, text))
  {
    var amounts: seq<real> := [];
    for i := 0 to |patterns|
      invariant amounts == Collect(Keeper(floor), AllMatches(e, patterns[..i], text))
    {
      assert patterns[..i + 1][..i] == patterns[..i];
      var matches := e.findAll(patterns[i], text);
      var kept := KeepAmounts(floor, matches);
      CollectAppend(Keeper(floor), AllMatches(e, patterns[..i], text), matches);
      amounts := amounts + kept;
    }
    assert patterns[..|patterns|] == patterns;
    r := MaxOf(amounts);
  }

  /** The inner loop over one pattern's groups: each group that parses and
      reaches the floor contributes its amount, in order. */
  method KeepAmounts(floor: Option<real>, matches: seq<string>) returns (kept: seq<real>)
    ensures kept == Collect(Keeper(floor), matches)
  {
    kept := [];
    for j := 0 to |matches|
      invariant kept == Collect(Keeper(floor), matches[..j])
    {
      assert matches[..j + 1] == matches[..j] + [matches[j]];
      KeptStep(floor, matches[..j], matches[j]);
      var amount := ParseAmount(matches[j]);
      if amount.Some? && (floor.None? || amount.value >= floor.value) {
        kept := kept + [amount.value];
      }
    }
    assert matches[..|matches|] == matches;
  }

  /** One more group adds its amount when it parses and reaches the floor. */
  lemma KeptStep(floor: Option<real>, tokens: seq<string>, token: string)
    ensures var a := ParseAmount(token);
      Collect(Keeper(floor), tokens + [token]) == Collect(Keeper(floor), tokens)
        + (if a.Some? && (floor.None? || a.value >= floor.value) then [a.value] else [])
  {
    CollectSnoc(Keeper(floor), tokens, token);
  }

  /** The result is one of the kept amounts and no kept amount exceeds it;
      it reaches the floor, and there is none only when nothing was kept. */
  lemma LargestAmountSpec(e: Engine, patterns: seq<Regex>, floor: Option<real>, text: string)
    ensures var r := MaxOf(Candidates(e, patterns, floor, text));
      && (r.None? <==> Candidates(e, patterns, floor, text) == [])
      && (r.Some? ==> r.value in Candidates(e, patterns, floor, text))
      && (r.Some? && floor.Some? ==> r.value >= floor.value)
      && (forall a :: a in Candidates(e, patterns, floor, text) ==> a <= r.value)
  {
    var keep := Keeper(floor);
    var xs := Candidates(e, patterns, floor, text);
    var r := MaxOf(xs);
    if r.Some? && floor.Some? {
      CollectFrom(keep, AllMatches(e, patterns, text));
      var k :| 0 <= k < |xs| && xs[k] == r.value;
      assert ResultOf(keep, AllMatches(e, patterns, text), xs[k]);
    }
  }

  // ---------------------------------------------------------------------------
  // Keyword-anchored dates

  /** `_extract_date_pattern`'s three date shapes, in order. */
  const DatePatterns: seq<string> := [
    @"(\d{1,2}[/-]\d{1,2}[/-]\d{4})",
    @"(\d{4}[/-]\d{1,2}[/-]\d{1,2})",
    @"(\d{1,2}\s+\w+\s+\d{4})"
  ]

  /** `rf'{keyword}[:\s]*{pattern}'`, searched case-insensitively. */
  function DateRegex(keyword: string, pattern: string): Regex
  {
    Regex(keyword + @"[:\s]*" + pattern, true, false)
  }

  /** The group of the first date pattern that matches after `keyword`. */
  function DateAfter(e: Engine, keyword: string, patterns: seq<string>, text: string): Option<string>
  {
    if patterns == [] then None
    else match e.search(DateRegex(keyword, patterns[0]), text)
      case Some(g) => Some(g)
      case None => DateAfter(e, keyword, patterns[1..], text)
  }

  /** The group of the first match, keywords outermost, date patterns inner. */
  function FirstDateMatch(e: Engine, keywords: seq<string>, text: string): Option<string>
  {
    if keywords == [] then None
    else match DateAfter(e, keywords[0], DatePatterns, text)
      case Some(g) => Some(g)
      case None => FirstDateMatch(e, keywords[1..], text)
  }

  /** `_extract_date_pattern`: the first match decides; its text is then
      normalised, and a failed normalisation gives `None` without trying
      further matches. */
  function KeywordDate(e: Engine, keywords: seq<string>, text: string): Option<string>
  {
    match FirstDateMatch(e, keywords, text)
    case Some(g) => NormalizeDate(g)
    case None => None
  }

  /** The date extractors' nested loop with early return. */
  method ExtractDate(e: Engine, keywords: seq<string>, text: string) returns (r: Option<string>)
    ensures r == KeywordDate(e, keywords, text)
  {
    var i := 0;
    while i < |keywords|
      invariant 0 <= i <= |keywords|
      invariant FirstDateMatch(e, keywords, text) == FirstDateMatch(e, keywords[i..], text)
    {
      assert keywords[i..][1..] == keywords[i + 1..];
      var j := 0;
      while j < |DatePatterns|
        invariant 0 <= j <= |DatePatterns|
        invariant DateAfter(e, keywords[i], DatePatterns, text) == DateAfter(e, keywords[i], DatePatterns[j..], text)
      {
        assert DatePatterns[j..][1..] == DatePatterns[j + 1..];
        var m := e.search(DateRegex(keywords[i], DatePatterns[j]), text);
        if m.Some? {
          r := NormalizeDate(m.value);
          return;
        }
        j := j + 1;
      }
      i := i + 1;
    }
    return None;
  }

  /** A date is `YYYY-MM-DD`; a matched text without `/` or `-` (the
      `D Month YYYY` shape) gives `None`, whatever later keywords would match. */
  lemma KeywordDateShape(e: Engine, keywords: seq<string>, text: string)
    ensures KeywordDate(e, keywords, text).Some? ==> IsIsoShape(KeywordDate(e, keywords, text).value)
    ensures FirstDateMatch(e, keywords, text).Some? &&
      '/' !in FirstDateMatch(e, keywords, text).value && '-' !in FirstDateMatch(e, keywords, text).value
      ==> KeywordDate(e, keywords, text).None?
  {
    if KeywordDate(e, keywords, text).Some? {
      NormalizeDateShape(FirstDateMatch(e, keywords, text).value);
    }
    if FirstDateMatch(e, keywords, text).Some? {
      var g := FirstDateMatch(e, keywords, text).value;
      if '/' !in g && '-' !in g {
        NoSeparatorNoDate(g);
      }
    }
  }

  /** An earlier keyword that matches decides, whatever later keywords match. */
  lemma {:induction false} FirstKeywordDecides(e: Engine, keywords: seq<string>, more: seq<string>, text: string)
    requires FirstDateMatch(e, keywords, text).Some?
    ensures KeywordDate(e, keywords + more, text) == KeywordDate(e, keywords, text)
    decreases |keywords|
  {
    FirstDateMatchPrefix(e, keywords, more, text);
  }

  lemma {:induction false} FirstDateMatchPrefix(e: Engine, keywords: seq<string>, more: seq<string>, text: string)
    requires FirstDateMatch(e, keywords, text).Some?
    ensures FirstDateMatch(e, keywords + more, text) == FirstDateMatch(e, keywords, text)
    decreases |keywords|
  {
    assert (keywords + more)[0] == keywords[0];
    if DateAfter(e, keywords[0], DatePatterns, text).None? {
      assert (keywords + more)[1..] == keywords[1..] + more;
      FirstDateMatchPrefix(e, keywords[1..], more, text);
    }
  }

  // ---------------------------------------------------------------------------
  // Pattern-based extraction of a whole record

  /** How one field is found in the text. */
  datatype FieldRule =
    | FirstMatchRule(patterns: seq<Regex>, accept: Accept)
    | LargestAmountRule(patterns: seq<Regex>, floor: Option<real>)
    | KeywordDateRule(keywords: seq<string>)
    | LineItemsRule

  /** One entry of `_rule_based_extract`'s dictionary. */
  datatype Field = Field(key: string, rule: FieldRule)

  function StrOrNull(v: Option<string>): Value {
    match v case Some(s) => Str(s) case None => Null
  }

  function NumOrNull(v: Option<real>): Value {
    match v case Some(x) => Num(x) case None => Null
  }

  /** The value the rule gives for the text. */
  function FieldValue(e: Engine, rule: FieldRule, text: string): Value
  {
    match rule
    case FirstMatchRule(patterns, accept) => StrOrNull(FirstAccepted(e, patterns, accept, text))
    case LargestAmountRule(patterns, floor) => NumOrNull(MaxOf(Candidates(e, patterns, floor, text)))
    case KeywordDateRule(keywords) => StrOrNull(KeywordDate(e, keywords, text))
    case LineItemsRule => List(seq(|LineItemsOf(text)|, k requires 0 <= k < |LineItemsOf(text)| => ItemValue(LineItemsOf(text)[k])))
  }

  /** The keys of a field table. */
  function KeysOf(fields: seq<Field>): (ks: seq<string>)
    ensures |ks| == |fields| && forall i :: 0 <= i < |fields| ==> ks[i] == fields[i].key
  {
    seq(|fields|, i requires 0 <= i < |fields| => fields[i].key)
  }

  /** Every key appears once. */
  predicate DistinctKeys(fields: seq<Field>) {
    forall i, j :: 0 <= i < j < |fields| ==> fields[i].key != fields[j].key
  }

  /** `_rule_based_extract`: the dictionary of every field's value. */
  function RuleData(e: Engine, fields: seq<Field>, text: string): (d: Fields)
    ensures d.Keys == set i | 0 <= i < |fields| :: fields[i].key
  {
    if fields == [] then map[]
    else
      var front := fields[..|fields| - 1];
      var last := fields[|fields| - 1];
      var d := RuleData(e, front, text)[last.key := FieldValue(e, last.rule, text)];
      assert forall i :: 0 <= i < |front| ==> front[i] == fields[i];
      assert (set i | 0 <= i < |fields| :: fields[i].key)
        == (set i | 0 <= i < |front| :: front[i].key) + {last.key};
      d
  }

  /** With distinct keys, each field's entry is that field's value. */
  lemma {:induction false} RuleDataValues(e: Engine, fields: seq<Field>, text: string)
    requires DistinctKeys(fields)
    ensures forall i :: 0 <= i < |fields| ==> RuleData(e, fields, text)[fields[i].key] == FieldValue(e, fields[i].rule, text)
    decreases |fields|
  {
    if fields != [] {
      var front := fields[..|fields| - 1];
      assert forall i :: 0 <= i < |front| ==> front[i] == fields[i];
      RuleDataValues(e, front, text);
    }
  }

  /** With distinct keys, the entry of field `i` is that field's value. */
  lemma RuleDataAt(e: Engine, fields: seq<Field>, text: string, i: nat)
    requires DistinctKeys(fields) && i < |fields|
    ensures fields[i].key in RuleData(e, fields, text)
    ensures RuleData(e, fields, text)[fields[i].key] == FieldValue(e, fields[i].rule, text)
  {
    RuleDataValues(e, fields, text);
  }

  /** A first-match field is `null` or a string that passes its check. */
  lemma MatchField(e: Engine, fields: seq<Field>, text: string, i: nat)
    requires DistinctKeys(fields) && i < |fields| && fields[i].rule.FirstMatchRule?
    ensures var v := RuleData(e, fields, text)[fields[i].key];
      v.Null? || (v.Str? && Passes(fields[i].rule.accept, v.s))
  {
    RuleDataAt(e, fields, text, i);
    var r := fields[i].rule;
    if FirstAccepted(e, r.patterns, r.accept, text).Some? {
      FirstAcceptedValid(e, r.patterns, r.accept, text);
    }
  }

  /** An amount field is `null` or a number that reaches its floor. */
  lemma AmountField(e: Engine, fields: seq<Field>, text: string, i: nat)
    requires DistinctKeys(fields) && i < |fields| && fields[i].rule.LargestAmountRule?
    ensures var v := RuleData(e, fields, text)[fields[i].key];
      v.Null? || (v.Num? && v.n >= 0.0 && (fields[i].rule.floor.Some? ==> v.n >= fields[i].rule.floor.value))
  {
    RuleDataAt(e, fields, text, i);
    var r := fields[i].rule;
    LargestAmountSpec(e, r.patterns, r.floor, text);
    var xs := Candidates(e, r.patterns, r.floor, text);
    if xs != [] {
      var m := MaxOf(xs).value;
      CollectFrom(Keeper(r.floor), AllMatches(e, r.patterns, text));
      var k :| 0 <= k < |xs| && xs[k] == m;
      assert ResultOf(Keeper(r.floor), AllMatches(e, r.patterns, text), xs[k]);
    }
  }

  /** A date field is `null` or a `YYYY-MM-DD` string. */
  lemma DateField(e: Engine, fields: seq<Field>, text: string, i: nat)
    requires DistinctKeys(fields) && i < |fields| && fields[i].rule.KeywordDateRule?
    ensures var v := RuleData(e, fields, text)[fields[i].key];
      v.Null? || (v.Str? && IsIsoShape(v.s))
  {
    RuleDataAt(e, fields, text, i);
    KeywordDateShape(e, fields[i].rule.keywords, text);
  }

  /** A line-item field is the list of the text's line items. */
  lemma ItemsField(e: Engine, fields: seq<Field>, text: string, i: nat)
    requires DistinctKeys(fields) && i < |fields| && fields[i].rule.LineItemsRule?
    ensures var v := RuleData(e, fields, text)[fields[i].key];
      v.List? && |v.elems| == |LineItemsOf(text)|
  {
    RuleDataAt(e, fields, text, i);
  }

  // ---------------------------------------------------------------------------
  // Merge of model output over pattern output

  /** `llm_data.get(key) or rule_data.get(key)`: a truthy model value wins. */
  function MergedValue(model: Fields, rule: Fields, key: string): Value
  {
    if Truthy(Get(model, key)) then Get(model, key) else Get(rule, key)
  }

  /** `_combine_extraction_results`. With no model data (none, or JSON
      `null`) the pattern dictionary is returned; a dictionary from the model
      is merged key by key over the pattern keys; any other JSON value has no
      `.get` and raises as soon as the first key is looked up. */
  function Merge(model: Option<Value>, rule: Fields): (r: Result<Fields, Fault>)
    ensures r.Ok? ==> r.value.Keys == rule.Keys
    ensures model.None? ==> r == Ok(rule)
  {
    match model
    case None => Ok(rule)
    case Some(Null) => Ok(rule)
    case Some(Obj(m)) => Ok(map k | k in rule :: MergedValue(m, rule, k))
    case Some(v) => if rule == map[] then Ok(map[]) else Err(AttributeError(TypeName(v), "get"))
  }

  /** `_combine_extraction_results` as the source runs it: a loop over the
      pattern keys filling a new dictionary. */
  method Combine(model: Option<Value>, rule: Fields) returns (r: Result<Fields, Fault>)
    ensures r == Merge(model, rule)
  {
    if model.None? || model.value.Null? {
      return Ok(rule);
    }
    var llm := model.value;
    var combined: Fields := map[];
    var keys := rule.Keys;
    while keys != {}
      invariant keys <= rule.Keys
      invariant llm.Obj? ==> combined == map k | k in rule.Keys - keys :: MergedValue(llm.fields, rule, k)
      invariant !llm.Obj? ==> keys == rule.Keys && combined == map[]
      decreases keys
    {
      var key :| key in keys;
      if !llm.Obj? {
        return Err(AttributeError(TypeName(llm), "get"));
      }
      var fromModel := Get(llm.fields, key);
      combined := combined[key := if Truthy(fromModel) then fromModel else Get(rule, key)];
      keys := keys - {key};
    }
    if !llm.Obj? {
      assert rule.Keys == {};
      assert rule == map[];
      return Ok(map[]);
    }
    assert rule.Keys - keys == rule.Keys;
    return Ok(combined);
  }

  /** No model data gives the pattern dictionary unchanged. */
  lemma MergeNoModel(rule: Fields)
    ensures Merge(None, rule) == Ok(rule) && Merge(Some(Null), rule) == Ok(rule)
  {
  }

  /** A model dictionary gives exactly the pattern keys, each holding the
      model's value when truthy and the pattern value otherwise, so model
      values 0, "" and [] fall through to the pattern value. */
  lemma MergeFromObject(m: Fields, rule: Fields)
    ensures Merge(Some(Obj(m)), rule).Ok?
    ensures Merge(Some(Obj(m)), rule).value.Keys == rule.Keys
    ensures forall k :: k in rule ==>
      Merge(Some(Obj(m)), rule).value[k] == (if Truthy(Get(m, k)) then m[k] else rule[k])
  {
  }

  /** A field the pattern pass filled stays filled after the merge. */
  lemma MergeKeepsTruthy(model: Option<Value>, rule: Fields, key: string)
    requires Merge(model, rule).Ok? && Truthy(Get(rule, key))
    ensures Truthy(Get(Merge(model, rule).value, key))
  {
  }

  // ---------------------------------------------------------------------------
  // Weighted-field confidence

  /** One weighted term of `_calculate_confidence`: `AnyOf` holds when one of
      the keys has a truthy value; `NonEmpty` when the value is truthy and its
      `len()` is positive (a truthy value without a length raises). */
  datatype Slot =
    | AnyOf(keys: seq<string>, weight: real)
    | NonEmpty(key: string, weight: real)

  /** Some key of `keys` holds a truthy value. */
  predicate AnyTruthy(data: Fields, keys: seq<string>) {
    exists k :: k in keys && Truthy(Get(data, k))
  }

  /** The slot's contribution, or the `TypeError` of `len()`. */
  function SlotScore(slot: Slot, data: Fields): Result<real, Fault>
  {
    match slot
    case AnyOf(keys, w) => Ok(if AnyTruthy(data, keys) then w else 0.0)
    case NonEmpty(key, w) =>
      var v := Get(data, key);
      if !Truthy(v) then Ok(0.0)
      else match Len(v)
        case None => Err(NoLen(TypeName(v)))
        case Some(n) => Ok(if n > 0 then w else 0.0)
  }

  /** The slot counts for `data`. */
  predicate Filled(slot: Slot, data: Fields) {
    match slot
    case AnyOf(keys, _) => AnyTruthy(data, keys)
    case NonEmpty(key, _) => Truthy(Get(data, key)) && Len(Get(data, key)).Some? && Len(Get(data, key)).value > 0
  }

  /** The sum of the weights of the filled slots; the first slot that raises
      makes the whole computation raise. */
  function Score(slots: seq<Slot>, data: Fields): Result<real, Fault>
  {
    if slots == [] then Ok(0.0)
    else
      match Score(slots[..|slots| - 1], data)
      case Err(f) => Err(f)
      case Ok(s) =>
        match SlotScore(slots[|slots| - 1], data)
        case Err(f) => Err(f)
        case Ok(w) => Ok(s + w)
  }

  /** `min(score, 1.0)`. */
  function ConfidenceOf(slots: seq<Slot>, data: Fields): Result<real, Fault>
  {
    match Score(slots, data)
    case Err(f) => Err(f)
    case Ok(s) => Ok(if s < 1.0 then s else 1.0)
  }

  /** `_calculate_confidence` as the source runs it: a score accumulated
      slot by slot, then capped at 1.0. */
  method Confidence(slots: seq<Slot>, data: Fields) returns (r: Result<real, Fault>)
    ensures r == ConfidenceOf(slots, data)
  {
    var score := 0.0;
    for i := 0 to |slots|
      invariant Score(slots[..i], data) == Ok(score)
    {
      assert slots[..i + 1][..i] == slots[..i];
      match slots[i]
      case AnyOf(keys, w) =>
        if AnyTruthy(data, keys) {
          score := score + w;
        }
      case NonEmpty(key, w) =>
        var v := Get(data, key);
        if Truthy(v) {
          if Len(v).None? {
            assert Score(slots[..i + 1], data).Err?;
            FirstErrorStays(slots, i + 1, data);
            assert slots[..|slots|] == slots;
            return Err(NoLen(TypeName(v)));
          }
          if Len(v).value > 0 {
            score := score + w;
          }
        }
    }
    assert slots[..|slots|] == slots;
    r := Ok(if score < 1.0 then score else 1.0);
  }

  /** Slots that only test truthiness never raise. */
  lemma {:induction false} TruthSlotsNeverRaise(slots: seq<Slot>, data: Fields)
    requires forall i :: 0 <= i < |slots| ==> slots[i].AnyOf?
    ensures Score(slots, data).Ok?
    decreases |slots|
  {
    if slots != [] {
      var front := slots[..|slots| - 1];
      assert forall i :: 0 <= i < |front| ==> front[i] == slots[i];
      TruthSlotsNeverRaise(front, data);
    }
  }

  /** Once a prefix of the slots raises, the whole score raises the same. */
  lemma {:induction false} FirstErrorStays(slots: seq<Slot>, n: nat, data: Fields)
    requires n <= |slots| && Score(slots[..n], data).Err?
    ensures Score(slots, data) == Score(slots[..n], data)
    decreases |slots| - n
  {
    if n < |slots| {
      assert slots[..n + 1][..n] == slots[..n];
      FirstErrorStays(slots, n + 1, data);
    } else {
      assert slots[..n] == slots;
    }
  }

  function TotalWeight(slots: seq<Slot>): real
  {
    if slots == [] then 0.0 else TotalWeight(slots[..|slots| - 1]) + slots[|slots| - 1].weight
  }

  predicate NonNegativeWeights(slots: seq<Slot>) {
    forall i :: 0 <= i < |slots| ==> slots[i].weight >= 0.0
  }

  /** The sum of the filled slots' weights (what the score is when no slot raises). */
  function FilledWeight(slots: seq<Slot>, data: Fields): real
  {
    if slots == [] then 0.0
    else FilledWeight(slots[..|slots| - 1], data) + (if Filled(slots[|slots| - 1], data) then slots[|slots| - 1].weight else 0.0)
  }

  /** A score is the filled weight, between 0 and the total weight. */
  lemma {:induction false} ScoreIsFilledWeight(slots: seq<Slot>, data: Fields)
    requires NonNegativeWeights(slots)
    requires Score(slots, data).Ok?
    ensures Score(slots, data).value == FilledWeight(slots, data)
    ensures 0.0 <= FilledWeight(slots, data) <= TotalWeight(slots)
    decreases |slots|
  {
    if slots != [] {
      var front := slots[..|slots| - 1];
      assert forall i :: 0 <= i < |front| ==> front[i] == slots[i];
      ScoreIsFilledWeight(front, data);
      var last := slots[|slots| - 1];
      match last
      case AnyOf(_, _) =>
      case NonEmpty(key, _) =>
        if Truthy(Get(data, key)) && Len(Get(data, key)).Some? {
          TruthyLen(Get(data, key));
        }
    }
  }

  /** With non-negative weights summing to 1, the confidence lies in [0, 1]
      and the cap at 1.0 never applies. */
  lemma ConfidenceBounds(slots: seq<Slot>, data: Fields)
    requires NonNegativeWeights(slots) && TotalWeight(slots) == 1.0
    requires ConfidenceOf(slots, data).Ok?
    ensures 0.0 <= ConfidenceOf(slots, data).value <= 1.0
    ensures ConfidenceOf(slots, data).value == FilledWeight(slots, data)
  {
    ScoreIsFilledWeight(slots, data);
  }

  /** Filling more slots never lowers the filled weight. */
  lemma {:induction false} FilledWeightMonotone(slots: seq<Slot>, d1: Fields, d2: Fields)
    requires NonNegativeWeights(slots)
    requires forall i :: 0 <= i < |slots| && Filled(slots[i], d1) ==> Filled(slots[i], d2)
    ensures FilledWeight(slots, d1) <= FilledWeight(slots, d2)
    decreases |slots|
  {
    if slots != [] {
      var front := slots[..|slots| - 1];
      assert forall i :: 0 <= i < |front| ==> front[i] == slots[i];
      FilledWeightMonotone(front, d1, d2);
    }
  }

  /** Confidence is monotone: when every slot filled for `d1` is filled for
      `d2`, `d2` scores at least as high. */
  lemma ConfidenceMonotone(slots: seq<Slot>, d1: Fields, d2: Fields)
    requires NonNegativeWeights(slots)
    requires forall i :: 0 <= i < |slots| && Filled(slots[i], d1) ==> Filled(slots[i], d2)
    requires ConfidenceOf(slots, d1).Ok? && ConfidenceOf(slots, d2).Ok?
    ensures ConfidenceOf(slots, d1).value <= ConfidenceOf(slots, d2).value
  {
    ScoreIsFilledWeight(slots, d1);
    ScoreIsFilledWeight(slots, d2);
    FilledWeightMonotone(slots, d1, d2);
  }

  /** A slot filled by a truthy or non-empty pattern value stays filled once
      merged, unless the merged value raises in `len()`. */
  lemma MergeKeepsFilled(model: Option<Value>, rule: Fields, slot: Slot)
    requires Merge(model, rule).Ok? && Filled(slot, rule)
    requires SlotScore(slot, Merge(model, rule).value).Ok?
    ensures Filled(slot, Merge(model, rule).value)
  {
    var merged := Merge(model, rule).value;
    match slot
    case AnyOf(keys, _) =>
      var k :| k in keys && Truthy(Get(rule, k));
      MergeKeepsTruthy(model, rule, k);
    case NonEmpty(key, _) =>
      MergeKeepsTruthy(model, rule, key);
      TruthyLen(Get(merged, key));
  }

  /** Merging model output never lowers the confidence of the pattern result. */
  lemma MergeNeverLowersConfidence(slots: seq<Slot>, model: Option<Value>, rule: Fields)
    requires NonNegativeWeights(slots)
    requires Merge(model, rule).Ok?
    requires ConfidenceOf(slots, rule).Ok? && ConfidenceOf(slots, Merge(model, rule).value).Ok?
    ensures ConfidenceOf(slots, rule).value <= ConfidenceOf(slots, Merge(model, rule).value).value
  {
    var merged := Merge(model, rule).value;
    forall i | 0 <= i < |slots| && Filled(slots[i], rule) ensures Filled(slots[i], merged) {
      ScoreOkSlotOk(slots, i, merged);
      MergeKeepsFilled(model, rule, slots[i]);
    }
    ConfidenceMonotone(slots, rule, merged);
  }

  /** When the score does not raise, no slot raises. */
  lemma {:induction false} ScoreOkSlotOk(slots: seq<Slot>, i: nat, data: Fields)
    requires i < |slots| && Score(slots, data).Ok?
    ensures SlotScore(slots[i], data).Ok?
    decreases |slots|
  {
    var front := slots[..|slots| - 1];
    if i < |slots| - 1 {
      assert front[i] == slots[i];
      ScoreOkSlotOk(front, i, data);
    }
  }

  // ---------------------------------------------------------------------------
  // An agent

  /** An extraction agent: the document type it reports, its model prompt,
      its pattern fields and its confidence weights. */
  datatype Agent = Agent(documentType: string, prompt: string, fields: seq<Field>, slots: seq<Slot>)

  /** The last steps of `extract_data`: merge the model output over the
      pattern output, score the result, build the record around the
      original text. */
  function Assemble(agent: Agent, text: string, fromModel: Option<Value>, rule: Fields): (r: Result<ExtractedData, Fault>)
    ensures r.Ok? ==> r.value.documentType == agent.documentType && r.value.rawText == text
    ensures r.Ok? ==> r.value.data.Keys == rule.Keys
    ensures r.Ok? && fromModel.None? ==> r.value.data == rule
    ensures r.Ok? ==> ConfidenceOf(agent.slots, r.value.data) == Ok(r.value.confidence)
  {
    match Merge(fromModel, rule)
    case Err(f) => Err(f)
    case Ok(data) =>
      match ConfidenceOf(agent.slots, data)
      case Err(f) => Err(f)
      case Ok(c) => Ok(ExtractedData(agent.documentType, data, c, text))
  }

  /** `extract_data`: clean the text, ask the model with the cleaned text,
      run the patterns on the cleaned text, then assemble. */
  function ExtractionOf(agent: Agent, llm: Llm, e: Engine, text: string): Result<ExtractedData, Fault>
  {
    var cleaned := CleanForProcessing(text);
    Assemble(agent, text, LlmExtract(llm, agent.prompt, cleaned), RuleData(e, agent.fields, cleaned))
  }

  /** `extract_data` as the source sequences it. */
  method ExtractData(agent: Agent, llm: Llm, e: Engine, text: string) returns (r: Result<ExtractedData, Fault>)
    ensures r == ExtractionOf(agent, llm, e, text)
  {
    var cleaned := CleanForProcessing(text);
    var fromModel := LlmExtract(llm, agent.prompt, cleaned);
    var rule := RuleData(e, agent.fields, cleaned);
    var merged := Combine(fromModel, rule);
    if merged.Err? {
      return Err(merged.error);
    }
    var confidence := Confidence(agent.slots, merged.value);
    if confidence.Err? {
      return Err(confidence.error);
    }
    return Ok(ExtractedData(agent.documentType, merged.value, confidence.value, text));
  }

  /** A record reports the agent's type and the original text, holds exactly
      the pattern keys, and without a model holds the pattern values of the
      cleaned text. */
  lemma ExtractionShape(agent: Agent, llm: Llm, e: Engine, text: string)
    requires ExtractionOf(agent, llm, e, text).Ok?
    ensures var x := ExtractionOf(agent, llm, e, text).value;
      && x.documentType == agent.documentType
      && x.rawText == text
      && x.data.Keys == RuleData(e, agent.fields, CleanForProcessing(text)).Keys
      && (llm.NoModel? ==> x.data == RuleData(e, agent.fields, CleanForProcessing(text)))
  {
  }

  /** Pattern fields are read from single-line text, so the line-item rule
      yields at most one item. */
  lemma ExtractedItemsAtMostOne(text: string)
    ensures |LineItemsOf(CleanForProcessing(text))| <= 1
  {
    SingleLineAtMostOneItem(CleanForProcessing(text));
  }
}
