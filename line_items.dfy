/**
 * Amount tokens and bill line items (`_extract_line_items` and the
 * `float(match.replace(',', ''))` conversion in `bill_agent.py` and
 * `insurance_agent.py`). The one pattern used here, `[0-9,]+\.?[0-9]*`, is
 * modelled concretely: a run of digits and commas, then an optional point
 * and the digits after it, all taken greedily.
 */
module LineItems {
  import opened Wrappers
  import opened Strings
  import opened DataModels
  import opened Seqs

  predicate IsAmountChar(c: char) { IsDigit(c) || c == ',' }

  /** The length of the leading run of digits and commas. */
  function AmountRun(s: string): (n: nat)
    ensures n <= |s|
    ensures forall i :: 0 <= i < n ==> IsAmountChar(s[i])
    ensures n < |s| ==> !IsAmountChar(s[n])
  {
    if s != [] && IsAmountChar(s[0]) then 1 + AmountRun(s[1..]) else 0
  }

  /** The length of the leading run of digits. */
  function DigitRun(s: string): (n: nat)
    ensures n <= |s|
    ensures forall i :: 0 <= i < n ==> IsDigit(s[i])
    ensures n < |s| ==> !IsDigit(s[n])
  {
    if s != [] && IsDigit(s[0]) then 1 + DigitRun(s[1..]) else 0
  }

  /** The length of the greedy match of `[0-9,]+\.?[0-9]*` at the start of `s`. */
  function TokenLength(s: string): (n: nat)
    requires s != [] && IsAmountChar(s[0])
    ensures 1 <= n <= |s|
  {
    var k := AmountRun(s);
    if k < |s| && s[k] == '.' then k + 1 + DigitRun(s[k + 1..]) else k
  }

  /** `re.search(r'([0-9,]+\.?[0-9]*)', s).group(1)`: the leftmost token. */
  function FirstToken(s: string): (r: Option<string>)
    ensures r.None? <==> forall i :: 0 <= i < |s| ==> !IsAmountChar(s[i])
    ensures r.Some? ==> r.value != [] && IsAmountChar(r.value[0])
  {
    if s == [] then None
    else if IsAmountChar(s[0]) then Some(s[..TokenLength(s)])
    else
      var r := FirstToken(s[1..]);
      assert forall i :: 1 <= i < |s| ==> s[i] == s[1..][i - 1];
      r
  }

  /** `re.sub(r'[0-9,]+\.?[0-9]*', '', s)`: every token removed, left to right. */
  function RemoveTokens(s: string): (r: string)
    ensures forall i :: 0 <= i < |r| ==> !IsAmountChar(r[i])
    ensures (forall i :: 0 <= i < |s| ==> !IsAmountChar(s[i])) ==> r == s
    decreases |s|
  {
    if s == [] then []
    else if IsAmountChar(s[0]) then
      RemoveTokens(s[TokenLength(s)..])
    else
      [s[0]] + RemoveTokens(s[1..])
  }

  /** `float(token.replace(',', ''))`; `None` stands for the `ValueError`. */
  function ParseAmount(token: string): (r: Option<real>)
    ensures r.Some? ==> r.value >= 0.0
  {
    ParseDecimal(RemoveChar(token, ','))
  }

  /** A digit string holds no comma. */
  lemma DigitsHaveNoComma(s: string)
    requires AllDigits(s)
    ensures ',' !in s
  {
    assert forall i :: 0 <= i < |s| ==> s[i] != ',';
  }

  /** A plain digit string reads as its value. */
  lemma ParsePlainAmount(s: string)
    requires s != [] && AllDigits(s)
    ensures ParseAmount(s) == Some(DigitsValue(s) as real)
  {
    DigitsHaveNoComma(s);
  }

  /** Digits grouped by one comma read as the digits without it. */
  lemma ParseGroupedAmount(a: string, b: string)
    requires a != [] && AllDigits(a) && AllDigits(b)
    ensures ParseAmount(a + "," + b) == Some(DigitsValue(a + b) as real)
  {
    DigitsHaveNoComma(a);
    DigitsHaveNoComma(b);
    RemoveOneComma(a, b);
    DigitsAppend(a, b);
    ParsePlainAmount(a + b);
  }

  /** The item one line contributes: the line must hold a token and be longer
      than 10 characters once stripped; the first token is the amount, what is
      left once all tokens are removed and the rest stripped is the description,
      and both must be non-empty and positive. */
  function LineItemOf(line: string): (r: Option<LineItem>)
    ensures r.Some? ==> |Strip(line)| > 10 && FirstToken(line).Some?
    ensures r.Some? ==> ParseAmount(FirstToken(line).value) == Some(r.value.amount)
    ensures r.Some? ==> ValidItem(r.value)
  {
    match FirstToken(line)
    case None => None
    case Some(token) =>
      if |Strip(line)| <= 10 then None
      else
        match ParseAmount(token)
        case None => None
        case Some(amount) =>
          var description := Description(line);
          if description != [] && amount > 0.0 then Some(LineItem(description, amount, 1)) else None
  }

  /** `re.sub(r'[0-9,]+\.?[0-9]*', '', line).strip()`: trimmed and free of
      digits and commas. */
  function Description(line: string): (d: string)
    ensures Trimmed(d)
    ensures forall i :: 0 <= i < |d| ==> !IsAmountChar(d[i])
  {
    var rest := RemoveTokens(line);
    var d := Strip(rest);
    assert forall i :: 0 <= i < |d| ==> d[i] == rest[StripStart(rest) + i];
    d
  }

  /** What every extracted item satisfies. */
  predicate ValidItem(item: LineItem) {
    && item.quantity == 1
    && item.amount > 0.0
    && item.description != []
    && Trimmed(item.description)
    && forall i :: 0 <= i < |item.description| ==> !IsAmountChar(item.description[i])
  }

  /** The maximum number of items kept (`items[:10]`). */
  const MaxItems: nat := 10

  /** `_extract_line_items`: the items of the newline-separated lines, the first ten. */
  function LineItemsOf(text: string): (items: seq<LineItem>)
  {
    Take(Collect(LineItemOf, SplitOn(text, '\n')), MaxItems)
  }

  /** `_extract_line_items`, as the source computes it: one pass over the
      lines appending each qualifying item, then the cap. */
  method ExtractLineItems(text: string) returns (items: seq<LineItem>)
    ensures items == LineItemsOf(text)
  {
    var lines := SplitOn(text, '\n');
    items := [];
    for i := 0 to |lines|
      invariant items == Collect(LineItemOf, lines[..i])
    {
      var line := lines[i];
      var token := FirstToken(line);
      assert lines[..i + 1][..i] == lines[..i] && lines[..i + 1][i] == line;
      ghost var before := items;
      LineItemCases(line);
      if token.Some? && |Strip(line)| > 10 {
        var amount := ParseAmount(token.value);
        if amount.Some? {
          var description := Description(line);
          if description != [] && amount.value > 0.0 {
            items := items + [LineItem(description, amount.value, 1)];
          }
        }
      }
      assert items == before + (match LineItemOf(line) case Some(item) => [item] case None => []);
    }
    assert lines[..|lines|] == lines;
    if |items| > MaxItems {
      items := items[..MaxItems];
    }
  }

  // ---------------------------------------------------------------------------
  // Properties

  /** A line gives an item exactly when it holds a token, is longer than 10
      characters once stripped, its first token parses to a positive amount
      and something is left once the tokens are removed; the item is then
      that amount and that description, with quantity 1. */
  lemma LineItemCases(line: string)
    ensures LineItemOf(line).Some? <==>
      && FirstToken(line).Some? && |Strip(line)| > 10
      && ParseAmount(FirstToken(line).value).Some?
      && ParseAmount(FirstToken(line).value).value > 0.0
      && Description(line) != []
    ensures LineItemOf(line).Some? ==>
      LineItemOf(line).value == LineItem(Description(line), ParseAmount(FirstToken(line).value).value, 1)
  {
  }

  /** Each item is the item of one of the lines. */
  lemma LineItemsFromLines(text: string)
    ensures forall k :: 0 <= k < |LineItemsOf(text)| ==>
      ResultOf(LineItemOf, SplitOn(text, '\n'), LineItemsOf(text)[k])
  {
    var lines := SplitOn(text, '\n');
    var all := Collect(LineItemOf, lines);
    CollectFrom(LineItemOf, lines);
    var r := LineItemsOf(text);
    forall k | 0 <= k < |r| ensures ResultOf(LineItemOf, lines, r[k]) {
      assert r[k] == all[k];
    }
  }

  /** At most ten items, each with quantity 1, a positive amount and a
      non-empty, trimmed description free of digits and commas. */
  lemma LineItemsValid(text: string)
    ensures |LineItemsOf(text)| <= MaxItems
    ensures forall k :: 0 <= k < |LineItemsOf(text)| ==> ValidItem(LineItemsOf(text)[k])
  {
    var lines := SplitOn(text, '\n');
    var r := LineItemsOf(text);
    LineItemsFromLines(text);
    forall k | 0 <= k < |r| ensures ValidItem(r[k]) {
      assert ResultOf(LineItemOf, lines, r[k]);
      var j :| 0 <= j < |lines| && LineItemOf(lines[j]) == Some(r[k]);
    }
  }

  /** Every qualifying line among the first ten items' worth is kept: when
      the lines give at most ten items, each line's item is among them. */
  lemma QualifyingLineKept(text: string, j: nat)
    requires j < |SplitOn(text, '\n')| && LineItemOf(SplitOn(text, '\n')[j]).Some?
    requires |Collect(LineItemOf, SplitOn(text, '\n'))| <= MaxItems
    ensures LineItemOf(SplitOn(text, '\n')[j]).value in LineItemsOf(text)
  {
    CollectComplete(LineItemOf, SplitOn(text, '\n'), j);
  }

  /** Text without a newline is one line, so it gives at most one item. */
  lemma SingleLineAtMostOneItem(text: string)
    requires '\n' !in text
    ensures |LineItemsOf(text)| <= 1
  {
    assert SplitOn(text, '\n') == [text];
  }

  /** A line of 10 characters or fewer, once stripped, contributes nothing,
      whatever amount it holds. */
  lemma ShortLineNoItem(line: string)
    requires |Strip(line)| <= 10
    ensures LineItemOf(line) == None
  {
  }
}
