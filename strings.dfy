/**
 * The few pieces of Python's `str` and `re` behaviour the claim processor
 * relies on: whitespace classification, strip/split/join, ASCII lowercasing,
 * substring search, `str.replace(w, '')`, `re.sub(r'\s+', ' ', s)`, decimal
 * rendering of naturals and `float()` on digit strings.
 */
module Strings {
  import opened Wrappers

  /** The characters for which Python's `str.isspace()` holds; `\s` in a `re`
      pattern over text and the argument-less `str.split()` use the same set. */
  predicate IsSpace(c: char) {
    || ('\t' <= c <= '\r')
    || ('\U{1C}' <= c <= '\U{1F}')
    || c == ' ' || c == '\U{85}' || c == '\U{A0}' || c == '\U{1680}'
    || ('\U{2000}' <= c <= '\U{200A}')
    || c == '\U{2028}' || c == '\U{2029}' || c == '\U{202F}' || c == '\U{205F}' || c == '\U{3000}'
  }

  predicate IsDigit(c: char) { '0' <= c <= '9' }

  predicate AllDigits(s: string) { forall i :: 0 <= i < |s| ==> IsDigit(s[i]) }

  /** No whitespace at either end. */
  predicate Trimmed(s: string) { s == [] || (!IsSpace(s[0]) && !IsSpace(s[|s| - 1])) }

  /** No two whitespace characters next to each other. */
  predicate NoDoubleSpace(s: string) {
    forall i :: 0 <= i < |s| - 1 ==> !(IsSpace(s[i]) && IsSpace(s[i + 1]))
  }

  // ---------------------------------------------------------------------------
  // Case

  function LowerChar(c: char): char {
    if 'A' <= c <= 'Z' then (c as int + 32) as char else c
  }

  /** `str.lower()` restricted to ASCII letters. */
  function Lower(s: string): (r: string)
    ensures |r| == |s|
  {
    seq(|s|, i requires 0 <= i < |s| => LowerChar(s[i]))
  }

  /** Lowercasing twice is lowercasing once. */
  lemma LowerIdempotent(s: string)
    ensures Lower(Lower(s)) == Lower(s)
  {
  }

  // ---------------------------------------------------------------------------
  // Searching

  /** `k in s` for strings: `k` occurs in `s` as a contiguous substring. */
  predicate Contains(s: string, k: string)
    decreases |s|
  {
    k <= s || (s != [] && Contains(s[1..], k))
  }

  lemma {:induction false} ContainsAt(s: string, k: string, i: nat)
    requires i + |k| <= |s| && s[i..i + |k|] == k
    ensures Contains(s, k)
    decreases i
  {
    if i == 0 {
      assert k <= s;
    } else {
      assert s[1..][i - 1..i - 1 + |k|] == s[i..i + |k|];
      ContainsAt(s[1..], k, i - 1);
    }
  }

  /** Every character of a contained string occurs in the containing one,
      so a string missing one of `k`'s characters cannot contain `k`. */
  lemma {:induction false} ContainsChars(s: string, k: string, i: nat)
    requires Contains(s, k) && i < |k|
    ensures k[i] in s
    decreases |s|
  {
    if k <= s {
      assert s[i] == k[i];
    } else {
      ContainsChars(s[1..], k, i);
      assert s[1..] == s[1..|s|];
    }
  }

  /** Index of the first occurrence of `c` in `s`. */
  function IndexOf(s: string, c: char): (i: nat)
    requires c in s
    ensures i < |s| && s[i] == c
    ensures forall j :: 0 <= j < i ==> s[j] != c
  {
    if s[0] == c then 0 else 1 + IndexOf(s[1..], c)
  }

  /** Index of the last occurrence of `c` in `s`. */
  function LastIndexOf(s: string, c: char): (i: nat)
    requires c in s
    ensures i < |s| && s[i] == c
    ensures forall j :: i < j < |s| ==> s[j] != c
  {
    if s[|s| - 1] == c then |s| - 1
    else
      assert c in s[..|s| - 1] by {
        var k :| 0 <= k < |s| && s[k] == c;
        assert s[..|s| - 1][k] == c;
      }
      LastIndexOf(s[..|s| - 1], c)
  }

  // ---------------------------------------------------------------------------
  // strip

  /** `str.lstrip()`. */
  function TrimLeft(s: string): (r: string)
    ensures |r| <= |s| && r == s[|s| - |r|..]
    ensures r == [] || !IsSpace(r[0])
    ensures forall i :: 0 <= i < |s| - |r| ==> IsSpace(s[i])
  {
    if s != [] && IsSpace(s[0]) then TrimLeft(s[1..]) else s
  }

  /** `str.rstrip()`. */
  function TrimRight(s: string): (r: string)
    ensures |r| <= |s| && r == s[..|r|]
    ensures r == [] || !IsSpace(r[|r| - 1])
    ensures forall i :: |r| <= i < |s| ==> IsSpace(s[i])
  {
    if s != [] && IsSpace(s[|s| - 1]) then TrimRight(s[..|s| - 1]) else s
  }

  /** The position in `s` where `Strip(s)` begins. */
  function StripStart(s: string): nat
  {
    |s| - |TrimLeft(s)|
  }

  /** `str.strip()`: the slice of `s` left after removing the whitespace
      at both ends. */
  function Strip(s: string): (r: string)
    ensures Trimmed(r)
    ensures StripStart(s) + |r| <= |s| && r == s[StripStart(s)..StripStart(s) + |r|]
    ensures forall i :: 0 <= i < StripStart(s) ==> IsSpace(s[i])
    ensures forall i :: StripStart(s) + |r| <= i < |s| ==> IsSpace(s[i])
  {
    var t := TrimLeft(s);
    var r := TrimRight(t);
    assert r == s[|s| - |t|..][..|r|];
    r
  }

  /** Whitespace at the ends is all `Strip` removes: a string with a
      non-space character keeps it, and stripping twice changes nothing. */
  lemma StripKeepsContent(s: string, i: nat)
    requires i < |s| && !IsSpace(s[i])
    ensures StripStart(s) <= i < StripStart(s) + |Strip(s)|
  {
  }

  lemma {:induction false} StripOfTrimmed(s: string)
    requires Trimmed(s)
    ensures Strip(s) == s
  {
    if s != [] {
      assert TrimLeft(s) == s;
      assert TrimRight(s) == s;
    }
  }

  lemma StripIdempotent(s: string)
    ensures Strip(Strip(s)) == Strip(s)
  {
    StripOfTrimmed(Strip(s));
  }

  /** A slice of a string without double whitespace has none either. */
  lemma SliceNoDoubleSpace(s: string, a: nat, b: nat)
    requires a <= b <= |s| && NoDoubleSpace(s)
    ensures NoDoubleSpace(s[a..b])
  {
    var t := s[a..b];
    forall i | 0 <= i < |t| - 1 ensures !(IsSpace(t[i]) && IsSpace(t[i + 1])) {
      assert t[i] == s[a + i] && t[i + 1] == s[a + i + 1];
    }
  }

  // ---------------------------------------------------------------------------
  // split / join

  /** `s.split(sep)` for a one-character separator: always at least one part,
      and no part contains the separator. */
  function SplitOn(s: string, sep: char): (parts: seq<string>)
    ensures |parts| >= 1
    ensures forall i :: 0 <= i < |parts| ==> sep !in parts[i]
    decreases |s|
  {
    if sep in s then
      var i := IndexOf(s, sep);
      assert sep !in s[..i];
      [s[..i]] + SplitOn(s[i + 1..], sep)
    else
      [s]
  }

  /** `sep.join(parts)` for a one-character separator. */
  function Join(parts: seq<string>, sep: char): string
  {
    if parts == [] then []
    else if |parts| == 1 then parts[0]
    else parts[0] + [sep] + Join(parts[1..], sep)
  }

  /** Splitting a join gives the parts back when none contains the separator. */
  lemma {:induction false} SplitJoin(parts: seq<string>, sep: char)
    requires |parts| >= 1
    requires forall i :: 0 <= i < |parts| ==> sep !in parts[i]
    ensures SplitOn(Join(parts, sep), sep) == parts
    decreases |parts|
  {
    if |parts| > 1 {
      var p := parts[0];
      var rest := Join(parts[1..], sep);
      var x := p + [sep] + rest;
      assert x[|p|] == sep;
      var i := IndexOf(x, sep);
      assert i == |p|;
      assert x[..i] == p;
      assert x[i + 1..] == rest;
      SplitJoin(parts[1..], sep);
    }
  }

  /** Every character of a join is a separator or comes from one of the parts. */
  lemma {:induction false} JoinChars(parts: seq<string>, sep: char, c: char)
    requires c in Join(parts, sep) && c != sep
    ensures exists i :: 0 <= i < |parts| && c in parts[i]
    decreases |parts|
  {
    if |parts| > 1 {
      var x := Join(parts, sep);
      assert x == parts[0] + [sep] + Join(parts[1..], sep);
      if c !in parts[0] {
        JoinChars(parts[1..], sep, c);
        var i :| 0 <= i < |parts[1..]| && c in parts[1..][i];
        assert c in parts[i + 1];
      }
    }
  }

  /** The first character of a join of non-empty parts is the first part's. */
  lemma JoinStartsEnds(parts: seq<string>, sep: char)
    requires |parts| >= 1 && forall i :: 0 <= i < |parts| ==> parts[i] != []
    ensures Join(parts, sep) != []
    ensures Join(parts, sep)[0] == parts[0][0]
    ensures Join(parts, sep)[|Join(parts, sep)| - 1] == parts[|parts| - 1][|parts[|parts| - 1]| - 1]
    decreases |parts|
  {
    if |parts| > 1 {
      JoinStartsEnds(parts[1..], sep);
    }
  }

  // ---------------------------------------------------------------------------
  // str.split() / ' '.join(...)

  /** A token of `str.split()`: non-empty, no whitespace. */
  predicate IsWord(w: string) {
    w != [] && forall j :: 0 <= j < |w| ==> !IsSpace(w[j])
  }

  /** The longest prefix of `s` without whitespace. */
  function TakeWord(s: string): (w: string)
    ensures |w| <= |s| && w == s[..|w|]
    ensures forall j :: 0 <= j < |w| ==> !IsSpace(w[j])
    ensures s != [] && !IsSpace(s[0]) ==> |w| >= 1
  {
    if s == [] || IsSpace(s[0]) then [] else [s[0]] + TakeWord(s[1..])
  }

  /** `s.split()`: the maximal whitespace-free runs of `s`, in order. */
  function Words(s: string): (ws: seq<string>)
    ensures forall i :: 0 <= i < |ws| ==> IsWord(ws[i])
    decreases |s|
  {
    var t := TrimLeft(s);
    if t == [] then []
    else
      var w := TakeWord(t);
      var rest := Words(t[|w|..]);
      PrependWord(w, rest);
      [w] + rest
  }

  lemma PrependWord(w: string, ws: seq<string>)
    requires w != [] && forall j :: 0 <= j < |w| ==> !IsSpace(w[j])
    requires forall i :: 0 <= i < |ws| ==> IsWord(ws[i])
    ensures forall i :: 0 <= i < |[w] + ws| ==> IsWord(([w] + ws)[i])
  {
    assert IsWord(w);
    assert forall i :: 1 <= i < |ws| + 1 ==> ([w] + ws)[i] == ws[i - 1];
  }

  /** `' '.join(s.split())`: whitespace runs become one space, ends trimmed. */
  function Squash(s: string): string
  {
    Join(Words(s), ' ')
  }

  /** Two texts squash to the same string exactly when they have the same
      words: only the whitespace between and around words is lost. */
  lemma SquashSameWords(a: string, b: string)
    ensures Squash(a) == Squash(b) <==> Words(a) == Words(b)
  {
    if Squash(a) == Squash(b) {
      SquashWords(a);
      SquashWords(b);
    }
  }

  /** The words can be read back from the squashed text. */
  lemma SquashWords(s: string)
    ensures Words(s) == [] <==> Squash(s) == []
    ensures Words(s) != [] ==> SplitOn(Squash(s), ' ') == Words(s)
  {
    var ws := Words(s);
    if ws != [] {
      assert forall i :: 0 <= i < |ws| ==> ws[i] != [] && ' ' !in ws[i] by {
        forall i | 0 <= i < |ws| ensures ws[i] != [] && ' ' !in ws[i] {
          assert IsWord(ws[i]);
        }
      }
      JoinStartsEnds(ws, ' ');
      SplitJoin(ws, ' ');
    }
  }

  /** `sep.join(parts)` for a separator string. */
  function JoinWith(parts: seq<string>, sep: string): string
  {
    if parts == [] then []
    else if |parts| == 1 then parts[0]
    else parts[0] + sep + JoinWith(parts[1..], sep)
  }

  // ---------------------------------------------------------------------------
  // re.sub(r'\s+', ' ', s), str.replace(c, '') and str.replace(w, '')

  /** `re.sub(r'\s+', ' ', s)`: every maximal run of whitespace becomes one space. */
  function Collapse(s: string): (r: string)
    ensures s == [] <==> r == []
    ensures s != [] && !IsSpace(s[0]) ==> r[0] == s[0]
    ensures forall i :: 0 <= i < |r| && IsSpace(r[i]) ==> r[i] == ' '
    ensures forall i :: 0 <= i < |r| && !IsSpace(r[i]) ==> r[i] in s
    ensures NoDoubleSpace(r)
    decreases |s|
  {
    if s == [] then []
    else if IsSpace(s[0]) then
      var t := TrimLeft(s);
      var rest := Collapse(t);
      assert forall i :: 0 <= i < |rest| && !IsSpace(rest[i]) ==> rest[i] in s by {
        assert t == s[|s| - |t|..];
      }
      PrependCollapsed(' ', rest, s);
      [' '] + rest
    else
      var rest := Collapse(s[1..]);
      assert forall x :: x in s[1..] ==> x in s;
      PrependCollapsed(s[0], rest, s);
      [s[0]] + rest
  }

  /** One character in front of a collapsed text whose characters come from
      `s`: a space may only stand before a non-space. */
  lemma PrependCollapsed(c: char, rest: string, s: string)
    requires forall i :: 0 <= i < |rest| && IsSpace(rest[i]) ==> rest[i] == ' '
    requires forall i :: 0 <= i < |rest| && !IsSpace(rest[i]) ==> rest[i] in s
    requires NoDoubleSpace(rest)
    requires IsSpace(c) ==> c == ' ' && (rest == [] || !IsSpace(rest[0]))
    requires !IsSpace(c) ==> c in s
    ensures forall i :: 0 <= i < |[c] + rest| && IsSpace(([c] + rest)[i]) ==> ([c] + rest)[i] == ' '
    ensures forall i :: 0 <= i < |[c] + rest| && !IsSpace(([c] + rest)[i]) ==> ([c] + rest)[i] in s
    ensures NoDoubleSpace([c] + rest)
  {
    var r := [c] + rest;
    assert forall i :: 1 <= i < |r| ==> r[i] == rest[i - 1];
  }

  /** A leading non-space is kept and the rest collapsed. */
  lemma CollapseNonSpace(s: string)
    requires s != [] && !IsSpace(s[0])
    ensures Collapse(s) == [s[0]] + Collapse(s[1..])
  {
  }

  /** A lone leading space is kept and the rest collapsed. */
  lemma CollapseSingleSpace(s: string)
    requires s != [] && IsSpace(s[0]) && (|s| == 1 || !IsSpace(s[1]))
    ensures Collapse(s) == [' '] + Collapse(s[1..])
  {
    assert TrimLeft(s[1..]) == s[1..];
  }

  /** `s.replace(c, '')` for one character. */
  function RemoveChar(s: string, c: char): (r: string)
    ensures c !in r
    ensures forall i :: 0 <= i < |r| ==> r[i] in s
    ensures c !in s ==> r == s
  {
    if s == [] then []
    else if s[0] == c then RemoveChar(s[1..], c)
    else [s[0]] + RemoveChar(s[1..], c)
  }

  /** Removing a character from a concatenation removes it from each half. */
  lemma {:induction false} RemoveCharAppend(a: string, b: string, c: char)
    ensures RemoveChar(a + b, c) == RemoveChar(a, c) + RemoveChar(b, c)
    decreases |a|
  {
    if a != [] {
      assert (a + b)[0] == a[0] && (a + b)[1..] == a[1..] + b;
      RemoveCharAppend(a[1..], b, c);
    } else {
      assert a + b == b;
    }
  }

  /** Dropping the one comma between two comma-free strings joins them. */
  lemma RemoveOneComma(a: string, b: string)
    requires ',' !in a && ',' !in b
    ensures RemoveChar(a + "," + b, ',') == a + b
  {
    assert RemoveChar(",", ',') == [];
    RemoveCharAppend(a, ",", ',');
    assert RemoveChar(a + ",", ',') == a;
    RemoveCharAppend(a + ",", b, ',');
  }

  /** The only whitespace is the plain space. */
  predicate PlainSpacesOnly(s: string) {
    forall i :: 0 <= i < |s| && IsSpace(s[i]) ==> s[i] == ' '
  }

  lemma RemoveCharPlain(s: string, c: char)
    requires PlainSpacesOnly(s)
    ensures PlainSpacesOnly(RemoveChar(s, c))
  {
    var r := RemoveChar(s, c);
    forall i | 0 <= i < |r| && IsSpace(r[i]) ensures r[i] == ' ' {
      var j :| 0 <= j < |s| && s[j] == r[i];
    }
  }

  lemma StripPlain(s: string)
    requires PlainSpacesOnly(s)
    ensures PlainSpacesOnly(Strip(s))
  {
    var r := Strip(s);
    forall i | 0 <= i < |r| && IsSpace(r[i]) ensures r[i] == ' ' {
      assert r[i] == s[StripStart(s) + i];
    }
  }

  /** Text with plain spaces only has no newline and no tab. */
  lemma PlainHasNoNewline(s: string)
    requires PlainSpacesOnly(s)
    ensures '\n' !in s && '\t' !in s
  {
    forall i | 0 <= i < |s| ensures s[i] != '\n' && s[i] != '\t' {
      assert IsSpace(s[i]) ==> s[i] == ' ';
    }
  }

  /** `s.replace(w, '')`: occurrences of `w` are deleted left to right. */
  function RemoveAll(s: string, w: string): string
    requires w != []
    decreases |s|
  {
    if s == [] then []
    else if w <= s then RemoveAll(s[|w|..], w)
    else [s[0]] + RemoveAll(s[1..], w)
  }

  // ---------------------------------------------------------------------------
  // Numbers

  function DigitChar(d: nat): (c: char)
    requires d < 10
    ensures IsDigit(c)
  {
    ('0' as int + d) as char
  }

  function DigitValue(c: char): nat
    requires IsDigit(c)
  {
    c as int - '0' as int
  }

  lemma DigitsAppend(a: string, b: string)
    requires AllDigits(a) && AllDigits(b)
    ensures AllDigits(a + b)
  {
    assert forall i :: 0 <= i < |a + b| ==> (a + b)[i] == if i < |a| then a[i] else b[i - |a|];
  }

  /** `str(n)` for a natural number. */
  function NatToString(n: nat): (r: string)
    ensures r != [] && AllDigits(r)
    decreases n
  {
    if n < 10 then [DigitChar(n)] else NatToString(n / 10) + [DigitChar(n % 10)]
  }

  /** The value of a string of decimal digits (`int(s)`; 0 for `""`). */
  function DigitsValue(s: string): nat
    requires AllDigits(s)
  {
    if s == [] then 0 else DigitsValue(s[..|s| - 1]) * 10 + DigitValue(s[|s| - 1])
  }

  /** `int(str(n)) == n`. */
  lemma {:induction false} NatToStringValue(n: nat)
    ensures DigitsValue(NatToString(n)) == n
    decreases n
  {
    if n >= 10 {
      var s := NatToString(n);
      assert s[..|s| - 1] == NatToString(n / 10);
      NatToStringValue(n / 10);
    }
  }

  /** Distinct naturals have distinct decimal renderings. */
  lemma NatToStringInjective(a: nat, b: nat)
    requires NatToString(a) == NatToString(b)
    ensures a == b
  {
    NatToStringValue(a);
    NatToStringValue(b);
  }

  function Pow10(k: nat): (p: nat)
    ensures p >= 1
  {
    if k == 0 then 1 else 10 * Pow10(k - 1)
  }

  /** `float(s)` for strings over digits and at most one point: `"12"`, `"12.5"`,
      `"12."`, `".5"`; `None` stands for the `ValueError` on anything else. */
  function ParseDecimal(s: string): (r: Option<real>)
    ensures r.Some? ==> r.value >= 0.0
    ensures r.Some? ==> s != []
  {
    if AllDigits(s) then
      if s == [] then None else Some(DigitsValue(s) as real)
    else if '.' in s then
      var i := IndexOf(s, '.');
      var whole, frac := s[..i], s[i + 1..];
      if AllDigits(whole) && AllDigits(frac) && |whole| + |frac| > 0 then
        Some(DigitsValue(whole) as real + DigitsValue(frac) as real / Pow10(|frac|) as real)
      else None
    else None
  }

  /** The rendering of a natural parses back to it. */
  lemma ParseDecimalOfNat(n: nat)
    ensures ParseDecimal(NatToString(n)) == Some(n as real)
  {
    NatToStringValue(n);
  }

  /** `float(s)` for an optionally signed decimal. */
  function ParseSignedDecimal(s: string): Option<real>
  {
    if s != [] && s[0] == '-' then
      match ParseDecimal(s[1..])
      case Some(x) => Some(-x)
      case None => None
    else if s != [] && s[0] == '+' then ParseDecimal(s[1..])
    else ParseDecimal(s)
  }

  /** `s.zfill(width)` for the rendering of a natural. */
  function ZeroPad(n: nat, width: nat): (r: string)
    ensures AllDigits(r)
    ensures |r| >= width
  {
    var d := NatToString(n);
    if |d| >= width then d else seq(width - |d|, _ => '0') + d
  }
}
