/**
 * `TextExtractor.clean_text` (`services/text_extractor.py`): the lines of
 * the extracted PDF text, each stripped, blank ones dropped, joined again
 * with newlines.
 */
module TextExtractor {
  import opened Wrappers
  import opened Strings
  import opened Seqs

  /** What one input line contributes: itself stripped, unless that is empty. */
  function KeptLine(line: string): (r: Option<string>)
    ensures r.None? <==> Strip(line) == []
    ensures r.Some? ==> r.value == Strip(line)
  {
    var t := Strip(line);
    if t != [] then Some(t) else None
  }

  /** The lines of the result: the stripped non-blank lines of the input, in order. */
  function CleanLines(text: string): seq<string>
  {
    Collect(KeptLine, SplitOn(text, '\n'))
  }

  /** `clean_text`. */
  function CleanTextOf(text: string): string
  {
    if text == [] then [] else Join(CleanLines(text), '\n')
  }

  /** `clean_text` as the source runs it: one pass over the lines appending
      each stripped non-empty line, then the join. */
  method CleanText(text: string) returns (r: string)
    ensures r == CleanTextOf(text)
  {
    if text == [] {
      return "";
    }
    var lines := SplitOn(text, '\n');
    var cleaned: seq<string> := [];
    for i := 0 to |lines|
      invariant cleaned == Collect(KeptLine, lines[..i])
    {
      assert lines[..i + 1] == lines[..i] + [lines[i]];
      CollectSnoc(KeptLine, lines[..i], lines[i]);
      var line := Strip(lines[i]);
      if line != [] {
        cleaned := cleaned + [line];
      }
    }
    assert lines[..|lines|] == lines;
    r := Join(cleaned, '\n');
  }

  /** A line of the result: non-empty, no surrounding whitespace, no newline. */
  predicate CleanLine(line: string) {
    line != [] && Trimmed(line) && '\n' !in line
  }

  /** Every kept line is a clean line taken from one input line. */
  lemma CleanLinesClean(text: string)
    ensures forall k :: 0 <= k < |CleanLines(text)| ==> CleanLine(CleanLines(text)[k])
    ensures forall k :: 0 <= k < |CleanLines(text)| ==> ResultOf(KeptLine, SplitOn(text, '\n'), CleanLines(text)[k])
  {
    var lines := SplitOn(text, '\n');
    var kept := CleanLines(text);
    CollectFrom(KeptLine, lines);
    forall k | 0 <= k < |kept| ensures CleanLine(kept[k]) {
      assert ResultOf(KeptLine, lines, kept[k]);
      var j :| 0 <= j < |lines| && KeptLine(lines[j]) == Some(kept[k]);
      StripHasNo(lines[j], '\n');
    }
  }

  /** A character absent from a line is absent from the line stripped. */
  lemma StripHasNo(s: string, c: char)
    requires c !in s
    ensures c !in Strip(s)
  {
    var r := Strip(s);
    forall i | 0 <= i < |r| ensures r[i] != c {
      assert r[i] == s[StripStart(s) + i];
    }
  }

  /** Empty input gives the empty string. */
  lemma CleanTextEmpty()
    ensures CleanTextOf("") == ""
  {
  }

  /** The result is empty exactly when no input line has non-blank content;
      otherwise its lines are exactly the kept lines, in order, and each is
      a clean line. */
  lemma CleanTextLines(text: string)
    ensures CleanTextOf(text) == [] <==> CleanLines(text) == []
    ensures CleanTextOf(text) != [] ==> SplitOn(CleanTextOf(text), '\n') == CleanLines(text)
    ensures CleanTextOf(text) != [] ==>
      forall k :: 0 <= k < |SplitOn(CleanTextOf(text), '\n')| ==> CleanLine(SplitOn(CleanTextOf(text), '\n')[k])
  {
    var kept := CleanLines(text);
    CleanLinesClean(text);
    if text == [] {
      NoLinesOfEmpty();
    }
    if kept != [] {
      JoinStartsEnds(kept, '\n');
      SplitJoin(kept, '\n');
    }
  }

  lemma NoLinesOfEmpty()
    ensures CleanLines([]) == []
  {
    assert SplitOn([], '\n') == [[]];
    assert KeptLine([]) == None;
    var none: seq<string> := [[]];
    assert none[..0] == [];
  }

  /** Every non-blank input line reaches the result, stripped. */
  lemma CleanTextKeepsLine(text: string, j: nat)
    requires j < |SplitOn(text, '\n')| && Strip(SplitOn(text, '\n')[j]) != []
    ensures Strip(SplitOn(text, '\n')[j]) in SplitOn(CleanTextOf(text), '\n')
  {
    CollectComplete(KeptLine, SplitOn(text, '\n'), j);
    CleanTextLines(text);
  }

  /** The result neither starts nor ends with a newline or other whitespace. */
  lemma CleanTextTrimmed(text: string)
    ensures Trimmed(CleanTextOf(text))
    ensures CleanTextOf(text) != [] ==>
      CleanTextOf(text)[0] != '\n' && CleanTextOf(text)[|CleanTextOf(text)| - 1] != '\n'
  {
    var kept := CleanLines(text);
    CleanLinesClean(text);
    if CleanTextOf(text) != [] {
      CleanTextLines(text);
      JoinStartsEnds(kept, '\n');
    }
  }

  /** Cleaning twice is cleaning once. */
  lemma CleanTextIdempotent(text: string)
    ensures CleanTextOf(CleanTextOf(text)) == CleanTextOf(text)
  {
    var r := CleanTextOf(text);
    if r != [] {
      CleanTextLines(text);
      var lines := SplitOn(r, '\n');
      forall i | 0 <= i < |lines| ensures KeptLine(lines[i]) == Some(lines[i]) {
        StripOfTrimmed(lines[i]);
      }
      CollectFixed(KeptLine, lines);
    }
  }
}
