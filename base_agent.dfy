/**
 * The shared helpers of the three extraction agents (`agents/base_agent.py`):
 * text cleaning before extraction, locating the JSON object in a model reply,
 * and the guarded, truncated model call.
 */
module BaseAgent {
  import opened Wrappers
  import opened Strings
  import opened Seqs
  import opened DataModels

  // ---------------------------------------------------------------------------
  // _clean_text_for_processing

  /** `_clean_text_for_processing`: whitespace runs become one space, NULs are
      deleted, and the ends are stripped. The only whitespace left is the
      plain space, so the text has no newline or tab. */
  function CleanForProcessing(text: string): (r: string)
    ensures '\0' !in r
    ensures PlainSpacesOnly(r)
    ensures '\n' !in r && '\t' !in r
    ensures Trimmed(r)
  {
    var collapsed := Collapse(text);
    var noNul := RemoveChar(collapsed, '\0');
    RemoveCharPlain(collapsed, '\0');
    StripPlain(noNul);
    PlainHasNoNewline(Strip(noNul));
    Strip(noNul)
  }

  /** Without NULs in the input, no two whitespace characters of the
      cleaned text are adjacent. */
  lemma CleanNoDoubleSpace(text: string)
    requires '\0' !in text
    ensures NoDoubleSpace(CleanForProcessing(text))
  {
    var collapsed := Collapse(text);
    assert RemoveChar(collapsed, '\0') == collapsed;
    var t := Strip(collapsed);
    SliceNoDoubleSpace(collapsed, StripStart(collapsed), StripStart(collapsed) + |t|);
  }

  lemma RemoveNulBetweenSpaces(x: char, y: char)
    requires x != '\0' && y != '\0'
    ensures RemoveChar([x, ' ', '\0', ' ', y], '\0') == [x, ' ', ' ', y]
  {
    assert [x, ' ', '\0', ' ', y] == [x, ' '] + ['\0'] + [' ', y];
    assert '\0' !in [x, ' '] && '\0' !in [' ', y];
    assert RemoveChar(['\0'], '\0') == [];
    RemoveCharAppend([x, ' '], ['\0'], '\0');
    RemoveCharAppend([x, ' '] + ['\0'], [' ', y], '\0');
    assert [x, ' '] + [' ', y] == [x, ' ', ' ', y];
  }

  lemma CollapseAroundNul(x: char, y: char)
    requires !IsSpace(x) && !IsSpace(y)
    ensures Collapse([x, ' ', '\0', ' ', y]) == [x, ' ', '\0', ' ', y]
  {
    var s := [x, ' ', '\0', ' ', y];
    assert NoDoubleSpace(s) by {
      forall i | 0 <= i < |s| - 1 ensures !(IsSpace(s[i]) && IsSpace(s[i + 1])) {
        assert i == 0 || i == 1 || i == 2 || i == 3;
      }
    }
    CollapseOfClean(s);
  }

  /** A NUL between two spaces leaves a double space: deleting NULs after
      collapsing whitespace can bring two spaces together. */
  lemma CleanNulLeavesDoubleSpace(x: char, y: char)
    requires !IsSpace(x) && !IsSpace(y) && x != '\0' && y != '\0'
    ensures CleanForProcessing([x, ' ', '\0', ' ', y]) == [x, ' ', ' ', y]
    ensures !NoDoubleSpace(CleanForProcessing([x, ' ', '\0', ' ', y]))
  {
    CollapseAroundNul(x, y);
    RemoveNulBetweenSpaces(x, y);
    StripOfTrimmed([x, ' ', ' ', y]);
    var r := [x, ' ', ' ', y];
    assert IsSpace(r[1]) && IsSpace(r[2]);
  }

  /** The concrete case `"a \0 b"`, cleaned to `"a  b"`. */
  lemma CleanNulExample()
    ensures CleanForProcessing("a \0 b") == "a  b"
  {
    assert "a \0 b" == ['a', ' ', '\0', ' ', 'b'];
    CleanNulLeavesDoubleSpace('a', 'b');
  }

  /** Cleaning twice is cleaning once, when the text has no NUL. */
  lemma CleanIdempotent(text: string)
    requires '\0' !in text
    ensures CleanForProcessing(CleanForProcessing(text)) == CleanForProcessing(text)
  {
    var r := CleanForProcessing(text);
    CleanNoDoubleSpace(text);
    CollapseOfClean(r);
    assert RemoveChar(r, '\0') == r;
    StripOfTrimmed(r);
  }

  /** A string whose only whitespace is single plain spaces is unchanged by
      `re.sub(r'\s+', ' ', ...)`. */
  lemma {:induction false} CollapseOfClean(s: string)
    requires NoDoubleSpace(s)
    requires PlainSpacesOnly(s)
    ensures Collapse(s) == s
    decreases |s|
  {
    if s != [] {
      var t := s[1..];
      assert s == [s[0]] + t;
      SliceNoDoubleSpace(s, 1, |s|);
      assert PlainSpacesOnly(t) by {
        assert forall i :: 0 <= i < |t| ==> t[i] == s[i + 1];
      }
      CollapseOfClean(t);
      if IsSpace(s[0]) {
        assert s[0] == ' ';
        assert t == [] || !IsSpace(t[0]);
        CollapseSingleSpace(s);
      } else {
        CollapseNonSpace(s);
      }
    }
  }

  // ---------------------------------------------------------------------------
  // _extract_json_from_response

  /** The span `[start, end)` that `re.search(r'\{.*\}', s, re.DOTALL)` selects:
      from the first `{` to the last `}`, when the last `}` comes after the
      first `{`. */
  function JsonSpan(s: string): (r: Option<(nat, nat)>)
    ensures r.Some? ==>
      && r.value.0 + 1 < r.value.1 <= |s|
      && s[r.value.0] == '{' && s[r.value.1 - 1] == '}'
      && (forall k :: 0 <= k < r.value.0 ==> s[k] != '{')
      && (forall k :: r.value.1 <= k < |s| ==> s[k] != '}')
    ensures r.None? <==> forall a, b :: 0 <= a < b < |s| ==> !(s[a] == '{' && s[b] == '}')
  {
    if '{' in s && '}' in s then
      var i := IndexOf(s, '{');
      var j := LastIndexOf(s, '}');
      if i < j then Some((i, j + 1)) else None
    else None
  }

  /** The JSON candidate text: the selected span, or the whole reply when
      there is none. */
  function JsonCandidate(s: string): string
  {
    match JsonSpan(s)
    case Some((i, j)) => s[i..j]
    case None => s
  }

  /** `_extract_json_from_response`; `decodeJson` is `json.loads` with `None`
      for the `JSONDecodeError`. */
  function ExtractJsonFromResponse(decodeJson: string -> Option<Value>, response: string): Option<Value>
  {
    decodeJson(JsonCandidate(response))
  }

  /** A reply with a `{ ... }` span gives that span, braces included, to the
      decoder; text before the first `{` and after the last `}` is dropped. */
  lemma JsonCandidateSpan(s: string)
    requires exists a, b :: 0 <= a < b < |s| && s[a] == '{' && s[b] == '}'
    ensures var c := JsonCandidate(s);
      && |c| >= 2 && c[0] == '{' && c[|c| - 1] == '}'
      && exists i, j :: 0 <= i < j <= |s| && c == s[i..j]
           && ('{' !in s[..i]) && ('}' !in s[j..])
  {
    var span := JsonSpan(s).value;
    var i, j := span.0, span.1;
    assert '{' !in s[..i] by {
      forall k | 0 <= k < i ensures s[..i][k] != '{' { }
    }
    assert '}' !in s[j..] by {
      forall k | 0 <= k < |s| - j ensures s[j..][k] != '}' { assert s[j..][k] == s[j + k]; }
    }
  }

  /** Without a `}` after a `{` the whole reply is decoded. */
  lemma JsonCandidateWhole(s: string)
    requires forall a, b :: 0 <= a < b < |s| ==> !(s[a] == '{' && s[b] == '}')
    ensures JsonCandidate(s) == s
  {
  }

  // ---------------------------------------------------------------------------
  // _llm_extract

  /** The optional generative-model backend: `NoModel` when no API key is
      configured; otherwise `generate` is the model call (`None` when it
      raises) and `decodeJson` is `json.loads`. */
  datatype Llm =
    | NoModel
    | Model(generate: string -> Option<string>, decodeJson: string -> Option<Value>)

  /** How much of the document text goes into a prompt (`text_content[:4000]`). */
  const PromptTextLimit: nat := 4000

  /** The prompt sent with a document: the agent's prompt, a fixed separator
      and the first 4000 characters of the text. */
  function FullPrompt(prompt: string, text: string): string
  {
    prompt + "\n\nDocument text:\n" + Take(text, PromptTextLimit)
  }

  /** `_llm_extract`: `None` without a model or when the call fails, otherwise
      the decoded JSON of the reply. */
  function LlmExtract(llm: Llm, prompt: string, text: string): (r: Option<Value>)
    ensures llm.NoModel? ==> r.None?
  {
    match llm
    case NoModel => None
    case Model(generate, decodeJson) =>
      match generate(FullPrompt(prompt, text))
      case None => None
      case Some(reply) => ExtractJsonFromResponse(decodeJson, reply)
  }

  /** The prompt holds the agent's prompt and exactly the first 4000
      characters of the text (all of it when shorter). */
  lemma FullPromptShape(prompt: string, text: string)
    ensures var p := FullPrompt(prompt, text);
      && p[..|prompt|] == prompt
      && |p| == |prompt| + 17 + (if |text| <= PromptTextLimit then |text| else PromptTextLimit)
      && p[|prompt| + 17..] == Take(text, PromptTextLimit)
  {
  }

  /** Only the first 4000 characters of the text reach the model: two texts
      that agree on them give the same result. */
  lemma LlmExtractSeesPrefix(llm: Llm, prompt: string, t1: string, t2: string)
    requires Take(t1, PromptTextLimit) == Take(t2, PromptTextLimit)
    ensures LlmExtract(llm, prompt, t1) == LlmExtract(llm, prompt, t2)
  {
  }
}
