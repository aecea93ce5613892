/** Pre-processing of the language model's reply before it is handed to the JSON parser: the
    code-fence language tag and every line break are deleted, then the text from the first `{` to
    the last `}` is taken, or the whole stripped text when there is no such span. */
module Normalizer {
  import opened Wrappers
  import opened Text
  import opened Fields

  /** `re.sub(r'\njson', '', text)` followed by `re.sub(r'\n', '', text)`. */
  function Flatten(text: string): (t: string)
    ensures |t| <= |text|
  {
    DeleteAll(DeleteAll(text, "\njson"), "\n")
  }

  /** The flattened text has no line break left, and keeps every other character of the text
      with the "\njson" tags taken out, in order and as often as it occurs there. */
  lemma FlattenSpec(text: string)
    ensures forall i :: 0 <= i < |Flatten(text)| ==> Flatten(text)[i] != '\n'
    ensures IsSubsequence(Flatten(text), DeleteAll(text, "\njson"))
    ensures forall x :: x != '\n' ==> multiset(Flatten(text))[x] == multiset(DeleteAll(text, "\njson"))[x]
  {
    DeleteCharacter(DeleteAll(text, "\njson"), '\n');
  }

  /** The text handed to `json.loads`, from the flattened text `t`: the greedy match of `\{.*\}`
      when there is one, otherwise `t` stripped. On text without line breaks the greedy match runs
      from the first `{` to the last `}`, and exists exactly when that `}` comes after that `{`. */
  function Candidate(t: string): (c: string)
    ensures |c| <= |t|
  {
    var i := IndexOf(t, '{');
    var j := LastIndexOf(t, '}');
    if i < j then t[i..j + 1] else Strip(t)
  }

  /** The candidate for the model's reply `text`. */
  function JsonCandidate(text: string): (c: string)
    ensures |c| <= |text|
  {
    Candidate(Flatten(text))
  }

  /** `t` has a `{` with a `}` somewhere after it. */
  predicate HasBraceSpan(t: string) {
    exists a, b :: 0 <= a < b < |t| && t[a] == '{' && t[b] == '}'
  }

  /** When `t` has a brace span, the candidate is the longest one that starts leftmost: the slice
      from the first `{` to the last `}`, which comes after it. (That no `{` comes before the one
      and no `}` after the other is what `IndexOf` and `LastIndexOf` promise.) */
  lemma CandidateIsBraceSpan(t: string)
    requires HasBraceSpan(t)
    ensures var i, j := IndexOf(t, '{'), LastIndexOf(t, '}');
      && 0 <= i < j < |t| && t[i] == '{' && t[j] == '}'
      && Candidate(t) == t[i..j + 1]
  {
    var a, b :| 0 <= a < b < |t| && t[a] == '{' && t[b] == '}';
    SpanAround(t, a, b);
  }

  /** The first `{` and the last `}` enclose any `{` ... `}` pair, and the candidate is the slice
      between them. */
  lemma SpanAround(t: string, a: int, b: int)
    requires 0 <= a < b < |t| && t[a] == '{' && t[b] == '}'
    ensures var i, j := IndexOf(t, '{'), LastIndexOf(t, '}');
      && 0 <= i <= a && b <= j < |t|
      && Candidate(t) == t[i..j + 1]
      && t[i] == '{' && t[j] == '}'
  {
    FirstBefore(t, '{', a);
    LastAfter(t, '}', b);
  }

  /** The first occurrence of `c` is at or before any occurrence. */
  lemma FirstBefore(t: string, c: char, a: int)
    requires 0 <= a < |t| && t[a] == c
    ensures IndexOf(t, c) <= a
  {
    if a < IndexOf(t, c) {
      assert false;
    }
  }

  /** The last occurrence of `c` is at or after any occurrence. */
  lemma LastAfter(t: string, c: char, b: int)
    requires 0 <= b < |t| && t[b] == c
    ensures b <= LastIndexOf(t, c)
  {
    if LastIndexOf(t, c) < b {
      assert false;
    }
  }

  /** Without a brace span the whole of `t`, stripped, is handed over. */
  lemma CandidateWithoutSpan(t: string)
    requires !HasBraceSpan(t)
    ensures Candidate(t) == Strip(t)
  {
    var i := IndexOf(t, '{');
    var j := LastIndexOf(t, '}');
    if i < j {
      assert false;
    }
  }

  /** `s` has no character `c`. */
  predicate Lacks(s: string, c: char) {
    forall i :: 0 <= i < |s| ==> s[i] != c
  }

  /** The candidate never holds a line break. */
  lemma CandidateHasNoNewline(text: string)
    ensures Lacks(JsonCandidate(text), '\n')
  {
    FlattenSpec(text);
    CandidateLacks(Flatten(text), '\n');
  }

  /** A character missing from the flattened text is missing from its candidate. */
  lemma CandidateLacks(t: string, c: char)
    requires Lacks(t, c)
    ensures Lacks(Candidate(t), c)
  {
    var i := IndexOf(t, '{');
    var j := LastIndexOf(t, '}');
    if i < j {
      SliceLacks(t, i, j + 1, c);
    } else {
      StripSpec(t);
      var lead := |t| - |StripLeading(t)|;
      SliceLacks(t, lead, lead + |Strip(t)|, c);
    }
  }

  /** A character missing from a text is missing from each of its slices. */
  lemma SliceLacks(t: string, lo: int, hi: int, c: char)
    requires Lacks(t, c) && 0 <= lo <= hi <= |t|
    ensures Lacks(t[lo..hi], c)
  {
    forall q | 0 <= q < hi - lo ensures t[lo..hi][q] != c {
      assert t[lo..hi][q] == t[lo + q];
    }
  }

  /** `s` begins with the language tag "json". */
  predicate StartsWithTag(s: string) {
    |s| >= 4 && s[..4] == "json"
  }

  /** A line break not followed by the tag is kept by the first deletion. */
  lemma KeepsUntaggedBreak(rest: string)
    requires !StartsWithTag(rest)
    ensures DeleteAll("\n" + rest, "\njson") == "\n" + DeleteAll(rest, "\njson")
  {
    var s := "\n" + rest;
    assert s[1..] == rest;
    if |s| >= 5 {
      assert s[1..5] == rest[..4];
      assert s[..5] != "\njson";
    }
  }

  /** A reply whose lines are a fence line, a one-line body and a closing line, none of them
      starting with the tag, flattens to the three lines run together. */
  lemma FlattenThreeLines(fence: string, body: string, close: string)
    requires Lacks(fence, '\n') && Lacks(body, '\n') && Lacks(close, '\n')
    requires !StartsWithTag(body) && !StartsWithTag(close)
    ensures Flatten(fence + "\n" + body + "\n" + close) == fence + body + close
  {
    var tail := "\n" + close;
    var middle := body + tail;
    var text := fence + ("\n" + middle);
    assert fence + "\n" + body + "\n" + close == text;
    NoTagInThreeLines(fence, body, close);
    calc {
      Flatten(text);
      DeleteAll(text, "\n");
      { DeleteAllSkipsPrefix(fence, "\n" + middle, "\n"); }
      fence + DeleteAll("\n" + middle, "\n");
      { DropBreak(middle); }
      fence + DeleteAll(middle, "\n");
      { DeleteAllSkipsPrefix(body, tail, "\n"); }
      fence + (body + DeleteAll(tail, "\n"));
      { DropBreak(close); }
      fence + (body + DeleteAll(close, "\n"));
      { DeleteAllSkipsPrefix(close, [], "\n"); assert close + [] == close; }
      fence + (body + close);
    }
  }

  /** A leading line break is deleted. */
  lemma DropBreak(rest: string)
    ensures DeleteAll("\n" + rest, "\n") == DeleteAll(rest, "\n")
  {
    assert ("\n" + rest)[..1] == "\n";
    assert ("\n" + rest)[1..] == rest;
  }

  /** In such a reply the first deletion finds nothing to delete. */
  lemma NoTagInThreeLines(fence: string, body: string, close: string)
    requires Lacks(fence, '\n') && Lacks(body, '\n') && Lacks(close, '\n')
    requires !StartsWithTag(body) && !StartsWithTag(close)
    ensures var text := fence + ("\n" + (body + ("\n" + close)));
      DeleteAll(text, "\njson") == text
  {
    var p := "\njson";
    var tail := "\n" + close;
    var middle := body + tail;
    DeleteAllSkipsPrefix(fence, "\n" + middle, p);
    assert !StartsWithTag(middle) by {
      if |body| >= 4 { assert middle[..4] == body[..4]; }
      else if |middle| >= 4 { assert middle[..4][|body|] == '\n'; }
    }
    KeepsUntaggedBreak(middle);
    DeleteAllSkipsPrefix(body, tail, p);
    KeepsUntaggedBreak(close);
    DeleteAllSkipsPrefix(close, [], p);
    assert close + [] == close;
  }

  /** Between text without braces, a body that opens with `{` and closes with `}` is what the
      candidate picks. */
  lemma CandidateOfWrappedBody(before: string, body: string, after: string)
    requires Lacks(before, '{') && Lacks(before, '}') && Lacks(after, '{') && Lacks(after, '}')
    requires 2 <= |body| && body[0] == '{' && body[|body| - 1] == '}'
    ensures Candidate(before + body + after) == body
  {
    var t := before + body + after;
    var i := IndexOf(t, '{');
    var j := LastIndexOf(t, '}');
    assert t[|before|] == '{';
    assert t[|before| + |body| - 1] == '}';
    assert i == |before|;
    assert j == |before| + |body| - 1;
    assert t[i..j + 1] == body;
  }

  /** A reply fenced as a JSON code block yields just the object. */
  lemma FencedReply()
    ensures var fence, body, close := "```json", "{\"salary_income\": 500000}", "```";
      JsonCandidate(fence + "\n" + body + "\n" + close) == body
  {
    var fence, body, close := "```json", "{\"salary_income\": 500000}", "```";
    assert Lacks(fence, '\n') && Lacks(fence, '{') && Lacks(fence, '}');
    assert Lacks(close, '\n') && Lacks(close, '{') && Lacks(close, '}');
    assert Lacks(body, '\n');
    assert body[..4][0] == '{';
    FlattenThreeLines(fence, body, close);
    CandidateOfWrappedBody(fence, body, close);
  }

  /** `extract_json_from_text` with `json.loads` as the parameter `parse`; None when parsing fails. */
  function ExtractJson(text: string, parse: string -> Option<FieldMap>): Option<FieldMap> {
    parse(JsonCandidate(text))
  }

  /** The parser is handed the span from the first `{` to the last `}` of the flattened reply when
      there is one, and the whole flattened reply, stripped, otherwise. */
  lemma ExtractJsonSpec(text: string, parse: string -> Option<FieldMap>)
    ensures var t := Flatten(text);
      HasBraceSpan(t) ==>
        var i, j := IndexOf(t, '{'), LastIndexOf(t, '}');
        0 <= i < j < |t| && ExtractJson(text, parse) == parse(t[i..j + 1])
    ensures !HasBraceSpan(Flatten(text)) ==> ExtractJson(text, parse) == parse(Strip(Flatten(text)))
  {
    var t := Flatten(text);
    if HasBraceSpan(t) {
      CandidateIsBraceSpan(t);
    } else {
      CandidateWithoutSpan(t);
    }
  }

  /** A reply fenced as a JSON code block hands the parser just the object. */
  lemma ExtractFencedReply(parse: string -> Option<FieldMap>)
    ensures var fence, body, close := "```json", "{\"salary_income\": 500000}", "```";
      ExtractJson(fence + "\n" + body + "\n" + close, parse) == parse(body)
  {
    FencedReply();
  }
}
