/** The string primitives the response pre-processing and the number coercion rely on:
    Python's `str.strip()`, a literal `re.sub(pattern, '', s)`, and character search. */
module Text {

  /** The characters Python's `str.isspace()` accepts, so the ones `str.strip()` and `float()` drop. */
  predicate IsWhitespace(c: char) {
    || c == ' ' || c == '\t' || c == '\n' || c == '\r'
    || c == '\U{000B}' || c == '\U{000C}'
    || ('\U{001C}' <= c <= '\U{001F}')
    || c == '\U{0085}' || c == '\U{00A0}' || c == '\U{1680}'
    || ('\U{2000}' <= c <= '\U{200A}')
    || c == '\U{2028}' || c == '\U{2029}' || c == '\U{202F}' || c == '\U{205F}' || c == '\U{3000}'
  }

  /** `s` with its leading whitespace removed. */
  function StripLeading(s: string): (r: string)
    ensures |r| <= |s|
  {
    if |s| > 0 && IsWhitespace(s[0]) then StripLeading(s[1..]) else s
  }

  /** `s` with its trailing whitespace removed. */
  function StripTrailing(s: string): (r: string)
    ensures |r| <= |s|
  {
    if |s| > 0 && IsWhitespace(s[|s| - 1]) then StripTrailing(s[..|s| - 1]) else s
  }

  /** Python's `s.strip()`. */
  function Strip(s: string): (r: string)
    ensures |r| <= |s|
  {
    StripTrailing(StripLeading(s))
  }

  /** Stripping the front leaves a suffix of `s` that starts with a non-whitespace character,
      and everything dropped is whitespace. */
  lemma {:induction false} StripLeadingSpec(s: string)
    ensures var r := StripLeading(s);
      && r == s[|s| - |r|..]
      && (forall i :: 0 <= i < |s| - |r| ==> IsWhitespace(s[i]))
      && (r == [] || !IsWhitespace(r[0]))
  {
    if |s| > 0 && IsWhitespace(s[0]) {
      StripLeadingSpec(s[1..]);
    }
  }

  /** Stripping the back leaves a prefix of `s` that ends with a non-whitespace character,
      and everything dropped is whitespace. */
  lemma {:induction false} StripTrailingSpec(s: string)
    ensures var r := StripTrailing(s);
      && r == s[..|r|]
      && (forall i :: |r| <= i < |s| ==> IsWhitespace(s[i]))
      && (r == [] || !IsWhitespace(r[|r| - 1]))
  {
    if |s| > 0 && IsWhitespace(s[|s| - 1]) {
      StripTrailingSpec(s[..|s| - 1]);
    }
  }

  /** `s.strip()` is the slice of `s` between a whitespace-only front and a whitespace-only back,
      and neither of its ends is whitespace. */
  lemma StripSpec(s: string)
    ensures |s| - |StripLeading(s)| + |Strip(s)| <= |s|
    ensures Strip(s) == s[|s| - |StripLeading(s)|..|s| - |StripLeading(s)| + |Strip(s)|]
    ensures forall i :: 0 <= i < |s| - |StripLeading(s)| ==> IsWhitespace(s[i])
    ensures forall i :: |s| - |StripLeading(s)| + |Strip(s)| <= i < |s| ==> IsWhitespace(s[i])
    ensures Strip(s) == [] || (!IsWhitespace(Strip(s)[0]) && !IsWhitespace(Strip(s)[|Strip(s)| - 1]))
  {
    var l := StripLeading(s);
    StripLeadingSpec(s);
    StripTrailingSpec(l);
    var r := Strip(s);
    var lead := |s| - |l|;
    assert r == l[..|r|];
    forall i | lead + |r| <= i < |s| ensures IsWhitespace(s[i]) {
      assert s[i] == l[i - lead];
    }
  }

  /** A string with no whitespace at either end is its own strip. */
  lemma StripUnchanged(s: string)
    requires s == [] || (!IsWhitespace(s[0]) && !IsWhitespace(s[|s| - 1]))
    ensures Strip(s) == s
  {
  }

  /** `re.sub(pat, '', s)` for a pattern without metacharacters: one left-to-right pass that
      deletes each non-overlapping occurrence of `pat`; text the deletion brings together is not rescanned. */
  function DeleteAll(s: string, pat: string): (r: string)
    requires |pat| > 0
    ensures |r| <= |s|
    decreases |s|
  {
    if |s| < |pat| then s
    else if s[..|pat|] == pat then DeleteAll(s[|pat|..], pat)
    else [s[0]] + DeleteAll(s[1..], pat)
  }

  /** Text in which the pattern's first character never occurs passes through the deletion
      untouched, and so does such a prefix of a longer text. */
  lemma {:induction false} DeleteAllSkipsPrefix(a: string, b: string, pat: string)
    requires |pat| > 0
    requires forall i :: 0 <= i < |a| ==> a[i] != pat[0]
    ensures DeleteAll(a + b, pat) == a + DeleteAll(b, pat)
    decreases |a|
  {
    var ab := a + b;
    if a == [] {
      assert ab == b;
    } else if |ab| < |pat| {
      assert DeleteAll(b, pat) == b;
    } else {
      assert ab[..|pat|][0] == a[0];
      assert DeleteAll(ab, pat) == [ab[0]] + DeleteAll(ab[1..], pat);
      assert ab[1..] == a[1..] + b;
      DeleteAllSkipsPrefix(a[1..], b, pat);
      assert a == [a[0]] + a[1..];
    }
  }

  /** `r` lists some of the characters of `s`, in their order in `s`. */
  predicate IsSubsequence(r: string, s: string)
    decreases |s|
  {
    if r == [] then true
    else if s == [] then false
    else if r[0] == s[0] then IsSubsequence(r[1..], s[1..])
    else IsSubsequence(r, s[1..])
  }

  /** A subsequence of the tail of `s` is a subsequence of `s`. */
  lemma {:induction false} SubsequenceSkip(r: string, s: string)
    requires |s| > 0 && IsSubsequence(r, s[1..])
    ensures IsSubsequence(r, s)
    decreases |r| + |s|, 1
  {
    if r != [] && r[0] == s[0] {
      SubsequenceDropHead(r, s[1..]);
    }
  }

  /** Dropping the first character of a subsequence leaves a subsequence. */
  lemma {:induction false} SubsequenceDropHead(r: string, t: string)
    requires r != [] && IsSubsequence(r, t)
    ensures IsSubsequence(r[1..], t)
    decreases |r| + |t|, 0
  {
    if r[0] == t[0] {
      if r[1..] != [] {
        SubsequenceSkip(r[1..], t);
      }
    } else {
      SubsequenceDropHead(r, t[1..]);
      if r[1..] != [] {
        SubsequenceSkip(r[1..], t);
      }
    }
  }

  /** Deleting a one-character pattern removes every occurrence of that character and keeps every
      other character, with its multiplicity and its order. */
  lemma DeleteCharacter(s: string, c: char)
    ensures var r := DeleteAll(s, [c]);
      && (forall i :: 0 <= i < |r| ==> r[i] != c)
      && (forall x :: x != c ==> multiset(r)[x] == multiset(s)[x])
      && IsSubsequence(r, s)
  {
    DeleteCharacterRemoves(s, c);
    DeleteCharacterCounts(s, c);
    DeleteCharacterInOrder(s, c);
  }

  /** No occurrence of the deleted character is left. */
  lemma {:induction false} DeleteCharacterRemoves(s: string, c: char)
    ensures forall i :: 0 <= i < |DeleteAll(s, [c])| ==> DeleteAll(s, [c])[i] != c
    decreases |s|
  {
    if |s| > 0 {
      DeleteCharacterRemoves(s[1..], c);
      if s[..1] != [c] {
        var t := DeleteAll(s[1..], [c]);
        assert DeleteAll(s, [c]) == [s[0]] + t;
      }
    }
  }

  /** Every other character keeps its count. */
  lemma {:induction false} DeleteCharacterCounts(s: string, c: char)
    ensures forall x :: x != c ==> multiset(DeleteAll(s, [c]))[x] == multiset(s)[x]
    decreases |s|
  {
    if |s| > 0 {
      DeleteCharacterCounts(s[1..], c);
      assert s == [s[0]] + s[1..];
      if s[..1] != [c] {
        var t := DeleteAll(s[1..], [c]);
        assert DeleteAll(s, [c]) == [s[0]] + t;
      }
    }
  }

  /** What is left keeps its order. */
  lemma {:induction false} DeleteCharacterInOrder(s: string, c: char)
    ensures IsSubsequence(DeleteAll(s, [c]), s)
    decreases |s|
  {
    if |s| > 0 {
      DeleteCharacterInOrder(s[1..], c);
      var r := DeleteAll(s, [c]);
      if s[..1] == [c] {
        SubsequenceSkip(r, s);
      } else {
        var t := DeleteAll(s[1..], [c]);
        assert r == [s[0]] + t;
        assert r[1..] == t;
      }
    }
  }

  /** Index of the first `c` in `s`, or `|s|` when there is none. */
  function IndexOf(s: string, c: char): (k: nat)
    ensures k <= |s|
    ensures k < |s| ==> s[k] == c
    ensures forall i :: 0 <= i < k ==> s[i] != c
  {
    if |s| == 0 then 0
    else if s[0] == c then 0
    else 1 + IndexOf(s[1..], c)
  }

  /** Index of the last `c` in `s`, or -1 when there is none. */
  function LastIndexOf(s: string, c: char): (k: int)
    ensures -1 <= k < |s|
    ensures 0 <= k ==> s[k] == c
    ensures forall i :: k < i < |s| ==> s[i] != c
  {
    if |s| == 0 then -1
    else if s[|s| - 1] == c then |s| - 1
    else LastIndexOf(s[..|s| - 1], c)
  }
}
