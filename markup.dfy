/**
 * The page-body cleaner `re.sub(r'<[^>]+>', '', content)`: a left-to-right scan
 * that deletes every match of the pattern "a `<`, then one or more characters
 * other than `>`, then `>`". It is a tag remover, not a markup parser.
 */
module Markup {

  /** Index of the first `>` at or after `from`, or `|s|` when there is none. */
  function FindClose(s: string, from: nat): (j: nat)
    requires from <= |s|
    ensures from <= j <= |s|
    ensures forall k :: from <= k < j ==> s[k] != '>'
    ensures j < |s| ==> s[j] == '>'
    decreases |s| - from
  {
    if from == |s| || s[from] == '>' then from else FindClose(s, from + 1)
  }

  /**
   * The pattern matches at position `i`: `s[i]` is `<` and the first `>` after it
   * comes at least two positions later. The greedy `[^>]+` cannot run past that
   * first `>`, so the match is `s[i..FindClose(s, i + 1) + 1]`.
   */
  predicate TagAt(s: string, i: nat) {
    i < |s| && s[i] == '<' && i + 2 <= FindClose(s, i + 1) < |s|
  }

  /** The cleaned text: matches are deleted, every other character is kept, scanning left to right. */
  function StripTags(s: string): string
    decreases |s|
  {
    if s == [] then []
    else if TagAt(s, 0) then StripTags(s[FindClose(s, 1) + 1..])
    else [s[0]] + StripTags(s[1..])
  }

  /** Independent reading of the pattern: some substring is `<`, one or more non-`>` characters, `>`. */
  ghost predicate ContainsTag(s: string) {
    exists i, j :: 0 <= i && i + 1 < j < |s| && s[i] == '<' && s[j] == '>' && (forall k :: i < k < j ==> s[k] != '>')
  }

  predicate TagFree(s: string) {
    forall i :: 0 <= i < |s| ==> !TagAt(s, i)
  }

  /** `a` can be obtained from `b` by deleting characters. */
  predicate IsSubsequence(a: string, b: string)
    decreases |b|
  {
    a == [] || (b != [] && ((a[0] == b[0] && IsSubsequence(a[1..], b[1..])) || IsSubsequence(a, b[1..])))
  }

  lemma FindCloseUnique(s: string, from: nat, j: nat)
    requires from <= j <= |s|
    requires forall k :: from <= k < j ==> s[k] != '>'
    requires j < |s| ==> s[j] == '>'
    ensures FindClose(s, from) == j
  {
  }

  /** Prefixing one character shifts the first `>` by one. */
  lemma FindCloseCons(c: char, t: string, from: nat)
    requires from <= |t|
    ensures FindClose([c] + t, from + 1) == FindClose(t, from) + 1
  {
    var s, f := [c] + t, FindClose(t, from);
    forall k | from + 1 <= k < f + 1 ensures s[k] != '>' {
      assert s[k] == t[k - 1];
    }
    if f < |t| {
      assert s[f + 1] == t[f];
    }
    FindCloseUnique(s, from + 1, f + 1);
  }

  lemma TagAtCons(c: char, t: string, i: nat)
    ensures TagAt([c] + t, i + 1) <==> TagAt(t, i)
  {
    if i < |t| {
      FindCloseCons(c, t, i + 1);
      assert ([c] + t)[i + 1] == t[i];
    }
  }

  /** The scanner's test agrees with the pattern read as a set of substrings. */
  lemma ContainsTagIffTagAt(s: string)
    ensures ContainsTag(s) <==> !TagFree(s)
  {
    if ContainsTag(s) {
      var i, j :| 0 <= i && i + 1 < j < |s| && s[i] == '<' && s[j] == '>' && (forall k :: i < k < j ==> s[k] != '>');
      FindCloseUnique(s, i + 1, j);
      assert TagAt(s, i);
    }
    if !TagFree(s) {
      var i :| 0 <= i < |s| && TagAt(s, i);
      var j := FindClose(s, i + 1);
      assert i + 1 < j < |s| && s[i] == '<' && s[j] == '>' && (forall k :: i < k < j ==> s[k] != '>');
    }
  }

  lemma {:induction false} SubsequenceOfSuffix(a: string, b: string, k: nat)
    requires k <= |b| && IsSubsequence(a, b[k..])
    ensures IsSubsequence(a, b)
    decreases k
  {
    if k > 0 {
      assert b[k - 1..][1..] == b[k..];
      assert IsSubsequence(a, b[k - 1..]);
      SubsequenceOfSuffix(a, b, k - 1);
    } else {
      assert b[0..] == b;
    }
  }

  lemma {:induction false} SubsequenceMembers(a: string, b: string, x: char)
    requires IsSubsequence(a, b) && x in a
    ensures x in b
    decreases |b|
  {
    if a[0] == b[0] && IsSubsequence(a[1..], b[1..]) {
      if x != a[0] {
        assert x in a[1..];
        SubsequenceMembers(a[1..], b[1..], x);
      }
    } else {
      SubsequenceMembers(a, b[1..], x);
    }
  }

  /** The cleaned text is the input with some characters deleted: nothing is added or reordered. */
  lemma {:induction false} StripTagsSubsequence(s: string)
    ensures IsSubsequence(StripTags(s), s)
    decreases |s|
  {
    if s == [] {
    } else if TagAt(s, 0) {
      var j := FindClose(s, 1);
      StripTagsSubsequence(s[j + 1..]);
      SubsequenceOfSuffix(StripTags(s), s, j + 1);
    } else {
      StripTagsSubsequence(s[1..]);
      assert ([s[0]] + StripTags(s[1..]))[1..] == StripTags(s[1..]);
    }
  }

  /** The scanner leaves no match behind in what it keeps. */
  lemma {:induction false} StripTagsTagFree(s: string)
    ensures TagFree(StripTags(s))
    decreases |s|
  {
    if s == [] {
    } else if TagAt(s, 0) {
      StripTagsTagFree(s[FindClose(s, 1) + 1..]);
    } else {
      var rest := StripTags(s[1..]);
      var r := [s[0]] + rest;
      StripTagsTagFree(s[1..]);
      forall i | 1 <= i < |r| ensures !TagAt(r, i) {
        TagAtCons(s[0], rest, i - 1);
      }
      if s[0] == '<' {
        var f := FindClose(s, 1);
        if f < |s| {
          // `<>`: the `>` right after the `<` is kept, so the kept `<` opens no match.
          assert f == 1 && s[1..][0] == '>';
          assert !TagAt(s[1..], 0);
          assert rest == [s[1]] + StripTags(s[2..]);
          FindCloseUnique(r, 1, 1);
        } else {
          // No `>` follows the `<` at all, and the kept text adds none.
          assert f == |s|;
          assert '>' !in s[1..];
          if '>' in rest {
            StripTagsSubsequence(s[1..]);
            SubsequenceMembers(rest, s[1..], '>');
          }
          forall k | 1 <= k < |r| ensures r[k] != '>' {
            assert r[k] == rest[k - 1];
          }
          FindCloseUnique(r, 1, |r|);
        }
      }
    }
  }

  /** Text without a match passes through the scanner unchanged. */
  lemma {:induction false} TagFreeUnchanged(t: string)
    requires TagFree(t)
    ensures StripTags(t) == t
    decreases |t|
  {
    if t != [] {
      forall i | 0 <= i < |t[1..]| ensures !TagAt(t[1..], i) {
        TagAtCons(t[0], t[1..], i);
        assert [t[0]] + t[1..] == t;
      }
      TagFreeUnchanged(t[1..]);
    }
  }

  /** After cleaning, no substring of the form `<`, one or more non-`>` characters, `>` remains. */
  lemma NoTagSurvives(s: string)
    ensures !ContainsTag(StripTags(s))
  {
    StripTagsTagFree(s);
    ContainsTagIffTagAt(StripTags(s));
  }

  /** Cleaning twice is cleaning once. */
  lemma StripTagsIdempotent(s: string)
    ensures StripTags(StripTags(s)) == StripTags(s)
  {
    StripTagsTagFree(s);
    TagFreeUnchanged(StripTags(s));
  }

  /** Text containing no `<` is returned unchanged. */
  lemma NoOpenBracketUnchanged(s: string)
    requires '<' !in s
    ensures StripTags(s) == s
  {
    assert TagFree(s);
    TagFreeUnchanged(s);
  }
}
