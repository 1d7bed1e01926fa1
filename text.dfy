/**
 * The handful of JavaScript string operations the two API routes rely on:
 * `toLowerCase`, `includes`, `endsWith` and `replace(/\n/g, '<br>')`.
 * Strings are sequences of characters; lowercasing is ASCII-only.
 */
module Text {

  /** `c.toLowerCase()` for one character, restricted to ASCII letters. */
  function LowerChar(c: char): (r: char)
    ensures 'A' <= c <= 'Z' ==> r == c - 'A' + 'a'
    ensures !('A' <= c <= 'Z') ==> r == c
    ensures !('A' <= r <= 'Z')
  {
    if 'A' <= c <= 'Z' then c - 'A' + 'a' else c
  }

  /** `s.toLowerCase()`: every character lowered, nothing added or removed. */
  function Lower(s: string): (r: string)
    ensures |r| == |s|
    ensures forall i :: 0 <= i < |s| ==> r[i] == LowerChar(s[i])
  {
    seq(|s|, i requires 0 <= i < |s| => LowerChar(s[i]))
  }

  /** `t` has no ASCII capital. */
  predicate NoCapitals(t: string)
  {
    forall j :: 0 <= j < |t| ==> !('A' <= t[j] <= 'Z')
  }

  /** Lowering leaves a text unchanged exactly when it has no capital. */
  lemma LowerFixesNoCapitals(t: string)
    ensures NoCapitals(t) <==> Lower(t) == t
  {
    if Lower(t) == t {
      forall j | 0 <= j < |t|
        ensures !('A' <= t[j] <= 'Z')
      {
        assert Lower(t)[j] == LowerChar(t[j]);
      }
    }
  }

  /** Lowering twice is lowering once. */
  lemma LowerIdempotent(s: string)
    ensures Lower(Lower(s)) == Lower(s)
  {
    var once := Lower(s);
    assert forall i :: 0 <= i < |s| ==> Lower(once)[i] == once[i];
  }

  /** Lowering distributes over concatenation. */
  lemma {:induction false} LowerConcat(a: string, b: string)
    ensures Lower(a + b) == Lower(a) + Lower(b)
  {
    var l := Lower(a + b);
    forall i | 0 <= i < |a| + |b|
      ensures l[i] == (Lower(a) + Lower(b))[i]
    {
      if i < |a| {
        assert (a + b)[i] == a[i];
      } else {
        assert (a + b)[i] == b[i - |a|];
      }
    }
  }

  /** `t` is the slice of `s` that starts at position `k`. */
  predicate OccursAt(s: string, t: string, k: nat)
  {
    k + |t| <= |s| && s[k..k + |t|] == t
  }

  /** `s.includes(t)`: `t` occurs somewhere in `s` (the empty string occurs everywhere). */
  predicate Includes(s: string, t: string)
    ensures Includes(s, t) ==> |t| <= |s|
  {
    exists k :: 0 <= k <= |s| - |t| && OccursAt(s, t, k)
  }

  /** The empty string occurs in every text, as in JavaScript. */
  lemma IncludesEmpty(s: string)
    ensures Includes(s, [])
  {
    assert OccursAt(s, [], 0);
  }

  /**
   * Character-by-character comparison of `t[j..]` with the text of `s` at
   * `i + j`; it decides an occurrence without comparing whole slices.
   */
  predicate MatchAt(s: string, t: string, i: nat, j: nat)
    requires i + |t| <= |s| && j <= |t|
    decreases |t| - j
  {
    j == |t| || (s[i + j] == t[j] && MatchAt(s, t, i, j + 1))
  }

  /** The comparison succeeds iff the two slices are equal. */
  lemma {:induction false} MatchAtIsSlice(s: string, t: string, i: nat, j: nat)
    requires i + |t| <= |s| && j <= |t|
    ensures MatchAt(s, t, i, j) <==> s[i + j..i + |t|] == t[j..]
    decreases |t| - j
  {
    if j < |t| {
      MatchAtIsSlice(s, t, i, j + 1);
      assert s[i + j..i + |t|] == [s[i + j]] + s[i + j + 1..i + |t|];
      assert t[j..] == [t[j]] + t[j + 1..];
    }
  }

  /** A position where every character matches proves inclusion. */
  lemma IncludesAt(s: string, t: string, k: nat)
    requires k + |t| <= |s| && MatchAt(s, t, k, 0)
    ensures Includes(s, t)
  {
    MatchAtIsSlice(s, t, k, 0);
    assert t[0..] == t;
    assert OccursAt(s, t, k);
  }

  /** If `t` has a character that `s` lacks, `t` does not occur in `s`. */
  lemma MissingCharExcludes(s: string, t: string, c: char)
    requires c in t && c !in s
    ensures !Includes(s, t)
  {
    var j :| 0 <= j < |t| && t[j] == c;
    forall k | 0 <= k <= |s| - |t|
      ensures !OccursAt(s, t, k)
    {
      assert s[k..k + |t|][j] == s[k + j] != c;
    }
  }

  /** No character of `s` is one of `letters`. */
  predicate Avoids(s: string, letters: string)
  {
    forall i :: 0 <= i < |s| ==> s[i] !in letters
  }

  /** The character `a` is never directly followed by `b` in `s`. */
  predicate NoPair(s: string, a: char, b: char)
  {
    forall i :: 0 <= i < |s| - 1 ==> !(s[i] == a && s[i + 1] == b)
  }

  /**
   * If two adjacent characters of `t` never stand next to each other in `s`,
   * `t` does not occur in `s`.
   */
  lemma MissingPairExcludes(s: string, t: string, j: nat)
    requires j + 1 < |t| && NoPair(s, t[j], t[j + 1])
    ensures !Includes(s, t)
  {
    forall k | 0 <= k <= |s| - |t|
      ensures !OccursAt(s, t, k)
    {
      assert s[k..k + |t|][j] == s[k + j];
      assert s[k..k + |t|][j + 1] == s[k + j + 1];
    }
  }

  /** `s.endsWith(suffix)`. */
  predicate EndsWith(s: string, suffix: string)
  {
    |suffix| <= |s| && s[|s| - |suffix|..] == suffix
  }

  /** A text that ends with `suffix` includes it, and every text ends with itself. */
  lemma EndsWithIncludes(s: string, suffix: string)
    ensures EndsWith(s, suffix) ==> Includes(s, suffix)
    ensures EndsWith(s, s)
  {
    if EndsWith(s, suffix) {
      assert OccursAt(s, suffix, |s| - |suffix|);
    }
  }

  /** `endsWith` holds exactly when `s` is something followed by `suffix`. */
  lemma EndsWithIff(s: string, suffix: string)
    ensures EndsWith(s, suffix) <==> exists p :: s == p + suffix
  {
    if EndsWith(s, suffix) {
      assert s == s[..|s| - |suffix|] + suffix;
    }
    if exists p :: s == p + suffix {
      var p :| s == p + suffix;
      assert s[|s| - |suffix|..] == suffix;
    }
  }

  /** Where each part of a three-part concatenation sits. */
  lemma ThreeParts(a: string, b: string, c: string)
    ensures OccursAt(a + b + c, a, 0) && OccursAt(a + b + c, b, |a|) && EndsWith(a + b + c, c)
  {
    var s := a + b + c;
    assert s[0..|a|] == a;
    assert s[|a|..|a| + |b|] == b;
    assert s[|s| - |c|..] == c;
  }

  /** What one character of the message becomes in the mail body. */
  function BreakLine(c: char): (r: string)
    ensures c == '\n' ==> r == "<br>"
    ensures c != '\n' ==> r == [c]
  {
    if c == '\n' then "<br>" else [c]
  }

  /** `s.replace(/\n/g, '<br>')`: every line feed becomes `<br>`. */
  function ReplaceNewlines(s: string): (r: string)
    ensures '\n' !in r
    ensures |r| >= |s|
  {
    if s == [] then [] else BreakLine(s[0]) + ReplaceNewlines(s[1..])
  }

  /** Number of line feeds in `s`. */
  function NewlineCount(s: string): nat
  {
    if s == [] then 0 else (if s[0] == '\n' then 1 else 0) + NewlineCount(s[1..])
  }

  /** The rewrite works piece by piece: it distributes over concatenation. */
  lemma {:induction false} ReplaceNewlinesConcat(a: string, b: string)
    ensures ReplaceNewlines(a + b) == ReplaceNewlines(a) + ReplaceNewlines(b)
  {
    if a != [] {
      assert (a + b)[0] == a[0];
      assert (a + b)[1..] == a[1..] + b;
      ReplaceNewlinesConcat(a[1..], b);
      calc {
        ReplaceNewlines(a + b);
        BreakLine(a[0]) + ReplaceNewlines(a[1..] + b);
        BreakLine(a[0]) + (ReplaceNewlines(a[1..]) + ReplaceNewlines(b));
        (BreakLine(a[0]) + ReplaceNewlines(a[1..])) + ReplaceNewlines(b);
      }
    } else {
      assert a + b == b;
    }
  }

  /** Each line feed grows the text by three characters ("<br>" replaces one). */
  lemma {:induction false} ReplaceNewlinesLength(s: string)
    ensures |ReplaceNewlines(s)| == |s| + 3 * NewlineCount(s)
  {
    if s != [] {
      ReplaceNewlinesLength(s[1..]);
    }
  }

  /** A message without line feeds is left exactly as it was. */
  lemma {:induction false} ReplaceNewlinesNoop(s: string)
    requires '\n' !in s
    ensures ReplaceNewlines(s) == s
  {
    if s != [] {
      assert s[0] in s;
      assert forall c :: c in s[1..] ==> c in s;
      ReplaceNewlinesNoop(s[1..]);
    }
  }
}
