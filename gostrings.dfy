/** The two `strings` functions the coordinate decoder relies on, for the
    arguments it passes: `Replace(s, old, "", -1)` and `Split` on a
    one-character separator. */
module GoStrings {

  /** `strings.Replace(s, pat, "", -1)`: scanning from the left, every
      occurrence of `pat` that does not overlap an earlier one is deleted. */
  function RemoveAll(s: string, pat: string): (r: string)
    requires |pat| >= 1
    ensures |r| <= |s|
    decreases |s|
  {
    if |s| < |pat| then s
    else if s[..|pat|] == pat then RemoveAll(s[|pat|..], pat)
    else [s[0]] + RemoveAll(s[1..], pat)
  }

  /** `strings.Split(s, [sep])`: the pieces between occurrences of `sep`;
      an empty string gives one empty piece. */
  function Split(s: string, sep: char): (pieces: seq<string>)
    ensures |pieces| >= 1
    decreases |s|
  {
    if |s| == 0 then [""]
    else if s[0] == sep then [""] + Split(s[1..], sep)
    else
      var rest := Split(s[1..], sep);
      [[s[0]] + rest[0]] + rest[1..]
  }

  /** `strings.Join(pieces, [sep])`, the reference inverse of Split. */
  function Join(pieces: seq<string>, sep: char): string
    requires |pieces| >= 1
    decreases |pieces|
  {
    if |pieces| == 1 then pieces[0] else pieces[0] + [sep] + Join(pieces[1..], sep)
  }

  // ---------------------------------------------------------------------
  // Replace

  /** Text without the pattern's first character is left as it is. */
  lemma {:induction false} RemoveAllAbsent(s: string, pat: string)
    requires |pat| >= 1 && pat[0] !in s
    ensures RemoveAll(s, pat) == s
    decreases |s|
  {
    if |s| >= |pat| {
      assert s[0] != pat[0];
      assert s[..|pat|] != pat;
      RemoveAllAbsent(s[1..], pat);
      assert s == [s[0]] + s[1..];
    }
  }

  /** No occurrence of a two-character pattern spans the end of `a` and the start of `b`. */
  predicate NoStraddle(a: string, b: string, pat: string) {
    |pat| == 1 || (|pat| == 2 && (a == [] || b == [] || a[|a| - 1] != pat[0] || b[0] != pat[1]))
  }

  /** Deleting a one- or two-character pattern works piecewise over a
      concatenation, as long as no occurrence spans the seam. */
  lemma {:induction false} RemoveAllConcat(a: string, b: string, pat: string)
    requires 1 <= |pat| <= 2 && NoStraddle(a, b, pat)
    ensures RemoveAll(a + b, pat) == RemoveAll(a, pat) + RemoveAll(b, pat)
    decreases |a|
  {
    var s := a + b;
    if a == [] {
      assert s == b;
    } else if |s| < |pat| {
      assert b == [] && s == a;
    } else if |a| < |pat| {
      // here |pat| == 2 and |a| == 1: RemoveAll(a) == a
      assert s[..|pat|] == [a[0], b[0]];
      assert s[..|pat|] != pat;
      assert s[1..] == b;
    } else if s[..|pat|] == pat {
      assert a[..|pat|] == pat;
      assert s[|pat|..] == a[|pat|..] + b;
      RemoveAllConcat(a[|pat|..], b, pat);
    } else {
      assert a[..|pat|] == s[..|pat|];
      assert s[1..] == a[1..] + b;
      RemoveAllConcat(a[1..], b, pat);
    }
  }

  /** Deleting never brings in a character the text did not hold. */
  lemma {:induction false} RemoveAllChars(s: string, pat: string)
    requires |pat| >= 1
    ensures forall c :: c in RemoveAll(s, pat) ==> c in s
    decreases |s|
  {
    if |s| >= |pat| {
      if s[..|pat|] == pat {
        RemoveAllChars(s[|pat|..], pat);
        assert forall c :: c in s[|pat|..] ==> c in s;
      } else {
        RemoveAllChars(s[1..], pat);
        assert forall c :: c in s[1..] ==> c in s;
      }
    }
  }

  /** Deleting a single character leaves none of it behind. */
  lemma {:induction false} RemoveCharGone(s: string, c: char)
    ensures c !in RemoveAll(s, [c])
    decreases |s|
  {
    if |s| >= 1 {
      RemoveCharGone(s[1..], c);
    }
  }

  /** Deleting a single character twice is the same as deleting it once. */
  lemma RemoveCharIdempotent(s: string, c: char)
    ensures RemoveAll(RemoveAll(s, [c]), [c]) == RemoveAll(s, [c])
  {
    RemoveCharGone(s, c);
    RemoveAllAbsent(RemoveAll(s, [c]), [c]);
  }

  // ---------------------------------------------------------------------
  // Split

  /** Text without the separator is one piece. */
  lemma {:induction false} SplitAbsent(s: string, sep: char)
    requires sep !in s
    ensures Split(s, sep) == [s]
    decreases |s|
  {
    if |s| >= 1 {
      SplitAbsent(s[1..], sep);
      assert s == [s[0]] + s[1..];
    }
  }

  /** Splitting cuts at the first separator, then goes on with the rest. */
  lemma {:induction false} SplitFirst(a: string, sep: char, b: string)
    requires sep !in a
    ensures Split(a + [sep] + b, sep) == [a] + Split(b, sep)
    decreases |a|
  {
    var s := a + [sep] + b;
    if a == [] {
      assert s[1..] == b;
    } else {
      assert s[0] == a[0];
      assert s[1..] == a[1..] + [sep] + b;
      SplitFirst(a[1..], sep, b);
      assert [a[0]] + a[1..] == a;
    }
  }

  /** A separator splits the text into at least two pieces. */
  lemma {:induction false} SplitPresent(s: string, sep: char)
    requires sep in s
    ensures |Split(s, sep)| >= 2
    decreases |s|
  {
    if s[0] != sep {
      SplitPresent(s[1..], sep);
    }
  }

  /** Joining pieces free of the separator and splitting again gives back the pieces. */
  lemma {:induction false} SplitJoin(pieces: seq<string>, sep: char)
    requires |pieces| >= 1
    requires forall p :: p in pieces ==> sep !in p
    ensures Split(Join(pieces, sep), sep) == pieces
    decreases |pieces|
  {
    if |pieces| == 1 {
      SplitAbsent(pieces[0], sep);
    } else {
      assert pieces[0] in pieces;
      SplitFirst(pieces[0], sep, Join(pieces[1..], sep));
      assert forall p :: p in pieces[1..] ==> p in pieces;
      SplitJoin(pieces[1..], sep);
    }
  }

  /** Splitting and joining again gives back the text; no piece holds the separator. */
  lemma {:induction false} JoinSplit(s: string, sep: char)
    ensures Join(Split(s, sep), sep) == s
    ensures forall p :: p in Split(s, sep) ==> sep !in p
    decreases |s|
  {
    if |s| >= 1 {
      JoinSplit(s[1..], sep);
      var rest := Split(s[1..], sep);
      if s[0] != sep {
        var pieces := Split(s, sep);
        assert pieces[1..] == rest[1..];
        if |rest| == 1 {
          assert Join(pieces, sep) == [s[0]] + rest[0];
        } else {
          assert Join(pieces, sep) == [s[0]] + (rest[0] + [sep] + Join(rest[1..], sep));
        }
        assert s == [s[0]] + s[1..];
        assert forall p :: p in pieces ==> p == [s[0]] + rest[0] || p in rest;
      } else {
        assert s == [sep] + s[1..];
      }
    }
  }
}
