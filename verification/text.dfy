/**
 The few string operations the gateway relies on, modelled on Python's
 `str` semantics: lower-casing, substring containment (`in`), replacement
 of every occurrence (`str.replace`) and decimal formatting of integers
 (an f-string `{n}`).
 */
module Text {

  /* ---------------------------------------------------------------------
     Lower-casing
     --------------------------------------------------------------------- */

  /** Lower-case form of one character; only the ASCII letters change. */
  function LowerChar(c: char): char {
    if 'A' <= c <= 'Z' then (c as int - 'A' as int + 'a' as int) as char else c
  }

  /** `s.lower()`, restricted to the ASCII alphabet: each capital letter
      becomes its small letter, every other character is kept, and no
      capital letter remains. */
  function Lower(s: string): (r: string)
    ensures |r| == |s|
    ensures forall i | 0 <= i < |s| && 'A' <= s[i] <= 'Z' :: r[i] as int == s[i] as int + 32
    ensures forall i | 0 <= i < |s| && !('A' <= s[i] <= 'Z') :: r[i] == s[i]
    ensures forall i | 0 <= i < |r| :: !('A' <= r[i] <= 'Z')
  {
    seq(|s|, i requires 0 <= i < |s| => LowerChar(s[i]))
  }

  /** Lower-casing works character by character, so it distributes over concatenation. */
  lemma LowerConcat(a: string, b: string)
    ensures Lower(a + b) == Lower(a) + Lower(b)
  {
    assert forall i | 0 <= i < |a + b| :: Lower(a + b)[i] == (Lower(a) + Lower(b))[i];
  }

  /** Lower-casing twice is lower-casing once. */
  lemma LowerIdempotent(s: string)
    ensures Lower(Lower(s)) == Lower(s)
  {
  }

  /* ---------------------------------------------------------------------
     Substring containment
     --------------------------------------------------------------------- */

  /** `pat` occurs in `s` starting at index `i`. */
  predicate OccursAt(s: string, pat: string, i: int) {
    0 <= i && i + |pat| <= |s| && s[i..i + |pat|] == pat
  }

  /** Python's `pat in s`, scanning left to right. */
  function Contains(s: string, pat: string): (b: bool)
    ensures b <==> exists i :: OccursAt(s, pat, i)
    decreases |s|
  {
    if |pat| > |s| then
      assert forall i :: !OccursAt(s, pat, i);
      false
    else if s[..|pat|] == pat then
      assert OccursAt(s, pat, 0);
      true
    else
      ContainsStep(s, pat);
      Contains(s[1..], pat)
  }

  /** Occurrences in `s[1..]` are the occurrences in `s` at a positive index, shifted by one. */
  lemma OccursAtShift(s: string, pat: string, i: int)
    requires |s| > 0 && 0 <= i
    ensures OccursAt(s[1..], pat, i) <==> OccursAt(s, pat, i + 1)
  {
    if 0 <= i && i + |pat| <= |s| - 1 {
      assert s[1..][i..i + |pat|] == s[i + 1..i + 1 + |pat|];
    }
  }

  /** An occurrence not at the front is an occurrence in the tail. */
  lemma ContainsStep(s: string, pat: string)
    requires |s| > 0 && !OccursAt(s, pat, 0)
    ensures (exists i :: OccursAt(s, pat, i)) <==> (exists i :: OccursAt(s[1..], pat, i))
  {
    if i :| OccursAt(s, pat, i) {
      OccursAtShift(s, pat, i - 1);
      assert OccursAt(s[1..], pat, i - 1);
    }
    if i :| OccursAt(s[1..], pat, i) {
      OccursAtShift(s, pat, i);
      assert OccursAt(s, pat, i + 1);
    }
  }

  /** Appending text does not change occurrences that end before it. */
  lemma OccursAtPrefix(s: string, t: string, pat: string, j: int)
    requires 0 <= j && j + |pat| <= |s|
    ensures OccursAt(s + t, pat, j) <==> OccursAt(s, pat, j)
  {
    assert (s + t)[j..j + |pat|] == s[j..j + |pat|];
  }

  /** An appended pattern occurs right after the text it is appended to. */
  lemma OccursAtJoin(a: string, pat: string)
    ensures OccursAt(a + pat, pat, |a|)
  {
    assert (a + pat)[|a|..|a| + |pat|] == pat;
  }

  /** A pattern found in the middle piece is found in the whole. */
  lemma ContainsInContext(a: string, b: string, c: string, pat: string)
    requires Contains(b, pat)
    ensures Contains(a + b + c, pat)
  {
    var i :| OccursAt(b, pat, i);
    var s := a + b + c;
    assert s[|a| + i..|a| + i + |pat|] == b[i..i + |pat|];
    assert OccursAt(s, pat, |a| + i);
  }

  /* ---------------------------------------------------------------------
     Replacement
     --------------------------------------------------------------------- */

  /** Python's `s.replace(pat, rep)`: every non-overlapping occurrence of
      `pat`, found left to right, is replaced by `rep`. A replacement no
      longer than the pattern never lengthens the string; what happens to
      each occurrence is stated by `ReplaceAllAbsent` and `ReplaceAllFirst`. */
  function ReplaceAll(s: string, pat: string, rep: string): (r: string)
    requires |pat| > 0
    ensures |rep| <= |pat| ==> |r| <= |s|
    decreases |s|
  {
    if |s| < |pat| then s
    else if s[..|pat|] == pat then rep + ReplaceAll(s[|pat|..], pat, rep)
    else [s[0]] + ReplaceAll(s[1..], pat, rep)
  }

  /** Replacing a pattern that does not occur changes nothing. */
  lemma {:induction false} ReplaceAllAbsent(s: string, pat: string, rep: string)
    requires |pat| > 0
    requires !Contains(s, pat)
    ensures ReplaceAll(s, pat, rep) == s
    decreases |s|
  {
    if |s| >= |pat| {
      assert !OccursAt(s, pat, 0);
      ContainsStep(s, pat);
      ReplaceAllAbsent(s[1..], pat, rep);
      assert s == [s[0]] + s[1..];
    }
  }

  /** The first occurrence of `pat` is replaced, the text before it is kept,
      and replacement resumes after it. */
  lemma {:induction false} ReplaceAllFirst(s: string, pat: string, rep: string, i: int)
    requires |pat| > 0 && OccursAt(s, pat, i)
    requires forall j | 0 <= j < i :: !OccursAt(s, pat, j)
    ensures ReplaceAll(s, pat, rep) == s[..i] + rep + ReplaceAll(s[i + |pat|..], pat, rep)
    decreases i
  {
    if i == 0 {
      ReplaceAllAtFront(s, pat, rep);
    } else {
      NoEarlierInTail(s, pat, i);
      ReplaceAllFirst(s[1..], pat, rep, i - 1);
      ReplaceAllFirstStep(s, pat, rep, i);
    }
  }

  /** An occurrence at the front is replaced at once. */
  lemma ReplaceAllAtFront(s: string, pat: string, rep: string)
    requires |pat| > 0 && OccursAt(s, pat, 0)
    ensures ReplaceAll(s, pat, rep) == s[..0] + rep + ReplaceAll(s[|pat|..], pat, rep)
  {
    assert s[..|pat|] == pat;
    assert s[..0] + rep == rep;
  }

  /** Dropping the first character keeps "first occurrence at `i`" as "first occurrence at `i - 1`". */
  lemma NoEarlierInTail(s: string, pat: string, i: int)
    requires 0 < i && OccursAt(s, pat, i)
    requires forall j | 0 <= j < i :: !OccursAt(s, pat, j)
    ensures OccursAt(s[1..], pat, i - 1)
    ensures forall j | 0 <= j < i - 1 :: !OccursAt(s[1..], pat, j)
  {
    OccursAtShift(s, pat, i - 1);
    forall j | 0 <= j < i - 1
      ensures !OccursAt(s[1..], pat, j)
    {
      OccursAtShift(s, pat, j);
    }
  }

  /** One step of `ReplaceAllFirst`: a non-matching first character is kept. */
  lemma ReplaceAllFirstStep(s: string, pat: string, rep: string, i: int)
    requires |pat| > 0 && 0 < i && i + |pat| <= |s| && !OccursAt(s, pat, 0)
    requires ReplaceAll(s[1..], pat, rep) == s[1..][..i - 1] + rep + ReplaceAll(s[1..][i - 1 + |pat|..], pat, rep)
    ensures ReplaceAll(s, pat, rep) == s[..i] + rep + ReplaceAll(s[i + |pat|..], pat, rep)
  {
    assert s[..|pat|] != pat;
    assert ReplaceAll(s, pat, rep) == [s[0]] + ReplaceAll(s[1..], pat, rep);
    SliceOfTail(s, i, |pat|);
    var z := ReplaceAll(s[i + |pat|..], pat, rep);
    ConsJoin(s, rep, i, z);
  }

  lemma SliceOfTail(s: string, i: int, n: int)
    requires 0 < i && 0 <= n && i + n <= |s|
    ensures s[1..][..i - 1] == s[1..i]
    ensures s[1..][i - 1 + n..] == s[i + n..]
  {
  }

  lemma ConsJoin(s: string, rep: string, i: int, z: string)
    requires 0 < i <= |s|
    ensures [s[0]] + (s[1..i] + rep + z) == s[..i] + rep + z
  {
    assert s[..i] == [s[0]] + s[1..i];
  }

  /** `pat` occurs in `base + pat` at no index inside `base`. */
  predicate OnlyTrailing(base: string, pat: string) {
    forall i | 0 <= i < |base| :: !OccursAt(base + pat, pat, i)
  }

  /** When `pat` first occurs right after `base` and not at all in `tail`,
      replacement turns exactly that occurrence into `rep`. */
  lemma ReplaceAllMiddle(base: string, pat: string, tail: string, rep: string)
    requires |pat| > 0 && OnlyTrailing(base, pat) && !Contains(tail, pat)
    ensures ReplaceAll(base + pat + tail, pat, rep) == base + rep + tail
  {
    var s := base + pat + tail;
    FirstAtJoin(base, pat, tail);
    ReplaceAllFirst(s, pat, rep, |base|);
    assert s[..|base|] == base;
    assert s[|base| + |pat|..] == tail;
    ReplaceAllAbsent(tail, pat, rep);
  }

  /** With `base + pat` holding `pat` only at its end, that is the first
      occurrence in `base + pat + tail`. */
  lemma FirstAtJoin(base: string, pat: string, tail: string)
    requires OnlyTrailing(base, pat)
    ensures OccursAt(base + pat + tail, pat, |base|)
    ensures forall j | 0 <= j < |base| :: !OccursAt(base + pat + tail, pat, j)
  {
    OccursAtJoin(base, pat);
    OccursAtPrefix(base + pat, tail, pat, |base|);
    forall j | 0 <= j < |base|
      ensures !OccursAt(base + pat + tail, pat, j)
    {
      OccursAtPrefix(base + pat, tail, pat, j);
    }
  }

  /** When the only occurrence of `pat` in `base + pat` is the trailing one,
      replacement turns exactly that suffix into `rep`. */
  lemma {:induction false} ReplaceAllTrailing(base: string, pat: string, rep: string)
    requires |pat| > 0
    requires OnlyTrailing(base, pat)
    ensures ReplaceAll(base + pat, pat, rep) == base + rep
    decreases |base|
  {
    var s := base + pat;
    if |base| == 0 {
      assert s == pat;
      assert s[|pat|..] == [];
    } else {
      assert !OccursAt(s, pat, 0);
      assert s[..|pat|] != pat;
      var t := base[1..];
      assert s[1..] == t + pat;
      forall i | 0 <= i < |t|
        ensures !OccursAt(t + pat, pat, i)
      {
        OccursAtShift(s, pat, i);
        assert !OccursAt(s, pat, i + 1);
      }
      ReplaceAllTrailing(t, pat, rep);
      assert ReplaceAll(s, pat, rep) == [s[0]] + ReplaceAll(t + pat, pat, rep);
      assert base == [base[0]] + t;
    }
  }

  /* ---------------------------------------------------------------------
     Decimal formatting
     --------------------------------------------------------------------- */

  const Digits := "0123456789"

  predicate IsDigit(c: char) {
    '0' <= c <= '9'
  }

  function DigitValue(c: char): nat
    requires IsDigit(c)
  {
    c as int - '0' as int
  }

  /** Decimal representation of a natural number, without leading zeros. */
  function NatToString(n: nat): (r: string)
    ensures |r| > 0
    ensures forall i | 0 <= i < |r| :: IsDigit(r[i])
    ensures r[0] == '0' ==> n == 0
    decreases n
  {
    if n < 10 then [Digits[n]] else NatToString(n / 10) + [Digits[n % 10]]
  }

  /** Python's `str(n)` / f-string `{n}` for an integer. */
  function IntToString(n: int): (r: string)
    ensures |r| > 0
    ensures r[0] == '-' <==> n < 0
    ensures forall i | (if n < 0 then 1 else 0) <= i < |r| :: IsDigit(r[i])
  {
    if n < 0 then "-" + NatToString(-n) else NatToString(n)
  }

  /** The value a string of decimal digits denotes. */
  function ParseDigits(s: string): nat
    requires forall i | 0 <= i < |s| :: IsDigit(s[i])
  {
    if |s| == 0 then 0 else ParseDigits(s[..|s| - 1]) * 10 + DigitValue(s[|s| - 1])
  }

  /** Reading back the decimal representation gives the number: the
      formatting loses nothing. */
  lemma {:induction false} NatToStringRoundTrip(n: nat)
    ensures ParseDigits(NatToString(n)) == n
    decreases n
  {
    var r := NatToString(n);
    if n < 10 {
      assert DigitValue(Digits[n]) == n;
    } else {
      NatToStringRoundTrip(n / 10);
      assert r[..|r| - 1] == NatToString(n / 10);
      assert DigitValue(Digits[n % 10]) == n % 10;
    }
  }

  /** Distinct natural numbers are formatted differently. */
  lemma NatToStringInjective(m: nat, n: nat)
    requires NatToString(m) == NatToString(n)
    ensures m == n
  {
    NatToStringRoundTrip(m);
    NatToStringRoundTrip(n);
  }

  /** Distinct integers are formatted differently. */
  lemma IntToStringInjective(m: int, n: int)
    requires IntToString(m) == IntToString(n)
    ensures m == n
  {
    assert IntToString(m)[0] == IntToString(n)[0];
    assert m < 0 <==> n < 0;
    if m < 0 {
      var r := IntToString(m);
      assert r == "-" + NatToString(-m);
      assert r == "-" + NatToString(-n);
      assert r[1..] == NatToString(-m);
      assert r[1..] == NatToString(-n);
      NatToStringInjective(-m, -n);
    } else {
      NatToStringInjective(m, n);
    }
  }
}
