/** The JavaScript string searches that several components rely on. */
module Strings {
  import opened Common

  predicate At(s: string, pat: string, i: nat) {
    i + |pat| <= |s| && s[i..i + |pat|] == pat
  }

  /** `s.indexOf(pat, i)`. */
  function Find(s: string, pat: string, i: nat): (r: Option<nat>)
    ensures r.Some? ==> i <= r.value && At(s, pat, r.value) && forall k :: i <= k < r.value ==> !At(s, pat, k)
    ensures r.None? ==> forall k :: i <= k ==> !At(s, pat, k)
    decreases |s| - i
  {
    if i > |s| then None else if At(s, pat, i) then Some(i) else Find(s, pat, i + 1)
  }

  /** The part of the string before the first character of the set. */
  function Before(s: string, stops: set<char>): (r: string)
    ensures r <= s && (forall ch <- r :: ch !in stops)
    ensures |r| < |s| ==> s[|r|] in stops
  {
    if s == [] || s[0] in stops then [] else [s[0]] + Before(s[1..], stops)
  }

  lemma BeforeIsWhole(s: string, stops: set<char>)
    requires forall ch <- s :: ch !in stops
    ensures Before(s, stops) == s
  {
  }

  // ----- the first occurrence -----

  lemma {:induction false} FindIs(s: string, pat: string, i: nat, r: nat)
    requires i <= r && At(s, pat, r) && forall k :: i <= k < r ==> !At(s, pat, k)
    ensures Find(s, pat, i) == Some(r)
    decreases r - i
  {
    if i < r {
      FindIs(s, pat, i + 1, r);
    }
  }

  lemma FindNone(s: string, pat: string, i: nat)
    requires forall k :: i <= k ==> !At(s, pat, k)
    ensures Find(s, pat, i) == None
  {
  }

  /** Where a pattern already fits, more text changes nothing. */
  lemma AtGrows(s: string, x: string, pat: string, i: nat)
    requires i + |pat| <= |s|
    ensures At(s + x, pat, i) <==> At(s, pat, i)
  {
    assert (s + x)[i..i + |pat|] == s[i..i + |pat|];
  }

  lemma FindGrows(s: string, x: string, pat: string, i: nat)
    requires Find(s, pat, i).Some?
    ensures Find(s + x, pat, i) == Find(s, pat, i)
  {
    var r := Find(s, pat, i).value;
    forall k | i <= k <= r ensures At(s + x, pat, k) <==> At(s, pat, k) {
      AtGrows(s, x, pat, k);
    }
    hide At;
    FindIs(s + x, pat, i, r);
  }

  lemma AtDropped(s: string, pat: string, k: nat, i: nat)
    requires k <= |s|
    ensures At(s[k..], pat, i) <==> At(s, pat, k + i)
  {
    if k + i + |pat| <= |s| {
      assert s[k..][i..i + |pat|] == s[k + i..k + i + |pat|];
    }
  }

  /** A prefix without occurrences can be dropped before searching. */
  lemma FindDropped(s: string, pat: string, k: nat)
    requires k <= |s| && forall m :: 0 <= m < k ==> !At(s, pat, m)
    ensures Find(s, pat, 0) ==
      match Find(s[k..], pat, 0) case None => None case Some(r) => Some(k + r)
  {
    var f := Find(s[k..], pat, 0);
    if f.Some? {
      AtDropped(s, pat, k, f.value);
      forall m | 0 <= m < k + f.value ensures !At(s, pat, m) {
        if m >= k {
          AtDropped(s, pat, k, m - k);
        }
      }
      FindIs(s, pat, 0, k + f.value);
    } else {
      forall m | 0 <= m ensures !At(s, pat, m) {
        if m >= k {
          AtDropped(s, pat, k, m - k);
        }
      }
      FindNone(s, pat, 0);
    }
  }

  /** Searching from a point on is searching what is left from there. */
  lemma FindFrom(s: string, pat: string, k: nat, i: nat)
    requires k + i <= |s|
    ensures Find(s, pat, k + i) ==
      match Find(s[k..], pat, i) case None => None case Some(r) => Some(k + r)
  {
    var f := Find(s[k..], pat, i);
    forall m | 0 <= m ensures At(s[k..], pat, m) <==> At(s, pat, k + m) {
      AtDropped(s, pat, k, m);
    }
    if f.Some? {
      forall m | k + i <= m < k + f.value ensures !At(s, pat, m) {
        assert !At(s[k..], pat, m - k);
      }
      FindIs(s, pat, k + i, k + f.value);
    } else {
      forall m | k + i <= m ensures !At(s, pat, m) {
        assert !At(s[k..], pat, m - k);
      }
      FindNone(s, pat, k + i);
    }
  }

  // ----- ASCII case -----

  function LowerChar(c: char): char {
    if 'A' <= c <= 'Z' then c + 32 as char else c
  }

  function Lower(s: string): (r: string)
    ensures |r| == |s| && forall i :: 0 <= i < |s| ==> r[i] == LowerChar(s[i])
  {
    seq(|s|, i requires 0 <= i < |s| => LowerChar(s[i]))
  }

  lemma LowerJoin(a: string, b: string)
    ensures Lower(a + b) == Lower(a) + Lower(b)
  {
  }

  lemma LowerDrop(s: string, k: nat)
    requires k <= |s|
    ensures Lower(s[k..]) == Lower(s)[k..]
  {
  }
}
