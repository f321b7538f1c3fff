/** The next tag of a text, as both streaming scanners look for it (app/src/importmaps.ts, app/src/sri.ts). */
module Tags {
  import opened Common
  import opened Strings

  /** No "<" at all; a "<" with the text from there, its ">" still to come; or a whole tag and the text after. */
  datatype Cut = NoTag | Unfinished(held: string) | Tag(tag: string, rest: string)

  /** The tag that begins at i. */
  function CutAt(p: string, i: nat): (r: Cut)
    requires i < |p|
    ensures r.Tag? ==> |r.rest| < |p|
    ensures r.Unfinished? ==> |r.held| <= |p|
    ensures !r.NoTag?
  {
    var gt := Find(p, ">", i);
    if gt.None? then Unfinished(p[i..]) else Tag(p[i..gt.value + 1], p[gt.value + 1..])
  }

  function NextTag(p: string): (r: Cut)
    ensures r.Tag? ==> |r.rest| < |p|
    ensures r.Unfinished? ==> |r.held| <= |p|
  {
    var lt := Find(p, "<", 0);
    if lt.None? then NoTag else CutAt(p, lt.value)
  }

  /** A whole tag: from a "<" to the first ">" behind it. */
  predicate WholeTag(t: string) {
    |t| >= 2 && t[0] == '<' && t[|t| - 1] == '>' && forall k :: 0 <= k < |t| - 1 ==> t[k] != '>'
  }

  lemma OneChar(p: string, c: char, k: nat)
    ensures At(p, [c], k) <==> k < |p| && p[k] == c
  {
    if k < |p| {
      assert p[k..k + 1] == [p[k]];
    }
  }

  /** The next tag of a text that begins with one. */
  lemma TagIsNext(t: string, rest: string)
    requires WholeTag(t)
    ensures NextTag(t + rest) == Tag(t, rest)
  {
    var p := t + rest;
    OneChar(p, '<', 0);
    FindIs(p, "<", 0, 0);
    forall k | 0 <= k < |t| - 1 ensures !At(p, ">", k) {
      OneChar(p, '>', k);
    }
    OneChar(p, '>', |t| - 1);
    FindIs(p, ">", 0, |t| - 1);
    assert p[0..|t|] == t && p[|t|..] == rest;
    hide Find, At;
  }

  /** Plain text in front of a text. */
  lemma PlainIsNoTag(t: string, rest: string)
    requires '<' !in t
    ensures NextTag(t + rest) == NextTag(rest)
  {
    var p := t + rest;
    forall m | 0 <= m < |t| ensures !At(p, "<", m) {
      OneChar(p, '<', m);
      assert t[m] in t;
    }
    PlainIsSkipped(p, |t|);
    assert p[|t|..] == rest;
  }

  lemma SlicesDrop(p: string, k: nat, i: nat, j: nat)
    requires k + i <= k + j <= |p|
    ensures p[k..][i..] == p[k + i..] && p[k..][j..] == p[k + j..] && p[k..][i..j] == p[k + i..k + j]
  {
  }

  lemma CutDropped(p: string, k: nat, i: nat)
    requires k + i < |p|
    ensures CutAt(p[k..], i) == CutAt(p, k + i)
  {
    FindFrom(p, ">", k, i);
    var gt := Find(p[k..], ">", i);
    hide At, Find;
    SlicesDrop(p, k, i, if gt.Some? then gt.value + 1 else i);
  }

  /** Text before the first "<" does not matter. */
  lemma PlainIsSkipped(p: string, k: nat)
    requires k <= |p| && forall m :: 0 <= m < k ==> !At(p, "<", m)
    ensures NextTag(p) == NextTag(p[k..])
  {
    FindDropped(p, "<", k);
    var lt := Find(p[k..], "<", 0);
    hide Find, CutAt;
    if lt.Some? {
      CutDropped(p, k, lt.value);
    }
  }

  lemma SlicesGrow(p: string, x: string, i: nat, j: nat)
    requires i <= j < |p|
    ensures (p + x)[i..j + 1] == p[i..j + 1] && (p + x)[j + 1..] == p[j + 1..] + x
  {
  }

  /** More text changes nothing about a whole tag. */
  lemma TagGrows(p: string, x: string)
    requires NextTag(p).Tag?
    ensures NextTag(p + x) == Tag(NextTag(p).tag, NextTag(p).rest + x)
  {
    var i := Find(p, "<", 0).value;
    var j := Find(p, ">", i).value;
    hide At, Find;
    FindGrows(p, x, "<", 0);
    FindGrows(p, x, ">", i);
    SlicesGrow(p, x, i, j);
  }

  /** Text without a "<" can be forgotten. */
  lemma NoTagGrows(p: string, x: string)
    requires NextTag(p).NoTag?
    ensures NextTag(p + x) == NextTag(x)
  {
    forall m | 0 <= m < |p| ensures !At(p + x, "<", m) {
      AtGrows(p, x, "<", m);
    }
    PlainIsSkipped(p + x, |p|);
    assert (p + x)[|p|..] == x;
  }

  lemma NoneBefore(p: string, x: string, i: nat)
    requires Find(p, "<", 0) == Some(i)
    ensures i <= |p + x| && forall m :: 0 <= m < i ==> !At(p + x, "<", m)
    ensures (p + x)[i..] == p[i..] + x
  {
    forall m | 0 <= m < i ensures !At(p + x, "<", m) {
      AtGrows(p, x, "<", m);
    }
  }

  /** An unfinished tag is all that has to be held. */
  lemma UnfinishedGrows(p: string, x: string)
    requires NextTag(p).Unfinished?
    ensures NextTag(p + x) == NextTag(NextTag(p).held + x)
  {
    var i := Find(p, "<", 0).value;
    assert NextTag(p).held == p[i..];
    NoneBefore(p, x, i);
    hide NextTag, Find, At;
    PlainIsSkipped(p + x, i);
  }
}
