/** The string halves of a committed query route (app/src/codec.ts): the search split at "&", and the
    escape that keeps a committed path from opening with two slashes. */
module QueryText {
  // ----- split and join at "&" -----

  function Split(s: string): (parts: seq<string>)
    ensures |parts| >= 1
    ensures forall p <- parts :: '&' !in p
  {
    if s == "" then [""]
    else
      var rest := Split(s[1..]);
      if s[0] == '&' then [""] + rest else [[s[0]] + rest[0]] + rest[1..]
  }

  function Join(parts: seq<string>): string {
    if parts == [] then "" else if |parts| == 1 then parts[0] else parts[0] + "&" + Join(parts[1..])
  }

  lemma {:induction false} JoinSplit(s: string)
    ensures Join(Split(s)) == s
  {
    if s != "" {
      var rest := Split(s[1..]);
      JoinSplit(s[1..]);
      if s[0] == '&' {
        assert ([""] + rest)[1..] == rest;
        assert Join(Split(s)) == "" + "&" + Join(rest);
      } else {
        var head := [s[0]] + rest[0];
        assert ([head] + rest[1..])[1..] == rest[1..];
        assert Join(Split(s)) == [s[0]] + Join(rest);
      }
    }
  }

  lemma {:induction false} SplitAppend(p: string, s: string)
    requires '&' !in p
    ensures Split(p + "&" + s) == [p] + Split(s)
  {
    if p == "" {
      assert (p + "&" + s)[1..] == s;
    } else {
      assert (p + "&" + s)[1..] == p[1..] + "&" + s;
      SplitAppend(p[1..], s);
      assert [p[0]] + p[1..] == p;
    }
  }

  lemma {:induction false} SplitOne(p: string)
    requires '&' !in p
    ensures Split(p) == [p]
  {
    if p != "" {
      SplitOne(p[1..]);
      assert [p[0]] + p[1..] == p;
    }
  }

  lemma {:induction false} SplitJoin(parts: seq<string>)
    requires parts != [] && forall p <- parts :: '&' !in p
    ensures Split(Join(parts)) == parts
  {
    if |parts| == 1 {
      SplitOne(parts[0]);
    } else {
      SplitJoin(parts[1..]);
      SplitAppend(parts[0], Join(parts[1..]));
    }
  }

  lemma {:induction false} JoinSnoc(parts: seq<string>, p: string)
    requires parts != []
    ensures Join(parts + [p]) == Join(parts) + "&" + p
  {
    var all := parts + [p];
    assert all[1..] == parts[1..] + [p];
    if |parts| > 1 {
      JoinSnoc(parts[1..], p);
    } else {
      assert all[1..] == [p];
    }
  }

  // ----- leading slashes -----

  function Slashes(p: string): (n: nat)
    ensures n <= |p| && (n < |p| ==> p[n] != '/')
    ensures forall i :: 0 <= i < n ==> p[i] == '/'
  {
    if p == "" || p[0] != '/' then 0 else 1 + Slashes(p[1..])
  }

  function Repeat(s: string, n: nat): string {
    if n == 0 then "" else s + Repeat(s, n - 1)
  }

  const ESCAPED := "%2F"

  /** The number of "%2F" a string opens with. */
  function Escapes(p: string): (n: nat)
    ensures 3 * n <= |p| && !(ESCAPED <= p[3 * n..])
  {
    if ESCAPED <= p then
      var n := Escapes(p[3..]);
      assert p[3..][3 * n..] == p[3 * (n + 1)..];
      n + 1
    else 0
  }

  /** `escapeLeadingSlashes`: every leading slash after the first becomes "%2F". */
  function EscapeLeadingSlashes(path: string): string {
    var n := Slashes(path);
    if n < 2 then path else "/" + Repeat(ESCAPED, n - 1) + path[n..]
  }

  /** `restoreLeadingSlashes`: a run of "%2F" after the first slash becomes slashes. */
  function RestoreLeadingSlashes(path: string): string {
    if path == "" || path[0] != '/' then path
    else
      var n := Escapes(path[1..]);
      "/" + Repeat("/", n) + path[1 + 3 * n..]
  }

  /** The paths the escape cannot tell apart from its own output. */
  predicate SlashesThenEscape(path: string) {
    Slashes(path) >= 1 && ESCAPED <= path[Slashes(path)..]
  }

  lemma EscapesStep(q: string)
    ensures Escapes(ESCAPED + q) == 1 + Escapes(q)
  {
    assert (ESCAPED + q)[3..] == q;
  }

  lemma {:induction false} EscapesOfRepeat(n: nat, rest: string)
    ensures Escapes(Repeat(ESCAPED, n) + rest) == n + Escapes(rest)
  {
    hide Escapes;
    if n == 0 {
      assert Repeat(ESCAPED, n) + rest == rest;
    } else {
      var q := Repeat(ESCAPED, n - 1) + rest;
      EscapesOfRepeat(n - 1, rest);
      EscapesStep(q);
      assert Repeat(ESCAPED, n) + rest == ESCAPED + q;
    }
  }

  lemma {:induction false} EscapedRunLength(n: nat)
    ensures |Repeat(ESCAPED, n)| == 3 * n
  {
    if n > 0 {
      EscapedRunLength(n - 1);
    }
  }

  lemma {:induction false} SlashRun(n: nat)
    ensures |Repeat("/", n)| == n && forall i :: 0 <= i < n ==> Repeat("/", n)[i] == '/'
  {
    if n > 0 {
      SlashRun(n - 1);
    }
  }

  lemma DropRun(run: string, rest: string, n: nat, k: nat)
    requires |run| == n && k <= |rest|
    ensures (run + rest)[n + k..] == rest[k..]
  {
  }

  /** What the restore makes of a slash and what follows it. */
  lemma RestoreIs(q: string)
    ensures RestoreLeadingSlashes("/" + q) == "/" + Repeat("/", Escapes(q)) + q[3 * Escapes(q)..]
  {
    var path := "/" + q;
    assert path[1..] == q;
    hide Escapes, Repeat;
    var m := 3 * Escapes(q);
    assert path[1 + m..] == q[m..];
  }

  lemma RestoreOfRun(n: nat, rest: string)
    ensures RestoreLeadingSlashes("/" + (Repeat(ESCAPED, n) + rest))
         == "/" + Repeat("/", n + Escapes(rest)) + rest[3 * Escapes(rest)..]
  {
    hide *;
    var run := Repeat(ESCAPED, n);
    var k := Escapes(rest);
    EscapesOfRepeat(n, rest);
    EscapedRunLength(n);
    RestoreIs(run + rest);
    DropRun(run, rest, 3 * n, 3 * k);
  }

  lemma EscapeShape(path: string)
    requires Slashes(path) >= 1
    ensures EscapeLeadingSlashes(path) == "/" + (Repeat(ESCAPED, Slashes(path) - 1) + path[Slashes(path)..])
  {
    hide Slashes;
    var n := Slashes(path);
    if n < 2 {
      OneSlash(path);
    } else {
      Regrouped(Repeat(ESCAPED, n - 1), path[n..]);
    }
  }

  lemma Regrouped(run: string, rest: string)
    ensures "/" + run + rest == "/" + (run + rest)
  {
  }

  lemma OneSlash(path: string)
    requires Slashes(path) == 1
    ensures path == "/" + (Repeat(ESCAPED, 0) + path[1..])
  {
    assert path[0] == '/';
  }

  /** Escape then restore: the slashes that were there, those that were spelled "%2F", then the rest. */
  lemma RestoreOfEscape(path: string)
    requires Slashes(path) >= 1
    ensures var n := Slashes(path); var rest := path[n..];
      RestoreLeadingSlashes(EscapeLeadingSlashes(path))
      == "/" + Repeat("/", n - 1 + Escapes(rest)) + rest[3 * Escapes(rest)..]
  {
    hide Escapes, RestoreLeadingSlashes, Slashes, Repeat, EscapeLeadingSlashes;
    var n := Slashes(path);
    EscapeShape(path);
    RestoreOfRun(n - 1, path[n..]);
  }

  lemma LeaveOthersAlone(path: string)
    requires Slashes(path) == 0
    ensures RestoreLeadingSlashes(EscapeLeadingSlashes(path)) == path
  {
  }

  lemma SlashesBack(path: string)
    requires Slashes(path) >= 1
    ensures path == "/" + Repeat("/", Slashes(path) - 1) + path[Slashes(path)..]
  {
    hide Slashes, Repeat;
    SlashRun(Slashes(path) - 1);
  }

  /** The path half of a query route is exact for every path except those: and never exact for them. */
  lemma EscapeIsExact(path: string)
    ensures RestoreLeadingSlashes(EscapeLeadingSlashes(path)) == path <==> !SlashesThenEscape(path)
  {
    hide RestoreLeadingSlashes, EscapeLeadingSlashes, Slashes;
    if Slashes(path) == 0 {
      LeaveOthersAlone(path);
    } else {
      SlashedIsExact(path);
    }
  }

  lemma SlashedIsExact(path: string)
    requires Slashes(path) >= 1
    ensures RestoreLeadingSlashes(EscapeLeadingSlashes(path)) == path <==> !SlashesThenEscape(path)
  {
    var rest := path[Slashes(path)..];
    assert Escapes(rest) == 0 <==> !(ESCAPED <= rest);
    hide RestoreLeadingSlashes, EscapeLeadingSlashes, Slashes, Escapes;
    if Escapes(rest) == 0 {
      SlashedComesBack(path);
    } else {
      SpelledIsLost(path);
    }
  }

  lemma SlashedComesBack(path: string)
    requires Slashes(path) >= 1 && Escapes(path[Slashes(path)..]) == 0
    ensures RestoreLeadingSlashes(EscapeLeadingSlashes(path)) == path
  {
    hide *;
    RestoreOfEscape(path);
    SlashesBack(path);
    assert path[Slashes(path)..][0..] == path[Slashes(path)..];
  }

  lemma SlashDiffers(path: string, run: string, rest: string, n: nat)
    requires 1 <= n <= |run| && run[n - 1] == '/' && n < |path| && path[n] == '%'
    ensures "/" + run + rest != path
  {
    assert ("/" + run + rest)[n] == run[n - 1];
  }

  lemma SpelledAt(path: string, n: nat)
    requires n <= |path| && Escapes(path[n..]) >= 1
    ensures n < |path| && path[n] == '%'
  {
    assert path[n..][0] == ESCAPED[0];
  }

  /** Where the spelled slash stood there is a slash now. */
  lemma SpelledIsLost(path: string)
    requires Slashes(path) >= 1 && Escapes(path[Slashes(path)..]) >= 1
    ensures RestoreLeadingSlashes(EscapeLeadingSlashes(path)) != path
  {
    hide *;
    var n := Slashes(path);
    var rest := path[n..];
    var k := Escapes(rest);
    SpelledAt(path, n);
    RestoreOfEscape(path);
    SlashRun(n - 1 + k);
    SlashDiffers(path, Repeat("/", n - 1 + k), rest[3 * k..], n);
  }

  /** The escaped path never opens with two slashes. */
  lemma EscapedOpensOnce(path: string)
    ensures Slashes(EscapeLeadingSlashes(path)) <= 1
    ensures Slashes(path) >= 2 ==> "/%2F" <= EscapeLeadingSlashes(path)
  {
    var n := Slashes(path);
    if n >= 2 {
      var esc := EscapeLeadingSlashes(path);
      assert Repeat(ESCAPED, n - 1) == ESCAPED + Repeat(ESCAPED, n - 2);
      assert esc == "/%2F" + (Repeat(ESCAPED, n - 2) + path[n..]);
      assert esc[1] == '%';
    }
  }
}
