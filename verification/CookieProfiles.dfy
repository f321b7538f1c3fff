/** The names that keep the profiles of one shared jar apart (app/src/cookies.ts): a namespace per pair of
    host root and profile label, and the bucket keys built from it. */
module CookieProfiles {
  import opened CookieStore
  import opened UriText

  const DEFAULT := "default"
  const SEP: char := '\0'
  const UNBOUND := "\0unbound"

  /** No root is the empty string: both are falsy where the source tests them. */
  function Namespace(pid: string, root: string): string {
    if pid == DEFAULT then DEFAULT
    else if root != "" then "client:" + EncodeComponent(root) + ":" + EncodeComponent(pid)
    else "legacy:" + EncodeComponent(pid)
  }

  const UNBOUND_NAMESPACE := Namespace(UNBOUND, "")

  function JarKey(id: string, ns: string): string {
    if ns == DEFAULT then id else ns + [SEP] + id
  }

  predicate InProfile(key: string, ns: string) {
    if ns == DEFAULT then SEP !in key else ns + [SEP] <= key
  }

  /** The default profile is one jar for every root; any other label is private to its root. */
  predicate SameProfile(p: string, r: string, q: string, s: string) {
    p == q && (p == DEFAULT || r == s)
  }

  lemma NoSeparator(pid: string, root: string)
    ensures SEP !in Namespace(pid, root)
    ensures pid != DEFAULT ==> Namespace(pid, root)[0] != 'd'
  {
    hide EncodeComponent;
  }

  lemma {:induction false} SplitAtColon(a: string, b: string, c: string, d: string)
    requires ':' !in a && ':' !in c
    requires a + ":" + b == c + ":" + d
    ensures a == c && b == d
    decreases |a|
  {
    assert (a + ":" + b)[0] == (c + ":" + d)[0];
    assert (a + ":" + b)[1..] == (if a == "" then b else a[1..] + ":" + b);
    assert (c + ":" + d)[1..] == (if c == "" then d else c[1..] + ":" + d);
    if a != "" && c != "" {
      SplitAtColon(a[1..], b, c[1..], d);
      assert a == [a[0]] + a[1..] && c == [c[0]] + c[1..];
    }
  }

  lemma ClientNames(p: string, r: string, q: string, s: string)
    requires "client:" + EncodeComponent(r) + ":" + EncodeComponent(p)
             == "client:" + EncodeComponent(s) + ":" + EncodeComponent(q)
    ensures p == q && r == s
  {
    var x, y, z, w := EncodeComponent(r), EncodeComponent(p), EncodeComponent(s), EncodeComponent(q);
    hide EncodeComponent;
    assert ("client:" + x + ":" + y)[7..] == x + ":" + y;
    assert ("client:" + z + ":" + w)[7..] == z + ":" + w;
    SplitAtColon(x, y, z, w);
    EncodeComponentInjective(r, s);
    EncodeComponentInjective(p, q);
  }

  lemma LegacyNames(p: string, q: string)
    requires "legacy:" + EncodeComponent(p) == "legacy:" + EncodeComponent(q)
    ensures p == q
  {
    var y, w := EncodeComponent(p), EncodeComponent(q);
    hide EncodeComponent;
    assert ("legacy:" + y)[7..] == y;
    assert ("legacy:" + w)[7..] == w;
    EncodeComponentInjective(p, q);
  }

  /** Distinct (root, profile) pairs never share a namespace. */
  lemma NamespacesDistinct(p: string, r: string, q: string, s: string)
    ensures Namespace(p, r) == Namespace(q, s) <==> SameProfile(p, r, q, s)
  {
    hide EncodeComponent;
    if Namespace(p, r) == Namespace(q, s) {
      NoSeparator(p, r);
      NoSeparator(q, s);
      if p != DEFAULT && q != DEFAULT {
        assert Namespace(p, r)[0] == Namespace(q, s)[0];
        if r != "" {
          ClientNames(p, r, q, s);
        } else {
          LegacyNames(p, q);
        }
      }
    }
  }

  lemma PrefixTellsNamespace(n: string, m: string, id: string)
    requires SEP !in n && SEP !in m && m + [SEP] <= n + [SEP] + id
    ensures n == m
  {
    var key := n + [SEP] + id;
    assert key[|m|] == (m + [SEP])[|m|] == SEP && key[|n|] == SEP;
    assert forall i :: 0 <= i < |n| ==> key[i] == n[i];
    assert forall i :: 0 <= i < |m| ==> key[i] == (m + [SEP])[i] == m[i];
    assert |m| == |n|;
    assert n == key[..|n|] == (m + [SEP])[..|m|] == m;
  }

  /** Every bucket key lies in exactly one namespace: its own. */
  lemma KeyHasOneNamespace(id: string, p: string, r: string, q: string, s: string)
    requires SEP !in id
    ensures InProfile(JarKey(id, Namespace(p, r)), Namespace(q, s)) <==> SameProfile(p, r, q, s)
  {
    var n, m := Namespace(p, r), Namespace(q, s);
    NamespacesDistinct(p, r, q, s);
    NoSeparator(p, r);
    NoSeparator(q, s);
    hide Namespace, SameProfile, EncodeComponent;
    var key := JarKey(id, n);
    if n == DEFAULT {
      assert m + [SEP] <= key ==> key[|m|] in key;
    } else {
      assert key[|n|] == SEP;
      if m != DEFAULT && InProfile(key, m) {
        PrefixTellsNamespace(n, m, id);
      }
      if n == m {
        assert n + [SEP] <= key;
      }
    }
  }

  /** No key at all, whoever built it, lies in two namespaces. */
  lemma NamespacesDisjoint(key: string, p: string, r: string, q: string, s: string)
    requires InProfile(key, Namespace(p, r)) && InProfile(key, Namespace(q, s))
    ensures SameProfile(p, r, q, s)
  {
    var n, m := Namespace(p, r), Namespace(q, s);
    NamespacesDistinct(p, r, q, s);
    NoSeparator(p, r);
    NoSeparator(q, s);
    hide Namespace, SameProfile, EncodeComponent;
    if n != DEFAULT {
      assert key[|n|] == (n + [SEP])[|n|] == SEP;
    }
    if m != DEFAULT {
      assert key[|m|] == (m + [SEP])[|m|] == SEP;
    }
    if n != DEFAULT && m != DEFAULT {
      assert key == n + [SEP] + key[|n| + 1..];
      PrefixTellsNamespace(n, m, key[|n| + 1..]);
    }
  }

  // ----- one profile of the jar -----

  /** What the profile holds. */
  function Stored(j: Jars, ns: string): (r: set<Entry>)
    ensures forall e :: e in r <==> Holds(j, e) && InProfile(e.key, ns)
  {
    set e | e in Entries(j) && InProfile(e.key, ns)
  }

  /** Two jars agree on every bucket outside the profile. */
  ghost predicate SameOutside(j: Jars, k: Jars, ns: string) {
    forall key: string :: !InProfile(key, ns) ==>
      (key in j <==> key in k) && (key in j && key in k ==> j[key] == k[key])
  }

  /** A change confined to one profile leaves every other (root, profile) pair exactly what it had. */
  lemma OtherProfilesKeep(j: Jars, k: Jars, p: string, r: string, q: string, s: string)
    requires SameOutside(j, k, Namespace(p, r)) && !SameProfile(p, r, q, s)
    ensures Stored(j, Namespace(q, s)) == Stored(k, Namespace(q, s))
    ensures SameOutside(k, j, Namespace(p, r))
  {
    var n, m := Namespace(p, r), Namespace(q, s);
    forall e: Entry | InProfile(e.key, m) ensures Holds(j, e) <==> Holds(k, e) {
      if InProfile(e.key, n) {
        NamespacesDisjoint(e.key, p, r, q, s);
      }
    }
  }


  lemma WithoutStaysInside(j: Jars, gone: set<Entry>, ns: string)
    requires Settled(j) && forall e <- gone :: InProfile(e.key, ns)
    ensures SameOutside(j, Without(j, gone), ns)
  {
    forall key: string | !InProfile(key, ns)
      ensures key in Without(j, gone) <==> key in j
      ensures key in j ==> Without(j, gone)[key] == j[key]
    {
      WithoutElsewhere(j, gone, key);
    }
  }
}
