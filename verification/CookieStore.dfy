/** The jar as a value: buckets of cookies under one key per setting origin and profile, what removing a set
    of cookies leaves of it, and the order that eviction and the Cookie header sort by
    (app/src/cookies.ts). */
module CookieStore {
  import opened CookieRules

  type Jars = map<string, seq<Cookie>>

  /** One stored cookie and the bucket it sits in. */
  datatype Entry = Entry(key: string, cookie: Cookie)

  predicate Holds(j: Jars, e: Entry) {
    e.key in j && e.cookie in j[e.key]
  }

  function Entries(j: Jars): (r: set<Entry>)
    ensures forall e :: e in r <==> Holds(j, e)
  {
    set k, c | k in j && c in j[k] :: Entry(k, c)
  }

  predicate OncePerIdentity(list: seq<Cookie>) {
    forall a, b :: 0 <= a < b < |list| ==> IdentityOf(list[a]) != IdentityOf(list[b])
  }

  /** No bucket is empty, and none holds two cookies of one identity. */
  predicate Settled(j: Jars) {
    forall k <- j.Keys :: j[k] != [] && OncePerIdentity(j[k])
  }

  // ----- removal -----

  /** The cookies of one bucket that are not gone, in their order. */
  function Kept(list: seq<Cookie>, key: string, gone: set<Entry>): (r: seq<Cookie>)
    ensures |r| <= |list|
    ensures forall c :: c in r <==> c in list && Entry(key, c) !in gone
    decreases |list|
  {
    if list == [] then []
    else if Entry(key, list[0]) in gone then Kept(list[1..], key, gone)
    else [list[0]] + Kept(list[1..], key, gone)
  }

  /** The jar after removing a set of cookies: emptied buckets disappear. */
  function Without(j: Jars, gone: set<Entry>): (r: Jars)
    ensures forall e :: Holds(r, e) <==> Holds(j, e) && e !in gone
    ensures forall k <- r.Keys :: r[k] != []
  {
    map k | k in j && Kept(j[k], k, gone) != [] :: Kept(j[k], k, gone)
  }

  lemma {:induction false} KeptAll(list: seq<Cookie>, key: string, gone: set<Entry>)
    requires forall c <- list :: Entry(key, c) !in gone
    ensures Kept(list, key, gone) == list
    decreases |list|
  {
    if list != [] {
      KeptAll(list[1..], key, gone);
    }
  }

  lemma {:induction false} KeptTwice(list: seq<Cookie>, key: string, g: set<Entry>, h: set<Entry>)
    ensures Kept(Kept(list, key, g), key, h) == Kept(list, key, g + h)
    decreases |list|
  {
    if list != [] {
      KeptTwice(list[1..], key, g, h);
      var rest := Kept(list[1..], key, g);
      assert ([list[0]] + rest)[1..] == rest;
    }
  }

  lemma {:induction false} KeptOnce(list: seq<Cookie>, key: string, gone: set<Entry>)
    requires OncePerIdentity(list)
    ensures OncePerIdentity(Kept(list, key, gone))
    decreases |list|
  {
    if list != [] {
      KeptOnce(list[1..], key, gone);
      var rest := Kept(list[1..], key, gone);
      forall c <- rest ensures IdentityOf(c) != IdentityOf(list[0]) {
        assert c in list[1..];
      }
    }
  }

  lemma WithoutTwiceAt(j: Jars, g: set<Entry>, h: set<Entry>, k: string)
    ensures k in Without(Without(j, g), h) <==> k in Without(j, g + h)
    ensures k in Without(j, g + h) ==> Without(Without(j, g), h)[k] == Without(j, g + h)[k]
  {
    if k in j {
      KeptTwice(j[k], k, g, h);
      assert Kept([], k, h) == [];
    }
  }

  lemma WithoutTwice(j: Jars, g: set<Entry>, h: set<Entry>)
    ensures Without(Without(j, g), h) == Without(j, g + h)
  {
    forall k: string
      ensures k in Without(Without(j, g), h) <==> k in Without(j, g + h)
      ensures k in Without(j, g + h) ==> Without(Without(j, g), h)[k] == Without(j, g + h)[k]
    {
      WithoutTwiceAt(j, g, h, k);
    }
    hide *;
  }

  lemma WithoutSettled(j: Jars, gone: set<Entry>)
    requires Settled(j)
    ensures Settled(Without(j, gone))
  {
    forall k <- Without(j, gone).Keys ensures OncePerIdentity(Without(j, gone)[k]) {
      KeptOnce(j[k], k, gone);
    }
  }

  /** A bucket that loses nothing is untouched. */
  lemma WithoutElsewhere(j: Jars, gone: set<Entry>, k: string)
    requires k in j ==> j[k] != []
    requires forall e <- gone :: e.key != k
    ensures k in Without(j, gone) <==> k in j
    ensures k in j ==> Without(j, gone)[k] == j[k]
  {
    if k in j {
      KeptAll(j[k], k, gone);
    }
  }

  lemma WithoutNothing(j: Jars, gone: set<Entry>)
    requires Settled(j) && forall e <- gone :: !Holds(j, e)
    ensures Without(j, gone) == j
  {
    forall k <- j.Keys ensures Kept(j[k], k, gone) == j[k] {
      forall c <- j[k] ensures Entry(k, c) !in gone {
        assert Holds(j, Entry(k, c));
      }
      KeptAll(j[k], k, gone);
    }
  }

  // ----- lists of entries -----

  predicate Distinct(s: seq<Entry>) {
    forall a, b :: 0 <= a < b < |s| ==> s[a] != s[b]
  }

  function Members(s: seq<Entry>): (r: set<Entry>)
    ensures forall e :: e in r <==> e in s
  {
    set e | e in s
  }

  lemma {:induction false} DistinctCount(s: seq<Entry>)
    requires Distinct(s)
    ensures |Members(s)| == |s|
    decreases |s|
  {
    if s != [] {
      var front := s[..|s| - 1];
      DistinctCount(front);
      assert Members(s) == Members(front) + {s[|s| - 1]};
      assert s[|s| - 1] !in front;
    }
  }

  /** A bucket without repeats, as entries. */
  function Tagged(key: string, list: seq<Cookie>): (r: seq<Entry>)
    ensures |r| == |list| && forall i :: 0 <= i < |r| ==> r[i] == Entry(key, list[i])
  {
    seq(|list|, i requires 0 <= i < |list| => Entry(key, list[i]))
  }

  // ----- stable sorting by a pair of numbers -----

  type Rank = Cookie -> (int, int)

  predicate Leq(a: (int, int), b: (int, int)) {
    a.0 < b.0 || (a.0 == b.0 && a.1 <= b.1)
  }

  predicate Sorted(s: seq<Entry>, rank: Rank) {
    forall a, b :: 0 <= a < b < |s| ==> Leq(rank(s[a].cookie), rank(s[b].cookie))
  }

  /** `e` after every entry that does not come later: the stable place. */
  function Insert(s: seq<Entry>, e: Entry, rank: Rank): (r: seq<Entry>)
    ensures |r| == |s| + 1
    ensures forall x :: x in r <==> x in s || x == e
    decreases |s|
  {
    if s == [] then [e]
    else if Leq(rank(s[0].cookie), rank(e.cookie)) then [s[0]] + Insert(s[1..], e, rank)
    else [e] + s
  }

  function Sort(s: seq<Entry>, rank: Rank): (r: seq<Entry>)
    ensures |r| == |s|
    ensures forall x :: x in r <==> x in s
    decreases |s|
  {
    if s == [] then [] else Insert(Sort(s[..|s| - 1], rank), s[|s| - 1], rank)
  }

  lemma {:induction false} InsertSorts(s: seq<Entry>, e: Entry, rank: Rank)
    requires Sorted(s, rank)
    ensures Sorted(Insert(s, e, rank), rank)
    decreases |s|
  {
    if s != [] && Leq(rank(s[0].cookie), rank(e.cookie)) {
      InsertSorts(s[1..], e, rank);
      var r := Insert(s[1..], e, rank);
      forall b | 0 <= b < |r| ensures Leq(rank(s[0].cookie), rank(r[b].cookie)) {
        assert r[b] in r;
      }
    }
  }

  lemma {:induction false} InsertDistinct(s: seq<Entry>, e: Entry, rank: Rank)
    requires Distinct(s) && e !in s
    ensures Distinct(Insert(s, e, rank))
    decreases |s|
  {
    if s != [] && Leq(rank(s[0].cookie), rank(e.cookie)) {
      InsertDistinct(s[1..], e, rank);
      var r := Insert(s[1..], e, rank);
      forall b | 0 <= b < |r| ensures r[b] != s[0] {
        assert r[b] in r;
      }
    }
  }

  lemma {:induction false} SortSorts(s: seq<Entry>, rank: Rank)
    ensures Sorted(Sort(s, rank), rank)
    ensures Distinct(s) ==> Distinct(Sort(s, rank))
    decreases |s|
  {
    if s != [] {
      var front := s[..|s| - 1];
      var e := s[|s| - 1];
      SortSorts(front, rank);
      InsertSorts(Sort(front, rank), e, rank);
      if Distinct(s) {
        assert e !in front;
        InsertDistinct(Sort(front, rank), e, rank);
      }
    }
  }
}
