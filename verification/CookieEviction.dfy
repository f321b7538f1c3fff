/** RFC 6265 section 6.1 limits (app/src/cookies.ts): the three passes of the eviction sweep, as relations on
    what they remove, and what holds of the profile afterwards. */
module CookieEviction {
  import opened Common
  import opened CookieRules
  import opened CookieStore

  const MAX_PER_DOMAIN := 50
  const MAX_TOTAL := 3000
  const SESSION_RANK := 9007199254740991

  /** Soonest expiry first, session cookies last, then the earliest created. */
  function EvictRank(c: Cookie): (int, int) {
    (if c.expires == 0 then SESSION_RANK else c.expires, c.created)
  }

  /** The order of eviction: the sooner expiry first, session cookies behind every expiry below 2^53 - 1, and of two
      that end together the earlier created one. */
  predicate GoesNoLater(x: Cookie, y: Cookie) {
    if x.expires == y.expires then x.created <= y.created
    else if y.expires == 0 then
      x.expires < 9007199254740991 || (x.expires == 9007199254740991 && x.created <= y.created)
    else if x.expires == 0 then
      9007199254740991 < y.expires || (y.expires == 9007199254740991 && x.created <= y.created)
    else x.expires < y.expires
  }

  lemma RankMeaning(x: Cookie, y: Cookie)
    ensures Leq(EvictRank(x), EvictRank(y)) <==> GoesNoLater(x, y)
  {
  }

  function OfDomain(pool: set<Entry>, d: string): (r: set<Entry>)
    ensures forall e :: e in r <==> e in pool && e.cookie.domain == d
  {
    set e | e in pool && e.cookie.domain == d
  }

  function Excess(n: nat, cap: nat): nat {
    if n > cap then n - cap else 0
  }

  /** `gone` is exactly n entries of the pool, never the shielded one, and none of them sorts later than an
      unshielded entry that stays. */
  predicate Cheapest(pool: set<Entry>, shield: Option<Entry>, n: nat, gone: set<Entry>) {
    && gone <= pool && |gone| == n
    && (shield.Some? ==> shield.value !in gone)
    && forall x <- gone, y <- pool - gone :: shield != Some(y) ==> GoesNoLater(x.cookie, y.cookie)
  }

  /** A pass over one pool brings it down to its cap. */
  predicate Trimmed(pool: set<Entry>, shield: Option<Entry>, cap: nat, gone: set<Entry>) {
    Cheapest(pool, shield, Excess(|pool|, cap), gone)
  }

  function Unshielded(s: seq<Entry>, shield: Option<Entry>): (r: seq<Entry>)
    ensures forall e :: e in r <==> e in s && shield != Some(e)
    ensures |r| <= |s|
    decreases |s|
  {
    if s == [] then []
    else (if shield == Some(s[0]) then [] else [s[0]]) + Unshielded(s[1..], shield)
  }

  /** What one eviction picks: sort the candidates, take the first ones. */
  function Doomed(s: seq<Entry>, shield: Option<Entry>, n: nat): (r: seq<Entry>) {
    Take(Sort(Unshielded(s, shield), EvictRank), n)
  }

  lemma {:induction false} UnshieldedDistinct(s: seq<Entry>, shield: Option<Entry>)
    requires Distinct(s)
    ensures Distinct(Unshielded(s, shield))
    ensures |s| - 1 <= |Unshielded(s, shield)|
    ensures (shield.Some? ==> shield.value !in s) ==> |Unshielded(s, shield)| == |s|
    decreases |s|
  {
    if s != [] {
      UnshieldedDistinct(s[1..], shield);
      assert s[0] !in s[1..];
    }
  }

  lemma FirstComeFirst(t: seq<Entry>, n: nat, x: Entry, y: Entry)
    requires Sorted(t, EvictRank) && n <= |t|
    requires x in t[..n] && y in t && y !in t[..n]
    ensures GoesNoLater(x.cookie, y.cookie)
  {
    RankMeaning(x.cookie, y.cookie);
    hide EvictRank, Leq, GoesNoLater;
    var a :| 0 <= a < n && t[..n][a] == x;
    var b :| 0 <= b < |t| && t[b] == y;
    assert forall i :: 0 <= i < n ==> t[i] == t[..n][i] && t[i] in t[..n];
  }

  lemma DoomedIsCheapest(s: seq<Entry>, shield: Option<Entry>, n: nat)
    requires Distinct(s) && n < |s|
    ensures Cheapest(Members(s), shield, n, Members(Doomed(s, shield, n)))
    ensures |Doomed(s, shield, n)| == n && Distinct(Doomed(s, shield, n))
  {
    var u := Unshielded(s, shield);
    UnshieldedDistinct(s, shield);
    SortSorts(u, EvictRank);
    var t := Sort(u, EvictRank);
    var r := Doomed(s, shield, n);
    assert r == t[..n];
    assert Distinct(r);
    DistinctCount(r);
    hide Sort, Unshielded, Doomed, EvictRank, Leq, Distinct, GoesNoLater;
    forall x <- Members(r), y <- Members(s) - Members(r) | shield != Some(y)
      ensures GoesNoLater(x.cookie, y.cookie)
    {
      FirstComeFirst(t, n, x, y);
    }
  }

  // ----- the sweep -----

  function ExpiredIn(pool: set<Entry>, now: int): (r: set<Entry>)
    ensures forall e :: e in r <==> e in pool && !Live(e.cookie, now)
  {
    set e | e in pool && !Live(e.cookie, now)
  }

  /** The three passes: the expired, then the overflow of each stored Domain, then the overflow of the
      whole profile. */
  ghost predicate Passes(pool: set<Entry>, now: int, shield: Option<Entry>,
                         expired: set<Entry>, crowded: set<Entry>, surplus: set<Entry>) {
    && expired == ExpiredIn(pool, now)
    && crowded <= pool - expired
    && (forall d: string :: Trimmed(OfDomain(pool - expired, d), shield, MAX_PER_DOMAIN, OfDomain(crowded, d)))
    && Trimmed(pool - expired - crowded, shield, MAX_TOTAL, surplus)
  }

  /** The profile is within its limits. */
  ghost predicate WithinCaps(pool: set<Entry>) {
    |pool| <= 3000 && forall d: string :: |OfDomain(pool, d)| <= 50
  }

  lemma SubsetCount(a: set<Entry>, b: set<Entry>)
    requires a <= b
    ensures |a| <= |b| && |b - a| == |b| - |a|
  {
    assert b == a + (b - a);
  }

  lemma TrimmedFits(pool: set<Entry>, shield: Option<Entry>, cap: nat, gone: set<Entry>)
    requires Trimmed(pool, shield, cap, gone)
    ensures |pool - gone| <= cap
    ensures |pool| <= cap ==> gone == {}
  {
    SubsetCount(gone, pool);
  }

  /** After the three passes only live cookies are left, within both limits, and the shielded one survives. */
  lemma PassesFit(pool: set<Entry>, now: int, shield: Option<Entry>,
                  expired: set<Entry>, crowded: set<Entry>, surplus: set<Entry>)
    requires Passes(pool, now, shield, expired, crowded, surplus)
    ensures var left := pool - (expired + crowded + surplus);
      && WithinCaps(left)
      && (forall e <- left :: Live(e.cookie, now))
      && (shield.Some? && shield.value in pool && Live(shield.value.cookie, now) ==> shield.value in left)
  {
    var left := pool - (expired + crowded + surplus);
    var rest := pool - expired - crowded;
    assert left == rest - surplus;
    TrimmedFits(rest, shield, MAX_TOTAL, surplus);
    forall d: string ensures |OfDomain(left, d)| <= MAX_PER_DOMAIN {
      TrimmedFits(OfDomain(pool - expired, d), shield, MAX_PER_DOMAIN, OfDomain(crowded, d));
      SubsetCount(OfDomain(left, d), OfDomain(pool - expired, d) - OfDomain(crowded, d));
    }
    assert shield.Some? ==> shield.value !in OfDomain(crowded, shield.value.cookie.domain);
  }

  /** Each evicted cookie sorts no later than any unshielded survivor of its own pass. */
  lemma EvictedSortNoLater(pool: set<Entry>, now: int, shield: Option<Entry>,
                           expired: set<Entry>, crowded: set<Entry>, surplus: set<Entry>)
    requires Passes(pool, now, shield, expired, crowded, surplus)
    ensures forall x <- crowded, y <- pool - expired - crowded ::
      x.cookie.domain == y.cookie.domain && shield != Some(y) ==> GoesNoLater(x.cookie, y.cookie)
    ensures forall x <- surplus, y <- pool - expired - crowded - surplus ::
      shield != Some(y) ==> GoesNoLater(x.cookie, y.cookie)
  {
    hide GoesNoLater, Excess;
    forall x <- crowded, y <- pool - expired - crowded | x.cookie.domain == y.cookie.domain && shield != Some(y)
      ensures GoesNoLater(x.cookie, y.cookie)
    {
      var d := x.cookie.domain;
      assert Trimmed(OfDomain(pool - expired, d), shield, MAX_PER_DOMAIN, OfDomain(crowded, d));
      assert x in OfDomain(crowded, d) && y in OfDomain(pool - expired, d) - OfDomain(crowded, d);
    }
  }

  /** A profile already within its limits and free of expired cookies loses nothing. */
  lemma PassesKeepAll(pool: set<Entry>, now: int, shield: Option<Entry>,
                      expired: set<Entry>, crowded: set<Entry>, surplus: set<Entry>)
    requires Passes(pool, now, shield, expired, crowded, surplus)
    requires WithinCaps(pool) && forall e <- pool :: Live(e.cookie, now)
    ensures expired + crowded + surplus == {}
  {
    assert pool - expired == pool;
    forall e ensures e !in crowded {
      var d := e.cookie.domain;
      TrimmedFits(OfDomain(pool, d), shield, MAX_PER_DOMAIN, OfDomain(crowded, d));
      assert e in crowded ==> e in OfDomain(crowded, d);
    }
    assert pool - expired - crowded == pool;
    TrimmedFits(pool, shield, MAX_TOTAL, surplus);
  }
}
