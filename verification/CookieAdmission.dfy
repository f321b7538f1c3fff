/** What a store and a deletion do to the whole jar (app/src/cookies.ts), and what every run of them keeps:
    one copy of each identity per profile, the limits, and a Domain that covers the host that set it. */
module CookieAdmission {
  import opened Common
  import opened CookieRules
  import opened CookieStore
  import opened CookieProfiles
  import opened CookieEviction

  // ----- the copies of an identity -----

  /** Every copy of the identity in the profile, whatever bucket it sits in. */
  function Copies(j: Jars, ns: string, id: Identity): (r: set<Entry>)
    ensures forall e :: e in r <==> e in Stored(j, ns) && IdentityOf(e.cookie) == id
  {
    set e | e in Stored(j, ns) && IdentityOf(e.cookie) == id
  }

  /** What a deletion retires: a script spares the HttpOnly copies. */
  function Retired(j: Jars, ns: string, id: Identity, fromScript: bool): (r: set<Entry>)
    ensures forall e :: e in r <==> e in Copies(j, ns, id) && !(fromScript && e.cookie.httpOnly)
  {
    set e | e in Copies(j, ns, id) && !(fromScript && e.cookie.httpOnly)
  }

  predicate Earliest(s: set<Entry>, e: Entry) {
    e in s && forall x <- s :: e.cookie.created <= x.cookie.created
  }

  /** The canonical copy, when there is one. */
  predicate Chosen(copies: set<Entry>, home: Option<Entry>) {
    if home.None? then copies == {} else Earliest(copies, home.value)
  }

  predicate OneCopy(j: Jars, ns: string) {
    forall e <- Stored(j, ns), f <- Stored(j, ns) :: IdentityOf(e.cookie) == IdentityOf(f.cookie) ==> e == f
  }

  // ----- placing a cookie -----

  /** The entry a store creates: it keeps the canonical copy's bucket and creation time. */
  function Fresh(key: string, c: Cookie, home: Option<Entry>): Entry {
    match home
    case None => Entry(key, c)
    case Some(h) => Entry(h.key, c.(created := h.cookie.created))
  }

  function Position(list: seq<Cookie>, c: Cookie): (i: nat)
    requires c in list
    ensures i < |list| && list[i] == c
    decreases |list|
  {
    if list[0] == c then 0 else 1 + Position(list[1..], c)
  }

  /** The copies outside the canonical bucket. */
  function Strays(j: Jars, ns: string, id: Identity, home: Entry): (r: set<Entry>)
    ensures forall e :: e in r <==> e in Copies(j, ns, id) && e.key != home.key
  {
    set e | e in Copies(j, ns, id) && e.key != home.key
  }

  function BucketOf(j: Jars, key: string): seq<Cookie> {
    if key in j then j[key] else []
  }

  /** The jar with the cookie in place, before the limits are enforced. */
  function Placed(j: Jars, ns: string, key: string, c: Cookie, home: Option<Entry>): Jars
    requires home.Some? ==> Holds(j, home.value)
  {
    match home
    case None => j[key := BucketOf(j, key) + [c]]
    case Some(h) =>
      Without(j, Strays(j, ns, IdentityOf(c), h))
        [h.key := j[h.key][Position(j[h.key], h.cookie) := Fresh(key, c, home).cookie]]
  }

  lemma BucketOnce(list: seq<Cookie>, c: Cookie, i: nat, was: Cookie)
    requires OncePerIdentity(list) && i < |list| && list[i] == was && IdentityOf(c) == IdentityOf(was)
    ensures OncePerIdentity(list[i := c])
    ensures forall x :: x in list[i := c] <==> x == c || (x in list && IdentityOf(x) != IdentityOf(c))
  {
    var r := list[i := c];
    assert r[i] == c;
    forall x | x in list && IdentityOf(x) != IdentityOf(c) ensures x in r {
      var k :| 0 <= k < |list| && list[k] == x;
      assert r[k] == x;
    }
  }

  lemma PlacedNew(j: Jars, ns: string, key: string, c: Cookie)
    requires Settled(j) && InProfile(key, ns) && Copies(j, ns, IdentityOf(c)) == {}
    ensures var p := Placed(j, ns, key, c, None);
      && Settled(p) && SameOutside(j, p, ns)
      && (forall e :: Holds(p, e) <==> Holds(j, e) || e == Entry(key, c))
  {
    var list := BucketOf(j, key);
    forall x <- list ensures IdentityOf(x) != IdentityOf(c) {
      assert Entry(key, x) in Stored(j, ns);
    }
  }

  lemma PlacedOver(j: Jars, ns: string, key: string, c: Cookie, h: Entry)
    requires Settled(j) && Earliest(Copies(j, ns, IdentityOf(c)), h)
    ensures var p := Placed(j, ns, key, c, Some(h));
      && Settled(p) && SameOutside(j, p, ns)
      && (forall e :: Holds(p, e) <==>
           e == Fresh(key, c, Some(h)) || (Holds(j, e) && e !in Copies(j, ns, IdentityOf(c))))
  {
    var id := IdentityOf(c);
    var strays := Strays(j, ns, id, h);
    var rest := Without(j, strays);
    var list := j[h.key];
    var f := Fresh(key, c, Some(h)).cookie;
    WithoutSettled(j, strays);
    WithoutStaysInside(j, strays, ns);
    BucketOnce(list, f, Position(list, h.cookie), h.cookie);
    hide Without, Position, OncePerIdentity;
  }

  /** Placing swaps every copy of the identity for one new cookie and touches nothing else. */
  lemma PlacedHolds(j: Jars, ns: string, key: string, c: Cookie, home: Option<Entry>)
    requires Settled(j) && InProfile(key, ns) && Chosen(Copies(j, ns, IdentityOf(c)), home)
    ensures var p := Placed(j, ns, key, c, home);
      && Settled(p) && SameOutside(j, p, ns)
      && Stored(p, ns) == Stored(j, ns) - Copies(j, ns, IdentityOf(c)) + {Fresh(key, c, home)}
      && Copies(p, ns, IdentityOf(c)) == {Fresh(key, c, home)}
  {
    match home
    case None => PlacedNew(j, ns, key, c);
    case Some(h) => PlacedOver(j, ns, key, c, h);
  }

  // ----- a whole store: place, then sweep -----

  /** `gone` is what the three passes of one sweep remove from the profile. */
  ghost predicate Swept(pool: set<Entry>, now: int, shield: Option<Entry>, gone: set<Entry>) {
    exists expired: set<Entry>, crowded: set<Entry>, surplus: set<Entry> ::
      && Passes(pool, now, shield, expired, crowded, surplus)
      && gone == expired + crowded + surplus
  }

  /** The cookie took its place and the sweep, shielding it, removed `gone`. */
  ghost predicate StoreStep(j: Jars, ns: string, now: int, key: string, c: Cookie, home: Option<Entry>,
                            gone: set<Entry>, after: Jars)
    requires home.Some? ==> Holds(j, home.value)
  {
    var p := Placed(j, ns, key, c, home);
    Swept(Stored(p, ns), now, Some(Fresh(key, c, home)), gone) && after == Without(p, gone)
  }

  lemma SweptPool(pool: set<Entry>, now: int, shield: Option<Entry>, gone: set<Entry>)
    requires Swept(pool, now, shield, gone)
    ensures gone <= pool && WithinCaps(pool - gone) && forall e <- pool - gone :: Live(e.cookie, now)
    ensures shield.Some? && shield.value in pool && Live(shield.value.cookie, now) ==> shield.value in pool - gone
  {
    var expired, crowded, surplus :| Passes(pool, now, shield, expired, crowded, surplus)
                                     && gone == expired + crowded + surplus;
    PassesFit(pool, now, shield, expired, crowded, surplus);
    hide WithinCaps, Live, OfDomain;
  }

  lemma SweptFits(j: Jars, ns: string, now: int, shield: Option<Entry>, gone: set<Entry>)
    requires Settled(j) && Swept(Stored(j, ns), now, shield, gone)
    ensures var after := Without(j, gone);
      Settled(after) && SameOutside(j, after, ns) && Stored(after, ns) == Stored(j, ns) - gone
  {
    hide Swept, Settled, SameOutside, Without;
    SweptPool(Stored(j, ns), now, shield, gone);
    WithoutSettled(j, gone);
    WithoutStaysInside(j, gone, ns);
  }

  /** After every store: survivors and removed are what was there with the copies swapped for the new cookie,
      the profile is live and within its limits, the new cookie is in it, and it is the only copy left.
      No other profile changed. */
  lemma StoreMeetsItsPromises(j: Jars, ns: string, now: int, key: string, c: Cookie, home: Option<Entry>,
                              gone: set<Entry>, after: Jars)
    requires Settled(j) && InProfile(key, ns) && Live(c, now)
    requires Chosen(Copies(j, ns, IdentityOf(c)), home)
    requires StoreStep(j, ns, now, key, c, home, gone, after)
    ensures Settled(after) && SameOutside(j, after, ns)
    ensures var newcomer := Fresh(key, c, home); var copies := Copies(j, ns, IdentityOf(c));
      && Stored(after, ns) !! gone
      && Stored(after, ns) + gone == Stored(j, ns) - copies + {newcomer}
      && Copies(after, ns, IdentityOf(c)) == {newcomer}
    ensures WithinCaps(Stored(after, ns)) && forall e <- Stored(after, ns) :: Live(e.cookie, now)
  {
    var p := Placed(j, ns, key, c, home);
    var newcomer := Fresh(key, c, home);
    PlacedHolds(j, ns, key, c, home);
    FreshLives(key, c, home, now);
    assert after == Without(p, gone) && Swept(Stored(p, ns), now, Some(newcomer), gone);
    hide *;
    SweptPool(Stored(p, ns), now, Some(newcomer), gone);
    SweptFits(p, ns, now, Some(newcomer), gone);
    assert newcomer in Stored(after, ns);
    CopiesShrink(p, after, ns, IdentityOf(c), newcomer);
    SameOutsideTwice(j, p, after, ns);
    Partition(Stored(p, ns), gone, Stored(after, ns));
  }

  lemma Partition(pool: set<Entry>, gone: set<Entry>, left: set<Entry>)
    requires gone <= pool && left == pool - gone
    ensures left !! gone && left + gone == pool
  {
  }

  lemma FreshLives(key: string, c: Cookie, home: Option<Entry>, now: int)
    requires Live(c, now)
    ensures Live(Fresh(key, c, home).cookie, now)
  {
  }

  lemma SameOutsideTwice(j: Jars, p: Jars, after: Jars, ns: string)
    requires SameOutside(j, p, ns) && SameOutside(p, after, ns)
    ensures SameOutside(j, after, ns)
  {
  }

  lemma CopiesShrink(p: Jars, after: Jars, ns: string, id: Identity, newcomer: Entry)
    requires Copies(p, ns, id) == {newcomer}
    requires Stored(after, ns) <= Stored(p, ns) && newcomer in Stored(after, ns)
    ensures Copies(after, ns, id) == {newcomer}
  {
    assert newcomer in Copies(p, ns, id);
    forall e | e in Copies(after, ns, id) ensures e == newcomer {
      assert e in Copies(p, ns, id);
    }
  }

  /** The cookie keeps the earliest creation time among the copies it replaced. */
  lemma FreshIsEarliest(copies: set<Entry>, key: string, c: Cookie, home: Option<Entry>)
    requires Chosen(copies, home)
    ensures var f := Fresh(key, c, home).cookie;
      && (copies == {} ==> f.created == c.created)
      && (copies != {} ==> exists e <- copies :: e.cookie.created == f.created)
      && (forall e <- copies :: f.created <= e.cookie.created)
      && f == c.(created := f.created)
  {
  }

  // ----- deletions -----

  /** A server deletion leaves no copy; a script's leaves exactly the HttpOnly ones. Nothing else goes. */
  lemma RetireMeetsItsPromises(j: Jars, ns: string, id: Identity, fromScript: bool)
    requires Settled(j)
    ensures var after := Without(j, Retired(j, ns, id, fromScript));
      && Settled(after) && SameOutside(j, after, ns)
      && Copies(after, ns, id) == (set e <- Copies(j, ns, id) | fromScript && e.cookie.httpOnly)
      && Stored(after, ns) + Retired(j, ns, id, fromScript) == Stored(j, ns)
  {
    var gone := Retired(j, ns, id, fromScript);
    WithoutSettled(j, gone);
    WithoutStaysInside(j, gone, ns);
  }

  // ----- scripts and HttpOnly cookies -----

  /** A script's store that is let through spares every HttpOnly cookie, but for evictions, if and only if no
      copy of the identity is HttpOnly: the guard looks at the earliest copy only. */
  lemma ScriptSparesHttpOnly(j: Jars, ns: string, now: int, key: string, c: Cookie, home: Option<Entry>,
                             gone: set<Entry>, after: Jars)
    requires Settled(j) && InProfile(key, ns) && Live(c, now)
    requires Chosen(Copies(j, ns, IdentityOf(c)), home)
    requires StoreStep(j, ns, now, key, c, home, gone, after)
    requires !c.httpOnly
    ensures (forall e <- Stored(j, ns) :: e.cookie.httpOnly ==> e in Stored(after, ns) + gone)
        <==> (forall e <- Copies(j, ns, IdentityOf(c)) :: !e.cookie.httpOnly)
  {
    StoreMeetsItsPromises(j, ns, now, key, c, home, gone, after);
    hide StoreStep, Chosen, Settled, SameOutside, WithinCaps;
    forall e | e in Copies(j, ns, IdentityOf(c)) && e.cookie.httpOnly
      ensures e in Stored(j, ns) && e !in Stored(after, ns) + gone
    {
    }
  }

  const PLAIN := Cookie("sid", "1", "x.io", true, "/", false, false, Lax, 9, 1)
  const GUARDED := PLAIN.(httpOnly := true, created := 2)

  /** Two copies of one identity under different origins, as a merge can leave them: the HttpOnly one is later. */
  const MERGED: Jars := map["http://x.io" := [PLAIN], "https://x.io" := [GUARDED]]

  lemma MergedCopies()
    ensures Settled(MERGED) && IdentityOf(GUARDED) == IdentityOf(PLAIN)
    ensures Copies(MERGED, DEFAULT, IdentityOf(PLAIN)) ==
      {Entry("http://x.io", PLAIN), Entry("https://x.io", GUARDED)}
  {
    forall e | e in Copies(MERGED, DEFAULT, IdentityOf(PLAIN))
      ensures e in {Entry("http://x.io", PLAIN), Entry("https://x.io", GUARDED)}
    {
      assert e.cookie in MERGED[e.key];
    }
    assert Holds(MERGED, Entry("http://x.io", PLAIN)) && Holds(MERGED, Entry("https://x.io", GUARDED));
  }

  const HOME := Entry("http://x.io", PLAIN)
  const LATER := Entry("https://x.io", GUARDED)

  /** The guard passes there, since the earliest copy is a script's own, and at any time and whatever the sweep does
      a script's store replaces the HttpOnly copy. */
  lemma LaterCopyLost(c: Cookie, now: int, gone: set<Entry>, after: Jars)
    requires IdentityOf(c) == IdentityOf(PLAIN) && !c.httpOnly && now > 0 && Live(c, now)
    requires Holds(MERGED, HOME)
    requires StoreStep(MERGED, DEFAULT, now, HOME.key, c, Some(HOME), gone, after)
    ensures Chosen(Copies(MERGED, DEFAULT, IdentityOf(c)), Some(HOME)) && !PLAIN.httpOnly
    ensures GUARDED.httpOnly && LATER in Stored(MERGED, DEFAULT) && LATER !in Stored(after, DEFAULT) + gone
  {
    MergedCopies();
    hide StoreStep;
    assert Chosen(Copies(MERGED, DEFAULT, IdentityOf(c)), Some(HOME));
    StoreMeetsItsPromises(MERGED, DEFAULT, now, HOME.key, c, Some(HOME), gone, after);
  }

  lemma TidySweep(pool: set<Entry>, now: int, shield: Option<Entry>)
    requires WithinCaps(pool) && forall e <- pool :: Live(e.cookie, now)
    ensures Swept(pool, now, shield, {})
  {
    assert ExpiredIn(pool, now) == {};
    assert pool - {} == pool && pool - {} - {} == pool;
    forall d: string ensures Trimmed(OfDomain(pool, d), shield, MAX_PER_DOMAIN, OfDomain({}, d)) {
      assert OfDomain({}, d) == {};
    }
    assert Passes(pool, now, shield, {}, {}, {});
    hide Passes;
    var none: set<Entry> := {};
    assert none + none + none == none;
  }

  lemma OneIsFew(e: Entry)
    ensures WithinCaps({e})
  {
    forall d: string ensures |OfDomain({e}, d)| <= MAX_PER_DOMAIN {
      SubsetCount(OfDomain({e}, d), {e});
    }
  }

  const SCRIPTED := PLAIN.(value := "2", created := 3)

  /** Such a store: at time 3 a script writes the cookie, and the sweep has nothing to remove. */
  lemma ScriptStores() returns (after: Jars)
    ensures IdentityOf(SCRIPTED) == IdentityOf(PLAIN) && !SCRIPTED.httpOnly && Live(SCRIPTED, 3) && Live(GUARDED, 3)
    ensures Holds(MERGED, HOME) && StoreStep(MERGED, DEFAULT, 3, HOME.key, SCRIPTED, Some(HOME), {}, after)
  {
    MergedCopies();
    var p := Placed(MERGED, DEFAULT, HOME.key, SCRIPTED, Some(HOME));
    var newcomer := Fresh(HOME.key, SCRIPTED, Some(HOME));
    PlacedHolds(MERGED, DEFAULT, HOME.key, SCRIPTED, Some(HOME));
    OnlyCopies();
    assert Stored(p, DEFAULT) == {newcomer};
    OneIsFew(newcomer);
    hide Placed, WithinCaps, Swept;
    TidySweep(Stored(p, DEFAULT), 3, Some(newcomer));
    after := Without(p, {});
  }

  lemma OnlyCopies()
    ensures Stored(MERGED, DEFAULT) == Copies(MERGED, DEFAULT, IdentityOf(PLAIN))
  {
  }

  /** Where a profile holds at most one copy of each identity the guard is enough. */
  lemma OneCopyGuards(j: Jars, ns: string, id: Identity, home: Entry)
    requires OneCopy(j, ns) && Earliest(Copies(j, ns, id), home) && !home.cookie.httpOnly
    ensures forall e <- Copies(j, ns, id) :: !e.cookie.httpOnly
  {
  }
}
