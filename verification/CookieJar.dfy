/** The jar itself (app/src/cookies.ts): one map of buckets that admissions, the eviction sweep, header
    assembly, imports and profile switches change in place. Buckets are visited in no particular order:
    the source's insertion order decides ties only. */
module CookieJar {
  import opened Common
  import opened CookieRules
  import opened CookieStore
  import opened CookieProfiles
  import opened CookieEviction
  import opened CookieAdmission
  import opened CookieRuns
  import opened CookieHeader

  // ----- one bucket at a time -----

  function Dropped(list: seq<Cookie>, drop: Cookie -> bool): (r: seq<Cookie>)
    ensures forall c :: c in r <==> c in list && drop(c)
    decreases |list|
  {
    if list == [] then [] else (if drop(list[0]) then [list[0]] else []) + Dropped(list[1..], drop)
  }

  function Spared(list: seq<Cookie>, drop: Cookie -> bool): (r: seq<Cookie>)
    ensures |r| == |list| ==> r == list
    ensures |r| <= |list|
    decreases |list|
  {
    if list == [] then [] else (if drop(list[0]) then [] else [list[0]]) + Spared(list[1..], drop)
  }

  lemma {:induction false} SparedIsKept(list: seq<Cookie>, drop: Cookie -> bool, key: string, gone: set<Entry>)
    requires forall c <- list :: drop(c) <==> Entry(key, c) in gone
    ensures Spared(list, drop) == Kept(list, key, gone)
    decreases |list|
  {
    if list != [] {
      SparedIsKept(list[1..], drop, key, gone);
    }
  }

  lemma {:induction false} DroppedOnce(list: seq<Cookie>, drop: Cookie -> bool)
    requires OncePerIdentity(list)
    ensures OncePerIdentity(Dropped(list, drop))
    decreases |list|
  {
    if list != [] {
      DroppedOnce(list[1..], drop);
      var rest := Dropped(list[1..], drop);
      forall c <- rest ensures IdentityOf(c) != IdentityOf(list[0]) {
        assert c in list[1..];
      }
    }
  }

  lemma TaggedDistinct(key: string, list: seq<Cookie>)
    requires OncePerIdentity(list)
    ensures Distinct(Tagged(key, list))
    ensures forall e :: e in Tagged(key, list) <==> e.key == key && e.cookie in list
  {
    var t := Tagged(key, list);
    forall c <- list ensures Entry(key, c) in t {
      var i :| 0 <= i < |list| && list[i] == c;
      assert t[i] == Entry(key, c);
    }
  }

  /** Rewriting one bucket, or deleting it once it is empty. */
  function Rewritten(j: Jars, key: string, kept: seq<Cookie>): Jars {
    if kept == [] then j - {key} else j[key := kept]
  }

  lemma RewrittenIsWithout(j: Jars, key: string, gone: set<Entry>)
    requires Settled(j) && key in j && forall e <- gone :: e.key == key
    ensures Rewritten(j, key, Kept(j[key], key, gone)) == Without(j, gone)
  {
    forall k: string | k != key
      ensures k in Without(j, gone) <==> k in j
      ensures k in j ==> Without(j, gone)[k] == j[k]
    {
      WithoutElsewhere(j, gone, k);
    }
    hide Kept, Settled;
  }

  lemma DropHere(j: Jars, k: string, drop: Cookie -> bool)
    requires Settled(j) && k in j
    ensures var gone := Members(Tagged(k, Dropped(j[k], drop)));
      Without(j, gone) == if Dropped(j[k], drop) == [] then j else Rewritten(j, k, Spared(j[k], drop))
  {
    var dead := Dropped(j[k], drop);
    DroppedOnce(j[k], drop);
    TaggedDistinct(k, dead);
    var gone := Members(Tagged(k, dead));
    SparedIsKept(j[k], drop, k, gone);
    RewrittenIsWithout(j, k, gone);
    if dead == [] {
      WithoutNothing(j, gone);
    }
  }

  /** One turn of the filter loop: bucket k loses what `drop` says, the others stay as they were. */
  lemma FilterTurn(before: Jars, removed: seq<Entry>, k: string, drop: Cookie -> bool)
    requires Settled(before) && Distinct(removed) && k in before && forall e <- removed :: e.key != k
    ensures var j := Without(before, Members(removed));
      && k in j && j[k] == before[k]
      && var more := removed + Tagged(k, Dropped(j[k], drop));
      && Distinct(more)
      && (forall e :: e in more <==> e in removed || (e.key == k && e.cookie in before[k] && drop(e.cookie)))
      && Without(before, Members(more))
         == if Dropped(j[k], drop) == [] then j else Rewritten(j, k, Spared(j[k], drop))
  {
    var soFar := Members(removed);
    WithoutElsewhere(before, soFar, k);
    WithoutSettled(before, soFar);
    var dead := Dropped(before[k], drop);
    DroppedOnce(before[k], drop);
    TaggedDistinct(k, dead);
    DropHere(Without(before, soFar), k, drop);
    WithoutTwice(before, soFar, Members(Tagged(k, dead)));
    hide Without, Settled, Dropped, Spared, Rewritten, OncePerIdentity;
    assert Members(removed + Tagged(k, dead)) == soFar + Members(Tagged(k, dead));
  }

  lemma ThreePasses(j: Jars, pool: set<Entry>, now: int, shield: Option<Entry>,
                    expired: seq<Entry>, crowded: seq<Entry>, surplus: seq<Entry>)
    requires Distinct(expired) && Distinct(crowded) && Distinct(surplus)
    requires Passes(pool, now, shield, Members(expired), Members(crowded), Members(surplus))
    ensures var removed := expired + crowded + surplus;
      && Distinct(removed) && Swept(pool, now, shield, Members(removed))
      && Without(Without(Without(j, Members(expired)), Members(crowded)), Members(surplus))
         == Without(j, Members(removed))
  {
    var e, c, s := Members(expired), Members(crowded), Members(surplus);
    assert e !! c && (e + c) !! s;
    hide Passes;
    WithoutTwice(j, e, c);
    WithoutTwice(j, e + c, s);
    hide Without, Members;
    assert Members(expired + crowded + surplus) == e + c + s;
    DistinctJoin(expired, crowded);
    DistinctJoin(expired + crowded, surplus);
  }

  lemma DistinctJoin(a: seq<Entry>, b: seq<Entry>)
    requires Distinct(a) && Distinct(b) && forall e <- a :: e !in b
    ensures Distinct(a + b)
  {
    var s := a + b;
    forall i, k | 0 <= i < k < |s| ensures s[i] != s[k] {
      if i < |a| {
        assert a[i] in a;
      }
    }
  }

  /** The entries of one stored Domain, in their order. */
  function InDomain(s: seq<Entry>, d: string): (r: seq<Entry>)
    ensures forall e :: e in r <==> e in s && e.cookie.domain == d
    decreases |s|
  {
    if s == [] then [] else (if s[0].cookie.domain == d then [s[0]] else []) + InDomain(s[1..], d)
  }

  lemma {:induction false} InDomainDistinct(s: seq<Entry>, d: string)
    requires Distinct(s)
    ensures Distinct(InDomain(s, d))
    decreases |s|
  {
    if s != [] {
      InDomainDistinct(s[1..], d);
      assert s[0] !in s[1..];
    }
  }

  /** Between two turns of pass two: every Domain but those still to do is trimmed, and those are whole. */
  ghost predicate CrowdedSoFar(pool: set<Entry>, shield: Option<Entry>, todo: set<string>, crowded: seq<Entry>) {
    && Distinct(crowded) && Members(crowded) <= pool
    && (forall d: string :: d in todo ==> OfDomain(Members(crowded), d) == {})
    && (forall d: string :: d !in todo ==>
         Trimmed(OfDomain(pool, d), shield, MAX_PER_DOMAIN, OfDomain(Members(crowded), d)))
  }

  lemma TrimNothing(pool: set<Entry>, shield: Option<Entry>, cap: nat)
    requires |pool| <= cap
    ensures Trimmed(pool, shield, cap, {})
  {
  }

  lemma NothingCrowded(j: Jars, pool: set<Entry>, todo: set<string>)
    requires Settled(j)
    requires forall e <- pool :: e.cookie.domain in todo
    ensures j == Without(j, Members([]))
    ensures forall shield: Option<Entry> :: CrowdedSoFar(pool, shield, todo, [])
  {
    WithoutNothing(j, Members([]));
    assert Members([]) == {};
    forall shield: Option<Entry>, d: string | d !in todo
      ensures Trimmed(OfDomain(pool, d), shield, MAX_PER_DOMAIN, OfDomain({}, d))
    {
      assert OfDomain(pool, d) == {} && OfDomain({}, d) == {};
      TrimNothing({}, shield, MAX_PER_DOMAIN);
    }
  }

  /** What one more Domain adds touches no other Domain. */
  lemma OneMoreDomain(pool: set<Entry>, c: set<Entry>, x: set<Entry>, d: string)
    requires c <= pool && x <= OfDomain(pool, d) && OfDomain(c, d) == {}
    ensures c !! x && c + x <= pool
    ensures OfDomain(c + x, d) == x
    ensures forall f: string :: f != d ==> OfDomain(c + x, f) == OfDomain(c, f)
  {
    assert forall e <- c :: e.cookie.domain == d ==> e in OfDomain(c, d);
  }

  lemma CrowdedGrows(pool: set<Entry>, shield: Option<Entry>, todo: set<string>, crowded: seq<Entry>,
                    d: string, dead: seq<Entry>)
    requires d !in todo && CrowdedSoFar(pool, shield, todo + {d}, crowded)
    requires Distinct(dead) && Trimmed(OfDomain(pool, d), shield, MAX_PER_DOMAIN, Members(dead))
    ensures CrowdedSoFar(pool, shield, todo, crowded + dead)
  {
    var c, x := Members(crowded), Members(dead);
    assert x <= OfDomain(pool, d);
    OneMoreDomain(pool, c, x, d);
    hide Trimmed, OfDomain;
    DistinctJoin(crowded, dead);
    hide Distinct;
    MembersJoin(crowded, dead);
  }

  lemma MembersJoin(a: seq<Entry>, b: seq<Entry>)
    ensures Members(a + b) == Members(a) + Members(b)
  {
  }

  lemma CrowdedTurn(j: Jars, pool: set<Entry>, shield: Option<Entry>, todo: set<string>, crowded: seq<Entry>,
                    d: string, dead: seq<Entry>)
    requires d in todo && CrowdedSoFar(pool, shield, todo, crowded)
    requires Distinct(dead) && Trimmed(OfDomain(pool, d), shield, MAX_PER_DOMAIN, Members(dead))
    ensures CrowdedSoFar(pool, shield, todo - {d}, crowded + dead)
    ensures Without(Without(j, Members(crowded)), Members(dead)) == Without(j, Members(crowded + dead))
  {
    hide *;
    assert todo - {d} + {d} == todo;
    CrowdedGrows(pool, shield, todo - {d}, crowded, d, dead);
    WithoutTwice(j, Members(crowded), Members(dead));
    MembersJoin(crowded, dead);
  }

  lemma CrowdedDone(pool: set<Entry>, shield: Option<Entry>, crowded: seq<Entry>)
    requires CrowdedSoFar(pool, shield, {}, crowded)
    ensures Distinct(crowded) && Members(crowded) <= pool
    ensures forall d: string ::
      Trimmed(OfDomain(pool, d), shield, MAX_PER_DOMAIN, OfDomain(Members(crowded), d))
  {
  }

  datatype Outcome =
    | Refused(why: Refusal) | NothingToRetire | Deleted(cookie: Cookie) | Admitted(cookie: Cookie, replaced: bool)

  /** The reply of a deletion names the earliest-created cookie it removed. */
  ghost predicate RetireReply(gone: set<Entry>, r: Outcome) {
    if gone == {} then r == NothingToRetire
    else r.Deleted? && exists e <- gone :: Earliest(gone, e) && e.cookie == r.cookie
  }

  /** What a kept cookie does: nothing over an HttpOnly canonical copy when a script writes, else a store. */
  ghost predicate KeepOutcome(j: Jars, ns: string, now: int, key: string, c: Cookie, fromScript: bool,
                              home: Option<Entry>, evicted: seq<Entry>, after: Jars, r: Outcome) {
    && Chosen(Copies(j, ns, IdentityOf(c)), home)
    && if fromScript && home.Some? && home.value.cookie.httpOnly
       then r == Refused(HttpOnlyKept) && after == j && evicted == []
       else
         && StoreStep(j, ns, now, key, c, home, Members(evicted), after)
         && Distinct(evicted)
         && r == Admitted(Fresh(key, c, home).cookie, home.Some?)
  }

  lemma Unmoved(j: Jars, log: set<(string, Cookie)>)
    requires Settled(j)
    ensures Step(World(j, log), World(j, log))
  {
    WithoutNothing(j, {});
    assert Drop(World(j, log), World(j, log), {});
  }

  lemma KeepIsStep(j: Jars, log: set<(string, Cookie)>, host: string, pid: string, root: string, now: int, key: string,
                   c: Cookie, fromScript: bool, home: Option<Entry>, evicted: seq<Entry>, after: Jars, r: Outcome)
    requires Settled(j) && InProfile(key, Namespace(pid, root)) && Covers(host, c) && Live(c, now)
    requires KeepOutcome(j, Namespace(pid, root), now, key, c, fromScript, home, evicted, after, r)
    ensures Step(World(j, log), World(after, if r.Admitted? then log + {(host, r.cookie)} else log))
  {
    if r.Admitted? {
      assert Store(World(j, log), World(after, log + {(host, r.cookie)}), host, pid, root, now, key, c, home,
                   Members(evicted));
    } else {
      Unmoved(j, log);
    }
  }

  lemma KeepStaysInside(j: Jars, ns: string, now: int, key: string, c: Cookie, fromScript: bool, home: Option<Entry>,
                        evicted: seq<Entry>, after: Jars, r: Outcome)
    requires Settled(j) && InProfile(key, ns) && Live(c, now)
    requires KeepOutcome(j, ns, now, key, c, fromScript, home, evicted, after, r)
    ensures SameOutside(j, after, ns)
  {
    if r.Admitted? {
      StoreMeetsItsPromises(j, ns, now, key, c, home, Members(evicted), after);
    }
  }

  /** A script's store, let through or not, takes no HttpOnly cookie away where each identity has one copy, except by
      eviction; nor does a script's deletion, whatever the copies. */
  lemma ScriptSparesGuarded(j: Jars, ns: string, now: int, key: string, c: Cookie, home: Option<Entry>,
                            evicted: seq<Entry>, after: Jars, r: Outcome)
    requires Settled(j) && InProfile(key, ns) && Live(c, now)
    requires KeepOutcome(j, ns, now, key, c, true, home, evicted, after, r)
    ensures OneCopy(j, ns) ==>
      forall e <- Stored(j, ns) :: e.cookie.httpOnly ==> e in Stored(after, ns) || e in evicted
  {
    if OneCopy(j, ns) && r.Admitted? {
      StoreMeetsItsPromises(j, ns, now, key, c, home, Members(evicted), after);
      if home.Some? {
        OneCopyGuards(j, ns, IdentityOf(c), home.value);
      }
    }
    hide Placed, Swept, Stored, OneCopy, Settled, Live, InProfile;
  }

  lemma ScriptRetiresNoGuarded(j: Jars, ns: string, id: Identity)
    requires Settled(j)
    ensures var after := Without(j, Retired(j, ns, id, true));
      forall e <- Stored(j, ns) :: e.cookie.httpOnly ==> e in Stored(after, ns)
  {
  }

  /** An admitted cookie is permitted for the host, and it is live exactly as long as the record says: Max-Age in
      seconds, or else until Expires, or else without an end. */
  ghost predicate AsTheRecordSays(psl: Suffixes, a: Attributes, u: Url, now: int, c: Cookie) {
    && c.name == a.name && c.value == a.value && Permitted(psl, u, c)
    && (a.maxAge.Some? ==> forall t: int :: Live(c, t) <==> t < now + 1000 * a.maxAge.value)
    && (a.maxAge.None? && a.hasExpires ==> forall t: int :: Live(c, t) <==> t < a.expires)
    && (a.maxAge.None? && !a.hasExpires ==> forall t: int :: Live(c, t))
  }

  lemma KeptAsTheRecordSays(psl: Suffixes, a: Attributes, u: Url, now: int, key: string, home: Option<Entry>)
    requires WellRead(a) && now > 0 && Judge(psl, a, Some(u), now).Keep?
    ensures var c := Judge(psl, a, Some(u), now).cookie;
      Covers(u.host, c) && Live(c, now) && AsTheRecordSays(psl, a, u, now, Fresh(key, c, home).cookie)
  {
    KeepsTheAdmissible(psl, a, u, now);
    SpelledFields(a, u, now);
    var c := Spelled(a, u, now);
    DomainMatchIsRfc(u.host, c.domain);
    var f := Fresh(key, c, home).cookie;
    assert f == c.(created := f.created);
    hide Judge, Spelled, OwnMachine, DomainMatch, RfcDomainMatch, Fresh;
    assert forall t: int :: Live(f, t) <==> Live(c, t);
  }

  predicate InScope(key: string, ns: string, id: Option<string>) {
    if id.None? then InProfile(key, ns) else key == JarKey(id.value, ns)
  }

  lemma SomeMember(list: seq<Cookie>)
    requires list != []
    ensures exists c :: c in list
  {
    assert list[0] in list;
  }

  /** The buckets that are left while the deletion loop runs. */
  function Outside(j: Jars, scope: string -> bool, todo: set<string>): Jars {
    map k | k in j && (k in todo || !scope(k)) :: j[k]
  }

  lemma OutsideTurn(j: Jars, scope: string -> bool, todo: set<string>, k: string)
    requires k in todo && k in j
    ensures !scope(k) ==> Outside(j, scope, todo - {k}) == Outside(j, scope, todo)
    ensures scope(k) ==> Outside(j, scope, todo - {k}) == Outside(j, scope, todo) - {k}
    ensures k in Outside(j, scope, todo) && Outside(j, scope, todo)[k] == j[k]
    ensures scope(k) ==> |Outside(j, scope, todo - {k})| == |Outside(j, scope, todo)| - 1
  {
    var o := Outside(j, scope, todo);
    assert (o - {k}).Keys == o.Keys - {k};
  }

  lemma OutsideAll(j: Jars, scope: string -> bool)
    ensures Outside(j, scope, {}) == map k | k in j && !scope(k) :: j[k]
  {
  }

  lemma ScopeIsWithout(j: Jars, scope: string -> bool, gone: set<Entry>)
    requires Settled(j) && forall e :: e in gone <==> Holds(j, e) && scope(e.key)
    ensures (map k | k in j && !scope(k) :: j[k]) == Without(j, gone)
  {
    forall k <- j.Keys ensures k in Without(j, gone) <==> !scope(k) {
      if scope(k) {
        assert forall c <- j[k] :: Holds(j, Entry(k, c));
        if Kept(j[k], k, gone) != [] {
          SomeMember(Kept(j[k], k, gone));
        }
      } else {
        WithoutElsewhere(j, gone, k);
      }
    }
    forall k <- j.Keys | !scope(k) ensures k in Without(j, gone) && Without(j, gone)[k] == j[k] {
      WithoutElsewhere(j, gone, k);
    }
  }

  /** The copies of an identity in one bucket. */
  function CopiesIn(key: string, list: seq<Cookie>, id: Identity): (r: set<Entry>)
    ensures forall e :: e in r <==> e.key == key && e.cookie in list && IdentityOf(e.cookie) == id
  {
    set c | c in list && IdentityOf(c) == id :: Entry(key, c)
  }

  /** What matches once the expired cookies are gone is what attached before. */
  lemma MatchesAfterPurge(psl: Suffixes, policy: Policy, j: Jars, ns: string, now: int, u: Url, ctx: Context)
    ensures Matching(psl, policy, Without(j, ExpiredIn(Entries(j), now)), ns, u, ctx)
         == Attached(psl, policy, j, ns, now, u, ctx)
  {
    hide Attaches, Live, InProfile, Without;
  }

  lemma CopiesSnoc(before: set<Entry>, key: string, list: seq<Cookie>, i: nat, id: Identity)
    requires i < |list|
    ensures before + CopiesIn(key, list[..i + 1], id)
         == before + CopiesIn(key, list[..i], id) + if IdentityOf(list[i]) == id then {Entry(key, list[i])} else {}
  {
    assert list[..i + 1] == list[..i] + [list[i]];
  }

  lemma ChosenGrows(seen: set<Entry>, home: Option<Entry>, e: Entry)
    requires Chosen(seen, home)
    ensures Chosen(seen + {e}, if home.None? || e.cookie.created < home.value.cookie.created then Some(e) else home)
  {
  }

  class CookieJar {
    var jars: Jars
    ghost var log: set<(string, Cookie)>

    ghost predicate Valid()
      reads this
    {
      Settled(jars)
    }

    constructor ()
      ensures Valid() && Sound(World(jars, log)) && jars == map[] && log == {}
    {
      jars, log := map[], {};
      EmptyIsSound();
    }

    /** The filter loop of deletions, of the expired pass, of the collapse of strays and of the header's
        lazy purge: every bucket in scope loses what `drop` says, and emptied buckets are deleted. */
    method FilterBuckets(scope: string -> bool, drop: Cookie -> bool) returns (removed: seq<Entry>)
      requires Valid()
      modifies `jars
      ensures Valid() && jars == Without(old(jars), Members(removed))
      ensures Distinct(removed)
      ensures forall e :: e in removed <==> Holds(old(jars), e) && scope(e.key) && drop(e.cookie)
    {
      removed := [];
      var todo := jars.Keys;
      ghost var before := jars;
      WithoutNothing(jars, Members([]));
      while todo != {}
        invariant todo <= before.Keys && Settled(before)
        invariant jars == Without(before, Members(removed))
        invariant Distinct(removed)
        invariant forall e :: e in removed <==> Holds(before, e) && e.key !in todo && scope(e.key) && drop(e.cookie)
        decreases |todo|
      {
        var k :| k in todo;
        todo := todo - {k};
        if scope(k) {
          FilterTurn(before, removed, k, drop);
          var dead := Dropped(jars[k], drop);
          if dead != [] {
            jars := Rewritten(jars, k, Spared(jars[k], drop));
          }
          removed := removed + Tagged(k, dead);
        }
      }
      WithoutSettled(before, Members(removed));
    }

    /** Every live cookie of the profile, with its bucket. */
    method CollectLive(ns: string, now: int) returns (all: seq<Entry>)
      requires Valid()
      ensures Distinct(all)
      ensures forall e :: e in all <==> e in Stored(jars, ns) && Live(e.cookie, now)
    {
      all := [];
      var todo := jars.Keys;
      while todo != {}
        invariant todo <= jars.Keys && Distinct(all)
        invariant forall e :: e in all <==>
          Holds(jars, e) && e.key !in todo && InProfile(e.key, ns) && Live(e.cookie, now)
        decreases |todo|
      {
        var k :| k in todo;
        todo := todo - {k};
        if InProfile(k, ns) {
          var living := Dropped(jars[k], c => Live(c, now));
          DroppedOnce(jars[k], c => Live(c, now));
          TaggedDistinct(k, living);
          all := all + Tagged(k, living);
        }
      }
    }

    /** Evict `excess` entries, the cheapest unshielded ones, one bucket at a time. */
    method Evict(entries: seq<Entry>, excess: nat, shield: Option<Entry>) returns (doomed: seq<Entry>)
      requires Valid() && Distinct(entries) && excess < |entries|
      modifies `jars
      ensures Valid() && jars == Without(old(jars), Members(doomed)) && Distinct(doomed)
      ensures Cheapest(Members(entries), shield, excess, Members(doomed))
    {
      doomed := Doomed(entries, shield, excess);
      DoomedIsCheapest(entries, shield, excess);
      ghost var before := jars;
      ghost var gone: set<Entry> := {};
      var todo := set e <- doomed :: e.key;
      WithoutNothing(jars, gone);
      while todo != {}
        invariant Settled(jars) && jars == Without(before, gone)
        invariant forall e :: e in gone <==> e in doomed && e.key !in todo
        decreases |todo|
      {
        var k :| k in todo;
        todo := todo - {k};
        var dead := set e <- doomed | e.key == k;
        WithoutTwice(before, gone, dead);
        DropFrom(k, dead);
        gone := gone + dead;
      }
      assert gone == Members(doomed);
    }

    method DropFrom(key: string, dead: set<Entry>)
      requires Valid() && forall e <- dead :: e.key == key
      modifies `jars
      ensures Valid() && jars == Without(old(jars), dead)
    {
      WithoutSettled(jars, dead);
      if key in jars {
        RewrittenIsWithout(jars, key, dead);
        jars := Rewritten(jars, key, Kept(jars[key], key, dead));
      } else {
        WithoutNothing(jars, dead);
      }
    }

    /** The sweep: the expired go, then each crowded Domain, then the surplus of the whole profile. */
    method SweepJarLimits(ns: string, now: int, shield: Option<Entry>) returns (removed: seq<Entry>)
      requires Valid()
      modifies `jars
      ensures Valid() && jars == Without(old(jars), Members(removed)) && Distinct(removed)
      ensures Swept(Stored(old(jars), ns), now, shield, Members(removed))
    {
      ghost var pool := Stored(jars, ns);
      var expired := FilterBuckets(k => InProfile(k, ns), c => !Live(c, now));
      assert Members(expired) == ExpiredIn(pool, now);
      ghost var atTwo := jars;
      var crowded := EvictCrowded(ns, now, shield, pool - Members(expired));
      ghost var atThree := jars;
      var surplus := EvictSurplus(ns, now, shield, pool - Members(expired) - Members(crowded));
      removed := expired + crowded + surplus;
      ThreePasses(old(jars), pool, now, shield, expired, crowded, surplus);
    }

    method EvictSurplus(ns: string, now: int, shield: Option<Entry>, ghost pool: set<Entry>)
      returns (surplus: seq<Entry>)
      requires Valid() && pool == Stored(jars, ns) && forall e <- pool :: Live(e.cookie, now)
      modifies `jars
      ensures Valid() && jars == Without(old(jars), Members(surplus)) && Distinct(surplus)
      ensures Trimmed(pool, shield, MAX_TOTAL, Members(surplus))
    {
      var all := CollectLive(ns, now);
      DistinctCount(all);
      assert Members(all) == pool;
      if |all| > MAX_TOTAL {
        surplus := Evict(all, |all| - MAX_TOTAL, shield);
      } else {
        surplus := [];
        assert Members(surplus) == {};
        WithoutNothing(jars, Members(surplus));
      }
    }

    method TrimDomain(all: seq<Entry>, d: string, shield: Option<Entry>, ghost pool: set<Entry>)
      returns (dead: seq<Entry>)
      requires Valid() && Distinct(all) && Members(all) == pool
      modifies `jars
      ensures Valid() && jars == Without(old(jars), Members(dead)) && Distinct(dead)
      ensures Trimmed(OfDomain(pool, d), shield, MAX_PER_DOMAIN, Members(dead))
    {
      var entries := InDomain(all, d);
      InDomainDistinct(all, d);
      DistinctCount(entries);
      assert Members(entries) == OfDomain(pool, d);
      if |entries| > MAX_PER_DOMAIN {
        dead := Evict(entries, |entries| - MAX_PER_DOMAIN, shield);
      } else {
        dead := [];
        assert Members(dead) == {};
        WithoutNothing(jars, Members(dead));
      }
    }

    /** Pass two: each Domain by itself, in any order. */
    method EvictCrowded(ns: string, now: int, shield: Option<Entry>, ghost pool: set<Entry>)
      returns (crowded: seq<Entry>)
      requires Valid() && pool == Stored(jars, ns) && forall e <- pool :: Live(e.cookie, now)
      modifies `jars
      ensures Valid() && jars == Without(old(jars), Members(crowded)) && Distinct(crowded)
      ensures Members(crowded) <= pool
      ensures forall d: string ::
        Trimmed(OfDomain(pool, d), shield, MAX_PER_DOMAIN, OfDomain(Members(crowded), d))
    {
      ghost var before := jars;
      var all := CollectLive(ns, now);
      crowded := [];
      var todo := set e <- all :: e.cookie.domain;
      assert Members(all) == pool;
      NothingCrowded(before, pool, todo);
      hide CrowdedSoFar, Trimmed, Without, OfDomain, Distinct, Settled;
      while todo != {}
        invariant Settled(jars) && jars == Without(before, Members(crowded))
        invariant CrowdedSoFar(pool, shield, todo, crowded)
        decreases |todo|
      {
        var d :| d in todo;
        var dead := TrimDomain(all, d, shield, pool);
        CrowdedTurn(before, pool, shield, todo, crowded, d, dead);
        todo, crowded := todo - {d}, crowded + dead;
      }
      CrowdedDone(pool, shield, crowded);
    }

    // ----- admission -----

    /** The earliest-created copy of the identity, wherever it lives in the profile. */
    method FindCanonical(ns: string, id: Identity) returns (home: Option<Entry>)
      requires Valid()
      ensures Chosen(Copies(jars, ns, id), home)
    {
      home := None;
      var todo := jars.Keys;
      ghost var seen: set<Entry> := {};
      while todo != {}
        invariant todo <= jars.Keys && Chosen(seen, home)
        invariant forall e :: e in seen <==> e in Copies(jars, ns, id) && e.key !in todo
        decreases |todo|
      {
        var k :| k in todo;
        todo := todo - {k};
        if InProfile(k, ns) {
          home := ScanBucket(k, id, home, seen);
          seen := seen + CopiesIn(k, jars[k], id);
        }
      }
      assert seen == Copies(jars, ns, id);
    }

    method ScanBucket(k: string, id: Identity, first: Option<Entry>, ghost before: set<Entry>)
      returns (home: Option<Entry>)
      requires k in jars && Chosen(before, first)
      ensures Chosen(before + CopiesIn(k, jars[k], id), home)
    {
      home := first;
      var list := jars[k];
      assert before + CopiesIn(k, list[..0], id) == before;
      hide Chosen;
      for i := 0 to |list|
        invariant Chosen(before + CopiesIn(k, list[..i], id), home)
      {
        ghost var seen := before + CopiesIn(k, list[..i], id);
        CopiesSnoc(before, k, list, i, id);
        ChosenGrows(seen, home, Entry(k, list[i]));
        if IdentityOf(list[i]) == id {
          if home.None? || list[i].created < home.value.cookie.created {
            home := Some(Entry(k, list[i]));
          }
        }
      }
      assert list[..|list|] == list;
    }

    /** A deletion: every copy in the profile goes, but a script spares the HttpOnly ones. */
    method Retire(ns: string, id: Identity, fromScript: bool) returns (r: Outcome)
      requires Valid()
      modifies `jars
      ensures Valid() && jars == Without(old(jars), Retired(old(jars), ns, id, fromScript))
      ensures RetireReply(Retired(old(jars), ns, id, fromScript), r)
    {
      var removed := FilterBuckets(k => InProfile(k, ns), c => IdentityOf(c) == id && !(fromScript && c.httpOnly));
      assert Members(removed) == Retired(old(jars), ns, id, fromScript);
      r := ReplyFor(removed);
    }

    method ReplyFor(removed: seq<Entry>) returns (r: Outcome)
      ensures RetireReply(Members(removed), r)
    {
      r := NothingToRetire;
      for i := 0 to |removed|
        invariant RetireReply(Members(removed[..i]), r)
      {
        assert Members(removed[..i + 1]) == Members(removed[..i]) + {removed[i]};
        ghost var soFar := Members(removed[..i]);
        if r == NothingToRetire || removed[i].cookie.created < r.cookie.created {
          r := Deleted(removed[i].cookie);
          assert Earliest(soFar + {removed[i]}, removed[i]);
        }
      }
      assert removed[..|removed|] == removed;
    }

    /** Put the cookie in place: over its canonical copy, the strays collapsed, or at the end of the response
        origin's bucket. */
    method Place(ns: string, key: string, c: Cookie, home: Option<Entry>)
      requires Valid() && InProfile(key, ns) && Chosen(Copies(jars, ns, IdentityOf(c)), home)
      modifies `jars
      ensures Valid() && jars == Placed(old(jars), ns, key, c, home)
    {
      PlacedHolds(jars, ns, key, c, home);
      match home {
        case Some(h) =>
          var strays := FilterBuckets(k => InProfile(k, ns) && k != h.key, x => IdentityOf(x) == IdentityOf(c));
          assert Members(strays) == Strays(old(jars), ns, IdentityOf(c), h);
          WithoutElsewhere(old(jars), Members(strays), h.key);
          var jar := jars[h.key];
          jar := jar[Position(jar, h.cookie) := Fresh(key, c, home).cookie];
          jars := jars[h.key := jar];
        case None =>
          jars := jars[key := BucketOf(jars, key) + [c]];
      }
    }

    /** A kept cookie: refused over an HttpOnly canonical copy when a script writes, else placed and swept. */
    method Keep(ns: string, now: int, key: string, c: Cookie, fromScript: bool)
      returns (r: Outcome, evicted: seq<Entry>, ghost home: Option<Entry>)
      requires Valid() && InProfile(key, ns)
      modifies `jars
      ensures Valid() && KeepOutcome(old(jars), ns, now, key, c, fromScript, home, evicted, jars, r)
    {
      var canonical := FindCanonical(ns, IdentityOf(c));
      home := canonical;
      evicted := [];
      if fromScript && canonical.Some? && canonical.value.cookie.httpOnly {
        return Refused(HttpOnlyKept), [], home;
      }
      Place(ns, key, c, canonical);
      evicted := SweepJarLimits(ns, now, Some(Fresh(key, c, canonical)));
      r := Admitted(Fresh(key, c, canonical).cookie, canonical.Some?);
    }

    /** One Set-Cookie of one response, from its parsed attributes on. */
    method Admit(psl: Suffixes, url: Option<Url>, a: Attributes, fromScript: bool, pid: string, root: string, now: int)
      returns (r: Outcome, evicted: seq<Entry>, ghost home: Option<Entry>)
      requires Valid() && WellRead(a) && now > 0
      requires url.Some? ==> SEP !in url.value.originId
      modifies this
      ensures Valid()
      ensures var ns := Namespace(pid, root);
        match Judge(psl, a, url, now)
        case Refuse(why) => r == Refused(why) && jars == old(jars) && evicted == []
        case Retire(id) =>
          && jars == Without(old(jars), Retired(old(jars), ns, id, fromScript))
          && RetireReply(Retired(old(jars), ns, id, fromScript), r)
        case Keep(c) =>
          KeepOutcome(old(jars), ns, now, JarKey(url.value.originId, ns), c, fromScript, home, evicted, jars, r)
      ensures r.Admitted? ==> url.Some? && AsTheRecordSays(psl, a, url.value, now, r.cookie)
      ensures fromScript && OneCopy(old(jars), Namespace(pid, root)) ==>
        forall e <- Stored(old(jars), Namespace(pid, root)) ::
          e.cookie.httpOnly ==> e in Stored(jars, Namespace(pid, root)) || e in evicted
      ensures SameOutside(old(jars), jars, Namespace(pid, root))
      ensures Step(World(old(jars), old(log)), World(jars, log))
    {
      var ns := Namespace(pid, root);
      evicted, home := [], None;
      match Judge(psl, a, url, now) {
        case Refuse(why) =>
          r := Refused(why);
          Unmoved(jars, log);
        case Retire(id) =>
          r := Retire(ns, id, fromScript);
          ScriptRetiresNoGuarded(old(jars), ns, id);
          RetireMeetsItsPromises(old(jars), ns, id, fromScript);
          assert Drop(World(old(jars), log), World(jars, log), Retired(old(jars), ns, id, fromScript));
        case Keep(c) =>
          var key := JarKey(url.value.originId, ns);
          KeyHasOneNamespace(url.value.originId, pid, root, pid, root);
          r, evicted, home := Keep(ns, now, key, c, fromScript);
          if r.Admitted? {
            log := log + {(url.value.host, r.cookie)};
          }
          KeptAsTheRecordSays(psl, a, url.value, now, key, home);
          KeepStaysInside(old(jars), ns, now, key, c, fromScript, home, evicted, jars, r);
          if fromScript {
            ScriptSparesGuarded(old(jars), ns, now, key, c, home, evicted, jars, r);
          }
          KeepIsStep(old(jars), old(log), url.value.host, pid, root, now, key, c, fromScript, home, evicted, jars, r);
      }
    }

    /** Every Set-Cookie of a response, unless the client's namespace is the shared unbound one. */
    method ApplySetCookie(psl: Suffixes, url: Option<Url>, list: seq<Attributes>, pid: string, root: string, now: int)
      returns (results: seq<Outcome>)
      requires Valid() && now > 0 && forall a <- list :: WellRead(a)
      requires url.Some? ==> SEP !in url.value.originId
      requires Sound(World(jars, log))
      modifies this
      ensures Valid() && Sound(World(jars, log))
      ensures if Namespace(pid, root) == UNBOUND_NAMESPACE then jars == old(jars) && results == []
              else |results| == |list|
      ensures SameOutside(old(jars), jars, Namespace(pid, root))
    {
      results := [];
      if Namespace(pid, root) == UNBOUND_NAMESPACE {
        return;
      }
      hide Sound, SameOutside, Settled, Namespace, Judge, KeepOutcome, Step, Retired, Without;
      for i := 0 to |list|
        invariant Valid() && Sound(World(jars, log)) && |results| == i
        invariant SameOutside(old(jars), jars, Namespace(pid, root))
      {
        ghost var w := World(jars, log);
        ghost var was := jars;
        var r, _, home := Admit(psl, url, list[i], false, pid, root, now);
        results := results + [r];
        StepKeeps(w, World(jars, log));
        SameOutsideTwice(old(jars), was, jars, Namespace(pid, root));
      }
    }

    // ----- attachment -----

    /** The Cookie header: purge what has expired anywhere, collect what attaches, sort, write. */
    method CookieHeaderFor(psl: Suffixes, policy: Policy, url: Option<Url>, ns: string, now: int, ctx: Context)
      returns (r: Option<string>, ghost line: seq<Entry>)
      requires Valid()
      modifies `jars
      ensures Valid()
      ensures url.None? ==> r == None && jars == old(jars)
      ensures url.Some? ==> jars == Without(old(jars), ExpiredIn(Entries(old(jars)), now))
      ensures url.Some? && ns == UNBOUND_NAMESPACE ==> r == None
      ensures url.Some? && ns != UNBOUND_NAMESPACE ==>
        Lists(line, Attached(psl, policy, old(jars), ns, now, url.value, ctx)) && r == HeaderText(line)
    {
      line := [];
      if url.None? {
        return None, [];
      }
      var u := url.value;
      Purge(now);
      if ns == UNBOUND_NAMESPACE {
        return None, [];
      }
      MatchesAfterPurge(psl, policy, old(jars), ns, now, u, ctx);
      hide *;
      var sorted := MatchingLine(psl, policy, ns, u, ctx);
      line, r := sorted, HeaderText(sorted);
    }

    /** Whatever has expired leaves the jar, in every profile. */
    method Purge(now: int)
      requires Valid()
      modifies `jars
      ensures Valid() && jars == Without(old(jars), ExpiredIn(Entries(old(jars)), now))
    {
      var purged := FilterBuckets(k => true, c => !Live(c, now));
      assert Members(purged) == ExpiredIn(Entries(old(jars)), now);
    }

    method MatchingLine(psl: Suffixes, policy: Policy, ns: string, u: Url, ctx: Context) returns (line: seq<Entry>)
      requires Valid()
      ensures Lists(line, Matching(psl, policy, jars, ns, u, ctx))
    {
      hide Attaches, InProfile, Lists, Distinct;
      var matched := CollectMatching(psl, policy, ns, u, ctx);
      assert Members(matched) == Matching(psl, policy, jars, ns, u, ctx);
      SortedLists(matched);
      line := Sort(matched, HeaderRank);
    }

    method CollectMatching(psl: Suffixes, policy: Policy, ns: string, u: Url, ctx: Context) returns (all: seq<Entry>)
      requires Valid()
      ensures Distinct(all)
      ensures forall e :: e in all <==> e in Stored(jars, ns) && Attaches(psl, policy, e.cookie, u, ctx)
    {
      all := [];
      var todo := jars.Keys;
      hide Attaches, InProfile;
      while todo != {}
        invariant todo <= jars.Keys && Distinct(all)
        invariant forall e :: e in all <==>
          Holds(jars, e) && e.key !in todo && InProfile(e.key, ns) && Attaches(psl, policy, e.cookie, u, ctx)
        decreases |todo|
      {
        var k :| k in todo;
        todo := todo - {k};
        if InProfile(k, ns) {
          var fit := Dropped(jars[k], c => Attaches(psl, policy, c, u, ctx));
          DroppedOnce(jars[k], c => Attaches(psl, policy, c, u, ctx));
          TaggedDistinct(k, fit);
          all := all + Tagged(k, fit);
        }
      }
    }

    // ----- clearing -----

    /** Delete every bucket in scope, counting buckets and cookies. */
    method DeleteBuckets(scope: string -> bool) returns (buckets: nat, cookies: nat, ghost gone: seq<Entry>)
      requires Valid()
      modifies `jars
      ensures Valid() && jars == map k | k in old(jars) && !scope(k) :: old(jars)[k]
      ensures buckets == |old(jars)| - |jars| && cookies == |gone| && Distinct(gone)
      ensures forall e :: e in gone <==> Holds(old(jars), e) && scope(e.key)
    {
      buckets, cookies, gone := 0, 0, [];
      var todo := jars.Keys;
      ghost var before := jars;
      assert jars == Outside(before, scope, todo);
      hide Outside, Distinct;
      while todo != {}
        invariant todo <= before.Keys
        invariant jars == Outside(before, scope, todo)
        invariant buckets == |before| - |jars| && cookies == |gone| && Distinct(gone)
        invariant forall e :: e in gone <==> Holds(before, e) && e.key !in todo && scope(e.key)
        decreases |todo|
      {
        var k :| k in todo;
        OutsideTurn(before, scope, todo, k);
        todo := todo - {k};
        if scope(k) {
          TaggedDistinct(k, jars[k]);
          DistinctJoin(gone, Tagged(k, jars[k]));
          gone := gone + Tagged(k, jars[k]);
          cookies := cookies + |jars[k]|;
          jars := jars - {k};
          buckets := buckets + 1;
        }
      }
      OutsideAll(before, scope);
    }

    /** Forget a session profile: every bucket whose key opens with its namespace and the separator. */
    method ClearNamespace(pid: string, root: string)
      requires Valid() && pid != DEFAULT
      modifies `jars
      ensures Valid() && Stored(jars, Namespace(pid, root)) == {}
      ensures SameOutside(old(jars), jars, Namespace(pid, root))
      ensures exists gone: set<Entry> :: jars == Without(old(jars), gone)
    {
      ghost var ns := Namespace(pid, root);
      NoSeparator(pid, root);
      var prefix := Namespace(pid, root) + [SEP];
      var _, _, gone := DeleteBuckets(k => prefix <= k);
      hide Namespace;
      ScopeIsWithout(old(jars), k => prefix <= k, Members(gone));
    }

    /** Clear a whole profile, or one origin's bucket inside it, and say how much went. */
    method ClearScope(pid: string, root: string, id: Option<string>) returns (buckets: nat, cookies: nat)
      requires Valid() && (id.Some? ==> SEP !in id.value)
      modifies `jars
      ensures var ns := Namespace(pid, root);
        && Valid() && SameOutside(old(jars), jars, ns)
        && (forall e :: Holds(jars, e) <==> Holds(old(jars), e) && !InScope(e.key, ns, id))
        && buckets == |old(jars)| - |jars|
        && cookies == |set e <- Entries(old(jars)) | InScope(e.key, ns, id)|
    {
      var ns := Namespace(pid, root);
      ghost var gone;
      if id.Some? {
        KeyHasOneNamespace(id.value, pid, root, pid, root);
      }
      hide Namespace;
      buckets, cookies, gone := DeleteBuckets(k => InScope(k, ns, id));
      DistinctCount(gone);
      assert Members(gone) == set e <- Entries(old(jars)) | InScope(e.key, ns, id);
    }
  }
}
