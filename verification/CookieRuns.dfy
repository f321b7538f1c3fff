/** Every run of admissions, purges, clearings and profile switches over one shared jar
    (app/src/cookies.ts), with a record of which host stored which cookie. */
module CookieRuns {
  import opened Common
  import opened CookieRules
  import opened CookieStore
  import opened CookieProfiles
  import opened CookieEviction
  import opened CookieAdmission

  /** The jar, and every (response host, stored cookie) so far. */
  datatype World = World(jars: Jars, log: set<(string, Cookie)>)

  /** Cookies leave: a deletion, an expiry purge, a cleared or abandoned profile. */
  ghost predicate Drop(w: World, v: World, gone: set<Entry>) {
    v == World(Without(w.jars, gone), w.log)
  }

  /** A response of `host` stores a cookie that covers it. */
  ghost predicate Store(w: World, v: World, host: string, pid: string, root: string, now: int, key: string,
                        c: Cookie, home: Option<Entry>, gone: set<Entry>) {
    var ns := Namespace(pid, root);
    && InProfile(key, ns) && Covers(host, c) && Live(c, now)
    && Chosen(Copies(w.jars, ns, IdentityOf(c)), home)
    && StoreStep(w.jars, ns, now, key, c, home, gone, v.jars)
    && v.log == w.log + {(host, Fresh(key, c, home).cookie)}
  }

  ghost predicate Step(w: World, v: World) {
    || (exists gone: set<Entry> :: Drop(w, v, gone))
    || (exists host: string, pid: string, root: string, now: int, key: string, c: Cookie, home: Option<Entry>,
          gone: set<Entry> :: Store(w, v, host, pid, root, now, key, c, home, gone))
  }

  /** A run from the empty jar. */
  ghost predicate Run(ws: seq<World>) {
    && ws != [] && ws[0] == World(map[], {})
    && forall i :: 0 <= i < |ws| - 1 ==> Step(ws[i], ws[i + 1])
  }

  /** Some host stored the cookie, and its Domain covers that host. */
  ghost predicate SetBy(log: set<(string, Cookie)>, c: Cookie) {
    exists h: string :: (h, c) in log && Covers(h, c)
  }

  ghost predicate Attributed(w: World) {
    forall e: Entry :: Holds(w.jars, e) ==> SetBy(w.log, e.cookie)
  }

  ghost predicate Healthy(pool: set<Entry>) {
    && WithinCaps(pool)
    && forall e <- pool, f <- pool :: IdentityOf(e.cookie) == IdentityOf(f.cookie) ==> e == f
  }

  /** What every run keeps: tidy buckets, in each profile the limits and one copy of each identity, and for
      each cookie a host that set it. */
  ghost predicate Sound(w: World) {
    && Settled(w.jars) && Attributed(w)
    && forall pid: string, root: string :: Healthy(Stored(w.jars, Namespace(pid, root)))
  }

  lemma HealthyShrinks(pool: set<Entry>, left: set<Entry>)
    requires Healthy(pool) && left <= pool
    ensures Healthy(left)
  {
    SubsetCount(left, pool);
    forall d: string ensures |OfDomain(left, d)| <= MAX_PER_DOMAIN {
      SubsetCount(OfDomain(left, d), OfDomain(pool, d));
    }
  }

  lemma DropKeeps(w: World, v: World, gone: set<Entry>)
    requires Sound(w) && Drop(w, v, gone)
    ensures Sound(v)
  {
    WithoutSettled(w.jars, gone);
    forall pid: string, root: string ensures Healthy(Stored(v.jars, Namespace(pid, root))) {
      HealthyShrinks(Stored(w.jars, Namespace(pid, root)), Stored(v.jars, Namespace(pid, root)));
    }
    hide Healthy, Settled, Without;
  }

  lemma HealthyAfterStore(pool: set<Entry>, id: Identity, newcomer: Entry, after: set<Entry>)
    requires Healthy(pool) && WithinCaps(after) && IdentityOf(newcomer.cookie) == id
    requires forall e <- after :: e == newcomer || (e in pool && IdentityOf(e.cookie) != id)
    ensures Healthy(after)
  {
    hide WithinCaps;
  }

  lemma StoreHeals(w: World, v: World, host: string, pid: string, root: string, now: int, key: string, c: Cookie,
                   home: Option<Entry>, gone: set<Entry>)
    requires Sound(w) && Store(w, v, host, pid, root, now, key, c, home, gone)
    ensures Settled(v.jars) && SameOutside(w.jars, v.jars, Namespace(pid, root))
    ensures Healthy(Stored(v.jars, Namespace(pid, root)))
    ensures forall e <- Stored(v.jars, Namespace(pid, root)) :: e == Fresh(key, c, home) || Holds(w.jars, e)
  {
    var ns := Namespace(pid, root);
    StoreMeetsItsPromises(w.jars, ns, now, key, c, home, gone, v.jars);
    var newcomer := Fresh(key, c, home);
    assert Healthy(Stored(w.jars, ns));
    hide *;
    Survivors(w.jars, ns, IdentityOf(c), newcomer, gone, Stored(v.jars, ns));
    FreshIdentity(key, c, home);
    HealthyAfterStore(Stored(w.jars, ns), IdentityOf(c), newcomer, Stored(v.jars, ns));
  }

  lemma FreshIdentity(key: string, c: Cookie, home: Option<Entry>)
    ensures IdentityOf(Fresh(key, c, home).cookie) == IdentityOf(c)
  {
  }

  lemma Survivors(j: Jars, ns: string, id: Identity, newcomer: Entry, gone: set<Entry>, after: set<Entry>)
    requires after + gone == Stored(j, ns) - Copies(j, ns, id) + {newcomer}
    ensures forall e <- after :: e == newcomer || (e in Stored(j, ns) && Holds(j, e) && IdentityOf(e.cookie) != id)
  {
    hide IdentityOf, InProfile;
    forall e <- after ensures e == newcomer || (e in Stored(j, ns) && IdentityOf(e.cookie) != id) {
      assert e in after + gone;
    }
  }

  lemma StoreKeeps(w: World, v: World, host: string, pid: string, root: string, now: int, key: string, c: Cookie,
                   home: Option<Entry>, gone: set<Entry>)
    requires Sound(w) && Store(w, v, host, pid, root, now, key, c, home, gone)
    ensures Sound(v)
  {
    StoreHeals(w, v, host, pid, root, now, key, c, home, gone);
    StoreAttributes(w, v, host, pid, root, now, key, c, home, gone);
    hide Healthy, Settled, Store, Attributed;
    forall q: string, s: string ensures Healthy(Stored(v.jars, Namespace(q, s))) {
      if SameProfile(pid, root, q, s) {
        NamespacesDistinct(pid, root, q, s);
      } else {
        OtherProfilesKeep(w.jars, v.jars, pid, root, q, s);
      }
    }
  }

  lemma StoreAttributes(w: World, v: World, host: string, pid: string, root: string, now: int, key: string,
                        c: Cookie, home: Option<Entry>, gone: set<Entry>)
    requires Sound(w) && Store(w, v, host, pid, root, now, key, c, home, gone)
    ensures Attributed(v)
  {
    StoreHeals(w, v, host, pid, root, now, key, c, home, gone);
    var ns := Namespace(pid, root);
    var f := Fresh(key, c, home).cookie;
    assert (host, f) in v.log && Covers(host, f);
    assert forall x: Cookie :: SetBy(w.log, x) ==> SetBy(v.log, x);
    hide StoreStep, Chosen, Settled, Healthy, Covers, SetBy;
    assert SetBy(v.log, f) by {
      SetByHost(v.log, host, f);
    }
    forall e: Entry | Holds(v.jars, e) ensures SetBy(v.log, e.cookie) {
      if InProfile(e.key, ns) {
        assert e in Stored(v.jars, ns);
      } else {
        assert Holds(w.jars, e);
      }
    }
  }

  lemma SetByHost(log: set<(string, Cookie)>, h: string, c: Cookie)
    requires (h, c) in log && Covers(h, c)
    ensures SetBy(log, c)
  {
  }

  /** Safety over whole runs. */
  lemma {:induction false} EveryRunIsSound(ws: seq<World>)
    requires Run(ws)
    ensures Sound(ws[|ws| - 1])
    decreases |ws|
  {
    hide *;
    LastStep(ws);
    if |ws| == 1 {
      EmptyIsSound();
    } else {
      EveryRunIsSound(ws[..|ws| - 1]);
      StepKeeps(ws[|ws| - 2], ws[|ws| - 1]);
    }
  }

  lemma LastStep(ws: seq<World>)
    requires Run(ws)
    ensures ws != [] && (|ws| == 1 ==> ws[0] == World(map[], {}))
    ensures |ws| > 1 ==> Run(ws[..|ws| - 1]) && Step(ws[|ws| - 2], ws[|ws| - 1])
  {
    if |ws| > 1 {
      assert Step(ws[|ws| - 2], ws[|ws| - 2 + 1]);
    }
    hide Step;
  }

  lemma EmptyIsSound()
    ensures Sound(World(map[], {}))
  {
    forall pid: string, root: string ensures Healthy(Stored(map[], Namespace(pid, root))) {
      assert Stored(map[], Namespace(pid, root)) == {};
      assert forall d: string :: OfDomain({}, d) == {};
    }
  }

  lemma StepKeeps(w: World, v: World)
    requires Sound(w) && Step(w, v)
    ensures Sound(v)
  {
    hide Sound, Drop, Store;
    if gone: set<Entry> :| Drop(w, v, gone) {
      DropKeeps(w, v, gone);
    } else {
      var host: string, pid: string, root: string, now: int, key: string, c: Cookie, home: Option<Entry>,
          gone: set<Entry> :| Store(w, v, host, pid, root, now, key, c, home, gone);
      StoreKeeps(w, v, host, pid, root, now, key, c, home, gone);
    }
  }
}
