/** The Cookie header of a request (app/src/cookies.ts; RFC 6265 section 5.4). */
module CookieHeader {
  import opened Common
  import opened CookieRules
  import opened CookieStore
  import opened CookieProfiles
  import opened CookieRuns
  import opened UriText

  /** Longest path first, then earliest created. */
  function HeaderRank(c: Cookie): (int, int) {
    (-(Width(c.path) as int), c.created)
  }

  /** What the request carries: the profile's live cookies that attach to it. */
  function Attached(psl: Suffixes, policy: Policy, j: Jars, ns: string, now: int, u: Url, ctx: Context)
    : (r: set<Entry>)
    ensures forall e :: e in r <==> e in Stored(j, ns) && Live(e.cookie, now) && Attaches(psl, policy, e.cookie, u, ctx)
  {
    set e | e in Stored(j, ns) && Live(e.cookie, now) && Attaches(psl, policy, e.cookie, u, ctx)
  }

  /** The same in a jar that has just lost its expired cookies. */
  function Matching(psl: Suffixes, policy: Policy, j: Jars, ns: string, u: Url, ctx: Context): (r: set<Entry>)
    ensures forall e :: e in r <==> e in Stored(j, ns) && Attaches(psl, policy, e.cookie, u, ctx)
  {
    set e | e in Stored(j, ns) && Attaches(psl, policy, e.cookie, u, ctx)
  }

  /** `line` lists exactly these cookies, each once, in header order. */
  predicate Lists(line: seq<Entry>, what: set<Entry>) {
    && Distinct(line) && Members(line) == what
    && forall a, b :: 0 <= a < b < |line| ==>
         var x, y := line[a].cookie, line[b].cookie;
         Width(x.path) > Width(y.path) || (Width(x.path) == Width(y.path) && x.created <= y.created)
  }

  function Pairs(line: seq<Entry>): string
    decreases |line|
  {
    if line == [] then ""
    else if |line| == 1 then line[0].cookie.name + "=" + line[0].cookie.value
    else line[0].cookie.name + "=" + line[0].cookie.value + "; " + Pairs(line[1..])
  }

  function HeaderText(line: seq<Entry>): Option<string> {
    if line == [] then None else Some(Pairs(line))
  }

  lemma SortedLists(s: seq<Entry>)
    requires Distinct(s)
    ensures Lists(Sort(s, HeaderRank), Members(s))
  {
    SortSorts(s, HeaderRank);
    hide Sort;
  }

  /** In a jar built by admissions, the Domain of every cookie a request carries covers both the requesting
      host and the host that set it. */
  lemma DomainCoversBoth(w: World, psl: Suffixes, policy: Policy, ns: string, now: int, u: Url, ctx: Context,
                         e: Entry)
    requires Sound(w) && e in Attached(psl, policy, w.jars, ns, now, u, ctx)
    ensures Covers(u.host, e.cookie) && SetBy(w.log, e.cookie)
  {
    hide Healthy;
  }

  /** A host-only cookie goes back to exactly the host that set it. */
  lemma HostOnlyGoesHome(w: World, psl: Suffixes, policy: Policy, ns: string, now: int, u: Url, ctx: Context,
                         e: Entry)
    requires Sound(w) && e in Attached(psl, policy, w.jars, ns, now, u, ctx) && e.cookie.hostOnly
    ensures (u.host, e.cookie) in w.log
  {
    hide Healthy;
    assert SetBy(w.log, e.cookie);
  }

  /** Within one profile of a jar built by admissions a request never carries two cookies of one identity. */
  lemma NoTwins(w: World, psl: Suffixes, policy: Policy, pid: string, root: string, now: int, u: Url,
                ctx: Context, e: Entry, f: Entry)
    requires Sound(w)
    requires e in Attached(psl, policy, w.jars, Namespace(pid, root), now, u, ctx)
    requires f in Attached(psl, policy, w.jars, Namespace(pid, root), now, u, ctx)
    ensures IdentityOf(e.cookie) == IdentityOf(f.cookie) ==> e == f
  {
    assert Healthy(Stored(w.jars, Namespace(pid, root)));
  }

  /** Over every run: a header line written from the jar the run ends with carries exactly the live cookies of the
      profile that RFC 6265 section 5.4 sends, no identity twice, and the longer paths first. A Secure cookie goes to
      https only, the path is one of the cookie's, the Domain covers the requesting host and a host that set the
      cookie, a host-only one goes to the host that set it only, and under the SameSite policy a request from
      elsewhere carries no strict cookie, and a lax or undeclared one on a navigation only. */
  lemma HeaderOfEveryRun(ws: seq<World>, psl: Suffixes, policy: Policy, pid: string, root: string, now: int, u: Url,
                         ctx: Context, line: seq<Entry>)
    requires Run(ws) && u.path != "" && u.path[0] == '/'
    requires Lists(line, Attached(psl, policy, ws[|ws| - 1].jars, Namespace(pid, root), now, u, ctx))
    ensures forall e: Entry :: e in line <==>
      e in Stored(ws[|ws| - 1].jars, Namespace(pid, root)) && Live(e.cookie, now) && RfcSends(psl, policy, e.cookie, u, ctx)
    ensures forall e <- line :: var c := e.cookie;
      && (c.secure ==> u.secure) && RfcPathMatch(u.path, c.path)
      && (c.hostOnly ==> u.host == c.domain && (u.host, c) in ws[|ws| - 1].log)
      && (!c.hostOnly ==> RfcDomainMatch(u.host, c.domain)) && SetBy(ws[|ws| - 1].log, c)
    ensures policy == Approx && FromElsewhere(psl, u, ctx) ==>
      forall e <- line :: e.cookie.sameSite != Strict && (e.cookie.sameSite in {Lax, Unset} ==> ctx.navigation)
    ensures forall a, b :: 0 <= a < b < |line| ==>
      && IdentityOf(line[a].cookie) != IdentityOf(line[b].cookie)
      && Width(line[a].cookie.path) >= Width(line[b].cookie.path)
  {
    LineIsRfc(psl, policy, ws[|ws| - 1].jars, Namespace(pid, root), now, u, ctx, line);
    EveryRunIsSound(ws);
    hide Run, Attached, Stored, FromElsewhere, Live, Namespace, Sound, RfcPathMatch, RfcDomainMatch;
    SoundLine(ws[|ws| - 1], psl, policy, pid, root, now, u, ctx, line);
  }

  lemma LineIsRfc(psl: Suffixes, policy: Policy, j: Jars, ns: string, now: int, u: Url, ctx: Context, line: seq<Entry>)
    requires u.path != "" && u.path[0] == '/' && Lists(line, Attached(psl, policy, j, ns, now, u, ctx))
    ensures forall e: Entry :: e in line <==>
      e in Stored(j, ns) && Live(e.cookie, now) && RfcSends(psl, policy, e.cookie, u, ctx)
  {
    hide Attaches, RfcSends, Live, Stored;
    forall e: Entry
      ensures e in line <==> e in Stored(j, ns) && Live(e.cookie, now) && RfcSends(psl, policy, e.cookie, u, ctx)
    {
      AttachesIsRfc(psl, policy, e.cookie, u, ctx);
      assert e in line <==> e in Members(line);
    }
  }

  lemma SoundLine(w: World, psl: Suffixes, policy: Policy, pid: string, root: string, now: int, u: Url,
                  ctx: Context, line: seq<Entry>)
    requires Sound(w) && Lists(line, Attached(psl, policy, w.jars, Namespace(pid, root), now, u, ctx))
    ensures forall e <- line :: SetBy(w.log, e.cookie) && (e.cookie.hostOnly ==> (u.host, e.cookie) in w.log)
    ensures forall a, b :: 0 <= a < b < |line| ==> IdentityOf(line[a].cookie) != IdentityOf(line[b].cookie)
  {
    var ns := Namespace(pid, root);
    hide Sound, Attached, SetBy, Covers, Namespace;
    forall e <- line ensures SetBy(w.log, e.cookie) && (e.cookie.hostOnly ==> (u.host, e.cookie) in w.log) {
      assert e in Members(line);
      DomainCoversBoth(w, psl, policy, ns, now, u, ctx, e);
      if e.cookie.hostOnly {
        HostOnlyGoesHome(w, psl, policy, ns, now, u, ctx, e);
      }
    }
    forall a, b | 0 <= a < b < |line| ensures IdentityOf(line[a].cookie) != IdentityOf(line[b].cookie) {
      assert line[a] in Members(line) && line[b] in Members(line);
      NoTwins(w, psl, policy, pid, root, now, u, ctx, line[a], line[b]);
    }
  }

  /** The header's text: the pairs in their order, each a name, an equals sign and a value, two set apart by a
      semicolon and a blank; nothing for an empty line. */
  lemma {:induction false} PairsJoin(a: seq<Entry>, b: seq<Entry>)
    requires a != [] && b != []
    ensures HeaderText(a + b) == Some(HeaderText(a).value + "; " + HeaderText(b).value)
    ensures forall e: Entry :: HeaderText([e]) == Some(e.cookie.name + "=" + e.cookie.value)
    ensures HeaderText([]) == None
    decreases |a|
  {
    if |a| == 1 {
      assert (a + b)[1..] == b;
    } else {
      assert (a + b)[1..] == a[1..] + b;
      PairsJoin(a[1..], b);
      var p, r, q := a[0].cookie.name + "=" + a[0].cookie.value, Pairs(a[1..]), Pairs(b);
      assert p + "; " + (r + "; " + q) == p + "; " + r + "; " + q;
    }
  }
}
