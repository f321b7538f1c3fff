/** Minting, decoding and re-minting query routes: the results over `QueryHandle` and `QueryText`. */
module QueryRoutes {
  import opened Common
  import opened Base64Url
  import opened RouteTokens
  import opened QueryText
  import opened QueryHandle

  /** The arguments of one mint: the clock, the life of the handle, its nonce and host root. */
  datatype Mint = Mint(now: nat, ttl: nat, nonce: bytes, root: Option<bytes>) {
    ghost predicate Ok(e: Env) {
      NonceOk(nonce) && (root.Some? ==> e.c.utf8(root.value))
    }
  }

  function FreshToken(e: Env, key: bytes, u: Url, m: Mint): string {
    MintHandle(e, key, m.now + m.ttl, u.origin, m.nonce, m.root)
  }

  /** `buildQueryHandleUrl`: None without a key, for a non-http(s) destination, or for an engine path. */
  function Built(e: Env, keys: seq<bytes>, prefix: string, u: Url, m: Mint): Option<Url> {
    if keys == [] || !OriginOnly(e, u.origin) || EnginePathShaped(prefix, u.path) then None
    else Some(Committed(e, keys, u, FreshToken(e, keys[0], u, m)))
  }

  lemma FreshPart(e: Env, keys: seq<bytes>, u: Url, m: Mint)
    requires PlatformOk(e) && m.Ok(e) && keys != [] && OriginOnly(e, u.origin)
    ensures var t := FreshToken(e, keys[0], u, m);
      InAlphabet(t) && NavInfo(e, keys, t) == Some(Info(u.origin, RootBack(e, m.root), m.now + m.ttl))
      && EnginePart(e, keys, HEAD + t)
  {
    var t := FreshToken(e, keys[0], u, m);
    MintedInfo(e, keys, m.now + m.ttl, u.origin, m.nonce, m.root);
    ValuesText(Sextets(Token(e.c, keys[0], HandlePayload(e, m.now + m.ttl, u.origin, m.nonce, m.root))));
    hide MintHandle, NavInfo;
    assert (HEAD + t)[|HEAD|..] == t;
  }

  /** Whatever engine tokens the destination's search carried, live, expired or stacked, the committed
      search carries exactly one, behind the site's own parts in their order. */
  lemma ExactlyOneToken(e: Env, keys: seq<bytes>, prefix: string, u: Url, m: Mint)
    requires PlatformOk(e) && m.Ok(e) && Built(e, keys, prefix, u, m).Some?
    ensures var parts := Parts(Built(e, keys, prefix, u, m).value.search);
      && CountEngine(e, keys, parts) == 1
      && SiteParts(e, keys, parts) == SiteParts(e, keys, Parts(u.search))
      && parts == SiteParts(e, keys, Parts(u.search)) + [HEAD + FreshToken(e, keys[0], u, m)]
  {
    var site := SiteParts(e, keys, Parts(u.search));
    var t := FreshToken(e, keys[0], u, m);
    FreshPart(e, keys, u, m);
    NoAmpersand(e, keys, u.search, t);
    hide FreshToken, EnginePart;
    PartsOfSearch(site + [HEAD + t]);
    SitePartsAppend(e, keys, site, [HEAD + t]);
    SitePartsAreClean(e, keys, site);
    assert [HEAD + t][1..] == [];
    assert site + [] == site;
  }

  lemma FirstLiveIsFresh(e: Env, keys: seq<bytes>, u: Url, m: Mint, now: int)
    requires PlatformOk(e) && m.Ok(e) && keys != [] && OriginOnly(e, u.origin) && now <= m.now + m.ttl
    ensures FirstLive(e, keys, now, SiteParts(e, keys, Parts(u.search)) + [HEAD + FreshToken(e, keys[0], u, m)])
         == Some(Info(u.origin, RootBack(e, m.root), m.now + m.ttl))
  {
    var site := SiteParts(e, keys, Parts(u.search));
    var t := FreshToken(e, keys[0], u, m);
    FreshPart(e, keys, u, m);
    FirstLiveSkips(e, keys, now, site, [HEAD + t]);
    hide FreshToken, NavInfo;
    assert (HEAD + t)[|HEAD|..] == t;
    assert LivePart(e, keys, now, HEAD + t);
  }

  /** Decoding a committed route while it is live gives back the origin, the host root and every site
      part, byte for byte and in order; the path comes back as escape and restore leave it. */
  lemma DecodeOfBuilt(e: Env, keys: seq<bytes>, prefix: string, u: Url, m: Mint, now: int)
    requires PlatformOk(e) && PrefixOk(prefix) && m.Ok(e) && now <= m.now + m.ttl
    requires Built(e, keys, prefix, u, m).Some?
    ensures var r := Built(e, keys, prefix, u, m).value;
      Decoded(e, keys, prefix, now, r.path, r.search) == Some(Destination(
        u.origin, RestoreLeadingSlashes(EscapeLeadingSlashes(u.path)),
        Search(SiteParts(e, keys, Parts(u.search))), RootBack(e, m.root)))
  {
    var r := Built(e, keys, prefix, u, m).value;
    ExactlyOneToken(e, keys, prefix, u, m);
    FirstLiveIsFresh(e, keys, u, m, now);
    EscapeKeepsShape(prefix, u.path);
    hide SiteParts, FirstLive, FreshToken, Parts, RootBack, EnginePathShaped;
    CommittedSearchShape(e, keys, u, FreshToken(e, keys[0], u, m));
  }

  lemma CommittedSearchShape(e: Env, keys: seq<bytes>, u: Url, token: string)
    ensures var s := Committed(e, keys, u, token).search; s != "" && s != "?"
  {
    hide SiteParts, Parts;
    var site := SiteParts(e, keys, Parts(u.search));
    if site == [] {
      assert site + [HEAD + token] == [HEAD + token];
    } else {
      JoinSnoc(site, HEAD + token);
    }
  }

  // ----- what decodes, and when -----

  /** The part is an engine token that names this, for an origin only, and it has not expired. */
  predicate NamesLive(e: Env, keys: seq<bytes>, now: int, part: string, info: Info) {
    && "zlNavh=" <= part && NavInfo(e, keys, part[7..]) == Some(info)
    && e.httpOrigin(info.dest) == Some(info.dest) && now <= info.expires
  }

  lemma LivePartMeaning(e: Env, keys: seq<bytes>, now: int, part: string)
    ensures LivePart(e, keys, now, part) <==> exists info: Info :: NamesLive(e, keys, now, part, info)
    ensures LivePart(e, keys, now, part) ==>
      var i := NavInfo(e, keys, part[|HEAD|..]); i.Some? && NamesLive(e, keys, now, part, i.value)
  {
    if LivePart(e, keys, now, part) {
      assert NamesLive(e, keys, now, part, NavInfo(e, keys, part[|HEAD|..]).value);
    }
    hide NavInfo;
  }

  /** The part at k is the first that names a live origin. */
  ghost predicate FirstToName(e: Env, keys: seq<bytes>, now: int, parts: seq<string>, k: nat, info: Info) {
    && k < |parts| && NamesLive(e, keys, now, parts[k], info)
    && forall j, i :: 0 <= j < k ==> !NamesLive(e, keys, now, parts[j], i)
  }

  lemma {:induction false} FirstLiveMeaning(e: Env, keys: seq<bytes>, now: int, parts: seq<string>)
    ensures FirstLive(e, keys, now, parts).None? ==>
      forall part <- parts, info :: !NamesLive(e, keys, now, part, info)
    ensures FirstLive(e, keys, now, parts).Some? ==>
      exists k: nat :: FirstToName(e, keys, now, parts, k, FirstLive(e, keys, now, parts).value)
    decreases |parts|
  {
    hide LivePart, NavInfo, NamesLive;
    if parts != [] {
      LivePartMeaning(e, keys, now, parts[0]);
      if LivePart(e, keys, now, parts[0]) {
        assert FirstToName(e, keys, now, parts, 0, FirstLive(e, keys, now, parts).value);
      } else {
        FirstLiveMeaning(e, keys, now, parts[1..]);
        FirstLater(e, keys, now, parts);
      }
    }
  }

  lemma FirstLater(e: Env, keys: seq<bytes>, now: int, parts: seq<string>)
    requires parts != [] && forall info :: !NamesLive(e, keys, now, parts[0], info)
    ensures forall k: nat, info :: FirstToName(e, keys, now, parts[1..], k, info) ==>
      FirstToName(e, keys, now, parts, k + 1, info)
  {
    hide NamesLive;
    forall k: nat, info | FirstToName(e, keys, now, parts[1..], k, info)
      ensures FirstToName(e, keys, now, parts, k + 1, info)
    {
      forall j, i | 0 <= j < k + 1 ensures !NamesLive(e, keys, now, parts[j], i) {
        if j > 0 {
          assert parts[j] == parts[1..][j - 1];
        }
      }
    }
  }

  /** A search decodes exactly when one of its parts names a live origin, on a path that is not the engine's own:
      garbage and expired tokens decode to nothing. The first such part gives the origin and the host root. */
  lemma DecodesExactly(e: Env, keys: seq<bytes>, prefix: string, now: int, path: string, search: string)
    ensures var d := Decoded(e, keys, prefix, now, path, search); var parts := Parts(search);
      && (d.Some? <==>
           !EnginePathShaped(prefix, path) && exists part, info :: part in parts && NamesLive(e, keys, now, part, info))
      && (d.Some? ==> exists k: nat, info ::
           FirstToName(e, keys, now, parts, k, info) && d.value.origin == info.dest && d.value.root == info.root)
  {
    var parts := Parts(search);
    FirstLiveMeaning(e, keys, now, parts);
    if search == "" || search == "?" {
      assert parts == [] || parts == [""];
      assert forall part, info :: part in parts ==> !NamesLive(e, keys, now, part, info);
    }
    hide EnginePathShaped, Parts, FirstLive, NamesLive, SiteParts;
    if FirstLive(e, keys, now, parts).Some? {
      var info := FirstLive(e, keys, now, parts).value;
      var k: nat :| FirstToName(e, keys, now, parts, k, info);
      assert parts[k] in parts && NamesLive(e, keys, now, parts[k], info);
    }
  }

  /** A committed route decodes until its handle expires, and no longer. */
  lemma BuiltDecodesUntilExpiry(e: Env, keys: seq<bytes>, prefix: string, u: Url, m: Mint, now: int)
    requires PlatformOk(e) && PrefixOk(prefix) && m.Ok(e) && Built(e, keys, prefix, u, m).Some?
    ensures var r := Built(e, keys, prefix, u, m).value;
      Decoded(e, keys, prefix, now, r.path, r.search).Some? <==> now <= m.now + m.ttl
  {
    if now <= m.now + m.ttl {
      DecodeOfBuilt(e, keys, prefix, u, m, now);
    } else {
      var r := Built(e, keys, prefix, u, m).value;
      ExactlyOneToken(e, keys, prefix, u, m);
      FreshPart(e, keys, u, m);
      DecodesExactly(e, keys, prefix, now, r.path, r.search);
      var site := SiteParts(e, keys, Parts(u.search));
      hide Built, Decoded, Parts, FreshToken, PlatformOk, NavInfo;
      NothingLive(e, keys, now, site, FreshToken(e, keys[0], u, m));
    }
  }

  lemma NothingLive(e: Env, keys: seq<bytes>, now: int, site: seq<string>, token: string)
    requires forall p <- site :: !EnginePart(e, keys, p)
    requires NavInfo(e, keys, token).Some? && NavInfo(e, keys, token).value.expires < now
    ensures forall part, info :: part in site + [HEAD + token] ==> !NamesLive(e, keys, now, part, info)
  {
    hide NavInfo;
    assert (HEAD + token)[|HEAD|..] == token;
  }

  // ----- decode and re-mint cycles -----

  /** The search as the URL parser reports it: a lone "?" is no search at all. */
  function Reparsed(search: string): string {
    if search == "?" then "" else search
  }

  /** One navigation cycle: mint the committed route, decode it while live, parse the destination again. */
  function Cycle(e: Env, keys: seq<bytes>, prefix: string, u: Url, m: Mint): Option<Url> {
    var r := Built(e, keys, prefix, u, m);
    if r.None? then None
    else
      var d := Decoded(e, keys, prefix, m.now, r.value.path, r.value.search);
      if d.None? then None else Some(Url(d.value.origin, d.value.path, Reparsed(d.value.search)))
  }

  /** The key history of one cycle, and its mint. */
  datatype Turn = Turn(keys: seq<bytes>, mint: Mint) {
    ghost predicate Ok(e: Env) {
      keys != [] && mint.Ok(e)
    }
  }

  function Cycles(e: Env, prefix: string, u: Url, ts: seq<Turn>): Option<Url>
    decreases |ts|
  {
    if ts == [] then Some(u)
    else
      var v := Cycle(e, ts[0].keys, prefix, u, ts[0].mint);
      if v.None? then None else Cycles(e, prefix, v.value, ts[1..])
  }

  /** The parts that survive the first parse: a lone empty part does not. */
  function Settled(parts: seq<string>): seq<string> {
    if parts == [""] then [] else parts
  }

  lemma PartsOfReparsed(parts: seq<string>)
    requires forall p <- parts :: '&' !in p
    ensures Parts(Reparsed(Search(parts))) == Settled(parts)
  {
    if parts != [] {
      SplitJoin(parts);
      assert Search(parts)[1..] == Join(parts);
      assert Join(parts) == "" ==> parts == Split("");
    }
  }

  function Restored(path: string): string {
    RestoreLeadingSlashes(EscapeLeadingSlashes(path))
  }

  /** A restored path is never one that the engine keeps for itself. */
  lemma RestoredKeepsShape(prefix: string, path: string)
    requires PrefixOk(prefix) && !EnginePathShaped(prefix, path)
    ensures !EnginePathShaped(prefix, Restored(path))
  {
    EscapeIsExact(path);
    if SlashesThenEscape(path) {
      TwoSlashes(path);
      var r := Restored(path);
      hide Restored;
      assert forall a <- ASSETS :: a[1] != '/';
    }
  }

  lemma TwoSlashes(path: string)
    requires SlashesThenEscape(path)
    ensures var r := Restored(path); |r| >= 2 && r[0] == r[1] == '/'
  {
    var n := Slashes(path);
    var k := Escapes(path[n..]);
    RestoreOfEscape(path);
    SlashRun(n - 1 + k);
    hide Slashes, Escapes, Repeat, EscapeLeadingSlashes, RestoreLeadingSlashes;
    assert n - 1 + k >= 1;
    assert Repeat("/", n - 1 + k)[0] == '/';
  }

  lemma OneCycle(e: Env, keys: seq<bytes>, prefix: string, u: Url, m: Mint)
    requires PlatformOk(e) && PrefixOk(prefix) && m.Ok(e)
    requires keys != [] && OriginOnly(e, u.origin) && !EnginePathShaped(prefix, u.path)
    ensures var v := Cycle(e, keys, prefix, u, m);
      && v.Some? && v.value.origin == u.origin && v.value.path == Restored(u.path)
      && Parts(v.value.search) == Settled(SiteParts(e, keys, Parts(u.search)))
  {
    DecodeOfBuilt(e, keys, prefix, u, m, m.now);
    var site := SiteParts(e, keys, Parts(u.search));
    assert forall p <- site :: '&' !in p;
    hide Built, Decoded, SiteParts, Parts, Search, Reparsed, EscapeLeadingSlashes, RestoreLeadingSlashes;
    PartsOfReparsed(site);
  }

  /** What the cycles leave of the parts: each removes the tokens that its own history opens. */
  function Sifted(e: Env, ts: seq<Turn>, parts: seq<string>): seq<string>
    decreases |ts|
  {
    if ts == [] then parts else Sifted(e, ts[1..], Settled(SiteParts(e, ts[0].keys, parts)))
  }

  function PathAfter(path: string, n: nat): string
    decreases n
  {
    if n == 0 then path else PathAfter(Restored(path), n - 1)
  }

  /** Any number of decode and re-mint cycles, each under its own key history, with any nonces, roots and clocks:
      the destination keeps its origin and its own parts, and every further mint carries exactly one engine
      token, whatever the path and whatever became of the keys in between. */
  lemma {:induction false} CyclesNeverStack(e: Env, prefix: string, u: Url, ts: seq<Turn>, next: Turn)
    requires PlatformOk(e) && PrefixOk(prefix) && (forall t <- ts :: t.Ok(e)) && next.Ok(e)
    requires OriginOnly(e, u.origin) && !EnginePathShaped(prefix, u.path)
    ensures var v := Cycles(e, prefix, u, ts);
      && v.Some? && v.value.origin == u.origin && v.value.path == PathAfter(u.path, |ts|)
      && Parts(v.value.search) == Sifted(e, ts, Parts(u.search))
      && Built(e, next.keys, prefix, v.value, next.mint).Some?
      && CountEngine(e, next.keys, Parts(Built(e, next.keys, prefix, v.value, next.mint).value.search)) == 1
    decreases |ts|
  {
    if ts == [] {
      ExactlyOneToken(e, next.keys, prefix, u, next.mint);
    } else {
      assert ts[0] in ts;
      OneCycle(e, ts[0].keys, prefix, u, ts[0].mint);
      RestoredKeepsShape(prefix, u.path);
      hide SiteParts, Parts, EnginePathShaped, Restored, Cycle, Built, CountEngine, PlatformOk, Settled;
      CyclesNeverStack(e, prefix, Cycle(e, ts[0].keys, prefix, u, ts[0].mint).value, ts[1..], next);
    }
  }

  /** The path half: it comes back exactly, after any number of cycles, unless its leading slashes are followed by
      a spelled one. */
  lemma {:induction false} CyclesKeepThePath(path: string, n: nat)
    ensures !SlashesThenEscape(path) ==> PathAfter(path, n) == path
    ensures n == 1 ==> (PathAfter(path, n) == path <==> !SlashesThenEscape(path))
    decreases n
  {
    hide SlashesThenEscape, EscapeLeadingSlashes, RestoreLeadingSlashes;
    EscapeIsExact(path);
    if n > 0 {
      CyclesKeepThePath(Restored(path), n - 1);
    }
  }

  lemma {:induction false} SiteMembers(e: Env, keys: seq<bytes>, parts: seq<string>, p: string)
    ensures p in SiteParts(e, keys, parts) <==> p in parts && !EnginePart(e, keys, p)
    decreases |parts|
  {
    hide EnginePart;
    if parts != [] {
      SiteMembers(e, keys, parts[1..], p);
    }
  }

  /** A part stays through the cycles exactly when no history of theirs opens it: a site's own part, and also a
      token whose key has left the history, which is kept like one. */
  lemma {:induction false} PartStaysExactly(e: Env, ts: seq<Turn>, parts: seq<string>, p: string)
    requires p != ""
    ensures p in Sifted(e, ts, parts) <==> p in parts && forall t <- ts :: !EnginePart(e, t.keys, p)
    decreases |ts|
  {
    hide EnginePart;
    if ts != [] {
      var left := SiteParts(e, ts[0].keys, parts);
      SiteMembers(e, ts[0].keys, parts, p);
      assert p in Settled(left) <==> p in left;
      PartStaysExactly(e, ts[1..], Settled(left), p);
      assert forall t :: t in ts <==> t == ts[0] || t in ts[1..];
    }
  }

  /** A token that no key of the history accepts is not an engine token to it. */
  lemma {:induction false} OrphanIsNoToken(e: Env, keys: seq<bytes>, bs: bytes)
    requires forall k <- keys :: Payload(e.c, k, bs).None?
    ensures InfoUnder(e, keys, bs).None?
    decreases |keys|
  {
    if keys != [] {
      assert keys[0] in keys;
      OrphanIsNoToken(e, keys[1..], bs);
    }
  }

  lemma OrphanIsASitePart(e: Env, keys: seq<bytes>, data: bytes)
    requires forall k <- keys :: Payload(e.c, k, data).None?
    ensures !EnginePart(e, keys, HEAD + Base64Url.Encode(data))
  {
    var token := Base64Url.Encode(data);
    DecodeIffEncode(token, data);
    OrphanIsNoToken(e, keys, data);
    hide InfoUnder;
    assert (HEAD + token)[|HEAD|..] == token;
  }

  lemma SettledIsClean(e: Env, keys: seq<bytes>, parts: seq<string>)
    ensures var s := Settled(SiteParts(e, keys, parts)); SiteParts(e, keys, s) == s && Settled(s) == s
  {
    var s := Settled(SiteParts(e, keys, parts));
    assert forall p <- s :: !EnginePart(e, keys, p);
    hide EnginePart;
    SitePartsAreClean(e, keys, s);
  }

  /** Under one unchanged history the first cycle does all the sifting. */
  lemma {:induction false} OneHistorySiftsOnce(e: Env, keys: seq<bytes>, ts: seq<Turn>, parts: seq<string>)
    requires ts != [] && forall t <- ts :: t.keys == keys
    ensures Sifted(e, ts, parts) == Settled(SiteParts(e, keys, parts))
    decreases |ts|
  {
    assert ts[0] in ts;
    var s := Settled(SiteParts(e, keys, parts));
    if |ts| == 1 {
      assert ts[1..] == [];
    } else {
      SettledIsClean(e, keys, parts);
      OneHistorySiftsOnce(e, keys, ts[1..], s);
    }
  }

  /** Under one key history every number of cycles leaves what the first one left: the destination settles. */
  lemma OneHistorySettles(e: Env, keys: seq<bytes>, prefix: string, u: Url, ts: seq<Turn>)
    requires PlatformOk(e) && PrefixOk(prefix) && ts != [] && forall t <- ts :: t.Ok(e) && t.keys == keys
    requires OriginOnly(e, u.origin) && !EnginePathShaped(prefix, u.path)
    ensures var v := Cycles(e, prefix, u, ts);
      && v.Some? && v.value.origin == u.origin
      && Parts(v.value.search) == Settled(SiteParts(e, keys, Parts(u.search)))
      && (!SlashesThenEscape(u.path) ==> v.value.path == u.path)
  {
    assert ts[0] in ts;
    hide *;
    CyclesNeverStack(e, prefix, u, ts, ts[0]);
    OneHistorySiftsOnce(e, keys, ts, Parts(u.search));
    CyclesKeepThePath(u.path, |ts|);
  }

  // ----- the loops -----

  lemma SitePartsStep(e: Env, keys: seq<bytes>, parts: seq<string>, i: nat)
    requires i < |parts|
    ensures SiteParts(e, keys, parts[..i + 1])
         == SiteParts(e, keys, parts[..i]) + (if EnginePart(e, keys, parts[i]) then [] else [parts[i]])
  {
    hide EnginePart;
    assert parts[..i + 1] == parts[..i] + [parts[i]];
    SitePartsAppend(e, keys, parts[..i], [parts[i]]);
    assert [parts[i]][1..] == [];
  }

  lemma FirstLiveStep(e: Env, keys: seq<bytes>, now: int, parts: seq<string>, i: nat)
    requires i < |parts|
    ensures FirstLive(e, keys, now, parts[i..])
         == if LivePart(e, keys, now, parts[i]) then NavInfo(e, keys, parts[i][|HEAD|..])
            else FirstLive(e, keys, now, parts[i + 1..])
  {
    hide LivePart, NavInfo;
    assert parts[i..][1..] == parts[i + 1..];
  }

  /** What the decoder does with one part. */
  method JudgePart(e: Env, keys: seq<bytes>, now: int, part: string)
      returns (keep: bool, live: Option<Info>)
    ensures keep <==> !EnginePart(e, keys, part)
    ensures live == if LivePart(e, keys, now, part) then NavInfo(e, keys, part[|HEAD|..]) else None
    ensures LivePart(e, keys, now, part) ==> live.Some?
  {
    if !(HEAD <= part) {
      return true, None;
    }
    var token := part[|HEAD|..];
    var o := LiveDest(e, keys, now, token);
    if o.Some? && OriginOnly(e, o.value) {
      return false, NavInfo(e, keys, token);
    }
    EngineOriginIsTimeless(e, keys, now, token);
    return EngineOrigin(e, keys, now, token).None?, None;
  }

  method ScanParts(e: Env, keys: seq<bytes>, now: int, parts: seq<string>)
      returns (keep: seq<string>, first: Option<Info>)
    ensures keep == SiteParts(e, keys, parts) && first == FirstLive(e, keys, now, parts)
  {
    keep, first := [], None;
    for i := 0 to |parts|
      invariant keep == SiteParts(e, keys, parts[..i])
      invariant FirstLive(e, keys, now, parts) == if first.Some? then first else FirstLive(e, keys, now, parts[i..])
    {
      hide EnginePart, LivePart, NavInfo;
      SitePartsStep(e, keys, parts, i);
      FirstLiveStep(e, keys, now, parts, i);
      hide SiteParts, FirstLive;
      var site, live := JudgePart(e, keys, now, parts[i]);
      if site {
        keep := keep + [parts[i]];
      }
      if live.Some? && first.None? {
        first := live;
      }
    }
    assert parts[..|parts|] == parts;
  }

  method DecodeQueryHandle(e: Env, keys: seq<bytes>, prefix: string, now: int, path: string, search: string)
      returns (r: Option<Destination>)
    ensures r == Decoded(e, keys, prefix, now, path, search)
    ensures r.Some? <==>
      !EnginePathShaped(prefix, path) && exists part, info :: part in Parts(search) && NamesLive(e, keys, now, part, info)
  {
    DecodesExactly(e, keys, prefix, now, path, search);
    hide NamesLive, EnginePathShaped;
    if EnginePathShaped(prefix, path) || search == "" || search == "?" {
      return None;
    }
    var keep, live := ScanParts(e, keys, now, Parts(search));
    if live.None? {
      return None;
    }
    return Some(Destination(live.value.dest, RestoreLeadingSlashes(path), Search(keep), live.value.root));
  }

  method BuildQueryHandleUrl(e: Env, keys: seq<bytes>, prefix: string, u: Url, m: Mint) returns (r: Option<Url>)
    ensures r == Built(e, keys, prefix, u, m)
  {
    if keys == [] || e.httpOrigin(u.origin) != Some(u.origin) {
      return None;
    }
    var token := FreshToken(e, keys[0], u, m);
    if EnginePathShaped(prefix, u.path) {
      return None;
    }
    var kept, _ := ScanParts(e, keys, m.now, Parts(u.search));
    return Some(Url(u.origin, EscapeLeadingSlashes(u.path), Search(kept + [HEAD + token])));
  }
}
