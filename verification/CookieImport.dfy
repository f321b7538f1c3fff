/** Merging imported records into one profile (app/src/cookies.ts): bucket by bucket, an identity that is
    already there is settled by the conflict rule. */
module CookieImport {
  import opened Common
  import opened CookieRules
  import opened CookieStore
  import opened CookieProfiles
  import opened CookieAdmission
  import opened CookieJar

  datatype Rule = ImportWins | KeepExisting | KeepNewest

  /** The first position of the identity, or the length when it is not there. */
  function IndexOf(list: seq<Cookie>, id: Identity): (i: nat)
    ensures i <= |list|
    ensures i < |list| ==> IdentityOf(list[i]) == id
    ensures forall k :: 0 <= k < i ==> IdentityOf(list[k]) != id
    decreases |list|
  {
    if list == [] || IdentityOf(list[0]) == id then 0 else 1 + IndexOf(list[1..], id)
  }

  predicate Overrides(rule: Rule, c: Cookie, there: Cookie) {
    rule == ImportWins || (rule == KeepNewest && c.created > there.created)
  }

  function MergeOne(list: seq<Cookie>, c: Cookie, rule: Rule): seq<Cookie> {
    var i := IndexOf(list, IdentityOf(c));
    if i == |list| then list + [c]
    else if Overrides(rule, c, list[i]) then list[i := c] else list
  }

  function MergeList(list: seq<Cookie>, cs: seq<Cookie>, rule: Rule): seq<Cookie>
    decreases |cs|
  {
    if cs == [] then list else MergeList(MergeOne(list, cs[0], rule), cs[1..], rule)
  }

  predicate ImportKey(k: string) {
    k != "" && SEP !in k
  }

  /** The jar after merging every record: bad keys are skipped, empty records touch nothing. */
  function Merged(j: Jars, records: seq<(string, seq<Cookie>)>, ns: string, rule: Rule): Jars
    decreases |records|
  {
    if records == [] then j
    else
      var (k, cs) := records[0];
      var next := if ImportKey(k) && cs != []
                  then j[JarKey(k, ns) := MergeList(if JarKey(k, ns) in j then j[JarKey(k, ns)] else [], cs, rule)]
                  else j;
      Merged(next, records[1..], ns, rule)
  }

  // ----- what a merge keeps -----

  lemma MergeOneKeeps(list: seq<Cookie>, c: Cookie, rule: Rule)
    requires OncePerIdentity(list)
    ensures OncePerIdentity(MergeOne(list, c, rule)) && MergeOne(list, c, rule) != []
    ensures rule == KeepExisting ==> list <= MergeOne(list, c, rule)
  {
  }

  lemma {:induction false} MergeListKeeps(list: seq<Cookie>, cs: seq<Cookie>, rule: Rule)
    requires OncePerIdentity(list)
    ensures OncePerIdentity(MergeList(list, cs, rule))
    ensures list != [] || cs != [] ==> MergeList(list, cs, rule) != []
    ensures rule == KeepExisting ==> list <= MergeList(list, cs, rule)
    decreases |cs|
  {
    if cs != [] {
      MergeOneKeeps(list, cs[0], rule);
      MergeListKeeps(MergeOne(list, cs[0], rule), cs[1..], rule);
    }
  }

  /** The one cookie of an identity in a bucket, if any. */
  function Held(list: seq<Cookie>, id: Identity): Option<Cookie> {
    var i := IndexOf(list, id);
    if i == |list| then None else Some(list[i])
  }

  /** What the rule makes of one identity: the imports that carry it, taken in turn. */
  function Settle(there: Option<Cookie>, id: Identity, cs: seq<Cookie>, rule: Rule): Option<Cookie>
    decreases |cs|
  {
    if cs == [] then there
    else
      var c := cs[0];
      var next := if IdentityOf(c) != id then there
                  else if there.None? || Overrides(rule, c, there.value) then Some(c) else there;
      Settle(next, id, cs[1..], rule)
  }

  lemma MergeOneHeld(list: seq<Cookie>, c: Cookie, rule: Rule, id: Identity)
    requires OncePerIdentity(list)
    ensures Held(MergeOne(list, c, rule), id) ==
      if IdentityOf(c) != id then Held(list, id)
      else if Held(list, id).None? || Overrides(rule, c, Held(list, id).value) then Some(c) else Held(list, id)
  {
    var r := MergeOne(list, c, rule);
    var i, k, n := IndexOf(list, IdentityOf(c)), IndexOf(list, id), IndexOf(r, id);
    MergeOneKeeps(list, c, rule);
    assert forall m :: 0 <= m < |list| && m != i ==> r[m] == list[m];
    if k < |list| {
      IndexIs(r, id, k);
    } else if IdentityOf(c) == id {
      IndexIs(r, id, |list|);
    }
  }

  lemma IndexIs(list: seq<Cookie>, id: Identity, k: nat)
    requires OncePerIdentity(list) && k < |list| && IdentityOf(list[k]) == id
    ensures IndexOf(list, id) == k
  {
    var i := IndexOf(list, id);
    assert i <= k;
  }

  /** Identity by identity the merge settles what was there against the imports, and nothing else counts. */
  lemma {:induction false} MergeListHeld(list: seq<Cookie>, cs: seq<Cookie>, rule: Rule, id: Identity)
    requires OncePerIdentity(list)
    ensures Held(MergeList(list, cs, rule), id) == Settle(Held(list, id), id, cs, rule)
    decreases |cs|
  {
    if cs != [] {
      MergeOneKeeps(list, cs[0], rule);
      MergeOneHeld(list, cs[0], rule, id);
      MergeListHeld(MergeOne(list, cs[0], rule), cs[1..], rule, id);
    }
  }

  /** The rules say what their names say. */
  lemma {:induction false} SettleMeaning(there: Option<Cookie>, id: Identity, cs: seq<Cookie>, rule: Rule)
    ensures var r := Settle(there, id, cs, rule);
      && (r.None? <==> there.None? && forall c <- cs :: IdentityOf(c) != id)
      && (r.Some? ==> r == there || (r.value in cs && IdentityOf(r.value) == id))
      && (rule == KeepExisting && there.Some? ==> r == there)
      && (rule == KeepNewest && there.Some? ==> r.Some? && r.value.created >= there.value.created)
      && (rule == KeepNewest ==> forall c <- cs :: IdentityOf(c) == id ==> r.Some? && r.value.created >= c.created)
      && (rule == ImportWins && cs != [] && IdentityOf(cs[|cs| - 1]) == id ==> r == Some(cs[|cs| - 1]))
    decreases |cs|
  {
    if cs != [] {
      var c := cs[0];
      var next := if IdentityOf(c) != id then there
                  else if there.None? || Overrides(rule, c, there.value) then Some(c) else there;
      SettleMeaning(next, id, cs[1..], rule);
    }
  }

  /** One record leaves its bucket tidy and the other profiles alone. */
  lemma RecordKeeps(j: Jars, k: string, cs: seq<Cookie>, pid: string, root: string, rule: Rule)
    requires Settled(j) && ImportKey(k) && cs != []
    ensures var ns := Namespace(pid, root); var key := JarKey(k, ns);
      var m := j[key := MergeList(if key in j then j[key] else [], cs, rule)];
      Settled(m) && SameOutside(j, m, ns)
  {
    var key := JarKey(k, Namespace(pid, root));
    KeyHasOneNamespace(k, pid, root, pid, root);
    MergeListKeeps(if key in j then j[key] else [], cs, rule);
    hide MergeList, OncePerIdentity, Namespace, JarKey, InProfile;
  }

  /** A merge keeps every bucket tidy and every other profile as it was. */
  lemma {:induction false} MergedKeeps(j: Jars, records: seq<(string, seq<Cookie>)>, pid: string, root: string,
                                       rule: Rule)
    requires Settled(j)
    ensures var m := Merged(j, records, Namespace(pid, root), rule);
      Settled(m) && SameOutside(j, m, Namespace(pid, root))
    decreases |records|
  {
    hide MergeList, Settled, Namespace, JarKey, InProfile, ImportKey;
    if records != [] {
      var ns := Namespace(pid, root);
      var (k, cs) := records[0];
      if ImportKey(k) && cs != [] {
        RecordKeeps(j, k, cs, pid, root, rule);
        var key := JarKey(k, ns);
        var list := if key in j then j[key] else [];
        MergedKeeps(j[key := MergeList(list, cs, rule)], records[1..], pid, root, rule);
      } else {
        MergedKeeps(j, records[1..], pid, root, rule);
      }
    }
  }

  // ----- a script's store over a merge -----

  /** Two records with one identity: a plain cookie, and a later HttpOnly one under another origin. */
  const RECORDS: seq<(string, seq<Cookie>)> := [(HOME.key, [PLAIN]), (LATER.key, [GUARDED])]

  /** A record for a bucket that is not there yet becomes that bucket. */
  lemma RecordArrives(j: Jars, k: string, c: Cookie, rest: seq<(string, seq<Cookie>)>, rule: Rule)
    requires ImportKey(k) && k !in j
    ensures Merged(j, [(k, [c])] + rest, DEFAULT, rule) == Merged(j[k := [c]], rest, DEFAULT, rule)
  {
    var records := [(k, [c])] + rest;
    assert records[0] == (k, [c]) && records[1..] == rest;
    assert MergeList([], [c], rule) == [c] by {
      assert [c][1..] == [];
    }
  }

  lemma KeysImport()
    ensures ImportKey(HOME.key) && ImportKey(LATER.key) && HOME.key != LATER.key
  {
  }

  lemma BothImported(rule: Rule)
    ensures Merged(map[], RECORDS, DEFAULT, rule) == MERGED
  {
    var none: Jars := map[];
    var later := [(LATER.key, [GUARDED])];
    KeysImport();
    hide ImportKey;
    assert RECORDS == [(HOME.key, [PLAIN])] + later && later == later + [];
    RecordArrives(none, HOME.key, PLAIN, later, rule);
    RecordArrives(none[HOME.key := [PLAIN]], LATER.key, GUARDED, [], rule);
    assert none[HOME.key := [PLAIN]][LATER.key := [GUARDED]] == MERGED;
  }

  /** Under every rule the two records merge into an empty jar side by side, and a script's store is then let
      through, although it replaces the HttpOnly cookie. */
  lemma ScriptStoresAfterMerge(rule: Rule) returns (after: Jars)
    ensures var m := Merged(map[], RECORDS, Namespace(DEFAULT, ""), rule);
      && Settled(m) && LATER in Stored(m, DEFAULT) && LATER.cookie.httpOnly && Live(LATER.cookie, 3)
      && KeepOutcome(m, DEFAULT, 3, HOME.key, SCRIPTED, true, Some(HOME), [], after,
                     Admitted(Fresh(HOME.key, SCRIPTED, Some(HOME)).cookie, true))
      && LATER !in Stored(after, DEFAULT)
  {
    BothImported(rule);
    MergedCopies();
    after := ScriptStores();
    hide StoreStep, Fresh;
    assert Members([]) == {};
    LaterCopyLost(SCRIPTED, 3, {}, after);
  }

  // ----- the loops -----

  method MergeBucket(list: seq<Cookie>, cs: seq<Cookie>, rule: Rule)
    returns (jar: seq<Cookie>, added: nat, conflicts: nat)
    ensures jar == MergeList(list, cs, rule)
    ensures added == |jar| - |list| && added + conflicts == |cs|
  {
    jar, added, conflicts := list, 0, 0;
    for i := 0 to |cs|
      invariant MergeList(jar, cs[i..], rule) == MergeList(list, cs, rule)
      invariant added == |jar| - |list| && added + conflicts == i
    {
      var c := cs[i];
      assert cs[i..][1..] == cs[i + 1..];
      var idx := IndexOf(jar, IdentityOf(c));
      if idx < |jar| {
        conflicts := conflicts + 1;
        if rule == ImportWins {
          jar := jar[idx := c];
        } else if rule == KeepNewest && c.created > jar[idx].created {
          jar := jar[idx := c];
        }
      } else {
        jar := jar + [c];
        added := added + 1;
      }
    }
  }

  /** How many records count, and how many cookies they carry. */
  function Tally(records: seq<(string, seq<Cookie>)>): (nat, nat)
    decreases |records|
  {
    if records == [] then (0, 0)
    else
      var (n, c) := Tally(records[1..]);
      if ImportKey(records[0].0) && records[0].1 != [] then (n + 1, c + |records[0].1|) else (n, c)
  }

  /** The import itself. */
  method JarMerge(target: CookieJar, records: seq<(string, seq<Cookie>)>, rule: Rule, pid: string, root: string)
    returns (touched: nat, added: nat, conflicts: nat)
    requires target.Valid()
    modifies target`jars
    ensures target.Valid()
    ensures target.jars == Merged(old(target.jars), records, Namespace(pid, root), rule)
    ensures SameOutside(old(target.jars), target.jars, Namespace(pid, root))
    ensures (touched, added + conflicts) == Tally(records)
  {
    var ns := Namespace(pid, root);
    MergedKeeps(target.jars, records, pid, root, rule);
    touched, added, conflicts := 0, 0, 0;
    hide MergeList, Namespace;
    for i := 0 to |records|
      invariant Merged(target.jars, records[i..], ns, rule) == Merged(old(target.jars), records, ns, rule)
      invariant touched + Tally(records[i..]).0 == Tally(records).0
      invariant added + conflicts + Tally(records[i..]).1 == Tally(records).1
    {
      assert records[i..][0] == records[i] && records[i..][1..] == records[i + 1..];
      var (k, cs) := records[i];
      if ImportKey(k) && cs != [] {
        var key := JarKey(k, ns);
        var jar, a, c := MergeBucket(if key in target.jars then target.jars[key] else [], cs, rule);
        target.jars := target.jars[key := jar];
        touched, added, conflicts := touched + 1, added + a, conflicts + c;
      }
    }
  }
}
