/** The stored route key and its decode history (app/src/routekey.ts), and the codec state they feed
    (`setRouteKeys` in app/src/codec.ts). The database is a pair of optional records. */
module RouteKeys {
  import opened Common
  import opened Base64Url
  import opened RouteTokens
  import opened Routes

  const KEY_HISTORY_LIMIT := 16

  /** The records "route" and "history"; None is a missing record. */
  datatype Store = Store(route: Option<bytes>, history: Option<seq<bytes>>)

  predicate KeySized(k: bytes) {
    |k| == 16
  }

  function Usable(raw: seq<bytes>): (ks: seq<bytes>)
    ensures forall k <- ks :: k in raw && KeySized(k)
    ensures forall k <- raw :: KeySized(k) ==> k in ks
  {
    if raw == [] then [] else (if KeySized(raw[0]) then [raw[0]] else []) + Usable(raw[1..])
  }

  /** `loadRouteHistory` when storage answers. */
  function Loaded(s: Store): seq<bytes> {
    if s.history.Some? then Usable(s.history.value)
    else if s.route.Some? && KeySized(s.route.value) then [s.route.value]
    else []
  }

  /** `saveRouteKey`. A stored record is a fresh clone, so the new key is always put in front. */
  function Saved(s: Store, key: bytes): Store {
    var kept := if s.history.Some? then Usable(s.history.value) else [];
    Store(Some(key), Some(if KeySized(key) then Take([key] + kept, KEY_HISTORY_LIMIT) else []))
  }

  function SavedAll(s: Store, keys: seq<bytes>): Store
    decreases |keys|
  {
    if keys == [] then s else SavedAll(Saved(s, keys[0]), keys[1..])
  }

  /** One more key adds itself at the end, or nothing. */
  lemma {:induction false} UsableSnoc(raw: seq<bytes>, k: bytes)
    ensures Usable(raw + [k]) == Usable(raw) + if KeySized(k) then [k] else []
    decreases |raw|
  {
    hide KeySized;
    var all := raw + [k];
    if raw == [] {
      assert all[0] == k && all[1..] == [];
    } else {
      assert all[0] == raw[0] && all[1..] == raw[1..] + [k];
      UsableSnoc(raw[1..], k);
    }
  }

  lemma UsableStep(raw: seq<bytes>, i: nat)
    requires i < |raw|
    ensures Usable(raw[..i + 1]) == Usable(raw[..i]) + if KeySized(raw[i]) then [raw[i]] else []
  {
    hide *;
    assert raw[..i + 1] == raw[..i] + [raw[i]];
    UsableSnoc(raw[..i], raw[i]);
  }

  class RouteKeyStore {
    var route: Option<bytes>
    var history: Option<seq<bytes>>

    function State(): Store
      reads this
    {
      Store(route, history)
    }

    method LoadRouteHistory() returns (keys: seq<bytes>)
      ensures keys == Loaded(State())
    {
      if history.Some? {
        keys := FilterUsable(history.value);
      } else if route.Some? && |route.value| == 16 {
        keys := [route.value];
      } else {
        keys := [];
      }
    }

    static method FilterUsable(raw: seq<bytes>) returns (keys: seq<bytes>)
      ensures keys == Usable(raw)
    {
      keys := [];
      for i := 0 to |raw|
        invariant keys == Usable(raw[..i])
      {
        UsableStep(raw, i);
        if |raw[i]| == 16 {
          keys := keys + [raw[i]];
        }
      }
      assert raw[..|raw|] == raw;
    }

    method SaveRouteKey(key: bytes)
      modifies this
      ensures State() == Saved(old(State()), key)
    {
      var hist: seq<bytes> := [];
      if |key| == 16 {
        if history.Some? {
          hist := FilterUsable(history.value);
        }
        assert hist == if history.Some? then Usable(history.value) else [];
        hist := [key] + hist;
        if |hist| > KEY_HISTORY_LIMIT {
          hist := hist[..KEY_HISTORY_LIMIT];
        }
      }
      assert hist == Saved(State(), key).history.value;
      route := Some(key);
      history := Some(hist);
    }
  }

  /** Exactly which keys still decode after a save: the new one, and the fifteen newest of an existing
      history record. A lone pre-history record is not carried over, and a malformed key clears everything. */
  lemma KeptBySave(s: Store, key: bytes, k: bytes)
    ensures k in Loaded(Saved(s, key)) <==>
      |key| == 16 && (k == key || (s.history.Some? && |k| == 16 && k in Take(Usable(s.history.value), 15)))
  {
    if KeySized(key) {
      var kept := if s.history.Some? then Usable(s.history.value) else [];
      var hist := Take([key] + kept, KEY_HISTORY_LIMIT);
      assert hist == [key] + Take(kept, KEY_HISTORY_LIMIT - 1);
      UsableOfKeys(hist);
    }
  }

  /** A key stored before there was a history: the first save drops it. */
  lemma LoneKeyDropped()
    ensures var lone: bytes := seq(16, i => 0); var saved: bytes := seq(16, i => 1); var s := Store(Some(lone), None);
      lone in Loaded(s) && Loaded(Saved(s, saved)) == [saved] && lone != saved
  {
    var lone: bytes := seq(16, i => 0);
    var saved: bytes := seq(16, i => 1);
    assert lone[0] != saved[0];
    UsableOfKeys([saved]);
  }

  lemma {:induction false} UsableOfKeys(ks: seq<bytes>)
    requires forall k <- ks :: KeySized(k)
    ensures Usable(ks) == ks
  {
    if ks != [] {
      UsableOfKeys(ks[1..]);
    }
  }

  function Reversed(ks: seq<bytes>): (r: seq<bytes>)
    ensures |r| == |ks|
    ensures forall k <- r :: k in ks
  {
    if ks == [] then [] else Reversed(ks[1..]) + [ks[0]]
  }

  /** What a save carries over: the history record, not a lone key from before there was one. */
  function Carried(s: Store): seq<bytes> {
    if s.history.Some? then Loaded(s) else []
  }

  lemma LoadedAfterSave(s: Store, key: bytes)
    requires KeySized(key)
    ensures Saved(s, key).history.Some?
    ensures Loaded(Saved(s, key)) == Carried(Saved(s, key)) == Take([key] + Carried(s), KEY_HISTORY_LIMIT)
  {
    var hist := Take([key] + Carried(s), KEY_HISTORY_LIMIT);
    assert forall k <- hist :: KeySized(k);
    UsableOfKeys(hist);
  }

  /** The history after any number of saves, for any store: newest first, the sixteen newest of the saved keys and
      of what the first save carries over. */
  lemma {:induction false} HistoryAfterSaves(s: Store, saves: seq<bytes>)
    requires forall k <- saves :: KeySized(k)
    ensures Take(Loaded(SavedAll(s, saves)), 16)
         == Take(Reversed(saves) + (if saves == [] then Loaded(s) else Carried(s)), 16)
    decreases |saves|
  {
    hide Loaded, Saved, Carried;
    if saves == [] {
      assert Reversed(saves) + Loaded(s) == Loaded(s);
    } else {
      var t := Saved(s, saves[0]);
      assert saves[0] in saves;
      LoadedAfterSave(s, saves[0]);
      HistoryAfterSaves(t, saves[1..]);
      TakeOfTake(Reversed(saves[1..]), saves[0], Carried(s), KEY_HISTORY_LIMIT);
    }
  }

  lemma TakeOfTake<T>(r: seq<T>, x: T, a: seq<T>, n: nat)
    ensures Take(r + Take([x] + a, n), n) == Take(r + [x] + a, n)
  {
  }

  /** Where the saved keys and those carried over stand after the saves. */
  lemma PositionAfterSaves(s: Store, saves: seq<bytes>, j: nat)
    requires forall k <- saves :: |k| == 16
    requires var all := Reversed(saves) + (if saves == [] then Loaded(s) else Carried(s)); j < |all| && j < 16
    ensures var keys := Loaded(SavedAll(s, saves));
      var all := Reversed(saves) + (if saves == [] then Loaded(s) else Carried(s));
      j < |keys| && keys[j] == all[j]
  {
    HistoryAfterSaves(s, saves);
    var keys := Loaded(SavedAll(s, saves));
    var all := Reversed(saves) + (if saves == [] then Loaded(s) else Carried(s));
    assert Take(all, KEY_HISTORY_LIMIT)[j] == all[j];
    assert Take(keys, KEY_HISTORY_LIMIT)[j] == keys[j];
  }

  // ----- the codec's key list -----

  /** The key that a text spells, if it is one. */
  function KeyOf(b64: string): seq<bytes> {
    var k := Base64Url.Decode(b64);
    if k.Some? && |k.value| == 16 then [k.value] else []
  }

  function DecodableKeys(b64s: seq<string>): seq<bytes> {
    if b64s == [] then [] else KeyOf(b64s[0]) + DecodableKeys(b64s[1..])
  }

  /** One more text adds its key at the end. */
  lemma {:induction false} DecodableSnoc(b64s: seq<string>, b64: string)
    ensures DecodableKeys(b64s + [b64]) == DecodableKeys(b64s) + KeyOf(b64)
    decreases |b64s|
  {
    hide KeyOf;
    var all := b64s + [b64];
    if b64s == [] {
      assert all[0] == b64 && all[1..] == [];
    } else {
      assert all[0] == b64s[0] && all[1..] == b64s[1..] + [b64];
      DecodableSnoc(b64s[1..], b64);
    }
  }

  lemma DecodableStep(b64s: seq<string>, i: nat)
    requires i < |b64s|
    ensures DecodableKeys(b64s[..i + 1]) == DecodableKeys(b64s[..i]) + KeyOf(b64s[i])
  {
    hide *;
    assert b64s[..i + 1] == b64s[..i] + [b64s[i]];
    DecodableSnoc(b64s[..i], b64s[i]);
  }

  function Encoded(keys: seq<bytes>): seq<string> {
    seq(|keys|, i requires 0 <= i < |keys| => Base64Url.Encode(keys[i]))
  }

  lemma {:induction false} KeysSurviveEncoding(keys: seq<bytes>)
    requires forall k <- keys :: KeySized(k)
    ensures DecodableKeys(Encoded(keys)) == keys
  {
    if keys != [] {
      assert keys[0] in keys;
      DecodeIffEncode(Base64Url.Encode(keys[0]), keys[0]);
      assert Encoded(keys)[1..] == Encoded(keys[1..]);
      KeysSurviveEncoding(keys[1..]);
    }
  }

  class RouteCodec {
    var routeKey: Option<bytes>
    var routeKeys: seq<bytes>

    /** The minting key is the newest key of the history, or there is none. */
    ghost predicate Valid()
      reads this
    {
      routeKey == MintingKey(routeKeys)
    }

    constructor ()
      ensures Valid() && routeKeys == []
    {
      routeKey, routeKeys := None, [];
    }

    method SetRouteKeys(b64s: seq<string>)
      modifies this
      ensures Valid() && routeKeys == DecodableKeys(b64s)
    {
      routeKeys := DecodeKeys(b64s);
      routeKey := if routeKeys == [] then None else Some(routeKeys[0]);
    }

    static method DecodeKeys(b64s: seq<string>) returns (keys: seq<bytes>)
      ensures keys == DecodableKeys(b64s)
    {
      keys := [];
      for i := 0 to |b64s|
        invariant keys == DecodableKeys(b64s[..i])
      {
        DecodableStep(b64s, i);
        var k := DecodeKey(b64s[i]);
        keys := keys + k;
      }
      assert b64s[..|b64s|] == b64s;
    }

    static method DecodeKey(b64: string) returns (keys: seq<bytes>)
      ensures keys == KeyOf(b64)
    {
      var k := B64uDecode(b64);
      keys := if k.Some? && |k.value| == 16 then [k.value] else [];
    }

    method EncodeDest(c: Crypto, prefix: string, dest: bytes) returns (path: string)
      requires Valid()
      ensures path == Routes.EncodeDest(c, MintingKey(routeKeys), prefix, dest)
      ensures HttpUrl(dest) && c.utf8(dest) ==> Routes.DecodePath(c, routeKeys, prefix, path) == Some(dest)
    {
      var payload := dest;
      if routeKey.Some? {
        payload := MintToken(c, routeKey.value, dest);
      }
      var tail := B64uEncode(payload);
      path := prefix + tail;
      if HttpUrl(dest) && c.utf8(dest) {
        RouteRoundTrip(c, routeKeys, prefix, dest);
      }
    }

    method DecodePath(c: Crypto, prefix: string, path: string) returns (r: Option<bytes>)
      ensures r == Routes.DecodePath(c, routeKeys, prefix, path)
    {
      var bs := TailBytes(prefix, path);
      if bs.None? {
        return None;
      }
      if TokenShaped(bs.value) {
        for i := 0 to |routeKeys|
          invariant DecodeWithHistory(c, routeKeys, bs.value) == DecodeWithHistory(c, routeKeys[i..], bs.value)
        {
          var p := OpenToken(c, routeKeys[i], bs.value);
          if p.Some? && HttpUrl(p.value) {
            return p;
          }
        }
        return None;
      }
      r := StrictText(c, bs.value);
      if r.Some? && !HttpUrl(r.value) {
        r := None;
      }
    }
  }

  /** The history, or the lone key when nothing was saved since, is what the old keys live on in. */
  predicate Survives(s: Store, saves: seq<bytes>) {
    s.history.Some? || saves == []
  }

  /** A route minted under the key at position i decodes to its destination after fewer than 16 - i saves, if no
      newer key's MAC accepts the token, exactly when there was a history record or nothing was saved: the route
      of a lone key from before the history is lost with the first save. */
  lemma RouteSurvivesSaves(c: Crypto, s: Store, i: nat, saves: seq<bytes>, prefix: string, dest: bytes)
    requires HttpUrl(dest) && c.utf8(dest)
    requires i < |Loaded(s)| && i + |saves| < 16 && forall k <- saves :: |k| == 16
    requires forall k <- saves + Loaded(s)[..i] :: KeyedDecode(c, k, Token(c, Loaded(s)[i], dest)).None?
    ensures var keys := DecodableKeys(Encoded(Loaded(SavedAll(s, saves))));
      Routes.DecodePath(c, keys, prefix, Routes.EncodeDest(c, Some(Loaded(s)[i]), prefix, dest)) == Some(dest)
      <==> Survives(s, saves)
  {
    LoadedAreKeys(SavedAll(s, saves));
    if !Survives(s, saves) {
      LoneIsFirst(s, saves, i);
    }
    hide *;
    KeysSurviveEncoding(Loaded(SavedAll(s, saves)));
    if Survives(s, saves) {
      KeptRouteDecodes(c, s, i, saves, prefix, dest);
    } else {
      assert saves + Loaded(s)[..0] == saves;
      LoneRouteIsLost(c, s, saves, prefix, dest);
    }
  }

  /** Without a history record at most one key is loaded. */
  lemma LoneIsFirst(s: Store, saves: seq<bytes>, i: nat)
    requires !Survives(s, saves) && i < |Loaded(s)|
    ensures i == 0 && saves != [] && Loaded(s) != []
  {
  }

  lemma LoadedAreKeys(s: Store)
    ensures forall k <- Loaded(s) :: KeySized(k)
  {
  }

  lemma KeptRouteDecodes(c: Crypto, s: Store, i: nat, saves: seq<bytes>, prefix: string, dest: bytes)
    requires HttpUrl(dest) && c.utf8(dest) && Survives(s, saves)
    requires i < |Loaded(s)| && i + |saves| < 16 && forall k <- saves :: |k| == 16
    requires forall k <- saves + Loaded(s)[..i] :: KeyedDecode(c, k, Token(c, Loaded(s)[i], dest)).None?
    ensures var keys := Loaded(SavedAll(s, saves));
      Routes.DecodePath(c, keys, prefix, Routes.EncodeDest(c, Some(Loaded(s)[i]), prefix, dest)) == Some(dest)
  {
    hide *;
    KeyAfterSaves(s, saves, i);
    NoNewerOpens(c, s, i, saves, dest);
    RouteDecodesUnder(c, Loaded(SavedAll(s, saves)), |saves| + i, prefix, dest);
  }

  lemma NoNewerOpens(c: Crypto, s: Store, i: nat, saves: seq<bytes>, dest: bytes)
    requires Survives(s, saves) && i < |Loaded(s)| && i + |saves| < 16 && forall k <- saves :: |k| == 16
    requires forall k <- saves + Loaded(s)[..i] :: KeyedDecode(c, k, Token(c, Loaded(s)[i], dest)).None?
    ensures var keys := Loaded(SavedAll(s, saves));
      && |saves| + i < |keys|
      && forall j :: 0 <= j < |saves| + i ==> KeyedDecode(c, keys[j], Token(c, Loaded(s)[i], dest)).None?
  {
    hide *;
    KeyAfterSaves(s, saves, i);
    var keys := Loaded(SavedAll(s, saves));
    forall j | 0 <= j < |saves| + i ensures KeyedDecode(c, keys[j], Token(c, Loaded(s)[i], dest)).None? {
      NewerAfterSaves(s, saves, i, j);
    }
  }

  lemma NothingIsLost(s: Store, saves: seq<bytes>)
    requires Survives(s, saves)
    ensures (if saves == [] then Loaded(s) else Carried(s)) == Loaded(s)
  {
  }

  lemma KeyAfterSaves(s: Store, saves: seq<bytes>, i: nat)
    requires Survives(s, saves) && i < |Loaded(s)| && i + |saves| < 16 && forall k <- saves :: |k| == 16
    ensures var keys := Loaded(SavedAll(s, saves)); |saves| + i < |keys| && keys[|saves| + i] == Loaded(s)[i]
  {
    NothingIsLost(s, saves);
    hide *;
    var base := Loaded(s);
    var j := |saves| + i;
    IndexInSecond(Reversed(saves), base, i);
    PositionAfterSaves(s, saves, j);
  }

  lemma IndexInSecond<T>(a: seq<T>, b: seq<T>, i: nat)
    requires i < |b|
    ensures |a| + i < |a + b| && (a + b)[|a| + i] == b[i]
  {
  }

  lemma NewerAfterSaves(s: Store, saves: seq<bytes>, i: nat, j: nat)
    requires Survives(s, saves) && forall k <- saves :: |k| == 16
    requires i < |Loaded(s)| && j < |saves| + i < 16
    ensures var keys := Loaded(SavedAll(s, saves));
      j < |keys| && keys[j] in saves + Loaded(s)[..i]
  {
    PositionAfterSaves(s, saves, j);
    var k := Loaded(SavedAll(s, saves))[j];
    if j < |saves| {
      assert k == Reversed(saves)[j];
      assert k in Reversed(saves);
    } else {
      assert k == Loaded(s)[..i][j - |saves|];
    }
  }

  /** Without a history only the saved keys are left. */
  lemma OnlySavedKeys(s: Store, saves: seq<bytes>)
    requires s.history.None? && 0 < |saves| < KEY_HISTORY_LIMIT && forall k <- saves :: KeySized(k)
    ensures forall k <- Loaded(SavedAll(s, saves)) :: k in saves
  {
    HistoryAfterSaves(s, saves);
    var keys := Loaded(SavedAll(s, saves));
    assert Reversed(saves) + [] == Reversed(saves) == Take(Reversed(saves), KEY_HISTORY_LIMIT);
    assert keys == Take(keys, KEY_HISTORY_LIMIT) == Reversed(saves);
  }

  lemma LoneRouteIsLost(c: Crypto, s: Store, saves: seq<bytes>, prefix: string, dest: bytes)
    requires !Survives(s, saves) && Loaded(s) != [] && |saves| < 16 && forall k <- saves :: |k| == 16
    requires forall k <- saves :: KeyedDecode(c, k, Token(c, Loaded(s)[0], dest)).None?
    ensures var keys := Loaded(SavedAll(s, saves));
      Routes.DecodePath(c, keys, prefix, Routes.EncodeDest(c, Some(Loaded(s)[0]), prefix, dest)).None?
  {
    OnlySavedKeys(s, saves);
    hide Routes.DecodePath, Routes.EncodeDest, KeyedDecode, Token;
    RouteOfNoKey(c, Loaded(SavedAll(s, saves)), Loaded(s)[0], prefix, dest);
  }
}
