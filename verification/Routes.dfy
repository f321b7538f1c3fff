/** Engine routes on top of the tokens (app/src/codec.ts) and the stored key history (app/src/routekey.ts). */
module Routes {
  import opened Common
  import opened Strings
  import opened Base64Url
  import opened RouteTokens

  const STOPS := {'?', '#'}

  // ----- encode and decode of a route path -----

  /** `encodeDest`: keyed when a minting key is held, plain base64url otherwise. */
  function EncodeDest(c: Crypto, key: Option<bytes>, prefix: string, dest: bytes): string {
    prefix + (if key.Some? then Base64Url.Encode(Token(c, key.value, dest)) else Base64Url.Encode(dest))
  }

  /** The decoded tail bytes of a path that starts with the prefix; query and fragment are cut off. */
  function TailBytes(prefix: string, path: string): Option<bytes> {
    if prefix <= path then Base64Url.Decode(Before(path[|prefix|..], STOPS)) else None
  }

  function DecodePath(c: Crypto, keys: seq<bytes>, prefix: string, path: string): Option<bytes> {
    var bs := TailBytes(prefix, path);
    if bs.None? then None
    else if TokenShaped(bs.value) then DecodeWithHistory(c, keys, bs.value)
    else
      var text := StrictText(c, bs.value);
      if text.Some? && HttpUrl(text.value) then text else None
  }

  function MintingKey(keys: seq<bytes>): Option<bytes> {
    if keys == [] then None else Some(keys[0])
  }

  lemma EncodedHasNoStops(bs: bytes)
    ensures forall ch <- Base64Url.Encode(bs) :: IndexOf(ch) >= 0 && ch !in STOPS
  {
    ValuesText(Sextets(bs));
    var text := Base64Url.Encode(bs);
    forall ch | ch in text ensures IndexOf(ch) >= 0 {
      var i :| 0 <= i < |text| && text[i] == ch;
    }
    assert IndexOf('?') == -1 && IndexOf('#') == -1;
  }

  /** An encoded tail carries no character that ends a path, so the cut leaves it whole. */
  lemma TailOfEncoded(prefix: string, bs: bytes)
    ensures TailBytes(prefix, prefix + Base64Url.Encode(bs)) == Some(bs)
  {
    var text := Base64Url.Encode(bs);
    EncodedHasNoStops(bs);
    BeforeIsWhole(text, STOPS);
    assert (prefix + text)[|prefix|..] == text;
    DecodeIffEncode(text, bs);
  }

  /** A query or a fragment behind a route does not matter to it. */
  lemma {:induction false} CutAtStop(t: string, stop: char, rest: string)
    requires stop in {'?', '#'}
    ensures Before(t + [stop] + rest, STOPS) == Before(t, STOPS)
    decreases |t|
  {
    var s := t + [stop] + rest;
    if t == "" {
      assert s[0] == stop;
    } else {
      assert s[0] == t[0] && s[1..] == t[1..] + [stop] + rest;
      CutAtStop(t[1..], stop, rest);
    }
  }

  lemma QueryIsCut(c: Crypto, keys: seq<bytes>, prefix: string, path: string, stop: char, rest: string)
    requires prefix <= path && stop in {'?', '#'}
    ensures DecodePath(c, keys, prefix, path + [stop] + rest) == DecodePath(c, keys, prefix, path)
  {
    var tail := path[|prefix|..];
    assert (path + [stop] + rest)[|prefix|..] == tail + [stop] + rest;
    CutAtStop(tail, stop, rest);
  }

  /** A plain destination is never mistaken for a keyed token, whatever its length. */
  lemma LegacyNeverKeyed(c: Crypto, dest: bytes)
    requires HttpUrl(dest) && c.utf8(dest)
    ensures !TokenShaped(dest)
  {
    HttpIsText(c, dest);
  }

  /** The first opening key decides, wherever it stands in the history. */
  lemma {:induction false} HistoryOpens(c: Crypto, keys: seq<bytes>, i: nat, bs: bytes)
    requires i < |keys| && KeyedDecode(c, keys[i], bs).Some?
    requires forall j :: 0 <= j < i ==> KeyedDecode(c, keys[j], bs).None?
    ensures DecodeWithHistory(c, keys, bs) == KeyedDecode(c, keys[i], bs)
  {
    if i > 0 {
      HistoryOpens(c, keys[1..], i - 1, bs);
    }
  }

  /** A route minted under the key at position i decodes as long as no newer key accepts its MAC. */
  lemma RouteDecodesUnder(c: Crypto, keys: seq<bytes>, i: nat, prefix: string, dest: bytes)
    requires HttpUrl(dest) && c.utf8(dest) && i < |keys|
    requires forall j :: 0 <= j < i ==> KeyedDecode(c, keys[j], Token(c, keys[i], dest)).None?
    ensures DecodePath(c, keys, prefix, EncodeDest(c, Some(keys[i]), prefix, dest)) == Some(dest)
  {
    var t := Token(c, keys[i], dest);
    TailOfEncoded(prefix, t);
    TokenParts(c, keys[i], dest);
    PayloadOfToken(c, keys[i], dest);
    HttpIsText(c, dest);
    HistoryOpens(c, keys, i, t);
  }

  /** A route whose token no key opens is not decoded. */
  lemma {:induction false} NoKeyOpens(c: Crypto, keys: seq<bytes>, bs: bytes)
    requires forall k <- keys :: KeyedDecode(c, k, bs).None?
    ensures DecodeWithHistory(c, keys, bs).None?
    decreases |keys|
  {
    if keys != [] {
      assert keys[0] in keys;
      NoKeyOpens(c, keys[1..], bs);
    }
  }

  lemma RouteOfNoKey(c: Crypto, keys: seq<bytes>, key: bytes, prefix: string, dest: bytes)
    requires forall k <- keys :: KeyedDecode(c, k, Token(c, key, dest)).None?
    ensures DecodePath(c, keys, prefix, EncodeDest(c, Some(key), prefix, dest)).None?
  {
    var t := Token(c, key, dest);
    TailOfEncoded(prefix, t);
    TokenParts(c, key, dest);
    NoKeyOpens(c, keys, t);
  }

  /** Every http(s) destination survives minting and decoding, with a key or without one. */
  lemma RouteRoundTrip(c: Crypto, keys: seq<bytes>, prefix: string, dest: bytes)
    requires HttpUrl(dest) && c.utf8(dest)
    ensures DecodePath(c, keys, prefix, EncodeDest(c, MintingKey(keys), prefix, dest)) == Some(dest)
  {
    if keys == [] {
      TailOfEncoded(prefix, dest);
      LegacyNeverKeyed(c, dest);
      HttpIsText(c, dest);
    } else {
      RouteDecodesUnder(c, keys, 0, prefix, dest);
    }
  }

  /** A legacy route minted before any key existed keeps decoding under every history. */
  lemma LegacyRouteDecodes(c: Crypto, keys: seq<bytes>, prefix: string, dest: bytes)
    requires HttpUrl(dest) && c.utf8(dest)
    ensures DecodePath(c, keys, prefix, EncodeDest(c, None, prefix, dest)) == Some(dest)
  {
    TailOfEncoded(prefix, dest);
    LegacyNeverKeyed(c, dest);
    HttpIsText(c, dest);
  }

  // ----- the recovery scan -----

  function TailAfter(prefix: string, path: string): Option<string> {
    var i := Find(path, prefix, 0);
    if i.None? then None else Some(Before(path[i.value + |prefix|..], STOPS))
  }

  method RecoverPath(c: Crypto, keys: seq<bytes>, prefix: string, path: string) returns (r: Option<Recovered>)
    ensures r == var t := TailAfter(prefix, path);
      if t.Some? && 23 <= |t.value| <= 2048 then Rescan(c, Unmarked(c, keys, t.value), t.value) else None
  {
    var tail := TailAfter(prefix, path);
    if tail.None? {
      return None;
    }
    r := RecoverTail(c, keys, tail.value);
  }

  /** The gate answers exactly as the full rescan does, unless a key decrypts the body to a byte order mark. */
  lemma GateLosesNothing(c: Crypto, keys: seq<bytes>, tail: string)
    requires forall k <- keys :: !MarkFirst(c, k, tail)
    ensures Rescan(c, Unmarked(c, keys, tail), tail) == Rescan(c, keys, tail)
  {
    UnmarkedScans(c, keys, tail);
  }

  predicate OpensNone(c: Crypto, keys: seq<bytes>, i: nat, tail: string)
    requires i <= |keys|
  {
    forall j :: 0 <= j < i ==> ScanLengths(c, keys[j], tail, 0).None?
  }

  /** Keys that open no prefix do not matter to the slow scan. */
  lemma {:induction false} RescanSkips(c: Crypto, keys: seq<bytes>, i: nat, tail: string)
    requires i <= |keys| && OpensNone(c, keys, i, tail)
    ensures Rescan(c, keys, tail) == Rescan(c, keys[i..], tail)
    decreases i
  {
    hide ScanLengths;
    if i == 0 {
      assert keys[0..] == keys;
    } else {
      assert keys[1..][i - 1..] == keys[i..];
      RescanSkips(c, keys[1..], i - 1, tail);
    }
  }

  /** Nor to the fast one. */
  lemma {:induction false} FastSkips(c: Crypto, keys: seq<bytes>, i: nat, tail: string)
    requires i <= |keys| && OpensNone(c, keys, i, tail)
    ensures Rescan(c, Unmarked(c, keys, tail), tail) == Rescan(c, Unmarked(c, keys[i..], tail), tail)
    decreases i
  {
    hide ScanLengths, MarkFirst, Unmarked, Rescan;
    if i == 0 {
      assert keys[0..] == keys;
    } else {
      RescanHead(c, keys, tail);
      assert keys[1..][i - 1..] == keys[i..];
      FastSkips(c, keys[1..], i - 1, tail);
    }
  }

  /** In a history the first key that opens a prefix decides. If it is unmarked the answers agree; if it is
      marked the recovery goes on with the older keys as though it were not there. */
  lemma FirstOpenerDecides(c: Crypto, keys: seq<bytes>, i: nat, tail: string)
    requires i < |keys| && ScanLengths(c, keys[i], tail, 0).Some?
    requires forall j :: 0 <= j < i ==> ScanLengths(c, keys[j], tail, 0).None?
    ensures Rescan(c, keys, tail) == ScanLengths(c, keys[i], tail, 0)
    ensures !MarkFirst(c, keys[i], tail) ==> Rescan(c, Unmarked(c, keys, tail), tail) == Rescan(c, keys, tail)
    ensures MarkFirst(c, keys[i], tail) ==>
      Rescan(c, Unmarked(c, keys, tail), tail) == Rescan(c, Unmarked(c, keys[i + 1..], tail), tail)
  {
    hide ScanLengths, MarkFirst, Unmarked;
    RescanSkips(c, keys, i, tail);
    FastSkips(c, keys, i, tail);
    RescanHead(c, keys[i..], tail);
    assert keys[i..][1..] == keys[i + 1..];
  }

  /** Without a key that opens a prefix both answers are none. */
  lemma NoOpener(c: Crypto, keys: seq<bytes>, tail: string)
    requires forall k <- keys :: ScanLengths(c, k, tail, 0).None?
    ensures Rescan(c, keys, tail).None? && Rescan(c, Unmarked(c, keys, tail), tail).None?
  {
    hide ScanLengths, MarkFirst;
    RescanSkips(c, keys, |keys|, tail);
    FastSkips(c, keys, |keys|, tail);
    assert keys[|keys|..] == [];
  }

  /** A payload that reads as an http(s) URL, after a byte order mark or without one. */
  predicate Minted(c: Crypto, d: bytes) {
    c.utf8(d) && HttpUrl(StrictText(c, d).value)
  }

  lemma TokenPrefixOpens(c: Crypto, key: bytes, d: bytes, rest: string)
    requires Minted(c, d)
    ensures var tok := Base64Url.Encode(Token(c, key, d));
      TryPrefix(c, key, tok + rest, |tok|) == StrictText(c, d)
  {
    var t := Token(c, key, d);
    var tok := Base64Url.Encode(t);
    assert (tok + rest)[..|tok|] == tok;
    DecodeIffEncode(tok, t);
    PayloadOfToken(c, key, d);
  }

  lemma TokenTextLength(c: Crypto, key: bytes, d: bytes)
    ensures 3 * |Base64Url.Encode(Token(c, key, d))| / 4 == 17 + |d|
  {
    var t := Token(c, key, d);
    var tok := Base64Url.Encode(t);
    DecodeIffEncode(tok, t);
    PhaseIsLength(Values(tok));
    TokenParts(c, key, d);
  }

  /** The run the scan decrypts starts with the whole token. */
  lemma RunStartsWithToken(c: Crypto, key: bytes, d: bytes, rest: string)
    ensures var t := Token(c, key, d); t <= RunBytes(Base64Url.Encode(t) + rest)
  {
    var t := Token(c, key, d);
    var tok := Base64Url.Encode(t);
    var tail := tok + rest;
    assert tail[..|tok|] == tok;
    DecodeIffEncode(tok, t);
    AlphabetRunIsLongest(tail, |tok|);
    var m := AlphabetRun(tail);
    assert tail[..m][..|tok|] == tok;
    DecodeLenientPrefix(tail[..m], |tok|);
    TokenTextLength(c, key, d);
    TokenParts(c, key, d);
  }

  /** Decrypted under the minting key, it starts with the payload. */
  lemma BodyStartsWithPayload(c: Crypto, key: bytes, d: bytes, rest: string)
    ensures d <= Body(c, key, Base64Url.Encode(Token(c, key, d)) + rest)
  {
    var t := Token(c, key, d);
    var tail := Base64Url.Encode(t) + rest;
    RunStartsWithToken(c, key, d, rest);
    TokenParts(c, key, d);
    var bs := RunBytes(tail);
    assert bs[..|t|] == t;
    assert bs[1..17] == t[1..17] && bs[17..][..|d|] == t[17..];
    CipherPrefix(c, key, bs[1..17], bs[17..], |d|);
    CipherInvolution(c, key, Iv(c, key, d), d);
  }

  /** So the mark stands in front of the run exactly when it stands in front of the payload. */
  lemma MarkOfPayload(c: Crypto, key: bytes, d: bytes, rest: string)
    requires Minted(c, d)
    ensures MarkFirst(c, key, Base64Url.Encode(Token(c, key, d)) + rest) <==> Bom() <= d
  {
    BodyStartsWithPayload(c, key, d, rest);
    var text := StrictText(c, d).value;
    assert |d| >= |text| >= 7;
    hide Body;
  }

  /** The minting key opens the token inside the longer text, at no shorter length. */
  lemma MintedScans(c: Crypto, key: bytes, d: bytes, rest: string)
    requires Minted(c, d)
    requires var tok := Base64Url.Encode(Token(c, key, d));
      forall n :: 0 <= n < |tok| ==> TryPrefix(c, key, tok + rest, n).None?
    ensures ScanLengths(c, key, Base64Url.Encode(Token(c, key, d)) + rest, 0)
         == Some(Recovered(StrictText(c, d).value, rest))
  {
    var tok := Base64Url.Encode(Token(c, key, d));
    var tail := tok + rest;
    TokenPrefixOpens(c, key, d, rest);
    ScanSkips(c, key, tail, 0, |tok|);
    assert tail[|tok|..] == rest;
  }

  lemma KeyAt(newer: seq<bytes>, key: bytes, older: seq<bytes>)
    ensures var keys := newer + [key] + older; var i := |newer|;
      keys[i] == key && keys[i + 1..] == older && forall j :: 0 <= j < i ==> keys[j] in newer
  {
  }

  /** The gate loses a token with text behind it exactly when its payload opens with a byte order mark, which
      whoever mints it can check: without the mark the recovery finds it whatever the older keys are, with the
      mark it is left to the older keys, and to none when none of them opens anything. */
  lemma GateLosesExactly(c: Crypto, newer: seq<bytes>, key: bytes, older: seq<bytes>, d: bytes, rest: string)
    requires Minted(c, d)
    requires var tok := Base64Url.Encode(Token(c, key, d)); var tail := tok + rest;
      && (forall k <- newer :: ScanLengths(c, k, tail, 0).None?)
      && (forall n :: 0 <= n < |tok| ==> TryPrefix(c, key, tail, n).None?)
    ensures var tail := Base64Url.Encode(Token(c, key, d)) + rest;
      var r := Rescan(c, Unmarked(c, newer + [key] + older, tail), tail);
      && (!(Bom() <= d) ==> r == Some(Recovered(StrictText(c, d).value, rest)))
      && (Bom() <= d ==> r == Rescan(c, Unmarked(c, older, tail), tail))
      && ((forall k <- older :: ScanLengths(c, k, tail, 0).None?) ==>
           (r == Some(Recovered(StrictText(c, d).value, rest)) <==> !(Bom() <= d)) && (r.None? <==> Bom() <= d))
  {
    var tail := Base64Url.Encode(Token(c, key, d)) + rest;
    MintedScans(c, key, d, rest);
    MarkOfPayload(c, key, d, rest);
    KeyAt(newer, key, older);
    hide *;
    FirstOpenerDecides(c, newer + [key] + older, |newer|, tail);
    if forall k <- older :: ScanLengths(c, k, tail, 0).None? {
      NoOpener(c, older, tail);
    }
  }

  /** Recovery undoes "mint a token, then append plain text", whatever the text: it only takes that no
      newer key and no shorter prefix passes the MAC. */
  lemma RecoverUndoesAppend(c: Crypto, newer: seq<bytes>, key: bytes, older: seq<bytes>, d: bytes, rest: string)
    requires HttpUrl(d) && c.utf8(d)
    requires var tok := Base64Url.Encode(Token(c, key, d)); var tail := tok + rest;
      && (forall k <- newer :: ScanLengths(c, k, tail, 0).None?)
      && (forall n :: 0 <= n < |tok| ==> TryPrefix(c, key, tail, n).None?)
    ensures var tail := Base64Url.Encode(Token(c, key, d)) + rest;
      Rescan(c, Unmarked(c, newer + [key] + older, tail), tail) == Some(Recovered(d, rest))
  {
    HttpIsText(c, d);
    GateLosesExactly(c, newer, key, older, d, rest);
  }

  /** A token opens as one of the prefixes the slow scan tries, whatever its payload decodes to. */
  lemma TokenScans(c: Crypto, key: bytes, d: bytes)
    requires c.utf8(d) && StrictText(c, d).Some? && HttpUrl(StrictText(c, d).value)
    ensures ScanLengths(c, key, Base64Url.Encode(Token(c, key, d)), 0).Some?
  {
    var t := Token(c, key, d);
    var tail := Base64Url.Encode(t);
    var n := |tail|;
    DecodeIffEncode(tail, t);
    assert tail[..n] == tail;
    PayloadOfToken(c, key, d);
    assert TryPrefix(c, key, tail, n).Some?;
    hide *;
    if ScanLengths(c, key, tail, 0).None? {
      ScanNothingConverse(c, key, tail, 0, n);
    }
  }

  /** The mark does get lost: a token whose payload opens with a byte order mark is accepted by the
      standalone decoder and refused by the recovery scan. */
  lemma MarkWitness()
    ensures exists c: Crypto, key: bytes, tail: string ::
      MarkFirst(c, key, tail) && ScanLengths(c, key, tail, 0).Some?
      && Rescan(c, Unmarked(c, [key], tail), tail).None?
  {
    var zero: Block := [0, 0, 0, 0, 0, 0, 0, 0];
    var c := Crypto((k: bytes, m: bytes) => zero, (d: bytes) => true);
    var key: bytes := zero + zero;
    var d := Bom() + Ascii("http://");
    assert d[3..] == Ascii("http://");
    assert Minted(c, d);
    hide *;
    MarkedTokenIsLost(c, key, d);
  }

  lemma MarkedTokenIsLost(c: Crypto, key: bytes, d: bytes)
    requires Minted(c, d) && Bom() <= d
    ensures var tail := Base64Url.Encode(Token(c, key, d));
      MarkFirst(c, key, tail) && ScanLengths(c, key, tail, 0).Some? && Rescan(c, Unmarked(c, [key], tail), tail).None?
  {
    var tail := Base64Url.Encode(Token(c, key, d));
    assert Unmarked(c, [], tail) == [] && Rescan(c, [], tail).None? && [key][1..] == [];
    TokenScans(c, key, d);
    MarkOfPayload(c, key, d, "");
    assert tail + "" == tail;
    hide Minted, Bom, ScanLengths, MarkFirst, Base64Url.Encode, Token, Unmarked;
    RescanHead(c, [key], tail);
  }

  lemma {:induction false} ScanNothingConverse(c: Crypto, key: bytes, tail: string, n: nat, k: nat)
    requires ScanLengths(c, key, tail, n).None? && n <= k <= |tail|
    ensures TryPrefix(c, key, tail, k).None?
    decreases k - n
  {
    if n < k {
      ScanNothingConverse(c, key, tail, n + 1, k);
    }
  }
}
