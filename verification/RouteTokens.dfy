/** Keyed opaque route tokens of app/src/codec.ts: 0x01, a 16-byte IV that is a MAC of the payload,
    and the payload exclusive-ored with a keystream derived from that IV; dual decode with a key
    history; and the recovery scan over a token with plain text appended to it. SipHash and UTF-8
    validity are parameters: nothing here depends on what they compute. */
module RouteTokens {
  import opened Common
  import opened Base64Url

  /** A 64-bit SipHash result in little-endian bytes. */
  type Block = b: bytes | |b| == 8 witness [0, 0, 0, 0, 0, 0, 0, 0]

  datatype Crypto = Crypto(sip: (bytes, bytes) -> Block, utf8: bytes -> bool)

  // ----- token format -----

  function U32le(n: nat): bytes {
    [(n % 256) as bv8, (n / 0x100 % 256) as bv8, (n / 0x1_0000 % 256) as bv8, (n / 0x100_0000 % 256) as bv8]
  }

  /** Keystream block j: domain 3. */
  function Keystream(c: Crypto, key: bytes, iv: bytes, j: nat): Block {
    c.sip(key, iv + U32le(j) + [3])
  }

  function DestMac(c: Crypto, key: bytes, data: bytes, domain: byte): Block {
    c.sip(key, data + [domain])
  }

  /** The two MACs, domains 1 and 2, that form the IV. */
  function Iv(c: Crypto, key: bytes, data: bytes): (iv: bytes)
    ensures |iv| == 16
  {
    DestMac(c, key, data, 1) + DestMac(c, key, data, 2)
  }

  function Masked(c: Crypto, key: bytes, iv: bytes, b: byte, i: nat): byte {
    b ^ Keystream(c, key, iv, i / 8)[i % 8]
  }

  /** Exclusive or with the keystream; encryption and decryption alike. */
  function Cipher(c: Crypto, key: bytes, iv: bytes, data: bytes): (r: bytes)
    ensures |r| == |data|
    ensures forall i :: 0 <= i < |data| ==> r[i] == Masked(c, key, iv, data[i], i)
  {
    seq(|data|, i requires 0 <= i < |data| => Masked(c, key, iv, data[i], i))
  }

  function Token(c: Crypto, key: bytes, data: bytes): bytes {
    [1] + Iv(c, key, data) + Cipher(c, key, Iv(c, key, data), data)
  }

  predicate TokenShaped(bs: bytes) {
    |bs| >= 17 && bs[0] == 1
  }

  function Bom(): bytes { [0xef, 0xbb, 0xbf] }

  /** The three bytes are the UTF-8 of U+FEFF (RFC 3629 section 3). */
  lemma BomIsTheMark()
    ensures |Bom()| == 3 && Bom()[0] & 0xf0 == 0xe0 && Bom()[1] & 0xc0 == 0x80 && Bom()[2] & 0xc0 == 0x80
    ensures ((Bom()[0] & 0xf) as bv16 << 12) | ((Bom()[1] & 0x3f) as bv16 << 6) | (Bom()[2] & 0x3f) as bv16 == 0xfeff
  {
  }

  /** Strict TextDecoder: None for malformed UTF-8; a leading byte order mark is dropped. */
  function StrictText(c: Crypto, d: bytes): Option<bytes> {
    if !c.utf8(d) then None else if Bom() <= d then Some(d[3..]) else Some(d)
  }

  /** MAC-verified payload of a token, or None. */
  function Payload(c: Crypto, key: bytes, bs: bytes): Option<bytes> {
    if !TokenShaped(bs) then None
    else
      var d := Cipher(c, key, bs[1..17], bs[17..]);
      var text := StrictText(c, d);
      if text.None? || Iv(c, key, d) != bs[1..17] then None else text
  }

  function Ascii(s: string): bytes
    requires forall ch <- s :: ch as int < 128
  {
    seq(|s|, i requires 0 <= i < |s| => assert s[i] in s; (s[i] as int) as bv8)
  }

  /** /^https?:\/\//. */
  predicate HttpUrl(d: bytes) {
    Ascii("http://") <= d || Ascii("https://") <= d
  }

  function KeyedDecode(c: Crypto, key: bytes, bs: bytes): Option<bytes> {
    var p := Payload(c, key, bs);
    if p.Some? && HttpUrl(p.value) then p else None
  }

  /** The first key of the history that opens the token. */
  function DecodeWithHistory(c: Crypto, keys: seq<bytes>, bs: bytes): Option<bytes> {
    if keys == [] then None
    else
      var d := KeyedDecode(c, keys[0], bs);
      if d.Some? then d else DecodeWithHistory(c, keys[1..], bs)
  }

  // ----- round trip of one token -----

  lemma CipherInvolution(c: Crypto, key: bytes, iv: bytes, data: bytes)
    ensures Cipher(c, key, iv, Cipher(c, key, iv, data)) == data
  {
    var once := Cipher(c, key, iv, data);
    var twice := Cipher(c, key, iv, once);
    forall i | 0 <= i < |data| ensures twice[i] == data[i] {
      assert once[i] == Masked(c, key, iv, data[i], i);
      XorTwice(data[i], Keystream(c, key, iv, i / 8)[i % 8]);
    }
  }

  lemma XorTwice(a: byte, k: byte)
    ensures a ^ k ^ k == a
  {
  }

  lemma TokenParts(c: Crypto, key: bytes, data: bytes)
    ensures var t := Token(c, key, data);
      TokenShaped(t) && t[1..17] == Iv(c, key, data) && t[17..] == Cipher(c, key, Iv(c, key, data), data)
      && |t| == 17 + |data|
  {
  }

  /** Decrypting a minted token gives back exactly the minted bytes, as strict text. */
  lemma PayloadOfToken(c: Crypto, key: bytes, data: bytes)
    ensures Payload(c, key, Token(c, key, data)) == StrictText(c, data)
  {
    TokenParts(c, key, data);
    CipherInvolution(c, key, Iv(c, key, data), data);
  }

  /** Conversely, whatever the MAC accepts is a token minted for that very plaintext under that key. */
  lemma PayloadOnlyOfToken(c: Crypto, key: bytes, bs: bytes)
    requires Payload(c, key, bs).Some?
    ensures exists data :: bs == Token(c, key, data) && StrictText(c, data) == Payload(c, key, bs)
  {
    var iv, ct := bs[1..17], bs[17..];
    var data := Cipher(c, key, iv, ct);
    CipherInvolution(c, key, iv, ct);
    assert bs == [1] + iv + ct;
    assert bs == Token(c, key, data);
  }

  lemma HttpIsText(c: Crypto, d: bytes)
    requires HttpUrl(d) && c.utf8(d)
    ensures StrictText(c, d) == Some(d) && |d| >= 7 && d[0] == 0x68
  {
    assert Ascii("http://")[0] == 0x68 && Ascii("https://")[0] == 0x68;
  }

  // ----- what the MAC is asked -----

  predicate AllDifferent(msgs: seq<bytes>) {
    forall a, b :: 0 <= a < b < |msgs| ==> msgs[a] != msgs[b]
  }

  function BlockMessages(iv: bytes, n: nat): (r: seq<bytes>)
    ensures |r| == n
  {
    seq(n, j requires 0 <= j < n => iv + U32le(j) + [3])
  }

  predicate Tagged(m: bytes, x: byte) {
    |m| > 0 && m[|m| - 1] == x
  }

  lemma Digits256(n: nat)
    requires n < 0x1_0000_0000
    ensures n == n % 256 + 0x100 * (n / 0x100 % 256) + 0x1_0000 * (n / 0x1_0000 % 256) + 0x100_0000 * (n / 0x100_0000 % 256)
  {
  }

  lemma ByteApart(x: int, y: int)
    requires 0 <= x < 256 && 0 <= y < 256 && x as bv8 == y as bv8
    ensures x == y
  {
    ByteValue(x);
    ByteValue(y);
  }

  lemma ByteValue(x: int)
    requires 0 <= x < 256
    ensures (x as bv8) as int == x
  {
    var b := ByteFor(x);
    ValueOfByte(b, x);
  }

  /** Counting up reaches a byte for every value. */
  lemma {:induction false} ByteFor(x: nat) returns (b: byte)
    requires x < 256
    ensures b as int == x
    decreases x
  {
    if x == 0 {
      b := 0;
    } else {
      b := ByteFor(x - 1);
      ByteAfter(b);
      b := b + 1;
    }
  }

  lemma ByteAfter(b: byte)
    requires b as int < 0xff
    ensures (b + 1) as int == b as int + 1
  {
  }

  lemma ValueOfByte(b: byte, x: int)
    requires b as int == x
    ensures x as bv8 == b
  {
  }

  lemma CountersDiffer(i: nat, j: nat)
    requires i < j < 0x1_0000_0000
    ensures U32le(i) != U32le(j)
  {
    Digits256(i);
    Digits256(j);
    if U32le(i) == U32le(j) {
      assert U32le(i)[0] == U32le(j)[0] && U32le(i)[1] == U32le(j)[1];
      assert U32le(i)[2] == U32le(j)[2] && U32le(i)[3] == U32le(j)[3];
      ByteApart(i % 256, j % 256);
      ByteApart(i / 0x100 % 256, j / 0x100 % 256);
      ByteApart(i / 0x1_0000 % 256, j / 0x1_0000 % 256);
      ByteApart(i / 0x100_0000 % 256, j / 0x100_0000 % 256);
      assert false;
    }
  }

  lemma BlocksDiffer(iv: bytes, n: nat)
    requires n <= 0x1_0000_0000
    ensures AllDifferent(BlockMessages(iv, n))
    ensures forall m <- BlockMessages(iv, n) :: Tagged(m, 3)
  {
    var r := BlockMessages(iv, n);
    hide U32le;
    forall a, b | 0 <= a < b < n ensures r[a] != r[b] {
      CountersDiffer(a, b);
      assert r[a][|iv|..][..|U32le(a)|] == U32le(a);
      assert r[b][|iv|..][..|U32le(b)|] == U32le(b);
    }
  }

  /** A token asks its MAC for two halves of the IV and for one block of mask per eight bytes, all on messages of
      their own: the halves on the payload, the blocks on the IV and their number, so no answer serves twice. */
  lemma MessagesDiffer(c: Crypto, key: bytes, data: bytes) returns (msgs: seq<bytes>)
    requires |data| <= 0x8_0000_0000
    ensures |msgs| == 2 + (|data| + 7) / 8 && AllDifferent(msgs)
    ensures data <= msgs[0] && data <= msgs[1]
    ensures var t := Token(c, key, data);
      && |t| == 17 + |data| && t[0] == 1 && t[1..9] == c.sip(key, msgs[0]) && t[9..17] == c.sip(key, msgs[1])
      && (forall i :: 0 <= i < |data| ==> t[17 + i] == data[i] ^ c.sip(key, msgs[2 + i / 8])[i % 8])
      && forall j :: 2 <= j < |msgs| ==> t[1..17] <= msgs[j]
  {
    var iv := Iv(c, key, data);
    var n := (|data| + 7) / 8;
    var blocks := BlockMessages(iv, n);
    BlocksDiffer(iv, n);
    msgs := [data + [1], data + [2]] + blocks;
    AllApart(data + [1], data + [2], blocks);
    TokenParts(c, key, data);
    hide AllDifferent, U32le;
    var t := Token(c, key, data);
    forall i | 0 <= i < |data| ensures t[17 + i] == data[i] ^ c.sip(key, msgs[2 + i / 8])[i % 8] {
      assert t[17 + i] == t[17..][i];
      assert msgs[2 + i / 8] == blocks[i / 8];
    }
    assert t[1..9] == t[1..17][..8] && t[9..17] == t[1..17][8..];
  }

  lemma AllApart(x: bytes, y: bytes, rest: seq<bytes>)
    requires Tagged(x, 1) && Tagged(y, 2) && AllDifferent(rest) && forall m <- rest :: Tagged(m, 3)
    ensures AllDifferent([x, y] + rest)
  {
    var all := [x, y] + rest;
    forall a, b | 0 <= a < b < |all| ensures all[a] != all[b] {
      if b >= 2 {
        assert all[b] == rest[b - 2] && all[b] in rest;
      }
    }
  }

  /** The characters that a run of ASCII bytes spells. */
  function AsText(b: bytes): string {
    seq(|b|, i requires 0 <= i < |b| => (b[i] as int) as char)
  }

  lemma AsciiOpens(s: string, d: bytes)
    requires forall ch <- s :: ch as int < 128
    ensures Ascii(s) <= d <==> s <= AsText(d)
  {
    if |s| <= |d| {
      forall i | 0 <= i < |s| ensures Ascii(s)[i] == d[i] <==> s[i] == AsText(d)[i] {
        assert s[i] in s;
        ByteValue(s[i] as int);
        ByteValue(d[i] as int);
        ValueOfByte(d[i], d[i] as int);
      }
      hide Ascii, AsText;
      assert Ascii(s) <= d <==> forall i :: 0 <= i < |s| ==> Ascii(s)[i] == d[i];
    }
  }

  /** The destinations that routes carry. */
  lemma HttpUrlMeaning(d: bytes)
    ensures HttpUrl(d) <==> "http://" <= AsText(d) || "https://" <= AsText(d)
  {
    AsciiOpens("http://", d);
    AsciiOpens("https://", d);
    hide Ascii, AsText;
  }

  // ----- the loops of keyedToken, macEquals and keyedPayload -----

  /** `keyedToken`: fill a fresh buffer with the lead byte, the IV and the masked payload. */
  method MintToken(c: Crypto, key: bytes, d: bytes) returns (t: bytes)
    ensures t == Token(c, key, d)
  {
    var iv := Iv(c, key, d);
    var out := new byte[|d| + 17];
    out[0] := 1;
    forall i | 0 <= i < 16 {
      out[1 + i] := iv[i];
    }
    assert out[..17] == [1] + iv;
    MaskInto(c, key, iv, d, out);
    t := out[..];
    assert t == out[..17] + out[17..];
  }

  method MaskInto(c: Crypto, key: bytes, iv: bytes, d: bytes, out: array<byte>)
    requires out.Length == |d| + 17
    modifies out
    ensures out[..17] == old(out[..17]) && out[17..] == Cipher(c, key, iv, d)
  {
    for i := 0 to |d|
      invariant forall j :: 0 <= j < 17 ==> out[j] == old(out[j])
      invariant forall j :: 0 <= j < i ==> out[17 + j] == Masked(c, key, iv, d[j], j)
    {
      out[17 + i] := d[i] ^ Keystream(c, key, iv, i / 8)[i % 8];
    }
  }

  lemma FoldDiff(diff: byte, a: byte, b: byte)
    ensures diff | (a ^ b) == 0 <==> diff == 0 && a == b
  {
  }

  /** `macEquals`: fold all sixteen differences instead of stopping at the first. */
  method MacEquals(c: Crypto, key: bytes, data: bytes, iv: bytes) returns (same: bool)
    requires |iv| == 16
    ensures same <==> Iv(c, key, data) == iv
  {
    var mac := Iv(c, key, data);
    var diff: byte := 0;
    for i := 0 to 16
      invariant diff == 0 <==> forall j :: 0 <= j < i ==> mac[j] == iv[j]
    {
      FoldDiff(diff, mac[i], iv[i]);
      diff := diff | (mac[i] ^ iv[i]);
    }
    same := diff == 0;
  }

  /** The decrypt loop with its per-block keystream cache, shared by `keyedPayload` and `recoverPath`. */
  method Decrypt(c: Crypto, key: bytes, iv: bytes, ct: bytes) returns (d: bytes)
    ensures d == Cipher(c, key, iv, ct)
  {
    d := [];
    var blocks: map<nat, Block> := map[];
    for k := 0 to |ct|
      invariant |d| == k && forall j :: 0 <= j < k ==> d[j] == Masked(c, key, iv, ct[j], j)
      invariant forall b :: b in blocks ==> blocks[b] == Keystream(c, key, iv, b)
    {
      var b;
      blocks, b := CachedMask(c, key, iv, blocks, ct[k], k);
      d := d + [b];
    }
  }

  method CachedMask(c: Crypto, key: bytes, iv: bytes, blocks: map<nat, Block>, b: byte, k: nat)
      returns (blocks': map<nat, Block>, r: byte)
    requires forall j :: j in blocks ==> blocks[j] == Keystream(c, key, iv, j)
    ensures forall j :: j in blocks' ==> blocks'[j] == Keystream(c, key, iv, j)
    ensures r == Masked(c, key, iv, b, k)
  {
    var ks: Block;
    if k / 8 in blocks {
      ks, blocks' := blocks[k / 8], blocks;
    } else {
      ks := Keystream(c, key, iv, k / 8);
      blocks' := blocks[k / 8 := ks];
    }
    r := b ^ ks[k % 8];
  }

  /** `keyedPayload`. */
  method OpenToken(c: Crypto, key: bytes, bs: bytes) returns (r: Option<bytes>)
    ensures r == Payload(c, key, bs)
  {
    if |bs| < 17 || bs[0] != 1 {
      return None;
    }
    var d := Decrypt(c, key, bs[1..17], bs[17..]);
    var text := StrictText(c, d);
    if text.None? {
      return None;
    }
    var same := MacEquals(c, key, d, bs[1..17]);
    return if same then text else None;
  }

  // ----- the recovery scan -----

  datatype Recovered = Recovered(dest: bytes, rest: string)

  /** The first n characters taken as a complete token of their own. */
  function TryPrefix(c: Crypto, key: bytes, tail: string, n: nat): Option<bytes>
    requires n <= |tail|
  {
    if n % 4 == 1 then None
    else
      var bs := DecodeLenient(tail[..n]);
      if bs.None? then None else KeyedDecode(c, key, bs.value)
  }

  /** The shortest prefix of at least n characters that this key opens. */
  function ScanLengths(c: Crypto, key: bytes, tail: string, n: nat): Option<Recovered>
    decreases |tail| - n
  {
    if n > |tail| then None
    else
      var d := TryPrefix(c, key, tail, n);
      if d.Some? then Some(Recovered(d.value, tail[n..])) else ScanLengths(c, key, tail, n + 1)
  }

  /** The specification of the recovery: every key in order, and for each every prefix length. */
  function Rescan(c: Crypto, keys: seq<bytes>, tail: string): Option<Recovered> {
    if keys == [] then None
    else
      var r := ScanLengths(c, keys[0], tail, 0);
      if r.Some? then r else Rescan(c, keys[1..], tail)
  }

  /** The length of the leading run of alphabet characters. */
  function AlphabetRun(tail: string): (n: nat)
    ensures n <= |tail| && InAlphabet(tail[..n])
    ensures n < |tail| ==> IndexOf(tail[n]) < 0
  {
    if tail == [] || IndexOf(tail[0]) < 0 then 0
    else var n := AlphabetRun(tail[1..]);
      assert tail[..n + 1] == [tail[0]] + tail[1..][..n];
      n + 1
  }

  /** The bytes of the alphabet run: every candidate token is a prefix of them. */
  function RunBytes(tail: string): bytes {
    DecodeLenient(tail[..AlphabetRun(tail)]).value
  }

  /** The run's body under a key. */
  function Body(c: Crypto, key: bytes, tail: string): bytes {
    var bs := RunBytes(tail);
    if |bs| < 17 then [] else Cipher(c, key, bs[1..17], bs[17..])
  }

  /** Under this key the run decrypts to a byte order mark first: the one thing the gate rejects wrongly. */
  predicate MarkFirst(c: Crypto, key: bytes, tail: string) {
    Bom() <= Body(c, key, tail)
  }

  function Unmarked(c: Crypto, keys: seq<bytes>, tail: string): seq<bytes> {
    if keys == [] then []
    else (if MarkFirst(c, keys[0], tail) then [] else [keys[0]]) + Unmarked(c, keys[1..], tail)
  }

  /** The candidate of length n, read off the single decrypted body. */
  function Candidate(c: Crypto, key: bytes, tail: string, n: nat): Option<bytes> {
    var bs, d := RunBytes(tail), Body(c, key, tail);
    if n % 4 == 1 || n > AlphabetRun(tail) || 3 * n / 4 < 17 || !TokenShaped(bs) then None
    else
      var cand := Take(d, 3 * n / 4 - 17);
      var text := StrictText(c, cand);
      if text.None? || Iv(c, key, cand) != bs[1..17] || !HttpUrl(text.value) then None else text
  }

  lemma AlphabetRunIsLongest(tail: string, n: nat)
    requires n <= |tail|
    ensures InAlphabet(tail[..n]) <==> n <= AlphabetRun(tail)
  {
    var m := AlphabetRun(tail);
    if n <= m {
      assert forall i :: 0 <= i < n ==> tail[..n][i] == tail[..m][i];
    } else {
      assert tail[..n][m] == tail[m];
    }
  }

  lemma CipherPrefix(c: Crypto, key: bytes, iv: bytes, a: bytes, n: nat)
    requires n <= |a|
    ensures Cipher(c, key, iv, a[..n]) == Cipher(c, key, iv, a)[..n]
  {
  }

  /** One decode and one decrypt serve every prefix length. */
  lemma PrefixIsCandidate(c: Crypto, key: bytes, tail: string, n: nat)
    requires n <= |tail|
    ensures TryPrefix(c, key, tail, n) == Candidate(c, key, tail, n)
  {
    AlphabetRunIsLongest(tail, n);
    var m := AlphabetRun(tail);
    if n % 4 != 1 && n <= m {
      var run, bs := tail[..m], RunBytes(tail);
      assert run[..n] == tail[..n];
      DecodeLenientPrefix(run, n);
      var k := 3 * n / 4;
      assert DecodeLenient(tail[..n]) == Some(bs[..k]);
      if k >= 17 {
        assert bs[..k][1..17] == bs[1..17];
        assert bs[..k][17..] == bs[17..][..k - 17];
        CipherPrefix(c, key, bs[1..17], bs[17..], k - 17);
      }
    }
  }

  /** A prefix some key opens is long enough for the limits the scan checks first. */
  lemma OpenedPrefixIsLong(c: Crypto, key: bytes, tail: string, n: nat)
    requires n <= |tail| && TryPrefix(c, key, tail, n).Some?
    ensures n >= 23 && |RunBytes(tail)| >= 24 && RunBytes(tail)[0] == 1
    ensures MarkFirst(c, key, tail) || HttpUrl(Body(c, key, tail))
  {
    PrefixIsCandidate(c, key, tail, n);
    var m := AlphabetRun(tail);
    DecodeLenientPrefix(tail[..m], n);
    var d := Body(c, key, tail);
    var cand := Take(d, 3 * n / 4 - 17);
    assert cand <= d;
    var text := StrictText(c, cand).value;
    assert |text| >= 7;
  }

  /** No prefix is accepted from n on: the scan answers nothing. */
  lemma {:induction false} ScanNothing(c: Crypto, key: bytes, tail: string, n: nat)
    requires forall k :: n <= k <= |tail| ==> TryPrefix(c, key, tail, k).None?
    ensures ScanLengths(c, key, tail, n).None?
    decreases |tail| - n
  {
    if n < |tail| {
      ScanNothing(c, key, tail, n + 1);
    }
  }

  /** Skipping lengths that are refused does not change the answer. */
  lemma {:induction false} ScanSkips(c: Crypto, key: bytes, tail: string, n: nat, m: nat)
    requires n <= m && forall k :: n <= k < m && k <= |tail| ==> TryPrefix(c, key, tail, k).None?
    ensures ScanLengths(c, key, tail, n) == ScanLengths(c, key, tail, m)
    decreases m - n
  {
    if n < m {
      if n <= |tail| {
        ScanSkips(c, key, tail, n + 1, m);
      }
    }
  }

  lemma {:induction false} UnmarkedScans(c: Crypto, keys: seq<bytes>, tail: string)
    requires forall k <- keys :: MarkFirst(c, k, tail) ==> ScanLengths(c, k, tail, 0).None?
    ensures Rescan(c, Unmarked(c, keys, tail), tail) == Rescan(c, keys, tail)
  {
    if keys != [] {
      var rest := Unmarked(c, keys[1..], tail);
      UnmarkedScans(c, keys[1..], tail);
      if !MarkFirst(c, keys[0], tail) {
        assert Unmarked(c, keys, tail)[1..] == rest;
      } else {
        assert Unmarked(c, keys, tail) == rest;
      }
    }
  }

  /** The gate of the recovery scan: the first decrypted bytes read "http://" or "https://". */
  method Gate(c: Crypto, key: bytes, iv: bytes, ct: bytes) returns (pass: bool)
    ensures HttpUrl(Cipher(c, key, iv, ct)) ==> pass
    ensures pass && |ct| >= 7 ==> !(Bom() <= Cipher(c, key, iv, ct))
  {
    var ks0 := Keystream(c, key, iv, 0);
    var gate: bytes := [];
    for b := 0 to 8
      invariant |gate| == b
      invariant forall j :: 0 <= j < b && j < |ct| ==> gate[j] == Masked(c, key, iv, ct[j], j)
    {
      gate := gate + [(if b < |ct| then ct[b] else 0) ^ ks0[b]];
    }
    pass := HttpUrl(gate);
    GateReads(gate, Cipher(c, key, iv, ct));
  }

  lemma GateReads(gate: bytes, d: bytes)
    requires |gate| == 8 && forall j :: 0 <= j < 8 && j < |d| ==> gate[j] == d[j]
    ensures HttpUrl(d) ==> HttpUrl(gate)
    ensures HttpUrl(gate) && |d| >= 7 ==> !(Bom() <= d)
  {
    var a, b := Ascii("http://"), Ascii("https://");
    assert a[0] == 0x68 && b[0] == 0x68 && Bom()[0] == 0xef;
    if HttpUrl(d) {
      if a <= d {
        assert a == d[..7] == gate[..7];
      } else {
        assert b == d[..8] == gate[..8];
      }
    }
  }

  /** The per-length MAC scan for one key that passed the gate. */
  method ScanBody(c: Crypto, key: bytes, tail: string, bs: bytes, maxL: nat) returns (r: Option<Recovered>)
    requires maxL == AlphabetRun(tail) && bs == RunBytes(tail) && |bs| >= 24 && bs[0] == 1
    requires !MarkFirst(c, key, tail)
    ensures r == ScanLengths(c, key, tail, 0)
  {
    ScanSkipsShort(c, key, tail);
    var d := Decrypt(c, key, bs[1..17], bs[17..]);
    r := ScanCandidates(c, key, tail, bs, d, maxL);
  }

  method ScanCandidates(c: Crypto, key: bytes, tail: string, bs: bytes, d: bytes, maxL: nat)
      returns (r: Option<Recovered>)
    requires maxL == AlphabetRun(tail) && bs == RunBytes(tail) && |bs| >= 24 && bs[0] == 1
    requires d == Body(c, key, tail)
    ensures r == ScanLengths(c, key, tail, 23)
  {
    hide ScanLengths, TryPrefix, Body, RunBytes;
    var n := 23;
    while n <= maxL
      invariant 23 <= n <= maxL + 1 || (n == 23 && maxL < 23)
      invariant ScanLengths(c, key, tail, 23) == ScanLengths(c, key, tail, n)
    {
      ScanOne(c, key, tail, n);
      if n % 4 != 1 {
        var dest := TryBody(c, key, tail, bs, d, n);
        if dest.Some? {
          return Some(Recovered(dest.value, tail[n..]));
        }
      }
      n := n + 1;
    }
    ScanBeyondRun(c, key, tail, n);
    r := None;
  }

  lemma ScanOne(c: Crypto, key: bytes, tail: string, n: nat)
    requires n <= |tail|
    ensures n % 4 == 1 ==> TryPrefix(c, key, tail, n).None?
    ensures ScanLengths(c, key, tail, n) ==
      var d := TryPrefix(c, key, tail, n);
      if d.Some? then Some(Recovered(d.value, tail[n..])) else ScanLengths(c, key, tail, n + 1)
  {
    hide DecodeLenient, KeyedDecode;
  }

  lemma ScanSkipsShort(c: Crypto, key: bytes, tail: string)
    ensures ScanLengths(c, key, tail, 0) == ScanLengths(c, key, tail, 23)
  {
    forall k | 0 <= k < 23 && k <= |tail| ensures TryPrefix(c, key, tail, k).None? {
      PrefixIsCandidate(c, key, tail, k);
    }
    ScanSkips(c, key, tail, 0, 23);
  }

  lemma ScanBeyondRun(c: Crypto, key: bytes, tail: string, n: nat)
    requires n > AlphabetRun(tail)
    ensures ScanLengths(c, key, tail, n).None?
  {
    if n <= |tail| {
      forall k | n <= k <= |tail| ensures TryPrefix(c, key, tail, k).None? {
        AlphabetRunIsLongest(tail, k);
      }
      ScanNothing(c, key, tail, n);
    }
  }

  /** One candidate length of the scan, read off the decrypted body. */
  method TryBody(c: Crypto, key: bytes, tail: string, bs: bytes, d: bytes, n: nat) returns (dest: Option<bytes>)
    requires 23 <= n <= AlphabetRun(tail) && n % 4 != 1
    requires bs == RunBytes(tail) && |bs| >= 24 && bs[0] == 1 && d == Body(c, key, tail)
    ensures dest == TryPrefix(c, key, tail, n)
  {
    PrefixIsCandidate(c, key, tail, n);
    var cand := Take(d, 3 * n / 4 - 17);
    var same := MacEquals(c, key, cand, bs[1..17]);
    if !same {
      return None;
    }
    dest := StrictText(c, cand);
    if dest.Some? && !HttpUrl(dest.value) {
      dest := None;
    }
  }

  /** `recoverPath` from the tail on. */
  method RecoverTail(c: Crypto, keys: seq<bytes>, tail: string) returns (r: Option<Recovered>)
    ensures r == if 23 <= |tail| <= 2048 then Rescan(c, Unmarked(c, keys, tail), tail) else None
  {
    if |tail| < 23 || |tail| > 2048 {
      return None;
    }
    var maxL := LeadingRun(tail);
    var decoded := B64uDecodeLenient(tail[..maxL]);
    if maxL < 23 || decoded.None? || |decoded.value| < 24 || decoded.value[0] != 1 {
      RescanRefuses(c, keys, tail);
      return None;
    }
    r := ScanAll(c, keys, tail, decoded.value, maxL);
  }

  method LeadingRun(tail: string) returns (maxL: nat)
    ensures maxL == AlphabetRun(tail)
  {
    maxL := 0;
    while maxL < |tail| && IndexOf(tail[maxL]) >= 0
      invariant maxL <= |tail| && InAlphabet(tail[..maxL])
    {
      maxL := maxL + 1;
    }
    AlphabetRunIsLongest(tail, maxL);
    if maxL < |tail| {
      assert tail[..maxL + 1][maxL] == tail[maxL];
      AlphabetRunIsLongest(tail, maxL + 1);
    }
  }

  method ScanAll(c: Crypto, keys: seq<bytes>, tail: string, bs: bytes, maxL: nat) returns (r: Option<Recovered>)
    requires maxL == AlphabetRun(tail) && bs == RunBytes(tail) && |bs| >= 24 && bs[0] == 1
    ensures r == Rescan(c, Unmarked(c, keys, tail), tail)
  {
    for i := 0 to |keys|
      invariant Rescan(c, Unmarked(c, keys, tail), tail) == Rescan(c, Unmarked(c, keys[i..], tail), tail)
    {
      var hit := ScanKey(c, keys[i], tail, bs, maxL);
      RescanHead(c, keys[i..], tail);
      if hit.Some? {
        return hit;
      }
    }
    r := None;
  }

  /** One key of the scan: the gate, and the per-length scan for a key that passes it. */
  method ScanKey(c: Crypto, key: bytes, tail: string, bs: bytes, maxL: nat) returns (hit: Option<Recovered>)
    requires maxL == AlphabetRun(tail) && bs == RunBytes(tail) && |bs| >= 24 && bs[0] == 1
    ensures hit == if MarkFirst(c, key, tail) then None else ScanLengths(c, key, tail, 0)
  {
    var pass := Gate(c, key, bs[1..17], bs[17..]);
    if pass {
      hit := ScanBody(c, key, tail, bs, maxL);
    } else {
      if !MarkFirst(c, key, tail) {
        GateLosesOnlyMarks(c, key, tail);
      }
      hit := None;
    }
  }

  /** When the length or lead-byte limits refuse the tail, no key opens any prefix of it. */
  lemma {:induction false} RescanRefuses(c: Crypto, keys: seq<bytes>, tail: string)
    requires AlphabetRun(tail) < 23 || |RunBytes(tail)| < 24 || RunBytes(tail)[0] != 1
    ensures Rescan(c, keys, tail).None? && Rescan(c, Unmarked(c, keys, tail), tail).None?
  {
    if keys != [] {
      forall n | 0 <= n <= |tail| ensures TryPrefix(c, keys[0], tail, n).None? {
        if TryPrefix(c, keys[0], tail, n).Some? {
          OpenedPrefixIsLong(c, keys[0], tail, n);
          PrefixIsCandidate(c, keys[0], tail, n);
        }
      }
      ScanNothing(c, keys[0], tail, 0);
      RescanRefuses(c, keys[1..], tail);
      RescanHead(c, keys, tail);
    }
  }

  /** A key that fails the gate and is not marked opens nothing. */
  lemma GateLosesOnlyMarks(c: Crypto, key: bytes, tail: string)
    requires !HttpUrl(Body(c, key, tail)) && !MarkFirst(c, key, tail)
    ensures ScanLengths(c, key, tail, 0).None?
  {
    forall n | 0 <= n <= |tail| ensures TryPrefix(c, key, tail, n).None? {
      if TryPrefix(c, key, tail, n).Some? {
        OpenedPrefixIsLong(c, key, tail, n);
      }
    }
    ScanNothing(c, key, tail, 0);
  }

  lemma RescanHead(c: Crypto, keys: seq<bytes>, tail: string)
    requires keys != []
    ensures Rescan(c, Unmarked(c, keys, tail), tail) ==
      var hit := if MarkFirst(c, keys[0], tail) then None else ScanLengths(c, keys[0], tail, 0);
      if hit.Some? then hit else Rescan(c, Unmarked(c, keys[1..], tail), tail)
  {
    var us := Unmarked(c, keys[1..], tail);
    if MarkFirst(c, keys[0], tail) {
      assert Unmarked(c, keys, tail) == us;
    } else {
      assert Unmarked(c, keys, tail) == [keys[0]] + us;
      assert ([keys[0]] + us)[1..] == us;
    }
  }
}
