/** RFC 4648 section 5 base64url as app/src/codec.ts computes it: an encoder that packs three bytes
    into a 24-bit word, and decoders that shift sextets through a 32-bit accumulator which is never
    masked. The specification works on whole groups of sextets and knows no accumulator. */
module Base64Url {
  import opened Common

  type sextet = bv6

  /** The alphabet in order: A-Z, a-z, 0-9, hyphen, underscore. */
  function CharAt(i: int): char
    requires 0 <= i < 64
  {
    if i < 26 then 'A' + i as char
    else if i < 52 then 'a' + (i - 26) as char
    else if i < 62 then '0' + (i - 52) as char
    else if i == 62 then '-' else '_'
  }

  /** JavaScript's `B64URL.indexOf(c)`: the position of the character, or -1. */
  function IndexOf(c: char): (i: int)
    ensures -1 <= i < 64
    ensures i >= 0 ==> CharAt(i) == c
  {
    if 'A' <= c <= 'Z' then c as int - 65
    else if 'a' <= c <= 'z' then c as int - 97 + 26
    else if '0' <= c <= '9' then c as int - 48 + 52
    else if c == '-' then 62
    else if c == '_' then 63
    else -1
  }

  function Char(v: sextet): char {
    CharAt(v as int)
  }

  lemma IndexOfChar(v: sextet)
    ensures IndexOf(Char(v)) == v as int && IndexOf(Char(v)) as bv6 == v
  {
  }

  lemma CharOfIndex(c: char)
    requires IndexOf(c) >= 0
    ensures Char(IndexOf(c) as bv6) == c
  {
    var v := SextetOf(IndexOf(c));
    SextetBack(v, IndexOf(c));
  }

  /** Counting up reaches a sextet for every value. */
  lemma {:induction false} SextetOf(i: nat) returns (v: sextet)
    requires i < 64
    ensures v as int == i
    decreases i
  {
    if i == 0 {
      v := 0;
    } else {
      v := SextetOf(i - 1);
      NextSextet(v);
      v := v + 1;
    }
  }

  lemma NextSextet(v: sextet)
    requires v as int < 63
    ensures (v + 1) as int == v as int + 1
  {
  }

  lemma SextetBack(v: sextet, i: int)
    requires v as int == i
    ensures i as bv6 == v
  {
  }

  predicate InAlphabet(s: string) {
    forall i :: 0 <= i < |s| ==> IndexOf(s[i]) >= 0
  }

  function Values(s: string): (vs: seq<sextet>)
    requires InAlphabet(s)
    ensures |vs| == |s| && forall i :: 0 <= i < |s| ==> vs[i] == IndexOf(s[i]) as bv6
  {
    seq(|s|, i requires 0 <= i < |s| => IndexOf(s[i]) as bv6)
  }

  function Text(vs: seq<sextet>): (s: string)
    ensures |s| == |vs| && forall i :: 0 <= i < |vs| ==> s[i] == Char(vs[i])
  {
    seq(|vs|, i requires 0 <= i < |vs| => Char(vs[i]))
  }

  // ----- specification -----

  function S0(a: byte): sextet { (a >> 2) as bv6 }
  function S1(a: byte, b: byte): sextet { (((a & 0x3) << 4) | (b >> 4)) as bv6 }
  function S2(b: byte, c: byte): sextet { (((b & 0xf) << 2) | (c >> 6)) as bv6 }
  function S3(c: byte): sextet { (c & 0x3f) as bv6 }

  function O0(p: sextet, q: sextet): byte { ((p as bv8) << 2) | ((q as bv8) >> 4) }
  function O1(q: sextet, r: sextet): byte { ((q as bv8) << 4) | ((r as bv8) >> 2) }
  function O2(r: sextet, t: sextet): byte { ((r as bv8) << 6) | (t as bv8) }

  /** Groups of three bytes become four sextets (RFC 4648 section 4); a short last group is zero filled. */
  function Sextets(bs: bytes): seq<sextet>
    decreases |bs|
  {
    if |bs| == 0 then [] else Group(bs) + Sextets(Drop3(bs))
  }

  function Group(bs: bytes): seq<sextet>
    requires |bs| > 0
  {
    if |bs| == 1 then [S0(bs[0]), S1(bs[0], 0)]
    else if |bs| == 2 then [S0(bs[0]), S1(bs[0], bs[1]), S2(bs[1], 0)]
    else [S0(bs[0]), S1(bs[0], bs[1]), S2(bs[1], bs[2]), S3(bs[2])]
  }

  function Drop3(bs: bytes): (r: bytes)
    ensures |bs| > 0 ==> |r| < |bs|
  {
    if |bs| <= 3 then [] else bs[3..]
  }

  function Encode(bs: bytes): string {
    Text(Sextets(bs))
  }

  /** RFC 4648 section 4: three bytes are one word of 24 bits, its four sextets from the highest on. */
  lemma GroupIsAWord(a: byte, b: byte, c: byte)
    ensures ((a as bv24) << 16) | ((b as bv24) << 8) | (c as bv24) ==
      ((S0(a) as bv24) << 18) | ((S1(a, b) as bv24) << 12) | ((S2(b, c) as bv24) << 6) | (S3(c) as bv24)
  {
  }

  /** RFC 4648 section 5, table 2: four rows of the alphabet. */
  lemma AlphabetIsTheTable(i: nat)
    requires i < 64
    ensures i < 13 ==> CharAt(i) == "ABCDEFGHIJKLM"[i]
    ensures 13 <= i < 26 ==> CharAt(i) == "NOPQRSTUVWXYZ"[i - 13]
    ensures 26 <= i < 39 ==> CharAt(i) == "abcdefghijklm"[i - 26]
    ensures 39 <= i < 52 ==> CharAt(i) == "nopqrstuvwxyz"[i - 39]
    ensures 52 <= i ==> CharAt(i) == "0123456789-_"[i - 52]
    ensures IndexOf(CharAt(i)) == i
  {
  }

  /** A decoder between sextets: the bytes so far, the position in the group, the last sextet. */
  datatype Decoder = Decoder(out: bytes, phase: nat, last: sextet) {

    predicate Ok() {
      phase < 4
    }

    function Next(v: sextet): Decoder
      requires Ok()
    {
      if phase == 0 then Decoder(out, 1, v)
      else if phase == 1 then Decoder(out + [O0(last, v)], 2, v)
      else if phase == 2 then Decoder(out + [O1(last, v)], 3, v)
      else Decoder(out + [O2(last, v)], 0, v)
    }

    /** The bits of the last sextet that no byte holds yet, and how many there are. */
    function Spare(): sextet {
      if phase == 1 then last & 0x3f else if phase == 2 then last & 0xf else if phase == 3 then last & 0x3 else 0
    }

    function SpareBits(): nat {
      if phase == 1 then 6 else if phase == 2 then 4 else if phase == 3 then 2 else 0
    }
  }

  const START := Decoder([], 0, 0)

  function Run(d: Decoder, vs: seq<sextet>): (e: Decoder)
    requires d.Ok()
    ensures e.Ok() && 8 * |e.out| + e.SpareBits() == 8 * |d.out| + d.SpareBits() + 6 * |vs|
    decreases |vs|
  {
    if |vs| == 0 then d else Run(d.Next(vs[0]), vs[1..])
  }

  /** Lenient decode: any length, trailing bits dropped; None for a foreign character. */
  function DecodeLenient(s: string): Option<bytes> {
    if InAlphabet(s) then Some(Run(START, Values(s)).out) else None
  }

  /** Canonical decode: no impossible length, no set trailing bits. */
  function Decode(s: string): Option<bytes> {
    if |s| % 4 == 1 || !InAlphabet(s) then None
    else var d := Run(START, Values(s)); if d.Spare() != 0 then None else Some(d.out)
  }

  // ----- the two directions of the round trip -----

  lemma {:induction false} RunAppend(d: Decoder, a: seq<sextet>, b: seq<sextet>)
    requires d.Ok()
    ensures Run(d, a + b) == Run(Run(d, a), b)
    decreases |a|
  {
    if a == [] {
      assert a + b == b;
    } else {
      assert (a + b)[1..] == a[1..] + b;
      RunAppend(d.Next(a[0]), a[1..], b);
    }
  }

  lemma RunSnoc(d: Decoder, vs: seq<sextet>, v: sextet)
    requires d.Ok()
    ensures Run(d, vs + [v]) == Run(d, vs).Next(v)
  {
    RunAppend(d, vs, [v]);
    assert Run(Run(d, vs).Next(v), []) == Run(d, vs).Next(v);
  }

  /** The position in the group follows from the number of bits: it is the length modulo four. */
  lemma PhaseIsLength(vs: seq<sextet>)
    ensures Run(START, vs).phase == |vs| % 4 && |Run(START, vs).out| == 3 * |vs| / 4
  {
    hide Run;
    PhaseFrom(START, vs);
  }

  /** The bits that wait for a whole byte, in pairs. */
  function Waiting(phase: nat): int {
    if phase == 0 then 0 else 4 - phase
  }

  /** Each sextet brings three pairs of bits, and each byte takes four. */
  lemma {:induction false} PhaseFrom(d: Decoder, vs: seq<sextet>)
    requires d.Ok()
    ensures var e := Run(d, vs);
      && e.Ok() && (e.phase - d.phase - |vs|) % 4 == 0
      && 4 * |e.out| + Waiting(e.phase) == 4 * |d.out| + Waiting(d.phase) + 3 * |vs|
    decreases |vs|
  {
    if vs != [] {
      PhaseStep(d, vs[0]);
      PhaseFrom(d.Next(vs[0]), vs[1..]);
    }
  }

  lemma PhaseStep(d: Decoder, v: sextet)
    requires d.Ok()
    ensures var e := d.Next(v);
      && e.Ok() && (e.phase - d.phase - 1) % 4 == 0
      && 4 * |e.out| + Waiting(e.phase) == 4 * |d.out| + Waiting(d.phase) + 3
  {
  }

  lemma RunGroup(d: Decoder, p: sextet, q: sextet, r: sextet, t: sextet)
    requires d.phase == 0
    ensures d.Next(p).Next(q) == Decoder(d.out + [O0(p, q)], 2, q)
    ensures d.Next(p).Next(q).Next(r) == Decoder(d.out + [O0(p, q), O1(q, r)], 3, r)
    ensures d.Next(p).Next(q).Next(r).Next(t) == Decoder(d.out + [O0(p, q), O1(q, r), O2(r, t)], 0, t)
  {
  }

  lemma RunShort(d: Decoder, vs: seq<sextet>)
    requires d.Ok()
    ensures |vs| == 2 ==> Run(d, vs) == d.Next(vs[0]).Next(vs[1])
    ensures |vs| == 3 ==> Run(d, vs) == d.Next(vs[0]).Next(vs[1]).Next(vs[2])
    ensures |vs| >= 4 ==> Run(d, vs) == Run(d.Next(vs[0]).Next(vs[1]).Next(vs[2]).Next(vs[3]), vs[4..])
  {
    if |vs| >= 2 {
      var e := d.Next(vs[0]).Next(vs[1]);
      assert vs[1..][1..] == vs[2..];
      assert Run(d, vs) == Run(e, vs[2..]);
      if |vs| >= 3 {
        assert vs[2..][1..] == vs[3..];
        assert Run(e, vs[2..]) == Run(e.Next(vs[2]), vs[3..]);
        if |vs| >= 4 {
          assert vs[3..][1..] == vs[4..];
        }
      }
    }
  }

  lemma BytesOfSextets(a: byte, b: byte, c: byte)
    ensures O0(S0(a), S1(a, b)) == a && O1(S1(a, b), S2(b, c)) == b && O2(S2(b, c), S3(c)) == c
    ensures S1(a, 0) & 0xf == 0 && S2(b, 0) & 0x3 == 0
  {
  }

  lemma SextetsOfBytes(p: sextet, q: sextet, r: sextet, t: sextet)
    ensures S0(O0(p, q)) == p && S1(O0(p, q), O1(q, r)) == q && S2(O1(q, r), O2(r, t)) == r && S3(O2(r, t)) == t
    ensures q & 0xf == 0 ==> S1(O0(p, q), 0) == q
    ensures r & 0x3 == 0 ==> S2(O1(q, r), 0) == r
  {
  }

  /** One encoded group decodes to its own bytes. */
  lemma RunOfGroup(d: Decoder, bs: bytes)
    requires d.phase == 0 && |bs| > 0
    ensures var e := Run(d, Group(bs)); e.out == d.out + Take(bs, 3) && e.Spare() == 0 && e.phase != 1
    ensures |bs| >= 3 ==> Run(d, Group(bs)).phase == 0
  {
    var a, b, c := bs[0], if |bs| > 1 then bs[1] else 0, if |bs| > 2 then bs[2] else 0;
    BytesOfSextets(a, b, c);
    RunShort(d, Group(bs));
    RunGroup(d, S0(a), S1(a, b), S2(b, c), S3(c));
    if |bs| == 1 {
      assert Take(bs, 3) == [a];
    } else if |bs| == 2 {
      assert Take(bs, 3) == [a, b];
    } else {
      assert Take(bs, 3) == [a, b, c];
    }
  }

  lemma {:induction false} DecodeOfSextets(d: Decoder, bs: bytes)
    requires d.phase == 0
    ensures var e := Run(d, Sextets(bs)); e.out == d.out + bs && e.Spare() == 0 && e.phase != 1
    decreases |bs|
  {
    if |bs| > 0 {
      var e := Run(d, Group(bs));
      RunOfGroup(d, bs);
      RunAppend(d, Group(bs), Sextets(Drop3(bs)));
      assert Run(d, Sextets(bs)) == Run(e, Sextets(Drop3(bs)));
      if |bs| <= 3 {
        assert Run(d, Sextets(bs)) == e && Take(bs, 3) == bs;
      } else {
        DecodeOfSextets(e, bs[3..]);
        assert bs == bs[..3] + bs[3..];
      }
    }
  }

  lemma SextetsOfGroup(a: byte, b: byte, c: byte, rest: bytes)
    ensures Sextets([a, b, c] + rest) == [S0(a), S1(a, b), S2(b, c), S3(c)] + Sextets(rest)
  {
    var bs := [a, b, c] + rest;
    assert Drop3(bs) == rest;
    assert Group(bs) == [S0(a), S1(a, b), S2(b, c), S3(c)];
  }

  lemma RunFullGroup(d: Decoder, vs: seq<sextet>)
    requires d.phase == 0 && |vs| >= 4
    ensures Run(d, vs) == Run(Decoder(d.out + [O0(vs[0], vs[1]), O1(vs[1], vs[2]), O2(vs[2], vs[3])], 0, vs[3]), vs[4..])
  {
    RunShort(d, vs);
    RunGroup(d, vs[0], vs[1], vs[2], vs[3]);
  }

  lemma SextetsOfFullGroup(vs: seq<sextet>, rest: bytes)
    requires |vs| >= 4 && Sextets(rest) == vs[4..]
    ensures Sextets([O0(vs[0], vs[1]), O1(vs[1], vs[2]), O2(vs[2], vs[3])] + rest) == vs
  {
    SextetsOfGroup(O0(vs[0], vs[1]), O1(vs[1], vs[2]), O2(vs[2], vs[3]), rest);
    SextetsOfBytes(vs[0], vs[1], vs[2], vs[3]);
    hide *;
    assert vs[..4] == [vs[0], vs[1], vs[2], vs[3]];
    assert vs == vs[..4] + vs[4..];
  }

  /** The bytes a canonical run of sextets adds encode back to that run. */
  lemma {:induction false} SextetsOfDecode(d: Decoder, vs: seq<sextet>) returns (bs: bytes)
    requires d.phase == 0 && Run(d, vs).phase != 1 && Run(d, vs).Spare() == 0
    ensures Run(d, vs).out == d.out + bs && Sextets(bs) == vs
    decreases |vs|
  {
    hide Run, Sextets;
    if |vs| < 4 {
      bs := SextetsOfShortDecode(d, vs);
    } else {
      var group := [O0(vs[0], vs[1]), O1(vs[1], vs[2]), O2(vs[2], vs[3])];
      RunFullGroup(d, vs);
      var rest := SextetsOfDecode(Decoder(d.out + group, 0, vs[3]), vs[4..]);
      SextetsOfFullGroup(vs, rest);
      bs := group + rest;
    }
  }

  lemma SextetsOfShortDecode(d: Decoder, vs: seq<sextet>) returns (bs: bytes)
    requires |vs| < 4
    requires d.phase == 0 && Run(d, vs).phase != 1 && Run(d, vs).Spare() == 0
    ensures Run(d, vs).out == d.out + bs && Sextets(bs) == vs
  {
    RunShort(d, vs);
    if |vs| == 0 {
      bs := [];
    } else if |vs| == 1 {
      assert false;
    } else {
      var p, q := vs[0], vs[1];
      var r := if |vs| > 2 then vs[2] else 0;
      RunGroup(d, p, q, r, 0);
      SextetsOfBytes(p, q, r, 0);
      bs := if |vs| == 2 then [O0(p, q)] else [O0(p, q), O1(q, r)];
      assert Group(bs) == vs;
    }
  }

  lemma ValuesText(vs: seq<sextet>)
    ensures InAlphabet(Text(vs)) && Values(Text(vs)) == vs
  {
    forall i | 0 <= i < |vs| ensures IndexOf(Text(vs)[i]) >= 0 && IndexOf(Text(vs)[i]) as bv6 == vs[i] {
      IndexOfChar(vs[i]);
    }
  }

  lemma TextValues(s: string)
    requires InAlphabet(s)
    ensures Text(Values(s)) == s
  {
    forall i | 0 <= i < |s| ensures Text(Values(s))[i] == s[i] {
      CharOfIndex(s[i]);
    }
  }

  /** The canonical decoder accepts exactly the encodings, and inverts them. */
  lemma DecodeIffEncode(s: string, bs: bytes)
    ensures Decode(s) == Some(bs) <==> s == Encode(bs)
  {
    if s == Encode(bs) {
      DecodeOfSextets(START, bs);
      assert [] + bs == bs;
      ValuesText(Sextets(bs));
      PhaseIsLength(Sextets(bs));
    }
    if Decode(s) == Some(bs) {
      TextValues(s);
      PhaseIsLength(Values(s));
      var found := SextetsOfDecode(START, Values(s));
      assert [] + found == found;
      assert found == bs;
    }
  }

  /** Decoding a shorter prefix yields a prefix of the bytes: the fact the recovery scan rests on. */
  lemma {:induction false} RunPrefix(d: Decoder, vs: seq<sextet>)
    requires d.Ok()
    ensures d.out <= Run(d, vs).out
    decreases |vs|
  {
    if |vs| > 0 {
      RunPrefix(d.Next(vs[0]), vs[1..]);
    }
  }

  lemma DecodeLenientPrefix(s: string, n: nat)
    requires n <= |s| && InAlphabet(s)
    ensures DecodeLenient(s).Some? && 3 * n / 4 <= |DecodeLenient(s).value|
    ensures DecodeLenient(s[..n]) == Some(DecodeLenient(s).value[..3 * n / 4])
  {
    var vs := Values(s);
    assert Values(s[..n]) == vs[..n];
    assert vs[..n] + vs[n..] == vs;
    RunAppend(START, vs[..n], vs[n..]);
    var d := Run(START, vs[..n]);
    RunPrefix(d, vs[n..]);
    PhaseIsLength(vs[..n]);
    assert d.out == Run(START, vs).out[..|d.out|];
  }

  // ----- the 32-bit accumulator -----

  /** `buf >> n` on a signed 32-bit word, for the shifts the decoders perform. */
  function ShiftRight(buf: bv32, n: nat): bv32
    requires n in {0, 2, 4}
  {
    var sign: bv32 := if buf & 0x8000_0000 != 0 then 0xffff_ffff else 0;
    if n == 0 then buf
    else if n == 2 then (buf >> 2) | (sign << 30)
    else (buf >> 4) | (sign << 28)
  }

  /** `(1 << n) - 1`. */
  function LowMask(n: nat): bv32
    requires n in {0, 2, 4, 6}
  {
    if n == 0 then 0 else if n == 2 then 0x3 else if n == 4 then 0xf else 0x3f
  }

  function ShiftIn(buf: bv32, v: sextet): bv32 {
    (buf << 6) | (v as bv32)
  }

  function ByteAt(buf: bv32, n: nat): byte
    requires n in {0, 2, 4}
  {
    (ShiftRight(buf, n) & 0xff) as bv8
  }

  /** The accumulator, as far as it still matters: its low spare bits. */
  ghost predicate Holds(buf: bv32, d: Decoder) {
    buf & LowMask(d.SpareBits()) == d.Spare() as bv32
  }

  /** The byte a full group of bits yields: wrap-around has not reached it. */
  lemma ByteAtIsOctet(buf: bv32, last: sextet, v: sextet)
    ensures buf & 0x3f == (last & 0x3f) as bv32 ==> ByteAt(ShiftIn(buf, v), 4) == O0(last, v)
    ensures buf & 0xf == (last & 0xf) as bv32 ==> ByteAt(ShiftIn(buf, v), 2) == O1(last, v)
    ensures buf & 0x3 == (last & 0x3) as bv32 ==> ByteAt(ShiftIn(buf, v), 0) == O2(last, v)
  {
  }

  lemma LowBitsOfShiftIn(buf: bv32, v: sextet)
    ensures ShiftIn(buf, v) & 0x3f == (v & 0x3f) as bv32
    ensures ShiftIn(buf, v) & 0xf == (v & 0xf) as bv32
    ensures ShiftIn(buf, v) & 0x3 == (v & 0x3) as bv32
  {
  }

  lemma NextHolds(buf: bv32, d: Decoder, v: sextet)
    requires d.Ok()
    ensures Holds(ShiftIn(buf, v), d.Next(v))
  {
    LowBitsOfShiftIn(buf, v);
  }

  lemma NextOctet(buf: bv32, d: Decoder, v: sextet)
    requires d.Ok() && d.phase > 0 && Holds(buf, d)
    ensures d.Next(v).SpareBits() in {0, 2, 4}
    ensures d.Next(v).out == d.out + [ByteAt(ShiftIn(buf, v), d.Next(v).SpareBits())]
  {
    ByteAtIsOctet(buf, d.last, v);
  }

  /** One decoder iteration: the bits that overflow are never among those still needed. */
  method Absorb(buf: bv32, bits: nat, v: sextet, ghost d: Decoder) returns (buf': bv32, bits': nat, octet: bytes)
    requires d.Ok() && bits == d.SpareBits() && Holds(buf, d)
    ensures bits' == d.Next(v).SpareBits() && Holds(buf', d.Next(v)) && d.Next(v).out == d.out + octet
  {
    NextHolds(buf, d, v);
    if bits > 0 {
      NextOctet(buf, d, v);
    }
    buf', bits', octet := ShiftIn(buf, v), bits + 6, [];
    if bits' >= 8 {
      bits' := bits' - 8;
      octet := [ByteAt(buf', bits')];
    }
  }

  lemma ValuesSnoc(s: string, i: nat)
    requires i < |s| && InAlphabet(s[..i]) && IndexOf(s[i]) >= 0
    ensures InAlphabet(s[..i + 1]) && Values(s[..i + 1]) == Values(s[..i]) + [IndexOf(s[i]) as bv6]
  {
  }

  /** The loop that `b64uDecode` and `b64uDecodeLenient` share. */
  method Accumulate(s: string) returns (ok: bool, out: bytes, buf: bv32, bits: nat)
    ensures ok <==> InAlphabet(s)
    ensures ok ==> var d := Run(START, Values(s)); out == d.out && bits == d.SpareBits() && Holds(buf, d)
  {
    ok, out, buf, bits := true, [], 0, 0;
    ghost var d := START;
    for i := 0 to |s|
      invariant ok && InAlphabet(s[..i]) && d == Run(START, Values(s[..i]))
      invariant out == d.out && bits == d.SpareBits() && Holds(buf, d)
    {
      var v := IndexOf(s[i]);
      if v < 0 {
        ok := false;
        return;
      }
      ValuesSnoc(s, i);
      RunSnoc(START, Values(s[..i]), v as bv6);
      var octet;
      buf, bits, octet := Absorb(buf, bits, v as bv6, d);
      out := out + octet;
      d := d.Next(v as bv6);
    }
    assert s[..|s|] == s;
  }

  method B64uDecode(s: string) returns (r: Option<bytes>)
    ensures r == Decode(s)
  {
    if |s| % 4 == 1 {
      return None;
    }
    var ok, out, buf, bits := Accumulate(s);
    if !ok {
      return None;
    }
    if bits > 0 && buf & LowMask(bits) != 0 {
      return None;
    }
    return Some(out);
  }

  method B64uDecodeLenient(s: string) returns (r: Option<bytes>)
    ensures r == DecodeLenient(s)
  {
    var ok, out, _, _ := Accumulate(s);
    return if ok then Some(out) else None;
  }

  /** The four six-bit fields of the 24-bit word. */
  method WordFields(a: byte, b: byte, c: byte) returns (p: sextet, q: sextet, r: sextet, t: sextet)
    ensures p == S0(a) && q == S1(a, b) && r == S2(b, c) && t == S3(c)
  {
    var n := ((a as bv32) << 16) | ((b as bv32) << 8) | (c as bv32);
    p := ((n >> 18) & 63) as bv6;
    q := ((n >> 12) & 63) as bv6;
    r := ((n >> 6) & 63) as bv6;
    t := (n & 63) as bv6;
  }

  lemma EncodeStep(bs: bytes, i: nat)
    requires i < |bs|
    ensures Encode(bs[i..]) == Text(Group(bs[i..])) + Encode(if i + 3 <= |bs| then bs[i + 3..] else [])
  {
    var a, b := Group(bs[i..]), Sextets(Drop3(bs[i..]));
    assert Text(a + b) == Text(a) + Text(b);
    assert Drop3(bs[i..]) == if i + 3 <= |bs| then bs[i + 3..] else [];
  }

  method EncodeGroup(b0: byte, b1: Option<byte>, b2: Option<byte>, ghost rest: bytes) returns (piece: string)
    requires |rest| > 0 && b0 == rest[0]
    requires b1 == if |rest| > 1 then Some(rest[1]) else None
    requires b2 == if |rest| > 2 then Some(rest[2]) else None
    ensures piece == Text(Group(rest))
  {
    var p, q, r, t := WordFields(b0, if b1.Some? then b1.value else 0, if b2.Some? then b2.value else 0);
    piece := [Char(p), Char(q)];
    if b1.Some? { piece := piece + [Char(r)]; }
    if b2.Some? { piece := piece + [Char(t)]; }
  }

  method B64uEncode(bs: bytes) returns (out: string)
    ensures out == Encode(bs)
  {
    out := "";
    var i := 0;
    while i < |bs|
      invariant 0 <= i
      invariant Encode(bs) == out + Encode(if i <= |bs| then bs[i..] else [])
    {
      var b1 := if i + 1 < |bs| then Some(bs[i + 1]) else None;
      var b2 := if i + 2 < |bs| then Some(bs[i + 2]) else None;
      var piece := EncodeGroup(bs[i], b1, b2, bs[i..]);
      EncodeStep(bs, i);
      out := out + piece;
      i := i + 3;
    }
  }
}
