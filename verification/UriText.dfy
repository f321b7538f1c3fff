/** UTF-8 and `encodeURIComponent`, on strings of whole Unicode characters. */
module UriText {

  /** The UTF-8 bytes of one character (RFC 3629 section 3). */
  function Utf8(c: char): (r: seq<nat>)
    ensures 1 <= |r| <= 4 && forall i :: 0 <= i < |r| ==> r[i] < 256
  {
    var v := c as int;
    var w := v / 64;
    var x := w / 64;
    if v < 0x80 then [v]
    else if v < 0x800 then [0xC0 + w, 0x80 + v % 64]
    else if v < 0x10000 then [0xE0 + x, 0x80 + w % 64, 0x80 + v % 64]
    else [0xF0 + x / 64, 0x80 + x % 64, 0x80 + w % 64, 0x80 + v % 64]
  }

  function Utf8Length(s: string): nat
    decreases |s|
  {
    if s == "" then 0 else |Utf8(s[0])| + Utf8Length(s[1..])
  }

  /** The length JavaScript reports: characters past U+FFFF count as two. */
  function Width(s: string): (n: nat)
    ensures n >= |s|
    decreases |s|
  {
    if s == "" then 0 else (if s[0] as int < 0x10000 then 1 else 2) + Width(s[1..])
  }

  /** Both lengths add up over the characters: UTF-8 takes one to four bytes for each, JavaScript one unit or two. */
  lemma {:induction false} LengthsAddUp(a: string, b: string)
    ensures Utf8Length(a + b) == Utf8Length(a) + Utf8Length(b) && Width(a + b) == Width(a) + Width(b)
    decreases |a|
  {
    if a == "" {
      assert a + b == b;
    } else {
      assert (a + b)[1..] == a[1..] + b;
      LengthsAddUp(a[1..], b);
    }
  }

  lemma LengthOfOne(c: char)
    ensures var v := c as int;
      && Utf8Length([c]) == (if v <= 0x7f then 1 else if v <= 0x7ff then 2 else if v <= 0xffff then 3 else 4)
      && Width([c]) == (if v <= 0xffff then 1 else 2)
      && Utf8Length("") == Width("") == 0
  {
    assert [c][1..] == "";
  }

  predicate Unreserved(c: char) {
    || 'A' <= c <= 'Z' || 'a' <= c <= 'z' || '0' <= c <= '9'
    || c == '-' || c == '_' || c == '.' || c == '!' || c == '~' || c == '*' || c == '\'' || c == '(' || c == ')'
  }

  function Hex(d: nat): (c: char)
    requires d < 16
    ensures Unreserved(c)
  {
    if d < 10 then '0' + d as char else 'A' + (d - 10) as char
  }

  function Percent(b: nat): (r: string)
    requires b < 256
    ensures |r| == 3
  {
    ['%', Hex(b / 16), Hex(b % 16)]
  }

  function Percents(bs: seq<nat>): (r: string)
    requires forall i :: 0 <= i < |bs| ==> bs[i] < 256
    ensures |r| == 3 * |bs|
    ensures forall ch <- r :: ch == '%' || Unreserved(ch)
    decreases |bs|
  {
    if bs == [] then "" else Percent(bs[0]) + Percents(bs[1..])
  }

  function EncodeChar(c: char): (r: string)
    ensures |r| > 0
    ensures forall ch <- r :: ch == '%' || Unreserved(ch)
  {
    if Unreserved(c) then [c] else Percents(Utf8(c))
  }

  function EncodeComponent(s: string): (r: string)
    ensures forall ch <- r :: ch == '%' || Unreserved(ch)
    ensures r == "" <==> s == ""
    decreases |s|
  {
    if s == "" then "" else EncodeChar(s[0]) + EncodeComponent(s[1..])
  }

  // ----- no two strings encode alike -----

  /** The lead byte tells the length. */
  function LeadLength(b: nat): nat {
    if b < 0x80 then 1 else if b < 0xE0 then 2 else if b < 0xF0 then 3 else 4
  }

  lemma LeadTellsLength(c: char)
    ensures |Utf8(c)| == LeadLength(Utf8(c)[0])
  {
  }

  lemma Utf8Injective(a: char, b: char)
    requires Utf8(a) == Utf8(b)
    ensures a == b
  {
    var n := |Utf8(a)|;
    assert Utf8(a)[n - 1] == Utf8(b)[n - 1] && Utf8(a)[0] == Utf8(b)[0];
    if n > 2 {
      assert Utf8(a)[n - 2] == Utf8(b)[n - 2];
    }
    if n > 3 {
      assert Utf8(a)[1] == Utf8(b)[1];
    }
    LeadTellsLength(a);
    LeadTellsLength(b);
  }

  lemma PercentInjective(a: nat, b: nat)
    requires a < 256 && b < 256 && Percent(a) == Percent(b)
    ensures a == b
  {
    assert Percent(a)[1] == Percent(b)[1] && Percent(a)[2] == Percent(b)[2];
    HexInjective(a / 16, b / 16);
    HexInjective(a % 16, b % 16);
  }

  lemma HexInjective(a: nat, b: nat)
    requires a < 16 && b < 16 && Hex(a) == Hex(b)
    ensures a == b
  {
  }

  lemma {:induction false} PercentsInjective(a: seq<nat>, b: seq<nat>)
    requires |a| == |b|
    requires forall i :: 0 <= i < |a| ==> a[i] < 256
    requires forall i :: 0 <= i < |b| ==> b[i] < 256
    requires Percents(a) == Percents(b)
    ensures a == b
    decreases |a|
  {
    if a != [] {
      assert Percents(a)[..3] == Percent(a[0]) && Percents(b)[..3] == Percent(b[0]);
      assert Percents(a)[3..] == Percents(a[1..]) && Percents(b)[3..] == Percents(b[1..]);
      PercentInjective(a[0], b[0]);
      PercentsInjective(a[1..], b[1..]);
      assert a == [a[0]] + a[1..] && b == [b[0]] + b[1..];
    }
  }

  lemma LeadOfPercents(a: seq<nat>, b: seq<nat>, s: string, t: string)
    requires a != [] && b != []
    requires forall i :: 0 <= i < |a| ==> a[i] < 256
    requires forall i :: 0 <= i < |b| ==> b[i] < 256
    requires Percents(a) + s == Percents(b) + t
    ensures a[0] == b[0]
  {
    assert (Percents(a) + s)[..3] == Percent(a[0]);
    assert (Percents(b) + t)[..3] == Percent(b[0]);
    PercentInjective(a[0], b[0]);
  }

  /** The code is prefix-free. */
  lemma EncodeCharPrefixFree(a: char, b: char, s: string, t: string)
    requires EncodeChar(a) + s == EncodeChar(b) + t
    ensures a == b && s == t
  {
    assert (EncodeChar(a) + s)[0] == EncodeChar(a)[0] && (EncodeChar(b) + t)[0] == EncodeChar(b)[0];
    if Unreserved(a) || Unreserved(b) {
      PercentLeads(a);
      PercentLeads(b);
    } else {
      LeadOfPercents(Utf8(a), Utf8(b), s, t);
      LeadTellsLength(a);
      LeadTellsLength(b);
      hide Utf8, LeadLength, Percents;
      var n := |EncodeChar(a)|;
      assert (EncodeChar(a) + s)[..n] == EncodeChar(a) && (EncodeChar(b) + t)[..n] == EncodeChar(b);
      PercentsInjective(Utf8(a), Utf8(b));
      Utf8Injective(a, b);
    }
    assert (EncodeChar(a) + s)[|EncodeChar(a)|..] == s && (EncodeChar(a) + t)[|EncodeChar(a)|..] == t;
  }

  lemma PercentLeads(c: char)
    ensures EncodeChar(c)[0] == if Unreserved(c) then c else '%'
  {
  }

  lemma {:induction false} EncodeComponentInjective(s: string, t: string)
    requires EncodeComponent(s) == EncodeComponent(t)
    ensures s == t
    decreases |s|
  {
    if s != "" && t != "" {
      EncodeCharPrefixFree(s[0], t[0], EncodeComponent(s[1..]), EncodeComponent(t[1..]));
      EncodeComponentInjective(s[1..], t[1..]);
      assert s == [s[0]] + s[1..] && t == [t[0]] + t[1..];
    }
  }
}
