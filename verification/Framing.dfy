/** What the transport reads from the raw header text (app/src/libcurl-transport-vendored.ts): where a header
    block ends, its status, and whether the body is delimited by the close of the connection. */
module Framing {
  import opened Common
  import opened Strings

  const CRLF := "\r\n"

  predicate Contains(s: string, pat: string) {
    Find(s, pat, 0).Some?
  }

  predicate Space(c: char) {
    c in " \t\n\r\U{b}\U{c}\U{a0}\U{feff}\U{2028}\U{2029}"
  }

  /** `\s*0(\r|$)` from position i on. */
  predicate ZeroAt(s: string, i: nat)
    decreases |s| - i
  {
    i < |s| && ((s[i] == '0' && (i + 1 == |s| || s[i + 1] == '\r')) || (Space(s[i]) && ZeroAt(s, i + 1)))
  }

  /** Some occurrence of the pattern is followed by a zero length. */
  predicate ZeroAfter(s: string, pat: string, i: nat)
    decreases |s| - i
  {
    i <= |s| && ((At(s, pat, i) && ZeroAt(s, i + |pat|)) || ZeroAfter(s, pat, i + 1))
  }

  const LENGTH := "content-length:"
  const ENCODING := "transfer-encoding:"

  predicate CloseDelimited(raw: string) {
    var lower := CRLF + Lower(raw);
    !Contains(lower, CRLF + ENCODING) && (!Contains(lower, CRLF + LENGTH) || ZeroAfter(lower, CRLF + LENGTH, 0))
  }

  /** A line of the header text opens with the field name, in any case. */
  predicate LineAt(raw: string, name: string, i: nat) {
    At(Lower(raw), name, i) && (i == 0 || (i >= 2 && raw[i - 2..i] == CRLF))
  }

  lemma CrlfIsItsOwnLower(raw: string, i: nat)
    requires 2 <= i <= |raw|
    ensures Lower(raw)[i - 2..i] == CRLF <==> raw[i - 2..i] == CRLF
  {
    var a, b := Lower(raw)[i - 2..i], raw[i - 2..i];
    assert a[0] == LowerChar(b[0]) && a[1] == LowerChar(b[1]);
  }

  lemma LineInText(raw: string, name: string, i: nat)
    requires LineAt(raw, name, i)
    ensures At(CRLF + Lower(raw), CRLF + name, i)
  {
    var l := Lower(raw);
    var t := CRLF + l;
    if i > 0 {
      CrlfIsItsOwnLower(raw, i);
    }
    assert t[i..i + 2] == CRLF by {
      if i >= 2 {
        assert t[i..i + 2] == l[i - 2..i];
      }
    }
    assert t[i + 2..i + 2 + |name|] == l[i..i + |name|];
    assert t[i..i + 2 + |name|] == t[i..i + 2] + t[i + 2..i + 2 + |name|];
  }

  /** A fit of a joined pattern is a fit of each part. */
  lemma AtJoin(t: string, p: string, q: string, i: nat)
    requires At(t, p + q, i)
    ensures At(t, p, i) && At(t, q, i + |p|)
  {
    assert t[i..i + |p|] == t[i..i + |p + q|][..|p|] == (p + q)[..|p|] == p;
    assert t[i + |p|..i + |p| + |q|] == t[i..i + |p + q|][|p|..] == (p + q)[|p|..] == q;
  }

  lemma TextHasLine(raw: string, name: string, i: nat)
    requires At(CRLF + Lower(raw), CRLF + name, i)
    requires i != 1
    ensures LineAt(raw, name, i)
  {
    var l := Lower(raw);
    var t := CRLF + l;
    AtJoin(t, CRLF, name, i);
    hide Lower;
    assert t[i + 2..i + 2 + |name|] == l[i..i + |name|];
    if i >= 2 {
      assert t[i..i + 2] == l[i - 2..i];
      CrlfIsItsOwnLower(raw, i);
    }
  }

  lemma AtFirst(s: string, pat: string, i: nat)
    requires pat != "" && At(s, pat, i)
    ensures s[i] == pat[0]
  {
    assert s[i..i + |pat|][0] == s[i];
  }

  lemma NoOddStart(raw: string, name: string)
    ensures !At(CRLF + Lower(raw), CRLF + name, 1)
  {
    var t := CRLF + Lower(raw);
    assert t[1] == '\n' && (CRLF + name)[0] == '\r';
    hide Lower;
    if At(t, CRLF + name, 1) {
      AtFirst(t, CRLF + name, 1);
    }
  }

  /** The substring search finds exactly the lines that carry the field: it is never fooled by a value, and
      it misses no line. */
  lemma FieldIsALine(raw: string, name: string)
    ensures Contains(CRLF + Lower(raw), CRLF + name) <==> exists i: nat :: LineAt(raw, name, i)
  {
    var t := CRLF + Lower(raw);
    NoOddStart(raw, name);
    var f := Find(t, CRLF + name, 0);
    hide Lower;
    if f.Some? {
      TextHasLine(raw, name, f.value);
    }
    if i: nat :| LineAt(raw, name, i) {
      LineInText(raw, name, i);
    }
  }

  /** A length line whose value the pattern reads as zero; it may look for the value past the line's end. */
  predicate ZeroLine(raw: string, i: nat) {
    LineAt(raw, LENGTH, i) && ZeroAt(raw, i + |LENGTH|)
  }

  ghost predicate Coded(raw: string) {
    exists i: nat :: LineAt(raw, ENCODING, i)
  }

  ghost predicate Zeroed(raw: string) {
    exists i: nat :: ZeroLine(raw, i)
  }

  ghost predicate Sized(raw: string) {
    exists i: nat :: LineAt(raw, LENGTH, i) && !ZeroLine(raw, i)
  }

  /** Neither the line break in front nor the case matters to a zero. */
  lemma {:induction false} ZeroAtMoves(raw: string, i: nat)
    ensures ZeroAt(CRLF + Lower(raw), i + 2) <==> ZeroAt(raw, i)
    decreases |raw| - i
  {
    if i < |raw| {
      assert (CRLF + Lower(raw))[i + 2] == LowerChar(raw[i]);
      ZeroAtMoves(raw, i + 1);
      if i + 1 < |raw| {
        assert (CRLF + Lower(raw))[i + 3] == LowerChar(raw[i + 1]);
      }
    }
  }

  lemma {:induction false} ZeroAfterMeaning(s: string, pat: string, i: nat)
    ensures ZeroAfter(s, pat, i) <==> exists k: nat :: i <= k && At(s, pat, k) && ZeroAt(s, k + |pat|)
    decreases |s| - i
  {
    hide At, ZeroAt;
    if i <= |s| {
      ZeroAfterMeaning(s, pat, i + 1);
    } else {
      forall k: nat | i <= k ensures !At(s, pat, k) {
        NotPastTheEnd(s, pat, k);
      }
    }
  }

  lemma NotPastTheEnd(s: string, pat: string, k: nat)
    requires |s| < k
    ensures !At(s, pat, k)
  {
  }

  lemma ZeroAfterIsALine(raw: string)
    ensures ZeroAfter(CRLF + Lower(raw), CRLF + LENGTH, 0) <==> Zeroed(raw)
  {
    var t := CRLF + Lower(raw);
    ZeroAfterMeaning(t, CRLF + LENGTH, 0);
    NoOddStart(raw, LENGTH);
    hide Lower, ZeroAt, ZeroAfter;
    if k: nat :| At(t, CRLF + LENGTH, k) && ZeroAt(t, k + |CRLF + LENGTH|) {
      TextHasLine(raw, LENGTH, k);
      ZeroAtMoves(raw, k + |LENGTH|);
      assert ZeroLine(raw, k);
    }
    if i: nat :| ZeroLine(raw, i) {
      LineInText(raw, LENGTH, i);
      ZeroAtMoves(raw, i + |LENGTH|);
    }
  }

  /** The check, line by line: it asks for no coding on any line of the whole text, and for no length at all or
      for one zero length, whatever the other length lines say. */
  lemma CloseDelimitedMeaning(raw: string)
    ensures CloseDelimited(raw) <==> !Coded(raw) && (Zeroed(raw) || !Sized(raw))
  {
    FieldIsALine(raw, ENCODING);
    FieldIsALine(raw, LENGTH);
    ZeroAfterIsALine(raw);
    hide LineAt, Contains, ZeroAfter, Lower, ZeroAt;
  }

  // ----- header blocks -----

  const BLANK := "\r\n\r\n"

  /** `split("\r\n\r\n")`: the complete blocks, then the unfinished one. */
  function Blocks(s: string): (r: seq<string>)
    ensures |r| >= 1
    decreases |s|
  {
    var f := Find(s, BLANK, 0);
    if f.None? then [s] else [s[..f.value]] + Blocks(s[f.value + 4..])
  }

  /** The last complete block: the interim responses and followed redirects come before it. */
  function FinalBlock(raw: string): Option<string> {
    var b := Blocks(raw);
    if |b| < 2 then None else Some(b[|b| - 2])
  }

  lemma FinalBlockStep(raw: string)
    ensures var k := Find(raw, BLANK, 0);
      && (k.None? ==> FinalBlock(raw).None?)
      && (k.Some? ==>
           var rest := FinalBlock(raw[k.value + 4..]);
           FinalBlock(raw) == if rest.None? then Some(raw[..k.value]) else rest)
  {
  }

  /** The place of a block inside a text, by its blank lines. */
  predicate BlockAt(raw: string, f: string, o: nat) {
    && o + |f| + 4 <= |raw| && raw[o..o + |f|] == f && At(raw, BLANK, o + |f|)
    && (o == 0 || (o >= 4 && At(raw, BLANK, o - 4)))
  }

  lemma BlockAtMoves(raw: string, f: string, k: nat, p: nat)
    requires At(raw, BLANK, k) && BlockAt(raw[k + 4..], f, p)
    ensures BlockAt(raw, f, k + 4 + p)
  {
    var o := k + 4 + p;
    assert raw[o..o + |f|] == raw[k + 4..][p..p + |f|];
    AtDropped(raw, BLANK, k + 4, p + |f|);
    if p > 0 {
      AtDropped(raw, BLANK, k + 4, p - 4);
    }
    hide At;
  }

  /** The final block lies between the last two blank lines. */
  lemma {:induction false} FinalBlockIsThere(raw: string) returns (o: nat)
    requires FinalBlock(raw).Some?
    ensures BlockAt(raw, FinalBlock(raw).value, o)
    decreases |raw|
  {
    FinalBlockStep(raw);
    hide FinalBlock;
    var k := Find(raw, BLANK, 0).value;
    var rest := raw[k + 4..];
    if FinalBlock(rest).None? {
      o := 0;
    } else {
      hide At, BlockAt;
      var p := FinalBlockIsThere(rest);
      BlockAtMoves(raw, FinalBlock(rest).value, k, p);
      o := k + 4 + p;
    }
  }

  lemma CutOfCut(s: string, o: nat, n: nat, a: nat, b: nat)
    requires o + n <= |s| && a <= b <= n
    ensures s[o..o + n][a..b] == s[o + a..o + b]
  {
    var x, y := s[o..o + n][a..b], s[o + a..o + b];
    forall k | 0 <= k < |x| ensures x[k] == y[k] {
      assert s[o..o + n][a + k] == s[o + (a + k)];
    }
  }

  /** A line of a block is a line of the text. */
  lemma BlockLineIsALine(raw: string, f: string, o: nat, name: string, i: nat)
    requires BlockAt(raw, f, o) && LineAt(f, name, i)
    ensures LineAt(raw, name, o + i)
  {
    assert Lower(raw)[o + i..o + i + |name|] == Lower(f)[i..i + |name|];
    if i >= 2 {
      CutOfCut(raw, o, |f|, i - 2, i);
    } else if o > 0 {
      CutOfCut(raw, o - 4, 4, 2, 4);
    }
  }

  predicate Blank(c: char) {
    c in " \t,"
  }

  /** What stands behind the last comma or blank of a string. */
  function LastWord(s: string): (r: string)
    ensures forall c <- r :: c in s
    decreases |s|
  {
    if s == "" || Blank(s[|s| - 1]) then "" else LastWord(s[..|s| - 1]) + [s[|s| - 1]]
  }

  /** The last element of a list value; empty elements do not count. */
  function LastElement(s: string): (r: string)
    ensures forall c <- r :: c in s
    decreases |s|
  {
    if s != "" && Blank(s[|s| - 1]) then LastElement(s[..|s| - 1]) else LastWord(s)
  }

  /** The last coding of the coding line at position i, or nothing. */
  function LastCoding(raw: string, i: nat): (r: string)
    requires LineAt(raw, ENCODING, i)
    ensures forall c <- r :: c in Lower(raw)
  {
    var value := Lower(raw)[i + |ENCODING|..];
    var end := Find(value, CRLF, 0);
    LastElement(if end.Some? then value[..end.value] else value)
  }

  /** The last coding that the lines name is chunked. */
  ghost predicate Chunked(raw: string) {
    exists i: nat :: LineAt(raw, ENCODING, i) && LastCoding(raw, i) == "chunked"
      && forall k: nat :: i < k && LineAt(raw, ENCODING, k) ==> LastCoding(raw, k) == ""
  }

  /** RFC 9112 section 6.3 for the final block: a coding other than chunked at the end, or no coding and no length
      but zero, so the close of the connection ends the body and cuts nothing off. */
  ghost predicate EndsWithClose(raw: string) {
    FinalBlock(raw).Some? && var f := FinalBlock(raw).value;
      if Coded(f) then !Chunked(f) else !Sized(f)
  }

  /** What the final block declares is what the whole text declares, as far as the check can tell: and a coding
      it declares is chunked at the end, since the check takes every coding for one. */
  ghost predicate FinalBlockDecides(raw: string) {
    match FinalBlock(raw)
    case None => Coded(raw) || (Sized(raw) && !Zeroed(raw))
    case Some(f) =>
      if Coded(f) then Chunked(f)
      else if Coded(raw) then Sized(f)
      else if Zeroed(raw) then !Sized(f)
      else Sized(raw) ==> Sized(f)
  }

  lemma FinalBlockLines(raw: string)
    requires FinalBlock(raw).Some?
    ensures Coded(FinalBlock(raw).value) ==> Coded(raw)
    ensures Sized(FinalBlock(raw).value) ==> Sized(raw) || Zeroed(raw)
  {
    var f := FinalBlock(raw).value;
    var o := FinalBlockIsThere(raw);
    hide FinalBlock, ZeroAt, LineAt;
    if Coded(f) {
      var i: nat :| LineAt(f, ENCODING, i);
      BlockLineIsALine(raw, f, o, ENCODING, i);
    }
    if Sized(f) {
      var i: nat :| LineAt(f, LENGTH, i) && !ZeroLine(f, i);
      BlockLineIsALine(raw, f, o, LENGTH, i);
      assert ZeroLine(raw, o + i) || !ZeroLine(raw, o + i);
    }
  }

  /** The check agrees with the final block's framing exactly when no other line outweighs it. */
  lemma CheckIsExact(raw: string)
    ensures (CloseDelimited(raw) <==> EndsWithClose(raw)) <==> FinalBlockDecides(raw)
  {
    CloseDelimitedMeaning(raw);
    if FinalBlock(raw).Some? {
      FinalBlockLines(raw);
    }
    hide CloseDelimited, Coded, Zeroed, Sized, FinalBlock, Chunked;
  }

  /** The dangerous half: the check passes although the close does not end the final block's body exactly when no
      line declares a coding, the final block a length, and some line a length of zero. */
  lemma PassesWronglyExactly(raw: string)
    requires FinalBlock(raw).Some?
    ensures CloseDelimited(raw) && !EndsWithClose(raw)
       <==> !Coded(raw) && Sized(FinalBlock(raw).value) && Zeroed(raw)
  {
    CloseDelimitedMeaning(raw);
    FinalBlockLines(raw);
    hide CloseDelimited, Coded, Zeroed, Sized, FinalBlock, Chunked;
  }

  /** The safe half: the check fails although the close ends the final block's body exactly when that block names
      a last coding other than chunked, or names none and no length but zero while another line names a coding,
      or a length without any zero. */
  lemma FailsWronglyExactly(raw: string)
    requires FinalBlock(raw).Some?
    ensures !CloseDelimited(raw) && EndsWithClose(raw) <==>
      var f := FinalBlock(raw).value;
      if Coded(f) then !Chunked(f) else !Sized(f) && (Coded(raw) || (Sized(raw) && !Zeroed(raw)))
  {
    CloseDelimitedMeaning(raw);
    FinalBlockLines(raw);
    hide CloseDelimited, Coded, Zeroed, Sized, FinalBlock, Chunked;
  }

  // ----- an interim block that outweighs the final one -----

  /** A status line and one field. */
  function Block(status: string, name: string, value: string): string {
    status + CRLF + (name + value)
  }

  const HINTS := Block("HTTP/1.1 103", LENGTH, "0")
  const ANSWER := Block("HTTP/1.1 200", LENGTH, "9")
  const OUTWEIGHED := HINTS + BLANK + (ANSWER + BLANK)

  /** The text is one complete block. */
  predicate Complete(block: string) {
    Find(block + BLANK, BLANK, 0) == Some(|block|)
  }

  lemma BlockInFront(a: string, u: string)
    requires Complete(a)
    ensures var rest := FinalBlock(u); FinalBlock(a + BLANK + u) == if rest.None? then Some(a) else rest
  {
    var t := a + BLANK + u;
    FindGrows(a + BLANK, u, BLANK, 0);
    FinalBlockStep(t);
    hide *;
    assert t[|a| + 4..] == u && t[..|a|] == a;
  }

  lemma LastOfTwo(a: string, b: string)
    requires Complete(a) && Complete(b)
    ensures FinalBlock(a + BLANK + (b + BLANK)) == Some(b)
  {
    assert FinalBlock("").None? by {
      FinalBlockStep("");
    }
    hide *;
    BlockInFront(b, "");
    assert b + BLANK + "" == b + BLANK;
    BlockInFront(a, b + BLANK);
  }

  /** No line opens with the letter of the coding field. */
  predicate OpensWithT(raw: string, i: nat) {
    i < |raw| && LowerChar(raw[i]) == 't' && (i == 0 || raw[i - 1] == '\n')
  }

  predicate NoT(raw: string) {
    forall i :: 0 <= i < |raw| ==> !OpensWithT(raw, i)
  }

  lemma NoCoding(raw: string)
    requires NoT(raw)
    ensures !Coded(raw)
  {
    if Coded(raw) {
      var i: nat :| LineAt(raw, ENCODING, i);
      AtFirst(Lower(raw), ENCODING, i);
      assert i >= 2 ==> raw[i - 2..i][1] == raw[i - 1];
      assert OpensWithT(raw, i);
    }
  }

  lemma NoTJoins(a: string, b: string)
    requires NoT(a) && NoT(b)
    ensures NoT(a + b)
  {
    forall i | 0 <= i < |a + b| ensures !OpensWithT(a + b, i) {
      assert if i < |a| then !OpensWithT(a, i) else !OpensWithT(b, i - |a|);
    }
  }

  predicate TwoBreaks(t: string, k: nat) {
    k + 2 < |t| && t[k] == '\r' && t[k + 2] == '\r'
  }

  lemma OneBlock(t: string, n: nat)
    requires At(t, BLANK, n) && forall k :: 0 <= k < n ==> !TwoBreaks(t, k)
    ensures Find(t, BLANK, 0) == Some(n)
  {
    forall k | 0 <= k < n ensures !At(t, BLANK, k) {
      if At(t, BLANK, k) {
        assert t[k..k + 4][0] == t[k] && t[k..k + 4][2] == t[k + 2];
        assert TwoBreaks(t, k);
      }
    }
    FindIs(t, BLANK, 0, n);
  }

  predicate OneLine(s: string) {
    '\r' !in s && '\n' !in s
  }

  lemma BlockIsComplete(status: string, name: string, value: string)
    requires OneLine(status) && OneLine(name) && OneLine(value) && name != ""
    ensures Complete(Block(status, name, value))
  {
    var b := Block(status, name, value);
    var t := b + BLANK;
    assert t[|b|..|b| + 4] == BLANK;
    forall k | 0 <= k < |b| ensures !TwoBreaks(t, k) {
      if t[k] == '\r' {
        assert k == |status| && t[k + 2] == name[0];
      }
    }
    hide Block, Find;
    OneBlock(t, |b|);
  }

  lemma BlockWithoutT(status: string, name: string, value: string)
    requires OneLine(status) && OneLine(name) && OneLine(value) && status != "" && name != ""
    requires LowerChar(status[0]) != 't' && LowerChar(name[0]) != 't'
    ensures NoT(Block(status, name, value) + BLANK)
  {
    var b := Block(status, name, value);
    var t := b + BLANK;
    forall i | 0 <= i < |t| ensures !OpensWithT(t, i) {
      if 0 < i < |b| && t[i - 1] == '\n' {
        assert i == |status| + 2 && t[i] == name[0];
      } else if i >= |b| {
        assert t[i] == BLANK[i - |b|];
      }
    }
  }

  lemma BlockHasField(status: string, name: string, value: string, rest: string)
    requires Lower(name) == name
    ensures LineAt(Block(status, name, value) + rest, name, |status| + 2)
  {
    var raw := Block(status, name, value) + rest;
    var i := |status| + 2;
    assert raw[i - 2..i] == CRLF && raw[i..i + |name|] == name;
    forall k | 0 <= k < |name| ensures Lower(raw)[i..i + |name|][k] == name[k] {
      assert raw[i..i + |name|][k] == raw[i + k];
      assert Lower(name)[k] == LowerChar(name[k]);
    }
  }

  lemma OutweighedText()
    ensures FinalBlock(OUTWEIGHED) == Some(ANSWER) && !Coded(OUTWEIGHED)
  {
    BlockIsComplete("HTTP/1.1 103", LENGTH, "0");
    BlockIsComplete("HTTP/1.1 200", LENGTH, "9");
    BlockWithoutT("HTTP/1.1 103", LENGTH, "0");
    BlockWithoutT("HTTP/1.1 200", LENGTH, "9");
    hide Complete, NoT, Coded, FinalBlock, Block;
    LastOfTwo(HINTS, ANSWER);
    NoTJoins(HINTS + BLANK, ANSWER + BLANK);
    NoCoding(OUTWEIGHED);
  }

  lemma FieldsAreLower()
    ensures Lower(LENGTH) == LENGTH && Lower(ENCODING) == ENCODING
  {
  }

  lemma ZeroLength(status: string, rest: string)
    requires rest != "" && rest[0] == '\r'
    ensures Zeroed(Block(status, LENGTH, "0") + rest)
  {
    var raw := Block(status, LENGTH, "0") + rest;
    var i := |status| + 2;
    FieldsAreLower();
    BlockHasField(status, LENGTH, "0", rest);
    assert raw[i + |LENGTH|] == '0' && raw[i + |LENGTH| + 1] == rest[0];
    hide LineAt;
    assert ZeroLine(raw, i);
  }

  lemma NineLength(status: string)
    ensures Sized(Block(status, LENGTH, "9"))
  {
    var raw := Block(status, LENGTH, "9");
    var i := |status| + 2;
    FieldsAreLower();
    BlockHasField(status, LENGTH, "9", "");
    assert raw + "" == raw && raw[i + |LENGTH|] == '9';
    hide LineAt;
    assert !ZeroLine(raw, i);
  }

  lemma HintsLine()
    ensures Zeroed(OUTWEIGHED)
  {
    var rest := BLANK + (ANSWER + BLANK);
    assert HINTS + BLANK + (ANSWER + BLANK) == HINTS + rest by {
      hide Block;
    }
    hide Zeroed, Block;
    ZeroLength("HTTP/1.1 103", rest);
  }

  lemma AnswerLine()
    ensures Sized(ANSWER)
  {
    hide Sized, Block;
    NineLength("HTTP/1.1 200");
  }

  /** Nine octets are declared by the final block, none by an interim one, and the check takes the close of the
      connection for the end of the body. */
  lemma ZeroOutweighs()
    ensures CloseDelimited(OUTWEIGHED) && !EndsWithClose(OUTWEIGHED)
  {
    hide *;
    OutweighedText();
    HintsLine();
    AnswerLine();
    PassesWronglyExactly(OUTWEIGHED);
  }

  // ----- a coding that the close ends -----

  const ZIPPED := Block("HTTP/1.1 200", ENCODING, "gzip")

  lemma NoK(raw: string)
    requires 'k' !in Lower(raw)
    ensures !Chunked(raw)
  {
  }

  lemma NoKZipped()
    ensures 'k' !in Lower(ZIPPED)
  {
    var status := "HTTP/1.1 200";
    LowerJoin(status + CRLF, ENCODING + "gzip");
    LowerJoin(status, CRLF);
    LowerJoin(ENCODING, "gzip");
    hide Lower;
    FieldsAreLower();
    NoKInParts();
  }

  lemma NoKInParts()
    ensures 'k' !in Lower("HTTP/1.1 200") && 'k' !in Lower(CRLF) && 'k' !in ENCODING && 'k' !in Lower("gzip")
  {
  }

  lemma ZippedLine()
    ensures Coded(ZIPPED) && !Chunked(ZIPPED)
  {
    FieldsAreLower();
    BlockHasField("HTTP/1.1 200", ENCODING, "gzip", "");
    assert ZIPPED + "" == ZIPPED;
    hide LineAt, Lower, Chunked;
    NoKZipped();
    NoK(ZIPPED);
  }

  /** A compressed body that the close ends is complete, and the check takes the close for a failure. */
  lemma ZippedFails()
    ensures EndsWithClose(ZIPPED + BLANK) && !CloseDelimited(ZIPPED + BLANK)
  {
    BlockIsComplete("HTTP/1.1 200", ENCODING, "gzip");
    ZippedLine();
    assert FinalBlock("").None? by {
      FinalBlockStep("");
    }
    BlockInFront(ZIPPED, "");
    assert ZIPPED + BLANK + "" == ZIPPED + BLANK;
    FailsWronglyExactly(ZIPPED + BLANK);
    hide *;
  }

  predicate Digit(c: char) {
    '0' <= c <= '9'
  }

  function SkipSpaces(s: string): (r: string)
    ensures |r| <= |s|
    decreases |s|
  {
    if s != "" && Space(s[0]) then SkipSpaces(s[1..]) else s
  }

  /** The status of a block that opens with a status line. */
  function StatusOf(block: string): Option<nat> {
    if "HTTP/" <= block && |block| > 5 && Digit(block[5]) then
      var rest := block[6..];
      var after := if |rest| >= 2 && rest[0] == '.' && Digit(rest[1]) then rest[2..] else rest;
      var code := SkipSpaces(after);
      if |code| < |after| && |code| >= 3 && Digit(code[0]) && Digit(code[1]) && Digit(code[2])
      then Some(((code[0] - '0') as int * 100 + (code[1] - '0') as int * 10 + (code[2] - '0') as int) as nat)
      else None
    else None
  }

  /** The text ends a header block that can have no body: 204, 304, or a final status answering HEAD. */
  predicate Bodiless(raw: string, head: bool) {
    FinalBlock(raw).Some? && var st := StatusOf(FinalBlock(raw).value);
      st.Some? && (st.value == 204 || st.value == 304 || (head && st.value >= 200))
  }

  /** The status of a block whose line has the usual single blank. */
  lemma StatusIs(block: string)
    requires |block| >= 12 && "HTTP/" <= block && block[5] == block[7] == '1' && block[6] == '.' && block[8] == ' '
    requires Digit(block[9]) && Digit(block[10]) && Digit(block[11])
    ensures StatusOf(block) ==
      Some(((block[9] - '0') as int * 100 + (block[10] - '0') as int * 10 + (block[11] - '0') as int) as nat)
  {
    var after := block[8..];
    assert block[6..][2..] == after;
    assert after[1..] == block[9..];
    assert SkipSpaces(after) == SkipSpaces(block[9..]) == block[9..];
  }

  lemma AnswerStatus()
    ensures StatusOf(ANSWER) == Some(200)
  {
    hide StatusOf;
    assert ANSWER[..12] == "HTTP/1.1 200";
    StatusIs(ANSWER);
  }

  lemma OutweighedHasABody()
    ensures !Bodiless(OUTWEIGHED, false)
  {
    AnswerStatus();
    OutweighedText();
    hide FinalBlock, StatusOf;
  }

  // ----- the status lines -----

  /** The block opens with a status line: a version of one digit or two with a point, blanks, and three digits. */
  predicate StatusLine(block: string, version: string, gap: string, code: string, rest: string) {
    && block == "HTTP/" + (version + (gap + (code + rest)))
    && ((|version| == 1 && Digit(version[0])) || (|version| == 3 && Digit(version[0]) && version[1] == '.' && Digit(version[2])))
    && gap != "" && (forall c <- gap :: Space(c))
    && |code| == 3 && Digit(code[0]) && Digit(code[1]) && Digit(code[2])
  }

  function CodeValue(code: string): nat
    requires |code| == 3 && Digit(code[0]) && Digit(code[1]) && Digit(code[2])
  {
    (code[0] - '0') as int * 100 + (code[1] - '0') as int * 10 + (code[2] - '0') as int
  }

  lemma {:induction false} GapSkipped(gap: string, rest: string)
    requires (forall c <- gap :: Space(c)) && rest != "" && !Space(rest[0])
    ensures SkipSpaces(gap + rest) == rest
    decreases |gap|
  {
    if gap == "" {
      assert gap + rest == rest;
    } else {
      assert (gap + rest)[0] == gap[0] && gap[0] in gap && (gap + rest)[1..] == gap[1..] + rest;
      assert forall c <- gap[1..] :: c in gap;
      GapSkipped(gap[1..], rest);
    }
  }

  lemma {:induction false} GapTaken(s: string)
    ensures SkipSpaces(s) == s[|s| - |SkipSpaces(s)|..] && forall c <- s[..|s| - |SkipSpaces(s)|] :: Space(c)
    decreases |s|
  {
    if s != "" && Space(s[0]) {
      GapTaken(s[1..]);
      var k := |s| - |SkipSpaces(s)|;
      assert s[..k] == [s[0]] + s[1..][..k - 1];
    }
  }

  lemma StatusOfLine(block: string, version: string, gap: string, code: string, rest: string)
    requires StatusLine(block, version, gap, code, rest)
    ensures StatusOf(block) == Some(CodeValue(code))
  {
    var tail := gap + (code + rest);
    assert "HTTP/" <= block && block[5] == version[0] && block[6..] == version[1..] + tail;
    assert gap[0] in gap && tail[0] == gap[0] && (code + rest)[0] == code[0];
    GapSkipped(gap, code + rest);
    if |version| == 1 {
      assert version[1..] + tail == tail;
    } else {
      assert block[6..][0] == '.' && block[6..][1] == version[2] && block[6..][2..] == tail;
    }
    assert (code + rest)[1] == code[1] && (code + rest)[2] == code[2];
    hide SkipSpaces;
  }

  lemma LineOfStatus(block: string)
    requires StatusOf(block).Some?
    ensures exists version, gap, code, rest :: StatusLine(block, version, gap, code, rest)
  {
    var first := block[6..];
    var n := if |first| >= 2 && first[0] == '.' && Digit(first[1]) then 8 else 6;
    var after := block[n..];
    assert n == 8 ==> first[2..] == after;
    GapTaken(after);
    var k := |after| - |SkipSpaces(after)|;
    hide SkipSpaces, StatusOf;
    assert block[n - 1] == if n == 8 then first[1] else block[5];
    LineParts(block, n, k);
  }

  lemma LineParts(block: string, n: nat, k: nat)
    requires "HTTP/" <= block && (n == 6 || n == 8) && 0 < k && n + k + 3 <= |block|
    requires Digit(block[5]) && (n == 8 ==> block[6] == '.' && Digit(block[7]))
    requires forall c <- block[n..][..k] :: Space(c)
    requires Digit(block[n..][k..][0]) && Digit(block[n..][k..][1]) && Digit(block[n..][k..][2])
    ensures exists version, gap, code, rest :: StatusLine(block, version, gap, code, rest)
  {
    var version, gap, tail := block[5..n], block[n..][..k], block[n..][k..];
    var code, rest := tail[..3], tail[3..];
    assert tail == code + rest && block[n..] == gap + tail && block[5..] == version + block[n..];
    assert block == "HTTP/" + block[5..];
    assert StatusLine(block, version, gap, code, rest);
  }

  /** The codes that have no body: 204 and 304 to any request, and to HEAD every final one, from 200 on. */
  predicate NoBodyCode(code: string, head: bool) {
    code == "204" || code == "304" || (head && |code| > 0 && '2' <= code[0])
  }

  /** Which answers surface as soon as their header block is complete, by the status line of the last complete block. */
  lemma BodilessExactly(raw: string, head: bool)
    requires FinalBlock(raw).Some?
    ensures Bodiless(raw, head) <==>
      exists version, gap, code, rest :: StatusLine(FinalBlock(raw).value, version, gap, code, rest) && NoBodyCode(code, head)
  {
    var block := FinalBlock(raw).value;
    hide FinalBlock;
    if StatusOf(block).Some? {
      LineOfStatus(block);
      var version, gap, code, rest :| StatusLine(block, version, gap, code, rest);
      StatusOfLine(block, version, gap, code, rest);
      CodesByValue(code);
    }
    if version, gap, code, rest :| StatusLine(block, version, gap, code, rest) && NoBodyCode(code, head) {
      StatusOfLine(block, version, gap, code, rest);
      CodesByValue(code);
    }
    hide StatusOf, StatusLine;
  }

  /** Without a complete block nothing surfaces on headers alone. */
  lemma NoBlockNoAnswer(raw: string, head: bool)
    requires FinalBlock(raw).None?
    ensures !Bodiless(raw, head)
  {
  }

  lemma CodesByValue(code: string)
    requires |code| == 3 && Digit(code[0]) && Digit(code[1]) && Digit(code[2])
    ensures CodeValue(code) == 204 <==> code == "204"
    ensures CodeValue(code) == 304 <==> code == "304"
    ensures CodeValue(code) >= 200 <==> '2' <= code[0]
  {
    assert code == [code[0], code[1], code[2]];
  }
}
