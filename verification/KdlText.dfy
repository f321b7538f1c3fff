/** Texts in the grammar of the engine's data files (app/src/kdl.ts) that are written from what they mean: comments
    and white space in every gap, every spelling of a value, nested blocks. They read back as what they mean. */
module KdlText {
  import opened Common
  import opened Kdl

  // ----- white space and comments -----

  /** The inside of a block comment: words, and comments within. */
  datatype Piece = Words(text: string) | Nested(inner: seq<Piece>)

  /** What may stand between tokens. */
  datatype Trivium = Spacing(ch: char) | Break | Remark(text: string) | Block(inner: seq<Piece>)

  /** Words that open and close nothing, in front of either mark. */
  predicate Quiet(t: string) {
    && (forall i :: 0 <= i < |t| - 1 ==> !(t[i] == '/' && t[i + 1] == '*') && !(t[i] == '*' && t[i + 1] == '/'))
    && (t != "" ==> t[|t| - 1] != '/' && t[|t| - 1] != '*')
  }

  predicate QuietPieces(ps: seq<Piece>)
    decreases ps
  {
    ps == [] ||
      (QuietPieces(ps[1..]) && if ps[0].Words? then Quiet(ps[0].text) else QuietPieces(ps[0].inner))
  }

  predicate Inline(t: Trivium) {
    match t
    case Spacing(ch) => ch in " \t\r"
    case Block(inner) => QuietPieces(inner)
    case _ => false
  }

  predicate Proper(t: Trivium) {
    Inline(t) || t.Break? || (t.Remark? && '\n' !in t.text)
  }

  /** The pieces, and the text after them. */
  function Inside(ps: seq<Piece>, rest: string): string
    decreases ps
  {
    if ps == [] then rest
    else
      match ps[0]
      case Words(t) => t + Inside(ps[1..], rest)
      case Nested(inner) => "/*" + Inside(inner, "*/" + Inside(ps[1..], rest))
  }

  function TriviumText(t: Trivium, rest: string): string {
    match t
    case Spacing(ch) => [ch] + rest
    case Break => "\n" + rest
    case Remark(text) => "//" + (text + ("\n" + rest))
    case Block(inner) => "/*" + Inside(inner, "*/" + rest)
  }

  function Spaces(ts: seq<Trivium>, rest: string): string
    decreases |ts|
  {
    if ts == [] then rest else TriviumText(ts[0], Spaces(ts[1..], rest))
  }

  lemma {:induction false} WordsSkipped(t: string, rest: string, depth: nat)
    requires Quiet(t) && depth > 0
    ensures SkipBlock(t + rest, depth) == SkipBlock(rest, depth)
    decreases |t|
  {
    var s := t + rest;
    if t == "" {
      assert s == rest;
    } else {
      assert s[1..] == t[1..] + rest;
      assert forall i :: 0 <= i < |t[1..]| ==> t[1..][i] == t[i + 1];
      NoMark(s);
      WordsSkipped(t[1..], rest, depth);
    }
  }

  lemma NoMark(s: string)
    requires s != "" && (|s| > 1 ==> !(s[0] == '/' && s[1] == '*') && !(s[0] == '*' && s[1] == '/'))
    ensures !Starts(s, "/*") && !Starts(s, "*/")
  {
    assert "/*"[0] == '/' && "/*"[1] == '*' && "*/"[0] == '*' && "*/"[1] == '/';
  }

  lemma OpenRead(s: string, depth: nat)
    requires depth > 0
    ensures SkipBlock("/*" + s, depth) == SkipBlock(s, depth + 1)
    ensures SkipBlock("*/" + s, depth) == SkipBlock(s, depth - 1)
  {
    var o, c := "/*" + s, "*/" + s;
    assert o[..2] == "/*" && o[2..] == s && c[..2] == "*/" && c[2..] == s;
    assert o[0] == '/' && c[0] == '*' && "/*"[0] == '/' && "*/"[0] == '*';
  }

  lemma {:induction false} InsideSkipped(ps: seq<Piece>, rest: string, depth: nat)
    requires QuietPieces(ps) && depth > 0
    ensures SkipBlock(Inside(ps, rest), depth) == SkipBlock(rest, depth)
    decreases ps
  {
    hide SkipBlock;
    if ps != [] {
      var more := Inside(ps[1..], rest);
      InsideSkipped(ps[1..], rest, depth);
      match ps[0]
      case Words(t) =>
        WordsSkipped(t, more, depth);
      case Nested(inner) =>
        OpenRead(Inside(inner, "*/" + more), depth);
        InsideSkipped(inner, "*/" + more, depth + 1);
        OpenRead(more, depth + 1);
    }
  }

  /** Where a block comment closes, the gap goes on with what is behind it. */
  lemma BlockIsSkipped(inside: string, rest: string)
    requires SkipBlock(inside, 1) == Some(rest)
    ensures SkipGap("/*" + inside) == SkipGap(rest) && SkipSpace("/*" + inside) == SkipSpace(rest)
  {
    var s := "/*" + inside;
    assert s[0] == '/' && s[..2] == "/*" && s[2..] == inside;
    assert SkipInline(s) == s;
    hide SkipBlock, SkipInline;
  }

  lemma InlineSkipped(t: Trivium, rest: string)
    requires Inline(t)
    ensures SkipGap(TriviumText(t, rest)) == SkipGap(rest) && SkipSpace(TriviumText(t, rest)) == SkipSpace(rest)
  {
    match t
    case Spacing(ch) =>
      assert ([ch] + rest)[1..] == rest;
    case Block(inner) =>
      InsideSkipped(inner, "*/" + rest, 1);
      OpenRead(rest, 1);
      BlockIsSkipped(Inside(inner, "*/" + rest), rest);
  }

  lemma {:induction false} LineSkipped(t: string, rest: string)
    requires '\n' !in t
    ensures SkipLine(t + ("\n" + rest)) == "\n" + rest
    decreases |t|
  {
    var s := t + ("\n" + rest);
    if t == "" {
      assert s == "\n" + rest;
    } else {
      assert s[1..] == t[1..] + ("\n" + rest) && s[0] == t[0] != '\n';
      LineSkipped(t[1..], rest);
    }
  }

  lemma BreakSkipped(rest: string)
    ensures SkipGap("\n" + rest) == Some("\n" + rest) && SkipSpace("\n" + rest) == SkipSpace(rest)
  {
    var s := "\n" + rest;
    assert s[..1] == "\n" && s[1..] == rest && s[0] == '\n';
    assert SkipInline(s) == s;
    hide SkipInline;
    assert SkipGap(s) == Some(s);
  }

  /** A line comment ends a gap, and is skipped with its line. */
  lemma RemarkSkipped(t: string, rest: string)
    requires '\n' !in t
    ensures var s := "//" + (t + ("\n" + rest)); SkipGap(s) == Some(s) && SkipSpace(s) == SkipSpace(rest)
  {
    var s := "//" + (t + ("\n" + rest));
    assert s[..2] == "//" && s[2..] == t + ("\n" + rest) && s[0] == '/' && s[1] == '/';
    assert SkipInline(s) == s && !Starts(s, "/*") && !Starts(s, "\n");
    LineSkipped(t, rest);
    BreakSkipped(rest);
    hide SkipInline, SkipLine;
    assert SkipGap(s) == Some(s);
  }

  lemma {:induction false} SpacesSkipped(ts: seq<Trivium>, rest: string)
    requires forall t <- ts :: Proper(t)
    ensures SkipSpace(Spaces(ts, rest)) == SkipSpace(rest)
    ensures (forall t <- ts :: Inline(t)) ==> SkipGap(Spaces(ts, rest)) == SkipGap(rest)
    decreases |ts|
  {
    hide SkipSpace, SkipGap;
    if ts != [] {
      var more := Spaces(ts[1..], rest);
      assert ts[0] in ts;
      SpacesSkipped(ts[1..], rest);
      match ts[0]
      case Break => BreakSkipped(more);
      case Remark(text) => RemarkSkipped(text, more);
      case _ => InlineSkipped(ts[0], more);
    }
  }

  // ----- a comment in a document -----

  /** A list of nodes is read from where its leading space ends, and the rest of a node from where its gap ends. */
  lemma SpaceDecides(s: string, t: string)
    requires SkipSpace(s) == SkipSpace(t)
    ensures ParseChildren(s) == ParseChildren(t) && ParseKdl(s) == ParseKdl(t)
  {
    hide SkipSpace, ParseNode;
  }

  lemma GapDecides(s: string, t: string, n: Node)
    requires SkipGap(s) == SkipGap(t)
    ensures NodeRest(s, n) == NodeRest(t, n)
  {
    hide SkipGap, ParseEntry, ParseChildren;
  }

  /** A line comment in front of a document, or of any list of nodes, is nothing. */
  lemma RemarkIsNothing(t: string, rest: string)
    requires '\n' !in t
    ensures ParseChildren("//" + (t + ("\n" + rest))) == ParseChildren(rest)
    ensures ParseKdl("//" + (t + ("\n" + rest))) == ParseKdl(rest)
  {
    RemarkSkipped(t, rest);
    hide *;
    SpaceDecides("//" + (t + ("\n" + rest)), rest);
  }

  /** Behind a node's entries it ends the node as a line break does, and the rest is read alike. */
  lemma RemarkEndsTheNode(t: string, rest: string, n: Node)
    requires '\n' !in t
    ensures var s := "//" + (t + ("\n" + rest));
      && NodeRest(s, n) == Ok(n, s) && NodeRest("\n" + rest, n) == Ok(n, "\n" + rest)
      && ParseChildren(s) == ParseChildren("\n" + rest) == ParseChildren(rest)
  {
    var s := "//" + (t + ("\n" + rest));
    RemarkSkipped(t, rest);
    BreakSkipped(rest);
    assert s[..2] == "//" && s[0] == '/';
    hide SkipSpace, SkipGap, ParseNode, ParseEntry;
  }

  /** A closed block comment is nothing in front of a document, nor in a gap inside a node. */
  lemma BlockIsNothing(inner: seq<Piece>, rest: string, n: Node)
    requires QuietPieces(inner)
    ensures var s := "/*" + Inside(inner, "*/" + rest);
      ParseKdl(s) == ParseKdl(rest) && ParseChildren(s) == ParseChildren(rest) && NodeRest(s, n) == NodeRest(rest, n)
  {
    var s := "/*" + Inside(inner, "*/" + rest);
    InlineSkipped(Block(inner), rest);
    assert TriviumText(Block(inner), rest) == s;
    hide *;
    SpaceDecides(s, rest);
    GapDecides(s, rest, n);
  }

  // ----- spellings of values -----

  /** A quoted text, a bare word, a number by its parts, or a keyword. */
  datatype Spelling =
    | Quotes(letters: seq<Letter>)
    | Bare(word: string)
    | Numeral(minus: bool, whole: string, fraction: string, exponent: string)
    | Keyword(value: Value)

  predicate DigitRun(d: string) {
    forall c <- d :: '0' <= c <= '9'
  }

  /** A name or a bare word: it does not look like a number. */
  predicate Word(w: string) {
    IdentStart(w) && !NumberStart(w) && forall c <- w :: IdentChar([c])
  }

  predicate ExponentText(x: string) {
    x == "" || (|x| >= 2 && x[0] in "eE"
      && (DigitRun(x[1..]) || (|x| >= 3 && x[1] in "+-" && DigitRun(x[2..]))))
  }

  predicate Sound(v: Spelling) {
    match v
    case Quotes(letters) => LettersOk(letters)
    case Bare(w) => Word(w)
    case Numeral(_, whole, fraction, exponent) =>
      whole != "" && DigitRun(whole) && DigitRun(fraction) && ExponentText(exponent)
    case Keyword(value) => value.Bool? || value.Null?
  }

  /** Behind a backslash: the quote, the backslash and the slash stand for themselves, and n, t, r, b and f for
      newline, tab, return, backspace and form feed. */
  const ESCAPES: map<char, char> :=
    map['"' := '"', '\\' := '\\', '/' := '/', 'n' := '\n', 't' := '\t', 'r' := '\r', 'b' := '\U{8}', 'f' := '\U{c}']

  /** A character written as itself, or behind a backslash. */
  datatype Letter = Plain(c: char) | Escape(code: char)

  predicate LetterOk(l: Letter) {
    match l
    case Plain(c) => c !in "\"\\\n"
    case Escape(code) => code in ESCAPES
  }

  function LetterText(l: Letter): string {
    match l
    case Plain(c) => [c]
    case Escape(code) => ['\\', code]
  }

  function LetterOf(l: Letter): char {
    match l
    case Plain(c) => c
    case Escape(code) => if code in ESCAPES then ESCAPES[code] else code
  }

  predicate LettersOk(ls: seq<Letter>) {
    forall l <- ls :: LetterOk(l)
  }

  /** The letters, and the text after them. */
  function LettersText(ls: seq<Letter>, rest: string): string
    decreases |ls|
  {
    if ls == [] then rest else LetterText(ls[0]) + LettersText(ls[1..], rest)
  }

  function TextOf(ls: seq<Letter>): string {
    seq(|ls|, i requires 0 <= i < |ls| => LetterOf(ls[i]))
  }

  function Lexeme(minus: bool, whole: string, fraction: string, exponent: string): string {
    (if minus then "-" else "") + (whole + (Fraction(fraction) + exponent))
  }

  function Fraction(f: string): string {
    if f == "" then "" else "." + f
  }

  /** A spelling, and the text after it. */
  function Spelled(v: Spelling, rest: string): string {
    match v
    case Quotes(letters) => "\"" + LettersText(letters, "\"" + rest)
    case Bare(word) => word + rest
    case Numeral(minus, whole, fraction, exponent) => Lexeme(minus, whole, fraction, exponent) + rest
    case Keyword(value) => (if value.Null? then "#null" else if value == Bool(true) then "#true" else "#false") + rest
  }

  /** What it means: the text itself, the word, the number as it is spelled, the keyword's value. */
  function Meant(v: Spelling): Value {
    match v
    case Quotes(letters) => Str(TextOf(letters))
    case Bare(word) => Str(word)
    case Numeral(minus, whole, fraction, exponent) => Num(Lexeme(minus, whole, fraction, exponent))
    case Keyword(value) => value
  }

  /** What may follow a value: nothing, white space, a comment, a block, an equals sign or an end. */
  predicate Follows(rest: string) {
    rest == "" || rest[0] in " \t\r\n;{}/="
  }

  /** What was read of a text in front of what is still to be read. */
  function Fronted(front: string, r: Res<string>): Res<string> {
    if r.Ok? then Ok(front + r.value, r.rest) else r
  }

  lemma LetterReads(l: Letter, more: string)
    requires LetterOk(l)
    ensures StringBody(LetterText(l) + more) == Fronted([LetterOf(l)], StringBody(more))
  {
    var e := LetterText(l);
    var t := e + more;
    assert t[0] == e[0] && t[|e|..] == more;
    if l.Escape? {
      assert t[1] == l.code && l.code != '\n' && Unescaped(l.code) == Some(ESCAPES[l.code]);
    }
  }

  /** The letters of a text are read one by one. */
  lemma {:induction false} LettersRead(ls: seq<Letter>, rest: string)
    requires LettersOk(ls)
    ensures StringBody(LettersText(ls, rest)) == Fronted(TextOf(ls), StringBody(rest))
    decreases |ls|
  {
    hide StringBody, LetterText, LetterOf;
    if ls == [] {
      assert TextOf(ls) == "";
      FrontedNone(StringBody(rest));
    } else {
      assert forall l <- ls[1..] :: l in ls;
      LettersRead(ls[1..], rest);
      assert ls[0] in ls;
      LetterReads(ls[0], LettersText(ls[1..], rest));
      assert TextOf(ls) == [LetterOf(ls[0])] + TextOf(ls[1..]);
      FrontedTwice([LetterOf(ls[0])], TextOf(ls[1..]), StringBody(rest));
    }
  }

  lemma FrontedNone(r: Res<string>)
    ensures Fronted("", r) == r
  {
    if r.Ok? {
      assert "" + r.value == r.value;
    }
  }

  lemma FrontedTwice(a: string, b: string, r: Res<string>)
    ensures Fronted(a, Fronted(b, r)) == Fronted(a + b, r)
  {
    if r.Ok? {
      assert a + (b + r.value) == (a + b) + r.value;
    }
  }

  lemma {:induction false} DigitsRead(d: string, rest: string)
    requires DigitRun(d) && !Digit(rest)
    ensures SkipDigits(d + rest) == rest
    decreases |d|
  {
    if d == "" {
      assert d + rest == rest;
    } else {
      assert (d + rest)[1..] == d[1..] + rest && d[0] in d;
      assert forall c <- d[1..] :: c in d;
      DigitsRead(d[1..], rest);
    }
  }

  lemma {:induction false} WordReads(w: string, rest: string)
    requires (forall c <- w :: IdentChar([c])) && !IdentChar(rest)
    ensures SkipIdent(w + rest) == rest
    decreases |w|
  {
    if w == "" {
      assert w + rest == rest;
    } else {
      assert (w + rest)[1..] == w[1..] + rest && w[0] in w;
      assert forall c <- w[1..] :: c in w;
      WordReads(w[1..], rest);
    }
  }

  lemma IdentReads(w: string, rest: string)
    requires IdentStart(w) && (forall c <- w :: IdentChar([c])) && !IdentChar(rest)
    ensures ParseIdent(w + rest) == Ok(w, rest)
  {
    var s := w + rest;
    assert s[1..] == w[1..] + rest && s[0] == w[0];
    assert forall c <- w[1..] :: c in w;
    WordReads(w[1..], rest);
    assert Between(s, rest) == w;
    hide SkipIdent;
  }

  lemma FollowsIsDelimited(rest: string)
    requires Follows(rest)
    ensures Delimited(rest) && !Digit(rest) && !IdentChar(rest) && !Starts(rest, ".") && !Starts(rest, "e") && !Starts(rest, "E")
  {
    if rest != "" {
      assert "."[0] == '.' && "e"[0] == 'e' && "E"[0] == 'E';
    }
  }

  /** An exponent is read to its end, and no exponent is none. */
  lemma ExponentReads(x: string, rest: string)
    requires ExponentText(x) && Follows(rest)
    ensures SkipExponent(x + rest) == rest
  {
    var s := x + rest;
    FollowsIsDelimited(rest);
    if x == "" {
      assert s == rest;
    } else {
      assert s[..1] == [x[0]] && s[1..] == x[1..] + rest;
      if DigitRun(x[1..]) {
        assert x[1] in x[1..] && s[1] == x[1] && s[1..][0] == x[1];
        DigitsRead(x[1..], rest);
      } else {
        assert s[1..][..1] == [x[1]] && s[2..] == x[2..] + rest && x[2] in x[2..] && s[2..][0] == x[2];
        DigitsRead(x[2..], rest);
      }
    }
  }

  lemma ExponentIsNoFraction(x: string, rest: string)
    requires ExponentText(x) && Follows(rest)
    ensures !Digit(x + rest) && !Starts(x + rest, ".")
  {
    FollowsIsDelimited(rest);
    if x == "" {
      assert x + rest == rest;
    } else {
      assert (x + rest)[0] == x[0] && "."[0] == '.';
    }
  }

  /** The digits behind the point, if any, then the exponent. */
  lemma FractionReads(f: string, e: string)
    requires DigitRun(f) && !Digit(e) && !Starts(e, ".")
    ensures var d := Fraction(f) + e;
      && !Digit(d) && (f == "" ==> d == e)
      && (f != "" ==> Starts(d, ".") && Digit(d[1..]) && SkipDigits(d[1..]) == e)
  {
    var d := Fraction(f) + e;
    if f == "" {
      assert d == e;
    } else {
      assert d[0] == '.' && d[..1] == "." && d[1..] == f + e && f[0] in f && d[1..][0] == f[0];
      DigitsRead(f, e);
    }
  }

  lemma LexemeParts(minus: bool, whole: string, f: string, x: string, rest: string)
    requires whole != ""
    ensures var s := Lexeme(minus, whole, f, x) + rest; var t := whole + (Fraction(f) + (x + rest));
      && (if minus then s[0] == '-' && s[1..] == t && s[..1] == "-" else s == t)
      && Between(s, rest) == Lexeme(minus, whole, f, x) && |s| > |x + rest|
  {
    hide Fraction;
    var tail := Fraction(f) + x;
    assert tail + rest == Fraction(f) + (x + rest);
    assert (whole + tail) + rest == whole + (tail + rest);
    assert ("-" + (whole + tail)) + rest == "-" + ((whole + tail) + rest);
    assert "" + (whole + tail) == whole + tail;
  }

  /** From the first digit on. */
  lemma UnsignedReads(whole: string, f: string, x: string, rest: string)
    requires whole != "" && DigitRun(whole) && DigitRun(f) && ExponentText(x) && Follows(rest)
    ensures var t := whole + (Fraction(f) + (x + rest)); var d := SkipDigits(t);
      && Digit(t) && t[0] == whole[0] && (f == "" ==> d == x + rest && !Starts(d, "."))
      && (f != "" ==> Starts(d, ".") && Digit(d[1..]) && SkipDigits(d[1..]) == x + rest)
  {
    ExponentIsNoFraction(x, rest);
    FractionReads(f, x + rest);
    var tail := Fraction(f) + (x + rest);
    DigitsRead(whole, tail);
    assert (whole + tail)[0] == whole[0] && whole[0] in whole;
    hide SkipDigits, Fraction, ExponentText;
  }

  lemma NumeralReads(minus: bool, whole: string, f: string, x: string, rest: string)
    requires whole != "" && DigitRun(whole) && DigitRun(f) && ExponentText(x) && Follows(rest)
    ensures var l := Lexeme(minus, whole, f, x); var s := l + rest;
      NumberStart(s) && s[0] == (if minus then '-' else whole[0]) && ParseNumber(s) == Ok(l, rest)
  {
    LexemeParts(minus, whole, f, x, rest);
    UnsignedReads(whole, f, x, rest);
    ExponentReads(x, rest);
    FollowsIsDelimited(rest);
    assert whole[0] in whole;
    hide SkipDigits, SkipExponent, Lexeme, Fraction, Delimited, Between, ExponentText, Follows;
  }

  lemma QuotesRead(ls: seq<Letter>, rest: string)
    requires LettersOk(ls)
    ensures var s := "\"" + LettersText(ls, "\"" + rest);
      Starts(s, "\"") && s[0] == '"' && AsStr(ParseString(s)) == Ok(Str(TextOf(ls)), rest) == ParseValue(s)
  {
    var s := "\"" + LettersText(ls, "\"" + rest);
    assert s[..1] == "\"" && s[1..] == LettersText(ls, "\"" + rest);
    LettersRead(ls, "\"" + rest);
    assert StringBody("\"" + rest) == Ok("", rest) by {
      assert ("\"" + rest)[1..] == rest;
    }
    assert TextOf(ls) + "" == TextOf(ls);
    hide StringBody, LettersText, TextOf;
  }

  lemma KeywordReads(value: Value, rest: string)
    requires (value.Bool? || value.Null?) && Follows(rest)
    ensures var s := Spelled(Keyword(value), rest);
      Starts(s, "#") && s[0] == '#' && !Starts(s, "\"") && ParseValue(s) == Ok(value, rest)
  {
    var s := Spelled(Keyword(value), rest);
    FollowsIsDelimited(rest);
    assert s[..1] == "#" && s[0] == '#' && "\""[0] == '"';
    if value.Null? {
      assert s[..5] == "#null" && s[5..] == rest && s[1] == 'n' && "#true"[1] == 't' && "#false"[1] == 'f';
    } else if value == Bool(true) {
      assert s[..5] == "#true" && s[5..] == rest;
    } else {
      assert s[..6] == "#false" && s[6..] == rest && s[1] == 'f' && "#true"[1] == 't';
    }
  }

  lemma BareReads(w: string, rest: string)
    requires Word(w) && Follows(rest)
    ensures var s := w + rest;
      && ParseIdent(s) == Ok(w, rest) && ParseValue(s) == Ok(Str(w), rest) && s[0] == w[0]
      && !Starts(s, "\"") && !Starts(s, "#") && !NumberStart(s) && IdentStart(s)
  {
    var s := w + rest;
    FollowsIsDelimited(rest);
    IdentReads(w, rest);
    assert s[0] == w[0] && "\""[0] == '"' && "#"[0] == '#';
    hide ParseIdent;
  }

  lemma NumberIsNoOther(s: string)
    requires NumberStart(s)
    ensures !Starts(s, "\"") && !Starts(s, "#")
  {
    assert "\""[0] == '"' && "#"[0] == '#' && "-"[0] == '-';
  }

  /** The text of a value or a name starts here, not a gap or an end. */
  predicate Opens(s: string) {
    s != "" && s[0] !in " \t\r\n;{}/="
  }

  lemma NumeralOpens(minus: bool, whole: string, f: string, x: string, rest: string)
    requires whole != "" && DigitRun(whole)
    ensures Opens(Lexeme(minus, whole, f, x) + rest)
  {
    LexemeParts(minus, whole, f, x, rest);
    var s := Lexeme(minus, whole, f, x) + rest;
    assert whole[0] in whole && (!minus ==> s[0] == whole[0]);
    hide Lexeme, Fraction;
  }

  lemma SpelledOpens(v: Spelling, rest: string)
    requires Sound(v)
    ensures Opens(Spelled(v, rest))
  {
    var s := Spelled(v, rest);
    match v
    case Quotes(_) =>
      assert s[0] == '"';
    case Bare(w) =>
      assert s[0] == w[0];
    case Numeral(minus, whole, f, x) =>
      NumeralOpens(minus, whole, f, x, rest);
    case Keyword(value) =>
      assert s[0] == '#';
    hide LettersText, Lexeme, ExponentText;
  }

  /** Every spelling is read as what it means, and all of it. */
  lemma ValueReads(v: Spelling, rest: string)
    requires Sound(v) && Follows(rest)
    ensures var s := Spelled(v, rest); Opens(s) && ParseValue(s) == Ok(Meant(v), rest)
  {
    SpelledOpens(v, rest);
    match v
    case Quotes(letters) =>
      QuotesRead(letters, rest);
    case Bare(w) =>
      BareReads(w, rest);
    case Numeral(minus, whole, f, x) =>
      NumeralReads(minus, whole, f, x, rest);
      NumberIsNoOther(Lexeme(minus, whole, f, x) + rest);
    case Keyword(value) =>
      KeywordReads(value, rest);
    hide Lexeme, ParseNumber, ParseKeyword, ParseString, ParseIdent, LettersText, Opens, ExponentText, Follows, Word;
  }

  // ----- what is no value -----

  /** What ends the reading of a text without its closing quote: the end of the input or of the line, also behind a
      backslash, and an escape that does not exist. */
  predicate BreaksOff(rest: string) {
    || rest == "" || rest[0] == '\n'
    || (rest[0] == '\\' && (|rest| == 1 || rest[1] !in ESCAPES))
  }

  /** A text that breaks off is refused where it does. */
  lemma BrokenTextIsRefused(ls: seq<Letter>, rest: string)
    requires LettersOk(ls) && BreaksOff(rest)
    ensures ParseValue("\"" + LettersText(ls, rest)) ==
      Fail(if |rest| > 1 && rest[0] == '\\' && rest[1] != '\n' then UnknownEscape else UnclosedString, rest)
  {
    var s := "\"" + LettersText(ls, rest);
    assert s[..1] == "\"" && s[1..] == LettersText(ls, rest);
    LettersRead(ls, rest);
    if rest != "" && rest[0] == '\\' && |rest| > 1 {
      assert Unescaped(rest[1]).None?;
    }
  }

  lemma NoExponent(rest: string)
    requires rest != "" && rest[0] !in "eE"
    ensures SkipExponent(rest) == rest && (Starts(rest, ".") <==> rest[0] == '.')
  {
    assert rest[..1] == [rest[0]] && "e"[0] == 'e' && "E"[0] == 'E' && "."[0] == '.';
  }

  /** Digits and a point without a digit behind it are refused, and so is a number that runs into anything but a
      delimiter. */
  lemma BrokenNumberIsRefused(minus: bool, whole: string, rest: string)
    requires whole != "" && DigitRun(whole) && !Digit(rest) && !Delimited(rest)
    requires rest[0] !in "eE" && (rest[0] == '.' ==> !Digit(rest[1..]))
    ensures ParseValue((if minus then "-" else "") + (whole + rest)) ==
      Fail(MalformedNumber, if rest[0] == '.' then rest[1..] else rest)
  {
    var t := whole + rest;
    var s := (if minus then "-" else "") + t;
    assert whole[0] in whole && t[0] == whole[0];
    assert if minus then s[0] == '-' && s[1..] == t && s[..1] == "-" else s == t;
    DigitsRead(whole, rest);
    assert NumberStart(s);
    NumberIsNoOther(s);
    NoExponent(rest);
    assert SkipDigits(t) == rest;
    hide SkipDigits, ParseString, ParseKeyword, ParseIdent, Between, SkipExponent, NumberStart, Delimited, DigitRun;
  }

  /** A keyword that runs into anything but a delimiter is refused. */
  lemma LongKeywordIsRefused(value: Value, rest: string)
    requires (value.Bool? || value.Null?) && !Delimited(rest)
    ensures var s := Spelled(Keyword(value), rest); ParseValue(s) == Fail(MalformedKeyword, s)
  {
    var s := Spelled(Keyword(value), rest);
    assert s[..1] == "#" && s[0] == '#' && "\""[0] == '"';
    if value.Null? {
      assert s[..5] == "#null" && s[5..] == rest && s[1] == 'n' && "#true"[1] == 't' && "#false"[1] == 'f';
    } else if value == Bool(true) {
      assert s[..5] == "#true" && s[5..] == rest;
    } else {
      assert s[..6] == "#false" && s[6..] == rest && s[1] == 'f' && "#true"[1] == 't';
    }
  }

  // ----- documents -----

  datatype Entry = Arg(v: Spelling) | Property(name: string, v: Spelling)

  /** A node: its name, its entries in their order, its children. */
  datatype Item = Item(name: string, entries: seq<Entry>, children: seq<Item>)

  datatype Ending = AtBreak | AtSemicolon | AtRemark(text: string)

  /** What stands in the gaps of a document: inside a node, around an equals sign, at a node's end, between nodes. */
  datatype Style = Style(gap: seq<Trivium>, before: seq<Trivium>, after: seq<Trivium>, tail: seq<Trivium>, ending: Ending,
                         space: seq<Trivium>)

  predicate BlankOnly(ts: seq<Trivium>) {
    forall t <- ts :: t.Spacing? && t.ch in " \t\r"
  }

  predicate InlineOnly(ts: seq<Trivium>) {
    forall t <- ts :: Inline(t)
  }

  /** Inside a node any blanks and block comments, at least one; around an equals sign blanks; at the end a line break,
      a semicolon or a line comment; between nodes any white space and comments. */
  predicate StyleOk(st: Style) {
    && st.gap != [] && InlineOnly(st.gap) && BlankOnly(st.before) && BlankOnly(st.after) && InlineOnly(st.tail)
    && (st.ending.AtRemark? ==> '\n' !in st.ending.text) && forall t <- st.space :: Proper(t)
  }

  predicate EntryOk(e: Entry) {
    Sound(e.v) && (e.Property? ==> Word(e.name) && e.name != PROTO)
  }

  predicate ItemsOk(items: seq<Item>)
    decreases items
  {
    items == [] ||
      (ItemsOk(items[1..]) && Word(items[0].name) && (forall e <- items[0].entries :: EntryOk(e)) && ItemsOk(items[0].children))
  }

  function Applied(n: Node, e: Entry): Node {
    match e
    case Arg(v) => n.(args := n.args + [Meant(v)])
    case Property(name, v) => n.(props := n.props[name := Meant(v)])
  }

  function AppliedAll(n: Node, es: seq<Entry>): Node
    decreases |es|
  {
    if es == [] then n else AppliedAll(Applied(n, es[0]), es[1..])
  }

  /** The nodes that a document means: arguments in order, the last value of each property, the children. */
  function NodesOf(items: seq<Item>): seq<Node>
    decreases items
  {
    if items == [] then []
    else
      var n := AppliedAll(Node(items[0].name, [], map[], false, []), items[0].entries);
      [n.(children := NodesOf(items[0].children))] + NodesOf(items[1..])
  }

  function EntryText(e: Entry, st: Style, rest: string): string {
    match e
    case Arg(v) => Spelled(v, rest)
    case Property(name, v) => name + Spaces(st.before, "=" + Spaces(st.after, Spelled(v, rest)))
  }

  function EntriesText(es: seq<Entry>, st: Style, rest: string): string
    decreases |es|
  {
    if es == [] then rest else Spaces(st.gap, EntryText(es[0], st, EntriesText(es[1..], st, rest)))
  }

  function EndText(st: Style, rest: string): string {
    Spaces(st.tail,
      match st.ending
      case AtBreak => "\n" + rest
      case AtSemicolon => ";" + rest
      case AtRemark(text) => "//" + (text + ("\n" + rest)))
  }

  /** The document's text, and the text after it. */
  function DocText(items: seq<Item>, st: Style, rest: string): string
    decreases items, 0
  {
    Spaces(st.space, if items == [] then rest else ItemText(items[0], st, DocText(items[1..], st, rest)))
  }

  function ItemText(it: Item, st: Style, rest: string): string
    decreases it, 1
  {
    var end := EndText(st, rest);
    it.name + EntriesText(it.entries, st,
      if it.children == [] then end else Spaces(st.gap, "{" + DocText(it.children, st, "}" + end)))
  }

  // ----- entries -----

  /** What stands behind an entry: a value may end there, and no equals sign follows. */
  predicate Behind(rest: string) {
    Follows(rest) && !Starts(SkipInline(rest), "=")
  }

  lemma InlineFollows(t: Trivium, rest: string)
    requires Inline(t)
    ensures Follows(TriviumText(t, rest))
    ensures SkipInline(TriviumText(t, rest)) == if t.Spacing? then SkipInline(rest) else TriviumText(t, rest)
    ensures t.Block? ==> !Starts(TriviumText(t, rest), "=")
  {
    var s := TriviumText(t, rest);
    if t.Spacing? {
      assert s[1..] == rest;
    } else {
      assert s[0] == '/' && "="[0] == '=';
    }
  }

  /** A gap in front of anything but an equals sign can stand behind an entry. */
  lemma {:induction false} GapIsBehind(ts: seq<Trivium>, rest: string)
    requires InlineOnly(ts) && !Starts(SkipInline(rest), "=") && (ts == [] ==> Follows(rest))
    ensures Behind(Spaces(ts, rest))
    decreases |ts|
  {
    if ts != [] {
      assert ts[0] in ts;
      var more := Spaces(ts[1..], rest);
      InlineFollows(ts[0], more);
      if ts[0].Spacing? {
        NoEquals(ts[1..], rest);
      }
    }
    hide TriviumText, SkipInline;
  }

  lemma {:induction false} NoEquals(ts: seq<Trivium>, rest: string)
    requires InlineOnly(ts) && !Starts(SkipInline(rest), "=")
    ensures !Starts(SkipInline(Spaces(ts, rest)), "=")
    decreases |ts|
  {
    if ts != [] {
      assert ts[0] in ts;
      InlineFollows(ts[0], Spaces(ts[1..], rest));
      if ts[0].Spacing? {
        NoEquals(ts[1..], rest);
      }
    }
    hide TriviumText, SkipInline;
  }

  lemma {:induction false} BlanksSkipped(ts: seq<Trivium>, rest: string)
    requires BlankOnly(ts)
    ensures SkipInline(Spaces(ts, rest)) == SkipInline(rest)
    decreases |ts|
  {
    if ts != [] {
      assert ts[0] in ts;
      InlineFollows(ts[0], Spaces(ts[1..], rest));
      BlanksSkipped(ts[1..], rest);
    }
    hide TriviumText, SkipInline;
  }

  lemma BlanksAreNoName(ts: seq<Trivium>, rest: string)
    requires BlankOnly(ts) && !IdentChar(rest)
    ensures !IdentChar(Spaces(ts, rest))
  {
    if ts != [] {
      assert ts[0] in ts;
      InlineFollows(ts[0], Spaces(ts[1..], rest));
    }
  }

  /** A gap that starts with blanks ends where the gap behind them does. */
  lemma InlineIsGap(s: string)
    ensures SkipGap(SkipInline(s)) == SkipGap(s)
  {
    assert SkipInline(SkipInline(s)) == SkipInline(s);
  }

  /** An argument is read; a bare word takes the blanks behind it along. */
  lemma ArgReads(v: Spelling, rest: string, n: Node)
    requires Sound(v) && Behind(rest)
    ensures var r := ParseEntry(Spelled(v, rest), n);
      r.Ok? && r.value == Applied(n, Arg(v)) && SkipGap(r.rest) == SkipGap(rest)
  {
    match v
    case Quotes(letters) =>
      QuotesRead(letters, rest);
      hide ParseString, SkipGap, LettersText;
    case Bare(w) =>
      BareReads(w, rest);
      InlineIsGap(rest);
      hide ParseIdent, SkipGap, SkipInline;
    case Numeral(minus, whole, f, x) =>
      NumeralReads(minus, whole, f, x, rest);
      NumberIsNoOther(Lexeme(minus, whole, f, x) + rest);
      hide ParseNumber, SkipGap, Lexeme;
    case Keyword(value) =>
      KeywordReads(value, rest);
      hide ParseValue, SkipGap;
  }

  lemma PropertyReads(name: string, v: Spelling, st: Style, rest: string, n: Node)
    requires Sound(v) && Follows(rest) && Word(name) && name != PROTO && BlankOnly(st.before) && BlankOnly(st.after)
    ensures ParseEntry(EntryText(Property(name, v), st, rest), n) == Ok(Applied(n, Property(name, v)), rest)
  {
    var value := Spelled(v, rest);
    var right := Spaces(st.after, value);
    var left := Spaces(st.before, "=" + right);
    ValueReads(v, rest);
    hide *;
    EqualsReads(st.before, st.after, value);
    PartsRead(name, left, right, v, rest, n);
    PropertyIs(name, v, st, rest);
  }

  lemma PropertyIs(name: string, v: Spelling, st: Style, rest: string)
    ensures EntryText(Property(name, v), st, rest)
         == name + Spaces(st.before, "=" + Spaces(st.after, Spelled(v, rest)))
  {
  }

  /** The equals sign with the blanks around it. */
  lemma EqualsReads(before: seq<Trivium>, after: seq<Trivium>, value: string)
    requires BlankOnly(before) && BlankOnly(after) && Opens(value)
    ensures var right := Spaces(after, value); var left := Spaces(before, "=" + right);
      && SkipInline(left) == "=" + right && SkipInline(right) == value && !IdentChar(left)
  {
    var right := Spaces(after, value);
    assert ("=" + right)[0] == '=';
    assert SkipInline(value) == value && SkipInline("=" + right) == "=" + right;
    BlanksSkipped(after, value);
    BlanksSkipped(before, "=" + right);
    BlanksAreNoName(before, "=" + right);
  }

  lemma PartsRead(name: string, left: string, right: string, v: Spelling, rest: string, n: Node)
    requires Word(name) && name != PROTO && !IdentChar(left) && SkipInline(left) == "=" + right
    requires ParseValue(SkipInline(right)) == Ok(Meant(v), rest)
    ensures ParseEntry(name + left, n) == Ok(Applied(n, Property(name, v)), rest)
  {
    IdentReads(name, left);
    NameIsNoValue(name, left);
    assert ("=" + right)[..1] == "=" && ("=" + right)[1..] == right;
    hide ParseIdent, ParseValue, SkipInline, Word, NumberStart, IdentStart, Meant;
  }

  lemma NameIsNoValue(name: string, left: string)
    requires Word(name) && !IdentChar(left)
    ensures var s := name + left; !Starts(s, "\"") && !Starts(s, "#") && !NumberStart(s) && IdentStart(s)
  {
    var s := name + left;
    assert s[0] == name[0] && "\""[0] == '"' && "#"[0] == '#';
    if Starts(s, "-") && |name| == 1 {
      assert s[1..] == left;
    } else if Starts(s, "-") {
      assert s[1..][0] == name[1] == name[1..][0] && name[..1] == "-";
    }
  }

  lemma OpensAtOnce(s: string)
    requires Opens(s)
    ensures SkipGap(s) == Some(s) && SkipSpace(s) == Some(s) && SkipInline(s) == s
    ensures !Starts(s, "//") && !Starts(s, "=") && !Blank(s)
  {
    assert "/*"[0] == '/' && "//"[0] == '/' && "\n"[0] == '\n' && "="[0] == '=';
    assert SkipInline(s) == s;
    hide SkipInline;
    assert SkipGap(s) == Some(s);
  }

  lemma EntryReads(e: Entry, st: Style, rest: string, n: Node)
    requires EntryOk(e) && StyleOk(st) && Behind(rest)
    ensures var s := EntryText(e, st, rest); var r := ParseEntry(s, n);
      Opens(s) && r.Ok? && r.value == Applied(n, e) && SkipGap(r.rest) == SkipGap(rest)
  {
    match e
    case Arg(v) =>
      ValueReads(v, rest);
      ArgReads(v, rest, n);
      hide *;
      ArgIsSpelled(v, st, rest);
    case Property(name, v) =>
      PropertyReads(name, v, st, rest, n);
      hide ParseEntry, Spaces, Spelled, SkipGap, Sound;
  }

  lemma ArgIsSpelled(v: Spelling, st: Style, rest: string)
    ensures EntryText(Arg(v), st, rest) == Spelled(v, rest)
  {
  }

  /** One entry behind its gap. */
  lemma EntryIsRead(e: Entry, st: Style, rest: string, n: Node)
    requires EntryOk(e) && StyleOk(st) && Behind(rest)
    ensures NodeRest(Spaces(st.gap, EntryText(e, st, rest)), n) == NodeRest(rest, Applied(n, e))
  {
    var s := EntryText(e, st, rest);
    EntryReads(e, st, rest, n);
    SpacesSkipped(st.gap, s);
    OpensAtOnce(s);
    OpenedByEntry(s, n);
    hide *;
    GapDecides(Spaces(st.gap, s), s, n);
    GapDecides(ParseEntry(s, n).rest, rest, Applied(n, e));
  }

  lemma OpenedByEntry(s: string, n: Node)
    requires Opens(s) && ParseEntry(s, n).Ok?
    ensures NodeRest(s, n) == NodeRest(ParseEntry(s, n).rest, ParseEntry(s, n).value)
  {
    OpensAtOnce(s);
    hide ParseEntry, SkipGap, ParseChildren;
  }

  lemma MoreIsBehind(es: seq<Entry>, st: Style, rest: string)
    requires (forall e <- es :: EntryOk(e)) && StyleOk(st) && Behind(rest)
    ensures Behind(EntriesText(es, st, rest))
    decreases |es|
  {
    if es != [] {
      assert es[0] in es;
      MoreIsBehind(es[1..], st, rest);
      var more := EntriesText(es[1..], st, rest);
      var s := EntryText(es[0], st, more);
      EntryReads(es[0], st, more, Node("", [], map[], false, []));
      OpensAtOnce(s);
      hide EntryText, Spaces, SkipInline, ParseEntry;
      GapIsBehind(st.gap, s);
    }
  }

  lemma {:induction false} EntriesRead(es: seq<Entry>, st: Style, rest: string, n: Node)
    requires (forall e <- es :: EntryOk(e)) && StyleOk(st) && Behind(rest)
    ensures NodeRest(EntriesText(es, st, rest), n) == NodeRest(rest, AppliedAll(n, es))
    decreases |es|
  {
    hide NodeRest, EntryText, Spaces, Applied, StyleOk, EntryOk, Behind;
    if es != [] {
      assert es[0] in es;
      MoreIsBehind(es[1..], st, rest);
      EntryIsRead(es[0], st, EntriesText(es[1..], st, rest), n);
      EntriesRead(es[1..], st, rest, Applied(n, es[0]));
    }
  }

  // ----- ends and blocks -----

  lemma EndReads(st: Style, rest: string, n: Node)
    requires StyleOk(st)
    ensures Behind(EndText(st, rest))
    ensures var r := NodeRest(EndText(st, rest), n); r.Ok? && r.value == n && SkipSpace(r.rest) == SkipSpace(rest)
  {
    var e := match st.ending
      case AtBreak => "\n" + rest
      case AtSemicolon => ";" + rest
      case AtRemark(text) => "//" + (text + ("\n" + rest));
    EnderReads(st.ending, e, rest, n);
    SpacesSkipped(st.tail, e);
    GapIsBehind(st.tail, e);
    hide *;
    GapDecides(EndText(st, rest), e, n) by {
      EndIs(st, rest);
    }
    EndIs(st, rest);
  }

  lemma EndIs(st: Style, rest: string)
    ensures EndText(st, rest) == Spaces(st.tail, match st.ending
      case AtBreak => "\n" + rest
      case AtSemicolon => ";" + rest
      case AtRemark(text) => "//" + (text + ("\n" + rest)))
  {
  }

  lemma EnderReads(ending: Ending, e: string, rest: string, n: Node)
    requires ending.AtRemark? ==> '\n' !in ending.text
    requires e == match ending
      case AtBreak => "\n" + rest
      case AtSemicolon => ";" + rest
      case AtRemark(text) => "//" + (text + ("\n" + rest))
    ensures Follows(e) && !Starts(SkipInline(e), "=")
    ensures var r := NodeRest(e, n); r.Ok? && r.value == n && SkipSpace(r.rest) == SkipSpace(rest)
  {
    assert "="[0] == '=' && "/*"[0] == '/' && "//"[0] == '/';
    assert SkipInline(e) == e by {
      assert e[0] !in " \t\r";
    }
    match ending
    case AtBreak =>
      BreakSkipped(rest);
      hide SkipSpace, SkipGap, SkipInline;
    case AtSemicolon =>
      assert e[0] == ';' && e[1..] == rest;
      hide SkipSpace, SkipInline;
      assert SkipGap(e) == Some(e);
    case AtRemark(text) =>
      RemarkSkipped(text, rest);
      assert e[..2] == "//" && e[0] == '/';
      hide SkipSpace, SkipGap, SkipInline;
  }

  lemma BlockReads(inner: string, end: string, st: Style, nodes: seq<Node>, n: Node)
    requires StyleOk(st) && ParseChildren(inner) == Ok(nodes, "}" + end)
    ensures NodeRest(Spaces(st.gap, "{" + inner), n) == NodeRest(end, n.(children := nodes))
    ensures Behind(Spaces(st.gap, "{" + inner))
  {
    var s := "{" + inner;
    assert s[0] == '{' && s[1..] == inner && ("}" + end)[..1] == "}" && ("}" + end)[1..] == end;
    assert "="[0] == '=' && "/*"[0] == '/' && "//"[0] == '/';
    assert SkipInline(s) == s;
    SpacesSkipped(st.gap, s);
    GapIsBehind(st.gap, s);
    assert SkipGap(s) == Some(s);
    hide SkipGap, SkipInline, ParseChildren, ParseEntry, Spaces, Behind;
    GapDecides(Spaces(st.gap, s), s, n);
    assert !Starts(s, "//");
  }

  lemma {:induction false} Childless(n: Node, es: seq<Entry>)
    ensures AppliedAll(n, es).children == n.children && AppliedAll(n, es).name == n.name
    decreases |es|
  {
    if es != [] {
      Childless(Applied(n, es[0]), es[1..]);
    }
  }

  // ----- the whole document -----

  lemma NodeIsRead(name: string, rest: string)
    requires Word(name) && Follows(rest)
    ensures ParseNode(name + rest) == NodeRest(rest, Node(name, [], map[], false, [])) && Opens(name + rest)
  {
    FollowsIsDelimited(rest);
    IdentReads(name, rest);
    SpelledOpens(Bare(name), rest);
    hide NodeRest, ParseIdent, Word;
  }

  function Meaning(it: Item): Node {
    AppliedAll(Node(it.name, [], map[], false, []), it.entries).(children := NodesOf(it.children))
  }

  predicate ItemOk(it: Item) {
    Word(it.name) && (forall e <- it.entries :: EntryOk(e)) && ItemsOk(it.children)
  }

  /** What follows a node's entries: its block, if it has one, and its end. */
  function Closing(it: Item, st: Style, rest: string): string {
    var end := EndText(st, rest);
    if it.children == [] then end else Spaces(st.gap, "{" + DocText(it.children, st, "}" + end))
  }

  lemma ClosingReads(it: Item, st: Style, rest: string, n: Node)
    requires StyleOk(st) && n.children == []
    requires var end := EndText(st, rest);
      it.children != [] ==> ParseChildren(DocText(it.children, st, "}" + end)) == Ok(NodesOf(it.children), "}" + end)
    ensures Behind(Closing(it, st, rest))
    ensures var r := NodeRest(Closing(it, st, rest), n);
      r.Ok? && r.value == n.(children := NodesOf(it.children)) && SkipSpace(r.rest) == SkipSpace(rest)
  {
    var end := EndText(st, rest);
    if it.children == [] {
      EndReads(st, rest, n);
      assert n == n.(children := []);
    } else {
      var nodes := NodesOf(it.children);
      EndReads(st, rest, n.(children := nodes));
      BlockReads(DocText(it.children, st, "}" + end), end, st, nodes, n);
    }
    hide NodeRest, EndText, DocText, Spaces, SkipSpace, Behind, StyleOk, ParseChildren;
  }

  lemma ItemReads(it: Item, st: Style, rest: string)
    requires ItemOk(it) && StyleOk(st)
    requires var end := EndText(st, rest);
      it.children != [] ==> ParseChildren(DocText(it.children, st, "}" + end)) == Ok(NodesOf(it.children), "}" + end)
    ensures var s := ItemText(it, st, rest); var r := ParseNode(s);
      Opens(s) && r.Ok? && r.value == Meaning(it) && SkipSpace(r.rest) == SkipSpace(rest)
  {
    var n := Node(it.name, [], map[], false, []);
    var c := Closing(it, st, rest);
    Childless(n, it.entries);
    ClosingReads(it, st, rest, AppliedAll(n, it.entries));
    MoreIsBehind(it.entries, st, c);
    EntriesRead(it.entries, st, c, n);
    ItemIs(it, st, rest);
    hide EntriesText, Closing, ParseNode, NodeRest, SkipSpace, SkipInline, ItemText, AppliedAll, NodesOf, EntryOk, StyleOk;
    NodeIsRead(it.name, EntriesText(it.entries, st, c));
  }

  lemma ItemIs(it: Item, st: Style, rest: string)
    ensures ItemText(it, st, rest) == it.name + EntriesText(it.entries, st, Closing(it, st, rest))
  {
  }

  /** A document is read as what it means, in any style, as far as its end or the brace that closes it. */
  lemma {:induction false} ItemsRead(items: seq<Item>, st: Style, rest: string)
    requires ItemsOk(items) && StyleOk(st) && (rest == "" || rest[0] == '}')
    ensures ParseChildren(DocText(items, st, rest)) == Ok(NodesOf(items), rest)
    decreases items
  {
    if items == [] {
      SpacesSkipped(st.space, rest);
      NothingToRead(rest);
      hide *;
      DocIs(items, st, rest);
      SpaceDecides(Spaces(st.space, rest), rest);
      NoNodes();
    } else {
      var it := items[0];
      var more := DocText(items[1..], st, rest);
      var end := EndText(st, more);
      ItemsRead(items[1..], st, rest);
      if it.children != [] {
        ItemsRead(it.children, st, "}" + end);
      }
      OneMoreItem(items, st, rest);
    }
  }

  lemma NoNodes()
    ensures NodesOf([]) == []
  {
  }

  lemma DocIs(items: seq<Item>, st: Style, rest: string)
    ensures DocText(items, st, rest) == Spaces(st.space,
      if items == [] then rest else ItemText(items[0], st, DocText(items[1..], st, rest)))
  {
  }

  lemma NothingToRead(rest: string)
    requires rest == "" || rest[0] == '}'
    ensures ParseChildren(rest) == Ok([], rest)
  {
    assert "\n"[0] == '\n' && "/*"[0] == '/' && "//"[0] == '/';
    assert SkipInline(rest) == rest;
    hide SkipInline;
    assert SkipGap(rest) == Some(rest);
    assert SkipSpace(rest) == Some(rest);
  }

  lemma OneMoreItem(items: seq<Item>, st: Style, rest: string)
    requires items != [] && ItemsOk(items) && StyleOk(st)
    requires var more := DocText(items[1..], st, rest); var end := EndText(st, more); var it := items[0];
      && ParseChildren(more) == Ok(NodesOf(items[1..]), rest)
      && (it.children != [] ==> ParseChildren(DocText(it.children, st, "}" + end)) == Ok(NodesOf(it.children), "}" + end))
    ensures ParseChildren(DocText(items, st, rest)) == Ok(NodesOf(items), rest)
  {
    var it := items[0];
    var more := DocText(items[1..], st, rest);
    var s := ItemText(it, st, more);
    ItemReads(it, st, more);
    SpacesSkipped(st.space, s);
    OpensAtOnce(s);
    DocIs(items, st, rest);
    assert NodesOf(items) == [Meaning(it)] + NodesOf(items[1..]);
    hide DocText, ItemText, EndText, NodesOf, Meaning, StyleOk, ItemsOk;
    SpaceDecides(Spaces(st.space, s), s);
    NodeThenMore(s, more);
  }

  lemma NodeThenMore(s: string, more: string)
    requires Opens(s) && ParseNode(s).Ok? && SkipSpace(ParseNode(s).rest) == SkipSpace(more) && ParseChildren(more).Ok?
    ensures var k := ParseChildren(more); ParseChildren(s) == Ok([ParseNode(s).value] + k.value, k.rest)
  {
    OpensAtOnce(s);
    SpaceDecides(ParseNode(s).rest, more);
    hide SkipSpace, SkipGap, SkipInline, ParseNode;
  }

  /** Every document, however it is spaced and commented, parses to the nodes it means. */
  lemma DocumentReadsBack(items: seq<Item>, st: Style)
    requires ItemsOk(items) && StyleOk(st)
    ensures ParseKdl(DocText(items, st, "")) == Ok(NodesOf(items), "")
  {
    ItemsRead(items, st, "");
    hide ParseChildren, DocText;
  }

  /** A document with a closing brace that nothing opened is refused at that brace. */
  lemma StrayBraceIsRefused(items: seq<Item>, st: Style, rest: string)
    requires ItemsOk(items) && StyleOk(st)
    ensures ParseKdl(DocText(items, st, "}" + rest)) == Fail(StrayBrace, "}" + rest)
  {
    ItemsRead(items, st, "}" + rest);
    assert "}" + rest != "";
    hide ParseChildren, DocText;
  }

  /** A block comment that is not closed takes everything with it. */
  lemma OpenCommentIsRefused(inner: seq<Piece>, n: Node)
    requires QuietPieces(inner)
    ensures var s := "/*" + Inside(inner, "");
      ParseKdl(s) == Fail(UnclosedComment, "") && NodeRest(s, n) == Fail(UnclosedComment, "")
  {
    var s := "/*" + Inside(inner, "");
    InsideSkipped(inner, "", 1);
    assert s[0] == '/' && s[..2] == "/*" && s[2..] == Inside(inner, "");
    assert SkipInline(s) == s;
    hide SkipInline, ParseNode, ParseEntry;
    assert SkipGap(s) == None && SkipSpace(s) == None;
  }
}
