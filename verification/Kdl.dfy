/** The grammar of the engine's data files (app/src/kdl.ts), as functions from the input that is left to a value
    and what is left after it. */
module Kdl {
  import opened Common

  /** Numbers keep their spelling. */
  datatype Value = Str(text: string) | Num(lexeme: string) | Bool(b: bool) | Null

  /** `bare`: the props object has lost its prototype, see `Put`. */
  datatype Node = Node(name: string, args: seq<Value>, props: map<string, Value>, bare: bool, children: seq<Node>)

  datatype Problem =
    | UnclosedComment | NameExpected | UnclosedString | UnknownEscape | MalformedNumber | MalformedKeyword
    | UnsupportedHash | ValueExpected | UnexpectedCharacter | UnclosedBrace | StrayBrace

  /** What was read, or the problem; `rest` is the input from there on. */
  datatype Res<+T> = Ok(value: T, rest: string) | Fail(why: Problem, rest: string)

  // ----- characters -----

  predicate Starts(s: string, pat: string) {
    pat <= s
  }

  predicate Digit(s: string) {
    s != "" && '0' <= s[0] <= '9'
  }

  predicate IdentStart(s: string) {
    s != "" && ('a' <= s[0] <= 'z' || 'A' <= s[0] <= 'Z' || s[0] == '_' || s[0] == '-')
  }

  predicate IdentChar(s: string) {
    IdentStart(s) || Digit(s)
  }

  predicate Blank(s: string) {
    s != "" && (s[0] == ' ' || s[0] == '\t' || s[0] == '\r')
  }

  /** The end, or a character that ends a number or a keyword. */
  predicate Delimited(s: string) {
    s == "" || s[0] in " \t\r\n;{}/="
  }

  // ----- gaps -----

  function SkipInline(s: string): (r: string)
    ensures |r| <= |s| && !Blank(r)
    decreases |s|
  {
    if Blank(s) then SkipInline(s[1..]) else s
  }

  /** Past a nested block comment, or nothing when it never closes. */
  function SkipBlock(s: string, depth: nat): (r: Option<string>)
    ensures r.Some? ==> |r.value| <= |s|
    decreases |s|
  {
    if depth == 0 then Some(s)
    else if s == "" then None
    else if Starts(s, "/*") then SkipBlock(s[2..], depth + 1)
    else if Starts(s, "*/") then SkipBlock(s[2..], depth - 1)
    else SkipBlock(s[1..], depth)
  }

  function SkipGap(s: string): (r: Option<string>)
    ensures r.Some? ==> |r.value| <= |s|
    decreases |s|
  {
    var t := SkipInline(s);
    if Starts(t, "/*") then
      var u := SkipBlock(t[2..], 1);
      if u.None? then None else SkipGap(u.value)
    else Some(t)
  }

  function SkipLine(s: string): (r: string)
    ensures |r| <= |s|
    decreases |s|
  {
    if s == "" || s[0] == '\n' then s else SkipLine(s[1..])
  }

  function SkipSpace(s: string): (r: Option<string>)
    ensures r.Some? ==> |r.value| <= |s|
    decreases |s|
  {
    var g := SkipGap(s);
    if g.None? then None
    else if Starts(g.value, "\n") then SkipSpace(g.value[1..])
    else if Starts(g.value, "//") then SkipSpace(SkipLine(g.value[2..]))
    else g
  }

  // ----- scalars -----

  function SkipIdent(s: string): (r: string)
    ensures |r| <= |s| && !IdentChar(r)
    decreases |s|
  {
    if IdentChar(s) then SkipIdent(s[1..]) else s
  }

  /** What was consumed between two points of the input. */
  function Between(s: string, r: string): string {
    if |r| <= |s| then s[..|s| - |r|] else ""
  }

  function ParseIdent(s: string): (r: Res<string>)
    ensures r.Ok? ==> |r.rest| < |s|
    ensures r.Ok? <==> IdentStart(s)
  {
    if IdentStart(s) then Ok(Between(s, SkipIdent(s[1..])), SkipIdent(s[1..])) else Fail(NameExpected, s)
  }

  function Unescaped(c: char): Option<char> {
    if c == '"' || c == '\\' || c == '/' then Some(c)
    else if c == 'n' then Some('\n')
    else if c == 't' then Some('\t')
    else if c == 'r' then Some('\r')
    else if c == 'b' then Some('\U{8}')
    else if c == 'f' then Some('\U{c}')
    else None
  }

  function Prepend(c: char, r: Res<string>): Res<string> {
    if r.Ok? then Ok([c] + r.value, r.rest) else r
  }

  /** The rest of a string after its opening quote. */
  function StringBody(s: string): (r: Res<string>)
    ensures r.Ok? ==> |r.rest| < |s|
    decreases |s|
  {
    if s == "" || s[0] == '\n' then Fail(UnclosedString, s)
    else if s[0] == '"' then Ok("", s[1..])
    else if s[0] == '\\' then
      if |s| < 2 || s[1] == '\n' then Fail(UnclosedString, s)
      else if Unescaped(s[1]).None? then Fail(UnknownEscape, s)
      else Prepend(Unescaped(s[1]).value, StringBody(s[2..]))
    else Prepend(s[0], StringBody(s[1..]))
  }

  function ParseString(s: string): (r: Res<string>)
    requires s != ""
    ensures r.Ok? ==> |r.rest| < |s|
  {
    StringBody(s[1..])
  }

  function SkipDigits(s: string): (r: string)
    ensures |r| <= |s| && !Digit(r)
    decreases |s|
  {
    if Digit(s) then SkipDigits(s[1..]) else s
  }

  function SkipExponent(s: string): (r: string)
    ensures |r| <= |s|
  {
    if Starts(s, "e") || Starts(s, "E") then
      var t := if Starts(s[1..], "+") || Starts(s[1..], "-") then s[2..] else s[1..];
      if Digit(t) then SkipDigits(t) else s
    else s
  }

  /** A number starts with a digit, or a minus and a digit. */
  predicate NumberStart(s: string) {
    Digit(s) || (Starts(s, "-") && Digit(s[1..]))
  }

  function NumberEnd(s: string, t: string): (r: Res<string>)
    requires |t| < |s|
    ensures r.Ok? ==> |r.rest| < |s|
  {
    var e := SkipExponent(t);
    if Delimited(e) then Ok(Between(s, e), e) else Fail(MalformedNumber, e)
  }

  function ParseNumber(s: string): (r: Res<string>)
    requires NumberStart(s)
    ensures r.Ok? ==> |r.rest| < |s|
  {
    var d := SkipDigits(if s[0] == '-' then s[1..] else s);
    if Starts(d, ".") then
      if Digit(d[1..]) then NumberEnd(s, SkipDigits(d[1..])) else Fail(MalformedNumber, d[1..])
    else NumberEnd(s, d)
  }

  /** One of the three keywords; a longer word that starts like one is malformed. */
  function ParseKeyword(s: string): (r: Res<Value>)
    ensures r.Ok? ==> |r.rest| < |s|
  {
    if Starts(s, "#true") then
      if Delimited(s[5..]) then Ok(Bool(true), s[5..]) else Fail(MalformedKeyword, s)
    else if Starts(s, "#false") then
      if Delimited(s[6..]) then Ok(Bool(false), s[6..]) else Fail(MalformedKeyword, s)
    else if Starts(s, "#null") then
      if Delimited(s[5..]) then Ok(Null, s[5..]) else Fail(MalformedKeyword, s)
    else Fail(UnsupportedHash, s)
  }

  function AsStr(r: Res<string>): Res<Value> {
    match r
    case Ok(v, rest) => Ok(Str(v), rest)
    case Fail(why, rest) => Fail(why, rest)
  }

  function AsNum(r: Res<string>): Res<Value> {
    match r
    case Ok(v, rest) => Ok(Num(v), rest)
    case Fail(why, rest) => Fail(why, rest)
  }

  function ParseValue(s: string): (r: Res<Value>)
    ensures r.Ok? ==> |r.rest| < |s|
  {
    if Starts(s, "\"") then AsStr(ParseString(s))
    else if Starts(s, "#") then ParseKeyword(s)
    else if NumberStart(s) then AsNum(ParseNumber(s))
    else if IdentStart(s) then AsStr(ParseIdent(s))
    else Fail(ValueExpected, s)
  }

  // ----- nodes -----

  const PROTO := "__proto__"

  /** `props[word] = value` on an ordinary object: assigning to `__proto__` makes no property, but null takes
      the object's prototype away, and from then on it is a name like any other. */
  function Put(n: Node, word: string, v: Value): Node {
    if word == PROTO && !n.bare then
      if v.Null? then n.(bare := true) else n
    else n.(props := n.props[word := v])
  }

  /** A property is kept under its name unless that name is `__proto__` on an ordinary props object, where the
      document loses it. */
  lemma KeptUnlessProto(n: Node, word: string, v: Value)
    requires !n.bare ==> PROTO !in n.props
    ensures var p := Put(n, word, v).props;
      word in p && p[word] == v <==> word != PROTO || n.bare
    ensures forall w <- n.props.Keys :: w != word ==> w in Put(n, word, v).props && Put(n, word, v).props[w] == n.props[w]
  {
    if word == PROTO && !n.bare {
      assert Put(n, word, v).props == n.props;
    }
  }

  function Push(n: Node, r: Res<Value>): Res<Node> {
    match r
    case Ok(v, rest) => Ok(n.(args := n.args + [v]), rest)
    case Fail(why, rest) => Fail(why, rest)
  }

  function PutValue(n: Node, word: string, r: Res<Value>): Res<Node> {
    match r
    case Ok(v, rest) => Ok(Put(n, word, v), rest)
    case Fail(why, rest) => Fail(why, rest)
  }

  /** One argument or property. */
  function ParseEntry(s: string, n: Node): (r: Res<Node>)
    ensures r.Ok? ==> |r.rest| < |s|
  {
    if Starts(s, "\"") then Push(n, AsStr(ParseString(s)))
    else if Starts(s, "#") then Push(n, ParseValue(s))
    else if NumberStart(s) then Push(n, AsNum(ParseNumber(s)))
    else if !IdentStart(s) then Fail(UnexpectedCharacter, s)
    else
      var w := ParseIdent(s);
      var t := SkipInline(w.rest);
      if Starts(t, "=") then PutValue(n, w.value, ParseValue(SkipInline(t[1..])))
      else Ok(n.(args := n.args + [Str(w.value)]), t)
  }

  /** The entries and blocks after a node's name, up to its end. */
  function NodeRest(s: string, n: Node): (r: Res<Node>)
    ensures r.Ok? ==> |r.rest| <= |s|
    decreases |s|, 0
  {
    var g := SkipGap(s);
    if g.None? then Fail(UnclosedComment, "")
    else
      var t := g.value;
      if t == "" || t[0] == '\n' then Ok(n, t)
      else if t[0] == ';' then Ok(n, t[1..])
      else if Starts(t, "//") || t[0] == '}' then Ok(n, t)
      else if t[0] == '{' then
        var k := ParseChildren(t[1..]);
        if k.Fail? then Fail(k.why, k.rest)
        else if Starts(k.rest, "}") then NodeRest(k.rest[1..], n.(children := k.value))
        else Fail(UnclosedBrace, k.rest)
      else
        var e := ParseEntry(t, n);
        if e.Ok? then NodeRest(e.rest, e.value) else e
  }

  function ParseNode(s: string): (r: Res<Node>)
    ensures r.Ok? ==> |r.rest| < |s|
    decreases |s|, 1
  {
    var w := ParseIdent(s);
    if w.Fail? then Fail(w.why, w.rest) else NodeRest(w.rest, Node(w.value, [], map[], false, []))
  }

  /** Nodes up to a closing brace or the end. */
  function ParseChildren(s: string): (r: Res<seq<Node>>)
    ensures r.Ok? ==> |r.rest| <= |s| && (r.rest == "" || r.rest[0] == '}')
    decreases |s|, 2
  {
    var g := SkipSpace(s);
    if g.None? then Fail(UnclosedComment, "")
    else
      var t := g.value;
      if t == "" || t[0] == '}' then Ok([], t)
      else
        var n := ParseNode(t);
        if n.Fail? then Fail(n.why, n.rest)
        else
          var more := ParseChildren(n.rest);
          if more.Fail? then more else Ok([n.value] + more.value, more.rest)
  }

  /** A whole document: it succeeds only with nothing left. */
  function ParseKdl(s: string): (r: Res<seq<Node>>)
    ensures r.Ok? ==> r.rest == ""
  {
    var d := ParseChildren(s);
    if d.Fail? then d else if d.rest == "" then d else Fail(StrayBrace, d.rest)
  }

  // ----- no document names a prototype -----

  /** At any depth a node carries a property `__proto__` only once its props object has no prototype left. */
  predicate Guarded(n: Node) {
    (!n.bare ==> PROTO !in n.props) && forall c <- n.children :: Guarded(c)
  }

  lemma PutGuards(n: Node, word: string, v: Value)
    requires Guarded(n)
    ensures Guarded(Put(n, word, v))
  {
    KeptUnlessProto(n, word, v);
  }

  lemma EntryGuards(s: string, n: Node)
    requires Guarded(n) && ParseEntry(s, n).Ok?
    ensures Guarded(ParseEntry(s, n).value)
  {
    forall word: string, v: Value ensures Guarded(Put(n, word, v)) {
      PutGuards(n, word, v);
    }
    hide Put, ParseValue, ParseString, ParseNumber, ParseIdent, SkipInline;
  }

  lemma {:induction false} RestGuards(s: string, n: Node)
    requires Guarded(n) && NodeRest(s, n).Ok?
    ensures Guarded(NodeRest(s, n).value)
    decreases |s|, 0
  {
    hide SkipGap, ParseEntry, ParseChildren;
    var t := SkipGap(s).value;
    if t != "" && t[0] == '{' {
      var k := ParseChildren(t[1..]);
      ChildrenGuard(t[1..]);
      RestGuards(k.rest[1..], n.(children := k.value));
    } else if ParseEntry(t, n).Ok? && t != "" && t[0] !in "\n;}" && !Starts(t, "//") {
      EntryGuards(t, n);
      RestGuards(ParseEntry(t, n).rest, ParseEntry(t, n).value);
    }
  }

  lemma {:induction false} ChildrenGuard(s: string)
    requires ParseChildren(s).Ok?
    ensures forall n <- ParseChildren(s).value :: Guarded(n)
    decreases |s|, 2
  {
    hide SkipSpace, ParseIdent, NodeRest;
    var t := SkipSpace(s).value;
    if t != "" && t[0] != '}' {
      var w := ParseIdent(t);
      RestGuards(w.rest, Node(w.value, [], map[], false, []));
      ChildrenGuard(ParseNode(t).rest);
    }
  }

  /** In every document that parses, at every depth. */
  lemma DocumentGuards(s: string)
    requires ParseKdl(s).Ok?
    ensures forall n <- ParseKdl(s).value :: Guarded(n)
  {
    ChildrenGuard(s);
  }
}
