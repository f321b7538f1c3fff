/** The parser itself (app/src/kdl.ts): one cursor moves over the source and keeps the line it is on. Each
    method reads what the grammar says is there and leaves the cursor where that ends, or at the problem,
    with the right line for the message. */
module KdlCursor {
  import opened Common
  import opened Kdl

  /** One plus the newlines before a position. */
  function LineAt(src: string, pos: nat): nat
    requires pos <= |src|
    decreases pos
  {
    if pos == 0 then 1 else LineAt(src, pos - 1) + (if src[pos - 1] == '\n' then 1 else 0)
  }

  lemma Drops(src: string, pos: nat, k: nat)
    requires pos + k <= |src|
    ensures src[pos..][k..] == src[pos + k..]
    ensures pos < |src| ==> src[pos..] != "" && src[pos..][0] == src[pos]
  {
  }

  class Cursor {
    const src: string
    var pos: nat
    var line: nat

    ghost predicate Valid()
      reads this
    {
      pos <= |src| && line == LineAt(src, pos)
    }

    /** The input from the cursor on. */
    ghost function Left(): string
      requires pos <= |src|
      reads this
    {
      src[pos..]
    }

    constructor (source: string)
      ensures src == source && pos == 0 && line == 1 && Valid() && Left() == source
    {
      src, pos, line := source, 0, 1;
    }

    predicate Peek(c: char)
      reads this
      ensures pos <= |src| ==> Peek(c) == Starts(Left(), [c])
      ensures pos < |src| ==> Left() != "" && Left()[0] == src[pos]
    {
      assert pos < |src| ==> src[pos..][..1] == [src[pos]];
      pos < |src| && src[pos] == c
    }

    /** The next two characters. */
    predicate Looking(a: char, b: char)
      reads this
      ensures pos <= |src| ==> Looking(a, b) == Starts(Left(), [a, b])
    {
      TwoAhead(src, pos, a, b);
      pos + 1 < |src| && src[pos] == a && src[pos + 1] == b
    }

    /** Step over characters that hold no newline. */
    method Skip(k: nat)
      requires Valid() && pos + k <= |src| && forall i :: pos <= i < pos + k ==> src[i] != '\n'
      modifies this
      ensures Valid() && pos == old(pos) + k && line == old(line) && Left() == old(Left())[k..]
    {
      Drops(src, pos, k);
      SameLine(src, pos, k);
      pos := pos + k;
    }

    method SkipNewline()
      requires Valid() && Peek('\n')
      modifies this
      ensures Valid() && pos == old(pos) + 1 && Left() == old(Left())[1..]
    {
      Drops(src, pos, 1);
      pos := pos + 1;
      line := line + 1;
    }

    method Inline()
      requires Valid()
      modifies this
      ensures Valid() && Left() == SkipInline(old(Left())) && pos >= old(pos)
    {
      while Peek(' ') || Peek('\t') || Peek('\r')
        invariant Valid() && pos >= old(pos) && SkipInline(Left()) == SkipInline(old(Left()))
        decreases |src| - pos
      {
        Drops(src, pos, 1);
        Skip(1);
      }
      assert !Blank(Left());
    }

    /** One character, whatever it is. */
    method SkipAny()
      requires Valid() && pos < |src|
      modifies this
      ensures Valid() && pos == old(pos) + 1 && Left() == old(Left())[1..]
    {
      if Peek('\n') {
        SkipNewline();
      } else {
        Skip(1);
      }
    }

    /** A block comment after its opening, down to the matching close; comments nest. */
    method CommentBody() returns (ok: bool)
      requires Valid()
      modifies this
      ensures Valid() && pos >= old(pos)
      ensures var r := SkipBlock(old(Left()), 1);
        ok == r.Some? && Left() == if ok then r.value else ""
    {
      var depth := 1;
      while depth > 0
        invariant Valid() && pos >= old(pos) && SkipBlock(Left(), depth) == SkipBlock(old(Left()), 1)
        decreases |src| - pos, depth
      {
        if pos >= |src| {
          return false;
        }
        if Looking('/', '*') {
          Skip(2);
          depth := depth + 1;
        } else if Looking('*', '/') {
          Skip(2);
          depth := depth - 1;
        } else {
          SkipAny();
        }
      }
      ok := true;
    }

    /** Blanks and block comments. */
    method Gap() returns (ok: bool)
      requires Valid()
      modifies this
      ensures Valid() && pos >= old(pos)
      ensures var r := SkipGap(old(Left()));
        ok == r.Some? && Left() == if ok then r.value else ""
    {
      while true
        invariant Valid() && pos >= old(pos) && SkipGap(Left()) == SkipGap(old(Left()))
        decreases |src| - pos
      {
        Inline();
        if !Looking('/', '*') {
          return true;
        }
        Skip(2);
        var closed := CommentBody();
        if !closed {
          return false;
        }
      }
    }

    /** Up to the end of the line. */
    method RestOfLine()
      requires Valid()
      modifies this
      ensures Valid() && pos >= old(pos) && Left() == SkipLine(old(Left()))
    {
      while pos < |src| && src[pos] != '\n'
        invariant Valid() && pos >= old(pos) && SkipLine(Left()) == SkipLine(old(Left()))
        decreases |src| - pos
      {
        Drops(src, pos, 1);
        Skip(1);
      }
      Drops(src, pos, 0);
    }

    /** All white space and comments. */
    method Space() returns (ok: bool)
      requires Valid()
      modifies this
      ensures Valid() && pos >= old(pos)
      ensures var r := SkipSpace(old(Left()));
        ok == r.Some? && Left() == if ok then r.value else ""
    {
      while true
        invariant Valid() && pos >= old(pos) && SkipSpace(Left()) == SkipSpace(old(Left()))
        decreases |src| - pos
      {
        var closed := Gap();
        if !closed {
          return false;
        }
        if Peek('\n') {
          SkipNewline();
        } else if Looking('/', '/') {
          Skip(2);
          RestOfLine();
        } else {
          return true;
        }
      }
    }

    // ----- scalars -----

    method Ident() returns (r: Res<string>)
      requires Valid()
      modifies this
      ensures Valid() && pos >= old(pos) && r == ParseIdent(old(Left())) && Left() == r.rest
    {
      Same(src, pos);
      if !IdentStart(Next()) {
        return Fail(NameExpected, Rest());
      }
      var start := pos;
      Skip(1);
      IdentChars();
      Slices(src, start, pos);
      r := Ok(src[start..pos], Rest());
    }

    method IdentChars()
      requires Valid()
      modifies this
      ensures Valid() && pos >= old(pos) && Left() == SkipIdent(old(Left()))
    {
      while IdentChar(Next())
        invariant Valid() && pos >= old(pos) && SkipIdent(Left()) == SkipIdent(old(Left()))
        decreases |src| - pos
      {
        Same(src, pos);
        Skip(1);
      }
      Same(src, pos);
    }

    /** The next character as a string, empty at the end. */
    function Next(): string
      reads this
    {
      if pos < |src| then [src[pos]] else ""
    }

    function Rest(): string
      requires pos <= |src|
      reads this
    {
      src[pos..]
    }

    /** The escape after a backslash: what it stands for, or why it is none. */
    method Escape() returns (c: Option<char>, why: Problem)
      requires Valid() && Peek('\\')
      modifies this
      ensures Valid() && pos >= old(pos)
      ensures c.Some? ==> pos > old(pos) && StringBody(old(Left())) == Prepend(c.value, StringBody(Left()))
      ensures c.None? ==> Left() == old(Left()) && StringBody(Left()) == Fail(why, Left())
    {
      Same(src, pos);
      c, why := None, UnclosedString;
      if pos + 1 < |src| && src[pos + 1] != '\n' {
        c, why := Unescaped(src[pos + 1]), UnknownEscape;
        if c.Some? {
          Skip(2);
        }
      }
    }

    /** One character of a string, or its end, or the problem. */
    method StringStep() returns (c: Option<char>, end: Res<string>)
      requires Valid()
      modifies this
      ensures Valid() && pos >= old(pos)
      ensures c.Some? ==> pos > old(pos) && StringBody(old(Left())) == Prepend(c.value, StringBody(Left()))
      ensures c.None? ==> StringBody(old(Left())) == end && Left() == end.rest && (end.Ok? ==> end.value == "")
    {
      Same(src, pos);
      c, end := None, Fail(UnclosedString, Rest());
      if pos >= |src| || src[pos] == '\n' {
      } else if src[pos] == '"' {
        Skip(1);
        end := Ok("", Rest());
      } else if src[pos] == '\\' {
        var why;
        c, why := Escape();
        end := Fail(why, Rest());
      } else {
        c := Some(src[pos]);
        Skip(1);
      }
    }

    method String() returns (r: Res<string>)
      requires Valid() && Peek('"')
      modifies this
      ensures Valid() && pos > old(pos) && r == ParseString(old(Left())) && Left() == r.rest
    {
      Skip(1);
      var out := "";
      ghost var body := Left();
      GluedNone(StringBody(body));
      hide StringBody;
      while true
        invariant Valid() && pos > old(pos) && Glued(out, StringBody(Left())) == StringBody(body)
        decreases |src| - pos
      {
        var c, end := StringStep();
        if c.None? {
          return Glued(out, end);
        }
        GluedOne(out, c.value, StringBody(Left()));
        out := out + [c.value];
      }
    }

    method Digits()
      requires Valid()
      modifies this
      ensures Valid() && pos >= old(pos) && Left() == SkipDigits(old(Left()))
    {
      while pos < |src| && '0' <= src[pos] <= '9'
        invariant Valid() && pos >= old(pos) && SkipDigits(Left()) == SkipDigits(old(Left()))
        decreases |src| - pos
      {
        Same(src, pos);
        Skip(1);
      }
      Same(src, pos);
    }

    predicate AtDigit()
      reads this
      ensures pos <= |src| ==> AtDigit() == Digit(Left())
    {
      pos < |src| && '0' <= src[pos] <= '9'
    }

    method Exponent()
      requires Valid()
      modifies this
      ensures Valid() && pos >= old(pos) && Left() == SkipExponent(old(Left()))
    {
      if Peek('e') || Peek('E') {
        var save := pos;
        Skip(1);
        if Peek('+') || Peek('-') {
          Skip(1);
        }
        if AtDigit() {
          Digits();
        } else {
          pos := save;
        }
      }
    }

    /** The end of a number that began at `start`: it must stop at a delimiter. */
    method NumberTail(start: nat) returns (r: Res<string>)
      requires Valid() && start < pos
      modifies this
      ensures Valid() && pos >= old(pos)
      ensures r == NumberEnd(src[start..], old(Left())) && Left() == r.rest
    {
      Exponent();
      AtDelimiter(src, pos);
      if pos < |src| && src[pos] !in " \t\r\n;{}/=" {
        return Fail(MalformedNumber, Rest());
      }
      Slices(src, start, pos);
      r := Ok(src[start..pos], Rest());
    }

    method Number() returns (r: Res<string>)
      requires Valid() && NumberStart(Left())
      modifies this
      ensures Valid() && pos > old(pos) && r == ParseNumber(old(Left())) && Left() == r.rest
    {
      var start := pos;
      Signed(src, pos);
      if Peek('-') {
        Skip(1);
      }
      hide NumberEnd;
      ghost var whole := Left();
      Digits();
      DigitsMove(whole);
      if Peek('.') {
        Skip(1);
        if !AtDigit() {
          return Fail(MalformedNumber, Rest());
        }
        Digits();
      }
      r := NumberTail(start);
    }

    /** The source continues with the word. */
    predicate Word(word: string)
      reads this
      ensures pos <= |src| ==> Word(word) == Starts(Left(), word)
    {
      pos + |word| <= |src| && src[pos..pos + |word|] == word
    }

    method Keyword() returns (r: Res<Value>)
      requires Valid()
      modifies this
      ensures Valid() && pos >= old(pos) && (r.Ok? ==> pos > old(pos))
      ensures r == ParseKeyword(old(Left())) && Left() == r.rest
    {
      if Word("#true") {
        r := KeywordEnd(5, Bool(true));
      } else if Word("#false") {
        r := KeywordEnd(6, Bool(false));
      } else if Word("#null") {
        r := KeywordEnd(5, Null);
      } else {
        r := Fail(UnsupportedHash, Rest());
      }
    }

    method KeywordEnd(k: nat, v: Value) returns (r: Res<Value>)
      requires Valid() && 0 < k && pos + k <= |src| && forall i :: pos <= i < pos + k ==> src[i] != '\n'
      modifies this
      ensures Valid() && pos >= old(pos) && (r.Ok? ==> pos > old(pos)) && Left() == r.rest
      ensures r == if Delimited(old(Left())[k..]) then Ok(v, old(Left())[k..]) else Fail(MalformedKeyword, old(Left()))
    {
      Drops(src, pos, k);
      AtDelimiter(src, pos + k);
      if pos + k < |src| && src[pos + k] !in " \t\r\n;{}/=" {
        return Fail(MalformedKeyword, Rest());
      }
      Skip(k);
      r := Ok(v, Rest());
    }

    predicate AtNumber()
      reads this
      ensures pos <= |src| ==> AtNumber() == NumberStart(Left())
    {
      Signed(src, pos);
      AtDigit() || (pos + 1 < |src| && src[pos] == '-' && '0' <= src[pos + 1] <= '9')
    }

    method ReadValue() returns (r: Res<Value>)
      requires Valid()
      modifies this
      ensures Valid() && pos >= old(pos) && r == ParseValue(old(Left())) && Left() == r.rest
    {
      hide ParseString, ParseKeyword, ParseNumber, ParseIdent, NumberStart;
      if Peek('"') {
        var s := String();
        r := AsStr(s);
      } else if Peek('#') {
        r := Keyword();
      } else if AtNumber() {
        var n := Number();
        r := AsNum(n);
      } else if IdentStart(Next()) {
        var w := Ident();
        r := AsStr(w);
      } else {
        r := Fail(ValueExpected, Rest());
      }
    }

    // ----- nodes -----

    /** One argument or property of a node. */
    method Entry(n: Node) returns (r: Res<Node>)
      requires Valid()
      modifies this
      ensures Valid() && pos >= old(pos) && r == ParseEntry(old(Left()), n) && Left() == r.rest
    {
      hide ParseString, ParseValue, ParseNumber, NumberStart, Put, SkipInline;
      if Peek('"') {
        var s := String();
        r := Push(n, AsStr(s));
      } else if Peek('#') {
        var v := ReadValue();
        r := Push(n, v);
      } else if AtNumber() {
        var d := Number();
        r := Push(n, AsNum(d));
      } else if !IdentStart(Next()) {
        r := Fail(UnexpectedCharacter, Rest());
      } else {
        r := Named(n);
      }
    }

    /** A word, and its value when an equals sign follows. */
    method Named(n: Node) returns (r: Res<Node>)
      requires Valid() && IdentStart(Next())
      modifies this
      ensures Valid() && pos >= old(pos) && Left() == r.rest
      ensures var w := ParseIdent(old(Left())); var t := SkipInline(w.rest);
        r == if Starts(t, "=") then PutValue(n, w.value, ParseValue(SkipInline(t[1..])))
             else Ok(n.(args := n.args + [Str(w.value)]), t)
    {
      hide ParseValue, Put, SkipInline;
      var w := Ident();
      Inline();
      if Peek('=') {
        Skip(1);
        Inline();
        var v := ReadValue();
        r := PutValue(n, w.value, v);
      } else {
        r := Ok(n.(args := n.args + [Str(w.value)]), Rest());
      }
    }

    /** Where the node's entries stop. */
    predicate AtNodeEnd()
      reads this
      ensures pos <= |src| ==>
        AtNodeEnd() == (Left() == "" || Left()[0] == '\n' || Starts(Left(), "//") || Left()[0] == '}')
    {
      assert pos < |src| ==> Left()[0] == src[pos];
      pos >= |src| || src[pos] == '\n' || Looking('/', '/') || src[pos] == '}'
    }

    method ReadNode() returns (r: Res<Node>)
      requires Valid()
      modifies this
      ensures Valid() && pos >= old(pos) && r == ParseNode(old(Left())) && Left() == r.rest
      decreases |src| - pos, 3
    {
      ghost var was := Left();
      var w := Ident();
      if w.Fail? {
        return Fail(w.why, w.rest);
      }
      Shorter(src, old(pos), pos);
      r := Entries(Node(w.value, [], map[], false, []));
    }

    method Entries(start: Node) returns (r: Res<Node>)
      requires Valid()
      modifies this
      ensures Valid() && pos >= old(pos) && r == NodeRest(old(Left()), start) && Left() == r.rest
      decreases |src| - pos, 2
    {
      var n := start;
      while true
        invariant Valid() && pos >= old(pos) && NodeRest(Left(), n) == NodeRest(old(Left()), start)
        decreases |src| - pos
      {
        var more, end := NodeStep(n);
        if more.None? {
          return end;
        }
        n := more.value;
      }
    }

    /** One turn of a node: the node so far, or its end. */
    method NodeStep(n: Node) returns (more: Option<Node>, end: Res<Node>)
      requires Valid()
      modifies this
      ensures Valid() && pos >= old(pos)
      ensures more.Some? ==> pos > old(pos) && NodeRest(old(Left()), n) == NodeRest(Left(), more.value)
      ensures more.None? ==> NodeRest(old(Left()), n) == end && Left() == end.rest
      decreases |src| - pos, 1
    {
      more, end := None, Fail(UnclosedComment, "");
      var closed := Gap();
      if !closed {
        return;
      }
      if AtNodeEnd() {
        end := Ok(n, Rest());
      } else if Peek(';') {
        Skip(1);
        end := Ok(n, Rest());
      } else if Peek('{') {
        more, end := Block(n);
      } else {
        ghost var here := pos;
        var e := Entry(n);
        end := e;
        if e.Ok? {
          Shorter(src, here, pos);
          more := Some(e.value);
        }
      }
    }

    /** A block of children replaces what the node had. */
    method Block(n: Node) returns (more: Option<Node>, end: Res<Node>)
      requires Valid() && Peek('{')
      modifies this
      ensures Valid() && pos >= old(pos)
      ensures var k := ParseChildren(old(Left())[1..]);
        if k.Fail? then more == None && end == Fail(k.why, k.rest) && Left() == end.rest
        else if Starts(k.rest, "}") then more == Some(n.(children := k.value)) && pos > old(pos) && Left() == k.rest[1..]
        else more == None && end == Fail(UnclosedBrace, k.rest) && Left() == end.rest
      decreases |src| - pos, 0
    {
      hide ParseChildren;
      more := None;
      Skip(1);
      var k := Children();
      if k.Fail? {
        end := Fail(k.why, k.rest);
      } else if !Peek('}') {
        end := Fail(UnclosedBrace, k.rest);
      } else {
        Skip(1);
        more, end := Some(n.(children := k.value)), Ok(n, Rest());
      }
    }

    method Children() returns (r: Res<seq<Node>>)
      requires Valid()
      modifies this
      ensures Valid() && pos >= old(pos) && r == ParseChildren(old(Left())) && Left() == r.rest
      decreases |src| - pos, 5
    {
      var nodes: seq<Node> := [];
      ListedNone(ParseChildren(Left()));
      while true
        invariant Valid() && pos >= old(pos)
        invariant Listed(nodes, ParseChildren(Left())) == ParseChildren(old(Left()))
        decreases |src| - pos
      {
        var more, end := ChildStep();
        if more.None? {
          assert nodes + [] == nodes;
          return Listed(nodes, end);
        }
        ListedOne(nodes, more.value, ParseChildren(Left()));
        nodes := nodes + [more.value];
      }
    }

    /** The next child, or the end of the list. */
    method ChildStep() returns (more: Option<Node>, end: Res<seq<Node>>)
      requires Valid()
      modifies this
      ensures Valid() && pos >= old(pos)
      ensures more.Some? ==>
        pos > old(pos) && ParseChildren(old(Left())) == Listed([more.value], ParseChildren(Left()))
      ensures more.None? ==>
        ParseChildren(old(Left())) == end && Left() == end.rest && (end.Ok? ==> end.value == [])
      decreases |src| - pos, 4
    {
      more, end := None, Fail(UnclosedComment, "");
      var closed := Space();
      if !closed {
        return;
      }
      Same(src, pos);
      if pos >= |src| || src[pos] == '}' {
        end := Ok([], Rest());
        return;
      }
      ghost var here := pos;
      var n := ReadNode();
      if n.Fail? {
        end := Fail(n.why, n.rest);
      } else {
        Shorter(src, here, pos);
        more := Some(n.value);
      }
    }

    /** A whole document. */
    method Document() returns (r: Res<seq<Node>>)
      requires Valid()
      modifies this
      ensures Valid() && r == ParseKdl(old(Left())) && Left() == r.rest
      ensures r.Ok? ==> pos == |src|
    {
      r := Children();
      Same(src, pos);
      if r.Ok? && pos < |src| {
        r := Fail(StrayBrace, Rest());
      }
    }
  }

  /** The parser's entry: the nodes of the whole source, or the problem and the line it is on. */
  method Parse(source: string) returns (r: Res<seq<Node>>, line: nat)
    ensures r == ParseKdl(source)
    ensures |r.rest| <= |source| && line == LineAt(source, |source| - |r.rest|)
    ensures r.Ok? ==> r.rest == ""
  {
    var c := new Cursor(source);
    r := c.Document();
    line := c.line;
    assert |c.Left()| == |source| - c.pos;
  }

  lemma SameLine(src: string, pos: nat, k: nat)
    requires pos + k <= |src| && forall i :: pos <= i < pos + k ==> src[i] != '\n'
    ensures LineAt(src, pos + k) == LineAt(src, pos)
    decreases k
  {
    if k > 0 {
      SameLine(src, pos, k - 1);
    }
  }

  lemma TwoAhead(src: string, pos: nat, a: char, b: char)
    ensures pos <= |src| ==>
      (Starts(src[pos..], [a, b]) <==> pos + 1 < |src| && src[pos] == a && src[pos + 1] == b)
  {
    if pos + 1 < |src| {
      assert src[pos..][..2] == [src[pos], src[pos + 1]];
    }
  }

  lemma Same(src: string, pos: nat)
    requires pos <= |src|
    ensures src[pos..] == "" <==> pos == |src|
    ensures pos < |src| ==> src[pos..][0] == src[pos] && src[pos..][1..] == src[pos + 1..]
    ensures pos + 1 < |src| ==> src[pos..][1] == src[pos + 1] && src[pos..][2..] == src[pos + 2..]
  {
  }

  lemma Slices(src: string, start: nat, pos: nat)
    requires start <= pos <= |src|
    ensures Between(src[start..], src[pos..]) == src[start..pos]
  {
  }

  /** The characters read so far before what is still to be read. */
  function Glued(out: string, r: Res<string>): Res<string> {
    if r.Ok? then Ok(out + r.value, r.rest) else r
  }

  lemma GluedNone(r: Res<string>)
    ensures Glued("", r) == r
  {
    if r.Ok? {
      assert "" + r.value == r.value;
    }
  }

  lemma GluedOne(out: string, c: char, r: Res<string>)
    ensures Glued(out + [c], r) == Glued(out, Prepend(c, r))
  {
    if r.Ok? {
      assert (out + [c]) + r.value == out + ([c] + r.value);
    }
  }

  lemma AtDelimiter(src: string, pos: nat)
    requires pos <= |src|
    ensures Delimited(src[pos..]) <==> pos == |src| || src[pos] in " \t\r\n;{}/="
  {
  }

  lemma Signed(src: string, pos: nat)
    ensures pos <= |src| ==>
      (NumberStart(src[pos..]) <==>
         (pos < |src| && '0' <= src[pos] <= '9')
         || (pos + 1 < |src| && src[pos] == '-' && '0' <= src[pos + 1] <= '9'))
  {
    if pos < |src| {
      var t := src[pos..];
      assert t[..1] == [src[pos]];
      assert t[1..] == src[pos + 1..];
    }
  }

  lemma DigitsMove(s: string)
    ensures Digit(s) ==> |SkipDigits(s)| < |s|
  {
  }

  lemma Shorter(src: string, a: nat, b: nat)
    requires a <= |src| && b <= |src| && |src[b..]| < |src[a..]|
    ensures a < b
  {
  }

  function Listed(nodes: seq<Node>, r: Res<seq<Node>>): Res<seq<Node>> {
    if r.Ok? then Ok(nodes + r.value, r.rest) else r
  }

  lemma ListedNone(r: Res<seq<Node>>)
    ensures Listed([], r) == r
  {
    if r.Ok? {
      assert [] + r.value == r.value;
    }
  }

  lemma ListedOne(nodes: seq<Node>, n: Node, r: Res<seq<Node>>)
    ensures Listed(nodes + [n], r) == Listed(nodes, Listed([n], r))
  {
    if r.Ok? {
      assert (nodes + [n]) + r.value == nodes + ([n] + r.value);
    }
  }
}
