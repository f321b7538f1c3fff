/** The doctor report (app/src/doctor.ts) written as KDL, and read back by the engine's own parser. */
module Doctor {
  import opened Common
  import opened Kdl
  import T = KdlText

  /** An absent remedy is the empty string. */
  datatype Check = Check(code: string, status: string, summary: string, remedy: string)

  datatype Report = Report(engineVersion: string, capturedAt: nat, ok: bool, healthy: Option<bool>, checks: seq<Check>)

  // ----- values -----

  predicate Unprintable(c: char) {
    c < '\t' || c == '\U{b}' || ('\U{e}' <= c <= '\U{1f}') || c == '\U{7f}'
  }

  /** The control characters of ASCII but for tab, newline, form feed and return. */
  lemma UnprintableAre(c: char)
    ensures Unprintable(c) <==> (c as int <= 31 && c as int !in {9, 10, 12, 13}) || c as int == 127
  {
  }

  /** Control characters other than tab, newline, form feed and return become U+FFFD. */
  function Sanitize(s: string): (r: string)
    ensures |r| == |s| && forall i :: 0 <= i < |s| ==> r[i] == if Unprintable(s[i]) then '\U{fffd}' else s[i]
    ensures forall i :: 0 <= i < |r| ==> !Unprintable(r[i])
  {
    seq(|s|, i requires 0 <= i < |s| => if Unprintable(s[i]) then '\U{fffd}' else s[i])
  }

  /** `JSON.stringify` of one sanitized character. */
  function EscapeChar(c: char): string {
    if c == '"' then "\\\""
    else if c == '\\' then "\\\\"
    else if c == '\n' then "\\n"
    else if c == '\t' then "\\t"
    else if c == '\r' then "\\r"
    else if c == '\U{c}' then "\\f"
    else [c]
  }

  /** A quoted value and the text after it. */
  function Escaped(s: string, rest: string): string
    decreases |s|
  {
    if s == "" then "\"" + rest else EscapeChar(s[0]) + Escaped(s[1..], rest)
  }

  function Quoted(s: string, rest: string): string {
    "\"" + Escaped(Sanitize(s), rest)
  }

  function Decimal(n: nat): (r: string)
    ensures r != "" && forall c <- r :: '0' <= c <= '9'
  {
    if n < 10 then ['0' + n as char] else Decimal(n / 10) + ['0' + (n % 10) as char]
  }

  /** What a string of digits denotes. */
  function NatOf(s: string): nat
    decreases |s|
  {
    if s == "" then 0
    else NatOf(s[..|s| - 1]) * 10 + (if '0' <= s[|s| - 1] <= '9' then (s[|s| - 1] - '0') as int else 0)
  }

  lemma {:induction false} DecimalDenotes(n: nat)
    ensures NatOf(Decimal(n)) == n
  {
    if n < 10 {
      assert Decimal(n)[..0] == "";
    } else {
      DecimalDenotes(n / 10);
      assert Decimal(n)[..|Decimal(n)| - 1] == Decimal(n / 10);
    }
  }

  // ----- the text -----

  /** A property; `value` goes on to the end of the text. */
  function Prop(name: string, value: string): string {
    " " + (name + ("=" + value))
  }

  function Remedy(c: Check, rest: string): string {
    if c.remedy == "" then rest else Prop("remedy", Quoted(c.remedy, rest))
  }

  /** A check after its name. */
  function Fields(c: Check, rest: string): string {
    " " + Quoted(c.code, Prop("status", Quoted(c.status, Prop("summary", Quoted(c.summary, Remedy(c, rest))))))
  }

  function Line(c: Check, rest: string): string {
    "  " + ("check" + Fields(c, rest))
  }

  /** The lines joined by newlines, and the text after them. */
  function Lines(checks: seq<Check>, rest: string): string
    decreases |checks|
  {
    if checks == [] then rest
    else if |checks| == 1 then Line(checks[0], rest)
    else Line(checks[0], "\n" + Lines(checks[1..], rest))
  }

  function Health(r: Report): string {
    if r.healthy.None? then "unknown" else if r.healthy.value then "pass" else "fail"
  }

  function Body(checks: seq<Check>): string {
    " {" + ("\n" + Lines(checks, "\n}\n"))
  }

  /** The head from the capture time on. */
  function Taken(r: Report): string {
    Prop("captured-at", Decimal(r.capturedAt) + Prop("ok", (if r.ok then "#true" else "#false") +
      Prop("health", Quoted(Health(r), Body(r.checks)))))
  }

  function DoctorKdl(r: Report): string {
    "zeolite-doctor" + Prop("version", "1" + Prop("engine", Quoted(r.engineVersion, Taken(r))))
  }

  // ----- what the parser makes of it -----

  function CheckNode(c: Check): Node {
    var props := map["status" := Str(Sanitize(c.status)), "summary" := Str(Sanitize(c.summary))];
    Node("check", [Str(Sanitize(c.code))],
         if c.remedy == "" then props else props["remedy" := Str(Sanitize(c.remedy))], false, [])
  }

  function CheckNodes(checks: seq<Check>): seq<Node>
    decreases |checks|
  {
    if checks == [] then [] else [CheckNode(checks[0])] + CheckNodes(checks[1..])
  }

  function ReportNode(r: Report): Node {
    Node("zeolite-doctor", [],
         map["version" := Num("1"), "engine" := Str(Sanitize(r.engineVersion)),
             "captured-at" := Num(Decimal(r.capturedAt)), "ok" := Bool(r.ok), "health" := Str(Health(r))],
         false, CheckNodes(r.checks))
  }

  // ----- reading values back -----

  lemma CharReads(c: char, more: string, v: string, rest: string)
    requires !Unprintable(c) && StringBody(more) == Ok(v, rest)
    ensures StringBody(EscapeChar(c) + more) == Ok([c] + v, rest)
  {
    var e := EscapeChar(c);
    var t := e + more;
    assert t[0] == e[0] && t[|e|..] == more;
    if |e| == 2 {
      assert t[1] == e[1];
      assert Unescaped(e[1]) == Some(c);
    }
  }

  lemma {:induction false} EscapedReads(s: string, rest: string)
    requires forall i :: 0 <= i < |s| ==> !Unprintable(s[i])
    ensures StringBody(Escaped(s, rest)) == Ok(s, rest)
    decreases |s|
  {
    if s == "" {
      assert ("\"" + rest)[1..] == rest;
    } else {
      hide StringBody, EscapeChar;
      EscapedReads(s[1..], rest);
      CharReads(s[0], Escaped(s[1..], rest), s[1..], rest);
      assert [s[0]] + s[1..] == s;
    }
  }

  lemma QuotedReads(s: string, rest: string)
    ensures ParseValue(Quoted(s, rest)) == Ok(Str(Sanitize(s)), rest) == AsStr(ParseString(Quoted(s, rest)))
    ensures Quoted(s, rest) != "" && Starts(Quoted(s, rest), "\"")
  {
    var q := Quoted(s, rest);
    assert q[..1] == "\"" && q[1..] == Escaped(Sanitize(s), rest);
    EscapedReads(Sanitize(s), rest);
  }

  lemma NumberReads(d: string, rest: string)
    requires d != "" && (forall c <- d :: '0' <= c <= '9') && rest != "" && rest[0] == ' '
    ensures ParseValue(d + rest) == Ok(Num(d), rest)
  {
    var s := d + rest;
    assert s[0] == d[0] && d[0] in d;
    T.DigitsRead(d, rest);
    assert rest[..1] == " ";
    assert Between(s, rest) == d;
    hide SkipDigits;
  }

  lemma KeywordReads(ok: bool, rest: string)
    requires rest != "" && rest[0] == ' '
    ensures ParseValue((if ok then "#true" else "#false") + rest) == Ok(Bool(ok), rest)
  {
    if ok {
      var s := "#true" + rest;
      assert s[..1] == "#" && s[0] == '#' && s[5..] == rest && s[..5] == "#true";
    } else {
      var s := "#false" + rest;
      assert s[..1] == "#" && s[0] == '#' && s[6..] == rest && s[..6] == "#false";
      assert s[1] == 'f' && "#true"[1] == 't';
    }
  }

  // ----- reading properties back -----

  predicate Name(w: string) {
    w != "" && 'a' <= w[0] <= 'z' && forall c <- w :: IdentChar([c])
  }

  /** A blank before a name is all there is to skip. */
  lemma GapReads(s: string)
    requires s != "" && !Blank(s) && s[0] != '/'
    ensures SkipGap(" " + s) == Some(s) == SkipGap(s)
  {
    assert (" " + s)[1..] == s;
    assert SkipInline(s) == s && SkipInline(" " + s) == s;
  }

  lemma EntryReads(name: string, value: string, v: Value, rest: string, n: Node)
    requires Name(name) && name != PROTO && value != "" && !Blank(value)
    requires ParseValue(value) == Ok(v, rest)
    ensures ParseEntry(name + ("=" + value), n) == Ok(n.(props := n.props[name := v]), rest)
  {
    var t := "=" + value;
    var s := name + t;
    assert t[..1] == "=" && t[1..] == value && s[0] == name[0];
    T.IdentReads(name, t);
    assert SkipInline(t) == t && SkipInline(value) == value;
    hide ParseIdent, ParseValue, SkipInline;
    assert !Starts(s, "\"") && !Starts(s, "#") && !NumberStart(s) && IdentStart(s);
  }

  /** One property is read, whatever follows. */
  lemma PropReads(name: string, value: string, v: Value, rest: string, n: Node)
    requires Name(name) && name != PROTO && value != "" && !Blank(value)
    requires ParseValue(value) == Ok(v, rest)
    ensures NodeRest(Prop(name, value), n) == NodeRest(rest, n.(props := n.props[name := v]))
  {
    var s := name + ("=" + value);
    assert s[0] == name[0];
    GapReads(s);
    EntryReads(name, value, v, rest, n);
    hide ParseEntry, SkipGap;
    assert !Starts(s, "//");
  }

  /** One quoted argument is read, whatever follows. */
  lemma ArgReads(text: string, rest: string, n: Node)
    ensures NodeRest(" " + Quoted(text, rest), n) == NodeRest(rest, n.(args := n.args + [Str(Sanitize(text))]))
  {
    var q := Quoted(text, rest);
    QuotedReads(text, rest);
    GapReads(q);
    hide ParseString, ParseValue, SkipGap, Quoted, Sanitize;
    assert q[0] == '"' && !Starts(q, "//");
  }

  lemma LineEnds(rest: string, n: Node)
    requires rest != "" && rest[0] == '\n'
    ensures NodeRest(rest, n) == Ok(n, rest)
  {
    assert SkipInline(rest) == rest;
  }

  // ----- reading a check back -----

  /** A quoted property is read, whatever follows. */
  lemma TextReads(name: string, text: string, rest: string, n: Node)
    requires Name(name) && name != PROTO
    ensures NodeRest(Prop(name, Quoted(text, rest)), n)
            == NodeRest(rest, n.(props := n.props[name := Str(Sanitize(text))]))
  {
    QuotedReads(text, rest);
    hide NodeRest, ParseValue, Sanitize, Name, Prop, Quoted;
    PropReads(name, Quoted(text, rest), Str(Sanitize(text)), rest, n);
  }

  lemma RemedyReads(c: Check, rest: string, n: Node)
    requires rest != "" && rest[0] == '\n'
    ensures NodeRest(Remedy(c, rest), n)
            == Ok(if c.remedy == "" then n else n.(props := n.props["remedy" := Str(Sanitize(c.remedy))]), rest)
  {
    hide NodeRest, Sanitize, Quoted, Prop;
    if c.remedy == "" {
      LineEnds(rest, n);
    } else {
      TextReads("remedy", c.remedy, rest, n);
      LineEnds(rest, n.(props := n.props["remedy" := Str(Sanitize(c.remedy))]));
    }
  }

  lemma FieldsRead(c: Check, rest: string, n: Node)
    requires rest != "" && rest[0] == '\n'
    ensures NodeRest(Fields(c, rest), n)
            == NodeRest(Remedy(c, rest), n.(args := n.args + [Str(Sanitize(c.code))],
                 props := n.props["status" := Str(Sanitize(c.status))]["summary" := Str(Sanitize(c.summary))]))
  {
    var d := Remedy(c, rest);
    var e := Prop("summary", Quoted(c.summary, d));
    var f := Prop("status", Quoted(c.status, e));
    hide NodeRest, Sanitize, Quoted, Prop, Remedy;
    var n1 := n.(args := n.args + [Str(Sanitize(c.code))]);
    var n2 := n1.(props := n1.props["status" := Str(Sanitize(c.status))]);
    ArgReads(c.code, f, n);
    TextReads("status", c.status, e, n1);
    TextReads("summary", c.summary, d, n2);
  }

  lemma CheckReads(c: Check, rest: string)
    requires rest != "" && rest[0] == '\n'
    ensures ParseNode("check" + Fields(c, rest))
            == Ok(CheckNode(c), rest)
  {
    var g := Fields(c, rest);
    assert !IdentChar(g);
    T.IdentReads("check", g);
    hide NodeRest, Sanitize, Quoted, Prop, Remedy, ParseIdent;
    var n0 := Node("check", [], map[], false, []);
    var args := [Str(Sanitize(c.code))];
    var props := map["status" := Str(Sanitize(c.status)), "summary" := Str(Sanitize(c.summary))];
    FieldsRead(c, rest, n0);
    assert [] + args == args;
    assert n0.props["status" := Str(Sanitize(c.status))]["summary" := Str(Sanitize(c.summary))] == props;
    RemedyReads(c, rest, Node("check", args, props, false, []));
  }

  // ----- reading the list of checks back -----

  lemma IndentReads(s: string)
    requires s != "" && 'a' <= s[0] <= 'z'
    ensures SkipSpace("\n" + ("  " + s)) == Some(s)
  {
    var t := "  " + s;
    var u := "\n" + t;
    assert u[..1] == "\n" && u[1..] == t && t[1..] == " " + s && (" " + s)[1..] == s;
    assert SkipInline(s) == s && SkipInline(" " + s) == s && SkipInline(t) == s && SkipInline(u) == u;
    hide SkipInline;
    assert SkipGap(t) == Some(s) && SkipGap(u) == Some(u);
    assert SkipSpace(t) == Some(s);
  }

  lemma NoChecksRead()
    ensures ParseChildren("\n" + "\n}\n") == Ok([], "}\n")
  {
    var u := "\n\n}\n";
    assert u[..1] == "\n" && u[1..] == "\n}\n" && u[1..][..1] == "\n" && u[1..][1..] == "}\n";
    assert SkipInline(u) == u && SkipInline(u[1..]) == u[1..] && SkipInline("}\n") == "}\n";
    hide SkipInline;
    assert SkipGap(u) == Some(u) && SkipGap(u[1..]) == Some(u[1..]) && SkipGap("}\n") == Some("}\n");
    hide SkipGap;
    assert SkipSpace("}\n") == Some("}\n");
    assert SkipSpace(u[1..]) == Some("}\n");
    assert SkipSpace(u) == Some("}\n");
  }

  lemma OneMoreReads(c: Check, rest: string)
    requires rest != "" && rest[0] == '\n'
    ensures var k := ParseChildren(rest);
      ParseChildren("\n" + Line(c, rest)) ==
        if k.Ok? then Ok([CheckNode(c)] + k.value, k.rest) else k
  {
    var s := "check" + Fields(c, rest);
    assert s[0] == 'c';
    IndentReads(s);
    CheckReads(c, rest);
    hide SkipSpace, ParseNode, Quoted, Prop, Remedy, CheckNode;
  }

  lemma {:induction false} LinesRead(checks: seq<Check>)
    ensures ParseChildren("\n" + Lines(checks, "\n}\n")) == Ok(CheckNodes(checks), "}\n")
    decreases |checks|
  {
    if checks == [] {
      NoChecksRead();
    } else if |checks| == 1 {
      NoChecksRead();
      assert "\n" + "\n}\n" == "\n\n}\n";
      LastReads(checks[0]);
      assert checks[1..] == [] && [CheckNode(checks[0])] + [] == [CheckNode(checks[0])];
    } else {
      LinesRead(checks[1..]);
      hide ParseChildren, Line, CheckNode;
      OneMoreReads(checks[0], "\n" + Lines(checks[1..], "\n}\n"));
    }
  }

  lemma LastReads(c: Check)
    ensures ParseChildren("\n" + Line(c, "\n}\n")) == Ok([CheckNode(c)], "}\n")
  {
    var u := "\n}\n";
    assert u[..1] == "\n" && u[1..] == "}\n";
    assert SkipInline(u) == u && SkipInline("}\n") == "}\n";
    assert SkipGap(u) == Some(u) && SkipGap("}\n") == Some("}\n");
    assert SkipSpace("}\n") == Some("}\n") && SkipSpace(u) == Some("}\n");
    assert ParseChildren(u) == Ok([], "}\n");
    OneMoreReads(c, u);
    hide *;
    assert [CheckNode(c)] + [] == [CheckNode(c)];
  }

  // ----- the whole report -----

  lemma BodyReads(checks: seq<Check>, n: Node)
    ensures NodeRest(Body(checks), n) == Ok(n.(children := CheckNodes(checks)), "\n")
  {
    var inner := "\n" + Lines(checks, "\n}\n");
    var s := "{" + inner;
    assert Body(checks) == " " + s;
    hide ParseChildren, SkipGap, Lines, CheckNodes, ParseEntry;
    assert s[0] == '{' && s[1..] == inner;
    GapReads(s);
    LinesRead(checks);
    assert "}\n"[..1] == "}" && "}\n"[1..] == "\n";
    LineEnds("\n", n.(children := CheckNodes(checks)));
    assert !Starts(s, "//");
  }

  /** A property whose value is a bare number or keyword is read when a blank follows. */
  lemma VersionReads(rest: string, n: Node)
    requires rest != "" && rest[0] == ' '
    ensures NodeRest(Prop("version", "1" + rest), n) == NodeRest(rest, n.(props := n.props["version" := Num("1")]))
  {
    NumberReads("1", rest);
    hide NodeRest, ParseValue, Prop;
    PropReads("version", "1" + rest, Num("1"), rest, n);
  }

  lemma CapturedReads(at: nat, rest: string, n: Node)
    requires rest != "" && rest[0] == ' '
    ensures NodeRest(Prop("captured-at", Decimal(at) + rest), n)
            == NodeRest(rest, n.(props := n.props["captured-at" := Num(Decimal(at))]))
  {
    DecimalReads(at, rest);
    CapturedIsAName();
    hide *;
    PropReads("captured-at", Decimal(at) + rest, Num(Decimal(at)), rest, n);
  }

  lemma DecimalReads(at: nat, rest: string)
    requires rest != "" && rest[0] == ' '
    ensures var v := Decimal(at) + rest;
      ParseValue(v) == Ok(Num(Decimal(at)), rest) && v != "" && !Blank(v)
  {
    var d := Decimal(at);
    hide Decimal;
    NumberReads(d, rest);
    hide ParseValue;
    assert (d + rest)[0] == d[0] && d[0] in d;
  }

  lemma CapturedIsAName()
    ensures Name("captured-at") && "captured-at" != PROTO
  {
  }

  lemma OkReads(ok: bool, rest: string, n: Node)
    requires rest != "" && rest[0] == ' '
    ensures NodeRest(Prop("ok", (if ok then "#true" else "#false") + rest), n)
            == NodeRest(rest, n.(props := n.props["ok" := Bool(ok)]))
  {
    KeywordReads(ok, rest);
    var v := (if ok then "#true" else "#false") + rest;
    assert v[0] == '#';
    hide NodeRest, ParseValue, Prop;
    PropReads("ok", v, Bool(ok), rest, n);
  }

  lemma PropBlank(name: string, value: string)
    ensures Prop(name, value) != "" && Prop(name, value)[0] == ' '
  {
  }

  lemma HealthIsClean(r: Report)
    ensures Sanitize(Health(r)) == Health(r)
  {
  }

  function TakenNode(r: Report, n: Node): Node {
    var props := n.props["captured-at" := Num(Decimal(r.capturedAt))]["ok" := Bool(r.ok)];
    n.(props := props["health" := Str(Health(r))], children := CheckNodes(r.checks))
  }

  lemma PropsRead(r: Report, n: Node)
    ensures NodeRest(Taken(r), n)
            == Ok(TakenNode(r, n), "\n")
  {
    var f := Prop("health", Quoted(Health(r), Body(r.checks)));
    var g := Prop("ok", (if r.ok then "#true" else "#false") + f);
    PropBlank("health", Quoted(Health(r), Body(r.checks)));
    PropBlank("ok", (if r.ok then "#true" else "#false") + f);
    assert Taken(r) == Prop("captured-at", Decimal(r.capturedAt) + g);
    var n3 := n.(props := n.props["captured-at" := Num(Decimal(r.capturedAt))]);
    var n4 := n3.(props := n3.props["ok" := Bool(r.ok)]);
    var n5 := n4.(props := n4.props["health" := Str(Health(r))]);
    assert TakenNode(r, n) == n5.(children := CheckNodes(r.checks));
    hide *;
    CapturedReads(r.capturedAt, g, n);
    OkReads(r.ok, f, n3);
    HealthReads(r, n4);
    BodyReads(r.checks, n5);
  }

  lemma HealthReads(r: Report, n: Node)
    ensures NodeRest(Prop("health", Quoted(Health(r), Body(r.checks))), n)
            == NodeRest(Body(r.checks), n.(props := n.props["health" := Str(Health(r))]))
  {
    HealthIsClean(r);
    hide NodeRest, Sanitize, Quoted, Prop, Body, Health;
    TextReads("health", Health(r), Body(r.checks), n);
  }

  lemma HeadReads(r: Report)
    ensures ParseNode(DoctorKdl(r)) == Ok(ReportNode(r), "\n")
  {
    var h := Taken(r);
    var i := Prop("engine", Quoted(r.engineVersion, h));
    var j := Prop("version", "1" + i);
    PropBlank("version", "1" + i);
    PropBlank("engine", Quoted(r.engineVersion, h));
    assert DoctorKdl(r) == "zeolite-doctor" + j;
    hide *;
    DoctorStarts(j);
    var n0 := Node("zeolite-doctor", [], map[], false, []);
    var n1 := n0.(props := n0.props["version" := Num("1")]);
    var n2 := n1.(props := n1.props["engine" := Str(Sanitize(r.engineVersion))]);
    VersionReads(i, n0);
    EngineReads(r.engineVersion, h, n1);
    PropsRead(r, n2);
    ReportNodeIs(r, n2);
  }

  lemma EngineReads(text: string, rest: string, n: Node)
    ensures NodeRest(Prop("engine", Quoted(text, rest)), n)
            == NodeRest(rest, n.(props := n.props["engine" := Str(Sanitize(text))]))
  {
    hide NodeRest, Sanitize, Quoted, Prop;
    TextReads("engine", text, rest, n);
  }

  lemma DoctorStarts(rest: string)
    requires rest != "" && rest[0] == ' '
    ensures ParseNode("zeolite-doctor" + rest) == NodeRest(rest, Node("zeolite-doctor", [], map[], false, []))
  {
    NodeStarts("zeolite-doctor", rest);
  }

  lemma NodeStarts(w: string, rest: string)
    requires Name(w) && !IdentChar(rest)
    ensures ParseNode(w + rest) == NodeRest(rest, Node(w, [], map[], false, []))
  {
    T.IdentReads(w, rest);
    hide NodeRest, ParseIdent, Name;
  }

  lemma ReportNodeIs(r: Report, n: Node)
    requires n.name == "zeolite-doctor" && n.args == [] && !n.bare
    requires n.props == map[]["version" := Num("1")]["engine" := Str(Sanitize(r.engineVersion))]
    ensures ReportNode(r) == TakenNode(r, n)
  {
    hide Sanitize, Decimal, Health, CheckNodes;
  }

  lemma NothingLeft()
    ensures ParseChildren("\n") == Ok([], "")
  {
    assert "\n"[1..] == "";
    assert SkipInline("\n") == "\n" && SkipInline("") == "";
  }

  /** The engine's parser reads the engine's report back: one node, with the sanitized fields as its
      properties and one child per check, in order. */
  lemma ReportReadsBack(r: Report)
    ensures ParseKdl(DoctorKdl(r)) == Ok([ReportNode(r)], "")
  {
    var s := DoctorKdl(r);
    assert s[0] == 'z';
    hide DoctorKdl;
    HeadReads(r);
    NothingLeft();
    assert SkipInline(s) == s;
    assert SkipSpace(s) == Some(s) by {
      assert SkipGap(s) == Some(s);
    }
    hide ParseNode, SkipSpace, ReportNode;
    assert [ReportNode(r)] + [] == [ReportNode(r)];
  }
}
