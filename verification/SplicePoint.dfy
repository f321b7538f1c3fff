/** Where the engine's script goes into a streamed head (app/src/pageload.ts): after the doctype, or at 0 once no
    doctype can follow, or nowhere yet. */
module SplicePoint {
  import opened Common
  import opened Strings

  const BOM: char := '\U{feff}'

  /** JavaScript's `\s`. */
  predicate Space(c: char) {
    || c == ' ' || ('\t' <= c <= '\r') || c == '\U{a0}' || c == '\U{1680}' || ('\U{2000}' <= c <= '\U{200a}')
    || c == '\U{2028}' || c == '\U{2029}' || c == '\U{202f}' || c == '\U{205f}' || c == '\U{3000}' || c == BOM
  }

  function SkipSpaces(head: string, i: nat): (j: nat)
    requires i <= |head|
    ensures i <= j <= |head| && (j < |head| ==> !Space(head[j])) && forall k :: i <= k < j ==> Space(head[k])
    decreases |head| - i
  {
    if i < |head| && Space(head[i]) then SkipSpaces(head, i + 1) else i
  }

  /** One turn of the hunt from i: inside something unclosed, past one comment or instruction, or at a stop. */
  datatype Turn = Unclosed | Past(to: nat) | Halt(at: nat)

  function TurnAt(head: string, i: nat): (t: Turn)
    requires i <= |head|
    ensures t.Past? ==> i < t.to <= |head|
    ensures t.Halt? ==> i <= t.at <= |head|
  {
    var j := SkipSpaces(head, i);
    if At(head, "<!--", j) then
      var end := Find(head, "-->", j + 4);
      if end.None? then Unclosed else Past(end.value + 3)
    else if At(head, "<?", j) then
      var gt := Find(head, ">", j + 2);
      if gt.None? then Unclosed else Past(gt.value + 1)
    else Halt(j)
  }

  /** Where the hunt stops skipping blanks, comments and processing instructions; none inside an open one. */
  function Stop(head: string, i: nat): (r: Option<nat>)
    requires i <= |head|
    ensures r.Some? ==> i <= r.value <= |head|
    decreases |head| - i
  {
    match TurnAt(head, i)
    case Unclosed => None
    case Past(to) => Stop(head, to)
    case Halt(at) => Some(at)
  }

  const DOCTYPE := "<!doctype"

  predicate Letter(c: char) {
    'a' <= LowerChar(c) <= 'z'
  }

  function Letters(s: string): (r: string)
    ensures r <= s && forall i :: 0 <= i < |r| ==> Letter(r[i])
    ensures |r| < |s| ==> !Letter(s[|r|])
    decreases |s|
  {
    if s == "" || !Letter(s[0]) then "" else [s[0]] + Letters(s[1..])
  }

  /** The text could still become a doctype: "<!" and letters that begin it, whatever comes after them. */
  predicate Growing(s: string) {
    "<!" <= s && "<!" + Lower(Letters(s[2..])) <= DOCTYPE
  }

  predicate Doctype(s: string) {
    |s| >= 9 && Lower(s[..9]) == DOCTYPE
  }

  function Start(head: string): (i: nat)
    ensures i <= |head|
  {
    if |head| > 0 && head[0] == BOM then 1 else 0
  }

  /** What a stop decides; `none` stands for undecided. */
  function Answer(head: string, at: nat, none: Option<nat>): Option<nat>
    requires at <= |head|
  {
    if Doctype(head[at..]) then
      var gt := Find(head, ">", at);
      if gt.None? then none else Some(gt.value + 1)
    else if Growing(head[at..]) || at >= |head| then none
    else Some(0)
  }

  /** The answer for a head whose stream goes on; none means undecided. */
  function Splice(head: string): Option<nat> {
    var j := Stop(head, Start(head));
    if j.None? then None else Answer(head, j.value, None)
  }

  /** What is left where the hunt stopped; empty inside an open comment. */
  function Remainder(head: string): string {
    var j := Stop(head, Start(head));
    if j.None? then "" else head[j.value..]
  }

  // ----- stability -----

  lemma {:induction false} SpacesGrow(head: string, x: string, i: nat)
    requires i <= |head| && SkipSpaces(head, i) < |head|
    ensures SkipSpaces(head + x, i) == SkipSpaces(head, i)
    decreases |head| - i
  {
    if i < |head| && Space(head[i]) {
      SpacesGrow(head, x, i + 1);
    }
  }

  /** A text that does not open a comment opens none with more text, unless it is a beginning of the opening. */
  lemma OpensLater(head: string, x: string, pat: string, j: nat)
    requires j < |head| && !At(head, pat, j) && At(head + x, pat, j)
    ensures head[j..] < pat
  {
    if j + |pat| <= |head| {
      AtGrows(head, x, pat, j);
    } else {
      assert (head + x)[j..j + |pat|][..|head| - j] == head[j..];
    }
  }

  lemma NotBoth(head: string, j: nat)
    requires At(head, "<?", j)
    ensures !At(head, "<!--", j)
  {
    assert head[j..j + 2][1] == '?';
    assert j + 4 <= |head| ==> head[j..j + 4][1] == head[j + 1];
  }

  lemma CommentBeginnings(s: string)
    requires s != "" && s < "<!--"
    ensures s == "<" || s == "<!" || s == "<!-"
  {
    assert s == "<!--"[..|s|];
  }

  lemma InstructionBeginnings(s: string)
    requires s != "" && s < "<?"
    ensures s == "<"
  {
    assert s == "<?"[..|s|];
  }

  /** The beginnings of a comment or an instruction that the hunt takes for a stop. */
  predicate Half(s: string) {
    s == "<" || s == "<!" || s == "<!-"
  }

  lemma NothingOpens(head: string, x: string, j: nat)
    requires j < |head| && !At(head, "<!--", j) && !At(head, "<?", j) && !Half(head[j..])
    ensures !At(head + x, "<!--", j) && !At(head + x, "<?", j)
  {
    var s := head[j..];
    if At(head + x, "<!--", j) {
      OpensLater(head, x, "<!--", j);
      CommentBeginnings(s);
    }
    if At(head + x, "<?", j) {
      OpensLater(head, x, "<?", j);
      InstructionBeginnings(s);
    }
  }

  lemma PastGrows(head: string, x: string, i: nat)
    requires i <= |head| && TurnAt(head, i).Past?
    ensures TurnAt(head + x, i) == TurnAt(head, i)
  {
    var j := SkipSpaces(head, i);
    assert j < |head|;
    SpacesGrow(head, x, i);
    hide SkipSpaces, Find;
    if At(head, "<!--", j) {
      AtGrows(head, x, "<!--", j);
      FindGrows(head, x, "-->", j + 4);
    } else {
      AtGrows(head, x, "<?", j);
      NotBoth(head + x, j);
      FindGrows(head, x, ">", j + 2);
    }
  }

  lemma HaltGrows(head: string, x: string, i: nat)
    requires i <= |head| && TurnAt(head, i).Halt?
    requires var j := TurnAt(head, i).at; j < |head| && !Half(head[j..])
    ensures TurnAt(head + x, i) == TurnAt(head, i)
  {
    var j := SkipSpaces(head, i);
    SpacesGrow(head, x, i);
    hide SkipSpaces, Find, Half;
    NothingOpens(head, x, j);
  }

  /** Where the hunt has stopped before the end, it stops with more text too, but for the beginnings of an
      opening. */
  lemma {:induction false} StopGrows(head: string, x: string, i: nat)
    requires i <= |head| && Stop(head, i).Some? && Stop(head, i).value < |head|
    requires !Half(head[Stop(head, i).value..])
    ensures Stop(head + x, i) == Stop(head, i)
    decreases |head| - i
  {
    hide TurnAt, Half;
    match TurnAt(head, i) {
      case Past(to) =>
        PastGrows(head, x, i);
        StopGrows(head, x, to);
      case Halt(at) => HaltGrows(head, x, i);
      case Unclosed =>
    }
  }

  // ----- the answer -----

  lemma {:induction false} LettersGrow(s: string, x: string)
    ensures Letters(s) <= Letters(s + x)
    ensures |Letters(s)| < |s| ==> Letters(s + x) == Letters(s)
    decreases |s|
  {
    if s != "" && Letter(s[0]) {
      assert (s + x)[1..] == s[1..] + x;
      LettersGrow(s[1..], x);
    }
  }

  lemma NoBang(s: string, x: string)
    requires s != "" && s != "<" && !("<!" <= s)
    ensures !("<!" <= s + x) && !Doctype(s + x)
  {
    var t := s + x;
    assert t[0] == s[0];
    if |s| >= 2 {
      assert t[1] == s[1] && s[..2] == [s[0], s[1]];
    }
    if |t| >= 9 {
      assert Lower(t[..9])[0] == LowerChar(t[0]) && Lower(t[..9])[1] == LowerChar(t[1]);
    }
  }

  lemma {:induction false} AllLetters(s: string)
    requires forall i :: 0 <= i < |s| ==> Letter(s[i])
    ensures Letters(s) == s
    decreases |s|
  {
    if s != "" {
      AllLetters(s[1..]);
    }
  }

  /** Short of nine characters, what becomes a doctype is all letters of it, and growing. */
  lemma BeforeADoctype(s: string, x: string)
    requires "<!" <= s && |s| < 9 && Doctype(s + x)
    ensures Growing(s)
  {
    var t := s + x;
    var n := |s|;
    assert forall i :: 0 <= i < n ==> LowerChar(s[i]) == Lower(t[..9])[i] == DOCTYPE[i];
    assert forall i :: 0 <= i < n - 2 ==> Letter(s[2..][i]);
    AllLetters(s[2..]);
    assert "<!" + Lower(s[2..]) == DOCTYPE[..n];
  }

  lemma BeforeGrowing(s: string, x: string)
    requires "<!" <= s && Growing(s + x)
    ensures Growing(s)
  {
    var t := s + x;
    assert t[2..] == s[2..] + x;
    LettersGrow(s[2..], x);
    var a, b := Letters(s[2..]), Letters(t[2..]);
    assert Lower(a) == Lower(b)[..|a|];
    hide Letters, Lower;
    assert "<!" + Lower(a) == ("<!" + Lower(b))[..2 + |a|];
  }

  /** A text that cannot become a doctype cannot with more text either, except a lone "<". */
  lemma NeverGrows(s: string, x: string)
    requires s != "" && s != "<" && !Growing(s) && !Doctype(s)
    ensures !Growing(s + x) && !Doctype(s + x)
  {
    var t := s + x;
    if "<!" <= s {
      assert |s| >= 9 ==> t[..9] == s[..9];
      assert t[..2] == s[..2];
      hide Letters, Lower;
      if Growing(t) {
        BeforeGrowing(s, x);
      }
      if |s| < 9 && Doctype(t) {
        BeforeADoctype(s, x);
      }
    } else {
      NoBang(s, x);
    }
  }

  lemma AnswerGrows(head: string, x: string, j: nat)
    requires j <= |head| && Answer(head, j, None).Some? && head[j..] != "<"
    ensures Answer(head + x, j, None) == Answer(head, j, None)
    ensures j < |head| && !Half(head[j..])
  {
    var s := head[j..];
    assert (head + x)[j..] == s + x;
    HalfIsGrowing(s);
    hide Growing;
    if Doctype(s) {
      assert (s + x)[..9] == s[..9];
      FindGrows(head, x, ">", j);
    } else {
      hide Doctype;
      NeverGrows(s, x);
    }
  }

  /** Whether it decides for a doctype or for none, an answered remainder other than a lone "<" decides alike
      with more text. */
  lemma Stable(head: string, x: string)
    requires Splice(head).Some? && Remainder(head) != "<"
    ensures Splice(head + x) == Splice(head)
  {
    var j := Stop(head, Start(head)).value;
    AnswerGrows(head, x, j);
    assert Start(head + x) == Start(head);
    hide Stop, Answer, Half;
    StopGrows(head, x, Start(head));
  }

  lemma HalfIsGrowing(s: string)
    ensures s == "<!" || s == "<!-" ==> Growing(s) && !Doctype(s)
  {
  }

  // ----- the exception -----

  const LATE := "!doctype>"

  lemma LateHalt(head: string, i: nat)
    requires i <= |head| && TurnAt(head, i).Halt? && TurnAt(head, i).at < |head|
    requires head[TurnAt(head, i).at..] == "<"
    ensures TurnAt(head + LATE, i) == TurnAt(head, i)
  {
    var j := SkipSpaces(head, i);
    SpacesGrow(head, LATE, i);
    var t := head + LATE;
    assert t[j..j + 2] == "<!" && t[j..j + 4] == "<!do";
    assert t[j..j + 4][2] == 'd' && t[j..j + 2][1] == '!';
    hide SkipSpaces;
  }

  lemma {:induction false} LateStop(head: string, i: nat)
    requires i <= |head| && Stop(head, i).Some? && Stop(head, i).value < |head|
    requires head[Stop(head, i).value..] == "<"
    ensures Stop(head + LATE, i) == Stop(head, i)
    decreases |head| - i
  {
    hide TurnAt;
    match TurnAt(head, i) {
      case Past(to) =>
        PastGrows(head, LATE, i);
        LateStop(head, to);
      case Halt(at) => LateHalt(head, i);
      case Unclosed =>
    }
  }

  lemma LateDoctype(head: string, j: nat)
    requires j < |head| && head[j..] == "<"
    ensures (head + LATE)[j..] == "<!doctype>" && Find(head + LATE, ">", j) == Some(|head| + 8)
  {
    var t := head + LATE;
    assert t[j..] == "<" + LATE == "<!doctype>";
    forall k | j <= k < |head| + 8 ensures !At(t, ">", k) {
      assert t[k..k + 1][0] == t[k] == t[j..][k - j];
    }
    assert t[|head| + 8..|head| + 9] == ">";
    hide At;
    FindIs(t, ">", j, |head| + 8);
  }

  lemma LateAnswer(head: string, j: nat)
    requires j < |head| && head[j..] == "<"
    ensures Answer(head, j, None) == Some(0) && Answer(head + LATE, j, None) == Some(|head| + |LATE|)
  {
    LateDoctype(head, j);
    TheDoctype();
    assert !Growing("<") && !Doctype("<");
    hide Growing, Doctype, Find;
  }

  /** A lone "<" was answered 0, and becomes a doctype. */
  lemma LoneOpeningMoves(head: string)
    requires Remainder(head) == "<"
    ensures Splice(head) == Some(0) && Splice(head + LATE) == Some(|head| + |LATE|)
  {
    var j := Stop(head, Start(head)).value;
    assert Start(head + LATE) == Start(head);
    LateAnswer(head, j);
    hide Stop, Answer;
    LateStop(head, Start(head));
  }

  lemma TheDoctype()
    ensures Doctype("<!doctype>")
  {
    assert Lower("<!doctype>"[..9]) == DOCTYPE;
  }

  /** An answer stands for every longer head, exactly unless what the hunt stopped at is a lone "<". */
  lemma StableExactly(head: string)
    requires Splice(head).Some?
    ensures (forall x: string :: Splice(head + x) == Splice(head)) <==> Remainder(head) != "<"
  {
    hide Splice, Remainder;
    if Remainder(head) == "<" {
      LoneOpeningMoves(head);
      assert Splice(head + LATE) != Splice(head);
    } else {
      forall x: string ensures Splice(head + x) == Splice(head) {
        Stable(head, x);
      }
    }
  }

  /** The exception is real. */
  lemma LoneOpeningExists()
    ensures Remainder("<") == "<" && Splice("<") == Some(0) && Splice("<!doctype>") == Some(10)
  {
    LoneStop();
    hide Stop, Splice, Remainder;
    assert Remainder("<") == "<" by {
      LoneRemainder();
    }
    LoneOpeningMoves("<");
    assert "<" + LATE == "<!doctype>";
  }

  lemma LoneStop()
    ensures Stop("<", 0) == Some(0)
  {
    assert SkipSpaces("<", 0) == 0;
  }

  lemma LoneRemainder()
    ensures Remainder("<") == "<"
  {
    LoneStop();
    hide Stop;
  }

  // ----- what may stand in front -----

  function Shifted(k: nat, r: Option<nat>): Option<nat> {
    if r.None? then None else Some(k + r.value)
  }

  lemma {:induction false} SpacesDrop(h: string, k: nat, i: nat)
    requires k + i <= |h|
    ensures SkipSpaces(h, k + i) == k + SkipSpaces(h[k..], i)
    decreases |h| - i
  {
    var s := h[k..];
    assert i < |s| ==> s[i] == h[k + i];
    if i < |s| && Space(s[i]) {
      SpacesDrop(h, k, i + 1);
    }
  }

  function TurnFrom(k: nat, t: Turn): Turn {
    match t
    case Unclosed => Unclosed
    case Past(to) => Past(k + to)
    case Halt(at) => Halt(k + at)
  }

  lemma TurnDrop(h: string, k: nat, i: nat)
    requires k + i <= |h|
    ensures TurnAt(h, k + i) == TurnFrom(k, TurnAt(h[k..], i))
  {
    hide Find, At;
    SpacesDrop(h, k, i);
    var s := h[k..];
    var j := SkipSpaces(s, i);
    hide SkipSpaces;
    AtDropped(h, "<!--", k, j);
    AtDropped(h, "<?", k, j);
    if At(h[k..], "<!--", j) {
      InBounds(h[k..], "<!--", j);
      FindFrom(h, "-->", k, j + 4);
    } else if At(h[k..], "<?", j) {
      InBounds(h[k..], "<?", j);
      FindFrom(h, ">", k, j + 2);
    }
  }

  lemma InBounds(s: string, pat: string, j: nat)
    requires At(s, pat, j)
    ensures j + |pat| <= |s|
  {
  }

  /** The hunt in a text from a point on is the hunt in what is left from there. */
  lemma {:induction false} StopDrop(h: string, k: nat, s: string, i: nat)
    requires k <= |h| && s == h[k..] && i <= |s|
    ensures Stop(h, k + i) == Shifted(k, Stop(s, i))
    decreases |s| - i
  {
    hide TurnAt, Stop, Find, At, SkipSpaces;
    TurnDrop(h, k, i);
    var t := TurnAt(s, i);
    StopStep(h, k + i);
    StopStep(s, i);
    if t.Past? {
      StopDrop(h, k, s, t.to);
    }
  }

  lemma StopStep(h: string, i: nat)
    requires i <= |h|
    ensures Stop(h, i) ==
      match TurnAt(h, i) case Unclosed => None case Past(to) => Stop(h, to) case Halt(at) => Some(at)
  {
  }

  /** A byte order mark is white space like any other. */
  lemma StartIsSpace(s: string)
    ensures Stop(s, Start(s)) == Stop(s, 0)
  {
    if |s| > 0 && s[0] == BOM {
      assert SkipSpaces(s, 0) == SkipSpaces(s, 1);
      assert TurnAt(s, 0) == TurnAt(s, 1);
    }
  }

  /** The hunt passes over this much of any text that begins so. */
  ghost predicate Passed(lead: string) {
    forall s: string :: Stop(lead + s, 0) == Stop(lead + s, |lead|)
  }

  /** The answer of a text with something in front: 0 stays 0, and a place behind a doctype moves along. */
  function Moved(k: nat, r: Option<nat>): Option<nat> {
    if r == Some(0) then r else Shifted(k, r)
  }

  lemma AnswerDrop(h: string, k: nat, at: nat)
    requires k + at <= |h|
    ensures Answer(h, k + at, None) == Moved(k, Answer(h[k..], at, None))
  {
    assert h[k..][at..] == h[k + at..];
    FindFrom(h, ">", k, at);
    hide Find, Growing, Doctype;
  }

  /** What the hunt passes over shifts the answer by its length, and nothing else. */
  lemma LeadMovesTheAnswer(lead: string, s: string)
    requires Passed(lead)
    ensures Splice(lead + s) == Moved(|lead|, Splice(s))
  {
    hide Stop, Splice;
    var h := lead + s;
    assert h[|lead|..] == s;
    assert Stop(lead + s, 0) == Stop(lead + s, |lead|);
    hide Passed;
    SpliceDrop(h, |lead|, s);
  }

  lemma SpliceDrop(h: string, k: nat, s: string)
    requires k <= |h| && s == h[k..] && Stop(h, 0) == Stop(h, k)
    ensures Splice(h) == Moved(k, Splice(s))
  {
    hide Stop, Answer, Start, Splice;
    StartIsSpace(h);
    StartIsSpace(s);
    SpliceFromStart(h);
    SpliceFromStart(s);
    StopDrop(h, k, s, 0);
    if Stop(s, 0).Some? {
      AnswerDrop(h, k, Stop(s, 0).value);
    }
  }

  lemma SpliceFromStart(h: string)
    requires Stop(h, Start(h)) == Stop(h, 0)
    ensures Splice(h) == if Stop(h, 0).None? then None else Answer(h, Stop(h, 0).value, None)
  {
    hide Stop, Answer;
  }

  lemma BlankIsPassed(c: char)
    requires Space(c)
    ensures Passed([c])
  {
    forall s: string ensures Stop([c] + s, 0) == Stop([c] + s, 1) {
      assert SkipSpaces([c] + s, 0) == SkipSpaces([c] + s, 1);
      assert TurnAt([c] + s, 0) == TurnAt([c] + s, 1);
    }
  }

  lemma PassedByTurn(lead: string, h: string)
    requires |lead| <= |h| && TurnAt(h, 0) == Past(|lead|)
    ensures Stop(h, 0) == Stop(h, |lead|)
  {
    hide TurnAt;
  }

  /** An opening in front of the text where its end is first found. */
  lemma OpeningTurn(h: string, mark: string, end: string, n: nat)
    requires (mark == "<!--" && end == "-->") || (mark == "<?" && end == ">")
    requires |mark| <= |h| && h[..|mark|] == mark && Find(h[|mark|..], end, 0) == Some(n)
    ensures TurnAt(h, 0) == Past(|mark| + n + |end|)
  {
    assert h[0] == mark[0] == '<' && h[0..|mark|] == mark;
    assert SkipSpaces(h, 0) == 0;
    FindFrom(h, end, |mark|, 0);
    if mark == "<?" {
      NotBoth(h, 0);
    }
    hide SkipSpaces, Find;
  }

  /** A comment, up to the first place where it can close. */
  lemma CommentIsPassed(t: string)
    requires forall m :: 0 <= m < |t| ==> !At(t + "-->", "-->", m)
    ensures Passed("<!--" + (t + "-->"))
  {
    var u := t + "-->";
    var lead := "<!--" + u;
    assert u[|t|..|t| + 3] == "-->";
    FindIs(u, "-->", 0, |t|);
    hide Find, At, Stop, TurnAt;
    forall s: string ensures Stop(lead + s, 0) == Stop(lead + s, |lead|) {
      var h := lead + s;
      FindGrows(u, s, "-->", 0);
      assert h[..4] == "<!--" && h[4..] == u + s;
      OpeningTurn(h, "<!--", "-->", |t|);
      PassedByTurn(lead, h);
    }
  }

  /** A processing instruction, which ends at the first ">". */
  lemma InstructionIsPassed(t: string)
    requires '>' !in t
    ensures Passed("<?" + (t + ">"))
  {
    var u := t + ">";
    var lead := "<?" + u;
    assert u[|t|..|t| + 1] == ">";
    forall m | 0 <= m < |t| ensures !At(u, ">", m) {
      assert u[m..m + 1][0] == t[m] && t[m] in t;
    }
    FindIs(u, ">", 0, |t|);
    hide Find, At, Stop, TurnAt;
    forall s: string ensures Stop(lead + s, 0) == Stop(lead + s, |lead|) {
      var h := lead + s;
      FindGrows(u, s, ">", 0);
      assert h[..2] == "<?" && h[2..] == u + s;
      OpeningTurn(h, "<?", ">", |t|);
      PassedByTurn(lead, h);
    }
  }

  lemma StopsAtOnce(s: string)
    requires s != "" && !Space(s[0]) && !At(s, "<!--", 0) && !At(s, "<?", 0)
    ensures Stop(s, 0) == Some(0)
  {
    assert SkipSpaces(s, 0) == 0;
  }

  /** A doctype, in any case, is answered with the place behind its ">". */
  lemma BehindTheDoctype(d: string, t: string, rest: string)
    requires |d| == 9 && Lower(d) == "<!doctype" && '>' !in t
    ensures Splice(d + (t + (">" + rest))) == Some(|d| + |t| + 1)
  {
    var h := d + (t + (">" + rest));
    assert forall k :: 0 <= k < 9 ==> LowerChar(d[k]) == "<!doctype"[k];
    assert h[..9] == d && h[0] == d[0] == '<' && h[1] == d[1] == '!' && LowerChar(h[2]) == 'd';
    StartIsSpace(h);
    StopsAtOnce(h);
    var u := d + t;
    assert h == u + (">" + rest) && h[|u|..|u| + 1] == ">";
    forall m | 0 <= m < |u| ensures !At(h, ">", m) {
      assert h[m..m + 1][0] == h[m];
      if m < 9 {
        assert h[m] == d[m] && LowerChar('>') == '>';
      } else {
        assert h[m] == t[m - 9] && t[m - 9] in t;
      }
    }
    FindIs(h, ">", 0, |u|);
    assert h[0..] == h;
    hide Find, Stop, At, Lower;
    assert Doctype(h) by {
      DoctypeIs(h, d);
    }
  }

  lemma DoctypeIs(h: string, d: string)
    requires |h| >= 9 && h[..9] == d && Lower(d) == DOCTYPE
    ensures Doctype(h)
  {
  }

  lemma NotADoctype(s: string)
    requires s != "" && (s[0] == '<' ==> |s| > 1 && s[1] != '!')
    ensures !Doctype(s)
  {
    if |s| >= 9 {
      assert Lower(s[..9])[0] == LowerChar(s[0]) && Lower(s[..9])[1] == LowerChar(s[1]);
      assert DOCTYPE[0] == '<' && DOCTYPE[1] == '!';
    }
  }

  lemma {:induction false} LettersAre(w: string, rest: string)
    requires (forall c <- w :: Letter(c)) && (rest == "" || !Letter(rest[0]))
    ensures Letters(w + rest) == w
    decreases |w|
  {
    if w == "" {
      assert w + rest == rest;
    } else {
      assert (w + rest)[1..] == w[1..] + rest && w[0] in w;
      assert forall c <- w[1..] :: c in w;
      LettersAre(w[1..], rest);
    }
  }

  lemma WordOfDoctype(w: string, rest: string)
    requires (rest == "" || !Letter(rest[0])) && Doctype("<!" + (w + rest))
    ensures "doctype" <= Lower(w)
  {
    DoctypeLetter(w, rest, 6);
    forall k | 0 <= k < 7 ensures Lower(w)[k] == "doctype"[k] {
      DoctypeLetter(w, rest, k);
    }
    hide Doctype;
  }

  lemma DoctypeOfWord(w: string, rest: string)
    requires "doctype" <= Lower(w)
    ensures Doctype("<!" + (w + rest))
  {
    var h := "<!" + (w + rest);
    assert LowerChar('<') == '<' && LowerChar('!') == '!' && DOCTYPE == "<!" + "doctype";
    forall k | 2 <= k < 9 ensures LowerChar(h[k]) == DOCTYPE[k] {
      assert h[k] == w[k - 2] && Lower(w)[..7][k - 2] == Lower(w)[k - 2] == "doctype"[k - 2] == DOCTYPE[k];
    }
    assert Lower(h[..9]) == DOCTYPE;
  }

  lemma DoctypeLetter(w: string, rest: string, k: nat)
    requires k < 7 && (rest == "" || !Letter(rest[0])) && Doctype("<!" + (w + rest))
    ensures k < |w| && LowerChar(w[k]) == "doctype"[k]
  {
    var h := "<!" + (w + rest);
    forall i | 0 <= i < 7 ensures LowerChar(h[i + 2]) == "doctype"[i] && Letter(h[i + 2]) {
      assert Lower(h[..9])[i + 2] == DOCTYPE[i + 2] == "doctype"[i];
    }
    if |w| < 7 {
      assert h[|w| + 2] == rest[0];
    } else {
      assert h[k + 2] == w[k];
    }
  }

  lemma GrowingWord(w: string, rest: string)
    requires (forall c <- w :: Letter(c)) && (rest == "" || !Letter(rest[0]))
    ensures Growing("<!" + (w + rest)) <==> Lower(w) <= "doctype"
  {
    var h := "<!" + (w + rest);
    LettersAre(w, rest);
    assert h[2..] == w + rest && h[..2] == "<!";
    assert DOCTYPE == "<!" + "doctype" && DOCTYPE[2..] == "doctype";
    var g := "<!" + Lower(w);
    assert g[2..] == Lower(w);
    if g <= DOCTYPE {
      assert DOCTYPE[..|g|] == g;
      assert DOCTYPE[2..][..|w|] == g[2..];
    }
    if Lower(w) <= "doctype" {
      assert DOCTYPE[..|g|] == "<!" + "doctype"[..|w|];
    }
  }

  /** A declaration that is no comment is answered 0 exactly when its word can neither be nor become "doctype", in any
      case. */
  lemma DeclarationIsZeroExactly(w: string, rest: string)
    requires (forall c <- w :: Letter(c)) && (rest == "" || !Letter(rest[0]))
    requires w == "" ==> !("--" <= rest)
    ensures Splice("<!" + (w + rest)) == Some(0) <==> !(Lower(w) <= "doctype") && !("doctype" <= Lower(w))
  {
    var h := "<!" + (w + rest);
    assert h[0] == '<' && h[1] == '!' && h[0..] == h;
    assert !At(h, "<!--", 0) && !At(h, "<?", 0) by {
      NoComment(w, rest);
    }
    StartIsSpace(h);
    StopsAtOnce(h);
    if Doctype(h) {
      WordOfDoctype(w, rest);
    }
    if "doctype" <= Lower(w) {
      DoctypeOfWord(w, rest);
    }
    GrowingWord(w, rest);
    hide Stop, Doctype, Growing, Find, Lower, At;
  }

  lemma CommentOpens(h: string)
    ensures At(h, "<!--", 0) ==> |h| >= 4 && h[2] == '-' && h[3] == '-'
    ensures At(h, "<?", 0) ==> |h| >= 2 && h[1] == '?'
  {
    if At(h, "<!--", 0) {
      assert h[0..4][2] == h[2] && h[0..4][3] == h[3];
    }
    if At(h, "<?", 0) {
      assert h[0..2][1] == h[1];
    }
  }

  lemma TwoDashes(s: string)
    requires |s| >= 2
    ensures "--" <= s <==> s[0] == s[1] == '-'
  {
    assert s[..2] == [s[0], s[1]];
  }

  lemma NoComment(w: string, rest: string)
    requires (forall c <- w :: Letter(c)) && (w == "" ==> !("--" <= rest))
    ensures var h := "<!" + (w + rest); !At(h, "<!--", 0) && !At(h, "<?", 0)
  {
    var h := "<!" + (w + rest);
    CommentOpens(h);
    hide At;
    assert h[1] == '!';
    if w != "" {
      assert h[2] == w[0] && w[0] in w && !Letter('-');
    } else if |rest| >= 2 {
      TwoDashes(rest);
      assert h[2] == rest[0] && h[3] == rest[1];
    }
  }

  /** Text, or an element's tag, is answered 0. */
  lemma NoDoctypeIsZero(s: string)
    requires s != "" && !Space(s[0]) && (s[0] == '<' ==> |s| > 1 && s[1] != '!' && s[1] != '?')
    ensures Splice(s) == Some(0)
  {
    StartIsSpace(s);
    StopsAtOnce(s);
    assert s[0..] == s;
    assert !("<!" <= s) by {
      assert "<!"[0] == '<' && "<!"[1] == '!';
    }
    NotADoctype(s);
    hide Stop, Doctype;
  }

  // ----- the hunt -----

  /** The loop itself; at the end of the stream an undecided head is answered 0. */
  method InitSplicePoint(head: string, eos: bool) returns (r: Option<nat>)
    ensures r == if Splice(head).None? && eos then Some(0) else Splice(head)
  {
    var none := if eos then Some(0) else None;
    var i := Start(head);
    while true
      invariant i <= |head| && Stop(head, i) == Stop(head, Start(head))
      decreases |head| - i
    {
      var t := TurnAt(head, i);
      hide TurnAt;
      match t {
        case Unclosed => return none;
        case Past(to) => i := to;
        case Halt(at) => return Answer(head, at, none);
      }
    }
  }
}
