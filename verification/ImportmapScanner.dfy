/** The streaming scan for import maps (app/src/importmaps.ts): tags are read one by one, a map's body is
    captured up to its close tag, and what could still grow is held back between chunks. Which tags open a
    map is a parameter. */
module ImportmapScanner {
  import opened Common
  import opened Strings
  import opened Tags

  const SCAN_MAX := 256 * 1024
  const BODY_CAP := 256 * 1024
  const TAG_HOLD := 65536
  const CLOSE := "</script"

  /** Which tags open an import map. */
  type Maps = string -> bool

  datatype State = State(pending: string, capturing: bool, truncated: bool, body: string, notes: seq<string>)

  const EMPTY := State("", false, false, "", [])

  function Fed(st: State, text: string): State {
    st.(pending := st.pending + text)
  }

  /** A tag was read: the text goes on after it, perhaps as a map's body. */
  function Opened(maps: Maps, st: State, tag: string, rest: string): State {
    if maps(tag) then st.(pending := rest, capturing := true, truncated := false, body := "")
    else st.(pending := rest)
  }

  /** The close tag was found at m: the body is noted unless it is too large. */
  function Noted(st: State, m: nat): State
    requires m <= |st.pending|
  {
    var whole := st.body + st.pending[..m];
    State(st.pending[m..], false, st.truncated, "",
          if !st.truncated && |whole| <= BODY_CAP then st.notes + [whole] else st.notes)
  }

  /** How much of a text can be captured when h characters are held back. */
  function Capturable(h: nat, p: string): (n: nat)
    ensures n <= |p|
  {
    if |p| < h then 0 else |p| - h
  }

  /** No close tag yet: capture all but the characters held back. */
  function Held(h: nat, st: State): State {
    var n := Capturable(h, st.pending);
    var whole := st.body + st.pending[..n];
    st.(body := whole, truncated := st.truncated || |whole| > BODY_CAP, pending := st.pending[n..])
  }

  /** The whole loop of one feed, but for the bound on a held tag; h characters are held back. */
  function ScannedBy(h: nat, maps: Maps, st: State): State
    decreases |st.pending|, if st.capturing then 1 else 0
  {
    var p := st.pending;
    if st.capturing then
      var m := Find(Lower(p), CLOSE, 0);
      if m.None? then Held(h, st) else ScannedBy(h, maps, Noted(st, m.value))
    else
      match NextTag(p)
      case NoTag => st.(pending := "")
      case Unfinished(held) => st.(pending := held)
      case Tag(tag, rest) => ScannedBy(h, maps, Opened(maps, st, tag, rest))
  }

  /** The close tag's own length is held back. */
  const HOLD_BACK := 8

  function Scanned(maps: Maps, st: State): State {
    ScannedBy(HOLD_BACK, maps, st)
  }

  /** The loop with the bound: a held tag past it is forgotten. */
  function Bounded(maps: Maps, st: State): State {
    var r := Scanned(maps, st);
    if !r.capturing && |r.pending| > TAG_HOLD then r.(pending := "") else r
  }

  // ----- what is held back -----

  /** The close tag can only begin in the last seven characters of what is held. */
  lemma CloseBeginsLate(h: nat, p: string, x: string)
    requires h >= 7 && Find(Lower(p), CLOSE, 0).None?
    ensures forall m :: 0 <= m < Capturable(h, p) ==> !At(Lower(p + x), CLOSE, m)
  {
    var n := Capturable(h, p);
    LowerJoin(p, x);
    forall m | 0 <= m < n ensures !At(Lower(p + x), CLOSE, m) {
      AtGrows(Lower(p), Lower(x), CLOSE, m);
    }
  }

  /** What a state holds of the text fed so far. */
  function Weight(st: State): nat {
    |st.body| + |st.pending|
  }

  /** A feed only moves text from what is pending to the body, or lets go of it. */
  lemma {:induction false} WeightShrinks(h: nat, maps: Maps, st: State)
    requires st.capturing || st.body == ""
    ensures Weight(ScannedBy(h, maps, st)) <= Weight(st)
    ensures ScannedBy(h, maps, st).capturing || ScannedBy(h, maps, st).body == ""
    decreases |st.pending|, if st.capturing then 1 else 0
  {
    var p := st.pending;
    hide NextTag, Find, Lower;
    if st.capturing {
      var m := Find(Lower(p), CLOSE, 0);
      if m.Some? {
        WeightShrinks(h, maps, Noted(st, m.value));
      }
    } else if NextTag(p).Tag? {
      WeightShrinks(h, maps, Opened(maps, st, NextTag(p).tag, NextTag(p).rest));
    }
  }

  // ----- one step more -----

  lemma HeldGrows(h: nat, maps: Maps, st: State, x: string)
    requires h >= 7 && st.capturing && Find(Lower(st.pending), CLOSE, 0).None? && !st.truncated
    requires |st.body| + |st.pending| + |x| <= BODY_CAP
    ensures ScannedBy(h, maps, Fed(Held(h, st), x)) == ScannedBy(h, maps, Fed(st, x))
  {
    var p := st.pending;
    var n := Capturable(h, p);
    CloseBeginsLate(h, p, x);
    var q := p[n..];
    var whole := st.body + p[..n];
    assert Held(h, st) == st.(body := whole, pending := q);
    assert (p + x)[n..] == q + x;
    LowerDrop(p + x, n);
    FindDropped(Lower(p + x), CLOSE, n);
    hide At, Find, Lower;
    var m := Find(Lower(q + x), CLOSE, 0);
    if m.Some? {
      NotedGrows(st, x, n, m.value);
    } else {
      HeldTwice(h, st, x);
    }
  }

  lemma NotedGrows(st: State, x: string, n: nat, m: nat)
    requires n <= |st.pending| && m <= |st.pending[n..] + x|
    ensures Noted(st.(body := st.body + st.pending[..n], pending := st.pending[n..] + x), m)
            == Noted(Fed(st, x), n + m)
  {
    var p := st.pending;
    assert (p + x)[n..] == p[n..] + x;
    assert (p + x)[n + m..] == (p[n..] + x)[m..];
    assert st.body + (p + x)[..n + m] == (st.body + p[..n]) + (p[n..] + x)[..m];
  }

  lemma CapturableTwice(h: nat, p: string, x: string)
    ensures var n := Capturable(h, p);
      n + Capturable(h, p[n..] + x) == Capturable(h, p + x)
  {
  }

  lemma SplitAgain(body: string, p: string, x: string, n: nat, k: nat)
    requires n <= |p| && k <= |p[n..] + x|
    ensures (p + x)[n + k..] == (p[n..] + x)[k..]
    ensures body + (p + x)[..n + k] == (body + p[..n]) + (p[n..] + x)[..k]
  {
    assert (p + x)[n..] == p[n..] + x;
    assert (p + x)[..n + k] == p[..n] + (p[n..] + x)[..k];
  }

  lemma HeldTwice(h: nat, st: State, x: string)
    requires !st.truncated
    requires |st.body| + |st.pending| + |x| <= BODY_CAP
    ensures var n := Capturable(h, st.pending);
      Held(h, st.(body := st.body + st.pending[..n], pending := st.pending[n..] + x)) == Held(h, Fed(st, x))
  {
    var n := Capturable(h, st.pending);
    CapturableTwice(h, st.pending, x);
    SplitAgain(st.body, st.pending, x, n, Capturable(h, st.pending[n..] + x));
    hide Capturable;
  }

  lemma NotedFed(st: State, x: string, m: nat)
    requires m <= |st.pending|
    ensures Noted(Fed(st, x), m) == Fed(Noted(st, m), x)
  {
    var p := st.pending;
    assert (p + x)[..m] == p[..m] && (p + x)[m..] == p[m..] + x;
  }

  /** Feeding a text in two parts scans what feeding it whole scans. */
  lemma {:induction false} ScanTwice(h: nat, maps: Maps, st: State, x: string)
    requires h >= 7 && !st.truncated && (st.capturing || st.body == "")
    requires Weight(st) + |x| <= BODY_CAP
    ensures ScannedBy(h, maps, Fed(ScannedBy(h, maps, st), x)) == ScannedBy(h, maps, Fed(st, x))
    ensures !ScannedBy(h, maps, st).truncated
    decreases |st.pending|, if st.capturing then 1 else 0
  {
    var p := st.pending;
    if st.capturing {
      var m := Find(Lower(p), CLOSE, 0);
      if m.None? {
        HeldGrows(h, maps, st, x);
      } else {
        LowerJoin(p, x);
        FindGrows(Lower(p), Lower(x), CLOSE, 0);
        NotedFed(st, x, m.value);
        hide Find, Lower, NextTag;
        ScanTwice(h, maps, Noted(st, m.value), x);
      }
    } else {
      TagTwice(h, maps, st, x);
      hide Find, Lower, NextTag;
      if NextTag(p).Tag? {
        ScanTwice(h, maps, Opened(maps, st, NextTag(p).tag, NextTag(p).rest), x);
      }
    }
  }

  lemma TagTwice(h: nat, maps: Maps, st: State, x: string)
    requires !st.capturing
    ensures var c := NextTag(st.pending);
      && (c.NoTag? ==> ScannedBy(h, maps, Fed(st.(pending := ""), x)) == ScannedBy(h, maps, Fed(st, x)))
      && (c.Unfinished? ==> ScannedBy(h, maps, Fed(st.(pending := c.held), x)) == ScannedBy(h, maps, Fed(st, x)))
      && (c.Tag? ==>
           ScannedBy(h, maps, Fed(st, x)) == ScannedBy(h, maps, Fed(Opened(maps, st, c.tag, c.rest), x)))
  {
    var p := st.pending;
    match NextTag(p) {
      case NoTag =>
        NoTagGrows(p, x);
        assert "" + x == x;
      case Unfinished(held) => UnfinishedGrows(p, x);
      case Tag(tag, rest) => TagGrows(p, x);
    }
    hide NextTag;
  }

  lemma NoClose(p: string)
    requires forall i :: 0 <= i < |p| ==> i + 8 > |p| || p[i] != '<'
    ensures Find(Lower(p), CLOSE, 0).None?
  {
    forall k | 0 <= k ensures !At(Lower(p), CLOSE, k) {
      if k + 8 <= |p| {
        assert Lower(p)[k..k + 8][0] == LowerChar(p[k]);
      }
    }
    FindNone(Lower(p), CLOSE, 0);
  }

  lemma ClosesAtOnce(p: string)
    requires Starts(p, CLOSE)
    ensures Find(Lower(p), CLOSE, 0) == Some(0)
  {
    assert Lower(p)[..8] == CLOSE;
    FindIs(Lower(p), CLOSE, 0, 0);
  }

  predicate Starts(p: string, pat: string) {
    pat <= p
  }

  /** Seven characters are the least that will do: with fewer a close tag cut before its last letter is
      missed, the body never ends, and the map is not noted. */
  lemma FewerHeldMissTheTag(h: nat, maps: Maps)
    requires h <= 6
    ensures var st := State("</scrip", true, false, "", []);
      && ScannedBy(h, maps, Fed(ScannedBy(h, maps, st), "t")).capturing
      && !ScannedBy(h, maps, Fed(st, "t")).capturing
  {
    var st := State("</scrip", true, false, "", []);
    var p := st.pending;
    NoClose(p);
    var t := Held(h, st);
    assert ScannedBy(h, maps, st) == t && t.pending == p[7 - h..];
    var q := t.pending + "t";
    NoClose(q);
    assert ScannedBy(h, maps, Fed(t, "t")) == Held(h, Fed(t, "t"));
    ClosesAtOnce(p + "t");
    var u := Noted(Fed(st, "t"), 0);
    assert !u.capturing && u.pending == "</script";
    OpenStays(h, maps, u);
  }

  lemma OpenStays(h: nat, maps: Maps, st: State)
    requires !st.capturing && st.pending == "</script"
    ensures !ScannedBy(h, maps, st).capturing
  {
    var p := st.pending;
    forall k | 0 <= k ensures !At(p, ">", k) {
      if k + 1 <= |p| {
        assert p[k..k + 1][0] == p[k];
      }
    }
    FindNone(p, ">", 0);
  }

  // ----- what is noted -----

  /** A document by its parts: text without a tag, a tag that opens no map, a map's tag with its body and the tag that
      closes it. */
  datatype Part = Plain(text: string) | Other(tag: string) | Map(tag: string, body: string, close: string)

  /** The close tag stands where it first could, in any case, and itself opens nothing. */
  predicate PartOk(maps: Maps, p: Part) {
    match p
    case Plain(text) => '<' !in text
    case Other(tag) => WholeTag(tag) && !maps(tag)
    case Map(tag, body, close) =>
      && WholeTag(tag) && maps(tag) && WholeTag(close) && !maps(close) && At(Lower(close), "</script", 0)
      && forall m :: 0 <= m < |body| ==> !At(Lower(body + close), "</script", m)
  }

  function DocText(parts: seq<Part>): string
    decreases |parts|
  {
    if parts == [] then "" else PartText(parts[0], DocText(parts[1..]))
  }

  function PartText(p: Part, rest: string): string {
    match p
    case Plain(text) => text + rest
    case Other(tag) => tag + rest
    case Map(tag, body, close) => tag + (body + (close + rest))
  }

  /** A map's body, unless it is past the cap. */
  function BodyOf(p: Part): seq<string> {
    if p.Map? && |p.body| <= 256 * 1024 then [p.body] else []
  }

  /** The bodies of the maps in document order. */
  function Bodies(parts: seq<Part>): seq<string>
    decreases |parts|
  {
    if parts == [] then [] else BodyOf(parts[0]) + Bodies(parts[1..])
  }

  function Outside(pending: string, notes: seq<string>): State {
    State(pending, false, false, "", notes)
  }

  lemma TextIsPassed(maps: Maps, t: string, rest: string, notes: seq<string>)
    requires '<' !in t
    ensures Scanned(maps, Outside(t + rest, notes)) == Scanned(maps, Outside(rest, notes))
  {
    PlainIsNoTag(t, rest);
    hide NextTag;
  }

  lemma TagIsPassed(maps: Maps, tag: string, rest: string, notes: seq<string>)
    requires WholeTag(tag) && !maps(tag)
    ensures Scanned(maps, Outside(tag + rest, notes)) == Scanned(maps, Outside(rest, notes))
  {
    TagIsNext(tag, rest);
    hide NextTag;
  }

  lemma BodyIsNoted(maps: Maps, body: string, close: string, rest: string, notes: seq<string>)
    requires At(Lower(close), "</script", 0) && forall m :: 0 <= m < |body| ==> !At(Lower(body + close), "</script", m)
    ensures Scanned(maps, State(body + (close + rest), true, false, "", notes))
         == Scanned(maps, Outside(close + rest, notes + if |body| <= 256 * 1024 then [body] else []))
  {
    var p := body + (close + rest);
    assert p == (body + close) + rest;
    LowerJoin(body + close, rest);
    LowerJoin(body, close);
    assert At(Lower(body + close), CLOSE, |body|) by {
      assert (Lower(body) + Lower(close))[|body|..|body| + 8] == Lower(close)[0..8];
    }
    FindIs(Lower(body + close), CLOSE, 0, |body|);
    FindGrows(Lower(body + close), Lower(rest), CLOSE, 0);
    assert p[..|body|] == body && p[|body|..] == close + rest && "" + body == body;
    hide Find, Lower, NextTag;
    var st := State(p, true, false, "", notes);
    assert notes + [] == notes;
    assert Noted(st, |body|) == Outside(close + rest, notes + if |body| <= 256 * 1024 then [body] else []);
  }

  lemma MapIsNoted(maps: Maps, tag: string, body: string, close: string, rest: string, notes: seq<string>)
    requires PartOk(maps, Map(tag, body, close))
    ensures Scanned(maps, Outside(tag + (body + (close + rest)), notes))
         == Scanned(maps, Outside(rest, notes + if |body| <= 256 * 1024 then [body] else []))
  {
    TagIsNext(tag, body + (close + rest));
    BodyIsNoted(maps, body, close, rest, notes);
    TagIsPassed(maps, close, rest, notes + if |body| <= 256 * 1024 then [body] else []);
    hide NextTag, Find, Lower;
  }

  lemma PartIsScanned(maps: Maps, p: Part, rest: string, notes: seq<string>)
    requires PartOk(maps, p)
    ensures Scanned(maps, Outside(PartText(p, rest), notes)) == Scanned(maps, Outside(rest, notes + BodyOf(p)))
  {
    assert notes + [] == notes;
    match p
    case Plain(text) => TextIsPassed(maps, text, rest, notes);
    case Other(tag) => TagIsPassed(maps, tag, rest, notes);
    case Map(tag, body, close) => MapIsNoted(maps, tag, body, close, rest, notes);
    hide Scanned, PartOk, Outside;
  }

  /** What is noted are the bodies between the map tags and the tags that close them, in document order. */
  lemma {:induction false} NotesAreTheBodies(maps: Maps, parts: seq<Part>, notes: seq<string>)
    requires forall p <- parts :: PartOk(maps, p)
    ensures Scanned(maps, Outside(DocText(parts), notes)) == Outside("", notes + Bodies(parts))
    decreases |parts|
  {
    hide Scanned, PartOk, Outside, PartText, BodyOf;
    if parts == [] {
      assert notes + [] == notes;
      NothingScanned(maps, notes);
    } else {
      assert parts[0] in parts;
      PartIsScanned(maps, parts[0], DocText(parts[1..]), notes);
      NotesAreTheBodies(maps, parts[1..], notes + BodyOf(parts[0]));
      assert notes + BodyOf(parts[0]) + Bodies(parts[1..]) == notes + (BodyOf(parts[0]) + Bodies(parts[1..]));
    }
  }

  lemma NothingScanned(maps: Maps, notes: seq<string>)
    ensures Scanned(maps, Outside("", notes)) == Outside("", notes)
  {
  }

  // ----- any chunking -----

  datatype Session = Session(scan: State, fed: nat, done: bool)

  const START := Session(EMPTY, 0, false)

  function Feed(maps: Maps, s: Session, text: string): Session {
    if s.done then s
    else
      var fed := s.fed + |text|;
      Session(Bounded(maps, Fed(s.scan, text)), fed, fed >= SCAN_MAX)
  }

  function Text(chunks: seq<string>): string
    decreases |chunks|
  {
    if chunks == [] then "" else Text(chunks[..|chunks| - 1]) + chunks[|chunks| - 1]
  }

  function FeedAll(maps: Maps, chunks: seq<string>): Session
    decreases |chunks|
  {
    if chunks == [] then START else Feed(maps, FeedAll(maps, chunks[..|chunks| - 1]), chunks[|chunks| - 1])
  }

  /** At no point of the text is an unfinished tag longer than the hold. */
  ghost predicate Roomy(maps: Maps, text: string) {
    forall k :: 0 <= k <= |text| ==>
      var st := Scanned(maps, Fed(EMPTY, text[..k])); st.capturing || |st.pending| <= 64 * 1024
  }

  lemma RoomyPrefix(maps: Maps, text: string, x: string)
    requires Roomy(maps, text + x)
    ensures Roomy(maps, text)
    ensures var st := Scanned(maps, Fed(EMPTY, text + x)); st.capturing || |st.pending| <= TAG_HOLD
  {
    hide Scanned;
    assert forall k :: 0 <= k <= |text| ==> (text + x)[..k] == text[..k];
    assert (text + x)[..|text + x|] == text + x;
  }

  /** What the whole text scans to. */
  function Whole(maps: Maps, text: string): Session {
    Session(Scanned(maps, Fed(EMPTY, text)), |text|, false)
  }

  lemma WholeIsTidy(maps: Maps, text: string)
    requires |text| <= BODY_CAP
    ensures var st := Scanned(maps, Fed(EMPTY, text));
      !st.truncated && (st.capturing || st.body == "") && Weight(st) <= |text|
  {
    var st := Fed(EMPTY, text);
    assert "" + text == text && st.pending == text;
    hide Scanned;
    ScanTwice(HOLD_BACK, maps, st, "");
    WeightShrinks(HOLD_BACK, maps, st);
  }

  lemma FedTwice(a: string, b: string)
    ensures Fed(Fed(EMPTY, a), b) == Fed(EMPTY, a + b)
    ensures Fed(EMPTY, a).pending == a
  {
    assert ("" + a) + b == "" + (a + b) && "" + a == a;
  }

  lemma RoomIsEnough(maps: Maps, st: State)
    requires Scanned(maps, st).capturing || |Scanned(maps, st).pending| <= TAG_HOLD
    ensures Bounded(maps, st) == Scanned(maps, st)
  {
    hide Scanned;
  }

  lemma FeedOpen(maps: Maps, s: Session, x: string)
    requires !s.done && s.fed + |x| < SCAN_MAX
    ensures Feed(maps, s, x) == Session(Bounded(maps, Fed(s.scan, x)), s.fed + |x|, false)
  {
  }

  lemma OneMoreChunk(maps: Maps, front: string, x: string)
    requires |front + x| < SCAN_MAX && Roomy(maps, front + x)
    ensures Feed(maps, Whole(maps, front), x) == Whole(maps, front + x)
  {
    RoomyPrefix(maps, front, x);
    WholeIsTidy(maps, front);
    FedTwice(front, x);
    var st := Fed(EMPTY, front);
    assert Weight(st) == |front|;
    hide Scanned, Roomy, Weight, Fed, Feed, Bounded;
    ScanTwice(HOLD_BACK, maps, st, x);
    RoomIsEnough(maps, Fed(Scanned(maps, st), x));
    FeedOpen(maps, Whole(maps, front), x);
  }

  /** The result of feeding chunks is the scan of their whole text. */
  lemma {:induction false} ChunksDoNotMatter(maps: Maps, chunks: seq<string>)
    requires |Text(chunks)| < SCAN_MAX && Roomy(maps, Text(chunks))
    ensures FeedAll(maps, chunks) == Whole(maps, Text(chunks))
    decreases |chunks|
  {
    if chunks == [] {
      NothingFed(maps);
    } else {
      var front, x := Text(chunks[..|chunks| - 1]), chunks[|chunks| - 1];
      assert Text(chunks) == front + x;
      hide Roomy, Feed, Whole;
      RoomyPrefix(maps, front, x);
      ChunksDoNotMatter(maps, chunks[..|chunks| - 1]);
      OneMoreChunk(maps, front, x);
    }
  }

  lemma NothingFed(maps: Maps)
    ensures Whole(maps, "") == START
  {
    assert "" + "" == "";
  }

  /** Any two chunkings of one document give the same notes and the same final state, as long as the text
      stays under the scan bound and no held tag passes the hold. */
  lemma AnyTwoChunkings(maps: Maps, a: seq<string>, b: seq<string>)
    requires Text(a) == Text(b) && |Text(a)| < 256 * 1024 && Roomy(maps, Text(a))
    ensures FeedAll(maps, a) == FeedAll(maps, b) == Feed(maps, START, Text(a))
  {
    ChunksDoNotMatter(maps, a);
    ChunksDoNotMatter(maps, b);
    NothingFed(maps);
    assert "" + Text(a) == Text(a);
    hide *;
    OneMoreChunk(maps, "", Text(a));
  }

  /** So however a document is cut into chunks, its maps are noted, whole and in order. */
  lemma MapsAreNoted(maps: Maps, parts: seq<Part>, chunks: seq<string>)
    requires (forall p <- parts :: PartOk(maps, p)) && Text(chunks) == DocText(parts)
    requires |Text(chunks)| < 256 * 1024 && Roomy(maps, Text(chunks))
    ensures FeedAll(maps, chunks).scan.notes == Bodies(parts) && !FeedAll(maps, chunks).scan.capturing
  {
    ChunksDoNotMatter(maps, chunks);
    NotesAreTheBodies(maps, parts, []);
    assert [] + Bodies(parts) == Bodies(parts);
    assert Fed(EMPTY, Text(chunks)) == Outside(DocText(parts), []) by {
      assert "" + Text(chunks) == Text(chunks);
    }
    hide Scanned, Bodies, DocText, Roomy, FeedAll;
  }

  /** The scanner itself, with its variables. */
  class Scanner {
    const maps: Maps
    var pending: string
    var fed: nat
    var capturing: bool
    var truncated: bool
    var body: string
    var done: bool
    var notes: seq<string>

    function Now(): Session
      reads this
    {
      Session(State(pending, capturing, truncated, body, notes), fed, done)
    }

    constructor (m: Maps)
      ensures maps == m && Now() == START
    {
      maps := m;
      pending, fed, capturing, truncated, body, done, notes := "", 0, false, false, "", false, [];
    }

    method Take(text: string)
      modifies this
      ensures Now() == Feed(maps, old(Now()), text)
    {
      if done {
        return;
      }
      pending := pending + text;
      fed := fed + |text|;
      Loop();
      if fed >= SCAN_MAX {
        done := true;
      }
    }

    method Loop()
      modifies `pending, `capturing, `truncated, `body, `notes
      ensures Now().scan == Bounded(maps, old(Now().scan))
    {
      var more := true;
      while more
        invariant if more then Scanned(maps, Now().scan) == Scanned(maps, old(Now().scan))
                  else Now().scan == Bounded(maps, old(Now().scan))
        decreases more, |pending|, if capturing then 1 else 0
      {
        if !capturing {
          more := NextOpening();
        } else {
          more := NextClosing();
        }
      }
    }

    /** One tag outside a body; false when there is no whole one. */
    method NextOpening() returns (more: bool)
      requires !capturing
      modifies `pending, `capturing, `truncated, `body
      ensures more ==> |pending| < |old(pending)| && Scanned(maps, Now().scan) == Scanned(maps, old(Now().scan))
      ensures !more ==> Now().scan == Bounded(maps, old(Now().scan))
    {
      hide Find;
      match NextTag(pending) {
        case NoTag =>
          pending := "";
          more := false;
        case Unfinished(held) =>
          pending := if |held| > TAG_HOLD then "" else held;
          more := false;
        case Tag(tag, rest) =>
          hide NextTag;
          if maps(tag) {
            capturing, truncated, body := true, false, "";
          }
          pending := rest;
          more := true;
      }
    }

    /** The end of the body, if it is there; otherwise capture all but what could still become it. */
    method NextClosing() returns (more: bool)
      requires capturing
      modifies `pending, `capturing, `truncated, `body, `notes
      ensures more ==> !capturing && |pending| <= |old(pending)|
                       && Scanned(maps, Now().scan) == Scanned(maps, old(Now().scan))
      ensures !more ==> Now().scan == Bounded(maps, old(Now().scan))
    {
      hide NextTag, Lower;
      var m := Find(Lower(pending), CLOSE, 0);
      hide Find;
      if m.None? {
        var hold := if 8 < |pending| then 8 else |pending|;
        body := body + pending[..|pending| - hold];
        if |body| > BODY_CAP {
          truncated := true;
        }
        pending := pending[|pending| - hold..];
        return false;
      }
      body := body + pending[..m.value];
      pending := pending[m.value..];
      if !truncated && |body| <= BODY_CAP {
        notes := notes + [body];
      }
      capturing, body := false, "";
      more := true;
    }
  }
}
