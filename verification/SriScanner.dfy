/** The streaming scan for integrity attributes (app/src/sri.ts): every whole tag is looked at once, and at most
    128 pairs are kept. What a tag yields is a parameter. */
module SriScanner {
  import opened Common
  import opened Tags

  const SCAN_MAX := 256 * 1024
  const TAG_HOLD := 64 * 1024
  const PAIRS_CAP := 128

  /** The (address, integrity) pair of a tag, if it has one. */
  type Reader = string -> Option<(string, string)>

  datatype State = State(pending: string, pairs: nat, done: bool, notes: seq<(string, string)>)

  const EMPTY := State("", 0, false, [])

  function Fed(st: State, text: string): State {
    st.(pending := st.pending + text)
  }

  /** One tag: past the cap the scan is over. */
  function Looked(reader: Reader, st: State, tag: string, rest: string): (r: State)
    ensures !r.done ==> r.pending == rest
  {
    if st.pairs >= PAIRS_CAP then st.(pending := "", done := true)
    else
      match reader(tag)
      case None => st.(pending := rest)
      case Some(pair) => st.(pending := rest, pairs := st.pairs + 1, notes := st.notes + [pair])
  }

  /** The whole loop of one feed, but for the bound on a held tag. */
  function Scanned(reader: Reader, st: State): State
    decreases |st.pending|
  {
    if st.done then st
    else
      match NextTag(st.pending)
      case NoTag => st.(pending := "")
      case Unfinished(held) => st.(pending := held)
      case Tag(tag, rest) =>
        var next := Looked(reader, st, tag, rest);
        if next.done then next else Scanned(reader, next)
  }

  function Bounded(reader: Reader, st: State): State {
    var r := Scanned(reader, st);
    if |r.pending| > TAG_HOLD then r.(pending := "") else r
  }

  // ----- one step more -----

  /** More text for a scan that is over is not looked at. */
  function FedOpen(st: State, x: string): State {
    if st.done then st else Fed(st, x)
  }

  lemma LookedFed(reader: Reader, st: State, tag: string, rest: string, x: string)
    requires !st.done
    ensures Looked(reader, Fed(st, x), tag, rest + x) == FedOpen(Looked(reader, st, tag, rest), x)
  {
  }

  lemma WholeTagTwice(reader: Reader, st: State, x: string)
    requires !st.done && NextTag(st.pending).Tag?
    ensures var next := Looked(reader, st, NextTag(st.pending).tag, NextTag(st.pending).rest);
      Scanned(reader, Fed(st, x)) == if next.done then next else Scanned(reader, Fed(next, x))
  {
    TagGrows(st.pending, x);
    LookedFed(reader, st, NextTag(st.pending).tag, NextTag(st.pending).rest, x);
    hide NextTag, Looked;
  }

  /** Only the next tag counts, not the text before it. */
  lemma SameCut(reader: Reader, a: State, b: State)
    requires !a.done && a.(pending := b.pending) == b && NextTag(a.pending) == NextTag(b.pending)
    ensures Scanned(reader, a) == Scanned(reader, b)
  {
    hide NextTag;
    match NextTag(a.pending) {
      case Tag(tag, rest) => assert Looked(reader, a, tag, rest) == Looked(reader, b, tag, rest);
      case _ =>
    }
  }

  lemma NoTagTwice(reader: Reader, st: State, x: string)
    requires !st.done && !NextTag(st.pending).Tag?
    ensures Scanned(reader, Fed(Scanned(reader, st), x)) == Scanned(reader, Fed(st, x))
  {
    var p := st.pending;
    var t := Scanned(reader, st);
    if NextTag(p).NoTag? {
      NoTagGrows(p, x);
      assert t == st.(pending := "") && "" + x == x;
    } else {
      UnfinishedGrows(p, x);
      assert t == st.(pending := NextTag(p).held);
    }
    hide NextTag, Scanned;
    SameCut(reader, Fed(t, x), Fed(st, x));
  }

  /** Feeding a text in two parts scans what feeding it whole scans. */
  lemma {:induction false} ScanTwice(reader: Reader, st: State, x: string)
    requires !st.done
    ensures Scanned(reader, FedOpen(Scanned(reader, st), x)) == Scanned(reader, Fed(st, x))
    decreases |st.pending|
  {
    hide NextTag, Looked;
    if NextTag(st.pending).Tag? {
      WholeTagTwice(reader, st, x);
      var next := Looked(reader, st, NextTag(st.pending).tag, NextTag(st.pending).rest);
      if !next.done {
        ScanTwice(reader, next, x);
      }
    } else {
      NoTagTwice(reader, st, x);
    }
  }

  // ----- any chunking -----

  datatype Session = Session(scan: State, fed: nat, over: bool)

  const START := Session(EMPTY, 0, false)

  /** One chunk; `over` is the scan's own flag, raised by the pair cap or by the text bound. */
  function Feed(reader: Reader, s: Session, text: string): Session {
    if s.over then s
    else
      var r := Bounded(reader, Fed(s.scan, text));
      Session(r, s.fed + |text|, r.done || s.fed + |text| >= SCAN_MAX)
  }

  function Text(chunks: seq<string>): string
    decreases |chunks|
  {
    if chunks == [] then "" else Text(chunks[..|chunks| - 1]) + chunks[|chunks| - 1]
  }

  function FeedAll(reader: Reader, chunks: seq<string>): Session
    decreases |chunks|
  {
    if chunks == [] then START else Feed(reader, FeedAll(reader, chunks[..|chunks| - 1]), chunks[|chunks| - 1])
  }

  /** At no point of the text is an unfinished tag longer than the hold. */
  ghost predicate Roomy(reader: Reader, text: string) {
    forall k :: 0 <= k <= |text| ==> |Scanned(reader, Fed(EMPTY, text[..k])).pending| <= 64 * 1024
  }

  lemma RoomyPrefix(reader: Reader, text: string, x: string)
    requires Roomy(reader, text + x)
    ensures Roomy(reader, text)
    ensures |Scanned(reader, Fed(EMPTY, text + x)).pending| <= TAG_HOLD
  {
    hide Scanned;
    assert forall k :: 0 <= k <= |text| ==> (text + x)[..k] == text[..k];
    assert (text + x)[..|text + x|] == text + x;
  }

  /** The session a text leads to, but for how much of it was counted after the scan was over. */
  predicate Reached(reader: Reader, s: Session, text: string) {
    var st := Scanned(reader, Fed(EMPTY, text));
    s.scan == st && s.over == st.done && s.fed <= |text| && (!st.done ==> s.fed == |text|)
  }

  lemma FedTwice(a: string, b: string)
    ensures Fed(Fed(EMPTY, a), b) == Fed(EMPTY, a + b) && !Fed(EMPTY, a).done
  {
    assert ("" + a) + b == "" + (a + b);
  }

  lemma DoneStays(reader: Reader, st: State)
    requires st.done
    ensures Scanned(reader, st) == st
  {
  }

  lemma OneMoreChunk(reader: Reader, s: Session, front: string, x: string)
    requires |front + x| < SCAN_MAX && Roomy(reader, front + x) && Reached(reader, s, front)
    ensures Reached(reader, Feed(reader, s, x), front + x)
  {
    RoomyPrefix(reader, front, x);
    FedTwice(front, x);
    hide Scanned, Roomy, Fed;
    ScanTwice(reader, Fed(EMPTY, front), x);
    if s.over {
      DoneStays(reader, s.scan);
    }
  }

  /** The result of feeding chunks is the scan of their whole text. */
  lemma {:induction false} ChunksDoNotMatter(reader: Reader, chunks: seq<string>)
    requires |Text(chunks)| < SCAN_MAX && Roomy(reader, Text(chunks))
    ensures Reached(reader, FeedAll(reader, chunks), Text(chunks))
    decreases |chunks|
  {
    if chunks == [] {
      NothingFed(reader);
    } else {
      var front, x := Text(chunks[..|chunks| - 1]), chunks[|chunks| - 1];
      assert Text(chunks) == front + x;
      hide Roomy, Feed, Reached;
      RoomyPrefix(reader, front, x);
      ChunksDoNotMatter(reader, chunks[..|chunks| - 1]);
      OneMoreChunk(reader, FeedAll(reader, chunks[..|chunks| - 1]), front, x);
    }
  }

  lemma NothingFed(reader: Reader)
    ensures Reached(reader, START, "")
  {
    assert "" + "" == "";
  }

  /** Any two chunkings of one document give the same pairs and the same final state; only the count of
      characters fed after the scan was over can differ. */
  lemma AnyTwoChunkings(reader: Reader, a: seq<string>, b: seq<string>)
    requires Text(a) == Text(b) && |Text(a)| < 256 * 1024 && Roomy(reader, Text(a))
    ensures var s, t := FeedAll(reader, a), FeedAll(reader, b);
      s.scan == t.scan && s.over == t.over && (!s.over ==> s == t)
  {
    ChunksDoNotMatter(reader, a);
    ChunksDoNotMatter(reader, b);
    hide Scanned, FeedAll, Roomy, Text;
  }

  /** Never more than 128 pairs, whatever is fed. */
  lemma {:induction false} PairsAreCapped(reader: Reader, st: State)
    requires st.pairs == |st.notes| <= 128
    ensures Scanned(reader, st).pairs == |Scanned(reader, st).notes| <= 128
    ensures st.notes <= Scanned(reader, st).notes
    decreases |st.pending|
  {
    hide NextTag;
    if !st.done && NextTag(st.pending).Tag? {
      var next := Looked(reader, st, NextTag(st.pending).tag, NextTag(st.pending).rest);
      if !next.done {
        PairsAreCapped(reader, next);
      }
    }
  }

  // ----- what is noted -----

  /** A document by its parts: text without a tag, and tags. */
  datatype Part = Plain(text: string) | Element(tag: string)

  predicate PartOk(p: Part) {
    match p
    case Plain(text) => '<' !in text
    case Element(tag) => WholeTag(tag)
  }

  function PartText(p: Part): string {
    match p
    case Plain(text) => text
    case Element(tag) => tag
  }

  function DocText(parts: seq<Part>): string
    decreases |parts|
  {
    if parts == [] then "" else PartText(parts[0]) + DocText(parts[1..])
  }

  function PairOf(reader: Reader, p: Part): seq<(string, string)> {
    if p.Element? && reader(p.tag).Some? then [reader(p.tag).value] else []
  }

  /** The pairs that the tags yield, in document order. */
  function Pairs(reader: Reader, parts: seq<Part>): seq<(string, string)>
    decreases |parts|
  {
    if parts == [] then [] else PairOf(reader, parts[0]) + Pairs(reader, parts[1..])
  }

  function Running(pending: string, notes: seq<(string, string)>): State {
    State(pending, |notes|, false, notes)
  }

  lemma PartIsLooked(reader: Reader, p: Part, rest: string, notes: seq<(string, string)>)
    requires PartOk(p) && |notes| < 128
    ensures Scanned(reader, Running(PartText(p) + rest, notes)) == Scanned(reader, Running(rest, notes + PairOf(reader, p)))
  {
    assert notes + [] == notes;
    var st := Running(PartText(p) + rest, notes);
    match p
    case Plain(text) =>
      PlainIsNoTag(text, rest);
      hide NextTag, Scanned;
      SameCut(reader, st, Running(rest, notes));
    case Element(tag) =>
      TagIsNext(tag, rest);
      hide NextTag;
      assert Looked(reader, st, tag, rest) == Running(rest, notes + PairOf(reader, p));
  }

  /** Every tag is looked at once and in order: up to the cap the notes are exactly the pairs that the tags yield. */
  lemma {:induction false} NotesAreThePairs(reader: Reader, parts: seq<Part>, notes: seq<(string, string)>)
    requires (forall p <- parts :: PartOk(p)) && |notes| + |Pairs(reader, parts)| < 128
    ensures Scanned(reader, Running(DocText(parts), notes)) == Running("", notes + Pairs(reader, parts))
    decreases |parts|
  {
    hide Scanned, PartOk, Running, PartText, PairOf;
    if parts == [] {
      assert notes + [] == notes;
      NothingLooked(reader, notes);
    } else {
      assert parts[0] in parts;
      PartIsLooked(reader, parts[0], DocText(parts[1..]), notes);
      NotesAreThePairs(reader, parts[1..], notes + PairOf(reader, parts[0]));
      assert notes + PairOf(reader, parts[0]) + Pairs(reader, parts[1..])
          == notes + (PairOf(reader, parts[0]) + Pairs(reader, parts[1..]));
    }
  }

  lemma NothingLooked(reader: Reader, notes: seq<(string, string)>)
    ensures Scanned(reader, Running("", notes)) == Running("", notes)
  {
  }

  /** However the document is cut into chunks. */
  lemma PairsAreNoted(reader: Reader, parts: seq<Part>, chunks: seq<string>)
    requires (forall p <- parts :: PartOk(p)) && |Pairs(reader, parts)| < 128 && Text(chunks) == DocText(parts)
    requires |Text(chunks)| < 256 * 1024 && Roomy(reader, Text(chunks))
    ensures FeedAll(reader, chunks).scan.notes == Pairs(reader, parts) && !FeedAll(reader, chunks).over
  {
    ChunksDoNotMatter(reader, chunks);
    NotesAreThePairs(reader, parts, []);
    assert [] + Pairs(reader, parts) == Pairs(reader, parts);
    assert Fed(EMPTY, Text(chunks)) == Running(DocText(parts), []) by {
      assert "" + Text(chunks) == Text(chunks);
    }
    hide Scanned, Pairs, DocText, Roomy, FeedAll;
  }

  /** The scanner itself, with its variables. */
  class Scanner {
    const reader: Reader
    var pending: string
    var fed: nat
    var pairs: nat
    var done: bool
    ghost var capped: bool
    var notes: seq<(string, string)>

    ghost function Now(): Session
      reads this
    {
      Session(State(pending, pairs, capped, notes), fed, done)
    }

    ghost predicate Valid()
      reads this
    {
      capped ==> done
    }

    constructor (r: Reader)
      ensures reader == r && Now() == START && Valid()
    {
      reader := r;
      pending, fed, pairs, done, notes := "", 0, 0, false, [];
      capped := false;
    }

    method Process(tag: string)
      requires !done && !capped
      modifies `pairs, `done, `capped, `notes
      ensures var next := Looked(reader, State(pending, old(pairs), false, old(notes)), tag, pending);
        pairs == next.pairs && done == next.done == capped && notes == next.notes
    {
      if pairs >= PAIRS_CAP {
        done, capped := true, true;
        return;
      }
      match reader(tag) {
        case None =>
        case Some(pair) =>
          notes := notes + [pair];
          pairs := pairs + 1;
      }
    }

    method Take(text: string)
      requires Valid()
      modifies this
      ensures Valid() && Now() == Feed(reader, old(Now()), text)
    {
      if done {
        return;
      }
      pending := pending + text;
      fed := fed + |text|;
      Loop();
      if fed >= SCAN_MAX {
        done := true;
      }
    }

    method Loop()
      requires !done && !capped
      modifies `pending, `pairs, `done, `capped, `notes
      ensures Now().scan == Bounded(reader, old(Now().scan)) && done == capped
    {
      var more := true;
      while more
        invariant if more then !done && !capped && Scanned(reader, Now().scan) == Scanned(reader, old(Now().scan))
                  else Now().scan == Bounded(reader, old(Now().scan)) && done == capped
        decreases more, |pending|
      {
        more := Turn();
      }
    }

    /** One tag; false when there is no whole one or the scan is over. */
    method Turn() returns (more: bool)
      requires !done && !capped
      modifies `pending, `pairs, `done, `capped, `notes
      ensures more ==>
        !done && !capped && |pending| < |old(pending)| && Scanned(reader, Now().scan) == Scanned(reader, old(Now().scan))
      ensures !more ==> Now().scan == Bounded(reader, old(Now().scan)) && done == capped
    {
      var cut := NextTag(pending);
      hide NextTag;
      match cut {
        case NoTag =>
          pending := "";
          more := false;
        case Unfinished(held) =>
          pending := if |held| > TAG_HOLD then "" else held;
          more := false;
        case Tag(tag, rest) =>
          more := Whole(tag, rest);
      }
    }

    /** A whole tag is processed, and the text goes on after it. */
    method Whole(tag: string, rest: string) returns (more: bool)
      requires !done && !capped
      modifies `pending, `pairs, `done, `capped, `notes
      ensures Now().scan == Looked(reader, old(Now().scan), tag, rest)
      ensures more == !done && done == capped && (more ==> pending == rest)
    {
      pending := rest;
      Process(tag);
      more := !done;
      if done {
        pending := "";
      }
    }
  }
}
