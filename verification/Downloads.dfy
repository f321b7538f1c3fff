/** The download registry as steps between awaits (app/src/downloads.ts): the ring of entries, the partial
    buffers under one global budget, the browser's stream and the resume pump. An entry is found by its
    number; what a closure captured of an evicted entry stays in `info`. */
module Downloads {
  import opened Common

  const RING := 200
  const RESUME_MAX := 64 * 1024 * 1024

  datatype Status = Active | Done | Failed | Cancelled | Paused

  datatype Entry = Entry(size: int, received: nat, status: Status, resumable: bool)

  /** Buffered chunks and the count the source keeps beside them. */
  datatype Partial = Partial(chunks: seq<bytes>, n: nat)

  /** The pipe of a wrapped stream: `tracked` says the wrap found its entry. */
  datatype Pipe = Flowing(sent: nat, tracked: bool) | Broken(tracked: bool) | Finished

  /** Where a resume stands: reading storage, storage read, waiting for the answer, draining it. */
  datatype Pump = Loading | Loaded | Fetching | Pumping

  datatype State = State(
    order: seq<nat>, info: map<nat, Entry>, partials: map<nat, Partial>, streams: set<nat>,
    pumps: map<nat, Pump>, pipes: map<nat, Pipe>, wrapped: set<nat>, next: nat)

  predicate Distinct(s: seq<nat>) {
    forall a, b :: 0 <= a < b < |s| ==> s[a] != s[b]
  }

  lemma DistinctJoin(a: seq<nat>, b: seq<nat>)
    requires Distinct(a) && Distinct(b) && forall x <- a :: x !in b
    ensures Distinct(a + b)
  {
    var s := a + b;
    forall i, k | 0 <= i < k < |s| ensures s[i] != s[k] {
      if i < |a| {
        assert a[i] in a;
      }
    }
  }

  // ----- buffers -----

  function Flatten(chunks: seq<bytes>): bytes
    decreases |chunks|
  {
    if chunks == [] then [] else Flatten(chunks[..|chunks| - 1]) + chunks[|chunks| - 1]
  }

  /** The bytes held in all buffers. */
  ghost function Total(m: map<nat, Partial>): nat
    decreases |m|
  {
    if m == map[] then 0
    else
      var k :| k in m;
      m[k].n + Total(m - {k})
  }

  lemma {:induction false} TotalSplits(m: map<nat, Partial>, k: nat)
    requires k in m
    ensures Total(m) == m[k].n + Total(m - {k})
    decreases |m|
  {
    var c :| c in m && Total(m) == m[c].n + Total(m - {c});
    if c != k {
      TotalSplits(m - {c}, k);
      assert m - {c} - {k} == m - {k} - {c};
      TotalSplits(m - {k}, c);
    }
  }

  lemma TotalWithout(m: map<nat, Partial>, k: nat)
    ensures Total(m - {k}) == Total(m) - if k in m then m[k].n else 0
  {
    if k in m {
      TotalSplits(m, k);
    } else {
      assert m - {k} == m;
    }
  }

  lemma TotalUpdated(m: map<nat, Partial>, k: nat, p: Partial)
    ensures Total(m[k := p]) == Total(m - {k}) + p.n
  {
    TotalSplits(m[k := p], k);
    assert m[k := p] - {k} == m - {k};
  }

  // ----- dropping and admitting -----

  function Unresumable(st: State, id: nat): State {
    if id in st.order && id in st.info then st.(info := st.info[id := st.info[id].(resumable := false)]) else st
  }

  function Forget(st: State, id: nat): State {
    st.(partials := st.partials - {id})
  }

  function Drop(st: State, id: nat): State {
    Forget(Unresumable(st, id), id)
  }

  predicate IsActive(st: State, id: nat) {
    id in st.info && st.info[id].status == Active
  }

  /** The other entries that hold a buffer and are, or are not, active; in ring order. */
  function Holders(st: State, order: seq<nat>, id: nat, active: bool): (r: seq<nat>)
    ensures forall v :: v in r <==> v in order && v != id && v in st.partials && IsActive(st, v) == active
    decreases |order|
  {
    if order == [] then []
    else
      (if order[0] != id && order[0] in st.partials && IsActive(st, order[0]) == active then [order[0]] else [])
      + Holders(st, order[1..], id, active)
  }

  /** The stable sort by activity puts the idle holders first. */
  function Victims(st: State, id: nat): seq<nat> {
    Holders(st, st.order, id, false) + Holders(st, st.order, id, true)
  }

  /** Drop victims one by one until n more bytes fit. */
  ghost function Shed(st: State, victims: seq<nat>, n: nat, budget: nat): State
    decreases |victims|
  {
    if Total(st.partials) + n <= budget || victims == [] then st
    else Shed(Drop(st, victims[0]), victims[1..], n, budget)
  }

  ghost function Admitted(st: State, id: nat, n: nat, budget: nat): State {
    Shed(st, Victims(st, id), n, budget)
  }

  ghost function Buffered(st: State, id: nat, chunk: bytes, budget: nat): State {
    if id !in st.info || !st.info[id].resumable || id !in st.partials then st
    else if st.partials[id].n + |chunk| > RESUME_MAX then Drop(st, id)
    else
      var t := Admitted(st, id, |chunk|, budget);
      if Total(t.partials) + |chunk| > budget then Drop(t, id)
      else if id !in t.partials then t
      else t.(partials := t.partials[id := Partial(t.partials[id].chunks + [chunk], t.partials[id].n + |chunk|)])
  }

  // ----- the ring -----

  predicate Idle(st: State, id: nat) {
    id !in st.streams && id !in st.pumps
  }

  /** The first entry with neither a stream nor a resume, or the length. */
  function FirstIdle(st: State, i: nat): (r: nat)
    requires i <= |st.order|
    ensures i <= r <= |st.order|
    ensures r < |st.order| ==> Idle(st, st.order[r])
    ensures forall k :: i <= k < r ==> !Idle(st, st.order[k])
    decreases |st.order| - i
  {
    if i == |st.order| || Idle(st, st.order[i]) then i else FirstIdle(st, i + 1)
  }

  function Pushed(st: State, size: int): State {
    st.(order := st.order + [st.next],
        info := st.info[st.next := Entry(size, 0, Active, size == -1 || size <= RESUME_MAX)],
        next := st.next + 1)
  }

  function Evicted(st: State, i: nat): State
    requires i < |st.order|
  {
    Forget(st.(order := st.order[..i] + st.order[i + 1..]), st.order[i])
  }

  function Begun(st: State, size: int): State {
    var p := Pushed(st, size);
    if |p.order| > RING && FirstIdle(p, 0) < |p.order| then Evicted(p, FirstIdle(p, 0)) else p
  }
}
