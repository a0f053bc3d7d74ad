/** The document buffer: many enqueuing threads, a periodic flusher, threads
    that flush on demand, and the destructor's tail flush, in any interleaving.
    Documents are numbered in the order they are enqueued. */
module DocumentBatcher {
  import opened Wrappers
  import ElasticPublisher

  type Buffer = map<string, seq<nat>>

  function Queued(b: Buffer, index: string): seq<nat> {
    if index in b then b[index] else []
  }

  function Append(b: Buffer, index: string, docs: seq<nat>): Buffer {
    b[index := Queued(b, index) + docs]
  }

  /** pending_ and the critical sections that touch it. */
  class Batcher {
    var pending: Buffer

    constructor ()
      ensures pending == map[]
    {
      pending := map[];
    }

    method Enqueue(index: string, docs: seq<nat>)
      modifies this
      ensures pending == Append(old(pending), index, docs)
    {
      if index !in pending {
        pending := pending[index := []];
      }
      pending := pending[index := pending[index] + docs];
    }

    /** flush's critical section: the whole buffer changes hands at once. */
    method Swap() returns (batch: Buffer)
      modifies this
      ensures batch == old(pending) && pending == map[]
    {
      batch := map[];
      if pending != map[] {
        batch, pending := pending, batch;
      }
    }
  }

  // -- the threads ---------------------------------------------------------------

  const FLUSHER: nat := 0
  const DESTRUCTOR: nat := 1

  /** One call of bulkIndexDocuments. */
  datatype Call = Call(index: string, docs: seq<nat>)

  datatype Home = Waiting | Held(thread: nat) | Handed(call: nat)

  /** `indices` and `homes` are the proof's ledger, by document. `tail` is how
      many documents existed when the destructor took the buffer. */
  datatype World = World(
    pending: Buffer,
    hands: map<nat, Buffer>,
    calls: seq<Call>,
    indices: seq<string>,
    homes: seq<Home>,
    stop: bool,
    exited: bool,
    tail: Option<nat>)

  datatype Step =
    | Enqueues(index: string, n: nat)
    | Flushes(thread: nat)
    | Delivers(thread: nat, index: string)
    | Returns(thread: nat)
    | Stops
    | FlusherExits
    | FlushesTail

  predicate Enabled(x: World, s: Step) {
    match s
    case Enqueues(_, n) => n > 0
    case Flushes(t) => t !in x.hands && t != DESTRUCTOR && x.pending != map[] && (t == FLUSHER ==> !x.stop && !x.exited)
    case Delivers(t, index) => t in x.hands && index in x.hands[t]
    case Returns(t) => t in x.hands && x.hands[t] == map[]
    case Stops => true
    case FlusherExits => x.stop && FLUSHER !in x.hands && !x.exited
    case FlushesTail => x.exited && x.tail.None? && DESTRUCTOR !in x.hands
  }

  function Numbers(from: nat, n: nat): (r: seq<nat>)
    ensures |r| == n && forall i :: 0 <= i < n ==> r[i] == from + i
  {
    seq(n, i => from + i)
  }

  function Do(x: World, s: Step): World
    requires Enabled(x, s)
  {
    match s
    case Enqueues(index, n) =>
      x.(pending := Append(x.pending, index, Numbers(|x.homes|, n)),
         indices := x.indices + seq(n, _ => index), homes := x.homes + seq(n, _ => Waiting))
    case Flushes(t) => Taken(x, t)
    case Delivers(t, index) =>
      x.(hands := x.hands[t := x.hands[t] - {index}], calls := x.calls + [Call(index, x.hands[t][index])],
         homes := Moved(x.homes, x.hands[t][index], Handed(|x.calls|)))
    case Returns(t) => x.(hands := x.hands - {t})
    case Stops => x.(stop := true)
    case FlusherExits => x.(exited := true)
    case FlushesTail => Taken(x, DESTRUCTOR).(tail := Some(|x.homes|))
  }

  function Taken(x: World, t: nat): World {
    x.(pending := map[], hands := x.hands[t := x.pending], homes := Recast(x.homes, Held(t)))
  }

  /** Everything waiting changes hands. */
  function Recast(homes: seq<Home>, home: Home): (r: seq<Home>)
    ensures |r| == |homes| && forall d :: 0 <= d < |homes| ==> r[d] == if homes[d].Waiting? then home else homes[d]
  {
    seq(|homes|, d requires 0 <= d < |homes| => if homes[d].Waiting? then home else homes[d])
  }

  function Moved(homes: seq<Home>, docs: seq<nat>, home: Home): (r: seq<Home>)
    ensures |r| == |homes| && forall d :: 0 <= d < |homes| ==> r[d] == if d in docs then home else homes[d]
  {
    seq(|homes|, d requires 0 <= d < |homes| => if d in docs then home else homes[d])
  }

  const START := World(map[], map[], [], [], [], false, false, None)

  ghost predicate Valid(x: World, steps: seq<Step>)
    decreases |steps|
  {
    steps == [] || (Enabled(x, steps[0]) && Valid(Do(x, steps[0]), steps[1..]))
  }

  function After(x: World, steps: seq<Step>): World
    requires Valid(x, steps)
    decreases |steps|
  {
    if steps == [] then x else After(Do(x, steps[0]), steps[1..])
  }

  // -- the ledger is where the documents are ---------------------------------------

  ghost predicate Ascending(docs: seq<nat>) {
    forall i, j :: 0 <= i < j < |docs| ==> docs[i] < docs[j]
  }

  /** `docs` are documents of `index`, in enqueue order, all of them at `home`. */
  ghost predicate Row(docs: seq<nat>, index: string, home: Home, indices: seq<string>, homes: seq<Home>) {
    && Ascending(docs) && |indices| == |homes|
    && forall i :: 0 <= i < |docs| ==> docs[i] < |homes| && homes[docs[i]] == home && indices[docs[i]] == index
  }

  ghost predicate Rows(b: Buffer, home: Home, indices: seq<string>, homes: seq<Home>) {
    forall index :: index in b ==> Row(b[index], index, home, indices, homes)
  }

  /** Document `d`, of this index, is here. */
  predicate AtHome(x: World, d: nat, index: string, home: Home) {
    match home
    case Waiting => d in Queued(x.pending, index)
    case Held(t) => t in x.hands && d in Queued(x.hands[t], index)
    case Handed(k) => k < |x.calls| && x.calls[k].index == index && d in x.calls[k].docs
  }

  ghost predicate Inv(x: World) {
    && |x.indices| == |x.homes|
    && Rows(x.pending, Waiting, x.indices, x.homes)
    && (forall t: nat :: t in x.hands ==> Rows(x.hands[t], Held(t), x.indices, x.homes))
    && (forall k: nat :: k < |x.calls| ==> Row(x.calls[k].docs, x.calls[k].index, Handed(k), x.indices, x.homes))
    && (forall d: nat :: d < |x.homes| ==> AtHome(x, d, x.indices[d], x.homes[d]))
    && (x.tail.Some? ==> x.tail.value <= |x.homes| && x.exited)
    && (x.tail.Some? ==> forall d: nat :: d < x.tail.value ==> !x.homes[d].Waiting?)
  }

  /** Rows elsewhere survive a change of other homes, and new documents. */
  lemma RowStays(docs: seq<nat>, index: string, home: Home, x: World, y: World)
    requires Row(docs, index, home, x.indices, x.homes) && |y.indices| == |y.homes| && |x.homes| <= |y.homes|
    requires forall d: nat :: d < |x.homes| ==> y.indices[d] == x.indices[d]
    requires forall d: nat :: d < |x.homes| && x.homes[d] == home ==> y.homes[d] == home
    ensures Row(docs, index, home, y.indices, y.homes)
  {
  }

  lemma EnqueueKeepsInv(x: World, index: string, n: nat)
    requires Inv(x) && n > 0
    ensures Inv(Do(x, Enqueues(index, n)))
  {
    var y := Do(x, Enqueues(index, n));
    var was, new' := Queued(x.pending, index), Numbers(|x.homes|, n);
    if index in x.pending {
      RowStays(was, index, Waiting, x, y);
    }
    assert Row(was + new', index, Waiting, y.indices, y.homes);
    forall i | i in x.pending && i != index ensures Row(y.pending[i], i, Waiting, y.indices, y.homes) {
      RowStays(x.pending[i], i, Waiting, x, y);
    }
    forall t: nat, i | t in x.hands && i in x.hands[t] ensures Row(y.hands[t][i], i, Held(t), y.indices, y.homes) {
      RowStays(x.hands[t][i], i, Held(t), x, y);
    }
    forall k: nat | k < |x.calls| ensures Row(y.calls[k].docs, y.calls[k].index, Handed(k), y.indices, y.homes) {
      RowStays(x.calls[k].docs, x.calls[k].index, Handed(k), x, y);
    }
    forall d: nat | d < |y.homes| ensures AtHome(y, d, y.indices[d], y.homes[d]) {
      if d < |x.homes| {
        assert AtHome(x, d, x.indices[d], x.homes[d]);
      } else {
        assert new'[d - |x.homes|] == d;
      }
    }
  }

  lemma TakeKeepsInv(x: World, t: nat)
    requires Inv(x) && t !in x.hands
    ensures Inv(Taken(x, t)) && forall d: nat :: d < |x.homes| ==> !Taken(x, t).homes[d].Waiting?
  {
    var y := Taken(x, t);
    forall d: nat | d < |x.homes| ensures x.homes[d] != Held(t) {
      assert AtHome(x, d, x.indices[d], x.homes[d]);
    }
    forall i | i in x.pending ensures Row(x.pending[i], i, Held(t), y.indices, y.homes) {
      assert Row(x.pending[i], i, Waiting, x.indices, x.homes);
    }
    forall u: nat, i | u in x.hands && i in x.hands[u] ensures Row(x.hands[u][i], i, Held(u), y.indices, y.homes) {
      RowStays(x.hands[u][i], i, Held(u), x, y);
    }
    forall k: nat | k < |x.calls| ensures Row(y.calls[k].docs, y.calls[k].index, Handed(k), y.indices, y.homes) {
      RowStays(x.calls[k].docs, x.calls[k].index, Handed(k), x, y);
    }
    forall d: nat | d < |y.homes| ensures AtHome(y, d, y.indices[d], y.homes[d]) {
      assert AtHome(x, d, x.indices[d], x.homes[d]);
    }
  }

  lemma DeliverKeepsInv(x: World, t: nat, index: string)
    requires Inv(x) && t in x.hands && index in x.hands[t]
    ensures Inv(Do(x, Delivers(t, index)))
  {
    var y := Do(x, Delivers(t, index));
    var docs := x.hands[t][index];
    assert Row(docs, index, Held(t), x.indices, x.homes);
    assert forall d: nat :: d in docs ==> d < |x.homes| && x.homes[d] == Held(t) && x.indices[d] == index;
    forall i | i in x.pending ensures Row(y.pending[i], i, Waiting, y.indices, y.homes) {
      RowStays(x.pending[i], i, Waiting, x, y);
    }
    forall u: nat, i | u in y.hands && i in y.hands[u] ensures Row(y.hands[u][i], i, Held(u), y.indices, y.homes) {
      assert Row(x.hands[u][i], i, Held(u), x.indices, x.homes);
    }
    forall k: nat | k < |y.calls| ensures Row(y.calls[k].docs, y.calls[k].index, Handed(k), y.indices, y.homes) {
      if k < |x.calls| {
        RowStays(x.calls[k].docs, x.calls[k].index, Handed(k), x, y);
      }
    }
    forall d: nat | d < |y.homes| ensures AtHome(y, d, y.indices[d], y.homes[d]) {
      assert AtHome(x, d, x.indices[d], x.homes[d]);
    }
  }

  lemma StepKeepsInv(x: World, s: Step)
    requires Inv(x) && Enabled(x, s)
    ensures Inv(Do(x, s))
  {
    match s
    case Enqueues(index, n) => EnqueueKeepsInv(x, index, n);
    case Flushes(t) => TakeKeepsInv(x, t);
    case Delivers(t, index) => DeliverKeepsInv(x, t, index);
    case FlushesTail => TakeKeepsInv(x, DESTRUCTOR);
    case Returns(t) =>
      var y := Do(x, s);
      forall d: nat | d < |y.homes| ensures AtHome(y, d, y.indices[d], y.homes[d]) {
        assert AtHome(x, d, x.indices[d], x.homes[d]);
      }
    case _ =>
      var y := Do(x, s);
      forall d: nat | d < |y.homes| ensures AtHome(y, d, y.indices[d], y.homes[d]) {
        assert AtHome(x, d, x.indices[d], x.homes[d]);
      }
  }

  lemma {:induction false} InvOverRuns(x: World, steps: seq<Step>)
    requires Inv(x) && Valid(x, steps)
    ensures Inv(After(x, steps))
    decreases |steps|
  {
    if steps != [] {
      hide Inv, Do;
      StepKeepsInv(x, steps[0]);
      InvOverRuns(Do(x, steps[0]), steps[1..]);
    }
  }

  // -- theorems --------------------------------------------------------------------

  lemma HomeIsUnique(y: World, d: nat, index: string, home: Home)
    requires Inv(y)
    ensures AtHome(y, d, index, home) <==> d < |y.homes| && home == y.homes[d] && index == y.indices[d]
  {
    assert index in y.pending ==> Row(y.pending[index], index, Waiting, y.indices, y.homes);
    assert home.Held? && home.thread in y.hands && index in y.hands[home.thread] ==>
        Row(y.hands[home.thread][index], index, home, y.indices, y.homes);
    assert home.Handed? && home.call < |y.calls| ==> Row(y.calls[home.call].docs, y.calls[home.call].index, home, y.indices, y.homes);
    assert d < |y.homes| ==> AtHome(y, d, y.indices[d], y.homes[d]);
  }

  /** At every moment a document is in exactly one place: the buffer, a flush in
      progress, or one call, always under its own index. */
  lemma EveryDocumentIsSomewhere(steps: seq<Step>, d: nat)
    requires Valid(START, steps)
    ensures var y := After(START, steps);
      && |y.indices| == |y.homes|
      && (forall index, home :: AtHome(y, d, index, home) <==> d < |y.homes| && home == y.homes[d] && index == y.indices[d])
      && (forall k: nat :: k < |y.calls| ==> Ascending(y.calls[k].docs))
  {
    hide Do, AtHome;
    StartInv();
    InvOverRuns(START, steps);
    var y := After(START, steps);
    hide After, Valid;
    forall index, home {
      HomeIsUnique(y, d, index, home);
    }
    forall k: nat | k < |y.calls| ensures Ascending(y.calls[k].docs) {
      assert Row(y.calls[k].docs, y.calls[k].index, Handed(k), y.indices, y.homes);
    }
  }

  lemma StartInv()
    ensures Inv(START)
  {
  }

  /** Call `k` and no other got document `d`, once, under its own index. */
  ghost predicate HandedOnce(y: World, d: nat, k: nat) {
    && k < |y.calls| && d < |y.indices| && y.calls[k].index == y.indices[d]
    && (forall j: nat :: j < |y.calls| && d in y.calls[j].docs <==> j == k)
    && Ascending(y.calls[k].docs)
  }

  /** Once the tail flush and every flush in progress are over, each document
      enqueued before the tail flush was handed to exactly one call of
      bulkIndexDocuments, and that call got its documents in enqueue order. */
  lemma TailFlushDeliversEverything(steps: seq<Step>, d: nat)
    requires Valid(START, steps)
    requires After(START, steps).tail.Some? && After(START, steps).hands == map[] && d < After(START, steps).tail.value
    ensures exists k: nat :: HandedOnce(After(START, steps), d, k)
  {
    StartInv();
    InvOverRuns(START, steps);
    hide After, Valid;
    var y := After(START, steps);
    assert AtHome(y, d, y.indices[d], y.homes[d]);
    forall j: nat | j < |y.calls| && d in y.calls[j].docs ensures y.homes[d] == Handed(j) {
      assert Row(y.calls[j].docs, y.calls[j].index, Handed(j), y.indices, y.homes);
    }
    assert Row(y.calls[y.homes[d].call].docs, y.calls[y.homes[d].call].index, y.homes[d], y.indices, y.homes);
    assert HandedOnce(y, d, y.homes[d].call);
  }

  /** End to end: a document enqueued before the tail flush is in one call, at
      one position, and with publishing enabled that position ends exactly once
      in whatever the call's requests come to. */
  lemma EnqueuedDocumentsEndOnce(steps: seq<Step>, d: nat) returns (k: nat, p: nat)
    requires Valid(START, steps)
    requires After(START, steps).tail.Some? && After(START, steps).hands == map[] && d < After(START, steps).tail.value
    ensures var calls := After(START, steps).calls;
      && k < |calls| && p < |calls[k].docs| && calls[k].docs[p] == d
      && (forall j: nat, q: nat :: j < |calls| && q < |calls[j].docs| && calls[j].docs[q] == d ==> j == k && q == p)
      && (forall wire, base: nat, docs, chunks {:trigger ElasticPublisher.IsCut(docs, chunks), ElasticPublisher.DeliverAll(wire, base, chunks)} ::
            |docs| == |calls[k].docs| && ElasticPublisher.IsCut(docs, chunks) ==>
              ElasticPublisher.Endings(ElasticPublisher.DeliverAll(wire, base, chunks), p) == 1)
  {
    TailFlushDeliversEverything(steps, d);
    var calls := After(START, steps).calls;
    hide After, Valid;
    k :| HandedOnce(After(START, steps), d, k);
    p :| 0 <= p < |calls[k].docs| && calls[k].docs[p] == d;
    forall wire, base: nat, docs, chunks | |docs| == |calls[k].docs| && ElasticPublisher.IsCut(docs, chunks)
      ensures ElasticPublisher.Endings(ElasticPublisher.DeliverAll(wire, base, chunks), p) == 1
    {
      ElasticPublisher.BulkIsAccountedFor(wire, base, docs, chunks, p);
    }
  }
}
