/** Tick ingest: a bounded queue that drops its oldest line, drained in batches
    by one worker. The bound and the batch size are at least 1. */
module QuestdbIngest {
  import opened Wrappers

  /** What the mutex guards. */
  datatype Shared = Shared(queue: seq<string>, dropped: nat)

  /** enqueueLine's critical section. */
  function Enqueue(s: Shared, line: string, maxQueue: nat): Shared
    requires maxQueue >= 1
  {
    if |s.queue| >= maxQueue then Shared(s.queue[1..] + [line], s.dropped + 1) else Shared(s.queue + [line], s.dropped)
  }

  function BatchOf(queue: seq<string>, batchSize: nat): seq<string> {
    if |queue| <= batchSize then queue else queue[..batchSize]
  }

  function Rest(queue: seq<string>, batchSize: nat): (r: seq<string>)
    ensures BatchOf(queue, batchSize) + r == queue
    ensures queue != [] && batchSize >= 1 ==> |r| < |queue|
  {
    if |queue| <= batchSize then [] else queue[batchSize..]
  }

  /** The body of a POST: the lines, end to end. */
  function Join(lines: seq<string>): string {
    if lines == [] then "" else Join(lines[..|lines| - 1]) + lines[|lines| - 1]
  }

  lemma {:induction false} JoinKeepsOrder(front: seq<string>, back: seq<string>)
    ensures Join(front + back) == Join(front) + Join(back)
    ensures forall line :: Join([line]) == line
    decreases |back|
  {
    assert forall line: string :: [line][..0] == [];
    if back == [] {
      assert front + back == front;
    } else {
      JoinKeepsOrder(front, back[..|back| - 1]);
      assert (front + back)[..|front + back| - 1] == front + back[..|back| - 1];
    }
  }

  predicate HasText(lines: seq<string>): (yes: bool)
    ensures yes ==> lines != []
  {
    exists i :: 0 <= i < |lines| && lines[i] != ""
  }

  lemma {:induction false} EmptyBody(lines: seq<string>)
    ensures Join(lines) != "" <==> HasText(lines)
  {
    if lines != [] {
      var front := lines[..|lines| - 1];
      EmptyBody(front);
      if HasText(lines) && lines[|lines| - 1] == "" {
        var i :| 0 <= i < |lines| && lines[i] != "";
        assert front[i] != "";
      }
    }
  }

  /** No batch of the final drain is made of empty lines only. */
  predicate EveryBatchHasText(queue: seq<string>, batchSize: nat)
    decreases |queue|
  {
    queue == [] || (batchSize >= 1 && HasText(BatchOf(queue, batchSize)) && EveryBatchHasText(Rest(queue, batchSize), batchSize))
  }

  /** How one POST ends: curl's verdict and the HTTP status. */
  datatype Answer = Answer(curlOk: bool, status: int)

  predicate Accepted(hasCurl: bool, a: Answer) {
    hasCurl && a.curlOk && 200 <= a.status < 300
  }

  class Client {
    const batchSize: nat
    const maxQueue: nat
    const hasCurl: bool
    const wire: nat -> Answer
    var queue: seq<string>
    var droppedTotal: nat
    var failedTotal: nat
    var acked: nat                 // lines whose POST succeeded
    var posts: seq<seq<string>>    // the batches posted

    constructor (batchSize: nat, maxQueue: nat, hasCurl: bool, wire: nat -> Answer)
      ensures this.batchSize == batchSize && this.maxQueue == maxQueue && this.hasCurl == hasCurl && this.wire == wire
      ensures queue == [] && droppedTotal == 0 && failedTotal == 0 && acked == 0 && posts == []
    {
      this.batchSize, this.maxQueue, this.hasCurl, this.wire := batchSize, maxQueue, hasCurl, wire;
      queue, droppedTotal, failedTotal, acked, posts := [], 0, 0, 0, [];
    }

    method EnqueueLine(line: string) returns (wake: bool)
      requires maxQueue >= 1
      modifies this`queue, this`droppedTotal
      ensures Shared(queue, droppedTotal) == Enqueue(old(Shared(queue, droppedTotal)), line, maxQueue)
      ensures old(|queue|) < maxQueue ==> queue == old(queue) + [line] && droppedTotal == old(droppedTotal)
      ensures old(|queue|) >= maxQueue ==> queue == old(queue)[1..] + [line] && droppedTotal == old(droppedTotal) + 1
      ensures wake == (|queue| >= batchSize)
    {
      if |queue| >= maxQueue {
        queue := queue[1..];
        droppedTotal := droppedTotal + 1;
      }
      queue := queue + [line];
      wake := |queue| >= batchSize;
    }

    /** drainAndPost's critical section. */
    method TakeBatch() returns (lines: seq<string>, body: string)
      modifies this`queue
      ensures lines == BatchOf(old(queue), batchSize) && queue == Rest(old(queue), batchSize) && body == Join(lines)
      ensures old(queue) == lines + queue && |lines| == (if old(|queue|) < batchSize then old(|queue|) else batchSize)
    {
      lines, body := [], "";
      var n := if |queue| < batchSize then |queue| else batchSize;
      ghost var was := queue;
      for i := 0 to n
        invariant |was| == |queue| + i && lines == was[..i] && queue == was[i..] && body == Join(lines)
      {
        assert (lines + [queue[0]])[..i] == lines;
        lines := lines + [queue[0]];
        body := body + queue[0];
        queue := queue[1..];
      }
    }

    method Post(lines: seq<string>)
      modifies this`failedTotal, this`acked, this`posts
      ensures posts == old(posts) + [lines]
      ensures var ok := Accepted(hasCurl, wire(|old(posts)|));
        failedTotal == old(failedTotal) + (if ok then 0 else |lines|) && acked == old(acked) + (if ok then |lines| else 0)
      // Delivered is curl's word and a status of 200 to 299; anything else is a failure.
      ensures var answer := wire(|old(posts)|);
        && (hasCurl && answer.curlOk && 200 <= answer.status <= 299 ==>
              acked == old(acked) + |lines| && failedTotal == old(failedTotal))
        && (!hasCurl || !answer.curlOk || answer.status <= 199 || answer.status >= 300 ==>
              acked == old(acked) && failedTotal == old(failedTotal) + |lines|)
    {
      var answer := wire(|posts|);
      posts := posts + [lines];
      if !hasCurl || !answer.curlOk {
        failedTotal := failedTotal + |lines|;
        return;
      }
      if answer.status < 200 || answer.status >= 300 {
        failedTotal := failedTotal + |lines|;
      } else {
        acked := acked + |lines|;
      }
    }

    /** False when there was nothing to send. */
    method DrainAndPost() returns (sent: bool)
      modifies this
      ensures droppedTotal == old(droppedTotal) && queue == Rest(old(queue), batchSize)
      ensures sent == HasText(BatchOf(old(queue), batchSize))
      ensures posts == old(posts) + (if sent then [BatchOf(old(queue), batchSize)] else [])
      ensures acked + failedTotal == old(acked + failedTotal) + (if sent then |BatchOf(old(queue), batchSize)| else 0)
      // The batch is the oldest lines, up to the batch size, and its lines are
      // counted by curl's verdict and the status.
      ensures var answer, count := wire(|old(posts)|), if old(|queue|) < batchSize then old(|queue|) else batchSize;
        && old(queue)[count..] == queue
        && (sent <==> exists i :: 0 <= i < count && old(queue)[i] != "")
        && (sent ==> posts == old(posts) + [old(queue)[..count]])
        && acked == old(acked) + (if sent && hasCurl && answer.curlOk && 200 <= answer.status <= 299 then count else 0)
    {
      var lines, body := TakeBatch();
      EmptyBody(lines);
      if body == "" {
        return false;
      }
      Post(lines);
      return true;
    }

    /** The drain after a stop, with nobody enqueuing any more. It empties the
        queue, and accounts for every line, exactly when no batch consists of
        empty lines only; otherwise it stops early. */
    method FinalDrain()
      modifies this
      ensures queue == [] && acked + failedTotal == old(acked + failedTotal) + |old(queue)| <==> EveryBatchHasText(old(queue), batchSize)
      ensures droppedTotal == old(droppedTotal)
    {
      var more := true;
      while more
        invariant droppedTotal == old(droppedTotal)
        invariant more ==> |queue| + acked + failedTotal == |old(queue)| + old(acked + failedTotal)
        invariant more ==> (EveryBatchHasText(queue, batchSize) <==> EveryBatchHasText(old(queue), batchSize))
        invariant !more ==>
          (queue == [] && acked + failedTotal == old(acked + failedTotal) + |old(queue)| <==> EveryBatchHasText(old(queue), batchSize))
        decreases more, |queue|
      {
        ghost var was := queue;
        more := DrainAndPost();
        assert |was| == |BatchOf(was, batchSize)| + |queue|;
      }
    }
  }

  // -- the client with its worker -------------------------------------------------

  datatype Config = Config(batchSize: nat, maxQueue: nat)

  /** A batch taken off the queue: lines `from` to `from + count` of the enqueue
      history. */
  datatype Batch = Batch(from: nat, count: nat)

  /** The worker is in its loop, in a POST, draining after the stop, or gone. */
  datatype Phase = Looping | Posting(batch: Batch, last: bool) | Draining | Gone

  /** `history` is every line ever enqueued; `silent` counts the lines that left
      the queue in a batch of empty lines, which is never posted. */
  datatype World = World(shared: Shared, phase: Phase, stop: bool, history: seq<string>, sent: seq<Batch>,
                         acked: nat, failed: nat, silent: nat)

  datatype Step =
    | Enqueues(line: string)
    | Stops
    | Works
    | Answers(ok: bool)

  /** The client is destroyed by its owner: nobody enqueues after the stop. */
  predicate Enabled(x: World, s: Step) {
    match s
    case Enqueues(_) => !x.stop
    case Stops => true
    case Works => x.phase.Looping? || x.phase.Draining?
    case Answers(_) => x.phase.Posting?
  }

  function Do(c: Config, x: World, s: Step): World
    requires c.maxQueue >= 1 && Enabled(x, s)
  {
    match s
    case Enqueues(line) => x.(shared := Enqueue(x.shared, line, c.maxQueue), history := x.history + [line])
    case Stops => x.(stop := true)
    case Works => if x.phase.Looping? && x.stop then x.(phase := Draining) else Drained(c, x)
    case Answers(ok) =>
      x.(phase := if x.phase.last then Draining else Looping,
         acked := x.acked + (if ok then x.phase.batch.count else 0),
         failed := x.failed + (if ok then 0 else x.phase.batch.count))
  }

  /** drainAndPost up to the POST. */
  function Drained(c: Config, x: World): World {
    var lines := BatchOf(x.shared.queue, c.batchSize);
    var after := x.(shared := x.shared.(queue := Rest(x.shared.queue, c.batchSize)));
    if !HasText(lines) then
      after.(phase := if x.phase.Draining? then Gone else x.phase, silent := x.silent + |lines|)
    else
      var batch := Batch(Head(x), |lines|);
      after.(phase := Posting(batch, x.phase.Draining?), sent := x.sent + [batch])
  }

  /** How many lines have left the queue, at either hand. */
  function Head(x: World): nat {
    if |x.history| < |x.shared.queue| then 0 else |x.history| - |x.shared.queue|
  }

  const START := World(Shared([], 0), Looping, false, [], [], 0, 0, 0)

  ghost predicate Valid(c: Config, x: World, steps: seq<Step>)
    requires c.maxQueue >= 1
    decreases |steps|
  {
    steps == [] || (Enabled(x, steps[0]) && Valid(c, Do(c, x, steps[0]), steps[1..]))
  }

  function After(c: Config, x: World, steps: seq<Step>): World
    requires c.maxQueue >= 1 && Valid(c, x, steps)
    decreases |steps|
  {
    if steps == [] then x else After(c, Do(c, x, steps[0]), steps[1..])
  }

  function InHand(x: World): nat {
    if x.phase.Posting? then x.phase.batch.count else 0
  }

  ghost predicate NoEmptyLines(history: seq<string>) {
    forall i :: 0 <= i < |history| ==> history[i] != ""
  }

  ghost predicate QueueInv(c: Config, x: World) {
    && |x.shared.queue| <= |x.history| && x.shared.queue == x.history[Head(x)..]
    && |x.shared.queue| <= c.maxQueue
  }

  ghost predicate CountInv(x: World) {
    && |x.history| == |x.shared.queue| + InHand(x) + x.acked + x.failed + x.shared.dropped + x.silent
    && (NoEmptyLines(x.history) ==> x.silent == 0)
  }

  ghost predicate SentInv(x: World) {
    && (forall k :: 0 <= k < |x.sent| ==> x.sent[k].count >= 1 && x.sent[k].from + x.sent[k].count <= Head(x))
    && (forall k :: 0 < k < |x.sent| ==> x.sent[k - 1].from + x.sent[k - 1].count <= x.sent[k].from)
  }

  ghost predicate StopInv(c: Config, x: World) {
    && (x.phase.Draining? || x.phase.Gone? || (x.phase.Posting? && x.phase.last) ==> x.stop)
    && (x.phase.Gone? && c.batchSize >= 1 && NoEmptyLines(x.history) ==> x.shared.queue == [])
  }

  ghost predicate Inv(c: Config, x: World) {
    QueueInv(c, x) && CountInv(x) && SentInv(x) && StopInv(c, x)
  }

  lemma DrainKeepsSent(c: Config, x: World)
    requires QueueInv(c, x) && SentInv(x) && (x.phase.Looping? || x.phase.Draining?)
    ensures SentInv(Drained(c, x))
  {
    hide BatchOf, Rest, HasText, NoEmptyLines;
    DrainAdvances(x.history, x.shared.queue, c.batchSize);
    var y := Drained(c, x);
    assert Head(y) == Head(x) + |BatchOf(x.shared.queue, c.batchSize)|;
    assert forall k :: 0 <= k < |x.sent| ==> y.sent[k] == x.sent[k];
  }

  lemma DrainKeepsQueue(c: Config, x: World)
    requires QueueInv(c, x) && (x.phase.Looping? || x.phase.Draining?)
    ensures QueueInv(c, Drained(c, x))
  {
    hide BatchOf, Rest, HasText;
    DrainAdvances(x.history, x.shared.queue, c.batchSize);
  }

  lemma DrainKeepsCounts(c: Config, x: World)
    requires QueueInv(c, x) && CountInv(x) && StopInv(c, x) && (x.phase.Looping? || (x.phase.Draining? && x.stop))
    ensures CountInv(Drained(c, x)) && StopInv(c, Drained(c, x))
  {
    hide BatchOf, Rest, HasText, NoEmptyLines;
    DrainAdvances(x.history, x.shared.queue, c.batchSize);
    if NoEmptyLines(x.history) {
      TextlessIsEmpty(x.history, x.shared.queue, c.batchSize);
    }
    assert x.shared.queue == BatchOf(x.shared.queue, c.batchSize) + Rest(x.shared.queue, c.batchSize);
  }

  lemma TextlessIsEmpty(history: seq<string>, queue: seq<string>, batchSize: nat)
    requires |queue| <= |history| && queue == history[|history| - |queue|..] && NoEmptyLines(history)
    ensures !HasText(BatchOf(queue, batchSize)) ==> BatchOf(queue, batchSize) == []
    ensures !HasText(BatchOf(queue, batchSize)) && batchSize >= 1 ==> Rest(queue, batchSize) == []
  {
    if queue != [] && batchSize >= 1 {
      assert BatchOf(queue, batchSize)[0] == history[|history| - |queue|];
    }
  }

  lemma DrainAdvances(history: seq<string>, queue: seq<string>, batchSize: nat)
    requires |queue| <= |history| && queue == history[|history| - |queue|..]
    ensures |BatchOf(queue, batchSize)| + |Rest(queue, batchSize)| == |queue|
    ensures BatchOf(queue, batchSize) == history[|history| - |queue|..|history| - |Rest(queue, batchSize)|]
    ensures Rest(queue, batchSize) == history[|history| - |Rest(queue, batchSize)|..]
    ensures batchSize >= 1 && BatchOf(queue, batchSize) == [] ==> Rest(queue, batchSize) == []
  {
  }

  lemma EnqueueKeepsInv(c: Config, x: World, line: string)
    requires c.maxQueue >= 1 && Inv(c, x) && !x.stop
    ensures Inv(c, Do(c, x, Enqueues(line)))
  {
    hide Rest, BatchOf, HasText;
    var y := Do(c, x, Enqueues(line));
    assert NoEmptyLines(y.history) ==> NoEmptyLines(x.history) by {
      assert x.history == y.history[..|x.history|];
    }
    hide NoEmptyLines;
    assert y.shared.queue == y.history[Head(y)..];
  }

  lemma StepKeepsInv(c: Config, x: World, s: Step)
    requires c.maxQueue >= 1 && Inv(c, x) && Enabled(x, s)
    ensures Inv(c, Do(c, x, s))
  {
    hide Rest, BatchOf, HasText, NoEmptyLines;
    if s.Enqueues? {
      EnqueueKeepsInv(c, x, s.line);
    } else if s.Works? && !(x.phase.Looping? && x.stop) {
      DrainKeepsSent(c, x);
      DrainKeepsQueue(c, x);
      DrainKeepsCounts(c, x);
    }
  }

  lemma {:induction false} InvOverRuns(c: Config, x: World, steps: seq<Step>)
    requires c.maxQueue >= 1 && Inv(c, x) && Valid(c, x, steps)
    ensures Inv(c, After(c, x, steps))
    decreases |steps|
  {
    if steps != [] {
      hide Do, Inv;
      StepKeepsInv(c, x, steps[0]);
      InvOverRuns(c, Do(c, x, steps[0]), steps[1..]);
    }
  }

  lemma StartInv(c: Config)
    ensures Inv(c, START)
  {
  }

  /** Conservation: every line enqueued is queued, in the POST in progress,
      acknowledged, counted as failed or counted as dropped; `silent` is the
      exception, and empty unless an empty line was enqueued. The queue is the
      newest lines, within its bound, so only the oldest are ever dropped. */
  lemma EveryLineIsAccountedFor(c: Config, steps: seq<Step>)
    requires c.maxQueue >= 1 && Valid(c, START, steps)
    ensures var y := After(c, START, steps);
      && |y.history| == |y.shared.queue| + InHand(y) + y.acked + y.failed + y.shared.dropped + y.silent
      && (NoEmptyLines(y.history) ==> y.silent == 0)
      && |y.shared.queue| <= c.maxQueue && |y.shared.queue| <= |y.history|
      && y.shared.queue == y.history[|y.history| - |y.shared.queue|..]
  {
    hide Do, Valid, After;
    StartInv(c);
    InvOverRuns(c, START, steps);
  }

  /** The batches are disjoint stretches of the history, in order. */
  lemma BatchesAreInOrder(c: Config, steps: seq<Step>, j: nat, k: nat)
    requires c.maxQueue >= 1 && Valid(c, START, steps) && j < k < |After(c, START, steps).sent|
    ensures var y := After(c, START, steps);
      && y.sent[j].from + y.sent[j].count <= y.sent[k].from
      && y.sent[k].from + y.sent[k].count <= |y.history| - |y.shared.queue|
  {
    hide Do, Valid, After;
    StartInv(c);
    InvOverRuns(c, START, steps);
    Ascend(After(c, START, steps).sent, j, k);
  }

  lemma {:induction false} Ascend(sent: seq<Batch>, j: nat, k: nat)
    requires forall i :: 0 < i < |sent| ==> sent[i - 1].from + sent[i - 1].count <= sent[i].from
    requires j < k < |sent|
    ensures sent[j].from + sent[j].count <= sent[k].from
    decreases k
  {
    if j < k - 1 {
      Ascend(sent, j, k - 1);
    }
  }

  /** After shutdown nothing is left behind and nothing is in flight. */
  lemma ShutdownLeavesNothing(c: Config, steps: seq<Step>)
    requires c.maxQueue >= 1 && c.batchSize >= 1 && Valid(c, START, steps)
    requires After(c, START, steps).phase.Gone? && NoEmptyLines(After(c, START, steps).history)
    ensures var y := After(c, START, steps);
      y.shared.queue == [] && |y.history| == y.acked + y.failed + y.shared.dropped
  {
    hide Do, Valid, After;
    StartInv(c);
    InvOverRuns(c, START, steps);
  }

  /** What an empty line can do: the worker takes it for an empty queue and goes,
      leaving the next line queued for good, in no count. */
  lemma EmptyLineEndsTheDrain(c: Config, line: string)
    requires c == Config(1, 2) && line != ""
    ensures var steps := [Enqueues(""), Enqueues(line), Stops, Works, Works];
      && Valid(c, START, steps)
      && var y := After(c, START, steps);
      && y.phase.Gone? && y.shared == Shared([line], 0) && y.acked == 0 && y.failed == 0 && y.silent == 1
  {
    var x1 := Do(c, START, Enqueues(""));
    var x2 := Do(c, x1, Enqueues(line));
    var x3 := Do(c, x2, Stops);
    var x4 := Do(c, x3, Works);
    var x5 := Do(c, x4, Works);
    var steps := [Enqueues(""), Enqueues(line), Stops, Works, Works];
    assert x2.shared.queue == ["", line];
    assert BatchOf(x4.shared.queue, 1) == [""] && Rest(x4.shared.queue, 1) == [line];
    assert steps[1..] == [Enqueues(line), Stops, Works, Works];
    assert steps[1..][1..] == [Stops, Works, Works];
    assert steps[1..][1..][1..] == [Works, Works];
    assert steps[1..][1..][1..][1..] == [Works];
    assert Valid(c, x5, []) && Valid(c, x4, [Works]) && Valid(c, x3, [Works, Works]);
    assert Valid(c, x2, [Stops, Works, Works]) && Valid(c, x1, [Enqueues(line), Stops, Works, Works]);
    assert !HasText([""]) && x5.phase.Gone?;
    assert After(c, x4, [Works]) == x5 && After(c, x3, [Works, Works]) == x5 && After(c, x2, [Stops, Works, Works]) == x5;
    assert After(c, x1, [Enqueues(line), Stops, Works, Works]) == x5 && After(c, START, steps) == x5;
  }
}
