/** drainRuns as one worker runs it, with producers quiet: the loops, the stop
    checks and the queue calls, over the Redis it owns. drainExperiments is the
    same code over one queue without a stop signal. */
module DrainRuns {
  import opened Wrappers
  import opened QueueOps

  datatype Outcome = Submitted(body: string) | Unparseable | Missing

  datatype Handled = Handled(name: string, outcome: Outcome)

  /** GETDEL and the parse. */
  function Handle(parses: set<string>, payloads: map<string, string>, name: string): Handled {
    Handled(name, if name !in payloads then Missing
                  else if payloads[name] in parses then Submitted(payloads[name]) else Unparseable)
  }

  /** What becomes of the names, taken in this order. */
  function Serve(parses: set<string>, payloads: map<string, string>, names: seq<string>): (map<string, string>, seq<Handled>) {
    if names == [] then (payloads, [])
    else
      var before := Serve(parses, payloads, names[..|names| - 1]);
      var name := names[|names| - 1];
      (before.0 - {name}, before.1 + [Handle(parses, before.0, name)])
  }

  /** The last `n` elements, last first. */
  function FromTail<T>(list: seq<T>, n: nat): seq<T>
    requires n <= |list|
  {
    seq(n, i requires 0 <= i < n => list[|list| - 1 - i])
  }

  lemma FromTailLength<T>(list: seq<T>, n: nat)
    requires n <= |list|
    ensures |FromTail(list, n)| == n
  {
  }

  // -- the measure -----------------------------------------------------------

  ghost function Total<T(!new)>(m: map<string, seq<T>>): nat {
    if m == map[] then 0
    else
      var k :| k in m;
      |m[k]| + Total(m - {k})
  }

  lemma {:induction false} TotalSplits<T(!new)>(m: map<string, seq<T>>, k: string)
    requires k in m
    ensures Total(m) == |m[k]| + Total(m - {k})
    decreases |m|
  {
    var j :| j in m && Total(m) == |m[j]| + Total(m - {j});
    if j != k {
      TotalSplits(m - {j}, k);
      TotalSplits(m - {k}, j);
      assert m - {j} - {k} == m - {k} - {j};
    }
  }

  lemma TotalUpdates<T(!new)>(m: map<string, seq<T>>, k: string, list: seq<T>)
    requires k in m
    ensures Total(m[k := list]) == Total(m) - |m[k]| + |list|
  {
    TotalSplits(m, k);
    TotalSplits(m[k := list], k);
    assert m[k := list] - {k} == m - {k};
  }

  // -- what the names' outcomes mean -------------------------------------------

  /** Every name has one outcome, in the order taken; the payload of a name goes
      to its first taker and to nobody else; other payloads are untouched. */
  lemma {:induction false} ServeHandlesEachOnce(parses: set<string>, payloads: map<string, string>, names: seq<string>)
    ensures var (left, handled) := Serve(parses, payloads, names);
      && |handled| == |names|
      && (forall i :: 0 <= i < |names| ==> handled[i].name == names[i])
      && (forall i :: 0 <= i < |names| ==>
            (handled[i].outcome.Missing? <==> names[i] !in payloads || names[i] in names[..i]))
      && (forall i :: 0 <= i < |names| && !handled[i].outcome.Missing? ==>
            handled[i].outcome == if payloads[names[i]] in parses then Submitted(payloads[names[i]]) else Unparseable)
      && (forall n :: n in left <==> n in payloads && n !in names)
      && (forall n :: n in left ==> left[n] == payloads[n])
  {
    if names != [] {
      var front, name := names[..|names| - 1], names[|names| - 1];
      ServeHandlesEachOnce(parses, payloads, front);
      assert names == front + [name];
      assert forall i :: 0 <= i < |front| ==> names[..i] == front[..i];
    }
  }

  // -- the worker ------------------------------------------------------------

  datatype PeekedRun = PeekedRun(queue: string, descriptor: string)

  /** The polls of the stop signal a stretch of work made: it stopped exactly at
      the first that saw the signal. */
  ghost predicate Heeded(before: seq<bool>, after: seq<bool>, stopping: bool) {
    && before <= after
    && (forall i :: |before| <= i < |after| - 1 ==> !after[i])
    && (stopping <==> |after| > |before| && after[|after| - 1])
  }

  lemma PollIsHeeded(before: seq<bool>, polls: seq<bool>, stop: bool)
    ensures Heeded(before, before, false)
    ensures Heeded(before, polls, false) ==> Heeded(before, polls + [stop], stop)
  {
  }

  class Worker {
    const runQueues: seq<string>
    const runs: map<string, string>        // parseable descriptor -> name list
    const parses: set<string>
    const stoppable: bool
    var queues: map<string, seq<string>>
    var lists: map<string, seq<string>>
    var payloads: map<string, string>
    var handled: seq<Handled>
    var loads: seq<string>                 // descriptors whose ticks were loaded
    var polls: seq<bool>                   // what each look at the stop signal saw

    constructor (runQueues: seq<string>, runs: map<string, string>, parses: set<string>, stoppable: bool,
                 queues: map<string, seq<string>>, lists: map<string, seq<string>>, payloads: map<string, string>)
      ensures this.runQueues == runQueues && this.runs == runs && this.parses == parses && this.stoppable == stoppable
      ensures this.queues == queues && this.lists == lists && this.payloads == payloads && handled == [] && loads == [] && polls == []
    {
      this.runQueues, this.runs, this.parses, this.stoppable := runQueues, runs, parses, stoppable;
      this.queues, this.lists, this.payloads, this.handled, this.loads, this.polls := queues, lists, payloads, [], [], [];
    }

    ghost function Left(): nat
      reads this
    {
      Total(lists) + Total(queues)
    }

    /** stopRequested: whatever the monitor has written by now; without a control
        segment, never. */
    method StopRequested() returns (stop: bool)
      modifies this`polls
      ensures polls == old(polls) + [stop] && (stop ==> stoppable)
    {
      stop := *;
      stop := stop && stoppable;
      polls := polls + [stop];
    }

    method PeekQueueTail(queue: string) returns (peeked: Option<PeekedRun>)
      ensures peeked == if At(queues, queue) == [] then None else Some(PeekedRun(queue, Tail(At(queues, queue)).value))
    {
      var tail := Tail(At(queues, queue));
      return if tail.Some? then Some(PeekedRun(queue, tail.value)) else None;
    }

    predicate IsFirst(k: nat)
      reads this
    {
      k < |runQueues| && At(queues, runQueues[k]) != [] && forall j :: 0 <= j < k ==> At(queues, runQueues[j]) == []
    }

    /** The oldest run of the first queue, in priority order, that has any. */
    method PeekRunTail() returns (peeked: Option<PeekedRun>)
      ensures peeked.None? <==> forall q :: q in runQueues ==> At(queues, q) == []
      ensures peeked.Some? ==>
        (exists k: nat :: IsFirst(k) && peeked.value == PeekedRun(runQueues[k], Tail(At(queues, runQueues[k])).value))
      ensures peeked.Some? ==> peeked.value.descriptor in At(queues, peeked.value.queue)
    {
      for k := 0 to |runQueues|
        invariant forall j :: 0 <= j < k ==> At(queues, runQueues[j]) == []
      {
        peeked := PeekQueueTail(runQueues[k]);
        if peeked.Some? {
          assert IsFirst(k);
          return;
        }
      }
      return None;
    }

    method PopStrategyKey(list: string) returns (name: Option<string>)
      modifies this`lists
      ensures name == Tail(old(At(lists, list)))
      ensures lists == if name.None? then old(lists) else old(lists)[list := Pop(old(At(lists, list)))]
    {
      name := Tail(At(lists, list));
      if name.Some? {
        lists := lists[list := Pop(lists[list])];
      }
    }

    method TakeStrategyPayload(name: string) returns (body: Option<string>)
      modifies this`payloads
      ensures body == if name in old(payloads) then Some(old(payloads)[name]) else None
      ensures payloads == old(payloads) - {name}
    {
      body := if name in payloads then Some(payloads[name]) else None;
      payloads := payloads - {name};
    }

    method RemoveRun(queue: string, descriptor: string)
      modifies this`queues
      ensures queues == if queue in old(queues) then old(queues)[queue := RemoveAll(old(queues)[queue], descriptor)] else old(queues)
    {
      if queue in queues {
        queues := queues[queue := RemoveAll(queues[queue], descriptor)];
      }
    }

    /** One name: its payload is taken, parsed and submitted, or reported. */
    method Consume(name: string)
      modifies this`payloads, this`handled
      ensures payloads == old(payloads) - {name}
      ensures handled == old(handled) + [Handle(parses, old(payloads), name)]
    {
      var body := TakeStrategyPayload(name);
      if body.None? {
        handled := handled + [Handled(name, Missing)];
      } else if body.value in parses {
        handled := handled + [Handled(name, Submitted(body.value))];
      } else {
        handled := handled + [Handled(name, Unparseable)];
      }
    }

    /** The inner loop: from the first claimed name until the list is empty or a
        stop is seen. `n` names were taken in all. */
    method DrainList(list: string, first: string, ghost all: seq<string>) returns (stopping: bool, n: nat)
      requires all != [] && first == all[|all| - 1] && At(lists, list) == all[..|all| - 1] && list in lists
      modifies this`lists, this`payloads, this`handled, this`polls
      // The signal is looked at once after each name, and nothing else ends the loop early.
      ensures Heeded(old(polls), polls, stopping) && |polls| == |old(polls)| + n
      ensures 1 <= n <= |all| && (stopping ==> stoppable) && (!stopping ==> n == |all|)
      ensures lists == old(lists)[list := all[..|all| - n]]
      ensures payloads == Serve(parses, old(payloads), FromTail(all, n)).0
      ensures handled == old(handled) + Serve(parses, old(payloads), FromTail(all, n)).1
    {
      hide Heeded, Handle;
      PollIsHeeded(polls, polls, false);
      var payloadKey := first;
      n := 0;
      assert FromTail(all, 0) == [];
      assert old(lists)[list := all[..|all| - 1]] == lists;
      while true
        invariant 0 <= n < |all| && payloadKey == all[|all| - 1 - n]
        invariant lists == old(lists)[list := all[..|all| - 1 - n]]
        invariant payloads == Serve(parses, old(payloads), FromTail(all, n)).0
        invariant handled == old(handled) + Serve(parses, old(payloads), FromTail(all, n)).1
        invariant Heeded(old(polls), polls, false) && |polls| == |old(polls)| + n
        decreases |all| - n
      {
        assert FromTail(all, n + 1)[..n] == FromTail(all, n);
        Consume(payloadKey);
        n := n + 1;
        ghost var seen := polls;
        var stopRequested := StopRequested();
        PollIsHeeded(old(polls), seen, stopRequested);
        if stopRequested {
          return true, n;
        }
        ghost var rest := all[..|all| - n];
        assert At(lists, list) == rest;
        assert n < |all| ==> Pop(rest) == all[..|all| - 1 - n] && rest[|rest| - 1] == all[|all| - 1 - n];
        var next := PopStrategyKey(list);
        if next.None? {
          return false, n;
        }
        payloadKey := next.value;
      }
    }

    /** The names of a run; a poison descriptor has none. */
    function Names(descriptor: string): seq<string>
      reads this`lists
    {
      if descriptor in runs then At(lists, runs[descriptor]) else []
    }

    /** A parseable run: `n` of its names are taken, all of them unless a stop
        intervenes. */
    method DrainNames(descriptor: string) returns (stopping: bool, n: nat)
      requires descriptor in runs
      modifies this`lists, this`payloads, this`handled, this`loads, this`polls
      ensures Heeded(old(polls), polls, stopping) && |polls| == |old(polls)| + n
      ensures n <= |old(Names(descriptor))| && (!stopping ==> n == |old(Names(descriptor))|)
      ensures payloads == Serve(parses, old(payloads), FromTail(old(Names(descriptor)), n)).0
      ensures handled == old(handled) + Serve(parses, old(payloads), FromTail(old(Names(descriptor)), n)).1
      ensures |handled| == |old(handled)| + n
      ensures n == 0 ==> lists == old(lists) && !stopping
      ensures n > 0 ==> descriptor in runs
      ensures n > 0 ==> lists == old(lists)[runs[descriptor] := old(Names(descriptor))[..|old(Names(descriptor))| - n]]
      ensures Total(lists) + n == old(Total(lists))
      // Ticks are loaded once, and only for a run with a name already claimed.
      ensures loads == old(loads) + (if n > 0 then [descriptor] else [])
      ensures stopping ==> stoppable
    {
      ghost var all := Names(descriptor);
      assert Serve(parses, payloads, FromTail(all, 0)) == (payloads, []);
      hide Serve, Total, Handle, FromTail;
      var list := runs[descriptor];
      var payloadKey := PopStrategyKey(list);
      if payloadKey.None? {
        return false, 0;
      }
      loads := loads + [descriptor];
      stopping, n := DrainList(list, payloadKey.value, all);
      TotalUpdates(old(lists), list, all[..|all| - n]);
      ServeHandlesEachOnce(parses, old(payloads), FromTail(all, n));
      FromTailLength(all, n);
    }

    /** One outer iteration on a peeked run. */
    method ServeRun(peeked: PeekedRun) returns (stopping: bool, n: nat)
      requires peeked.descriptor in At(queues, peeked.queue)
      modifies this
      ensures Heeded(old(polls), polls, stopping) && |polls| == |old(polls)| + n
      ensures n <= |old(Names(peeked.descriptor))| && (!stopping ==> n == |old(Names(peeked.descriptor))|)
      ensures payloads == Serve(parses, old(payloads), FromTail(old(Names(peeked.descriptor)), n)).0
      ensures handled == old(handled) + Serve(parses, old(payloads), FromTail(old(Names(peeked.descriptor)), n)).1
      ensures |handled| == |old(handled)| + n
      ensures n == 0 ==> lists == old(lists) && !stopping
      ensures n > 0 ==> peeked.descriptor in runs
      ensures n > 0 ==> lists == old(lists)[runs[peeked.descriptor] := old(Names(peeked.descriptor))[..|old(Names(peeked.descriptor))| - n]]
      ensures Total(lists) + n == old(Total(lists))
      // Ticks are loaded once, and only for a run with a name already claimed.
      ensures loads == old(loads) + (if n > 0 then [peeked.descriptor] else [])
      ensures stopping ==> stoppable
      // A run is retired unless the stop left it half drained.
      ensures queues == if stopping then old(queues) else old(queues)[peeked.queue := RemoveAll(old(queues)[peeked.queue], peeked.descriptor)]
      ensures Total(queues) <= old(Total(queues)) && Left() < old(Left())
    {
      assert Serve(parses, payloads, FromTail(Names(peeked.descriptor), 0)) == (payloads, []);
      hide Serve, Total, Handle, FromTail;
      TotalUpdates(queues, peeked.queue, RemoveAll(queues[peeked.queue], peeked.descriptor));
      stopping, n := false, 0;
      if peeked.descriptor in runs {
        stopping, n := DrainNames(peeked.descriptor);
      }
      if !stopping {
        RemoveRun(peeked.queue, peeked.descriptor);
      }
    }

    /** The outer loop. It ends only at a stop, which the engine may notice at
        any poll and which comes after at most `patience` idle seconds; no other
        bound is assumed, so the measure alone ends the non-idle iterations. */
    method Drain(patience: nat) returns (claimed: nat, idled: bool)
      requires stoppable
      modifies this
      ensures idled ==> forall q :: q in runQueues ==> At(queues, q) == []
      // Only the signal stops it before that.
      ensures Heeded(old(polls), polls, !idled)
      ensures |handled| == |old(handled)| + claimed
      ensures Total(lists) + claimed == old(Total(lists))
      ensures Left() <= old(Left())
    {
      hide Serve, Total, FromTail, RemoveAll, Tail;
      var idle := patience;
      claimed, idled := 0, false;
      while true
        invariant |handled| == |old(handled)| + claimed
        invariant Total(lists) + claimed == old(Total(lists))
        invariant Left() <= old(Left())
        invariant Heeded(old(polls), polls, false)
        decreases Left(), idle
      {
        var stopRequested := StopRequested();
        if stopRequested {
          return;
        }
        var peeked := PeekRunTail();
        if peeked.None? {
          if idle == 0 {
            idled := true;
            return;
          }
          idle := idle - 1;
        } else {
          var stopping, n := ServeRun(peeked.value);
          claimed := claimed + n;
          if stopping {
            return;
          }
          idle := patience;
        }
      }
    }
  }
}
