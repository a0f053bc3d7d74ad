/** The synchronous Redis client: a deadline-bounded pump over the connection's
    handlers, and a fail-fast breaker. */
module SyncRedisClient {
  import opened Wrappers

  /** How an operation's coroutine ends. */
  datatype Outcome = Value(text: string) | Threw(what: string)

  /** What the io_context has to run, and when: the completion of an operation,
      some other handler, or no work left at all. */
  datatype Event =
    | Completes(op: nat, outcome: Outcome, at: int)
    | Handler(at: int)
    | RunsDry(at: int)

  /** OpState, shared by a call and its completion handler. */
  datatype OpState = Waiting | Finished(outcome: Outcome)

  ghost predicate Fired(fired: seq<Event>, op: nat, outcome: Outcome) {
    exists i :: 0 <= i < |fired| && fired[i].Completes? && fired[i].op == op && fired[i].outcome == outcome
  }

  predicate CompletesOp(e: Event, op: nat) {
    e.Completes? && e.op == op
  }

  /** The i-th coming event is the first to complete the operation, by the
      deadline, and everything before it runs before the deadline without the
      context running dry. */
  ghost predicate InTime(coming: seq<Event>, i: nat, op: nat, start: int, deadline: int) {
    && i < |coming| && start < deadline && CompletesOp(coming[i], op) && coming[i].at <= deadline
    && forall j :: 0 <= j < i ==> coming[j].at < deadline && !coming[j].RunsDry? && !CompletesOp(coming[j], op)
  }

  /** The operation completes in time, so. */
  ghost predicate CompletesWith(coming: seq<Event>, op: nat, start: int, timeout: nat, outcome: Outcome) {
    exists i: nat :: InTime(coming, i, op, start, start + timeout) && coming[i].outcome == outcome
  }

  class Client {
    const opTimeout: nat
    const failFastCooldown: nat
    var now: int
    var failFastUntil: int
    var issued: nat                     // operations are numbered as they start
    var pending: set<nat>               // requests inside the connection
    var states: map<nat, OpState>       // the heap
    var coming: seq<Event>
    var fired: seq<Event>

    constructor (opTimeout: nat, failFastCooldown: nat, now: int, coming: seq<Event>)
      requires now >= 0
      ensures this.opTimeout == opTimeout && this.failFastCooldown == failFastCooldown && this.now == now
      ensures Valid() && pending == {} && issued == 0 && failFastUntil == 0
    {
      this.opTimeout, this.failFastCooldown, this.now := opTimeout, failFastCooldown, now;
      failFastUntil, issued, pending, states, this.coming, fired := 0, 0, {}, map[], coming, [];
    }

    /** Each state holds what its own operation's completion wrote. */
    ghost predicate Valid()
      reads this
    {
      && now >= 0
      && (forall op :: op in pending ==> op < issued)
      && (forall op :: op in states ==> op < issued && (states[op].Finished? ==> Fired(fired, op, states[op].outcome)))
    }

    predicate BreakerOpen()
      reads this
    {
      now < failFastUntil
    }

    /** Cancels every pending request. */
    method TripBreaker()
      modifies this`pending, this`failFastUntil
      ensures pending == {} && failFastUntil == now + failFastCooldown
    {
      pending := {};
      failFastUntil := now + failFastCooldown;
    }

    /** One handler has run at its time. */
    method Fire()
      requires coming != [] && Valid()
      modifies this`now, this`coming, this`fired, this`states, this`pending
      ensures Valid() && coming == old(coming)[1..] && fired == old(fired) + [old(coming)[0]]
      ensures now == if old(coming)[0].at > old(now) then old(coming)[0].at else old(now)
      ensures var e := old(coming)[0];
        if e.Completes? && e.op in old(states) && old(states)[e.op].Waiting?
        then states == old(states)[e.op := Finished(e.outcome)] && pending == old(pending) - {e.op}
        else states == old(states) && pending == old(pending)
    {
      var e := coming[0];
      now := if e.at > now then e.at else now;
      coming := coming[1..];
      ghost var before := fired;
      fired := fired + [e];
      assert forall op, outcome :: Fired(before, op, outcome) ==> Fired(fired, op, outcome) by {
        forall op, outcome | Fired(before, op, outcome) ensures Fired(fired, op, outcome) {
          var i :| 0 <= i < |before| && before[i].Completes? && before[i].op == op && before[i].outcome == outcome;
          assert fired[i] == before[i];
        }
      }
      if e.Completes? && e.op in states && states[e.op].Waiting? {
        assert fired[|before|] == e;
        states := states[e.op := Finished(e.outcome)];
        pending := pending - {e.op};
      }
    }

    /** Pumps until the operation is finished or the deadline has passed. It
        succeeds exactly when the operation completes in time. */
    method PumpUntil(op: nat) returns (ok: bool, error: string)
      requires Valid() && op in states && states[op].Waiting? && pending == {op}
      modifies this`now, this`coming, this`fired, this`states, this`pending, this`failFastUntil
      ensures Valid() && states.Keys == old(states).Keys && pending == {}
      ensures old(now) <= now <= old(now) + opTimeout
      ensures forall o :: CompletesWith(old(coming), op, old(now), opTimeout, o) ==> ok && states[op] == Finished(o)
      ensures ok ==> states[op].Finished? && CompletesWith(old(coming), op, old(now), opTimeout, states[op].outcome)
      ensures ok ==> failFastUntil == old(failFastUntil)
      ensures !ok ==> error != "" && failFastUntil == now + failFastCooldown
      ensures !ok ==> now == old(now) + opTimeout || (fired != [] && fired[|fired| - 1].RunsDry?)
    {
      hide CompletesWith, Fired;
      var deadline := now + opTimeout;
      ghost var n := 0;
      while states[op].Waiting?
        invariant Valid() && op in states && states.Keys == old(states).Keys
        invariant n <= |old(coming)| && coming == old(coming)[n..]
        invariant old(now) <= now <= deadline && failFastUntil == old(failFastUntil)
        invariant states[op].Waiting? ==> pending == {op} && forall j :: 0 <= j < n ==> Quiet(old(coming)[j], op)
        invariant states[op].Waiting? && now < deadline ==> forall j :: 0 <= j < n ==> old(coming)[j].at < deadline
        invariant states[op].Waiting? && now >= deadline ==>
          old(now) >= deadline || exists j :: 0 <= j < n && old(coming)[j].at >= deadline
        invariant states[op].Finished? ==>
          pending == {} && n > 0 && InTime(old(coming), n - 1, op, old(now), deadline) && states[op].outcome == old(coming)[n - 1].outcome
        decreases |coming|
      {
        if now >= deadline {
          NeverInTime(old(coming), n, op, old(now), opTimeout);
          TripBreaker();
          return false, "timed out (Redis unreachable?)";
        }
        if coming == [] || coming[0].at > deadline {
          NeverInTime(old(coming), n, op, old(now), opTimeout);
          now := deadline;
          TripBreaker();
          return false, "timed out (Redis unreachable?)";
        }
        var dry := coming[0].RunsDry?;
        assert coming[0] == old(coming)[n];
        Fire();
        if dry {
          NeverInTime(old(coming), n, op, old(now), opTimeout);
          TripBreaker();
          return false, if now >= deadline then "timed out (Redis unreachable?)" else "connection stopped before the command completed";
        }
        n := n + 1;
      }
      FirstInTime(old(coming), n - 1, op, old(now), opTimeout);
      return true, "";
    }

    /** One operation, to completion or deadline. */
    method Run() returns (result: Option<string>, error: string)
      requires Valid() && pending == {}
      modifies this
      // A call inside the cooldown issues nothing and takes no time.
      ensures old(now < failFastUntil) ==>
        result == None && error == "" && issued == old(issued) && now == old(now)
        && states == old(states) && fired == old(fired) && failFastUntil == old(failFastUntil)
      // Nothing a call issued outlives it, whatever happened.
      ensures Valid() && pending == {}
      ensures !old(now < failFastUntil) ==> issued == old(issued) + 1
      ensures old(now) <= now <= old(now) + opTimeout
      ensures !old(now < failFastUntil) && result.None? ==> failFastUntil == now + failFastCooldown
      // A result is what this call's own operation completed with,
      ensures result.Some? ==> !old(now < failFastUntil) && failFastUntil == 0 && Fired(fired, old(issued), Value(result.value))
      // and an operation that completes in time gives one, or its exception.
      ensures !old(now < failFastUntil) ==> forall v ::
        CompletesWith(old(coming), old(issued), old(now), opTimeout, Value(v)) ==> result == Some(v)
      ensures !old(now < failFastUntil) ==> forall what ::
        CompletesWith(old(coming), old(issued), old(now), opTimeout, Threw(what)) ==> result == None && error == what
      // Only a skipped call, or an exception without a text, has an empty error.
      ensures !old(now < failFastUntil) && result.None? && error == "" ==>
        CompletesWith(old(coming), old(issued), old(now), opTimeout, Threw(""))
    {
      hide CompletesWith, Fired;
      if BreakerOpen() {
        return None, "";
      }
      var op := issued;
      issued := issued + 1;
      states := states[op := Waiting];
      pending := pending + {op};
      assert coming == old(coming) && now == old(now) && op == old(issued);
      var ok, reason := PumpUntil(op);
      if !ok {
        assert forall o :: !CompletesWith(old(coming), old(issued), old(now), opTimeout, o);
        return None, reason;
      }
      if states[op].outcome.Threw? {
        error := states[op].outcome.what;
        TripBreaker();
        return None, error;
      }
      failFastUntil := 0;
      return Some(states[op].outcome.text), "";
    }
  }

  /** An event a pump passes over: it neither completes the operation nor leaves
      the context without work. */
  predicate Quiet(e: Event, op: nat) {
    !e.RunsDry? && !CompletesOp(e, op)
  }

  /** Only one event is the first. */
  lemma FirstInTime(coming: seq<Event>, n: nat, op: nat, start: int, timeout: nat)
    requires InTime(coming, n, op, start, start + timeout)
    ensures forall o :: CompletesWith(coming, op, start, timeout, o) <==> o == coming[n].outcome
  {
    var deadline := start + timeout;
    assert forall i: nat :: InTime(coming, i, op, start, deadline) ==> !(i < n) && !(n < i);
  }

  /** Quiet events, and then the deadline, nothing, a late event or a dry context:
      the operation does not complete in time. */
  lemma NeverInTime(coming: seq<Event>, n: nat, op: nat, start: int, timeout: nat)
    requires n <= |coming| && forall j :: 0 <= j < n ==> Quiet(coming[j], op)
    requires timeout == 0 || (exists j :: 0 <= j < n && coming[j].at >= start + timeout)
      || n == |coming| || coming[n].at > start + timeout || coming[n].RunsDry?
    ensures forall o :: !CompletesWith(coming, op, start, timeout, o)
  {
    var deadline := start + timeout;
    forall i: nat | i < |coming| ensures !InTime(coming, i, op, start, deadline) {
      assert i < n ==> Quiet(coming[i], op);
    }
  }

  // -- sequences of calls ---------------------------------------------------------------

  /** The breaker as its caller meets it. */
  datatype Breaker = Breaker(now: int, until: int)

  datatype Act = Passes(ms: nat) | Calls(elapsed: nat, ok: bool)

  function Elapsed(b: Breaker, a: Act): nat {
    if a.Calls? && b.now >= b.until then a.elapsed else 0
  }

  function Step(b: Breaker, cooldown: nat, a: Act): Breaker {
    match a
    case Passes(ms) => b.(now := b.now + ms)
    case Calls(elapsed, ok) =>
      if b.now < b.until then b
      else Breaker(b.now + elapsed, if ok then 0 else b.now + elapsed + cooldown)
  }

  /** How long the caller is held up. */
  function Blocked(b: Breaker, cooldown: nat, acts: seq<Act>): nat
    decreases |acts|
  {
    if acts == [] then 0 else Elapsed(b, acts[0]) + Blocked(Step(b, cooldown, acts[0]), cooldown, acts[1..])
  }

  /** Until `end` Redis is out: every call that gets past the breaker starts by
      then, fails, and takes at most the timeout. */
  ghost predicate Outage(b: Breaker, cooldown: nat, opTimeout: nat, end: int, acts: seq<Act>)
    decreases |acts|
  {
    acts == [] || (
      && (acts[0].Calls? && b.now >= b.until ==> b.now <= end && !acts[0].ok && acts[0].elapsed <= opTimeout)
      && Outage(Step(b, cooldown, acts[0]), cooldown, opTimeout, end, acts[1..]))
  }

  /** A method call is a step of this breaker. */
  method CallSteps(c: Client) returns (result: Option<string>, ghost elapsed: nat)
    requires c.Valid() && c.pending == {}
    modifies c
    ensures elapsed <= c.opTimeout && (old(c.now) < old(c.failFastUntil) ==> result == None)
    ensures Breaker(c.now, c.failFastUntil)
         == Step(old(Breaker(c.now, c.failFastUntil)), c.failFastCooldown, Calls(elapsed, result.Some?))
  {
    var error: string;
    ghost var before := c.now;
    result, error := c.Run();
    elapsed := c.now - before;
  }

  function Earliest(b: Breaker): int {
    if b.now < b.until then b.until else b.now
  }

  /** How many calls can still be let through by `end`. */
  function Slots(b: Breaker, cooldown: nat, end: int): nat
    requires cooldown >= 1
  {
    if Earliest(b) > end then 0 else 1 + (end - Earliest(b)) / cooldown
  }

  lemma TimesKeepsOrder(p: int, q: int, c: nat)
    requires p <= q
    ensures p * c <= q * c
  {
  }

  lemma DivisionSteps(a: int, b: int, c: nat)
    requires c >= 1 && 0 <= b && b + c <= a
    ensures b / c + 1 <= a / c
  {
    var p, q := a / c, b / c;
    assert a == p * c + a % c && b == q * c + b % c;
    if p <= q {
      TimesKeepsOrder(p, q, c);
    }
  }

  lemma DivisionIsMonotone(a: int, b: int, c: nat)
    requires c >= 1 && 0 <= a <= b
    ensures a / c <= b / c
  {
    var p, q := a / c, b / c;
    assert a == p * c + a % c && b == q * c + b % c && (q + 1) * c == q * c + c;
    if q + 1 <= p {
      TimesKeepsOrder(q + 1, p, c);
    }
  }

  lemma CallUsesASlot(b: Breaker, cooldown: nat, end: int, elapsed: nat)
    requires cooldown >= 1 && b.until <= b.now <= end
    ensures Slots(Step(b, cooldown, Calls(elapsed, false)), cooldown, end) + 1 <= Slots(b, cooldown, end)
  {
    var after := b.now + elapsed + cooldown;
    if after <= end {
      DivisionSteps(end - b.now, end - after, cooldown);
    } else if b.now <= end {
      DivisionIsMonotone(0, end - b.now, cooldown);
    }
  }

  /** What so many calls can cost. */
  function Cost(opTimeout: nat, calls: nat): nat {
    opTimeout * calls
  }

  lemma CostGrows(opTimeout: nat, m: nat, n: nat)
    requires m <= n
    ensures Cost(opTimeout, m) <= Cost(opTimeout, n)
    ensures Cost(opTimeout, m + 1) == Cost(opTimeout, m) + opTimeout
  {
  }

  /** Waiting, or a call the breaker skips, adds no slot. */
  lemma WaitingAddsNoSlot(b: Breaker, cooldown: nat, end: int, a: Act)
    requires cooldown >= 1 && !(a.Calls? && b.now >= b.until)
    ensures Slots(Step(b, cooldown, a), cooldown, end) <= Slots(b, cooldown, end)
  {
    var next := Step(b, cooldown, a);
    if Earliest(next) <= end {
      DivisionIsMonotone(end - Earliest(next), end - Earliest(b), cooldown);
    }
  }

  lemma {:induction false} BlockedBySlots(b: Breaker, cooldown: nat, opTimeout: nat, end: int, acts: seq<Act>)
    requires cooldown >= 1 && Outage(b, cooldown, opTimeout, end, acts)
    ensures Blocked(b, cooldown, acts) <= Cost(opTimeout, Slots(b, cooldown, end))
    decreases |acts|
  {
    if acts != [] {
      hide Slots, Cost;
      var next := Step(b, cooldown, acts[0]);
      BlockedBySlots(next, cooldown, opTimeout, end, acts[1..]);
      if acts[0].Calls? && b.now >= b.until {
        CallUsesASlot(b, cooldown, end, acts[0].elapsed);
        CostGrows(opTimeout, Slots(next, cooldown, end), Slots(next, cooldown, end) + 1);
        CostGrows(opTimeout, Slots(next, cooldown, end) + 1, Slots(b, cooldown, end));
      } else {
        WaitingAddsNoSlot(b, cooldown, end, acts[0]);
        CostGrows(opTimeout, Slots(next, cooldown, end), Slots(b, cooldown, end));
      }
    }
  }

  /** The stall bound: over an outage of length T, however often it calls, the
      caller waits at most opTimeout * (1 + T / cooldown). */
  lemma OutageStallsAreBounded(b: Breaker, cooldown: nat, opTimeout: nat, length: nat, acts: seq<Act>)
    requires cooldown >= 1 && Outage(b, cooldown, opTimeout, b.now + length, acts)
    ensures Blocked(b, cooldown, acts) <= opTimeout * (1 + length / cooldown)
  {
    var end := b.now + length;
    BlockedBySlots(b, cooldown, opTimeout, end, acts);
    if Earliest(b) <= end {
      DivisionIsMonotone(end - Earliest(b), length, cooldown);
    }
    CostGrows(opTimeout, Slots(b, cooldown, end), 1 + length / cooldown);
  }
}
