/** The fixed-size pool: one mutex, three condition variables with explicit
    wait sets, and the order in which its destructor stops the workers. Every
    step below is one critical section or one action outside the lock. */
module ThreadPool {
  import opened Wrappers

  /** What the mutex guards. Tasks are numbered in the order they are pushed. */
  datatype Shared = Shared(tasks: seq<nat>, inFlight: int, gauge: int, firstError: Option<string>)

  const INT32: int := 0x1_0000_0000

  /** static_cast<std::int32_t>. */
  function ToInt32(n: int): int {
    if n % INT32 < INT32 / 2 then n % INT32 else n % INT32 - INT32
  }

  function Push(s: Shared, task: nat): Shared {
    s.(tasks := s.tasks + [task], inFlight := s.inFlight + 1, gauge := ToInt32(s.inFlight + 1))
  }

  function Pop(s: Shared): Shared
    requires s.tasks != []
  {
    s.(tasks := s.tasks[1..])
  }

  function Finish(s: Shared, error: Option<string>): Shared {
    s.(firstError := if s.firstError.None? then error else s.firstError,
       inFlight := s.inFlight - 1, gauge := ToInt32(s.inFlight - 1))
  }

  /** The guarded members, updated in place by the bodies of the critical
      sections. */
  class Members {
    var tasks: seq<nat>
    var inFlight: int
    var gauge: int
    var firstError: Option<string>

    function Abs(): Shared
      reads this
    {
      Shared(tasks, inFlight, gauge, firstError)
    }

    constructor ()
      ensures Abs() == Shared([], 0, 0, None)
    {
      tasks, inFlight, gauge, firstError := [], 0, 0, None;
    }

    method PublishInFlight()
      modifies this`gauge
      ensures gauge == ToInt32(inFlight)
    {
      gauge := ToInt32(inFlight);
    }

    /** submit, once its wait has been satisfied. */
    method Submit(task: nat)
      modifies this
      ensures Abs() == Push(old(Abs()), task)
    {
      tasks := tasks + [task];
      inFlight := inFlight + 1;
      PublishInFlight();
    }

    /** workerLoop, first critical section, once its wait has been satisfied. */
    method TakeTask() returns (task: nat)
      requires tasks != []
      modifies this
      ensures task == old(tasks)[0] && Abs() == Pop(old(Abs()))
    {
      task := tasks[0];
      tasks := tasks[1..];
    }

    /** workerLoop, second critical section. */
    method Account(error: Option<string>) returns (idle: bool)
      modifies this
      ensures Abs() == Finish(old(Abs()), error) && idle == (inFlight == 0)
    {
      if error.Some? && firstError.None? {
        firstError := error;
      }
      inFlight := inFlight - 1;
      PublishInFlight();
      idle := inFlight == 0;
    }

    method TakeError() returns (error: Option<string>)
      modifies this
      ensures error == old(firstError) && Abs() == old(Abs()).(firstError := None)
    {
      error := firstError;
      firstError := None;
    }
  }

  /** The threads inside submit, or inside wait: about to look at the predicate,
      asleep on the condition variable, or notified and not yet back. */
  datatype Callers = Callers(looking: set<nat>, asleep: set<nat>, woken: set<nat>) {
    function Look(id: nat): Callers {
      Callers(looking + {id}, asleep - {id}, woken - {id})
    }
    function Sleep(id: nat): Callers {
      Callers(looking - {id}, asleep + {id}, woken - {id})
    }
    function Return(id: nat): Callers {
      Callers(looking - {id}, asleep - {id}, woken - {id})
    }
    function NotifyOne(id: Option<nat>): Callers {
      if id.Some? then this.(asleep := asleep - {id.value}, woken := woken + {id.value}) else this
    }
    function NotifyAll(): Callers {
      this.(asleep := {}, woken := woken + asleep)
    }
    predicate Inside(id: nat) {
      id in looking || id in asleep || id in woken
    }
    predicate Awake(id: nat) {
      id in looking || id in woken
    }
  }

  const NOBODY := Callers({}, {}, {})

  /** Where each worker is. `waiting` and `notified` split the wait set of
      workAvailable_; one in `leaving` has done its accounting and not yet
      called slotFree_.notify_one. */
  datatype Threads = Threads(
    running: set<nat>,
    waiting: set<nat>,
    notified: set<nat>,
    executing: map<nat, nat>,                  // worker -> task
    done: map<nat, (nat, Option<string>)>,     // worker -> task, what it threw
    leaving: set<nat>,
    exited: set<nat>)
  {
    function Crew(): set<nat> {
      running + waiting + notified + executing.Keys + done.Keys + leaving + exited
    }
    function Take(w: nat, task: nat): Threads {
      this.(running := running - {w}, notified := notified - {w}, executing := executing[w := task])
    }
    function Sleep(w: nat): Threads {
      this.(running := running - {w}, notified := notified - {w}, waiting := waiting + {w})
    }
    function Exit(w: nat): Threads {
      this.(running := running - {w}, notified := notified - {w}, exited := exited + {w})
    }
    function End(w: nat, error: Option<string>): Threads
      requires w in executing
    {
      this.(executing := executing - {w}, done := done[w := (executing[w], error)])
    }
    function Leave(w: nat): Threads {
      this.(done := done - {w}, leaving := leaving + {w})
    }
    function Free(w: nat): Threads {
      this.(leaving := leaving - {w}, running := running + {w})
    }
    function NotifyOne(w: Option<nat>): Threads {
      if w.Some? then this.(waiting := waiting - {w.value}, notified := notified + {w.value}) else this
    }
    function Rouse(w: nat): Threads {
      if w in waiting then this.(waiting := waiting - {w}, running := running + {w}) else this
    }
  }

  /** Bookkeeping of the proof: how many tasks were pushed, the order in which
      they were taken, which are finished, and the failures since the last
      takeError. */
  datatype History = History(pushed: nat, started: seq<nat>, finished: set<nat>, errors: seq<string>)

  datatype Pool = Pool(capacity: nat, shared: Shared, threads: Threads, submitters: Callers, waiters: Callers,
                       destroying: bool, stopped: set<nat>, history: History)

  datatype Step =
    | WorkerLooks(w: nat)
    | TaskEnds(w: nat, error: Option<string>)
    | Accounts(w: nat)
    | FreesSlot(w: nat, woken: Option<nat>)
    | CallsSubmit(id: nat)
    | SubmitterLooks(id: nat, woken: Option<nat>)
    | CallsWait(id: nat)
    | WaiterLooks(id: nat)
    | TakesError
    | Destroys
    | Stops(w: nat)
    | WorkerSpurious(w: nat)
    | SubmitterSpurious(id: nat)
    | WaiterSpurious(id: nat)

  /** notify_one wakes some sleeper when there is one. */
  predicate Picks(sleepers: set<nat>, woken: Option<nat>) {
    if sleepers == {} then woken.None? else woken.Some? && woken.value in sleepers
  }

  predicate Enabled(p: Pool, s: Step) {
    match s
    case WorkerLooks(w) => w in p.threads.running || w in p.threads.notified
    case TaskEnds(w, _) => w in p.threads.executing
    case Accounts(w) => w in p.threads.done
    case FreesSlot(w, woken) => w in p.threads.leaving && Picks(p.submitters.asleep, woken)
    case CallsSubmit(id) => !p.destroying && !p.submitters.Inside(id)
    case SubmitterLooks(id, woken) => p.submitters.Awake(id) && Picks(p.threads.waiting, woken)
    case CallsWait(id) => !p.destroying && !p.waiters.Inside(id)
    case WaiterLooks(id) => p.waiters.Awake(id)
    case TakesError => true
    // Destroying a pool another thread is still calling into is not defined.
    case Destroys => p.submitters == NOBODY && p.waiters == NOBODY
    // The vector of jthreads goes front to back: request_stop, then join.
    case Stops(w) => p.destroying && w in p.threads.Crew() && w !in p.stopped
                     && forall j | j in p.threads.Crew() && j < w :: j in p.threads.exited
    case WorkerSpurious(w) => w in p.threads.waiting
    case SubmitterSpurious(id) => id in p.submitters.asleep
    case WaiterSpurious(id) => id in p.waiters.asleep
  }

  function Do(p: Pool, s: Step): Pool
    requires Enabled(p, s)
  {
    match s
    case WorkerLooks(w) =>
      if p.shared.tasks != [] then
        p.(shared := Pop(p.shared), threads := p.threads.Take(w, p.shared.tasks[0]),
           history := p.history.(started := p.history.started + [p.shared.tasks[0]]))
      else p.(threads := if w in p.stopped then p.threads.Exit(w) else p.threads.Sleep(w))
    case TaskEnds(w, error) => p.(threads := p.threads.End(w, error))
    case Accounts(w) => Accounted(p, w, p.threads.done[w].0, p.threads.done[w].1)
    case FreesSlot(w, woken) => p.(threads := p.threads.Free(w), submitters := p.submitters.NotifyOne(woken))
    case CallsSubmit(id) => p.(submitters := p.submitters.Look(id))
    case SubmitterLooks(id, woken) =>
      if p.shared.inFlight < p.capacity then
        p.(shared := Push(p.shared, p.history.pushed), threads := p.threads.NotifyOne(woken),
           submitters := p.submitters.Return(id), history := p.history.(pushed := p.history.pushed + 1))
      else p.(submitters := p.submitters.Sleep(id))
    case CallsWait(id) => p.(waiters := p.waiters.Look(id))
    case WaiterLooks(id) =>
      p.(waiters := if p.shared.inFlight == 0 then p.waiters.Return(id) else p.waiters.Sleep(id))
    case TakesError => p.(shared := p.shared.(firstError := None), history := p.history.(errors := []))
    case Destroys => p.(destroying := true)
    case Stops(w) => p.(stopped := p.stopped + {w}, threads := p.threads.Rouse(w))
    case WorkerSpurious(w) => p.(threads := p.threads.Rouse(w))
    case SubmitterSpurious(id) => p.(submitters := p.submitters.Look(id))
    case WaiterSpurious(id) => p.(waiters := p.waiters.Look(id))
  }

  function Accounted(p: Pool, w: nat, task: nat, error: Option<string>): Pool {
    p.(shared := Finish(p.shared, error), threads := p.threads.Leave(w),
       waiters := if p.shared.inFlight - 1 == 0 then p.waiters.NotifyAll() else p.waiters,
       history := p.history.(finished := p.history.finished + {task},
                             errors := if error.Some? then p.history.errors + [error.value] else p.history.errors))
  }

  function New(crew: set<nat>): Pool {
    Pool(2 * |crew|, Shared([], 0, 0, None), Threads(crew, {}, {}, map[], map[], {}, {}), NOBODY, NOBODY, false, {},
         History(0, [], {}, []))
  }

  /** The state a pool of these workers reaches by these steps. */
  function After(crew: set<nat>, steps: seq<Step>): Option<Pool> {
    if steps == [] then Some(New(crew))
    else
      var before := After(crew, steps[..|steps| - 1]);
      var s := steps[|steps| - 1];
      if before.Some? && Enabled(before.value, s) then Some(Do(before.value, s)) else None
  }

  // -- invariants ------------------------------------------------------------

  predicate AtOnePlace(t: Threads, w: nat) {
    && (w in t.running ==> w !in t.waiting && w !in t.notified && w !in t.executing && w !in t.done && w !in t.leaving && w !in t.exited)
    && (w in t.waiting ==> w !in t.notified && w !in t.executing && w !in t.done && w !in t.leaving && w !in t.exited)
    && (w in t.notified ==> w !in t.executing && w !in t.done && w !in t.leaving && w !in t.exited)
    && (w in t.executing ==> w !in t.done && w !in t.leaving && w !in t.exited)
    && (w in t.done ==> w !in t.leaving && w !in t.exited)
    && (w in t.leaving ==> w !in t.exited)
  }

  /** Every worker is at one place. */
  ghost predicate OnePlace(t: Threads) {
    forall w :: AtOnePlace(t, w)
  }

  /** Tasks taken and not yet accounted for. */
  function Load(t: Threads): nat {
    |t.executing| + |t.done|
  }

  ghost predicate Accounting(p: Pool) {
    p.shared.inFlight == |p.shared.tasks| + Load(p.threads) <= p.capacity
  }

  ghost predicate GaugeShows(s: Shared) {
    s.gauge == ToInt32(s.inFlight)
  }

  function Range(from: nat, to: nat): seq<nat>
    requires from <= to
  {
    seq(to - from, i requires 0 <= i < to - from => from + i)
  }

  /** Tasks start in submission order. */
  ghost predicate InOrder(tasks: seq<nat>, h: History) {
    && |h.started| <= h.pushed
    && h.started == Range(0, |h.started|)
    && tasks == Range(|h.started|, h.pushed)
  }

  predicate RunsTask(t: Threads, w: nat, task: nat) {
    (w in t.executing && t.executing[w] == task) || (w in t.done && t.done[w].0 == task)
  }

  /** A started task is finished or on exactly one worker. */
  ghost predicate OncePerTask(t: Threads, h: History) {
    && (forall w: nat, k: nat :: RunsTask(t, w, k) ==> k < |h.started| && k !in h.finished)
    && (forall v: nat, w: nat, k: nat :: RunsTask(t, v, k) && RunsTask(t, w, k) ==> v == w)
    && (forall k :: k in h.finished ==> k < |h.started|)
    && (forall k: nat :: k < |h.started| && k !in h.finished ==> exists w :: RunsTask(t, w, k))
  }

  ghost predicate WorkersWake(p: Pool) {
    p.threads.waiting != {} ==> |p.shared.tasks| <= |p.threads.notified|
  }

  ghost predicate SubmittersWake(p: Pool) {
    p.submitters.asleep != {} ==> p.capacity - p.shared.inFlight <= |p.threads.leaving| + |p.submitters.woken|
  }

  ghost predicate OneCall(c: Callers) {
    c.asleep !! c.woken
  }

  ghost predicate WaitersWake(p: Pool) {
    p.waiters.asleep != {} ==> p.shared.inFlight > 0
  }

  ghost predicate Teardown(p: Pool) {
    && (p.stopped != {} ==> p.destroying)
    && (p.destroying ==> p.submitters == NOBODY)
    && p.stopped !! p.threads.waiting
    && p.threads.exited <= p.stopped
    && (p.threads.exited != {} ==> p.shared.tasks == [])
  }

  ghost predicate FirstErrorKept(s: Shared, h: History) {
    s.firstError == if h.errors == [] then None else Some(h.errors[0])
  }

  ghost predicate PoolInv(p: Pool) {
    && OnePlace(p.threads) && Accounting(p) && GaugeShows(p.shared) && InOrder(p.shared.tasks, p.history)
    && OncePerTask(p.threads, p.history) && WorkersWake(p) && OneCall(p.submitters) && SubmittersWake(p)
    && WaitersWake(p) && Teardown(p) && FirstErrorKept(p.shared, p.history)
  }

  lemma OnePlaceStep(p: Pool, s: Step)
    requires Enabled(p, s) && OnePlace(p.threads)
    ensures OnePlace(Do(p, s).threads)
  {
    hide ToInt32;
    forall w ensures AtOnePlace(Do(p, s).threads, w) {
      assert AtOnePlace(p.threads, w);
    }
  }

  lemma AccountingStep(p: Pool, s: Step)
    requires Enabled(p, s) && OnePlace(p.threads) && Accounting(p)
    ensures Accounting(Do(p, s))
  {
    hide ToInt32, AtOnePlace, OnePlace, Load;
    LoadStep(p, s);
  }

  lemma LoadStep(p: Pool, s: Step)
    requires Enabled(p, s) && OnePlace(p.threads)
    ensures Load(Do(p, s).threads) == Load(p.threads)
      + (if s.WorkerLooks? && p.shared.tasks != [] then 1 else 0) - (if s.Accounts? then 1 else 0)
  {
    hide ToInt32, AtOnePlace, OnePlace, Push, Finish;
    if s.WorkerLooks? && p.shared.tasks != [] {
      TakeCounts(p.threads, s.w, p.shared.tasks[0]);
    } else if s.TaskEnds? {
      EndCounts(p.threads, s.w, s.error);
    } else if s.Accounts? {
      MapLess(p.threads.done, s.w);
    }
  }

  lemma TakeCounts(t: Threads, w: nat, task: nat)
    requires OnePlace(t) && (w in t.running || w in t.notified)
    ensures |t.Take(w, task).executing| == |t.executing| + 1 && t.Take(w, task).done == t.done
  {
    assert AtOnePlace(t, w);
  }

  lemma EndCounts(t: Threads, w: nat, error: Option<string>)
    requires OnePlace(t) && w in t.executing
    ensures |t.End(w, error).executing| + |t.End(w, error).done| == |t.executing| + |t.done|
  {
    assert AtOnePlace(t, w);
    MapLess(t.executing, w);
  }

  lemma MapLess<V>(m: map<nat, V>, k: nat)
    requires k in m
    ensures |m - {k}| == |m| - 1
  {
    assert (m - {k}).Keys == m.Keys - {k};
    assert |m| == |m.Keys|;
    assert |m - {k}| == |(m - {k}).Keys|;
  }

  lemma InOrderStep(p: Pool, s: Step)
    requires Enabled(p, s) && InOrder(p.shared.tasks, p.history)
    ensures InOrder(Do(p, s).shared.tasks, Do(p, s).history)
  {
    hide ToInt32;
    var h := p.history;
    if s.WorkerLooks? && p.shared.tasks != [] {
      assert p.shared.tasks[0] == |h.started|;
      assert Range(|h.started|, h.pushed)[1..] == Range(|h.started| + 1, h.pushed);
      assert Range(0, |h.started| + 1) == Range(0, |h.started|) + [|h.started|];
    } else if s.SubmitterLooks? {
      assert Range(|h.started|, h.pushed + 1) == Range(|h.started|, h.pushed) + [h.pushed];
    }
  }

  lemma OnceStep(p: Pool, s: Step)
    requires Enabled(p, s) && OnePlace(p.threads) && InOrder(p.shared.tasks, p.history) && OncePerTask(p.threads, p.history)
    ensures OncePerTask(Do(p, s).threads, Do(p, s).history)
  {
    hide ToInt32;
    if s.WorkerLooks? && p.shared.tasks != [] {
      assert p.shared.tasks[0] == |p.history.started|;
      OnceTake(p.threads, p.history, s.w);
    } else if s.TaskEnds? {
      OnceEnd(p.threads, p.history, s.w, s.error);
    } else if s.Accounts? {
      OnceLeave(p.threads, p.history, s.w, Do(p, s).history.errors);
    } else {
      var t, t' := p.threads, Do(p, s).threads;
      assert t'.executing == t.executing && t'.done == t.done;
      OnceSame(t, p.history, t', Do(p, s).history);
    }
  }

  lemma OnceSame(t: Threads, h: History, t': Threads, h': History)
    requires OncePerTask(t, h) && t'.executing == t.executing && t'.done == t.done
    requires h'.started == h.started && h'.finished == h.finished
    ensures OncePerTask(t', h')
  {
    assert forall w: nat, k: nat :: RunsTask(t', w, k) <==> RunsTask(t, w, k);
  }

  lemma OnceTake(t: Threads, h: History, w: nat)
    requires OnePlace(t) && OncePerTask(t, h) && (w in t.running || w in t.notified)
    ensures OncePerTask(t.Take(w, |h.started|), h.(started := h.started + [|h.started|]))
  {
    var t' := t.Take(w, |h.started|);
    assert AtOnePlace(t, w);
    assert forall v: nat, k: nat :: RunsTask(t', v, k) <==> RunsTask(t, v, k) || (v == w && k == |h.started|);
    forall k: nat | k < |h.started| + 1 && k !in h.finished ensures exists v :: RunsTask(t', v, k) {
      if k < |h.started| {
        var v :| RunsTask(t, v, k);
        assert RunsTask(t', v, k);
      } else {
        assert RunsTask(t', w, k);
      }
    }
  }

  lemma OnceEnd(t: Threads, h: History, w: nat, error: Option<string>)
    requires OnePlace(t) && OncePerTask(t, h) && w in t.executing
    ensures OncePerTask(t.End(w, error), h)
  {
    assert AtOnePlace(t, w);
    assert forall v: nat, k: nat :: RunsTask(t.End(w, error), v, k) <==> RunsTask(t, v, k);
  }

  lemma OnceLeave(t: Threads, h: History, w: nat, errors: seq<string>)
    requires OnePlace(t) && OncePerTask(t, h) && w in t.done
    ensures OncePerTask(t.Leave(w), h.(finished := h.finished + {t.done[w].0}, errors := errors))
  {
    assert AtOnePlace(t, w);
    assert RunsTask(t, w, t.done[w].0);
    assert forall v: nat, k: nat :: RunsTask(t.Leave(w), v, k) <==> RunsTask(t, v, k) && v != w;
  }

  lemma Fewer(ids: set<nat>, id: nat)
    ensures |ids - {id}| >= |ids| - 1 && |ids + {id}| >= |ids|
    ensures id !in ids ==> |ids - {id}| == |ids| && |ids + {id}| == |ids| + 1
  {
    assert ids <= (ids - {id}) + {id};
    assert ids - {id} == if id in ids then ids - {id} else ids;
    assert ids + {id} == (ids - {id}) + {id};
  }

  lemma WorkersWakeStep(p: Pool, s: Step)
    requires Enabled(p, s) && OnePlace(p.threads) && WorkersWake(p)
    ensures WorkersWake(Do(p, s))
  {
    hide ToInt32;
    if s.WorkerLooks? {
      Fewer(p.threads.notified, s.w);
    } else if s.SubmitterLooks? && s.woken.Some? {
      assert AtOnePlace(p.threads, s.woken.value);
      Fewer(p.threads.notified, s.woken.value);
    }
  }

  lemma SubmittersWakeStep(p: Pool, s: Step)
    requires Enabled(p, s) && OnePlace(p.threads) && OneCall(p.submitters) && SubmittersWake(p)
    ensures SubmittersWake(Do(p, s))
  {
    hide ToInt32;
    if s.FreesSlot? {
      Fewer(p.threads.leaving, s.w);
      if s.woken.Some? {
        Fewer(p.submitters.woken, s.woken.value);
      }
    } else if s.SubmitterLooks? || s.CallsSubmit? || s.SubmitterSpurious? {
      Fewer(p.submitters.woken, s.id);
    } else if s.Accounts? {
      assert AtOnePlace(p.threads, s.w);
      Fewer(p.threads.leaving, s.w);
    }
  }

  lemma OneCallStep(p: Pool, s: Step)
    requires Enabled(p, s) && OneCall(p.submitters)
    ensures OneCall(Do(p, s).submitters)
  {
    hide ToInt32;
  }

  lemma WaitersWakeStep(p: Pool, s: Step)
    requires Enabled(p, s) && Accounting(p) && WaitersWake(p)
    ensures WaitersWake(Do(p, s))
  {
    hide ToInt32;
    if s.Accounts? {
      assert |p.threads.done| > 0;
    }
  }

  lemma TeardownStep(p: Pool, s: Step)
    requires Enabled(p, s) && OnePlace(p.threads) && Teardown(p)
    ensures Teardown(Do(p, s))
  {
    hide ToInt32;
  }

  lemma ErrorStep(p: Pool, s: Step)
    requires Enabled(p, s) && GaugeShows(p.shared) && FirstErrorKept(p.shared, p.history)
    ensures GaugeShows(Do(p, s).shared) && FirstErrorKept(Do(p, s).shared, Do(p, s).history)
  {
    hide ToInt32;
  }

  lemma PoolStep(p: Pool, s: Step)
    requires Enabled(p, s) && PoolInv(p)
    ensures PoolInv(Do(p, s))
  {
    hide Do, Enabled, OnePlace, Accounting, GaugeShows, InOrder, OncePerTask, WorkersWake, SubmittersWake, OneCall,
         WaitersWake, Teardown, FirstErrorKept;
    OnePlaceStep(p, s);
    AccountingStep(p, s);
    InOrderStep(p, s);
    OnceStep(p, s);
    WorkersWakeStep(p, s);
    SubmittersWakeStep(p, s);
    OneCallStep(p, s);
    WaitersWakeStep(p, s);
    TeardownStep(p, s);
    ErrorStep(p, s);
  }

  lemma SameCrew(p: Pool, s: Step)
    requires Enabled(p, s)
    ensures Do(p, s).threads.Crew() == p.threads.Crew() && Do(p, s).capacity == p.capacity
  {
    hide ToInt32;
    if s.WorkerLooks? || s.TaskEnds? || s.Accounts? || s.FreesSlot? || s.Stops? || s.WorkerSpurious? {
      var t, t' := p.threads, Do(p, s).threads;
      assert s.w in t.Crew() && s.w in t'.Crew();
      forall w ensures w in t'.Crew() <==> w in t.Crew() {
      }
    }
  }

  /** In every reachable state of every pool. */
  lemma {:induction false} PoolInvOverRuns(crew: set<nat>, steps: seq<Step>)
    requires After(crew, steps).Some?
    ensures PoolInv(After(crew, steps).value)
    ensures After(crew, steps).value.capacity == 2 * |crew| && After(crew, steps).value.threads.Crew() == crew
  {
    if steps != [] {
      hide Do, Enabled, PoolInv;
      var p, s := After(crew, steps[..|steps| - 1]).value, steps[|steps| - 1];
      PoolInvOverRuns(crew, steps[..|steps| - 1]);
      PoolStep(p, s);
      SameCrew(p, s);
    }
  }

  // -- what the invariants mean ----------------------------------------------

  /** submit never lets more than twice the workers in, the gauge shows the
      in-flight total, and that total is what is queued or being run. */
  lemma InFlightIsQueuedPlusRunning(crew: set<nat>, steps: seq<Step>)
    requires After(crew, steps).Some? && 2 * |crew| < INT32 / 2
    ensures var p := After(crew, steps).value;
      && p.shared.inFlight == |p.shared.tasks| + |p.threads.executing| + |p.threads.done| <= 2 * |crew|
      && p.shared.gauge == p.shared.inFlight
  {
    hide After, OnePlace, InOrder, OncePerTask, WorkersWake, OneCall, SubmittersWake, WaitersWake, Teardown, FirstErrorKept;
    PoolInvOverRuns(crew, steps);
  }

  /** Tasks start in the order they were submitted and none starts twice. */
  lemma StartsInOrderOnce(crew: set<nat>, steps: seq<Step>)
    requires After(crew, steps).Some?
    ensures var p := After(crew, steps).value;
      && (forall k :: 0 <= k < |p.history.started| ==> p.history.started[k] == k)
      && p.history.started + p.shared.tasks == Range(0, p.history.pushed)
  {
    hide After, OnePlace, Accounting, GaugeShows, OncePerTask, WorkersWake, OneCall, SubmittersWake, WaitersWake, Teardown, FirstErrorKept;
    PoolInvOverRuns(crew, steps);
  }

  ghost predicate AwakeWorker(t: Threads) {
    exists w :: w in t.Crew() && w !in t.waiting && w !in t.exited
  }

  ghost predicate AwakeSubmitter(c: Callers) {
    exists id :: c.Awake(id)
  }

  /** No lost wakeup: queued work never finds every worker asleep, a free slot
      never leaves a submitter asleep with nobody about to wake it or awake in
      its place, and whoever sleeps in submit or wait has a worker on the way. */
  lemma NoLostWakeup(crew: set<nat>, steps: seq<Step>)
    requires After(crew, steps).Some? && crew != {}
    ensures var p := After(crew, steps).value;
      && (p.shared.tasks != [] ==> AwakeWorker(p.threads))
      && (p.submitters.asleep != {} && p.shared.inFlight < p.capacity ==>
            p.threads.leaving != {} || AwakeSubmitter(p.submitters))
      && (p.submitters.asleep != {} ==> AwakeWorker(p.threads) || AwakeSubmitter(p.submitters))
      && (p.waiters.asleep != {} ==> AwakeWorker(p.threads))
  {
    hide After, OnePlace, Accounting, GaugeShows, InOrder, OncePerTask, WorkersWake, OneCall, SubmittersWake,
         WaitersWake, Teardown, FirstErrorKept;
    PoolInvOverRuns(crew, steps);
    Wakes(After(crew, steps).value);
  }

  lemma EverybodyRests(t: Threads)
    requires OnePlace(t) && !AwakeWorker(t)
    ensures t.notified == {} && t.executing == map[] && t.done == map[] && t.leaving == {}
    ensures t.Crew() == t.waiting + t.exited
  {
    forall w ensures w !in t.notified && w !in t.executing && w !in t.done && w !in t.leaving && w !in t.running {
      assert AtOnePlace(t, w);
      if w in t.Crew() {
        assert w in t.waiting || w in t.exited;
      }
    }
  }

  lemma Wakes(p: Pool)
    requires OnePlace(p.threads) && Accounting(p) && WorkersWake(p) && SubmittersWake(p) && WaitersWake(p) && Teardown(p)
    requires p.threads.Crew() != {} && p.capacity > 0
    ensures p.shared.tasks != [] ==> AwakeWorker(p.threads)
    ensures p.submitters.asleep != {} && p.shared.inFlight < p.capacity ==>
      p.threads.leaving != {} || AwakeSubmitter(p.submitters)
    ensures p.submitters.asleep != {} ==> AwakeWorker(p.threads) || AwakeSubmitter(p.submitters)
    ensures p.waiters.asleep != {} ==> AwakeWorker(p.threads)
  {
    if p.submitters.woken != {} {
      var id :| id in p.submitters.woken;
      assert p.submitters.Awake(id);
    }
    if !AwakeWorker(p.threads) {
      EverybodyRests(p.threads);
      hide AwakeWorker, OnePlace;
    }
  }

  lemma AllFinished(p: Pool)
    requires InOrder(p.shared.tasks, p.history) && OncePerTask(p.threads, p.history)
    requires p.shared.tasks == [] && p.threads.executing == map[] && p.threads.done == map[]
    ensures forall k: nat :: k in p.history.finished <==> k < p.history.pushed
  {
    assert |p.history.started| == p.history.pushed;
    assert forall w: nat, k: nat :: !RunsTask(p.threads, w, k);
  }

  /** wait returns only when every task ever submitted has finished. */
  lemma WaitMeansAllFinished(crew: set<nat>, steps: seq<Step>, v: nat)
    requires After(crew, steps).Some? && Enabled(After(crew, steps).value, WaiterLooks(v))
    requires !Do(After(crew, steps).value, WaiterLooks(v)).waiters.Inside(v)
    ensures var p := After(crew, steps).value; forall k: nat :: k in p.history.finished <==> k < p.history.pushed
  {
    hide After, OnePlace, GaugeShows, InOrder, OncePerTask, WorkersWake, OneCall, SubmittersWake, WaitersWake, Teardown, FirstErrorKept;
    PoolInvOverRuns(crew, steps);
    AllFinished(After(crew, steps).value);
  }

  /** Destruction drains: once the last worker has been joined every task ever
      submitted has finished, whatever the backlog was. */
  lemma DestructionDrains(crew: set<nat>, steps: seq<Step>)
    requires After(crew, steps).Some? && crew != {} && After(crew, steps).value.threads.exited == crew
    ensures var p := After(crew, steps).value; forall k: nat :: k in p.history.finished <==> k < p.history.pushed
  {
    hide After, OnePlace, Accounting, GaugeShows, InOrder, OncePerTask, WorkersWake, OneCall, SubmittersWake, WaitersWake, FirstErrorKept;
    PoolInvOverRuns(crew, steps);
    var p := After(crew, steps).value;
    assert !AwakeWorker(p.threads);
    EverybodyRests(p.threads);
    AllFinished(p);
  }

  /** Destruction never hangs: until every worker is joined, the first one not
      yet joined can be stopped or, once stopped, is awake and will move. */
  lemma DestructionProceeds(crew: set<nat>, steps: seq<Step>, w: nat)
    requires After(crew, steps).Some? && After(crew, steps).value.destroying
    requires w in crew && w !in After(crew, steps).value.threads.exited
    requires forall j :: j in crew && j < w ==> j in After(crew, steps).value.threads.exited
    ensures var p := After(crew, steps).value;
      Enabled(p, Stops(w)) || Enabled(p, WorkerLooks(w)) || Enabled(p, TaskEnds(w, None)) || Enabled(p, Accounts(w))
      || Enabled(p, FreesSlot(w, None))
  {
    hide After, OnePlace, Accounting, GaugeShows, InOrder, OncePerTask, WorkersWake, OneCall, SubmittersWake, WaitersWake, FirstErrorKept;
    PoolInvOverRuns(crew, steps);
  }

  /** takeError hands out the earliest failure recorded since the last take. */
  lemma {:induction false} TakeErrorIsEarliest(crew: set<nat>, steps: seq<Step>)
    requires After(crew, steps).Some?
    ensures var p := After(crew, steps).value;
      p.shared.firstError == if p.history.errors == [] then None else Some(p.history.errors[0])
  {
    hide After, OnePlace, Accounting, GaugeShows, InOrder, OncePerTask, WorkersWake, OneCall, SubmittersWake, WaitersWake, Teardown;
    PoolInvOverRuns(crew, steps);
  }
}
