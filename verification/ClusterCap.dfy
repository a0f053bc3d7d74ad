/** Every worker's gate, the broker, the position producer and the clock, one
    atomic step at a time: the cluster caps over whole runs. */
module ClusterCap {
  import opened Wrappers
  import opened StringOrder
  import opened ClusterRules
  import opened ClusterMembers
  import opened ClusterGate

  datatype Config = Config(tables: Tables, lockTtl: nat, markTtl: nat)

  /** `since` is when the call acquired its first lock. */
  datatype Worker =
    | Idle
    | Checking(deal: Deal, gate: Gate, since: int)
    | Passed(deal: Deal, since: int)
    | Arming(deal: Deal, k: nat)

  /** A deal the broker accepted: when its first lock was acquired, how many
      snapshots of the book had been taken by then, and when markOpened's SET
      reached each of its clusters. */
  datatype Opened = Opened(since: int, acceptedAt: nat, armed: map<string, int>)

  datatype World = World(
    now: int,
    locks: map<string, int>,          // CLUSTER_LOCK#c -> expiry
    sets: map<string, set<string>>,   // CG#c
    swapped: map<string, nat>,        // index of the snapshot last swapped into CG#c
    snapshots: seq<set<Deal>>,        // the broker's book each time the producer fetched it
    workers: map<nat, Worker>,
    book: map<Deal, Opened>,          // every deal ever accepted
    open: set<Deal>,                  // the deals open now
    used: set<Deal>)                  // every deal ever attempted

  /** What happens to a command: answered, lost before it took effect (or never
      sent), or applied with the answer lost. */
  datatype Outcome = Answered | LostBefore | LostAfter

  datatype Step =
    | Advance(delta: nat)
    | Begin(id: nat, deal: Deal)
    | Exec(id: nat, outcome: Outcome, listed: seq<string>)
    | Accept(id: nat)
    | AcceptUnnoticed(id: nat)
    | Decline(id: nat)
    | Arm(id: nat, applied: bool)
    | Crash(id: nat)
    | Close(deal: Deal)
    | TakeSnapshot
    | Swap(cluster: string, index: nat)
    | Expire(cluster: string)

  function WorkerAt(w: World, id: nat): Worker {
    if id in w.workers then w.workers[id] else Idle
  }

  function SetAt(w: World, c: string): set<string> {
    if c in w.sets then w.sets[c] else {}
  }

  predicate Free(w: World, c: string) {
    c !in w.locks || w.locks[c] <= w.now
  }

  predicate InCluster(cfg: Config, d: Deal, c: string) {
    c in cfg.tables.Groups(d.symbol)
  }

  function DealsIn(cfg: Config, deals: set<Deal>, c: string): set<Deal> {
    set d | d in deals && InCluster(cfg, d, c)
  }

  function Issued(cfg: Config, w: Worker): Command
    requires w.Checking? && GateFits(cfg.tables.Groups(w.deal.symbol), w.gate)
  {
    GateCommand(cfg.tables.Groups(w.deal.symbol), w.gate)
  }

  predicate Enabled(cfg: Config, w: World, s: Step) {
    match s
    case Advance(_) => true
    case Begin(id, d) => WorkerAt(w, id).Idle? && forall u | u in w.used :: Render(u) != Render(d)
    case Exec(id, outcome, listed) =>
      var k := WorkerAt(w, id);
      && k.Checking? && GateFits(cfg.tables.Groups(k.deal.symbol), k.gate)
      && (k.gate.Reading? ==> NoRepeats(listed) && Elements(listed) == SetAt(w, Issued(cfg, k).cluster))
    case Accept(id) => WorkerAt(w, id).Passed?
    case AcceptUnnoticed(id) => WorkerAt(w, id).Passed?
    case Decline(id) => WorkerAt(w, id).Passed?
    case Arm(id, _) =>
      var k := WorkerAt(w, id);
      k.Arming? && k.k < |cfg.tables.Groups(k.deal.symbol)| && k.deal in w.book
    case Crash(id) => true
    case Close(d) => true
    case TakeSnapshot => true
    // No snapshot older than the one in place is swapped in.
    case Swap(c, j) =>
      && j < |w.snapshots| && (c in w.swapped ==> w.swapped[c] <= j)
      && DealsIn(cfg, w.snapshots[j], c) != {}
    // CG# does not expire while a deal of the cluster is open.
    case Expire(c) => DealsIn(cfg, w.open, c) == {}
  }

  function Answer(w: World, outcome: Outcome, command: Command, listed: seq<string>): Reply {
    if outcome != Answered then Failed
    else if command.ReadSet? then Listed(listed)
    else Stored(Free(w, command.cluster))
  }

  function LocksAfterTry(cfg: Config, w: World, outcome: Outcome, command: Command): map<string, int> {
    if command.TryLock? && outcome != LostBefore && Free(w, command.cluster)
    then w.locks[command.cluster := w.now + cfg.lockTtl]
    else w.locks
  }

  function AfterReply(d: Deal, g: Gate, since: int): Worker {
    if g == Decided(true) then Idle
    else if g == Decided(false) then Passed(d, since)
    else Checking(d, g, since)
  }

  function Started(cfg: Config, d: Deal): Worker {
    AfterReply(d, GateStart(cfg.tables.Groups(d.symbol)), 0)
  }

  function Do(cfg: Config, w: World, s: Step): World
    requires Enabled(cfg, w, s)
  {
    match s
    case Advance(delta) => w.(now := w.now + delta)
    case Begin(id, d) => w.(workers := w.workers[id := Started(cfg, d)], used := w.used + {d})
    case Exec(id, outcome, listed) =>
      var k := WorkerAt(w, id);
      var command := Issued(cfg, k);
      var gate := GateNext(cfg.tables, k.deal.symbol, k.deal.strategyName, k.gate, Answer(w, outcome, command, listed));
      w.(locks := LocksAfterTry(cfg, w, outcome, command),
         workers := w.workers[id := AfterReply(k.deal, gate, if k.gate == Locking(0) then w.now else k.since)])
    case Accept(id) =>
      var k := WorkerAt(w, id);
      Opening(w, k.deal, k.since).(workers := w.workers[id := Arming(k.deal, 0)])
    case AcceptUnnoticed(id) =>
      var k := WorkerAt(w, id);
      Opening(w, k.deal, k.since).(workers := w.workers[id := Idle])
    case Decline(id) => w.(workers := w.workers[id := Idle])
    case Arm(id, applied) =>
      var k := WorkerAt(w, id);
      var c := cfg.tables.Groups(k.deal.symbol)[k.k];
      var next := w.(workers := w.workers[id :=
        if k.k + 1 == |cfg.tables.Groups(k.deal.symbol)| then Idle else Arming(k.deal, k.k + 1)]);
      if !applied then next
      else next.(locks := w.locks[c := w.now + cfg.markTtl],
                 book := w.book[k.deal := w.book[k.deal].(armed := w.book[k.deal].armed[c := w.now])])
    case Crash(id) => w.(workers := w.workers[id := Idle])
    case Close(d) => w.(open := w.open - {d})
    case TakeSnapshot => w.(snapshots := w.snapshots + [w.open])
    case Swap(c, j) =>
      w.(sets := w.sets[c := Rendered(DealsIn(cfg, w.snapshots[j], c))], swapped := w.swapped[c := j])
    case Expire(c) => w.(sets := w.sets - {c})
  }

  function Opening(w: World, d: Deal, since: int): World {
    w.(book := w.book[d := Opened(since, |w.snapshots|, map[])], open := w.open + {d})
  }

  const Start := World(0, map[], map[], map[], [], map[], map[], {}, {})

  /** The states of a run, the first one included; None when a step of it is
      not enabled. */
  function After(cfg: Config, steps: seq<Step>): Option<World> {
    if steps == [] then Some(Start)
    else
      var before := After(cfg, steps[..|steps| - 1]);
      var s := steps[|steps| - 1];
      if before.Some? && Enabled(cfg, before.value, s) then Some(Do(cfg, before.value, s)) else None
  }

  // -- the locks alone, with no assumption on time ---------------------------

  /** Worker `id` set CLUSTER_LOCK#c in the call it is in. */
  predicate Holds(cfg: Config, w: World, id: nat, c: string) {
    var k := WorkerAt(w, id);
    match k
    case Checking(d, g, _) =>
      if g.Locking? then g.k <= |cfg.tables.Groups(d.symbol)| && c in cfg.tables.Groups(d.symbol)[..g.k]
      else InCluster(cfg, d, c)
    case Passed(d, _) => InCluster(cfg, d, c)
    case _ => false
  }

  predicate Fresh(cfg: Config, w: World, id: nat) {
    var k := WorkerAt(w, id);
    (k.Checking? || k.Passed?) && w.now < k.since + cfg.lockTtl
  }

  /** A call that is still within lockTtl of its first lock holds live locks. */
  ghost predicate HeldLocksLive(cfg: Config, w: World) {
    forall id, c :: Holds(cfg, w, id, c) && Fresh(cfg, w, id) ==>
      c in w.locks && WorkerAt(w, id).since + cfg.lockTtl <= w.locks[c]
  }

  /** No two such calls hold the same cluster. */
  ghost predicate HeldLocksExclusive(cfg: Config, w: World) {
    forall i, j, c :: i != j && Holds(cfg, w, i, c) && Fresh(cfg, w, i) && Holds(cfg, w, j, c) ==> !Fresh(cfg, w, j)
  }

  ghost predicate Bounded(cfg: Config, w: World) {
    && (forall c :: c in w.locks ==> w.locks[c] <= w.now + cfg.markTtl)
    && (forall id :: WorkerAt(w, id).Checking? ==>
          GateFits(cfg.tables.Groups(WorkerAt(w, id).deal.symbol), WorkerAt(w, id).gate)
          && (WorkerAt(w, id).gate == Locking(0) || WorkerAt(w, id).since <= w.now))
    && (forall id :: WorkerAt(w, id).Passed? ==> WorkerAt(w, id).since <= w.now)
  }

  ghost predicate LockInv(cfg: Config, w: World) {
    HeldLocksLive(cfg, w) && HeldLocksExclusive(cfg, w) && Bounded(cfg, w)
  }

  /** No step moves the expiry of a live CLUSTER_LOCK# earlier, whatever was
      lost on the way, as long as markOpened's ttl is the longer one. */
  lemma LockExpiryNeverMovesEarlier(cfg: Config, w: World, s: Step, c: string)
    requires Enabled(cfg, w, s) && Bounded(cfg, w)
    requires c in w.locks && w.now < w.locks[c]
    ensures c in Do(cfg, w, s).locks && w.locks[c] <= Do(cfg, w, s).locks[c]
  {
  }

  lemma LockStep(cfg: Config, w: World, s: Step)
    requires cfg.lockTtl <= cfg.markTtl
    requires Enabled(cfg, w, s) && LockInv(cfg, w)
    ensures LockInv(cfg, Do(cfg, w, s))
  {
    var w' := Do(cfg, w, s);
    BoundedStep(cfg, w, s);
    forall id, c | Holds(cfg, w', id, c) && Fresh(cfg, w', id)
      ensures c in w'.locks && WorkerAt(w', id).since + cfg.lockTtl <= w'.locks[c]
    {
      HeldBefore(cfg, w, s, id, c);
    }
    forall i, j, c | i != j && Holds(cfg, w', i, c) && Fresh(cfg, w', i) && Holds(cfg, w', j, c)
      ensures !Fresh(cfg, w', j)
    {
      HeldBefore(cfg, w, s, i, c);
      HeldBefore(cfg, w, s, j, c);
    }
  }

  lemma BoundedStep(cfg: Config, w: World, s: Step)
    requires cfg.lockTtl <= cfg.markTtl
    requires Enabled(cfg, w, s) && Bounded(cfg, w)
    ensures Bounded(cfg, Do(cfg, w, s))
  {
    var w' := Do(cfg, w, s);
    forall id
      ensures WorkerAt(w', id).Checking? ==>
          GateFits(cfg.tables.Groups(WorkerAt(w', id).deal.symbol), WorkerAt(w', id).gate)
          && (WorkerAt(w', id).gate == Locking(0) || WorkerAt(w', id).since <= w'.now)
      ensures WorkerAt(w', id).Passed? ==> WorkerAt(w', id).since <= w'.now
    {
      if s.Exec? && s.id == id {
        var k := WorkerAt(w, id);
        assert k.gate == Locking(0) || k.since <= w.now;
      } else if s.Begin? && s.id == id {
        assert WorkerAt(w', id) == Started(cfg, s.deal);
      } else {
        assert WorkerAt(w', id) == WorkerAt(w, id) || !(WorkerAt(w', id).Checking? || WorkerAt(w', id).Passed?);
      }
    }
  }

  /** A lock held after a step was held before it, or was acquired by it. */
  predicate Acquires(cfg: Config, w: World, s: Step, id: nat, c: string)
    requires Enabled(cfg, w, s)
  {
    && s.Exec? && s.id == id && s.outcome == Answered
    && Issued(cfg, WorkerAt(w, id)) == TryLock(c) && Free(w, c)
  }

  lemma HeldBefore(cfg: Config, w: World, s: Step, id: nat, c: string)
    requires Enabled(cfg, w, s) && Bounded(cfg, w)
    requires Holds(cfg, Do(cfg, w, s), id, c)
    ensures Acquires(cfg, w, s, id, c)
      || (Holds(cfg, w, id, c) && WorkerAt(Do(cfg, w, s), id).since == WorkerAt(w, id).since)
    ensures Fresh(cfg, Do(cfg, w, s), id) && !Acquires(cfg, w, s, id, c) ==> Fresh(cfg, w, id)
    ensures Acquires(cfg, w, s, id, c) ==> Do(cfg, w, s).locks == w.locks[c := w.now + cfg.lockTtl]
    ensures Acquires(cfg, w, s, id, c) ==> WorkerAt(Do(cfg, w, s), id).since <= w.now
  {
  }

  lemma StartLocks(cfg: Config)
    ensures LockInv(cfg, Start)
  {
  }

  lemma {:induction false} LocksOverRuns(cfg: Config, steps: seq<Step>)
    requires cfg.lockTtl <= cfg.markTtl && After(cfg, steps).Some?
    ensures LockInv(cfg, After(cfg, steps).value)
  {
    if steps == [] {
      StartLocks(cfg);
    } else {
      LocksOverRuns(cfg, steps[..|steps| - 1]);
      LockStep(cfg, After(cfg, steps[..|steps| - 1]).value, steps[|steps| - 1]);
    }
  }

  /** Over any number of further steps a live lock keeps at least its expiry. */
  lemma {:induction false} LockLivesOut(cfg: Config, steps: seq<Step>, more: seq<Step>, c: string)
    requires cfg.lockTtl <= cfg.markTtl && After(cfg, steps + more).Some? && After(cfg, steps).Some?
    requires c in After(cfg, steps).value.locks
    requires After(cfg, steps + more).value.now < After(cfg, steps).value.locks[c]
    ensures c in After(cfg, steps + more).value.locks
    ensures After(cfg, steps).value.locks[c] <= After(cfg, steps + more).value.locks[c]
  {
    if more == [] {
      assert steps + more == steps;
    } else {
      var front, last := more[..|more| - 1], more[|more| - 1];
      assert steps + more == (steps + front) + [last];
      assert (steps + more)[..|steps + more| - 1] == steps + front;
      var w := After(cfg, steps + front).value;
      ClockOnlyAdvances(cfg, w, last);
      LockLivesOut(cfg, steps, front, c);
      LocksOverRuns(cfg, steps + front);
      LockExpiryNeverMovesEarlier(cfg, w, last, c);
    }
  }

  lemma ClockOnlyAdvances(cfg: Config, w: World, s: Step)
    requires Enabled(cfg, w, s)
    ensures w.now <= Do(cfg, w, s).now
  {
  }

  /** Two calls sharing a cluster: while lockTtl of the first one's first lock
      runs, no other call can set the shared lock, so both cannot pass. */
  lemma SharedClusterIsTaken(cfg: Config, steps: seq<Step>, more: seq<Step>, i: nat, c: string, s: Step, j: nat)
    requires cfg.lockTtl <= cfg.markTtl && After(cfg, steps + more).Some? && After(cfg, steps).Some?
    requires Holds(cfg, After(cfg, steps).value, i, c)
    requires After(cfg, steps + more).value.now < WorkerAt(After(cfg, steps).value, i).since + cfg.lockTtl
    requires Enabled(cfg, After(cfg, steps + more).value, s)
    ensures !Acquires(cfg, After(cfg, steps + more).value, s, j, c)
  {
    LocksOverRuns(cfg, steps);
    TimeBetween(cfg, steps, more);
    LockLivesOut(cfg, steps, more, c);
  }

  lemma {:induction false} TimeBetween(cfg: Config, steps: seq<Step>, more: seq<Step>)
    requires After(cfg, steps + more).Some?
    ensures After(cfg, steps).Some? && After(cfg, steps).value.now <= After(cfg, steps + more).value.now
  {
    if more == [] {
      assert steps + more == steps;
    } else {
      var front, last := more[..|more| - 1], more[|more| - 1];
      assert (steps + more)[..|steps + more| - 1] == steps + front;
      assert (steps + more)[|steps + more| - 1] == last;
      TimeBetween(cfg, steps, front);
      ClockOnlyAdvances(cfg, After(cfg, steps + front).value, last);
    }
  }

  // -- the caps, given the timing hypotheses ---------------------------------

  function Deadline(cfg: Config, o: Opened, c: string): int {
    if c in o.armed then o.armed[c] + cfg.markTtl else o.since + cfg.lockTtl
  }

  /** CG#c was swapped from a snapshot taken after the deal was accepted. */
  predicate Covered(w: World, d: Deal, c: string) {
    d in w.book && c in w.swapped && w.book[d].acceptedAt <= w.swapped[c]
  }

  /** The hypotheses on time. A call that passes does so, and is answered by the
      broker, within lockTtl of its first lock. An accepted deal is in CG#c
      before the lock protecting it lapses: within markTtl of markOpened's SET
      on c, or within lockTtl of the first lock while that SET has not landed. */
  ghost predicate Timely(cfg: Config, w: World) {
    && (forall id :: WorkerAt(w, id).Passed? ==> w.now < WorkerAt(w, id).since + cfg.lockTtl)
    && (forall d, c :: d in w.open && d in w.book && InCluster(cfg, d, c) ==>
          Covered(w, d, c) || w.now < Deadline(cfg, w.book[d], c))
  }

  /** Two deals the gate must keep apart inside one cluster. */
  predicate Compatible(cfg: Config, a: Deal, b: Deal, c: string) {
    Clean(a) && Clean(b) ==>
      && !(a.symbol == b.symbol && a.strategyName == b.strategyName)
      && (cfg.tables.Strict(c) ==> a.strategyName != b.strategyName)
  }

  function PassedIn(cfg: Config, w: World, c: string): set<Deal> {
    set id | id in w.workers && w.workers[id].Passed? && InCluster(cfg, w.workers[id].deal, c) :: w.workers[id].deal
  }

  /** Deals open in a cluster, and deals on their way to the broker. */
  function Occupants(cfg: Config, w: World, c: string): set<Deal> {
    DealsIn(cfg, w.open, c) + PassedIn(cfg, w, c)
  }

  ghost predicate RoomAmong(cfg: Config, deals: set<Deal>, d: Deal, c: string) {
    && (cfg.tables.Limit(c) >= 0 ==> |deals| < cfg.tables.Limit(c))
    && forall o :: o in deals ==> Compatible(cfg, d, o, c) && Compatible(cfg, o, d, c)
  }

  ghost predicate CapRespected(cfg: Config, deals: set<Deal>, c: string) {
    && (cfg.tables.Limit(c) >= 0 ==> |deals| <= cfg.tables.Limit(c))
    && forall a, b :: a in deals && b in deals && a != b ==> Compatible(cfg, a, b, c)
  }

  ghost predicate RoomFor(cfg: Config, w: World, d: Deal, c: string) {
    RoomAmong(cfg, Occupants(cfg, w, c), d, c)
  }

  ghost predicate WithinCap(cfg: Config, w: World, c: string) {
    CapRespected(cfg, Occupants(cfg, w, c), c)
  }

  predicate Attempting(w: World, id: nat) {
    WorkerAt(w, id).Checking? || WorkerAt(w, id).Passed?
  }

  ghost predicate Bookkeeping(cfg: Config, w: World) {
    && w.open <= w.book.Keys <= w.used && DistinctMembers(w.used)
    && (forall id :: Attempting(w, id) ==> WorkerAt(w, id).deal in w.used && WorkerAt(w, id).deal !in w.book)
    && (forall i, j :: i != j && Attempting(w, i) && Attempting(w, j) ==> WorkerAt(w, i).deal != WorkerAt(w, j).deal)
  }

  ghost predicate SetsCover(cfg: Config, w: World) {
    && (forall c :: c in w.swapped ==> w.swapped[c] < |w.snapshots|)
    && (forall d, j :: d in w.open && d in w.book && w.book[d].acceptedAt <= j < |w.snapshots| ==> d in w.snapshots[j])
    && (forall d, c :: d in w.open && InCluster(cfg, d, c) && Covered(w, d, c) ==> Render(d) in SetAt(w, c))
  }

  ghost predicate DeadlinesLocked(cfg: Config, w: World) {
    forall d, c :: d in w.book && InCluster(cfg, d, c) && w.now < Deadline(cfg, w.book[d], c) ==>
      c in w.locks && Deadline(cfg, w.book[d], c) <= w.locks[c]
  }

  ghost predicate HoldersSeeAll(cfg: Config, w: World) {
    forall id, c, d :: Holds(cfg, w, id, c) && Fresh(cfg, w, id) && d in w.open && InCluster(cfg, d, c) ==> Covered(w, d, c)
  }

  /** Worker `id` already got an Allowed from the k-th cluster of its symbol. */
  predicate HasRead(cfg: Config, w: World, id: nat, k: int) {
    var x := WorkerAt(w, id);
    x.Checking? && x.gate.Reading? && 0 <= k < x.gate.k && k < |cfg.tables.Groups(x.deal.symbol)|
  }

  ghost predicate ReadersHaveRoom(cfg: Config, w: World) {
    forall id, k :: HasRead(cfg, w, id, k) && Fresh(cfg, w, id) ==>
      RoomFor(cfg, w, WorkerAt(w, id).deal, cfg.tables.Groups(WorkerAt(w, id).deal.symbol)[k])
  }

  ghost predicate CapInv(cfg: Config, w: World) {
    && LockInv(cfg, w) && Bookkeeping(cfg, w) && SetsCover(cfg, w)
    && DeadlinesLocked(cfg, w) && HoldersSeeAll(cfg, w) && ReadersHaveRoom(cfg, w)
    && forall c :: WithinCap(cfg, w, c)
  }

  /** Where an attempt that is on after a step comes from. */
  lemma AttemptFollows(cfg: Config, w: World, s: Step, id: nat)
    requires Enabled(cfg, w, s) && Attempting(Do(cfg, w, s), id)
    ensures var w' := Do(cfg, w, s);
      || (s.Begin? && s.id == id && WorkerAt(w', id).deal == s.deal && s.deal !in w.used && s.deal in w'.used && w'.book == w.book)
      || (Attempting(w, id) && WorkerAt(w', id).deal == WorkerAt(w, id).deal && w.used <= w'.used
          && (w'.book.Keys == w.book.Keys
              || ((s.Accept? || s.AcceptUnnoticed?) && s.id != id && Attempting(w, s.id)
                  && w'.book.Keys == w.book.Keys + {WorkerAt(w, s.id).deal})))
  {
    hide Render, Issued;
    if s.Begin? {
      NewDealIsUnused(w, s.deal);
    }
  }

  lemma NewDealIsUnused(w: World, d: Deal)
    requires forall u :: u in w.used ==> Render(u) != Render(d)
    ensures d !in w.used
  {
  }

  lemma BooksGrow(cfg: Config, w: World, s: Step)
    requires Enabled(cfg, w, s) && Bookkeeping(cfg, w)
    ensures var w' := Do(cfg, w, s); w'.open <= w'.book.Keys <= w'.used && DistinctMembers(w'.used)
  {
    if s.Accept? || s.AcceptUnnoticed? {
      assert Attempting(w, s.id);
    }
  }

  lemma BookkeepingStep(cfg: Config, w: World, s: Step)
    requires Enabled(cfg, w, s) && Bookkeeping(cfg, w)
    ensures Bookkeeping(cfg, Do(cfg, w, s))
  {
    hide Do, Enabled;
    var w' := Do(cfg, w, s);
    BooksGrow(cfg, w, s);
    forall id | Attempting(w', id) ensures WorkerAt(w', id).deal in w'.used && WorkerAt(w', id).deal !in w'.book {
      AttemptFollows(cfg, w, s, id);
      assert w.book.Keys <= w.used;
    }
    forall i, j | i != j && Attempting(w', i) && Attempting(w', j) ensures WorkerAt(w', i).deal != WorkerAt(w', j).deal {
      AttemptFollows(cfg, w, s, i);
      AttemptFollows(cfg, w, s, j);
    }
  }

  lemma SetsCoverStep(cfg: Config, w: World, s: Step)
    requires Enabled(cfg, w, s) && Bookkeeping(cfg, w) && SetsCover(cfg, w)
    ensures SetsCover(cfg, Do(cfg, w, s))
  {
    var w' := Do(cfg, w, s);
    forall d, c | d in w'.open && InCluster(cfg, d, c) && Covered(w', d, c) ensures Render(d) in SetAt(w', c) {
      assert d in w.open ==> d in DealsIn(cfg, w.open, c);
      if s.Swap? && s.cluster == c {
        assert d in DealsIn(cfg, w.snapshots[s.index], c);
      } else {
        assert d in w.open && Covered(w, d, c);
      }
    }
  }

  lemma DeadlinesStep(cfg: Config, w: World, s: Step)
    requires cfg.lockTtl <= cfg.markTtl
    requires Enabled(cfg, w, s) && LockInv(cfg, w) && Timely(cfg, w) && DeadlinesLocked(cfg, w)
    ensures DeadlinesLocked(cfg, Do(cfg, w, s))
  {
    var w' := Do(cfg, w, s);
    forall d, c | d in w'.book && InCluster(cfg, d, c) && w'.now < Deadline(cfg, w'.book[d], c)
      ensures c in w'.locks && Deadline(cfg, w'.book[d], c) <= w'.locks[c]
    {
      if (s.Accept? || s.AcceptUnnoticed?) && d == WorkerAt(w, s.id).deal {
        assert Holds(cfg, w, s.id, c) && Fresh(cfg, w, s.id);
      } else {
        assert d in w.book;
        if c in w.locks && w.now < w.locks[c] {
          LockExpiryNeverMovesEarlier(cfg, w, s, c);
        }
      }
    }
  }

  lemma HoldersStep(cfg: Config, w: World, s: Step)
    requires Enabled(cfg, w, s) && LockInv(cfg, w) && Timely(cfg, w) && Bookkeeping(cfg, w)
    requires DeadlinesLocked(cfg, w) && HoldersSeeAll(cfg, w)
    ensures HoldersSeeAll(cfg, Do(cfg, w, s))
  {
    var w' := Do(cfg, w, s);
    forall id, c, d | Holds(cfg, w', id, c) && Fresh(cfg, w', id) && d in w'.open && InCluster(cfg, d, c)
      ensures Covered(w', d, c)
    {
      HeldBefore(cfg, w, s, id, c);
      if Acquires(cfg, w, s, id, c) {
        assert d in w.open && d in w.book;
        assert Covered(w, d, c);
      } else if (s.Accept? || s.AcceptUnnoticed?) && d == WorkerAt(w, s.id).deal {
        assert Holds(cfg, w, s.id, c) && Fresh(cfg, w, s.id);
        assert false;
      } else {
        assert d in w.open && Covered(w, d, c);
      }
    }
  }

  // -- room, and passing -----------------------------------------------------

  predicate Passes(cfg: Config, w: World, s: Step)
    requires Enabled(cfg, w, s)
  {
    s.Exec? && WorkerAt(Do(cfg, w, s), s.id).Passed?
  }

  lemma OccupantsShrink(cfg: Config, w: World, s: Step, c: string)
    requires Enabled(cfg, w, s) && !Passes(cfg, w, s)
    ensures Occupants(cfg, Do(cfg, w, s), c) <= Occupants(cfg, w, c)
  {
    var w' := Do(cfg, w, s);
    forall d | d in Occupants(cfg, w', c) ensures d in Occupants(cfg, w, c) {
      if d in PassedIn(cfg, w', c) {
        var id :| id in w'.workers && w'.workers[id].Passed? && w'.workers[id].deal == d && InCluster(cfg, d, c);
        assert WorkerAt(w', id) == WorkerAt(w, id);
      } else if d !in w.open {
        assert WorkerAt(w, s.id).deal == d;
      }
    }
  }

  lemma OccupantsOnPass(cfg: Config, w: World, s: Step, c: string)
    requires Enabled(cfg, w, s) && Passes(cfg, w, s)
    ensures Occupants(cfg, Do(cfg, w, s), c)
      <= Occupants(cfg, w, c) + (if InCluster(cfg, WorkerAt(w, s.id).deal, c) then {WorkerAt(w, s.id).deal} else {})
  {
    var w' := Do(cfg, w, s);
    forall d | d in PassedIn(cfg, w', c)
      ensures d in Occupants(cfg, w, c) + (if InCluster(cfg, WorkerAt(w, s.id).deal, c) then {WorkerAt(w, s.id).deal} else {})
    {
      var id :| id in w'.workers && w'.workers[id].Passed? && w'.workers[id].deal == d && InCluster(cfg, d, c);
      if id != s.id {
        assert WorkerAt(w', id) == WorkerAt(w, id);
      }
    }
  }

  lemma SubsetSize<T>(a: set<T>, b: set<T>)
    requires a <= b
    ensures |a| <= |b|
  {
    assert b == a + (b - a);
  }

  /** An Allowed read under a fresh lock leaves room for the caller: nobody
      else can be on the way into the cluster, and every open deal of it is in
      the set that was read. */
  lemma AllowedReadHasRoom(cfg: Config, w: World, id: nat, listed: seq<string>)
    requires LockInv(cfg, w) && Timely(cfg, w) && Bookkeeping(cfg, w) && SetsCover(cfg, w) && HoldersSeeAll(cfg, w)
    requires Enabled(cfg, w, Exec(id, Answered, listed))
    requires WorkerAt(w, id).gate.Reading? && Fresh(cfg, w, id)
    requires var k := WorkerAt(w, id);
      Admits(cfg.tables, k.deal.symbol, k.deal.strategyName, Issued(cfg, k).cluster, Listed(listed))
    ensures RoomFor(cfg, w, WorkerAt(w, id).deal, Issued(cfg, WorkerAt(w, id)).cluster)
  {
    var k := WorkerAt(w, id);
    var c := Issued(cfg, k).cluster;
    assert Holds(cfg, w, id, c);
    NobodyElsePassed(cfg, w, id, c);
    var inside := DealsIn(cfg, w.open, c);
    forall d | d in inside ensures Render(d) in listed {
      assert Covered(w, d, c);
      assert Render(d) in Elements(listed);
    }
    assert DistinctMembers(inside);
    RenderedSize(inside);
    NoRepeatsSize(listed);
    SubsetSize(Rendered(inside), Elements(listed));
    forall o | o in inside ensures Compatible(cfg, k.deal, o, c) && Compatible(cfg, o, k.deal, c) {
      if Clean(o) {
        SplitInvertsRender(o);
        assert !Stacks(Render(o), k.deal.symbol, k.deal.strategyName);
      }
    }
  }

  lemma NobodyElsePassed(cfg: Config, w: World, id: nat, c: string)
    requires LockInv(cfg, w) && Timely(cfg, w)
    requires WorkerAt(w, id).Checking? && Holds(cfg, w, id, c) && Fresh(cfg, w, id)
    ensures PassedIn(cfg, w, c) == {}
  {
    forall d | d in PassedIn(cfg, w, c) ensures false {
      var i :| i in w.workers && w.workers[i].Passed? && InCluster(cfg, w.workers[i].deal, c);
      assert Holds(cfg, w, i, c) && Fresh(cfg, w, i);
    }
  }

  lemma RoomStep(cfg: Config, w: World, s: Step)
    requires Enabled(cfg, w, s) && Timely(cfg, w) && Timely(cfg, Do(cfg, w, s)) && CapInv(cfg, w)
    ensures ReadersHaveRoom(cfg, Do(cfg, w, s))
  {
    var w' := Do(cfg, w, s);
    forall id, k | HasRead(cfg, w', id, k) && Fresh(cfg, w', id)
      ensures RoomFor(cfg, w', WorkerAt(w', id).deal, cfg.tables.Groups(WorkerAt(w', id).deal.symbol)[k])
    {
      ReadSource(cfg, w, s, id, k);
      if HasRead(cfg, w, id, k) {
        RoomStays(cfg, w, s, id, cfg.tables.Groups(WorkerAt(w, id).deal.symbol)[k]);
      } else {
        AllowedReadHasRoom(cfg, w, id, s.listed);
        RoomStays(cfg, w, s, id, Issued(cfg, WorkerAt(w, id)).cluster);
      }
    }
  }

  /** A cluster read after a step was read before it, or is read by it. */
  lemma ReadSource(cfg: Config, w: World, s: Step, id: nat, k: int)
    requires Enabled(cfg, w, s) && HasRead(cfg, Do(cfg, w, s), id, k)
    ensures WorkerAt(w, id).Checking? && WorkerAt(w, id).gate.Reading?
    ensures var x := WorkerAt(w, id); var x' := WorkerAt(Do(cfg, w, s), id);
      x.deal == x'.deal && x.since == x'.since && !(s.Exec? && s.id == id && Passes(cfg, w, s))
    ensures Fresh(cfg, Do(cfg, w, s), id) ==> Fresh(cfg, w, id)
    ensures !HasRead(cfg, w, id, k) ==>
      && s.Exec? && s.id == id && s.outcome == Answered
      && k == WorkerAt(w, id).gate.k && !Passes(cfg, w, s)
      && Admits(cfg.tables, WorkerAt(w, id).deal.symbol, WorkerAt(w, id).deal.strategyName,
                Issued(cfg, WorkerAt(w, id)).cluster, Listed(s.listed))
  {
  }

  /** Nobody can take the room found under a fresh lock. */
  lemma RoomStays(cfg: Config, w: World, s: Step, id: nat, c: string)
    requires Enabled(cfg, w, s) && Timely(cfg, Do(cfg, w, s)) && LockInv(cfg, w)
    requires WorkerAt(w, id).Checking? && WorkerAt(w, id).gate.Reading? && Fresh(cfg, w, id)
    requires InCluster(cfg, WorkerAt(w, id).deal, c) && RoomFor(cfg, w, WorkerAt(w, id).deal, c)
    requires !(s.Exec? && s.id == id && Passes(cfg, w, s))
    ensures RoomFor(cfg, Do(cfg, w, s), WorkerAt(w, id).deal, c)
  {
    assert Holds(cfg, w, id, c);
    if Passes(cfg, w, s) {
      PassingIsFresh(cfg, w, s);
      assert InCluster(cfg, WorkerAt(w, s.id).deal, c) ==> Holds(cfg, w, s.id, c);
      OccupantsOnPass(cfg, w, s, c);
    } else {
      OccupantsShrink(cfg, w, s, c);
    }
    SubsetSize(Occupants(cfg, Do(cfg, w, s), c), Occupants(cfg, w, c));
  }

  lemma PassingIsFresh(cfg: Config, w: World, s: Step)
    requires Enabled(cfg, w, s) && Timely(cfg, Do(cfg, w, s)) && Passes(cfg, w, s)
    ensures Fresh(cfg, w, s.id) && s.outcome == Answered && WorkerAt(w, s.id).gate.Reading?
    ensures WorkerAt(w, s.id).gate.k + 1 == |cfg.tables.Groups(WorkerAt(w, s.id).deal.symbol)|
    ensures var k := WorkerAt(w, s.id);
      Admits(cfg.tables, k.deal.symbol, k.deal.strategyName, Issued(cfg, k).cluster, Listed(s.listed))
  {
  }

  /** A call that passes found room in every cluster of its symbol. */
  lemma PassFoundRoom(cfg: Config, w: World, s: Step, c: string)
    requires Enabled(cfg, w, s) && Timely(cfg, w) && Timely(cfg, Do(cfg, w, s)) && CapInv(cfg, w)
    requires Passes(cfg, w, s) && InCluster(cfg, WorkerAt(w, s.id).deal, c)
    ensures RoomFor(cfg, w, WorkerAt(w, s.id).deal, c)
  {
    PassingIsFresh(cfg, w, s);
    AllowedReadHasRoom(cfg, w, s.id, s.listed);
    var groups := cfg.tables.Groups(WorkerAt(w, s.id).deal.symbol);
    var k :| 0 <= k < |groups| && groups[k] == c;
    if k + 1 < |groups| {
      assert HasRead(cfg, w, s.id, k);
    }
  }

  lemma CapStep(cfg: Config, w: World, s: Step, c: string)
    requires Enabled(cfg, w, s) && Timely(cfg, w) && Timely(cfg, Do(cfg, w, s)) && CapInv(cfg, w)
    ensures WithinCap(cfg, Do(cfg, w, s), c)
  {
    var w' := Do(cfg, w, s);
    var before, after := Occupants(cfg, w, c), Occupants(cfg, w', c);
    assert WithinCap(cfg, w, c);
    if Passes(cfg, w, s) && InCluster(cfg, WorkerAt(w, s.id).deal, c) {
      PassFoundRoom(cfg, w, s, c);
      OccupantsOnPass(cfg, w, s, c);
      CapGrows(cfg, before, after, WorkerAt(w, s.id).deal, c);
    } else {
      if Passes(cfg, w, s) {
        OccupantsOnPass(cfg, w, s, c);
      } else {
        OccupantsShrink(cfg, w, s, c);
      }
      SubsetSize(after, before);
    }
  }

  lemma CapGrows(cfg: Config, before: set<Deal>, after: set<Deal>, d: Deal, c: string)
    requires CapRespected(cfg, before, c) && RoomAmong(cfg, before, d, c) && after <= before + {d}
    ensures CapRespected(cfg, after, c)
  {
    SubsetSize(after, before + {d});
  }

  lemma CapInvStep(cfg: Config, w: World, s: Step)
    requires cfg.lockTtl <= cfg.markTtl
    requires Enabled(cfg, w, s) && Timely(cfg, w) && Timely(cfg, Do(cfg, w, s)) && CapInv(cfg, w)
    ensures CapInv(cfg, Do(cfg, w, s))
  {
    LockStep(cfg, w, s);
    BookkeepingStep(cfg, w, s);
    SetsCoverStep(cfg, w, s);
    DeadlinesStep(cfg, w, s);
    HoldersStep(cfg, w, s);
    RoomStep(cfg, w, s);
    forall c ensures WithinCap(cfg, Do(cfg, w, s), c) {
      CapStep(cfg, w, s, c);
    }
  }

  /** Every state of the run meets the hypotheses on time. */
  ghost predicate TimelyRun(cfg: Config, steps: seq<Step>) {
    forall n :: 0 <= n <= |steps| ==> After(cfg, steps[..n]).Some? && Timely(cfg, After(cfg, steps[..n]).value)
  }

  lemma {:induction false} CapInvOverRuns(cfg: Config, steps: seq<Step>)
    requires cfg.lockTtl <= cfg.markTtl && TimelyRun(cfg, steps)
    ensures After(cfg, steps).Some? && CapInv(cfg, After(cfg, steps).value)
  {
    assert steps[..|steps|] == steps;
    if steps == [] {
      forall c ensures WithinCap(cfg, Start, c) {
        assert Occupants(cfg, Start, c) == {};
      }
    } else {
      var front := steps[..|steps| - 1];
      assert forall n :: 0 <= n <= |front| ==> front[..n] == steps[..n];
      CapInvOverRuns(cfg, front);
      CapInvStep(cfg, After(cfg, front).value, steps[|steps| - 1]);
    }
  }

  /** Correlated exposure never exceeds the cap: over every timely run, with any
      number of workers, crashes and lost replies, the deals open in a cluster
      are at most the limit of its rule, or one without a rule, and no two of
      them stack or, where the rule is strict, share a strategy. */
  lemma ClusterCapsHold(cfg: Config, steps: seq<Step>, c: string)
    requires cfg.lockTtl <= cfg.markTtl && TimelyRun(cfg, steps)
    ensures After(cfg, steps).Some?
    ensures var groups, rules := cfg.tables.groups, cfg.tables.rules;
      var live := set d | d in After(cfg, steps).value.open && d.symbol in groups && c in groups[d.symbol];
      && (c in rules && rules[c].limit >= 0 ==> |live| <= rules[c].limit)
      && (c !in rules ==> |live| <= 1)
      && (forall a, b :: a in live && b in live && a != b && Clean(a) && Clean(b) ==>
            && (a.symbol != b.symbol || a.strategyName != b.strategyName)
            && (c in rules && rules[c].strict ==> a.strategyName != b.strategyName))
  {
    hide After, TimelyRun, CapRespected, LockInv, Bookkeeping, SetsCover, DeadlinesLocked, HoldersSeeAll, ReadersHaveRoom;
    CapInvOverRuns(cfg, steps);
    var w := After(cfg, steps).value;
    assert WithinCap(cfg, w, c);
    CapMeansRule(cfg, Occupants(cfg, w, c), DealsIn(cfg, w.open, c), c);
    LiveDeals(cfg, w.open, c);
  }

  /** The deals of a cluster, and its cap, read off the two tables. */
  lemma LiveDeals(cfg: Config, open: set<Deal>, c: string)
    ensures DealsIn(cfg, open, c) == set d | d in open && d.symbol in cfg.tables.groups && c in cfg.tables.groups[d.symbol]
  {
  }

  lemma CapMeansRule(cfg: Config, deals: set<Deal>, live: set<Deal>, c: string)
    requires CapRespected(cfg, deals, c) && live <= deals
    ensures var rules := cfg.tables.rules;
      && (c in rules && rules[c].limit >= 0 ==> |live| <= rules[c].limit)
      && (c !in rules ==> |live| <= 1)
      && (forall a, b :: a in live && b in live && a != b && Clean(a) && Clean(b) ==>
            && (a.symbol != b.symbol || a.strategyName != b.strategyName)
            && (c in rules && rules[c].strict ==> a.strategyName != b.strategyName))
  {
    hide Clean;
    SubsetSize(live, deals);
  }

  /** No two open deals with '#'-free names have the same symbol and strategy. */
  lemma NoStackedDeals(cfg: Config, steps: seq<Step>, a: Deal, b: Deal)
    requires cfg.lockTtl <= cfg.markTtl && TimelyRun(cfg, steps) && After(cfg, steps).Some?
    requires a in After(cfg, steps).value.open && b in After(cfg, steps).value.open && a != b
    requires Clean(a) && Clean(b) && a.symbol in cfg.tables.groups && cfg.tables.groups[a.symbol] != []
    ensures a.symbol != b.symbol || a.strategyName != b.strategyName
  {
    hide After, TimelyRun, Enabled, Do, Clean;
    ClusterCapsHold(cfg, steps, cfg.tables.groups[a.symbol][0]);
  }

  // -- the timing hypothesis is needed ----------------------------------------

  const ONE_CLUSTER := Config(Tables(map["X" := ["C"], "Y" := ["C"]], map[]), 10, 120)

  lemma EmptyClusterAdmits(d: Deal)
    ensures Admits(ONE_CLUSTER.tables, d.symbol, d.strategyName, "C", Listed([])) && Elements([]) == {}
  {
  }

  /** A worker starts a check on the unlocked cluster "C" and takes its lock. */
  lemma UndisturbedLock(steps: seq<Step>, id: nat, d: Deal) returns (more: seq<Step>)
    requires d.symbol == "X" || d.symbol == "Y"
    requires After(ONE_CLUSTER, steps).Some?
    requires var w := After(ONE_CLUSTER, steps).value;
      WorkerAt(w, id).Idle? && Free(w, "C") && forall u :: u in w.used ==> Render(u) != Render(d)
    ensures var w := After(ONE_CLUSTER, steps).value;
      After(ONE_CLUSTER, more) == Some(w.(locks := w.locks["C" := w.now + 10], used := w.used + {d},
                                          workers := w.workers[id := Checking(d, Reading(0), w.now)]))
  {
    hide VerdictOn, Render, Admits;
    var cfg := ONE_CLUSTER;
    var w := After(cfg, steps).value;
    assert cfg.tables.Groups(d.symbol) == ["C"];
    more := Play(cfg, steps, Begin(id, d));
    var w1 := After(cfg, more).value;
    assert w1 == w.(workers := w.workers[id := Checking(d, Locking(0), 0)], used := w.used + {d});
    more := Play(cfg, more, Exec(id, Answered, []));
    assert w1.workers[id := Checking(d, Reading(0), w.now)] == w.workers[id := Checking(d, Reading(0), w.now)];
  }

  /** An undisturbed check of an empty, unlocked cluster "C" passes. */
  lemma UndisturbedPass(steps: seq<Step>, id: nat, d: Deal) returns (more: seq<Step>)
    requires d.symbol == "X" || d.symbol == "Y"
    requires After(ONE_CLUSTER, steps).Some?
    requires var w := After(ONE_CLUSTER, steps).value;
      WorkerAt(w, id).Idle? && w.sets == map[] && Free(w, "C") && forall u :: u in w.used ==> Render(u) != Render(d)
    ensures var w := After(ONE_CLUSTER, steps).value;
      After(ONE_CLUSTER, more) == Some(w.(locks := w.locks["C" := w.now + 10], used := w.used + {d},
                                          workers := w.workers[id := Passed(d, w.now)]))
  {
    hide VerdictOn, Render, Admits;
    var cfg := ONE_CLUSTER;
    var w := After(cfg, steps).value;
    assert cfg.tables.Groups(d.symbol) == ["C"];
    EmptyClusterAdmits(d);
    more := UndisturbedLock(steps, id, d);
    assert SetAt(After(cfg, more).value, "C") == {};
    more := Play(cfg, more, Exec(id, Answered, []));
    assert After(cfg, more).value.workers == w.workers[id := Passed(d, w.now)];
  }

  /** One cluster of capacity 1 and two symbols. The first order spends exactly
      lockTtl at the broker, the lock lapses, a second call passes, and both
      deals open. */
  lemma SlowBrokerBreaksTheCap() returns (cfg: Config, steps: seq<Step>)
    ensures cfg.lockTtl <= cfg.markTtl && After(cfg, steps).Some?
    ensures "C" !in cfg.tables.rules && cfg.tables.groups == map["X" := ["C"], "Y" := ["C"]] && |DealsIn(cfg, After(cfg, steps).value.open, "C")| == 2
  {
    cfg := ONE_CLUSTER;
    var d, e := Deal("X", "s", "1"), Deal("Y", "t", "2");
    assert Render(d)[0] == 'X' && Render(e)[0] == 'Y';
    steps := UndisturbedPass([], 0, d);
    steps := Play(cfg, steps, Advance(10));
    steps := UndisturbedPass(steps, 1, e);
    steps := Play(cfg, steps, Accept(0));
    steps := Play(cfg, steps, Accept(1));
    assert DealsIn(cfg, After(cfg, steps).value.open, "C") == {d, e};
  }

  lemma Play(cfg: Config, steps: seq<Step>, s: Step) returns (more: seq<Step>)
    requires After(cfg, steps).Some? && Enabled(cfg, After(cfg, steps).value, s)
    ensures After(cfg, more) == Some(Do(cfg, After(cfg, steps).value, s))
  {
    more := steps + [s];
    assert more[..|more| - 1] == steps;
  }
}
