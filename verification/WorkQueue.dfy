/** The work queue as a whole: any number of producers and drain workers over
    one Redis, in any interleaving, with expiry, refused commands, aborts and
    crashes. Instances are drainRuns (four queues, stoppable) and
    drainExperiments (one queue, never stopped). */
module WorkQueue {
  import opened Wrappers
  import opened QueueOps
  import RedisLoader

  /** What never changes: the programs producers send, the list each parseable
      descriptor leads to, the payload bodies that parse. */
  datatype Config = Config(
    programs: seq<seq<Command>>,
    runs: map<string, string>,
    parses: set<string>,
    queues: seq<string>,
    stoppable: bool,
    ttl: nat)

  function ListOf(c: Config, descriptor: string): string {
    if descriptor in c.runs then c.runs[descriptor] else ""
  }

  /** One SET: `id` tells apart the payloads stored under one name. */
  datatype Payload = Payload(id: nat, body: string, storedAt: int)

  datatype Redis = Redis(
    queues: map<string, seq<string>>,
    lists: map<string, seq<nat>>,          // tokens, head first
    payloads: map<string, Payload>,
    now: int)

  datatype Phase =
    | Top
    | Peeking(k: nat)
    | Popping(queue: string, descriptor: string)
    | Taking(queue: string, descriptor: string, token: nat)
    | Checking(queue: string, descriptor: string)
    | Retiring(queue: string, descriptor: string)
    | Draining
    | Parked
    | Dead

  datatype Worker = Worker(phase: Phase, pool: set<nat>)

  /** Where a pushed name is, or how it ended and in whose hands. */
  datatype Fate =
    | Listed(list: string)
    | Claimed(w: nat)
    | Running(w: nat)
    | Executed(w: nat)
    | Unparseable(w: nat)
    | Missing(w: nat)
    | Lost(w: nat)

  /** The command that pushed a token. */
  datatype Origin = Origin(producer: nat, index: nat)

  datatype Take = Take(payload: Payload, token: nat, w: nat)

  /** Bookkeeping of the proof. A token is an index into origins and fates. */
  datatype Log = Log(
    origins: seq<Origin>,
    fates: seq<Fate>,
    takes: seq<Take>,
    stored: nat,
    refused: set<string>,
    advertised: set<(string, string)>,
    retired: set<string>)

  datatype World = World(redis: Redis, workers: seq<Worker>, pcs: seq<nat>, stop: set<nat>, log: Log)

  datatype Step =
    | Produces(p: nat)
    | Refuses(p: nat)                       // an error reply, which execIgnore drops
    | Passes(ms: nat)
    | Signals(w: nat, on: bool)
    | Acts(w: nat)
    | Ends(w: nat, token: nat)
    | Aborts(w: nat, applied: bool)         // an exception leaves the drain loop
    | Crashes(w: nat)

  function Pushed(c: Config, o: Origin): string {
    if o.producer < |c.programs| && o.index < |c.programs[o.producer]| && c.programs[o.producer][o.index].ListName?
    then c.programs[o.producer][o.index].name else ""
  }

  function NameOf(c: Config, log: Log, token: nat): string
    requires token < |log.origins|
  {
    Pushed(c, log.origins[token])
  }

  predicate Live(c: Config, r: Redis, name: string) {
    name in r.payloads && r.now < r.payloads[name].storedAt + c.ttl
  }

  predicate Pending(c: Config, x: World, p: nat) {
    p < |c.programs| && p < |x.pcs| && x.pcs[p] < |c.programs[p]|
  }

  predicate Enabled(c: Config, x: World, s: Step) {
    match s
    case Produces(p) => Pending(c, x, p)
    case Refuses(p) => Pending(c, x, p)
    case Passes(_) => true
    case Signals(w, _) => w < |x.workers|
    case Acts(w) => w < |x.workers| && Able(x.workers[w]) && TokenKnown(x, x.workers[w].phase)
    case Ends(w, t) => w < |x.workers| && t in x.workers[w].pool && t < |x.log.fates|
    case Aborts(w, applied) => w < |x.workers| && !Over(x.workers[w].phase) && TokenKnown(x, x.workers[w].phase)
                               && (applied ==> HasCommand(x.workers[w].phase))
    case Crashes(w) => w < |x.workers|
  }

  predicate TokenKnown(x: World, phase: Phase) {
    phase.Taking? ==> phase.token < |x.log.fates| && phase.token < |x.log.origins|
  }

  predicate Over(phase: Phase) {
    phase.Parked? || phase.Dead?
  }

  /** pool.wait() lets Draining go on only once nothing is in flight. */
  predicate Able(worker: Worker) {
    !Over(worker.phase) && (worker.phase.Draining? ==> worker.pool == {})
  }

  /** The phases whose command changes Redis. */
  predicate HasCommand(phase: Phase) {
    phase.Popping? || phase.Taking? || phase.Retiring?
  }

  function Do(c: Config, x: World, s: Step): World
    requires Enabled(c, x, s)
  {
    match s
    case Produces(p) => Advance(Produced(c, x, p, c.programs[p][x.pcs[p]]), p)
    case Refuses(p) => Advance(Refused(x, c.programs[p][x.pcs[p]]), p)
    case Passes(ms) => x.(redis := x.redis.(now := x.redis.now + ms))
    case Signals(w, on) => x.(stop := if on then x.stop + {w} else x.stop - {w})
    case Acts(w) => Acted(c, x, w)
    case Ends(w, t) => x.(workers := x.workers[w := x.workers[w].(pool := x.workers[w].pool - {t})],
                          log := x.log.(fates := x.log.fates[t := Executed(w)]))
    case Aborts(w, applied) => Aborted(c, x, w, applied)
    case Crashes(w) => x.(workers := x.workers[w := Worker(Dead, {})], log := x.log.(fates := Crashed(x.log.fates, w)))
  }

  // -- producers -------------------------------------------------------------

  function Produced(c: Config, x: World, p: nat, command: Command): World
    requires p < |x.pcs|
  {
    match command
    case Store(name, body) =>
      x.(redis := x.redis.(payloads := x.redis.payloads[name := Payload(x.log.stored, body, x.redis.now)]),
         log := x.log.(stored := x.log.stored + 1))
    case ListName(list, _) =>
      x.(redis := x.redis.(lists := x.redis.lists[list := Push(At(x.redis.lists, list), |x.log.fates|)]),
         log := x.log.(origins := x.log.origins + [Origin(p, x.pcs[p])], fates := x.log.fates + [Listed(list)]))
    case Advertise(queue, descriptor) =>
      x.(redis := x.redis.(queues := x.redis.queues[queue := Push(At(x.redis.queues, queue), descriptor)]),
         log := x.log.(advertised := x.log.advertised + {(queue, descriptor)}))
  }

  function Refused(x: World, command: Command): World {
    if command.Store? then x.(log := x.log.(refused := x.log.refused + {command.name})) else x
  }

  function Advance(x: World, p: nat): World
    requires p < |x.pcs|
  {
    x.(pcs := x.pcs[p := x.pcs[p] + 1])
  }

  // -- workers ---------------------------------------------------------------

  function Goto(x: World, w: nat, phase: Phase): World
    requires w < |x.workers|
  {
    x.(workers := x.workers[w := x.workers[w].(phase := phase)])
  }

  function Acted(c: Config, x: World, w: nat): World
    requires w < |x.workers| && Able(x.workers[w]) && TokenKnown(x, x.workers[w].phase)
  {
    match x.workers[w].phase
    case Top => Goto(x, w, if c.stoppable && w in x.stop then Draining else Peeking(0))
    case Peeking(k) => Goto(x, w, Peeked(c, x.redis, k))
    case Popping(q, d) =>
      (match Tail(At(x.redis.lists, ListOf(c, d)))
       case None => Goto(x, w, Retiring(q, d))
       case Some(t) => Goto(Popped(x, ListOf(c, d), t, Claimed(w)), w, Taking(q, d, t)))
    case Taking(q, d, t) => Goto(Consumed(c, x, w, t), w, Checking(q, d))
    case Checking(q, d) => Goto(x, w, if c.stoppable && w in x.stop then Draining else Popping(q, d))
    case Retiring(q, d) => Goto(Retired(x, q, d), w, Top)
    case Draining => Goto(x, w, Parked)
  }

  /** LINDEX -1 of one queue; past the last queue the worker idles a second and
      starts over. A descriptor that does not parse goes straight to LREM. */
  function Peeked(c: Config, r: Redis, k: nat): (phase: Phase)
    ensures phase.Top? || phase.Peeking? || phase.Popping? || phase.Retiring?
  {
    if k >= |c.queues| then Top
    else
      match Tail(At(r.queues, c.queues[k]))
      case None => Peeking(k + 1)
      case Some(d) => if d in c.runs then Popping(c.queues[k], d) else Retiring(c.queues[k], d)
  }

  /** RPOP. */
  function Popped(x: World, list: string, t: nat, fate: Fate): World {
    x.(redis := x.redis.(lists := x.redis.lists[list := Pop(At(x.redis.lists, list))]),
       log := x.log.(fates := if t < |x.log.fates| then x.log.fates[t := fate] else x.log.fates))
  }

  /** GETDEL. */
  function Taken(c: Config, x: World, w: nat, t: nat): World
    requires t < |x.log.origins|
  {
    var name := NameOf(c, x.log, t);
    x.(redis := x.redis.(payloads := x.redis.payloads - {name}),
       log := if Live(c, x.redis, name)
              then x.log.(takes := x.log.takes + [Take(x.redis.payloads[name], t, w)]) else x.log)
  }

  /** GETDEL, then the parse, then submit. */
  function Consumed(c: Config, x: World, w: nat, t: nat): World
    requires w < |x.workers| && t < |x.log.origins| && t < |x.log.fates|
  {
    var name := NameOf(c, x.log, t);
    if !Live(c, x.redis, name) then WithFate(Taken(c, x, w, t), t, Missing(w))
    else if x.redis.payloads[name].body !in c.parses then WithFate(Taken(c, x, w, t), t, Unparseable(w))
    else Submitted(WithFate(Taken(c, x, w, t), t, Running(w)), w, t)
  }

  function WithFate(x: World, t: nat, fate: Fate): World
    requires t < |x.log.fates|
  {
    x.(log := x.log.(fates := x.log.fates[t := fate]))
  }

  function Submitted(x: World, w: nat, t: nat): World
    requires w < |x.workers|
  {
    x.(workers := x.workers[w := x.workers[w].(pool := x.workers[w].pool + {t})])
  }

  /** LREM count 0. */
  function Retired(x: World, queue: string, descriptor: string): World {
    x.(redis := x.redis.(queues := x.redis.queues[queue := RemoveAll(At(x.redis.queues, queue), descriptor)]),
       log := x.log.(retired := x.log.retired + {descriptor}))
  }

  /** An exception ends the drain loop, before its command or after it took
      effect with the reply lost. The name in hand is lost; the pool's
      destructor still runs what was submitted. */
  function Aborted(c: Config, x: World, w: nat, applied: bool): World
    requires w < |x.workers| && TokenKnown(x, x.workers[w].phase)
  {
    Goto(match x.workers[w].phase
         case Popping(q, d) =>
           var tail := Tail(At(x.redis.lists, ListOf(c, d)));
           if applied && tail.Some? then Popped(x, ListOf(c, d), tail.value, Lost(w)) else x
         case Taking(q, d, t) => WithFate(if applied then Taken(c, x, w, t) else x, t, Lost(w))
         case Retiring(q, d) => if applied then Retired(x, q, d) else x
         case _ => x,
         w, Dead)
  }

  predicate InFlight(f: Fate, w: nat) {
    f == Claimed(w) || f == Running(w)
  }

  function Crashed(fates: seq<Fate>, w: nat): (r: seq<Fate>)
    ensures |r| == |fates|
    ensures forall t :: 0 <= t < |fates| ==> r[t] == if InFlight(fates[t], w) then Lost(w) else fates[t]
  {
    seq(|fates|, t requires 0 <= t < |fates| => if InFlight(fates[t], w) then Lost(w) else fates[t])
  }

  // -- runs ------------------------------------------------------------------

  function Initial(c: Config, crew: nat, now: int): World {
    World(Redis(map[], map[], map[], now), seq(crew, _ => Worker(Top, {})), seq(|c.programs|, _ => 0), {},
          Log([], [], [], 0, {}, {}, {}))
  }

  ghost predicate Valid(c: Config, x: World, steps: seq<Step>)
    decreases |steps|
  {
    steps == [] || (Enabled(c, x, steps[0]) && Valid(c, Do(c, x, steps[0]), steps[1..]))
  }

  function After(c: Config, x: World, steps: seq<Step>): World
    requires Valid(c, x, steps)
    decreases |steps|
  {
    if steps == [] then x else After(c, Do(c, x, steps[0]), steps[1..])
  }

  // -- names: the ledger is where the tokens really are -----------------------

  ghost predicate Distinct(list: seq<nat>) {
    forall i, j :: 0 <= i < j < |list| ==> list[i] != list[j]
  }

  ghost predicate Lists(list: seq<nat>, name: string, fates: seq<Fate>) {
    Distinct(list) && forall i :: 0 <= i < |list| ==> list[i] < |fates| && fates[list[i]] == Listed(name)
  }

  ghost predicate Places(lists: map<string, seq<nat>>, fates: seq<Fate>) {
    && (forall l :: l in lists ==> Lists(lists[l], l, fates))
    && (forall t: nat :: t < |fates| && fates[t].Listed? ==> t in At(lists, fates[t].list))
  }

  /** What a fate says of the worker it names. */
  predicate Fits(worker: Worker, t: nat, f: Fate) {
    match f
    case Claimed(_) => worker.phase.Taking? && worker.phase.token == t
    case Running(_) => t in worker.pool
    case Lost(_) => worker.phase.Dead?
    case _ => true
  }

  /** What a worker holds is its own. */
  ghost predicate Owns(worker: Worker, w: nat, fates: seq<Fate>) {
    && (worker.phase.Taking? ==> worker.phase.token < |fates| && fates[worker.phase.token] == Claimed(w))
    && (forall t :: t in worker.pool ==> t < |fates| && fates[t] == Running(w))
    && (worker.phase.Parked? ==> worker.pool == {})
  }

  ghost predicate Held(workers: seq<Worker>, fates: seq<Fate>) {
    && (forall w: nat :: w < |workers| ==> Owns(workers[w], w, fates))
    && (forall t: nat :: t < |fates| && !fates[t].Listed? ==> fates[t].w < |workers| && Fits(workers[fates[t].w], t, fates[t]))
  }

  ghost predicate LedgerInv(x: World) {
    |x.log.origins| == |x.log.fates| && Places(x.redis.lists, x.log.fates) && Held(x.workers, x.log.fates)
  }

  lemma PushKeepsLists(list: seq<nat>, name: string, fates: seq<Fate>)
    requires Lists(list, name, fates)
    ensures Lists(Push(list, |fates|), name, fates + [Listed(name)])
  {
    var now := Push(list, |fates|);
    assert forall i :: 0 < i < |now| ==> now[i] == list[i - 1];
  }

  lemma GrowthKeepsLists(list: seq<nat>, name: string, fates: seq<Fate>, more: seq<Fate>)
    requires Lists(list, name, fates)
    ensures Lists(list, name, fates + more)
  {
  }

  lemma PushKeepsPlaces(lists: map<string, seq<nat>>, fates: seq<Fate>, list: string)
    requires Places(lists, fates)
    ensures Places(lists[list := Push(At(lists, list), |fates|)], fates + [Listed(list)])
  {
    var was := At(lists, list);
    var now, fates' := lists[list := Push(was, |fates|)], fates + [Listed(list)];
    assert Lists(was, list, fates);
    PushKeepsLists(was, list, fates);
    forall l | l in now && l != list ensures Lists(now[l], l, fates') {
      GrowthKeepsLists(lists[l], l, fates, [Listed(list)]);
    }
    hide Lists;
    assert forall u :: u in Push(was, |fates|) <==> u == |fates| || u in was;
  }

  lemma PopKeepsLists(list: seq<nat>, name: string, fates: seq<Fate>, fate: Fate)
    requires Lists(list, name, fates) && list != []
    ensures list[|list| - 1] < |fates| && fates[list[|list| - 1]] == Listed(name)
    ensures Lists(Pop(list), name, fates[list[|list| - 1] := fate])
    ensures forall u :: u in list <==> u in Pop(list) || u == list[|list| - 1]
  {
    assert list == Pop(list) + [list[|list| - 1]];
  }

  lemma PopKeepsPlaces(lists: map<string, seq<nat>>, fates: seq<Fate>, list: string, fate: Fate)
    requires Places(lists, fates) && At(lists, list) != [] && !fate.Listed?
    ensures Tail(At(lists, list)).value < |fates|
    ensures Places(lists[list := Pop(At(lists, list))], fates[Tail(At(lists, list)).value := fate])
  {
    var was := At(lists, list);
    assert Lists(was, list, fates);
    PopKeepsLists(was, list, fates, fate);
    var t := Tail(was).value;
    var now, fates' := lists[list := Pop(was)], fates[t := fate];
    forall l | l in now && l != list ensures Lists(now[l], l, fates') {
      assert Lists(lists[l], l, fates);
    }
  }

  lemma RecastKeepsPlaces(lists: map<string, seq<nat>>, fates: seq<Fate>, fates': seq<Fate>)
    requires Places(lists, fates) && |fates'| == |fates|
    requires forall t :: 0 <= t < |fates| ==> fates'[t] == fates[t] || !(fates[t].Listed? || fates'[t].Listed?)
    ensures Places(lists, fates')
  {
    forall l | l in lists ensures Lists(lists[l], l, fates') {
      assert Lists(lists[l], l, fates);
    }
  }

  lemma StepKeepsPlaces(c: Config, x: World, s: Step)
    requires LedgerInv(x) && Enabled(c, x, s)
    ensures Places(Do(c, x, s).redis.lists, Do(c, x, s).log.fates)
  {
    hide Peeked, Live, NameOf, Places;
    var y := Do(c, x, s);
    if s.Produces? && c.programs[s.p][x.pcs[s.p]].ListName? {
      PushKeepsPlaces(x.redis.lists, x.log.fates, c.programs[s.p][x.pcs[s.p]].list);
    } else if (s.Acts? || (s.Aborts? && s.applied)) && x.workers[s.w].phase.Popping? {
      var list := ListOf(c, x.workers[s.w].phase.descriptor);
      if At(x.redis.lists, list) != [] {
        PopKeepsPlaces(x.redis.lists, x.log.fates, list, if s.Acts? then Claimed(s.w) else Lost(s.w));
      }
    } else {
      RecastKeepsPlaces(x.redis.lists, x.log.fates, y.log.fates);
    }
  }

  /** One worker moves, touching only listed tokens and its own. */
  lemma MoveKeepsHeld(workers: seq<Worker>, fates: seq<Fate>, w: nat, worker: Worker, fates': seq<Fate>)
    requires Held(workers, fates) && w < |workers| && |fates'| == |fates|
    requires forall t: nat :: t < |fates| && fates'[t] != fates[t] ==> fates[t].Listed? || InFlight(fates[t], w)
    requires forall t: nat :: t < |fates| && fates'[t] != fates[t] ==> !fates'[t].Listed? && fates'[t].w == w
    requires forall t: nat :: t < |fates| && !fates'[t].Listed? && fates'[t].w == w ==> Fits(worker, t, fates'[t])
    requires Owns(worker, w, fates')
    ensures Held(workers[w := worker], fates')
  {
    var after := workers[w := worker];
    forall v: nat | v < |after| ensures Owns(after[v], v, fates') {
      if v != w {
        assert Owns(workers[v], v, fates);
      }
    }
  }

  lemma TailIsListed(lists: map<string, seq<nat>>, fates: seq<Fate>, list: string)
    requires Places(lists, fates) && Tail(At(lists, list)).Some?
    ensures Tail(At(lists, list)).value < |fates| && fates[Tail(At(lists, list)).value] == Listed(list)
  {
    assert Lists(At(lists, list), list, fates);
    assert At(lists, list)[|At(lists, list)| - 1] == Tail(At(lists, list)).value;
  }

  lemma PopKeepsHeld(c: Config, x: World, w: nat, d: string)
    requires LedgerInv(x) && Enabled(c, x, Acts(w))
    requires x.workers[w].phase.Popping? && x.workers[w].phase.descriptor == d
    requires Tail(At(x.redis.lists, ListOf(c, d))).Some?
    ensures Held(Acted(c, x, w).workers, Acted(c, x, w).log.fates)
  {
    TailIsListed(x.redis.lists, x.log.fates, ListOf(c, d));
    hide Places, At;
    var y := Acted(c, x, w);
    MoveKeepsHeld(x.workers, x.log.fates, w, y.workers[w], y.log.fates);
  }

  lemma TakeKeepsHeld(c: Config, x: World, w: nat)
    requires LedgerInv(x) && Enabled(c, x, Acts(w)) && x.workers[w].phase.Taking?
    ensures Held(Acted(c, x, w).workers, Acted(c, x, w).log.fates)
  {
    hide Places, At, Live, NameOf;
    var y := Acted(c, x, w);
    assert y.workers == x.workers[w := y.workers[w]];
    MoveKeepsHeld(x.workers, x.log.fates, w, y.workers[w], y.log.fates);
  }

  lemma ActKeepsHeld(c: Config, x: World, w: nat)
    requires LedgerInv(x) && Enabled(c, x, Acts(w))
    ensures Held(Acted(c, x, w).workers, Acted(c, x, w).log.fates)
  {
    hide Places, Peeked, Consumed;
    var phase := x.workers[w].phase;
    if phase.Popping? && Tail(At(x.redis.lists, ListOf(c, phase.descriptor))).Some? {
      PopKeepsHeld(c, x, w, phase.descriptor);
    } else if phase.Taking? {
      TakeKeepsHeld(c, x, w);
    } else {
      MoveKeepsHeld(x.workers, x.log.fates, w, Acted(c, x, w).workers[w], x.log.fates);
    }
  }

  lemma AbortKeepsHeld(c: Config, x: World, w: nat, applied: bool)
    requires LedgerInv(x) && Enabled(c, x, Aborts(w, applied))
    ensures Held(Aborted(c, x, w, applied).workers, Aborted(c, x, w, applied).log.fates)
  {
    hide Live;
    var y := Aborted(c, x, w, applied);
    var phase := x.workers[w].phase;
    if phase.Popping? && Tail(At(x.redis.lists, ListOf(c, phase.descriptor))).Some? {
      TailIsListed(x.redis.lists, x.log.fates, ListOf(c, phase.descriptor));
    }
    hide Places, At;
    MoveKeepsHeld(x.workers, x.log.fates, w, y.workers[w], y.log.fates);
  }

  lemma StepKeepsHeld(c: Config, x: World, s: Step)
    requires LedgerInv(x) && Enabled(c, x, s)
    ensures Held(Do(c, x, s).workers, Do(c, x, s).log.fates)
  {
    hide Acted, Aborted;
    var y := Do(c, x, s);
    match s
    case Acts(w) => ActKeepsHeld(c, x, w);
    case Aborts(w, applied) => AbortKeepsHeld(c, x, w, applied);
    case Ends(w, _) => MoveKeepsHeld(x.workers, x.log.fates, w, y.workers[w], y.log.fates);
    case Crashes(w) => MoveKeepsHeld(x.workers, x.log.fates, w, y.workers[w], y.log.fates);
    case _ =>
      assert y.workers == x.workers;
      assert forall t :: 0 <= t < |x.log.fates| ==> y.log.fates[t] == x.log.fates[t];
  }

  // -- payloads: one taker each ------------------------------------------------

  /** A payload is either stored or taken, and its identity is its own. */
  ghost predicate PayloadInv(payloads: map<string, Payload>, takes: seq<Take>, stored: nat) {
    && (forall n :: n in payloads ==> payloads[n].id < stored)
    && (forall n, m :: n in payloads && m in payloads && n != m ==> payloads[n].id != payloads[m].id)
    && (forall i :: 0 <= i < |takes| ==> takes[i].payload.id < stored)
    && (forall i, n :: 0 <= i < |takes| && n in payloads ==> takes[i].payload.id != payloads[n].id)
    && (forall i, j :: 0 <= i < j < |takes| ==> takes[i].payload.id != takes[j].payload.id)
  }

  lemma StoreKeepsPayloads(payloads: map<string, Payload>, takes: seq<Take>, stored: nat, name: string, body: string, at: int)
    requires PayloadInv(payloads, takes, stored)
    ensures PayloadInv(payloads[name := Payload(stored, body, at)], takes, stored + 1)
  {
  }

  lemma TakeKeepsPayloads(payloads: map<string, Payload>, takes: seq<Take>, stored: nat, name: string, t: nat, w: nat)
    requires PayloadInv(payloads, takes, stored)
    ensures PayloadInv(payloads - {name}, takes, stored)
    ensures name in payloads ==> PayloadInv(payloads - {name}, takes + [Take(payloads[name], t, w)], stored)
  {
  }

  lemma StepKeepsPayloads(c: Config, x: World, s: Step)
    requires PayloadInv(x.redis.payloads, x.log.takes, x.log.stored) && Enabled(c, x, s)
    ensures PayloadInv(Do(c, x, s).redis.payloads, Do(c, x, s).log.takes, Do(c, x, s).log.stored)
  {
    hide PayloadInv, Peeked, Tail, Crashed;
    if s.Produces? && c.programs[s.p][x.pcs[s.p]].Store? {
      var command := c.programs[s.p][x.pcs[s.p]];
      StoreKeepsPayloads(x.redis.payloads, x.log.takes, x.log.stored, command.name, command.body, x.redis.now);
    } else if (s.Acts? || s.Aborts?) && x.workers[s.w].phase.Taking? {
      var t := x.workers[s.w].phase.token;
      TakeKeepsPayloads(x.redis.payloads, x.log.takes, x.log.stored, NameOf(c, x.log, t), t, s.w);
    }
  }

  // -- tokens: one take each ---------------------------------------------------

  predicate Consumes(f: Fate) {
    f.Running? || f.Executed? || f.Unparseable?
  }

  /** A take and the fate of its token: the same worker, and the body parsed
      unless the token is reported unparseable. */
  predicate Agrees(parses: set<string>, take: Take, f: Fate) {
    && (Consumes(f) || f.Lost?)
    && f.w == take.w
    && (Consumes(f) ==> (take.payload.body in parses <==> !f.Unparseable?))
  }

  ghost predicate TakeInv(parses: set<string>, takes: seq<Take>, fates: seq<Fate>) {
    && (forall i :: 0 <= i < |takes| ==> takes[i].token < |fates| && Agrees(parses, takes[i], fates[takes[i].token]))
    && (forall i, j :: 0 <= i < j < |takes| ==> takes[i].token != takes[j].token)
    && (forall t: nat :: t < |fates| && Consumes(fates[t]) ==> TokenTaken(takes, t))
  }

  ghost predicate TokenTaken(takes: seq<Take>, t: nat) {
    exists i :: 0 <= i < |takes| && takes[i].token == t
  }

  /** A change of fate that needs no take. */
  predicate Untaken(f: Fate, f': Fate) {
    || f' == f
    || (!Consumes(f) && !f.Lost? && !Consumes(f'))
    || (f.Running? && (f'.Executed? || f'.Lost?) && f'.w == f.w)
  }

  lemma RecastKeepsTakes(parses: set<string>, takes: seq<Take>, fates: seq<Fate>, fates': seq<Fate>)
    requires TakeInv(parses, takes, fates) && |fates| <= |fates'|
    requires forall t: nat :: t < |fates| ==> Untaken(fates[t], fates'[t])
    requires forall t: nat :: |fates| <= t < |fates'| ==> fates'[t].Listed?
    ensures TakeInv(parses, takes, fates')
  {
    forall t: nat | t < |fates'| && Consumes(fates'[t]) ensures TokenTaken(takes, t) {
      assert Untaken(fates[t], fates'[t]);
    }
  }

  lemma TakeKeepsTakes(parses: set<string>, takes: seq<Take>, fates: seq<Fate>, take: Take, f: Fate)
    requires TakeInv(parses, takes, fates) && take.token < |fates| && fates[take.token].Claimed? && Agrees(parses, take, f)
    ensures TakeInv(parses, takes + [take], fates[take.token := f])
  {
    var takes' := takes + [take];
    assert takes'[|takes|] == take;
    forall t: nat | t < |fates| && Consumes(fates[take.token := f][t]) ensures TokenTaken(takes', t) {
      if t != take.token {
        var i :| 0 <= i < |takes| && takes[i].token == t;
        assert takes'[i].token == t;
      }
    }
  }

  lemma TakingKeepsTakes(c: Config, x: World, s: Step)
    requires LedgerInv(x) && TakeInv(c.parses, x.log.takes, x.log.fates) && Enabled(c, x, s)
    requires (s.Acts? || s.Aborts?) && x.workers[s.w].phase.Taking?
    ensures TakeInv(c.parses, Do(c, x, s).log.takes, Do(c, x, s).log.fates)
  {
    hide TakeInv, Places, NameOf;
    var y := Do(c, x, s);
    var t := x.workers[s.w].phase.token;
    var name := NameOf(c, x.log, t);
    assert Owns(x.workers[s.w], s.w, x.log.fates);
    if Live(c, x.redis, name) && (s.Acts? || s.applied) {
      TakeKeepsTakes(c.parses, x.log.takes, x.log.fates, Take(x.redis.payloads[name], t, s.w), y.log.fates[t]);
    } else {
      RecastKeepsTakes(c.parses, x.log.takes, x.log.fates, y.log.fates);
    }
  }

  lemma PoppingKeepsTakes(c: Config, x: World, s: Step)
    requires LedgerInv(x) && TakeInv(c.parses, x.log.takes, x.log.fates) && Enabled(c, x, s)
    requires (s.Acts? || s.Aborts?) && x.workers[s.w].phase.Popping?
    ensures TakeInv(c.parses, Do(c, x, s).log.takes, Do(c, x, s).log.fates)
  {
    hide TakeInv, Peeked, Consumed, Taken;
    var list := ListOf(c, x.workers[s.w].phase.descriptor);
    if Tail(At(x.redis.lists, list)).Some? {
      TailIsListed(x.redis.lists, x.log.fates, list);
    }
    hide Places, At, Held, ListOf;
    RecastKeepsTakes(c.parses, x.log.takes, x.log.fates, Do(c, x, s).log.fates);
  }

  lemma StepKeepsTakes(c: Config, x: World, s: Step)
    requires LedgerInv(x) && TakeInv(c.parses, x.log.takes, x.log.fates) && Enabled(c, x, s)
    ensures TakeInv(c.parses, Do(c, x, s).log.takes, Do(c, x, s).log.fates)
  {
    hide TakeInv, Peeked, Consumed, Taken, Places, At, ListOf;
    var y := Do(c, x, s);
    if (s.Acts? || s.Aborts?) && x.workers[s.w].phase.Taking? {
      TakingKeepsTakes(c, x, s);
    } else if (s.Acts? || s.Aborts?) && x.workers[s.w].phase.Popping? {
      PoppingKeepsTakes(c, x, s);
    } else {
      if s.Ends? {
        assert Owns(x.workers[s.w], s.w, x.log.fates);
      }
      hide Held;
      RecastKeepsTakes(c.parses, x.log.takes, x.log.fates, y.log.fates);
    }
  }

  // -- runs: a descriptor outlives its list ------------------------------------

  /** A run's names all come from one producer, before its descriptor. */
  ghost predicate RunsOwned(c: Config) {
    forall p, i, p', j ::
      0 <= p < |c.programs| && 0 <= i < |c.programs[p]| && 0 <= p' < |c.programs| && 0 <= j < |c.programs[p']|
      && c.programs[p][i].Advertise? && c.programs[p'][j].ListName?
      && c.programs[p][i].descriptor in c.runs && c.runs[c.programs[p][i].descriptor] == c.programs[p'][j].list ==>
        p == p' && j < i
  }

  /** No producer will push to this list again. */
  ghost predicate Closed(c: Config, pcs: seq<nat>, list: string) {
    forall p, i :: 0 <= p < |c.programs| && p < |pcs| && pcs[p] <= i < |c.programs[p]| && c.programs[p][i].ListName? ==>
      c.programs[p][i].list != list
  }

  ghost predicate Finished(c: Config, x: World, list: string) {
    Closed(c, x.pcs, list) && At(x.redis.lists, list) == []
  }

  predicate Carries(phase: Phase) {
    phase.Popping? || phase.Taking? || phase.Checking? || phase.Retiring?
  }

  ghost predicate PhaseOk(c: Config, x: World, phase: Phase) {
    Carries(phase) ==>
      && (phase.descriptor in c.runs ==> Closed(c, x.pcs, c.runs[phase.descriptor]))
      && (phase.descriptor in c.runs && phase.Retiring? ==> Finished(c, x, c.runs[phase.descriptor]))
      && (!phase.Retiring? ==> phase.descriptor in c.runs)
  }

  ghost predicate RunInv(c: Config, x: World) {
    && |x.pcs| == |c.programs|
    && (forall q, d :: d in At(x.redis.queues, q) && d in c.runs ==> Closed(c, x.pcs, c.runs[d]))
    && (forall w: nat :: w < |x.workers| ==> PhaseOk(c, x, x.workers[w].phase))
    && (forall d :: d in x.log.retired && d in c.runs ==> Finished(c, x, c.runs[d]))
    && (forall q, d :: (q, d) in x.log.advertised ==> d in At(x.redis.queues, q) || d in x.log.retired)
  }

  lemma ClosedStays(c: Config, x: World, s: Step, list: string)
    requires |x.pcs| == |c.programs| && Enabled(c, x, s)
    ensures |Do(c, x, s).pcs| == |c.programs| && |Do(c, x, s).workers| == |x.workers|
    ensures Closed(c, x.pcs, list) ==> Closed(c, Do(c, x, s).pcs, list)
    ensures Closed(c, x.pcs, list) && At(x.redis.lists, list) == [] ==> At(Do(c, x, s).redis.lists, list) == []
  {
    hide Peeked, Crashed, Live, Tail;
    if s.Produces? {
      assert Closed(c, x.pcs, list) && c.programs[s.p][x.pcs[s.p]].ListName? ==> c.programs[s.p][x.pcs[s.p]].list != list;
    }
  }

  /** Advertising closes the list. */
  lemma AdvertCloses(c: Config, x: World, p: nat, d: string)
    requires RunsOwned(c) && |x.pcs| == |c.programs| && Pending(c, x, p)
    requires c.programs[p][x.pcs[p]].Advertise? && c.programs[p][x.pcs[p]].descriptor == d && d in c.runs
    ensures Closed(c, x.pcs, c.runs[d])
  {
  }

  lemma StepKeepsQueues(c: Config, x: World, s: Step)
    requires RunsOwned(c) && RunInv(c, x) && Enabled(c, x, s)
    ensures forall q, d :: d in At(Do(c, x, s).redis.queues, q) && d in c.runs ==> Closed(c, Do(c, x, s).pcs, c.runs[d])
  {
    hide Peeked, Crashed, Live, Tail, Finished;
    var y := Do(c, x, s);
    forall q, d | d in At(y.redis.queues, q) && d in c.runs ensures Closed(c, y.pcs, c.runs[d]) {
      if d !in At(x.redis.queues, q) {
        AdvertCloses(c, x, s.p, d);
      }
      hide Closed;
      ClosedStays(c, x, s, c.runs[d]);
    }
  }

  lemma StepKeepsAdverts(c: Config, x: World, s: Step)
    requires RunInv(c, x) && Enabled(c, x, s)
    ensures forall q, d :: (q, d) in Do(c, x, s).log.advertised ==> d in At(Do(c, x, s).redis.queues, q) || d in Do(c, x, s).log.retired
  {
    hide Peeked, Crashed, Live, Tail, Finished, Closed;
  }

  predicate By(s: Step, v: nat) {
    (s.Acts? || s.Aborts? || s.Crashes?) && s.w == v
  }

  lemma OthersStay(c: Config, x: World, s: Step, v: nat)
    requires Enabled(c, x, s) && v < |x.workers| && !By(s, v)
    ensures |Do(c, x, s).workers| == |x.workers| && Do(c, x, s).workers[v].phase == x.workers[v].phase
  {
    hide Crashed, Live, Peeked, Tail, Pop, Push, RemoveAll, NameOf, At, ListOf;
  }

  /** How a worker comes to carry a descriptor, and to be about to retire it. */
  ghost predicate Follows(c: Config, r: Redis, was: Phase, now: Phase) {
    || now == was
    || !Carries(now)
    || (Carries(was) && now.descriptor == was.descriptor && !was.Retiring?
        && (now.Retiring? ==> At(r.lists, ListOf(c, was.descriptor)) == []))
    || (was.Peeking? && was.k < |c.queues| && now.descriptor in At(r.queues, c.queues[was.k])
        && (now.Retiring? <==> now.descriptor !in c.runs))
  }

  lemma PhaseFollows(c: Config, x: World, s: Step, v: nat)
    requires Enabled(c, x, s) && v < |x.workers|
    ensures |Do(c, x, s).workers| == |x.workers|
    ensures Follows(c, x.redis, x.workers[v].phase, Do(c, x, s).workers[v].phase)
  {
    if !By(s, v) {
      hide Do;
      OthersStay(c, x, s, v);
    } else {
      hide Crashed, Live, RemoveAll, NameOf, ListOf, Produced, Pop, At;
      if x.workers[v].phase.Peeking? && x.workers[v].phase.k < |c.queues| {
        var queue := At(x.redis.queues, c.queues[x.workers[v].phase.k]);
        assert queue != [] ==> queue[|queue| - 1] in queue;
      }
    }
  }

  lemma StepKeepsPhase(c: Config, x: World, s: Step, v: nat)
    requires RunInv(c, x) && Enabled(c, x, s) && v < |x.workers|
    ensures |Do(c, x, s).workers| == |x.workers| && PhaseOk(c, Do(c, x, s), Do(c, x, s).workers[v].phase)
  {
    var now := Do(c, x, s).workers[v].phase;
    PhaseFollows(c, x, s, v);
    hide Do;
    assert PhaseOk(c, x, x.workers[v].phase);
    if Carries(now) && now.descriptor in c.runs {
      hide Closed;
      ClosedStays(c, x, s, c.runs[now.descriptor]);
    }
  }

  lemma StepKeepsRetired(c: Config, x: World, s: Step, d: string)
    requires RunInv(c, x) && Enabled(c, x, s) && d in Do(c, x, s).log.retired && d in c.runs
    ensures Finished(c, Do(c, x, s), c.runs[d])
  {
    hide Crashed, Live, Peeked, Tail, Closed;
    assert Finished(c, x, c.runs[d]) by {
      if d !in x.log.retired {
        assert PhaseOk(c, x, x.workers[s.w].phase);
      }
    }
    hide Do;
    ClosedStays(c, x, s, c.runs[d]);
  }

  lemma StepKeepsRuns(c: Config, x: World, s: Step)
    requires RunsOwned(c) && RunInv(c, x) && Enabled(c, x, s)
    ensures RunInv(c, Do(c, x, s))
  {
    hide Do, Finished, PhaseOk, Closed, At;
    var y := Do(c, x, s);
    StepKeepsQueues(c, x, s);
    StepKeepsAdverts(c, x, s);
    ClosedStays(c, x, s, "");
    forall d | d in y.log.retired && d in c.runs ensures Finished(c, y, c.runs[d]) {
      StepKeepsRetired(c, x, s, d);
    }
    forall w: nat | w < |y.workers| ensures PhaseOk(c, y, y.workers[w].phase) {
      StepKeepsPhase(c, x, s, w);
    }
  }

  // -- a name's fate only moves forward ----------------------------------------

  predicate Progress(f: Fate, f': Fate) {
    match f
    case Listed(_) => f' == f || f'.Claimed? || f'.Lost?
    case Claimed(w) => !f'.Listed? && !f'.Executed? && f'.w == w
    case Running(w) => f' == f || f' == Executed(w) || f' == Lost(w)
    case _ => f' == f
  }

  lemma TakingMakesProgress(c: Config, x: World, s: Step)
    requires LedgerInv(x) && Enabled(c, x, s) && (s.Acts? || s.Aborts?) && x.workers[s.w].phase.Taking?
    ensures |x.log.fates| == |Do(c, x, s).log.fates| && x.log.origins == Do(c, x, s).log.origins
    ensures forall t: nat :: t < |x.log.fates| ==> Progress(x.log.fates[t], Do(c, x, s).log.fates[t])
  {
    assert Owns(x.workers[s.w], s.w, x.log.fates);
    hide Places, Held, Live, NameOf, Owns;
  }

  lemma StepMakesProgress(c: Config, x: World, s: Step)
    requires LedgerInv(x) && Enabled(c, x, s)
    ensures |x.log.fates| <= |Do(c, x, s).log.fates| && x.log.origins <= Do(c, x, s).log.origins
    ensures forall t: nat :: t < |x.log.fates| ==> Progress(x.log.fates[t], Do(c, x, s).log.fates[t])
  {
    hide Peeked, Consumed, Taken;
    if (s.Acts? || s.Aborts?) && x.workers[s.w].phase.Taking? {
      TakingMakesProgress(c, x, s);
    } else if (s.Acts? || s.Aborts?) && x.workers[s.w].phase.Popping? {
      var list := ListOf(c, x.workers[s.w].phase.descriptor);
      if Tail(At(x.redis.lists, list)).Some? {
        TailIsListed(x.redis.lists, x.log.fates, list);
      }
    } else if s.Ends? {
      assert Owns(x.workers[s.w], s.w, x.log.fates);
    }
    hide Places, At, Held, Owns;
  }

  // -- payloads wait for their names -------------------------------------------

  /** Every name is listed by one command of one producer. */
  ghost predicate NamesOnce(c: Config) {
    forall p, i, p', j ::
      0 <= p < |c.programs| && 0 <= i < |c.programs[p]| && 0 <= p' < |c.programs| && 0 <= j < |c.programs[p']|
      && c.programs[p][i].ListName? && c.programs[p'][j].ListName? && c.programs[p][i].name == c.programs[p'][j].name ==>
        p == p' && i == j
  }

  ghost predicate Disciplined(c: Config) {
    NamesOnce(c) && forall p :: 0 <= p < |c.programs| ==> PayloadsFirst(c.programs[p])
  }

  predicate Sent(c: Config, pcs: seq<nat>, o: Origin) {
    && o.producer < |c.programs| && o.producer < |pcs| && o.index < pcs[o.producer]
    && o.index < |c.programs[o.producer]|
  }

  ghost predicate OriginInv(c: Config, pcs: seq<nat>, origins: seq<Origin>) {
    && (forall t: nat :: t < |origins| ==>
          Sent(c, pcs, origins[t]) && c.programs[origins[t].producer][origins[t].index].ListName?)
    && (forall t: nat, u: nat :: t < u < |origins| ==> origins[t] != origins[u])
  }

  lemma StepKeepsOrigins(c: Config, x: World, s: Step)
    requires |x.pcs| == |c.programs| && OriginInv(c, x.pcs, x.log.origins) && Enabled(c, x, s)
    ensures OriginInv(c, Do(c, x, s).pcs, Do(c, x, s).log.origins)
  {
    hide Peeked, Crashed, Live, Tail, At, Pushed;
  }

  predicate Available(x: World, name: string) {
    name in x.redis.payloads || name in x.log.refused
  }

  predicate PastClaim(f: Fate) {
    !f.Listed? && !f.Claimed?
  }

  ghost predicate Gone(c: Config, log: Log, name: string) {
    exists t: nat :: t < |log.origins| && t < |log.fates| && PastClaim(log.fates[t]) && NameOf(c, log, t) == name
  }

  ghost predicate SupplyInv(c: Config, x: World) {
    && (forall t: nat :: t < |x.log.fates| && t < |x.log.origins| && !PastClaim(x.log.fates[t]) ==> Available(x, NameOf(c, x.log, t)))
    && (forall o: Origin :: Sent(c, x.pcs, o) && c.programs[o.producer][o.index].Store? ==>
          Supplied(c, x, c.programs[o.producer][o.index].name))
  }

  ghost predicate Supplied(c: Config, x: World, name: string) {
    Available(x, name) || Gone(c, x.log, name)
  }

  lemma GoneStays(c: Config, x: World, s: Step, name: string)
    requires LedgerInv(x) && Enabled(c, x, s) && Gone(c, x.log, name)
    ensures Gone(c, Do(c, x, s).log, name)
  {
    StepMakesProgress(c, x, s);
    var t: nat :| t < |x.log.origins| && t < |x.log.fates| && PastClaim(x.log.fates[t]) && NameOf(c, x.log, t) == name;
    hide Do;
    assert Progress(x.log.fates[t], Do(c, x, s).log.fates[t]);
    assert NameOf(c, Do(c, x, s).log, t) == name;
  }

  /** A payload leaves Redis only into the hands of a worker that claimed its
      name. */
  lemma PayloadLeaves(c: Config, x: World, s: Step, name: string)
    requires LedgerInv(x) && Enabled(c, x, s) && Available(x, name) && !Available(Do(c, x, s), name)
    ensures (s.Acts? || s.Aborts?) && x.workers[s.w].phase.Taking?
    ensures var t := x.workers[s.w].phase.token;
      t < |x.log.fates| && x.log.fates[t] == Claimed(s.w) && PastClaim(Do(c, x, s).log.fates[t]) && NameOf(c, x.log, t) == name
  {
    hide Peeked, Crashed, Pushed, Tail, At, Places, ListOf;
    if (s.Acts? || s.Aborts?) && x.workers[s.w].phase.Taking? {
      assert Owns(x.workers[s.w], s.w, x.log.fates);
    }
  }

  lemma NamesDiffer(c: Config, x: World, t: nat, u: nat)
    requires NamesOnce(c) && OriginInv(c, x.pcs, x.log.origins) && t < |x.log.origins| && u < |x.log.origins| && t != u
    ensures NameOf(c, x.log, t) != NameOf(c, x.log, u)
  {
  }

  lemma StepKeepsSupplied(c: Config, x: World, s: Step, name: string)
    requires LedgerInv(x) && Enabled(c, x, s) && Supplied(c, x, name)
    ensures Supplied(c, Do(c, x, s), name)
  {
    hide Do, LedgerInv, Enabled, Gone;
    if Gone(c, x.log, name) {
      GoneStays(c, x, s, name);
    } else if !Available(Do(c, x, s), name) {
      PayloadLeaves(c, x, s, name);
      TakenIsGone(c, x, s, name);
    }
  }

  lemma TakenIsGone(c: Config, x: World, s: Step, name: string)
    requires LedgerInv(x) && Enabled(c, x, s) && (s.Acts? || s.Aborts?) && x.workers[s.w].phase.Taking?
    requires var t := x.workers[s.w].phase.token;
      t < |x.log.fates| && PastClaim(Do(c, x, s).log.fates[t]) && NameOf(c, x.log, t) == name
    ensures Gone(c, Do(c, x, s).log, name)
  {
    StepMakesProgress(c, x, s);
    hide Do;
    var t := x.workers[s.w].phase.token;
    assert NameOf(c, Do(c, x, s).log, t) == name;
  }

  /** The name a producer is about to list has its payload in place. */
  lemma ListingIsSupplied(c: Config, x: World, p: nat)
    requires Disciplined(c) && LedgerInv(x) && |x.pcs| == |c.programs| && OriginInv(c, x.pcs, x.log.origins) && SupplyInv(c, x)
    requires Pending(c, x, p) && c.programs[p][x.pcs[p]].ListName?
    ensures Available(x, c.programs[p][x.pcs[p]].name)
  {
    var i, name := x.pcs[p], c.programs[p][x.pcs[p]].name;
    assert PayloadsFirst(c.programs[p]);
    var j :| 0 <= j < i && c.programs[p][j].Store? && c.programs[p][j].name == c.programs[p][i].name;
    assert Sent(c, x.pcs, Origin(p, j)) && Supplied(c, x, name);
    forall t: nat | t < |x.log.origins| ensures NameOf(c, x.log, t) != name {
      assert Sent(c, x.pcs, x.log.origins[t]) && x.log.origins[t] != Origin(p, i);
    }
    assert !Gone(c, x.log, name);
  }

  lemma StepSuppliesTokens(c: Config, x: World, s: Step, t: nat)
    requires Disciplined(c) && LedgerInv(x) && |x.pcs| == |c.programs| && OriginInv(c, x.pcs, x.log.origins) && SupplyInv(c, x)
    requires Enabled(c, x, s) && t < |Do(c, x, s).log.fates| && t < |Do(c, x, s).log.origins| && !PastClaim(Do(c, x, s).log.fates[t])
    ensures Available(Do(c, x, s), NameOf(c, Do(c, x, s).log, t))
  {
    StepMakesProgress(c, x, s);
    var y := Do(c, x, s);
    var name := NameOf(c, y.log, t);
    if t >= |x.log.fates| {
      hide Peeked, Crashed, Consumed, Aborted, At, Tail, LedgerInv, SupplyInv, OriginInv, Disciplined;
      assert s.Produces? && c.programs[s.p][x.pcs[s.p]].ListName? && t == |x.log.origins|;
      ListingIsSupplied(c, x, s.p);
    } else if !Available(y, name) {
      hide Do, Available, Disciplined;
      assert Progress(x.log.fates[t], y.log.fates[t]) && name == NameOf(c, x.log, t);
      PayloadLeaves(c, x, s, name);
      NamesDifferUnless(c, x, t, x.workers[s.w].phase.token);
    }
  }

  lemma NamesDifferUnless(c: Config, x: World, t: nat, u: nat)
    requires Disciplined(c) && OriginInv(c, x.pcs, x.log.origins) && t < |x.log.origins| && u < |x.log.origins|
    requires NameOf(c, x.log, t) == NameOf(c, x.log, u)
    ensures t == u
  {
    if t != u {
      NamesDiffer(c, x, t, u);
    }
  }

  lemma StepSuppliesStores(c: Config, x: World, s: Step, o: Origin)
    requires LedgerInv(x) && |x.pcs| == |c.programs| && SupplyInv(c, x) && Enabled(c, x, s)
    requires Sent(c, Do(c, x, s).pcs, o) && c.programs[o.producer][o.index].Store?
    ensures Supplied(c, Do(c, x, s), c.programs[o.producer][o.index].name)
  {
    if Sent(c, x.pcs, o) {
      hide Do;
      StepKeepsSupplied(c, x, s, c.programs[o.producer][o.index].name);
    } else {
      hide Peeked, Crashed, Consumed, Aborted, Acted, At, Tail, LedgerInv, SupplyInv, Gone;
      assert (s.Produces? || s.Refuses?) && o == Origin(s.p, x.pcs[s.p]);
    }
  }

  lemma StepKeepsSupply(c: Config, x: World, s: Step)
    requires Disciplined(c) && LedgerInv(x) && |x.pcs| == |c.programs| && OriginInv(c, x.pcs, x.log.origins) && SupplyInv(c, x)
    requires Enabled(c, x, s)
    ensures SupplyInv(c, Do(c, x, s))
  {
    hide Do, Supplied, Available, OriginInv, Disciplined, LedgerInv;
    var y := Do(c, x, s);
    forall t: nat | t < |y.log.fates| && t < |y.log.origins| && !PastClaim(y.log.fates[t]) ensures Available(y, NameOf(c, y.log, t)) {
      StepSuppliesTokens(c, x, s, t);
    }
    forall o: Origin | Sent(c, y.pcs, o) && c.programs[o.producer][o.index].Store? ensures Supplied(c, y, c.programs[o.producer][o.index].name) {
      StepSuppliesStores(c, x, s, o);
    }
  }

  // -- theorems over every run -------------------------------------------------

  ghost predicate Inv(c: Config, x: World) {
    && LedgerInv(x)
    && PayloadInv(x.redis.payloads, x.log.takes, x.log.stored)
    && TakeInv(c.parses, x.log.takes, x.log.fates)
  }

  lemma {:induction false} InvOverRuns(c: Config, x: World, steps: seq<Step>)
    requires Inv(c, x) && Valid(c, x, steps)
    ensures Inv(c, After(c, x, steps))
    decreases |steps|
  {
    if steps != [] {
      hide Do, LedgerInv, PayloadInv, TakeInv;
      StepKeepsLedger(c, x, steps[0]);
      StepKeepsPayloads(c, x, steps[0]);
      StepKeepsTakes(c, x, steps[0]);
      InvOverRuns(c, Do(c, x, steps[0]), steps[1..]);
    }
  }

  lemma StepKeepsLedger(c: Config, x: World, s: Step)
    requires LedgerInv(x) && Enabled(c, x, s)
    ensures LedgerInv(Do(c, x, s))
  {
    StepKeepsPlaces(c, x, s);
    StepKeepsHeld(c, x, s);
    StepKeepsLength(c, x, s);
  }

  lemma StepKeepsLength(c: Config, x: World, s: Step)
    requires |x.log.origins| == |x.log.fates| && Enabled(c, x, s)
    ensures |Do(c, x, s).log.origins| == |Do(c, x, s).log.fates|
  {
    hide Peeked, Live, NameOf, ListOf;
  }

  lemma InitialInv(c: Config, crew: nat, now: int)
    ensures Inv(c, Initial(c, crew, now)) && RunInv(c, Initial(c, crew, now))
    ensures OriginInv(c, Initial(c, crew, now).pcs, []) && SupplyInv(c, Initial(c, crew, now))
  {
  }

  /** Conservation. Whatever the interleaving, every pushed name is in exactly
      one place: its fate, a single value, says a list, a worker's hand, a
      pool, or an ending, and it is where its fate says and nowhere else. */
  lemma EveryNameIsSomewhere(c: Config, crew: nat, now: int, steps: seq<Step>)
    requires Valid(c, Initial(c, crew, now), steps)
    ensures var y := After(c, Initial(c, crew, now), steps);
      && |y.log.origins| == |y.log.fates|
      && (forall l, t: nat :: t in At(y.redis.lists, l) <==> t < |y.log.fates| && y.log.fates[t] == Listed(l))
      && (forall l :: Distinct(At(y.redis.lists, l)))
      && (forall w: nat, t: nat :: w < |y.workers| ==>
            (y.workers[w].phase.Taking? && y.workers[w].phase.token == t <==> t < |y.log.fates| && y.log.fates[t] == Claimed(w)))
      && (forall w: nat, t: nat :: w < |y.workers| ==>
            (t in y.workers[w].pool <==> t < |y.log.fates| && y.log.fates[t] == Running(w)))
      && (forall t: nat :: t < |y.log.fates| && y.log.fates[t].Lost? ==>
            y.log.fates[t].w < |y.workers| && y.workers[y.log.fates[t].w].phase.Dead?)
  {
    hide Do;
    InitialInv(c, crew, now);
    InvOverRuns(c, Initial(c, crew, now), steps);
    hide After, Valid, Initial;
    LedgerIsTruth(After(c, Initial(c, crew, now), steps));
  }

  lemma LedgerIsTruth(y: World)
    requires LedgerInv(y)
    ensures forall l, t: nat :: t in At(y.redis.lists, l) <==> t < |y.log.fates| && y.log.fates[t] == Listed(l)
    ensures forall l :: Distinct(At(y.redis.lists, l))
    ensures forall w: nat, t: nat :: w < |y.workers| ==>
      (y.workers[w].phase.Taking? && y.workers[w].phase.token == t <==> t < |y.log.fates| && y.log.fates[t] == Claimed(w))
    ensures forall w: nat, t: nat :: w < |y.workers| ==>
      (t in y.workers[w].pool <==> t < |y.log.fates| && y.log.fates[t] == Running(w))
  {
    forall l ensures Lists(At(y.redis.lists, l), l, y.log.fates) {
      assert l in y.redis.lists ==> Lists(y.redis.lists[l], l, y.log.fates);
    }
    forall l, t: nat | t in At(y.redis.lists, l) ensures t < |y.log.fates| && y.log.fates[t] == Listed(l) {
      assert Lists(At(y.redis.lists, l), l, y.log.fates);
    }
    forall w: nat | w < |y.workers| ensures Owns(y.workers[w], w, y.log.fates) {
    }
  }

  ghost predicate TakenBy(parses: set<string>, takes: seq<Take>, t: nat, f: Fate) {
    exists i :: 0 <= i < |takes| && takes[i].token == t && Agrees(parses, takes[i], f)
  }

  /** At most once: no payload is ever handed to two workers, no claimed name
      takes two payloads, and what runs or ran was taken, by that worker, from
      a body that parses. */
  lemma EachPayloadHasOneTaker(c: Config, crew: nat, now: int, steps: seq<Step>)
    requires Valid(c, Initial(c, crew, now), steps)
    ensures var y := After(c, Initial(c, crew, now), steps);
      && (forall i, j :: 0 <= i < j < |y.log.takes| ==>
            y.log.takes[i].payload.id != y.log.takes[j].payload.id && y.log.takes[i].token != y.log.takes[j].token)
      && (forall i, n :: 0 <= i < |y.log.takes| && n in y.redis.payloads ==> y.redis.payloads[n].id != y.log.takes[i].payload.id)
      && (forall t: nat :: t < |y.log.fates| && Consumes(y.log.fates[t]) ==>
            TakenBy(c.parses, y.log.takes, t, y.log.fates[t]))
  {
    hide Do;
    InitialInv(c, crew, now);
    InvOverRuns(c, Initial(c, crew, now), steps);
    var y := After(c, Initial(c, crew, now), steps);
    hide After, Valid, Initial, LedgerInv;
    forall t: nat | t < |y.log.fates| && Consumes(y.log.fates[t])
      ensures TakenBy(c.parses, y.log.takes, t, y.log.fates[t])
    {
      assert TokenTaken(y.log.takes, t);
      var i :| 0 <= i < |y.log.takes| && y.log.takes[i].token == t;
      assert Agrees(c.parses, y.log.takes[i], y.log.fates[t]);
    }
  }

  predicate Settled(f: Fate) {
    f.Executed? || f.Unparseable? || f.Missing? || f.Lost?
  }

  /** An ending is final, and a claimed name never changes hands. */
  lemma {:induction false} EndingsAreFinal(c: Config, x: World, steps: seq<Step>, t: nat)
    requires LedgerInv(x) && Valid(c, x, steps) && t < |x.log.fates|
    ensures t < |After(c, x, steps).log.fates|
    ensures Settled(x.log.fates[t]) ==> After(c, x, steps).log.fates[t] == x.log.fates[t]
    ensures !x.log.fates[t].Listed? ==>
      !After(c, x, steps).log.fates[t].Listed? && After(c, x, steps).log.fates[t].w == x.log.fates[t].w
    decreases |steps|
  {
    if steps != [] {
      hide Do, LedgerInv, Enabled;
      StepKeepsLedger(c, x, steps[0]);
      StepMakesProgress(c, x, steps[0]);
      assert Progress(x.log.fates[t], Do(c, x, steps[0]).log.fates[t]);
      EndingsAreFinal(c, Do(c, x, steps[0]), steps[1..], t);
    }
  }

  ghost predicate SupplyChain(c: Config, x: World) {
    LedgerInv(x) && |x.pcs| == |c.programs| && OriginInv(c, x.pcs, x.log.origins) && SupplyInv(c, x)
  }

  lemma {:induction false} SupplyOverRuns(c: Config, x: World, steps: seq<Step>)
    requires Disciplined(c) && SupplyChain(c, x) && Valid(c, x, steps)
    ensures SupplyChain(c, After(c, x, steps))
    decreases |steps|
  {
    if steps != [] {
      hide Do, LedgerInv, OriginInv, SupplyInv, Disciplined, Enabled, Closed;
      StepKeepsLedger(c, x, steps[0]);
      StepKeepsOrigins(c, x, steps[0]);
      StepKeepsSupply(c, x, steps[0]);
      ClosedStays(c, x, steps[0], "");
      SupplyOverRuns(c, Do(c, x, steps[0]), steps[1..]);
    }
  }

  /** A name on a list, or in a worker's hand, has its payload stored, unless
      the payload's time to live is over or Redis refused to store it. */
  lemma ListedNamesHavePayloads(c: Config, crew: nat, now: int, steps: seq<Step>, t: nat)
    requires Disciplined(c) && Valid(c, Initial(c, crew, now), steps)
    requires t < |After(c, Initial(c, crew, now), steps).log.fates|
    requires var f := After(c, Initial(c, crew, now), steps).log.fates[t]; f.Listed? || f.Claimed?
    ensures var y := After(c, Initial(c, crew, now), steps);
      && t < |y.log.origins|
      && var name := NameOf(c, y.log, t);
      || Live(c, y.redis, name)
      || (name in y.redis.payloads && y.redis.payloads[name].storedAt + c.ttl <= y.redis.now)
      || name in y.log.refused
  {
    hide Do, Disciplined;
    InitialInv(c, crew, now);
    SupplyOverRuns(c, Initial(c, crew, now), steps);
    hide After, Valid, Initial, OriginInv;
  }

  lemma {:induction false} RunsOverRuns(c: Config, x: World, steps: seq<Step>)
    requires RunsOwned(c) && RunInv(c, x) && Valid(c, x, steps)
    ensures RunInv(c, After(c, x, steps)) && x.log.retired <= After(c, x, steps).log.retired
    decreases |steps|
  {
    if steps != [] {
      hide Do, RunInv, RunsOwned, Enabled;
      StepKeepsRuns(c, x, steps[0]);
      RetiredStays(c, x, steps[0]);
      RunsOverRuns(c, Do(c, x, steps[0]), steps[1..]);
    }
  }

  lemma RetiredStays(c: Config, x: World, s: Step)
    requires Enabled(c, x, s)
    ensures x.log.retired <= Do(c, x, s).log.retired
  {
    hide Peeked, Live, NameOf, ListOf, Tail, At;
  }

  /** Once a parseable descriptor has been removed, the run's list is empty,
      and stays empty whatever happens next. */
  lemma RetiredRunsStayEmpty(c: Config, crew: nat, now: int, steps: seq<Step>, more: seq<Step>, d: string)
    requires RunsOwned(c) && Valid(c, Initial(c, crew, now), steps) && Valid(c, After(c, Initial(c, crew, now), steps), more)
    requires d in After(c, Initial(c, crew, now), steps).log.retired && d in c.runs
    ensures At(After(c, After(c, Initial(c, crew, now), steps), more).redis.lists, c.runs[d]) == []
  {
    hide Do, RunsOwned;
    InitialInv(c, crew, now);
    RunsOverRuns(c, Initial(c, crew, now), steps);
    hide Initial;
    RunsOverRuns(c, After(c, Initial(c, crew, now), steps), more);
  }

  /** No orphans: while names of an advertised run are listed, its descriptor
      is on its queue. */
  lemma ListedRunsStayAdvertised(c: Config, crew: nat, now: int, steps: seq<Step>, queue: string, d: string)
    requires RunsOwned(c) && Valid(c, Initial(c, crew, now), steps) && d in c.runs
    requires (queue, d) in After(c, Initial(c, crew, now), steps).log.advertised
    requires At(After(c, Initial(c, crew, now), steps).redis.lists, c.runs[d]) != []
    ensures d in At(After(c, Initial(c, crew, now), steps).redis.queues, queue)
  {
    hide Do, RunsOwned;
    InitialInv(c, crew, now);
    RunsOverRuns(c, Initial(c, crew, now), steps);
    hide Initial, After, Valid;
  }

  /** A parked worker has nothing in flight, and every name it ever claimed was
      executed, or reported missing or unparseable. */
  lemma ParkedMeansDrained(c: Config, crew: nat, now: int, steps: seq<Step>, w: nat)
    requires Valid(c, Initial(c, crew, now), steps)
    requires w < |After(c, Initial(c, crew, now), steps).workers| && After(c, Initial(c, crew, now), steps).workers[w].phase.Parked?
    ensures var y := After(c, Initial(c, crew, now), steps);
      && y.workers[w].pool == {}
      && (forall t: nat :: t < |y.log.fates| && !y.log.fates[t].Listed? && y.log.fates[t].w == w ==>
            y.log.fates[t].Executed? || y.log.fates[t].Missing? || y.log.fates[t].Unparseable?)
  {
    hide Do;
    InitialInv(c, crew, now);
    InvOverRuns(c, Initial(c, crew, now), steps);
    hide Initial, After, Valid, Places, PayloadInv, TakeInv;
    var y := After(c, Initial(c, crew, now), steps);
    assert Owns(y.workers[w], w, y.log.fates);
  }

  predicate Stopped(phase: Phase) {
    phase.Draining? || Over(phase)
  }

  predicate ClaimedBy(log: Log, t: nat, w: nat) {
    t < |log.fates| && !log.fates[t].Listed? && log.fates[t].w == w
  }

  /** Only a worker's own steps claim names for it. */
  lemma OthersClaimNothing(c: Config, x: World, s: Step, w: nat, t: nat)
    requires LedgerInv(x) && Enabled(c, x, s) && !By(s, w) && ClaimedBy(Do(c, x, s).log, t, w)
    ensures ClaimedBy(x.log, t, w)
  {
    StepMakesProgress(c, x, s);
    hide Live, NameOf, ListOf, At, Places, Held;
  }

  lemma StoppedActClaimsNothing(c: Config, x: World, s: Step, w: nat)
    requires Enabled(c, x, s) && By(s, w) && Stopped(x.workers[w].phase)
    ensures |Do(c, x, s).workers| == |x.workers| && Stopped(Do(c, x, s).workers[w].phase)
    ensures |Do(c, x, s).log.fates| == |x.log.fates|
    ensures forall t: nat :: ClaimedBy(Do(c, x, s).log, t, w) ==> ClaimedBy(x.log, t, w)
  {
    hide Live, NameOf, ListOf, At, Popped, Consumed, Taken, Retired, Produced;
  }

  lemma StoppedStepClaimsNothing(c: Config, x: World, s: Step, w: nat, t: nat)
    requires LedgerInv(x) && Enabled(c, x, s) && w < |x.workers| && Stopped(x.workers[w].phase)
    ensures w < |Do(c, x, s).workers| && Stopped(Do(c, x, s).workers[w].phase)
    ensures ClaimedBy(Do(c, x, s).log, t, w) ==> ClaimedBy(x.log, t, w)
  {
    hide Do, ClaimedBy, LedgerInv;
    if By(s, w) {
      StoppedActClaimsNothing(c, x, s, w);
    } else {
      OthersStay(c, x, s, w);
      if ClaimedBy(Do(c, x, s).log, t, w) {
        OthersClaimNothing(c, x, s, w, t);
      }
    }
  }

  /** Once a stop has been observed no further name is popped. */
  lemma {:induction false} StoppedWorkersClaimNothing(c: Config, x: World, steps: seq<Step>, w: nat, t: nat)
    requires LedgerInv(x) && Valid(c, x, steps) && w < |x.workers| && Stopped(x.workers[w].phase)
    ensures w < |After(c, x, steps).workers| && Stopped(After(c, x, steps).workers[w].phase)
    ensures ClaimedBy(After(c, x, steps).log, t, w) ==> ClaimedBy(x.log, t, w)
    decreases |steps|
  {
    if steps != [] {
      hide Do, LedgerInv, Enabled, ClaimedBy;
      StepKeepsLedger(c, x, steps[0]);
      StoppedStepClaimsNothing(c, x, steps[0], w, t);
      StoppedWorkersClaimNothing(c, Do(c, x, steps[0]), steps[1..], w, t);
    }
  }

  // -- one worker, left alone ------------------------------------------------------

  /** GETDEL settles a claimed name: it is missing when no payload is stored or its
      time to live is over, and otherwise runs if the payload parses. */
  lemma PayloadsDecide(c: Config, x: World, w: nat)
    requires Enabled(c, x, Acts(w)) && x.workers[w].phase.Taking?
    ensures var t := x.workers[w].phase.token;
      var name, y := NameOf(c, x.log, t), Do(c, x, Acts(w));
      var gone := name !in x.redis.payloads || x.redis.payloads[name].storedAt + c.ttl <= x.redis.now;
      && (y.log.fates[t] == Missing(w) <==> gone)
      && (y.log.fates[t] == Running(w) <==> !gone && x.redis.payloads[name].body in c.parses)
      && (y.log.fates[t] == Unparseable(w) <==> !gone && x.redis.payloads[name].body !in c.parses)
      && (y.log.fates[t] == Running(w) ==> t in y.workers[w].pool)
      && y.redis.payloads == x.redis.payloads - {name}
      && y.workers[w].phase.Checking?
  {
  }

  /** RPOP claims the oldest name of the run, and the run is retired only once it
      has none. */
  lemma ClaimsTheOldestName(c: Config, x: World, w: nat, list: string)
    requires LedgerInv(x) && Enabled(c, x, Acts(w)) && x.workers[w].phase.Popping?
    requires x.workers[w].phase.descriptor in c.runs && list == c.runs[x.workers[w].phase.descriptor]
    ensures var y := Do(c, x, Acts(w));
      if list in x.redis.lists && x.redis.lists[list] != [] then
        var t := x.redis.lists[list][|x.redis.lists[list]| - 1];
        && t < |x.log.fates| && y.log.fates[t] == Claimed(w)
        && y.workers[w].phase.Taking? && y.workers[w].phase.token == t
        && x.redis.lists[list] == y.redis.lists[list] + [t]
      else
        y.workers[w].phase.Retiring? && y.redis == x.redis && y.log == x.log
  {
    if list in x.redis.lists && x.redis.lists[list] != [] {
      assert Lists(x.redis.lists[list], list, x.log.fates);
    }
  }

  /** A stop is heeded at the top of the loop and after each name, and only then. */
  lemma StopsAreHeeded(c: Config, x: World, w: nat)
    requires Enabled(c, x, Acts(w)) && (x.workers[w].phase.Top? || x.workers[w].phase.Checking?)
    ensures Do(c, x, Acts(w)).workers[w].phase.Draining? <==> c.stoppable && w in x.stop
    ensures !(c.stoppable && w in x.stop) ==>
      if x.workers[w].phase.Top? then Do(c, x, Acts(w)).workers[w].phase == Peeking(0)
      else Do(c, x, Acts(w)).workers[w].phase.Popping?
  {
  }

  function Again(w: nat, n: nat): seq<Step> {
    seq(n, i => Acts(w))
  }

  /** A peek finds the oldest run of the first queue, in priority order, that has
      one, and goes back to the top when no queue has. */
  lemma {:induction false} PeeksInPriority(c: Config, x: World, w: nat, k: nat, j: nat)
    requires w < |x.workers| && x.workers[w].phase == Peeking(k) && k <= j <= |c.queues|
    requires forall i :: k <= i < j ==> At(x.redis.queues, c.queues[i]) == []
    requires j < |c.queues| ==> At(x.redis.queues, c.queues[j]) != []
    ensures Valid(c, x, Again(w, j - k + 1))
    ensures var y := After(c, x, Again(w, j - k + 1));
      && y.redis == x.redis && w < |y.workers|
      && y.workers[w].phase ==
         if j == |c.queues| then Top
         else
           var runs := x.redis.queues[c.queues[j]];
           var d := runs[|runs| - 1];
           if d in c.runs then Popping(c.queues[j], d) else Retiring(c.queues[j], d)
    decreases j - k
  {
    var steps, y := Again(w, j - k + 1), Do(c, x, Acts(w));
    assert steps[1..] == Again(w, j - k);
    if k < j {
      PeeksInPriority(c, y, w, k + 1, j);
    } else {
      assert Valid(c, y, []) && After(c, y, []) == y;
    }
  }

  // -- the loader meets the hypotheses -----------------------------------------

  /** One load, of which the first `sent` commands went out. */
  datatype Load = Load(list: string, chunks: seq<seq<RedisLoader.KeyedPayload>>, queue: string, descriptor: string, sent: nat)

  function ProgramOf(load: Load, encode: string -> string): seq<Command> {
    RedisLoader.LoadProgram(load.list, load.chunks, load.queue, load.descriptor, encode)
  }

  /** Loads into lists of their own, complete or cut short, list no name ahead
      of its payload and none after its run is advertised. */
  lemma LoadersAreDisciplined(c: Config, loads: seq<Load>, encode: string -> string)
    requires |loads| == |c.programs|
    requires forall p :: 0 <= p < |loads| ==>
      loads[p].sent <= |ProgramOf(loads[p], encode)| && c.programs[p] == ProgramOf(loads[p], encode)[..loads[p].sent]
    requires forall p, p' :: 0 <= p < p' < |loads| ==> loads[p].list != loads[p'].list
    requires forall p :: 0 <= p < |loads| && loads[p].descriptor in c.runs ==> c.runs[loads[p].descriptor] == loads[p].list
    ensures RunsOwned(c)
    ensures NamesOnce(c) ==> Disciplined(c)
  {
    forall p | 0 <= p < |loads| ensures PayloadsFirst(c.programs[p]) {
      var load := loads[p];
      RedisLoader.LoadIsSafe(load.list, load.chunks, load.queue, load.descriptor, encode, load.sent);
    }
    forall p, i | 0 <= p < |loads| && 0 <= i < |c.programs[p]|
      ensures c.programs[p][i].Advertise? ==> c.programs[p][i].descriptor == loads[p].descriptor
      ensures c.programs[p][i].ListName? ==>
        c.programs[p][i].list == loads[p].list && forall j :: 0 <= j < |c.programs[p]| && c.programs[p][j].Advertise? ==> i < j
    {
      var load := loads[p];
      var stream := RedisLoader.StreamProgram(load.list, load.chunks, encode);
      RedisLoader.StreamIsSafe(load.list, load.chunks, encode);
      assert forall k :: 0 <= k < |c.programs[p]| && k < |stream| ==> c.programs[p][k] == stream[k] && stream[k] in stream;
      assert forall k :: 0 <= k < |c.programs[p]| && k >= |stream| ==> c.programs[p][k] == Advertise(load.queue, load.descriptor);
    }
  }

  // -- the two instances ---------------------------------------------------------

  const RUN_QUEUES: seq<string> := [
    "BACKTESTING_QUEUE_RUN",
    "BACKTESTING_QUEUE_RUN_CHAIN:1",
    "BACKTESTING_QUEUE_RUN_CHAIN:2",
    "BACKTESTING_QUEUE_RUN_CHAIN:3"
  ]
  const EXPERIMENT_QUEUES: seq<string> := ["BACKTESTING_QUEUE_EXPERIMENT_RUN"]
  const PAYLOAD_TTL_MS: nat := 7 * 24 * 60 * 60 * 1000

  function DrainRuns(programs: seq<seq<Command>>, runs: map<string, string>, parses: set<string>): Config {
    Config(programs, runs, parses, RUN_QUEUES, true, PAYLOAD_TTL_MS)
  }

  function DrainExperiments(programs: seq<seq<Command>>, runs: map<string, string>, parses: set<string>): Config {
    Config(programs, runs, parses, EXPERIMENT_QUEUES, false, PAYLOAD_TTL_MS)
  }

  lemma NeverStops(c: Config, x: World, s: Step, w: nat)
    requires !c.stoppable && Enabled(c, x, s) && w < |x.workers|
    requires !x.workers[w].phase.Draining? && !x.workers[w].phase.Parked?
    ensures w < |Do(c, x, s).workers|
    ensures !Do(c, x, s).workers[w].phase.Draining? && !Do(c, x, s).workers[w].phase.Parked?
  {
    if By(s, w) {
      hide Live, NameOf, ListOf, At, RemoveAll, Pop, Push, Produced;
    } else {
      hide Do;
      OthersStay(c, x, s, w);
    }
  }

  /** The experiment worker has no stop signal: it never drains or parks, and
      it only ever peeks at its own queue. */
  lemma {:induction false} ExperimentWorkersNeverPark(c: Config, x: World, steps: seq<Step>, w: nat)
    requires !c.stoppable && Valid(c, x, steps) && w < |x.workers|
    requires !x.workers[w].phase.Draining? && !x.workers[w].phase.Parked?
    ensures w < |After(c, x, steps).workers|
    ensures !After(c, x, steps).workers[w].phase.Draining? && !After(c, x, steps).workers[w].phase.Parked?
    decreases |steps|
  {
    if steps != [] {
      NeverStops(c, x, steps[0], w);
      hide Do, Enabled;
      ExperimentWorkersNeverPark(c, Do(c, x, steps[0]), steps[1..], w);
    }
  }
}
