/** Trade locks: one key per strategy and direction, SET NX PX behind a local
    cache of the locks this instance took. */
module TradeLocks {
  import opened Wrappers
  import opened Redis

  /** Redis, and heldUntil_. */
  datatype Locks = Locks(store: Store, held: map<string, int>)

  const OWNER := "live"

  function LockKey(strategyUuid: string, direction: string): string {
    "LOCK#" + strategyUuid + "#" + direction
  }

  /** One key per strategy and direction: locks of different directions are
      apart, and so are those of different strategies when no direction has a '#'. */
  lemma LockKeysApart(a: string, d: string, b: string, e: string)
    ensures LockKey(a, d) == LockKey(a, e) <==> d == e
    ensures '#' !in d && '#' !in e ==> (LockKey(a, d) == LockKey(b, e) <==> a == b && d == e)
  {
    var k, l := LockKey(a, d), LockKey(b, e);
    assert k == ("LOCK#" + a + "#") + d && k[|k| - |d|..] == d && LockKey(a, e)[|k| - |d|..] == e;
    if '#' !in d && '#' !in e && k == l {
      assert forall j :: |k| - |d| <= j < |k| ==> k[j] == d[j - (|k| - |d|)];
      assert forall j :: |l| - |e| <= j < |l| ==> l[j] == e[j - (|l| - |e|)];
      assert k[|k| - |d| - 1] == '#' && l[|l| - |e| - 1] == '#';
      assert l[|l| - |e|..] == e && k[5..|k| - |d| - 1] == a && l[5..|l| - |e| - 1] == b;
    }
  }

  /** Without that two pairs can meet in one key. */
  lemma HashesMerge()
    ensures LockKey("a", "b#c") == LockKey("a#b", "c")
  {
    assert "b#c" == ['b', '#', 'c'] && "a#b" == ['a', '#', 'b'] && "#" == ['#'];
    assert LockKey("a", "b#c") == "LOCK#" + ['a', '#', 'b', '#', 'c'];
    assert LockKey("a#b", "c") == "LOCK#" + ['a', '#', 'b', '#', 'c'];
  }

  function Acquire(key: string, ttl: nat): Command {
    Put(key, OWNER, NotExists, Some(ttl))
  }

  predicate Cached(s: Locks, key: string) {
    key in s.held && s.store.now < s.held[key]
  }

  /** isThereATradeLock: true means do not trade. */
  function Check(s: Locks, key: string, ttl: nat, w: Weather): (Locks, bool) {
    if Cached(s, key) then (s, true)
    else
      var (store, reply) := Serve(s.store, Acquire(key, ttl), w);
      if reply == Some(Flag(true)) then (Locks(store, s.held[key := s.store.now + ttl]), false)
      else (Locks(store, s.held - {key}), true)
  }

  function Extend(s: Locks, key: string, ttl: nat, w: Weather): (Locks, bool) {
    var (store, reply) := Serve(s.store, Put(key, OWNER, Always, Some(ttl)), w);
    if reply == Some(Flag(true)) then (Locks(store, s.held[key := s.store.now + ttl]), true)
    else (Locks(store, s.held), false)
  }

  function Release(s: Locks, key: string, w: Weather): (Locks, bool) {
    var (store, reply) := Serve(s.store, Del(key), w);
    (Locks(store, s.held - {key}), reply.Some?)
  }

  class TradeLocks {
    const client: Client
    var heldUntil: map<string, int>

    constructor (client: Client)
      ensures this.client == client && heldUntil == map[]
    {
      this.client, this.heldUntil := client, map[];
    }

    function State(): Locks
      reads this, client
    {
      Locks(client.store, heldUntil)
    }

    method IsThereATradeLock(strategyUuid: string, direction: string, ttl: nat) returns (locked: bool)
      modifies this, client
      ensures (State(), locked) == Check(old(State()), LockKey(strategyUuid, direction), ttl, Next(old(client.script)))
      // False: no lock was cached, and the answered SET NX found none in Redis and left one.
      ensures var key, w := LockKey(strategyUuid, direction), Next(old(client.script));
        !locked <==>
          old(key !in heldUntil || heldUntil[key] <= client.store.now)
          && w.fate.Answered? && Find(Arrived(old(client.store), w), key).None?
      ensures var key, w := LockKey(strategyUuid, direction), Next(old(client.script));
        !locked ==>
          && heldUntil == old(heldUntil)[key := old(client.store.now) + ttl]
          && client.store.entries == old(client.store.entries)[key := Entry(Text("live"), Some(old(client.store.now) + w.delay + ttl))]
      // Nothing is sent while the lock is known to be held.
      ensures old(Cached(State(), LockKey(strategyUuid, direction))) ==> client.events == old(client.events)
    {
      var key := LockKey(strategyUuid, direction);
      var now := client.store.now;
      if key in heldUntil {
        if now < heldUntil[key] {
          return true;
        }
        heldUntil := heldUntil - {key};
      }
      assert heldUntil == old(heldUntil) - {key};
      var stored, skipped := client.Run(Acquire(key, ttl));
      if stored.None? {
        return true;
      }
      if stored.value == Flag(true) {
        assert heldUntil[key := now + ttl] == old(heldUntil)[key := now + ttl];
        heldUntil := heldUntil[key := now + ttl];
        return false;
      }
      return true;
    }

    method ExtendLock(strategyUuid: string, direction: string, ttl: nat) returns (extended: bool)
      modifies this, client
      ensures (State(), extended) == Extend(old(State()), LockKey(strategyUuid, direction), ttl, Next(old(client.script)))
      // Answered or not, a SET that took effect runs from its arrival; the cache
      // counts from the call, and only an answered one.
      ensures extended <==> Next(old(client.script)).fate.Answered?
      ensures var key, w := LockKey(strategyUuid, direction), Next(old(client.script));
        && heldUntil == (if extended then old(heldUntil)[key := old(client.store.now) + ttl] else old(heldUntil))
        && client.store.entries ==
           if w.fate.Answered? || w.fate.LostAfter?
           then old(client.store.entries)[key := Entry(Text("live"), Some(old(client.store.now) + w.delay + ttl))]
           else old(client.store.entries)
    {
      var key := LockKey(strategyUuid, direction);
      var now := client.store.now;
      var stored, skipped := client.Run(Put(key, OWNER, Always, Some(ttl)));
      if stored.None? || stored.value != Flag(true) {
        return false;
      }
      heldUntil := heldUntil[key := now + ttl];
      return true;
    }

    method ReleaseLock(strategyUuid: string, direction: string) returns (released: bool)
      modifies this, client
      ensures (State(), released) == Release(old(State()), LockKey(strategyUuid, direction), Next(old(client.script)))
      // Whatever becomes of the DEL, the cache forgets the lock.
      ensures released <==> Next(old(client.script)).fate.Answered?
      ensures var key, w := LockKey(strategyUuid, direction), Next(old(client.script));
        && heldUntil == old(heldUntil) - {key}
        && client.store.entries ==
           old(client.store.entries) - (if w.fate.Answered? || w.fate.LostAfter? then {key} else {})
    {
      var key := LockKey(strategyUuid, direction);
      heldUntil := heldUntil - {key};
      var removed, skipped := client.Run(Del(key));
      return removed.Some?;
    }
  }

  // -- runs ------------------------------------------------------------------------

  /** What this instance does, and what happens around it: time passing and the
      commands of every other client. */
  datatype Act =
    | Checks(key: string, ttl: nat, weather: Weather)
    | Extends(key: string, ttl: nat, weather: Weather)
    | Releases(key: string, weather: Weather)
    | Passes(ms: nat)
    | Others(command: Command)

  function Step(s: Locks, a: Act): (Locks, Option<bool>) {
    match a
    case Checks(key, ttl, w) => var (t, r) := Check(s, key, ttl, w); (t, Some(r))
    case Extends(key, ttl, w) => var (t, r) := Extend(s, key, ttl, w); (t, Some(r))
    case Releases(key, w) => var (t, r) := Release(s, key, w); (t, Some(r))
    case Passes(ms) => (s.(store := s.store.(now := s.store.now + ms)), None)
    case Others(c) => (s.(store := Apply(s.store, c).0), None)
  }

  function RunAll(s: Locks, acts: seq<Act>): (Locks, seq<Option<bool>>)
    decreases |acts|
  {
    if acts == [] then (s, [])
    else
      var (t, answer) := Step(s, acts[0]);
      var (u, answers) := RunAll(t, acts[1..]);
      (u, [answer] + answers)
  }

  /** The entry under `key` expires no earlier than `until`. */
  predicate Lasts(s: Store, key: string, until: int) {
    key in s.entries && (s.entries[key].expiry.Some? ==> until <= s.entries[key].expiry.value)
  }

  /** The cache never outlives Redis. */
  ghost predicate CacheInv(s: Locks) {
    forall key :: Cached(s, key) ==> Lasts(s.store, key, s.held[key])
  }

  /** A live key is neither deleted nor shortened. */
  predicate Spares(key: string, before: Store, after: Store) {
    Find(before, key).Some? ==>
      && key in after.entries
      && (after.entries[key].expiry.Some? ==>
            before.entries[key].expiry.Some? && before.entries[key].expiry.value <= after.entries[key].expiry.value)
  }

  /** Other clients spare the locks this instance holds, and no extension that
      fails after taking effect cuts a lock short. */
  ghost predicate Gentle(s: Locks, a: Act) {
    match a
    case Others(c) => forall key :: Cached(s, key) ==> Spares(key, s.store, Apply(s.store, c).0)
    case Extends(key, ttl, w) => w.fate.LostAfter? && Cached(s, key) ==> Spares(key, s.store, Extend(s, key, ttl, w).0.store)
    case _ => true
  }

  ghost predicate GentleRun(s: Locks, acts: seq<Act>)
    decreases |acts|
  {
    acts == [] || (Gentle(s, acts[0]) && GentleRun(Step(s, acts[0]).0, acts[1..]))
  }

  lemma LastingIsLive(s: Store, key: string, until: int)
    requires Lasts(s, key, until) && s.now < until
    ensures Find(s, key).Some?
  {
  }

  lemma StepKeepsCache(s: Locks, a: Act)
    requires CacheInv(s) && Gentle(s, a)
    ensures CacheInv(Step(s, a).0)
  {
    var t := Step(s, a).0;
    forall key | Cached(t, key) ensures Lasts(t.store, key, t.held[key]) {
      if a.Checks? {
        CheckKeepsLock(s, a.key, a.ttl, a.weather, key);
      } else if Cached(s, key) {
        assert Lasts(s.store, key, s.held[key]);
        LastingIsLive(s.store, key, s.held[key]);
      }
    }
  }

  lemma CheckKeepsLock(s: Locks, key: string, ttl: nat, w: Weather, other: string)
    requires CacheInv(s) && Cached(Check(s, key, ttl, w).0, other)
    ensures Lasts(Check(s, key, ttl, w).0.store, other, Check(s, key, ttl, w).0.held[other])
  {
    if other != key {
      assert Cached(s, other);
    }
  }

  /** Whether an extension keeps the cache honest, exactly: it does not when it
      took effect unheard and its new expiry is before the cached one. */
  lemma ExtendKeepsCacheExactly(s: Locks, key: string, ttl: nat, w: Weather)
    requires CacheInv(s)
    ensures var at := s.store.now + w.delay;
      CacheInv(Extend(s, key, ttl, w).0)
      <==> !(w.fate.LostAfter? && key in s.held && at < s.held[key] && at + ttl < s.held[key])
  {
    var t := Extend(s, key, ttl, w).0;
    forall other | other != key && Cached(t, other) ensures Lasts(t.store, other, t.held[other]) {
      assert Cached(s, other);
    }
    if w.fate.LostAfter? && Cached(t, key) {
      assert Lasts(t.store, key, t.held[key]) <==> t.held[key] <= s.store.now + w.delay + ttl;
    } else if Cached(t, key) && Cached(s, key) {
      assert Lasts(s.store, key, s.held[key]);
    }
    assert CacheInv(t) ==> (Cached(t, key) ==> Lasts(t.store, key, t.held[key]));
  }

  /** An ambiguous extension breaks the cache: 30 s were held, the extension to
      1 s took effect without an answer, and after 2 s the cache still says
      locked while SET NX would succeed. */
  lemma AmbiguousExtendCutsShort(key: string)
    ensures var s := Locks(Store(map[key := Entry(Text(OWNER), Some(30000))], 0), map[key := 30000]);
      var t := RunAll(s, [Extends(key, 1000, Weather(0, LostAfter)), Passes(2000)]).0;
      CacheInv(s) && Cached(t, key) && !CacheInv(t) && Check(t, key, 30000, Weather(0, Answered)).1
      && Serve(t.store, Acquire(key, 30000), Weather(0, Answered)).1 == Some(Flag(true))
  {
    var s := Locks(Store(map[key := Entry(Text(OWNER), Some(30000))], 0), map[key := 30000]);
    var a1, a2 := Extends(key, 1000, Weather(0, LostAfter)), Passes(2000);
    var s1 := Step(s, a1).0;
    var s2 := Step(s1, a2).0;
    assert [a1, a2][1..] == [a2] && [a2][1..] == [];
    assert RunAll(s2, []).0 == s2 && RunAll(s1, [a2]).0 == s2;
    assert Cached(s2, key) && !Lasts(s2.store, key, 30000);
  }

  // -- the cache answers as SET NX would -----------------------------------------------

  /** The class without the cache. */
  function BareStep(store: Store, a: Act): (Store, Option<bool>) {
    match a
    case Checks(key, ttl, w) =>
      var (after, reply) := Serve(store, Acquire(key, ttl), w);
      (after, Some(reply != Some(Flag(true))))
    case Extends(key, ttl, w) =>
      var (after, reply) := Serve(store, Put(key, OWNER, Always, Some(ttl)), w);
      (after, Some(reply == Some(Flag(true))))
    case Releases(key, w) =>
      var (after, reply) := Serve(store, Del(key), w);
      (after, Some(reply.Some?))
    case Passes(ms) => (store.(now := store.now + ms), None)
    case Others(c) => (Apply(store, c).0, None)
  }

  function BareRun(store: Store, acts: seq<Act>): (Store, seq<Option<bool>>)
    decreases |acts|
  {
    if acts == [] then (store, [])
    else
      var (after, answer) := BareStep(store, acts[0]);
      var (last, answers) := BareRun(after, acts[1..]);
      (last, [answer] + answers)
  }

  /** A check answered from the cache costs no time: the bare class is given an
      immediate answer there. */
  function Prompt(s: Locks, a: Act): Act {
    if a.Checks? && Cached(s, a.key) then Checks(a.key, a.ttl, Weather(0, Answered)) else a
  }

  function PromptRun(s: Locks, acts: seq<Act>): seq<Act>
    decreases |acts|
  {
    if acts == [] then [] else [Prompt(s, acts[0])] + PromptRun(Step(s, acts[0]).0, acts[1..])
  }

  lemma StepIsBare(s: Locks, a: Act)
    requires CacheInv(s)
    ensures BareStep(s.store, Prompt(s, a)) == (Step(s, a).0.store, Step(s, a).1)
  {
    if a.Checks? && Cached(s, a.key) {
      LastingIsLive(s.store, a.key, s.held[a.key]);
    }
  }

  /** Over every gentle run the cached class leaves the same Redis and gives the
      same answers as the class that asks every time. */
  lemma {:induction false} CacheIsInvisible(s: Locks, acts: seq<Act>)
    requires CacheInv(s) && GentleRun(s, acts)
    ensures |PromptRun(s, acts)| == |acts|
    ensures BareRun(s.store, PromptRun(s, acts)) == (RunAll(s, acts).0.store, RunAll(s, acts).1)
    decreases |acts|
  {
    if acts != [] {
      StepIsBare(s, acts[0]);
      StepKeepsCache(s, acts[0]);
      hide Step, BareStep, Prompt, CacheInv;
      CacheIsInvisible(Step(s, acts[0]).0, acts[1..]);
      assert PromptRun(s, acts)[1..] == PromptRun(Step(s, acts[0]).0, acts[1..]);
    }
  }

  /** Under the same weather the two differ in one case only: the cache still
      holds, and the key runs out while an answered SET NX is on its way. */
  lemma CacheDiffersExactly(s: Locks, key: string, ttl: nat, w: Weather)
    requires CacheInv(s)
    ensures Some(Check(s, key, ttl, w).1) != BareStep(s.store, Checks(key, ttl, w)).1
      <==> Cached(s, key) && w.fate.Answered? && Find(Arrived(s.store, w), key).None?
  {
  }

  // -- grants -----------------------------------------------------------------------

  /** Whatever other clients do, false comes only from a SET NX of this very
      call that found no live lock and left one for the whole ttl. */
  lemma FalseMeansAcquired(s: Locks, key: string, ttl: nat, w: Weather)
    ensures !Check(s, key, ttl, w).1 <==>
      !Cached(s, key) && w.fate.Answered? && Find(Arrived(s.store, w), key).None?
    ensures !Check(s, key, ttl, w).1 ==>
      Lasts(Check(s, key, ttl, w).0.store, key, s.store.now + w.delay + ttl)
      && Check(s, key, ttl, w).0.store.entries[key].expiry.Some?
  {
  }

  ghost predicate SparesRun(s: Locks, acts: seq<Act>, key: string)
    decreases |acts|
  {
    acts == [] || (Spares(key, s.store, Step(s, acts[0]).0.store) && SparesRun(Step(s, acts[0]).0, acts[1..], key))
  }

  lemma {:induction false} SparedKeysLast(s: Locks, acts: seq<Act>, key: string, until: int)
    requires Lasts(s.store, key, until) && SparesRun(s, acts, key)
    ensures Lasts(RunAll(s, acts).0.store, key, until) || until <= RunAll(s, acts).0.store.now
    decreases |acts|
  {
    if acts != [] {
      var t := Step(s, acts[0]).0;
      if s.store.now < until {
        LastingIsLive(s.store, key, until);
        assert Lasts(t.store, key, until);
        hide Step;
        SparedKeysLast(t, acts[1..], key, until);
      } else {
        ClockOnlyAdvances(s, acts);
      }
    }
  }

  lemma {:induction false} ClockOnlyAdvances(s: Locks, acts: seq<Act>)
    ensures s.store.now <= RunAll(s, acts).0.store.now
    decreases |acts|
  {
    if acts != [] {
      assert s.store.now <= Step(s, acts[0]).0.store.now;
      ClockOnlyAdvances(Step(s, acts[0]).0, acts[1..]);
    }
  }

  /** Two grants of one key, to this instance or seen by it, are separated: by
      the first lock's whole ttl, unless in between somebody deleted the key or
      cut it short. No assumption on the other clients. */
  lemma GrantsAreSeparated(s: Locks, key: string, ttl: nat, w: Weather, acts: seq<Act>, ttl': nat, w': Weather)
    requires !Check(s, key, ttl, w).1
    requires !Check(RunAll(Check(s, key, ttl, w).0, acts).0, key, ttl', w').1
    requires SparesRun(Check(s, key, ttl, w).0, acts, key)
    ensures s.store.now + w.delay + ttl <= RunAll(Check(s, key, ttl, w).0, acts).0.store.now + w'.delay
  {
    FalseMeansAcquired(s, key, ttl, w);
    var t := Check(s, key, ttl, w).0;
    var until := s.store.now + w.delay + ttl;
    SparedKeysLast(t, acts, key, until);
    FalseMeansAcquired(RunAll(t, acts).0, key, ttl', w');
  }
}
