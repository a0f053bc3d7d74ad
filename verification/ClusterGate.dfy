/** The cluster entry gate. One worker's check is an automaton fed by Redis
    replies; isClusterBlocked is shown to run exactly that automaton. */
module ClusterGate {
  import opened Wrappers
  import opened ClusterRules
  import opened ClusterMembers

  datatype Tables = Tables(groups: map<string, seq<string>>, rules: map<string, Rule>) {
    function Groups(symbol: string): seq<string> {
      GroupsOf(groups, symbol)
    }
    function Limit(c: string): int {
      LimitOf(rules, c)
    }
    predicate Strict(c: string) {
      StrictIn(rules, c)
    }
  }

  /** SET NX PX on CLUSTER_LOCK#, SMEMBERS on CG#, SET PX on CLUSTER_LOCK#. */
  datatype Command = TryLock(cluster: string) | ReadSet(cluster: string) | ArmLock(cluster: string)

  /** Failed covers an error reply, a timeout and a breaker-skipped call alike. */
  datatype Reply = Failed | Stored(ok: bool) | Listed(members: seq<string>)

  datatype Exchange = Exchange(command: Command, reply: Reply)

  datatype Gate = Locking(k: nat) | Reading(k: nat) | Decided(blocked: bool)

  function GateStart(groups: seq<string>): Gate {
    if groups == [] then Decided(true) else Locking(0)
  }

  predicate GateFits(groups: seq<string>, g: Gate) {
    match g
    case Locking(k) => k < |groups|
    case Reading(k) => k < |groups|
    case Decided(_) => false
  }

  function GateCommand(groups: seq<string>, g: Gate): Command
    requires GateFits(groups, g)
  {
    if g.Locking? then TryLock(groups[g.k]) else ReadSet(groups[g.k])
  }

  predicate Admits(t: Tables, symbol: string, strategyName: string, cluster: string, reply: Reply) {
    && reply.Listed?
    && VerdictOn(reply.members, symbol, strategyName, t.Limit(cluster), t.Strict(cluster)) == Allowed
  }

  function GateNext(t: Tables, symbol: string, strategyName: string, g: Gate, reply: Reply): Gate
    requires GateFits(t.Groups(symbol), g)
  {
    var groups := t.Groups(symbol);
    var last := g.k + 1 == |groups|;
    match g
    case Locking(k) =>
      if reply != Stored(true) then Decided(true) else if last then Reading(0) else Locking(k + 1)
    case Reading(k) =>
      if !Admits(t, symbol, strategyName, groups[k], reply) then Decided(true)
      else if last then Decided(false) else Reading(k + 1)
  }

  /** Where the automaton stands after a log of exchanges; None when the log is
      not one it could have produced. */
  function Replay(t: Tables, symbol: string, strategyName: string, log: seq<Exchange>): Option<Gate> {
    if log == [] then Some(GateStart(t.Groups(symbol)))
    else
      var before := Replay(t, symbol, strategyName, log[..|log| - 1]);
      var x := log[|log| - 1];
      if before.Some? && GateFits(t.Groups(symbol), before.value)
         && x.command == GateCommand(t.Groups(symbol), before.value)
      then Some(GateNext(t, symbol, strategyName, before.value, x.reply))
      else None
  }

  /** The connection: any reply may come back for any command. */
  class Channel {
    var log: seq<Exchange>

    constructor ()
      ensures log == []
    {
      log := [];
    }

    method Run(command: Command) returns (reply: Reply)
      modifies this
      ensures log == old(log) + [Exchange(command, reply)]
    {
      reply := *;
      log := log + [Exchange(command, reply)];
    }
  }

  class PositionClustering {
    const tables: Tables
    const channel: Channel

    constructor (tables: Tables, channel: Channel)
      ensures this.tables == tables && this.channel == channel
    {
      this.tables := tables;
      this.channel := channel;
    }

    method IsClusterBlocked(symbol: string, strategyName: string) returns (blocked: bool)
      requires channel.log == []
      modifies channel
      ensures Replay(tables, symbol, strategyName, channel.log) == Some(Decided(blocked))
    {
      var groups := tables.Groups(symbol);
      if groups == [] {
        return true;
      }
      for k := 0 to |groups|
        invariant Replay(tables, symbol, strategyName, channel.log)
               == Some(if k < |groups| then Locking(k) else Reading(0))
      {
        var stored := channel.Run(TryLock(groups[k]));
        Extended(channel.log);
        if stored != Stored(true) {
          return true;
        }
      }
      for k := 0 to |groups|
        invariant Replay(tables, symbol, strategyName, channel.log)
               == Some(if k < |groups| then Reading(k) else Decided(false))
      {
        var members := channel.Run(ReadSet(groups[k]));
        Extended(channel.log);
        if !members.Listed? {
          return true;
        }
        var verdict := EvaluateClusterGroup(members.members, symbol, strategyName,
                                            tables.Limit(groups[k]), tables.Strict(groups[k]));
        if verdict != Allowed {
          return true;
        }
      }
      return false;
    }

    /** One unconditional SET per cluster of the symbol, whatever the replies. */
    method MarkOpened(symbol: string)
      modifies channel
      ensures |channel.log| == |old(channel.log)| + |tables.Groups(symbol)|
      ensures old(channel.log) <= channel.log
      ensures forall k :: 0 <= k < |tables.Groups(symbol)| ==>
        channel.log[|old(channel.log)| + k].command == ArmLock(tables.Groups(symbol)[k])
    {
      var groups := tables.Groups(symbol);
      for k := 0 to |groups|
        invariant |channel.log| == |old(channel.log)| + k
        invariant old(channel.log) <= channel.log
        invariant forall i :: 0 <= i < k ==> channel.log[|old(channel.log)| + i].command == ArmLock(groups[i])
      {
        var _ := channel.Run(ArmLock(groups[k]));
      }
    }
  }

  lemma Extended(log: seq<Exchange>)
    requires log != []
    ensures log[..|log| - 1] + [log[|log| - 1]] == log
  {
  }

  /** The reply with which the gate may pass its k-th exchange. */
  predicate PassingExchange(t: Tables, symbol: string, strategyName: string, k: nat, x: Exchange) {
    var groups := t.Groups(symbol);
    if k < |groups| then x == Exchange(TryLock(groups[k]), Stored(true))
    else
      && k < 2 * |groups|
      && x.command == ReadSet(groups[k - |groups|])
      && Admits(t, symbol, strategyName, groups[k - |groups|], x.reply)
  }

  /** isClusterBlocked answers false exactly when the symbol is mapped, this
      call itself set every lock, and every cluster's verdict was Allowed. */
  lemma {:induction false} PassMeansLockedAndAllowed(t: Tables, symbol: string, strategyName: string, log: seq<Exchange>)
    ensures Replay(t, symbol, strategyName, log) == Some(Decided(false))
      <==> (t.Groups(symbol) != [] && |log| == 2 * |t.Groups(symbol)|
            && forall k :: 0 <= k < |log| ==> PassingExchange(t, symbol, strategyName, k, log[k]))
  {
    var n := |t.Groups(symbol)|;
    ReplayPassing(t, symbol, strategyName, log);
    if n > 0 && |log| == 2 * n && forall k :: 0 <= k < |log| ==> PassingExchange(t, symbol, strategyName, k, log[k]) {
      PassingReplays(t, symbol, strategyName, log);
    }
  }

  function GateAt(n: nat, k: nat): Gate
    requires 0 < n && k <= 2 * n
  {
    if k < n then Locking(k) else if k < 2 * n then Reading(k - n) else Decided(false)
  }

  lemma {:induction false} ReplayPassing(t: Tables, symbol: string, strategyName: string, log: seq<Exchange>)
    ensures var at := Replay(t, symbol, strategyName, log); var n := |t.Groups(symbol)|;
      at.Some? && at != Some(Decided(true)) ==>
        0 < n && |log| <= 2 * n && at == Some(GateAt(n, |log|))
        && forall k :: 0 <= k < |log| ==> PassingExchange(t, symbol, strategyName, k, log[k])
  {
    if log != [] {
      ReplayPassing(t, symbol, strategyName, log[..|log| - 1]);
      Extended(log);
    }
  }

  lemma {:induction false} PassingReplays(t: Tables, symbol: string, strategyName: string, log: seq<Exchange>)
    requires 0 < |t.Groups(symbol)| && |log| <= 2 * |t.Groups(symbol)|
    requires forall k :: 0 <= k < |log| ==> PassingExchange(t, symbol, strategyName, k, log[k])
    ensures Replay(t, symbol, strategyName, log) == Some(GateAt(|t.Groups(symbol)|, |log|))
  {
    if log != [] {
      PassingReplays(t, symbol, strategyName, log[..|log| - 1]);
      assert PassingExchange(t, symbol, strategyName, |log| - 1, log[|log| - 1]);
    }
  }
}
