/** The position producer's rebuild of the CG# sets: temp key, RENAME, expire. */
module ClusterSync {
  import opened Wrappers
  import opened StringOrder
  import opened ClusterMembers
  import opened Redis

  function SetKey(cluster: string): string {
    "CG#" + cluster
  }

  function TempKey(cluster: string, nonce: string): string {
    "temp_CG#" + cluster + "#" + nonce
  }

  lemma KeysDistinct(a: string, b: string, nonce: string)
    ensures SetKey(a) != TempKey(b, nonce)
    ensures SetKey(a) == SetKey(b) ==> a == b
    ensures TempKey(a, nonce) == TempKey(b, nonce) ==> a == b
  {
    assert SetKey(a)[0] == 'C' && TempKey(b, nonce)[0] == 't';
    assert SetKey(a)[3..] == a && SetKey(b)[3..] == b;
    assert TempKey(a, nonce)[8..|TempKey(a, nonce)| - 1 - |nonce|] == a;
    assert TempKey(b, nonce)[8..|TempKey(b, nonce)| - 1 - |nonce|] == b;
  }

  function EntryAt(s: Store, key: string): Option<Entry> {
    if key in s.entries then Some(s.entries[key]) else None
  }

  /** What an interrupted sync left under the temp key. */
  function Leftover(s: Store, temp: string): set<string> {
    match Find(s, temp)
    case Some(SetOf(held)) => held
    case _ => {}
  }

  /** Only this process writes its temp keys: sets, without an expiry. */
  ghost predicate TempIsSet(s: Store, temp: string) {
    temp in s.entries ==> s.entries[temp].value.SetOf? && s.entries[temp].expiry.None?
  }

  /** CG#c as it was before the sync, or holding the complete new set. */
  ghost predicate OldOrComplete(before: Store, now: Store, key: string, complete: set<string>) {
    || EntryAt(now, key) == EntryAt(before, key)
    || (key in now.entries && now.entries[key].value == SetOf(complete))
  }

  /** Everything but the two keys of the cluster stays as it was. */
  ghost predicate Frame(before: Store, now: Store, key: string, temp: string) {
    forall k :: k != key && k != temp ==> EntryAt(now, k) == EntryAt(before, k)
  }

  /** A command that reached the temp key only. */
  ghost predicate OnlyTemp(before: Store, after: Store, temp: string) {
    forall k :: k != temp ==> EntryAt(after, k) == EntryAt(before, k)
  }

  lemma DelServed(s: Store, temp: string, w: Weather)
    requires TempIsSet(s, temp)
    ensures var (after, reply) := Serve(s, Del(temp), w);
      && OnlyTemp(s, after, temp) && TempIsSet(after, temp)
      && (reply.Some? <==> w.fate.Answered?)
      && (reply.Some? ==> Leftover(after, temp) == {})
      && (w.fate.Skipped? ==> Leftover(after, temp) == Leftover(s, temp))
  {
  }

  lemma SAddServed(s: Store, temp: string, member: string, w: Weather)
    requires TempIsSet(s, temp)
    ensures var (after, reply) := Serve(s, SAdd(temp, member), w);
      && OnlyTemp(s, after, temp) && TempIsSet(after, temp)
      && (reply.Some? <==> w.fate.Answered?)
      && (reply.Some? ==> temp in after.entries && Leftover(after, temp) == Leftover(s, temp) + {member})
  {
  }

  lemma RenameServed(s: Store, temp: string, key: string, w: Weather)
    requires TempIsSet(s, temp) && temp in s.entries && key != temp
    ensures var (after, reply) := Serve(s, Rename(temp, key), w);
      && Find(Arrived(s, w), temp) == Some(SetOf(Leftover(s, temp)))
      && Frame(s, after, key, temp) && TempIsSet(after, temp)
      && OldOrComplete(s, after, key, Leftover(s, temp))
      && (reply.Some? <==> w.fate.Answered?)
      && (reply.Some? ==> EntryAt(after, key) == Some(Entry(SetOf(Leftover(s, temp)), None)))
  {
  }

  lemma PExpireServed(s: Store, key: string, members: set<string>, ttl: nat, w: Weather)
    requires EntryAt(s, key) == Some(Entry(SetOf(members), None))
    ensures var (after, reply) := Serve(s, PExpire(key, ttl), w);
      && OnlyTemp(s, after, key) && key in after.entries && after.entries[key].value == SetOf(members)
      && (reply.Some? <==> w.fate.Answered?)
      && (reply.Some? ==> EntryAt(after, key) == Some(Entry(SetOf(members), Some(after.now + ttl))))
  {
  }

  /** A command that does not stop the sync: answered, or a clearing DEL that the
      breaker skipped. */
  predicate Tolerated(e: Event) {
    e.weather.fate.Answered? || (e.weather.fate.Skipped? && e.command.Del?)
  }

  ghost predicate AllTolerated(events: seq<Event>, from: nat) {
    forall i :: from <= i < |events| ==> Tolerated(events[i])
  }

  ghost predicate Quiet(e: Event, before: Store, temp: string) {
    OnlyTemp(before, e.after, temp) && !e.command.Rename?
  }

  /** RENAME never finds its source missing: it is there, and complete. */
  ghost predicate Sound(e: Event, before: Store, key: string, temp: string, complete: set<string>) {
    && Frame(before, e.after, key, temp)
    && OldOrComplete(before, e.after, key, complete)
    && (e.command.Rename? ==> Find(Arrived(e.before, e.weather), e.command.key) == Some(SetOf(complete)))
  }

  /** The new set of a cluster, give or take what a skipped DEL left behind. */
  ghost predicate Rebuilt(before: Store, s: Store, key: string, temp: string, values: set<string>) {
    && key in s.entries && s.entries[key].value.SetOf?
    && values <= s.entries[key].value.members <= values + Leftover(before, temp)
  }

  ghost predicate OldOrRebuilt(before: Store, s: Store, key: string, temp: string, values: set<string>) {
    EntryAt(s, key) == EntryAt(before, key) || Rebuilt(before, s, key, temp, values)
  }

  /** A sync in progress, seen from its start: what it rebuilds, and how far
      the store has come. */
  datatype Sync = Sync(before: Store, nonce: string, members: seq<Deal>, lookup: map<string, seq<string>>) {
    function New(c: string): set<string> {
      RenderedIn(members, lookup, c)
    }

    ghost predicate Untouched(s: Store, c: string) {
      EntryAt(s, SetKey(c)) == EntryAt(before, SetKey(c)) && EntryAt(s, TempKey(c, nonce)) == EntryAt(before, TempKey(c, nonce))
    }

    ghost predicate Consistent(s: Store, c: string) {
      OldOrRebuilt(before, s, SetKey(c), TempKey(c, nonce), New(c))
    }

    ghost predicate Synced(s: Store, c: string) {
      Rebuilt(before, s, SetKey(c), TempKey(c, nonce), New(c)) && s.entries[SetKey(c)].expiry.Some?
    }

    ghost predicate TempsAreSets(s: Store) {
      forall c :: TempIsSet(s, TempKey(c, nonce))
    }

    ghost predicate AllConsistent(s: Store) {
      forall c :: Consistent(s, c)
    }

    /** The clusters of `todo` are still to be swapped; as long as `ok`, those of
        `all` already swapped are synced. */
    ghost predicate Progress(s: Store, todo: set<string>, all: set<string>, ok: bool) {
      && TempsAreSets(s) && AllConsistent(s)
      && (forall c :: c in todo || c !in all ==> Untouched(s, c))
      && (ok ==> forall c :: c in all && c !in todo ==> Synced(s, c))
    }

    /** A swap of c moves no other cluster. */
    lemma OthersCarried(at: Store, s: Store, c: string, b: string)
      requires Frame(at, s, SetKey(c), TempKey(c, nonce)) && b != c
      ensures EntryAt(s, SetKey(b)) == EntryAt(at, SetKey(b)) && EntryAt(s, TempKey(b, nonce)) == EntryAt(at, TempKey(b, nonce))
    {
      KeysDistinct(b, c, nonce);
      KeysDistinct(c, b, nonce);
    }

    lemma SwapKeepsConsistent(at: Store, s: Store, c: string, complete: set<string>)
      requires AllConsistent(at) && Untouched(at, c) && Frame(at, s, SetKey(c), TempKey(c, nonce))
      requires OldOrComplete(at, s, SetKey(c), complete)
      requires New(c) <= complete <= New(c) + Leftover(before, TempKey(c, nonce))
      ensures AllConsistent(s)
    {
      forall b ensures Consistent(s, b) {
        if b != c {
          OthersCarried(at, s, c, b);
          assert Consistent(at, b);
        }
      }
    }

    lemma SwapKeepsTemps(at: Store, s: Store, c: string)
      requires TempsAreSets(at) && Frame(at, s, SetKey(c), TempKey(c, nonce)) && TempIsSet(s, TempKey(c, nonce))
      ensures TempsAreSets(s)
    {
      forall b ensures TempIsSet(s, TempKey(b, nonce)) {
        if b != c {
          OthersCarried(at, s, c, b);
          assert TempIsSet(at, TempKey(b, nonce));
        }
      }
    }
  }

  lemma ToleratedTogether(before: seq<Event>, events: seq<Event>, from: nat)
    requires from <= |before| && before <= events
    ensures AllTolerated(events, from) <==> AllTolerated(before, from) && AllTolerated(events, |before|)
  {
    assert forall i :: from <= i < |before| ==> before[i] == events[i];
    if AllTolerated(before, from) && AllTolerated(events, |before|) {
      assert forall i :: from <= i < |events| ==> i < |before| || Tolerated(events[i]);
    }
  }

  class Producer {
    const client: Client
    const nonce: string
    const ttl: nat

    constructor (client: Client, nonce: string, ttl: nat)
      ensures this.client == client && this.nonce == nonce && this.ttl == ttl
    {
      this.client := client;
      this.nonce := nonce;
      this.ttl := ttl;
    }

    /** Clear the temp key and SADD every value into it. */
    method FillTemp(temp: string, values: seq<string>) returns (filled: bool)
      requires values != [] && TempIsSet(client.store, temp)
      modifies client
      ensures OnlyTemp(old(client.store), client.store, temp) && TempIsSet(client.store, temp)
      ensures old(client.events) <= client.events
      ensures forall i :: |old(client.events)| <= i < |client.events| ==> Quiet(client.events[i], old(client.store), temp)
      ensures filled <==> AllTolerated(client.events, |old(client.events)|)
      ensures filled ==> temp in client.store.entries
      ensures filled ==>
        Leftover(client.store, temp)
        == Elements(values) + (if Next(old(client.script)).fate.Skipped? then Leftover(old(client.store), temp) else {})
    {
      DelServed(client.store, temp, Next(client.script));
      var cleared, skipped := client.Run(Del(temp));
      ghost var first := |client.events| - 1;
      if cleared.None? && !skipped {
        assert !Tolerated(client.events[first]);
        return false;
      }
      ghost var before := client.events;
      filled := AddAll(temp, values);
      if !filled {
        ghost var k :| |before| <= k < |client.events| && !Tolerated(client.events[k]);
        DelServed(client.store, temp, Next(client.script));
        var _, _ := client.Run(Del(temp));
        assert !Tolerated(client.events[k]);
      }
    }

    method AddAll(temp: string, values: seq<string>) returns (filled: bool)
      requires values != [] && TempIsSet(client.store, temp)
      modifies client
      ensures OnlyTemp(old(client.store), client.store, temp) && TempIsSet(client.store, temp)
      ensures old(client.events) <= client.events
      ensures forall i :: |old(client.events)| <= i < |client.events| ==> Quiet(client.events[i], old(client.store), temp)
      ensures filled <==> AllTolerated(client.events, |old(client.events)|)
      ensures filled ==> temp in client.store.entries
      ensures filled ==> Leftover(client.store, temp) == Elements(values) + Leftover(old(client.store), temp)
    {
      for i := 0 to |values|
        invariant OnlyTemp(old(client.store), client.store, temp) && TempIsSet(client.store, temp)
        invariant Leftover(client.store, temp) == Elements(values[..i]) + Leftover(old(client.store), temp)
        invariant i > 0 ==> temp in client.store.entries
        invariant old(client.events) <= client.events && AllTolerated(client.events, |old(client.events)|)
        invariant forall k :: |old(client.events)| <= k < |client.events| ==> Quiet(client.events[k], old(client.store), temp)
      {
        assert values[..i + 1] == values[..i] + [values[i]];
        assert Elements(values[..i + 1]) == Elements(values[..i]) + {values[i]};
        SAddServed(client.store, temp, values[i], Next(client.script));
        var added, _ := client.Run(SAdd(temp, values[i]));
        if added.None? {
          assert !Tolerated(client.events[|client.events| - 1]);
          return false;
        }
      }
      assert values[..|values|] == values;
      return true;
    }

    /** One cluster of syncAllClusters. The set ends up complete exactly when
        the clearing DEL was not skipped by the breaker, or what it should have
        cleared is in the new set anyway. */
    method SwapCluster(cluster: string, values: seq<string>) returns (synced: bool)
      requires values != [] && TempIsSet(client.store, TempKey(cluster, nonce))
      modifies client
      ensures Frame(old(client.store), client.store, SetKey(cluster), TempKey(cluster, nonce))
      ensures TempIsSet(client.store, TempKey(cluster, nonce))
      ensures old(client.events) <= client.events
      // It fails only by a command that was not answered.
      ensures synced <==> AllTolerated(client.events, |old(client.events)|)
      ensures OldOrComplete(old(client.store), client.store, SetKey(cluster),
        Elements(values) + (if Next(old(client.script)).fate.Skipped? then Leftover(old(client.store), TempKey(cluster, nonce)) else {}))
      ensures var stale := if Next(old(client.script)).fate.Skipped?
                           then Leftover(old(client.store), TempKey(cluster, nonce)) else {};
        && (forall i :: |old(client.events)| <= i < |client.events| ==>
              Sound(client.events[i], old(client.store), SetKey(cluster), TempKey(cluster, nonce), Elements(values) + stale))
        && (synced ==>
              EntryAt(client.store, SetKey(cluster))
              == Some(Entry(SetOf(Elements(values) + stale), Some(client.store.now + ttl))))
      ensures synced ==>
        (client.store.entries[SetKey(cluster)].value == SetOf(Elements(values))
         <==> !Next(old(client.script)).fate.Skipped?
              || Leftover(old(client.store), TempKey(cluster, nonce)) <= Elements(values))
    {
      var key, temp := SetKey(cluster), TempKey(cluster, nonce);
      KeysDistinct(cluster, cluster, nonce);
      ghost var before := client.store;
      var filled := FillTemp(temp, values);
      if !filled {
        return false;
      }
      ghost var complete := Leftover(client.store, temp);
      RenameServed(client.store, temp, key, Next(client.script));
      var renamed, _ := client.Run(Rename(temp, key));
      if renamed.None? {
        assert !Tolerated(client.events[|client.events| - 1]);
        return false;
      }
      PExpireServed(client.store, key, complete, ttl, Next(client.script));
      var expired, _ := client.Run(PExpire(key, ttl));
      assert Tolerated(client.events[|client.events| - 1]) <==> expired.Some?;
      return expired.Some?;
    }

    /** The whole sync. At every command of it each CG# key holds its previous
        value or its new set, clusters without a member are not touched, and a
        true result means every cluster with a member was swapped and expires.
        With no leftovers the new sets are exactly the grouped members. */
    method SyncAllClusters(members: seq<Deal>, lookup: map<string, seq<string>>) returns (allSynced: bool)
      requires Sync(client.store, nonce, members, lookup).TempsAreSets(client.store)
      modifies client
      ensures old(client.events) <= client.events
      ensures allSynced <==> AllTolerated(client.events, |old(client.events)|)
      ensures var sync := Sync(old(client.store), nonce, members, lookup);
        && (forall i :: |old(client.events)| <= i < |client.events| ==> sync.AllConsistent(client.events[i].after))
        && (forall c :: sync.New(c) == {} ==> sync.Untouched(client.store, c))
        && (allSynced ==> forall c :: sync.New(c) != {} ==> sync.Synced(client.store, c))
    {
      var clusters := GroupMembersByCluster(members, lookup);
      ghost var sync := Sync(client.store, nonce, members, lookup);
      ghost var mark := |client.events|;
      allSynced := true;
      var todo := clusters.Keys;
      while todo != {}
        invariant todo <= clusters.Keys && old(client.events) <= client.events
        invariant sync.Progress(client.store, todo, clusters.Keys, allSynced)
        invariant allSynced <==> AllTolerated(client.events, mark)
        invariant forall i :: mark <= i < |client.events| ==> sync.AllConsistent(client.events[i].after)
        decreases todo
      {
        var c :| c in todo;
        ghost var before := client.events;
        allSynced := SwapNext(sync, c, clusters[c], todo, clusters.Keys, allSynced);
        ToleratedTogether(before, client.events, mark);
        todo := todo - {c};
      }
      assert sync.Progress(client.store, {}, clusters.Keys, allSynced);
    }

    /** One turn of the loop, seen from the whole sync. */
    method SwapNext(ghost sync: Sync, c: string, values: seq<string>, ghost todo: set<string>, ghost all: set<string>, soFar: bool)
      returns (allSynced: bool)
      requires sync.nonce == nonce && sync.Progress(client.store, todo, all, soFar) && c in todo && c in all
      requires Elements(values) == sync.New(c) && sync.New(c) != {}
      modifies client
      ensures sync.Progress(client.store, todo - {c}, all, allSynced)
      ensures allSynced <==> soFar && AllTolerated(client.events, |old(client.events)|)
      ensures old(client.events) <= client.events
      ensures forall i :: |old(client.events)| <= i < |client.events| ==> sync.AllConsistent(client.events[i].after)
    {
      ghost var at, fate := client.store, Next(client.script).fate;
      NoElements(values);
      var synced := SwapCluster(c, values);
      ghost var complete := sync.New(c) + (if fate.Skipped? then Leftover(at, TempKey(c, nonce)) else {});
      forall i | |old(client.events)| <= i < |client.events| ensures sync.AllConsistent(client.events[i].after) {
        SyncConsistent(sync, at, client.events[i].after, c, complete);
      }
      SyncProgress(sync, at, client.store, c, complete, todo, all, soFar, synced);
      return soFar && synced;
    }
  }

  lemma SyncConsistent(sync: Sync, at: Store, s: Store, c: string, complete: set<string>)
    requires sync.TempsAreSets(at) && sync.AllConsistent(at) && sync.Untouched(at, c)
    requires Frame(at, s, SetKey(c), TempKey(c, sync.nonce)) && OldOrComplete(at, s, SetKey(c), complete)
    requires sync.New(c) <= complete <= sync.New(c) + Leftover(at, TempKey(c, sync.nonce))
    ensures sync.AllConsistent(s)
  {
    assert TempIsSet(at, TempKey(c, sync.nonce));
    assert Leftover(at, TempKey(c, sync.nonce)) == Leftover(sync.before, TempKey(c, sync.nonce));
    sync.SwapKeepsConsistent(at, s, c, complete);
  }

  lemma SyncProgress(sync: Sync, at: Store, s: Store, c: string, complete: set<string>,
                     todo: set<string>, all: set<string>, ok: bool, synced: bool)
    requires sync.Progress(at, todo, all, ok) && c in todo && c in all
    requires Frame(at, s, SetKey(c), TempKey(c, sync.nonce)) && TempIsSet(s, TempKey(c, sync.nonce))
    requires OldOrComplete(at, s, SetKey(c), complete)
    requires sync.New(c) <= complete <= sync.New(c) + Leftover(at, TempKey(c, sync.nonce))
    requires synced ==> SetKey(c) in s.entries && s.entries[SetKey(c)].value == SetOf(complete) && s.entries[SetKey(c)].expiry.Some?
    ensures sync.Progress(s, todo - {c}, all, ok && synced)
  {
    SyncConsistent(sync, at, s, c, complete);
    sync.SwapKeepsTemps(at, s, c);
    assert TempIsSet(at, TempKey(c, sync.nonce));
    forall b | b != c
      ensures sync.Untouched(at, b) ==> sync.Untouched(s, b)
      ensures sync.Synced(at, b) ==> sync.Synced(s, b)
    {
      sync.OthersCarried(at, s, c, b);
    }
  }

  /** The clearing DEL falls in the breaker's cooldown, the SADDs after it do
      not: a deal left over from an interrupted sync is swapped in as open. */
  lemma SkippedClearSwapsStaleMemberIn()
    ensures var key, temp := SetKey("Energy"), TempKey("Energy", "n");
      var s0 := Store(map[temp := Entry(SetOf({"closed"}), None)], 0);
      var s1 := Serve(s0, Del(temp), Weather(0, Skipped)).0;
      var s2 := Serve(s1, SAdd(temp, "open"), Weather(1, Answered)).0;
      var s3 := Serve(s2, Rename(temp, key), Weather(0, Answered)).0;
      EntryAt(s3, key) == Some(Entry(SetOf({"closed", "open"}), None))
  {
    var key, temp := SetKey("Energy"), TempKey("Energy", "n");
    KeysDistinct("Energy", "Energy", "n");
    var s0 := Store(map[temp := Entry(SetOf({"closed"}), None)], 0);
    var s1 := Serve(s0, Del(temp), Weather(0, Skipped)).0;
    assert s1 == s0;
    var s2 := Serve(s1, SAdd(temp, "open"), Weather(1, Answered)).0;
    SAddServed(s1, temp, "open", Weather(1, Answered));
    assert {"closed"} + {"open"} == {"closed", "open"};
    RenameServed(s2, temp, key, Weather(0, Answered));
  }
}
