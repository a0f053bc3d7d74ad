/** The position book: PL# lists of deal ids that lag the short-lived PO#
    payloads, PH# history, and readers that filter. */
module PositionManager {
  import opened Wrappers
  import opened Redis

  const HISTORY_TTL_MS: nat := 24 * 60 * 3600 * 1000   // 60 days

  function PositionListKey(strategyId: string): string {
    "PL#" + strategyId
  }

  function PositionKey(dealId: string): string {
    "PO#" + dealId
  }

  function HistoryKey(dealId: string): string {
    "PH#" + dealId
  }

  lemma KeysApart(a: string, b: string)
    ensures PositionListKey(a) != PositionKey(b) && PositionKey(a) != HistoryKey(b) && PositionListKey(a) != HistoryKey(b)
    ensures PositionKey(a) == PositionKey(b) <==> a == b
    ensures PositionListKey(a) == PositionListKey(b) <==> a == b
    ensures HistoryKey(a) == HistoryKey(b) <==> a == b
  {
    assert PositionListKey(a)[3..] == a && PositionListKey(b)[3..] == b && HistoryKey(a)[3..] == a && HistoryKey(b)[3..] == b;
    assert PositionListKey(a)[1] == 'L' && PositionKey(b)[1] == 'O' && PositionKey(a)[1] == 'O' && HistoryKey(b)[1] == 'H';
    assert PositionKey(a)[3..] == a && PositionKey(b)[3..] == b;
  }

  /** encodePositionList and decodePositionList, a JSON array of strings. */
  datatype Codec = Codec(encode: seq<string> -> string, decode: string -> Option<seq<string>>)

  ghost predicate RoundTrips(c: Codec) {
    forall ids :: c.decode(c.encode(ids)) == Some(ids)
  }

  datatype ListState = Ok(ids: seq<string>) | NoList | Failed

  /** The list as it stands in Redis. */
  function Fetch(c: Codec, s: Store, strategyId: string): ListState {
    match Find(s, PositionListKey(strategyId))
    case None => NoList
    case Some(SetOf(_)) => Failed
    case Some(Text(t)) =>
      match c.decode(t)
      case None => Failed
      case Some(ids) => Ok(ids)
  }

  predicate Alive(s: Store, dealId: string) {
    FindText(s, PositionKey(dealId)).Some?
  }

  /** The deals of a list whose payloads exist, in list order. */
  function Filter(s: Store, ids: seq<string>): seq<(string, string)> {
    if ids == [] then []
    else
      var front, id := Filter(s, ids[..|ids| - 1]), ids[|ids| - 1];
      if Alive(s, id) then front + [(id, FindText(s, PositionKey(id)).value)] else front
  }

  function Survivors(s: Store, ids: seq<string>): seq<string> {
    if ids == [] then []
    else
      var front, id := Survivors(s, ids[..|ids| - 1]), ids[|ids| - 1];
      if Alive(s, id) then front + [id] else front
  }

  /** The book: what a reader makes of a list. A list it cannot read is no book. */
  function Book(c: Codec, s: Store, strategyId: string): Option<seq<(string, string)>> {
    match Fetch(c, s, strategyId)
    case Failed => None
    case NoList => Some([])
    case Ok(ids) => Some(Filter(s, ids))
  }

  function Added(ids: seq<string>, dealId: string): seq<string> {
    if dealId in ids then ids else ids + [dealId]
  }

  function Erased(ids: seq<string>, dealId: string): seq<string> {
    if ids == [] then []
    else
      var front, id := Erased(ids[..|ids| - 1], dealId), ids[|ids| - 1];
      if id == dealId then front else front + [id]
  }

  /** Same data, later. */
  predicate Later(before: Store, after: Store) {
    after.entries == before.entries && before.now <= after.now
  }

  /** `state` is the list at some moment of a call that began at `before` and
      had reached `now`. */
  ghost predicate ReadDuring(c: Codec, before: Store, now: int, strategyId: string, state: ListState) {
    exists t :: before.now <= t <= now && Fetch(c, Store(before.entries, t), strategyId) == state
  }

  /** The PO# key held a set at some moment of the call: GETDEL refuses it. */
  ghost predicate HeldSetDuring(before: Store, now: int, dealId: string) {
    exists t :: before.now <= t <= now && HoldsSet(Store(before.entries, t), PositionKey(dealId))
  }

  predicate HoldsSet(s: Store, key: string) {
    Find(s, key).Some? && Find(s, key).value.SetOf?
  }

  /** Every command issued since was answered; and every one but the history copy. */
  ghost predicate AllAnswered(events: seq<Event>, since: nat) {
    forall i :: since <= i < |events| ==> events[i].weather.fate.Answered?
  }

  ghost predicate AllAnsweredBut(events: seq<Event>, since: nat, key: string) {
    forall i :: since <= i < |events| ==> IsPutOf(events[i].command, key) || events[i].weather.fate.Answered?
  }

  predicate IsPutOf(c: Command, key: string) {
    c.Put? && c.key == key
  }

  function Rewritten(entries: map<string, Entry>, c: Codec, strategyId: string, ids: seq<string>): map<string, Entry> {
    entries[PositionListKey(strategyId) := Entry(Text(c.encode(ids)), None)]
  }

  function Keys(ids: seq<string>): (r: seq<string>)
    ensures |r| == |ids| && forall i :: 0 <= i < |ids| ==> r[i] == PositionKey(ids[i])
  {
    seq(|ids|, i requires 0 <= i < |ids| => PositionKey(ids[i]))
  }

  lemma LastAnswered(events: seq<Event>, since: nat, key: string)
    requires since < |events|
    ensures var last := events[|events| - 1];
      && (AllAnswered(events, since) ==> last.weather.fate.Answered?)
      && (AllAnsweredBut(events, since, key) && !IsPutOf(last.command, key) ==> last.weather.fate.Answered?)
  {
  }

  lemma AnsweredSoFar(events: seq<Event>, later: seq<Event>, since: nat)
    requires events <= later
    ensures AllAnswered(later, since) ==> AllAnswered(events, since)
  {
  }

  lemma ListWasRead(c: Codec, before: Store, after: Store, strategyId: string)
    requires Later(before, after)
    ensures ReadDuring(c, before, after.now, strategyId, Fetch(c, after, strategyId))
  {
    assert after == Store(before.entries, after.now);
  }

  /** `payload` is what the deal's key held at some moment of the call. */
  ghost predicate TakenDuring(before: Store, now: int, dealId: string, payload: Option<string>) {
    exists t :: before.now <= t <= now && payload == FindText(Store(before.entries, t), PositionKey(dealId))
  }

  class PositionManager {
    const client: Client
    const codec: Codec

    constructor (client: Client, codec: Codec)
      ensures this.client == client && this.codec == codec
    {
      this.client, this.codec := client, codec;
    }

    method FetchList(strategyId: string) returns (state: ListState)
      modifies client
      ensures Later(old(client.store), client.store)
      ensures |client.events| == |old(client.events)| + 1 && old(client.events) < client.events
      ensures client.events[|client.events| - 1].command == Get(PositionListKey(strategyId))
      ensures state == if client.events[|client.events| - 1].weather.fate.Answered? then Fetch(codec, client.store, strategyId) else Failed
    {
      var value, skipped := client.Run(Get(PositionListKey(strategyId)));
      if value.None? {
        return Failed;
      }
      if value.value.text.None? {
        return NoList;
      }
      var decoded := codec.decode(value.value.text.value);
      return if decoded.None? then Failed else Ok(decoded.value);
    }

    /** MGET of the deals' payloads: the client zips the values onto the keys,
        leaving out the missing. */
    method ReadLive(ids: seq<string>) returns (live: Option<map<string, string>>)
      modifies client
      ensures Later(old(client.store), client.store)
      ensures live.Some? ==> forall i :: 0 <= i < |ids| ==>
        (PositionKey(ids[i]) in live.value <==> Alive(client.store, ids[i]))
        && (Alive(client.store, ids[i]) ==> live.value[PositionKey(ids[i])] == FindText(client.store, PositionKey(ids[i])).value)
      ensures |client.events| == |old(client.events)| + 1 && old(client.events) < client.events
      ensures live.Some? <==> client.events[|client.events| - 1].weather.fate.Answered?
    {
      var keys := Keys(ids);
      var values, skipped := client.Run(MGet(keys));
      if values.None? {
        return None;
      }
      var texts := values.value.texts;
      var found: map<string, string> := map[];
      for i := 0 to |keys|
        invariant |texts| == |keys| && forall k :: 0 <= k < |keys| ==> texts[k] == FindText(client.store, keys[k])
        invariant forall k :: 0 <= k < i && texts[k].Some? ==> keys[k] in found
        invariant forall k :: k in found ==> FindText(client.store, k) == Some(found[k])
      {
        if texts[i].Some? && keys[i] !in found {
          found := found[keys[i] := texts[i].value];
        }
      }
      return Some(found);
    }

    method GetPositionPayloads(strategyId: string) returns (book: Option<seq<(string, string)>>)
      modifies client
      ensures Later(old(client.store), client.store) && old(client.events) < client.events
      // What is reported was so: the list at one moment, the payloads at the end.
      ensures book.Some? ==>
        || (book.value == [] && ReadDuring(codec, old(client.store), client.store.now, strategyId, NoList))
        || (exists ids :: ReadDuring(codec, old(client.store), client.store.now, strategyId, Ok(ids)) && book.value == Filter(client.store, ids))
      // A call that failed, or a list that cannot be read, is never an empty book.
      ensures book.Some? ==> AllAnswered(client.events, |old(client.events)|)
      // And a call that was answered fails only on a list that cannot be read.
      ensures book.None? && AllAnswered(client.events, |old(client.events)|) ==>
        ReadDuring(codec, old(client.store), client.store.now, strategyId, Failed)
    {
      var state := FetchList(strategyId);
      ListWasRead(codec, old(client.store), client.store, strategyId);
      if state.NoList? {
        return Some([]);
      }
      if state.Failed? {
        return None;
      }
      if state.ids == [] {
        assert Filter(client.store, []) == [];
        return Some([]);
      }
      var live := ReadLive(state.ids);
      if live.None? {
        return None;
      }
      var payloads: seq<(string, string)> := [];
      for i := 0 to |state.ids|
        invariant payloads == Filter(client.store, state.ids[..i])
      {
        assert state.ids[..i + 1][..i] == state.ids[..i];
        if PositionKey(state.ids[i]) in live.value {
          payloads := payloads + [(state.ids[i], live.value[PositionKey(state.ids[i])])];
        }
      }
      assert state.ids[..|state.ids|] == state.ids;
      return Some(payloads);
    }

    method GetPositionCount(strategyId: string) returns (count: Option<nat>)
      modifies client
      ensures Later(old(client.store), client.store)
      ensures count.Some? ==>
        || (count.value == 0 && ReadDuring(codec, old(client.store), client.store.now, strategyId, NoList))
        || (exists ids :: ReadDuring(codec, old(client.store), client.store.now, strategyId, Ok(ids)) && count.value == |Filter(client.store, ids)|)
      ensures old(client.events) < client.events
      ensures count.None? && AllAnswered(client.events, |old(client.events)|) ==>
        ReadDuring(codec, old(client.store), client.store.now, strategyId, Failed)
    {
      var payloads := GetPositionPayloads(strategyId);
      return if payloads.None? then None else Some(|payloads.value|);
    }

    /** `ids` is the list the call read. */
    method AddPosition(strategyId: string, dealId: string) returns (ok: bool, ghost ids: seq<string>)
      modifies client
      ensures ok ==> ListRead(codec, old(client.store), client.store.now, strategyId, ids)
      ensures ok ==> client.store.entries == if dealId in ids then old(client.store).entries
                                             else Rewritten(old(client.store).entries, codec, strategyId, ids + [dealId])
      ensures ok
        || client.store.entries == old(client.store).entries
        || client.store.entries == Rewritten(old(client.store).entries, codec, strategyId, Added(ids, dealId))
      ensures old(client.store).now <= client.store.now && old(client.events) < client.events
      // It fails only if a command did, or the list cannot be read.
      ensures !ok && AllAnswered(client.events, |old(client.events)|) ==>
        ReadDuring(codec, old(client.store), client.store.now, strategyId, Failed)
    {
      ids := [];
      var state := FetchList(strategyId);
      ListWasRead(codec, old(client.store), client.store, strategyId);
      if state.Failed? {
        return false, ids;
      }
      var dealIds := if state.Ok? then state.ids else [];
      ids := dealIds;
      if dealId in dealIds {
        return true, ids;
      }
      dealIds := dealIds + [dealId];
      var stored, skipped := client.Run(Put(PositionListKey(strategyId), codec.encode(dealIds), Always, None));
      LastAnswered(client.events, |old(client.events)|, "");
      return stored == Some(Flag(true)), ids;
    }

    /** `ids` is the list the call read and `at` when it asked for the payloads. */
    method RefreshPositionList(strategyId: string) returns (ok: bool, ghost found: bool, ghost ids: seq<string>, ghost at: int)
      modifies client
      ensures old(client.store).now <= at <= client.store.now
      ensures ok && !found ==>
        ReadDuring(codec, old(client.store), client.store.now, strategyId, NoList) && client.store.entries == old(client.store).entries
      ensures ok && found ==>
        ReadDuring(codec, old(client.store), at, strategyId, Ok(ids))
        && client.store.entries == Pruned(old(client.store).entries, codec, strategyId, Survivors(Store(old(client.store).entries, at), ids))
      ensures ok
        || client.store.entries == old(client.store).entries
        || client.store.entries == Pruned(old(client.store).entries, codec, strategyId, Survivors(Store(old(client.store).entries, at), ids))
      ensures old(client.events) < client.events
      ensures !ok && AllAnswered(client.events, |old(client.events)|) ==>
        ReadDuring(codec, old(client.store), client.store.now, strategyId, Failed)
    {
      found, ids, at := false, [], old(client.store).now;
      var state := FetchList(strategyId);
      ListWasRead(codec, old(client.store), client.store, strategyId);
      if !state.Ok? {
        return state.NoList?, found, ids, at;
      }
      found, ids, at := true, state.ids, client.store.now;
      var survivors: seq<string> := [];
      if state.ids != [] {
        var live := ReadLive(state.ids);
        at := client.store.now;
        assert client.store == Store(old(client.store).entries, at);
        if live.None? {
          return false, found, ids, at;
        }
        for i := 0 to |state.ids|
          invariant survivors == Survivors(client.store, state.ids[..i])
        {
          assert state.ids[..i + 1][..i] == state.ids[..i];
          if PositionKey(state.ids[i]) in live.value {
            survivors := survivors + [state.ids[i]];
          }
        }
        assert state.ids[..|state.ids|] == state.ids;
      }
      assert survivors == Survivors(Store(old(client.store).entries, at), ids);
      if survivors == [] {
        var removed, skipped := client.Run(Del(PositionListKey(strategyId)));
        LastAnswered(client.events, |old(client.events)|, "");
        return removed.Some?, found, ids, at;
      }
      var stored, skipped := client.Run(Put(PositionListKey(strategyId), codec.encode(survivors), Always, None));
      LastAnswered(client.events, |old(client.events)|, "");
      return stored == Some(Flag(true)), found, ids, at;
    }

    /** GETDEL of the payload; then SET of the history copy, whose failure is
        only logged. `archived` says whether the copy took effect. */
    method MoveToHistory(dealId: string) returns (ok: bool, ghost payload: Option<string>, ghost archived: bool)
      modifies client
      ensures old(client.store).now <= client.store.now && old(client.events) < client.events
      ensures client.store.entries == Moved(old(client.store).entries, dealId, payload, archived, client.store.now)
        || (!ok && client.store.entries == old(client.store).entries)
      // PH# keeps the copy for 60 days, in milliseconds.
      ensures ok && payload.Some? && archived ==>
        client.store.entries
        == (old(client.store).entries - {"PO#" + dealId})["PH#" + dealId := Entry(Text(payload.value), Some(client.store.now + 5_184_000_000))]
      ensures ok && !(payload.Some? && archived) ==> client.store.entries == old(client.store).entries - {"PO#" + dealId}
      ensures (ok || payload.Some?) ==> TakenDuring(old(client.store), client.store.now, dealId, payload)
      ensures ok && payload.Some? ==>
        |client.events| == |old(client.events)| + 2
        && archived == (var f := client.events[|old(client.events)| + 1].weather.fate; f.Answered? || f.LostAfter?)
        && (AllAnswered(client.events, |old(client.events)|) ==> archived)
      ensures !ok && AllAnsweredBut(client.events, |old(client.events)|, HistoryKey(dealId)) ==>
        HeldSetDuring(old(client.store), client.store.now, dealId)
    {
      payload, archived := None, false;
      var taken, skipped := client.Run(GetDel(PositionKey(dealId)));
      assert client.events[|old(client.events)|].command == GetDel(PositionKey(dealId));
      if taken.None? {
        assert HoldsSet(Arrived(old(client.store), Next(old(client.script))), PositionKey(dealId))
          || !client.events[|old(client.events)|].weather.fate.Answered?;
        return false, payload, archived;
      }
      payload := taken.value.text;
      assert payload == FindText(Store(old(client.store).entries, client.store.now), PositionKey(dealId));
      if taken.value.text.Some? {
        var stored, skipped2 := client.Run(Put(HistoryKey(dealId), taken.value.text.value, Always, Some(HISTORY_TTL_MS)));
        archived := client.events[|client.events| - 1].weather.fate.Answered? || client.events[|client.events| - 1].weather.fate.LostAfter?;
      }
      return true, payload, archived;
    }

    method RemovePosition(strategyId: string, dealId: string)
      returns (ok: bool, ghost payload: Option<string>, ghost archived: bool, ghost since: int, ghost ids: seq<string>)
      modifies client
      ensures old(client.store).now <= since <= client.store.now && old(client.events) < client.events
      // The payload goes to history if there was one and the copy took effect,
      // and the id, and only it, leaves the list.
      ensures ok ==> var moved := Moved(old(client.store).entries, dealId, payload, archived, since);
        || (ReadDuring(codec, Store(moved, since), client.store.now, strategyId, NoList) && client.store.entries == moved)
        || (ReadDuring(codec, Store(moved, since), client.store.now, strategyId, Ok(ids))
            && client.store.entries == Rewritten(moved, codec, strategyId, Erased(ids, dealId)))
      ensures (ok || payload.Some?) ==> TakenDuring(old(client.store), since, dealId, payload)
      ensures ok && payload.Some? && AllAnswered(client.events, |old(client.events)|) ==> archived
      // A call that fails stopped after one of these steps.
      ensures !ok ==> var moved := Moved(old(client.store).entries, dealId, payload, archived, since);
        || client.store.entries == old(client.store).entries
        || client.store.entries == moved
        || (ReadDuring(codec, Store(moved, since), client.store.now, strategyId, Ok(ids))
            && client.store.entries == Rewritten(moved, codec, strategyId, Erased(ids, dealId)))
      // It fails only if a command other than the copy did, or a key holds the wrong thing.
      ensures !ok && AllAnsweredBut(client.events, |old(client.events)|, HistoryKey(dealId)) ==>
        || HeldSetDuring(old(client.store), since, dealId)
        || ReadDuring(codec, Store(Moved(old(client.store).entries, dealId, payload, archived, since), since), client.store.now, strategyId, Failed)
    {
      hide Moved, Erased, Fetch, AllAnswered, AllAnsweredBut;
      ids, since := [], old(client.store).now;
      ok, payload, archived := MoveToHistory(dealId);
      since := client.store.now;
      if !ok {
        return;
      }
      ghost var moved, taken := client.store, client.events;
      var state := FetchList(strategyId);
      ListWasRead(codec, moved, client.store, strategyId);
      KeysApart(strategyId, dealId);
      AnsweredSoFar(taken, client.events, |old(client.events)|);
      LastAnswered(client.events, |old(client.events)|, HistoryKey(dealId));
      if !state.Ok? {
        ok := state.NoList?;
        return;
      }
      ids := state.ids;
      var dealIds := EraseAll(state.ids, dealId);
      var stored, skipped := client.Run(Put(PositionListKey(strategyId), codec.encode(dealIds), Always, None));
      AnsweredSoFar(taken, client.events, |old(client.events)|);
      LastAnswered(client.events, |old(client.events)|, HistoryKey(dealId));
      ok := stored == Some(Flag(true));
    }
  }

  /** std::erase. */
  method EraseAll(ids: seq<string>, dealId: string) returns (r: seq<string>)
    ensures r == Erased(ids, dealId)
  {
    r := [];
    for i := 0 to |ids|
      invariant r == Erased(ids[..i], dealId)
    {
      assert ids[..i + 1][..i] == ids[..i];
      if ids[i] != dealId {
        r := r + [ids[i]];
      }
    }
    assert ids[..|ids|] == ids;
  }

  ghost predicate ListRead(c: Codec, before: Store, now: int, strategyId: string, ids: seq<string>) {
    ReadDuring(c, before, now, strategyId, Ok(ids)) || (ids == [] && ReadDuring(c, before, now, strategyId, NoList))
  }

  /** What a refresh leaves: the surviving list, or no list at all. */
  function Pruned(entries: map<string, Entry>, c: Codec, strategyId: string, survivors: seq<string>): map<string, Entry> {
    if survivors == [] then entries - {PositionListKey(strategyId)} else Rewritten(entries, c, strategyId, survivors)
  }

  /** A deal's payload gone, and its history copy written at `at`. */
  function Moved(entries: map<string, Entry>, dealId: string, payload: Option<string>, archived: bool, at: int): map<string, Entry> {
    if payload.Some? && archived
    then (entries - {PositionKey(dealId)})[HistoryKey(dealId) := Entry(Text(payload.value), Some(at + HISTORY_TTL_MS))]
    else entries - {PositionKey(dealId)}
  }

  // -- what the writers leave to the readers -------------------------------------------

  /** Rewriting or deleting a list touches no payload. */
  lemma {:induction false} FilterIgnoresLists(c: Codec, s: Store, strategyId: string, survivors: seq<string>, ids: seq<string>)
    ensures Filter(Store(Pruned(s.entries, c, strategyId, survivors), s.now), ids) == Filter(s, ids)
    decreases |ids|
  {
    if ids != [] {
      FilterIgnoresLists(c, s, strategyId, survivors, ids[..|ids| - 1]);
      KeysApart(strategyId, ids[|ids| - 1]);
    }
  }

  predicate NoneRevived(before: Store, later: Store, ids: seq<string>) {
    forall id :: id in ids && Alive(later, id) ==> Alive(before, id)
  }

  /** Reading the survivors of an earlier moment is reading the whole list,
      unless and only unless an id dropped then is alive now. */
  lemma {:induction false} SurvivorsSuffice(before: Store, later: Store, ids: seq<string>)
    ensures |Filter(later, Survivors(before, ids))| <= |Filter(later, ids)|
    ensures Filter(later, Survivors(before, ids)) == Filter(later, ids) <==> NoneRevived(before, later, ids)
    decreases |ids|
  {
    if ids != [] {
      var front, id := ids[..|ids| - 1], ids[|ids| - 1];
      SurvivorsSuffice(before, later, front);
      assert ids == front + [id];
      var kept := Survivors(before, front);
      assert (kept + [id])[..|kept|] == kept;
      assert NoneRevived(before, later, ids) <==> NoneRevived(before, later, front) && (Alive(later, id) ==> Alive(before, id));
      if Alive(later, id) && Alive(before, id) {
        var text := (id, FindText(later, PositionKey(id)).value);
        assert Filter(later, Survivors(before, ids)) == Filter(later, kept) + [text] && Filter(later, ids) == Filter(later, front) + [text];
        SameTail(Filter(later, kept), Filter(later, front), text);
      } else if !Alive(later, id) && Alive(before, id) {
        assert Filter(later, kept + [id]) == Filter(later, kept);
      }
    }
  }

  lemma SameTail<T>(a: seq<T>, b: seq<T>, x: T)
    ensures a + [x] == b + [x] <==> a == b
  {
    if a + [x] == b + [x] {
      assert a == (a + [x])[..|a|] && b == (b + [x])[..|b|];
    }
  }

  /** A refresh is invisible. In any later state, whatever happened to the
      payloads meanwhile, the pruned list gives the same book as the list would
      have, exactly when no id it dropped has come back alive. */
  lemma RefreshIsInvisible(c: Codec, before: Store, later: Store, strategyId: string, ids: seq<string>)
    requires RoundTrips(c) && Fetch(c, later, strategyId) == Ok(ids)
    ensures var refreshed := Store(Pruned(later.entries, c, strategyId, Survivors(before, ids)), later.now);
      Book(c, refreshed, strategyId) == Book(c, later, strategyId) <==> NoneRevived(before, later, ids)
  {
    var kept := Survivors(before, ids);
    var refreshed := Store(Pruned(later.entries, c, strategyId, kept), later.now);
    SurvivorsSuffice(before, later, ids);
    FilterIgnoresLists(c, later, strategyId, kept, kept);
    assert c.decode(c.encode(kept)) == Some(kept);
    assert kept != [] ==> Fetch(c, refreshed, strategyId) == Ok(kept);
    assert kept == [] ==> Fetch(c, refreshed, strategyId) == NoList && Filter(later, []) == [];
  }

  /** In particular right away: time alone revives nothing. */
  lemma RefreshIsInvisibleAtOnce(c: Codec, before: Store, later: Store, strategyId: string, ids: seq<string>)
    requires RoundTrips(c) && Later(before, later) && Fetch(c, later, strategyId) == Ok(ids)
    ensures Book(c, Store(Pruned(later.entries, c, strategyId, Survivors(before, ids)), later.now), strategyId) == Book(c, later, strategyId)
  {
    RefreshIsInvisible(c, before, later, strategyId, ids);
  }

  /** Refreshing again drops nothing more; the survivors keep their order, and
      are the ids that are alive. */
  lemma {:induction false} SurvivorsAreStable(s: Store, ids: seq<string>)
    ensures Survivors(s, Survivors(s, ids)) == Survivors(s, ids)
    ensures forall id :: id in Survivors(s, ids) <==> id in ids && Alive(s, id)
    decreases |ids|
  {
    if ids != [] {
      var front, id := ids[..|ids| - 1], ids[|ids| - 1];
      SurvivorsAreStable(s, front);
      var kept := Survivors(s, front);
      assert (kept + [id])[..|kept|] == kept;
      assert ids == front + [id];
    }
  }

  lemma {:induction false} SurvivorsKeepOrder(s: Store, a: seq<string>, b: seq<string>)
    ensures Survivors(s, a + b) == Survivors(s, a) + Survivors(s, b)
    decreases |b|
  {
    if b == [] {
      assert a + b == a;
    } else {
      SurvivorsKeepOrder(s, a, b[..|b| - 1]);
      assert (a + b)[..|a + b| - 1] == a + b[..|b| - 1];
    }
  }

  /** So does the book, which has the payload of each id, and only of those that
      have one; and so does the list an id is erased from. */
  lemma {:induction false} BooksKeepOrder(s: Store, a: seq<string>, b: seq<string>)
    ensures Filter(s, a + b) == Filter(s, a) + Filter(s, b)
    ensures |b| == 1 ==>
      Filter(s, b) == (if FindText(s, "PO#" + b[0]).Some? then [(b[0], FindText(s, "PO#" + b[0]).value)] else [])
    decreases |b|
  {
    if b == [] {
      assert a + b == a;
    } else {
      BooksKeepOrder(s, a, b[..|b| - 1]);
      assert (a + b)[..|a + b| - 1] == a + b[..|b| - 1];
    }
  }

  lemma {:induction false} ErasedKeepsOrder(a: seq<string>, b: seq<string>, dealId: string)
    ensures Erased(a + b, dealId) == Erased(a, dealId) + Erased(b, dealId)
    decreases |b|
  {
    if b == [] {
      assert a + b == a;
    } else {
      ErasedKeepsOrder(a, b[..|b| - 1], dealId);
      assert (a + b)[..|a + b| - 1] == a + b[..|b| - 1];
    }
  }

  ghost predicate Distinct(ids: seq<string>) {
    forall i, j :: 0 <= i < j < |ids| ==> ids[i] != ids[j]
  }

  lemma AddingTwiceIsAddingOnce(ids: seq<string>, dealId: string)
    ensures Added(Added(ids, dealId), dealId) == Added(ids, dealId)
    ensures Distinct(ids) ==> Distinct(Added(ids, dealId))
    ensures forall id :: id in Added(ids, dealId) <==> id in ids || id == dealId
  {
    assert dealId in ids + [dealId];
  }

  /** A second add finds the id and writes nothing. */
  lemma AddedListIsReadBack(c: Codec, s: Store, strategyId: string, ids: seq<string>)
    requires RoundTrips(c)
    ensures Fetch(c, Store(Rewritten(s.entries, c, strategyId, ids), s.now), strategyId) == Ok(ids)
  {
    assert c.decode(c.encode(ids)) == Some(ids);
  }

  lemma {:induction false} ErasedIds(ids: seq<string>, dealId: string)
    ensures forall id :: id in Erased(ids, dealId) <==> id in ids && id != dealId
    decreases |ids|
  {
    if ids != [] {
      ErasedIds(ids[..|ids| - 1], dealId);
      assert ids == ids[..|ids| - 1] + [ids[|ids| - 1]];
    }
  }

  lemma {:induction false} ErasingRemovesOneId(ids: seq<string>, dealId: string)
    ensures forall id :: id in Erased(ids, dealId) <==> id in ids && id != dealId
    ensures Distinct(ids) ==>
      Distinct(Erased(ids, dealId)) && |Erased(ids, dealId)| == |ids| - (if dealId in ids then 1 else 0)
    decreases |ids|
  {
    ErasedIds(ids, dealId);
    if ids != [] && Distinct(ids) {
      var front, id := ids[..|ids| - 1], ids[|ids| - 1];
      assert ids == front + [id];
      assert id !in front by {
        assert forall i :: 0 <= i < |front| ==> ids[i] != ids[|ids| - 1];
      }
      ErasingRemovesOneId(front, dealId);
      hide Erased;
      assert Erased(ids, dealId) == if id == dealId then Erased(front, dealId) else Erased(front, dealId) + [id] by { ErasedGrows(front, id, dealId); }
    }
  }

  lemma ErasedGrows(front: seq<string>, id: string, dealId: string)
    ensures Erased(front + [id], dealId) == if id == dealId then Erased(front, dealId) else Erased(front, dealId) + [id]
  {
    assert (front + [id])[..|front|] == front;
  }

  /** Removing a deal takes it, and nothing else, off every book. */
  lemma {:induction false} RemovedDealsAreUnseen(s: Store, ids: seq<string>, dealId: string, payload: Option<string>, archived: bool, at: int)
    ensures Filter(Store(Moved(s.entries, dealId, payload, archived, at), s.now), ids) == Filter(s, Erased(ids, dealId))
    decreases |ids|
  {
    if ids != [] {
      var front, id := ids[..|ids| - 1], ids[|ids| - 1];
      RemovedDealsAreUnseen(s, front, dealId, payload, archived, at);
      KeysApart(id, dealId);
      assert (Erased(front, dealId) + [id])[..|Erased(front, dealId)|] == Erased(front, dealId);
    }
  }

  /** An unreadable list is no book, and neither is a list of no deals. */
  lemma CorruptIsNotEmpty(c: Codec, s: Store, strategyId: string)
    ensures Book(c, s, strategyId) == None <==>
      Find(s, PositionListKey(strategyId)).Some?
      && (Find(s, PositionListKey(strategyId)).value.SetOf? || c.decode(Find(s, PositionListKey(strategyId)).value.text).None?)
  {
  }
}
