/** The part of Redis the engine relies on: strings, sets and lists under keys
    with an optional expiry, one clock, one atomic step per command. */
module Redis {
  import opened Wrappers

  datatype Value = Text(text: string) | SetOf(members: set<string>)

  datatype Entry = Entry(value: Value, expiry: Option<int>)

  datatype Store = Store(entries: map<string, Entry>, now: int)

  datatype SetWhen = Always | NotExists

  datatype Command =
    | Get(key: string)
    | Put(key: string, text: string, when: SetWhen, ttl: Option<nat>)
    | Del(key: string)
    | GetDel(key: string)
    | MGet(keys: seq<string>)
    | SAdd(key: string, member: string)
    | Rename(key: string, target: string)
    | PExpire(key: string, ttlMs: nat)

  datatype Reply = Bulk(text: Option<string>) | Flag(yes: bool) | Bulks(texts: seq<Option<string>>) | Error

  /** The value under a key, unless it has expired. */
  function Find(s: Store, key: string): Option<Value> {
    if key in s.entries && (s.entries[key].expiry.Some? ==> s.now < s.entries[key].expiry.value)
    then Some(s.entries[key].value) else None
  }

  function FindText(s: Store, key: string): Option<string> {
    match Find(s, key)
    case Some(Text(t)) => Some(t)
    case _ => None
  }

  function ExpiryAt(s: Store, ttl: Option<nat>): Option<int> {
    if ttl.Some? then Some(s.now + ttl.value) else None
  }

  function Without(s: Store, key: string): Store {
    s.(entries := s.entries - {key})
  }

  /** Effect and reply of one command. Error is a server error reply: a wrong
      type, or RENAME without its source. */
  function Apply(s: Store, c: Command): (Store, Reply) {
    match c
    case Get(key) => (s, if Find(s, key).Some? && !Find(s, key).value.Text? then Error else Bulk(FindText(s, key)))
    case Put(key, text, when, ttl) =>
      if when == NotExists && Find(s, key).Some? then (s, Flag(false))
      else (s.(entries := s.entries[key := Entry(Text(text), ExpiryAt(s, ttl))]), Flag(true))
    case Del(key) => (Without(s, key), Flag(Find(s, key).Some?))
    case GetDel(key) =>
      if Find(s, key).Some? && !Find(s, key).value.Text? then (s, Error)
      else (Without(s, key), Bulk(FindText(s, key)))
    case MGet(keys) => (s, Bulks(seq(|keys|, i requires 0 <= i < |keys| => FindText(s, keys[i]))))
    case SAdd(key, member) =>
      (match Find(s, key)
       case None => (s.(entries := s.entries[key := Entry(SetOf({member}), None)]), Flag(true))
       case Some(SetOf(held)) =>
         (s.(entries := s.entries[key := Entry(SetOf(held + {member}), s.entries[key].expiry)]), Flag(member !in held))
       case Some(Text(_)) => (s, Error))
    case Rename(key, target) =>
      if Find(s, key).None? then (s, Error)
      else (Without(s.(entries := s.entries[target := s.entries[key]]), key), Flag(true))
    case PExpire(key, ttl) =>
      if Find(s, key).None? then (s, Flag(false))
      else (s.(entries := s.entries[key := s.entries[key].(expiry := Some(s.now + ttl))]), Flag(true))
  }

  /** What becomes of a command: answered; lost before taking effect; applied
      with the answer lost; or skipped by the open circuit breaker. */
  datatype Fate = Answered | LostBefore | LostAfter | Skipped

  /** The environment of one call: how long it takes to arrive, and its fate. */
  datatype Weather = Weather(delay: nat, fate: Fate)

  function Arrived(s: Store, w: Weather): Store {
    s.(now := s.now + w.delay)
  }

  /** SyncRedisClient::run over one command: the new store and the caller's
      result. execIgnore, behind RENAME, never looks at an error reply. */
  function Serve(s: Store, c: Command, w: Weather): (Store, Option<Reply>) {
    var at := Arrived(s, w);
    match w.fate
    case Answered =>
      var (after, reply) := Apply(at, c);
      (after, if reply != Error then Some(reply) else if c.Rename? then Some(Flag(true)) else None)
    case LostAfter => (Apply(at, c).0, None)
    case _ => (at, None)
  }

  datatype Event = Event(command: Command, weather: Weather, before: Store, after: Store)

  /** A synchronous client. `script` is what the environment will do to the
      calls to come; past its end every call is answered at once. */
  class Client {
    var store: Store
    var script: seq<Weather>
    var events: seq<Event>

    constructor (store: Store, script: seq<Weather>)
      ensures this.store == store && this.script == script && events == []
    {
      this.store := store;
      this.script := script;
      events := [];
    }

    method Run(c: Command) returns (reply: Option<Reply>, skipped: bool)
      modifies this
      ensures (store, reply) == Serve(old(store), c, Next(old(script)))
      ensures skipped == Next(old(script)).fate.Skipped?
      ensures script == Rest(old(script))
      ensures events == old(events) + [Event(c, Next(old(script)), old(store), store)]
    {
      var w := Next(script);
      var before := store;
      var served := Serve(store, c, w);
      store, reply, skipped := served.0, served.1, w.fate.Skipped?;
      script := Rest(script);
      events := events + [Event(c, w, before, store)];
    }
  }

  function Next(script: seq<Weather>): Weather {
    if script == [] then Weather(0, Answered) else script[0]
  }

  function Rest(script: seq<Weather>): seq<Weather> {
    if script == [] then [] else script[1..]
  }
}
