/** The producer: payloads before names, chunk by chunk, the run descriptor
    last. */
module RedisLoader {
  import opened Wrappers
  import opened QueueOps

  datatype KeyedPayload = KeyedPayload(key: string, rawJson: string)

  /** std::isspace in the C locale. */
  predicate IsSpace(c: char) {
    c == ' ' || '\t' <= c <= '\r'
  }

  predicate IsBlank(rawJson: string) {
    forall i :: 0 <= i < |rawJson| ==> IsSpace(rawJson[i])
  }

  /** Some character is no space, tab, line feed, vertical tab, form feed or
      carriage return. */
  predicate HasText(rawJson: string) {
    exists i :: 0 <= i < |rawJson| && var code := rawJson[i] as int; code != 32 && !(9 <= code <= 13)
  }

  predicate Rejected(p: KeyedPayload) {
    p.key == "" || IsBlank(p.rawJson)
  }

  function Stores(chunk: seq<KeyedPayload>, encode: string -> string): (r: seq<Command>)
    ensures |r| == |chunk|
    ensures forall i :: 0 <= i < |chunk| ==> r[i] == Store(chunk[i].key, encode(chunk[i].rawJson))
  {
    seq(|chunk|, i requires 0 <= i < |chunk| => Store(chunk[i].key, encode(chunk[i].rawJson)))
  }

  function Listings(list: string, chunk: seq<KeyedPayload>): (r: seq<Command>)
    ensures |r| == |chunk|
    ensures forall i :: 0 <= i < |chunk| ==> r[i] == ListName(list, chunk[i].key)
  {
    seq(|chunk|, i requires 0 <= i < |chunk| => ListName(list, chunk[i].key))
  }

  /** The commands a stream of chunks stands for, in order. */
  function StreamProgram(list: string, chunks: seq<seq<KeyedPayload>>, encode: string -> string): seq<Command> {
    if chunks == [] then []
    else
      var last := chunks[|chunks| - 1];
      StreamProgram(list, chunks[..|chunks| - 1], encode) + Stores(last, encode) + Listings(list, last)
  }

  /** Everything but the descriptor of a run, then the descriptor. */
  function LoadProgram(list: string, chunks: seq<seq<KeyedPayload>>, queue: string, descriptor: string, encode: string -> string): seq<Command> {
    StreamProgram(list, chunks, encode) + [Advertise(queue, descriptor)]
  }

  lemma {:induction false} StreamIsSafe(list: string, chunks: seq<seq<KeyedPayload>>, encode: string -> string)
    ensures PayloadsFirst(StreamProgram(list, chunks, encode))
    ensures forall c :: c in StreamProgram(list, chunks, encode) ==> c.Store? || (c.ListName? && c.list == list)
  {
    if chunks != [] {
      var front, last := chunks[..|chunks| - 1], chunks[|chunks| - 1];
      StreamIsSafe(list, front, encode);
      var before := StreamProgram(list, front, encode);
      var program := StreamProgram(list, chunks, encode);
      forall i | 0 <= i < |program| && program[i].ListName?
        ensures exists j :: 0 <= j < i && program[j].Store? && program[j].name == program[i].name
      {
        if i < |before| {
          assert before[i].ListName?;
          var j :| 0 <= j < i && before[j].Store? && before[j].name == before[i].name;
          assert program[j] == before[j];
        } else {
          var k := i - |before| - |last|;
          assert program[i] == Listings(list, last)[k];
          assert program[|before| + k] == Stores(last, encode)[k];
        }
      }
    }
  }

  /** A whole load, or the part of it that went out before a failure, never
      lists a name ahead of its payload. */
  lemma LoadIsSafe(list: string, chunks: seq<seq<KeyedPayload>>, queue: string, descriptor: string, encode: string -> string, n: nat)
    requires n <= |LoadProgram(list, chunks, queue, descriptor, encode)|
    ensures PayloadsFirst(LoadProgram(list, chunks, queue, descriptor, encode)[..n])
  {
    StreamIsSafe(list, chunks, encode);
    var stream := StreamProgram(list, chunks, encode);
    var program := LoadProgram(list, chunks, queue, descriptor, encode);
    forall i | 0 <= i < n && program[i].ListName?
      ensures exists j :: 0 <= j < i && program[..n][j].Store? && program[..n][j].name == program[..n][i].name
    {
      assert stream[i] == program[i];
      var j :| 0 <= j < i && stream[j].Store? && stream[j].name == stream[i].name;
      assert program[..n][j] == stream[j];
    }
  }

  /** The loader's connection: `log` is every command Redis has applied, and
      `failures` counts the requests that failed. A pipelined request may fail
      after any part of it took effect. */
  class Connection {
    var log: seq<Command>
    var failures: nat

    constructor ()
      ensures log == [] && failures == 0
    {
      log := [];
      failures := 0;
    }

    method Exec(request: seq<Command>) returns (ok: bool)
      modifies this
      ensures ok ==> log == old(log) + request
      ensures !ok ==> exists n :: 0 <= n <= |request| && log == old(log) + request[..n]
      ensures failures == old(failures) + (if ok then 0 else 1)
    {
      ok := *;
      if ok {
        log := log + request;
      } else {
        var applied :| 0 <= applied <= |request|;
        log := log + request[..applied];
        failures := failures + 1;
      }
    }
  }

  datatype LoadResult = Loaded(total: nat) | Invalid | RedisFailed

  /** Where chunk `i` starts in the program of the whole stream. */
  lemma {:induction false} StreamGrows(list: string, chunks: seq<seq<KeyedPayload>>, i: nat, encode: string -> string)
    requires i < |chunks|
    ensures StreamProgram(list, chunks[..i + 1], encode)
         == StreamProgram(list, chunks[..i], encode) + Stores(chunks[i], encode) + Listings(list, chunks[i])
    ensures StreamProgram(list, chunks[..i + 1], encode) <= StreamProgram(list, chunks, encode)
    decreases |chunks| - i
  {
    assert chunks[..i + 1][..i] == chunks[..i];
    if i + 1 < |chunks| {
      StreamGrows(list, chunks, i + 1, encode);
    } else {
      assert chunks[..i + 1] == chunks;
    }
  }

  /** The two requests of a chunk, or None when the chunk is rejected. */
  method Gather(list: string, chunk: seq<KeyedPayload>, encode: string -> string)
    returns (requests: Option<(seq<Command>, seq<Command>)>)
    ensures requests.None? <==> exists p :: p in chunk && Rejected(p)
    ensures requests.Some? <==> forall p :: p in chunk ==> p.key != "" && HasText(p.rawJson)
    ensures requests.Some? ==> requests.value == (Stores(chunk, encode), Listings(list, chunk))
  {
    forall p ensures Rejected(p) <==> p.key == "" || !HasText(p.rawJson) {
      assert IsBlank(p.rawJson) <==> !HasText(p.rawJson);
    }
    hide HasText;
    var keyedValues, keyNames: seq<Command> := [], [];
    for j := 0 to |chunk|
      invariant keyedValues == Stores(chunk[..j], encode) && keyNames == Listings(list, chunk[..j])
      invariant forall p :: p in chunk[..j] ==> !Rejected(p)
    {
      assert chunk[..j + 1] == chunk[..j] + [chunk[j]];
      if chunk[j].key == "" || IsBlank(chunk[j].rawJson) {
        assert Rejected(chunk[j]) && chunk[j] in chunk;
        return None;
      }
      keyNames := keyNames + [ListName(list, chunk[j].key)];
      keyedValues := keyedValues + [Store(chunk[j].key, encode(chunk[j].rawJson))];
    }
    assert chunk[..|chunk|] == chunk;
    return Some((keyedValues, keyNames));
  }

  /** `log` holds what a failure in the middle of chunk `i` leaves behind. */
  lemma CutShort(list: string, chunks: seq<seq<KeyedPayload>>, i: nat, encode: string -> string, log: seq<Command>)
    requires i < |chunks|
    requires log <= StreamProgram(list, chunks[..i], encode) + Stores(chunks[i], encode) + Listings(list, chunks[i])
    ensures log <= StreamProgram(list, chunks, encode)
  {
    StreamGrows(list, chunks, i, encode);
  }

  method PushKeyedStream(conn: Connection, list: string, chunks: seq<seq<KeyedPayload>>, encode: string -> string)
    returns (r: LoadResult)
    requires conn.log == [] && forall c :: c in chunks ==> c != []
    modifies conn
    ensures conn.log <= StreamProgram(list, chunks, encode)
    ensures r.Loaded? ==> conn.log == StreamProgram(list, chunks, encode) && |conn.log| == 2 * r.total
    ensures r.Loaded? ==> forall k, p :: 0 <= k < |chunks| && p in chunks[k] ==> !Rejected(p)
    // It fails for Redis only when a request did; one with a blank payload or key
    // whose requests succeed is Invalid.
    ensures r.RedisFailed? <==> conn.failures > old(conn.failures)
    ensures conn.failures == old(conn.failures) ==>
      (r.Invalid? <==> exists k, p :: 0 <= k < |chunks| && p in chunks[k] && Rejected(p))
    // A blank payload or key leaves no write from its chunk or a later one.
    ensures r.Invalid? ==>
      exists k :: 0 <= k < |chunks| && (exists p :: p in chunks[k] && Rejected(p)) && conn.log == StreamProgram(list, chunks[..k], encode)
  {
    hide StreamProgram;
    hide Rejected;
    var total: nat := 0;
    assert StreamProgram(list, chunks[..0], encode) == [] by { StreamStarts(list, chunks, encode); }
    for i := 0 to |chunks|
      invariant conn.log == StreamProgram(list, chunks[..i], encode) && |conn.log| == 2 * total
      invariant forall k, p :: 0 <= k < i && p in chunks[k] ==> !Rejected(p)
      invariant conn.failures == old(conn.failures)
    {
      var requests := Gather(list, chunks[i], encode);
      if requests.None? {
        CutShort(list, chunks, i, encode, conn.log);
        return Invalid;
      }
      var stored := conn.Exec(requests.value.0);
      if !stored {
        CutShort(list, chunks, i, encode, conn.log);
        return RedisFailed;
      }
      var listed := conn.Exec(requests.value.1);
      if !listed {
        CutShort(list, chunks, i, encode, conn.log);
        return RedisFailed;
      }
      StreamGrows(list, chunks, i, encode);
      total := total + |chunks[i]|;
    }
    assert chunks[..|chunks|] == chunks;
    return Loaded(total);
  }

  lemma StreamStarts(list: string, chunks: seq<seq<KeyedPayload>>, encode: string -> string)
    ensures StreamProgram(list, chunks[..0], encode) == []
  {
  }
}
