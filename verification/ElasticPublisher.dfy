/** Delivery to Elasticsearch: the retry policy, the partial-failure loop of one
    _bulk chunk, and the chunker. Documents are named by their position in the
    caller's vector, as the original names them by pointer. */
module ElasticPublisher {
  import opened Wrappers

  datatype BulkDoc = BulkDoc(id: string, body: string)

  /** 0 ok, 1 curl did not start, 2 transport error, 3 non-2xx HTTP. */
  datatype PutAttempt = PutAttempt(code: int, httpStatus: int)

  /** One entry of a _bulk response: a status; something the status cannot be
      read from, which counts as status 0; or a value whose inspection throws. */
  datatype Item = Status(n: int) | Malformed | Throws

  /** A response body: unreadable, or "errors" false, or "errors" true with
      items. */
  datatype Response = Unreadable | AllLanded | Items(items: seq<Item>)

  /** What the network and the server do with one POST. `applied` is what took
      effect in the index, whatever the sender gets to hear of it. */
  datatype Answer = Answer(attempt: PutAttempt, response: Response, applied: set<nat>)

  const MAX_RETRY_ATTEMPTS: nat := 3
  const MAX_BULK_DOCS: nat := 1000
  const MAX_BULK_BYTES: nat := 4 * 1024 * 1024

  predicate IsTransientFailure(a: PutAttempt) {
    a.code == 2 || (a.code == 3 && (a.httpStatus == 429 || a.httpStatus >= 500))
  }

  /** The requests of one sender: `wire(k)` answers the k-th. */
  class Sender {
    const wire: nat -> Answer
    var posts: seq<seq<nat>>
    var deadLetters: seq<nat>

    constructor (wire: nat -> Answer)
      ensures this.wire == wire && posts == [] && deadLetters == []
    {
      this.wire, this.posts, this.deadLetters := wire, [], [];
    }

    method Post(pending: seq<nat>) returns (a: Answer)
      modifies this`posts
      ensures posts == old(posts) + [pending] && a == wire(|old(posts)|)
    {
      a := wire(|posts|);
      posts := posts + [pending];
    }

    /** attemptWithRetries: the first attempt that is not a transient failure,
        or the third. */
    method AttemptWithRetries(request: seq<nat>) returns (attempt: PutAttempt)
      modifies this`posts
      ensures |old(posts)| < |posts| <= |old(posts)| + 3 && old(posts) <= posts
      ensures attempt == wire(|posts| - 1).attempt
      ensures forall k :: |old(posts)| <= k < |posts| ==> posts[k] == request
      ensures forall k :: |old(posts)| <= k < |posts| - 1 ==>
        (var a := wire(k).attempt; a.code == 2 || (a.code == 3 && (a.httpStatus == 429 || a.httpStatus >= 500)))
      ensures attempt.code == 2 || (attempt.code == 3 && (attempt.httpStatus == 429 || attempt.httpStatus >= 500)) ==>
        |posts| == |old(posts)| + 3
    {
      for i := 1 to MAX_RETRY_ATTEMPTS
        invariant |posts| == |old(posts)| + i - 1 && old(posts) <= posts
        invariant forall k :: |old(posts)| <= k < |posts| ==> posts[k] == request && IsTransientFailure(wire(k).attempt)
      {
        var answer := Post(request);
        if answer.attempt.code == 0 || !IsTransientFailure(answer.attempt) {
          return answer.attempt;
        }
      }
      var answer := Post(request);
      return answer.attempt;
    }
  }

  // -- one response ------------------------------------------------------------

  datatype ItemVerdict = Landed | Again | Permanent | Blew

  function Judge(items: seq<Item>, k: nat): ItemVerdict {
    var item := if k < |items| then items[k] else Malformed;
    match item
    case Throws => Blew
    case Malformed => Permanent
    case Status(n) => if 200 <= n < 300 then Landed else if n == 429 || n >= 500 then Again else Permanent
  }

  /** The first `k` documents of a batch, sorted by what the items say of them;
      the documents from the first throw on are in `unread`. */
  datatype Reading = Reading(landed: seq<nat>, retry: seq<nat>, dead: seq<nat>, unread: seq<nat>)

  function Sort(before: Reading, verdict: ItemVerdict, doc: nat): Reading {
    if before.unread != [] then before.(unread := before.unread + [doc])
    else
      match verdict
      case Landed => before.(landed := before.landed + [doc])
      case Again => before.(retry := before.retry + [doc])
      case Permanent => before.(dead := before.dead + [doc])
      case Blew => before.(unread := [doc])
  }

  function Read(pending: seq<nat>, items: seq<Item>, k: nat): Reading
    requires k <= |pending|
    decreases k
  {
    if k == 0 then Reading([], [], [], [])
    else Sort(Read(pending, items, k - 1), Judge(items, k - 1), pending[k - 1])
  }

  // -- one chunk ---------------------------------------------------------------

  /** How a chunk ends: acknowledged 2xx, dead-lettered, or assumed delivered
      because the response could not be inspected; and the batches posted. */
  datatype Outcome = Outcome(acked: seq<nat>, dead: seq<nat>, assumed: seq<nat>, rc: int, posts: seq<seq<nat>>)

  function Code(anyDead: bool): int {
    if anyDead then 3 else 0
  }

  datatype Progress = Done(outcome: Outcome) | More(pending: seq<nat>, acked: seq<nat>, dead: seq<nat>)

  /** What one answer to `pending`, the last batch of `sent`, leads to. */
  function Advance(answer: Answer, pending: seq<nat>, acked: seq<nat>, dead: seq<nat>, sent: seq<seq<nat>>): (p: Progress)
    ensures if p.Done? then p.outcome.posts == sent else |sent| < MAX_RETRY_ATTEMPTS
  {
    var spent := |sent| >= MAX_RETRY_ATTEMPTS;
    if answer.attempt.code != 0 then
      if !IsTransientFailure(answer.attempt) || spent
      then Done(Outcome(acked, dead + pending, [], answer.attempt.code, sent))
      else More(pending, acked, dead)
    else
      match answer.response
      case Unreadable => Done(Outcome(acked, dead, pending, Code(dead != []), sent))
      case AllLanded => Done(Outcome(acked + pending, dead, [], Code(dead != []), sent))
      case Items(items) =>
        var r := Read(pending, items, |pending|);
        if r.unread != [] then Done(Outcome(acked + r.landed, dead + r.dead, r.retry + r.unread, Code(dead + r.dead != []), sent))
        else if r.retry == [] then Done(Outcome(acked + r.landed, dead + r.dead, [], Code(dead + r.dead != []), sent))
        else if spent then Done(Outcome(acked + r.landed, dead + r.dead + r.retry, [], 3, sent))
        else More(r.retry, acked + r.landed, dead + r.dead)
  }

  /** postBulkChunk with `pending` still to deliver after `posts`, the first of
      which was request number `base`. */
  function Deliver(wire: nat -> Answer, base: nat, pending: seq<nat>, acked: seq<nat>, dead: seq<nat>, posts: seq<seq<nat>>): Outcome
    requires |posts| < MAX_RETRY_ATTEMPTS
    decreases MAX_RETRY_ATTEMPTS - |posts|
  {
    match Advance(wire(base + |posts|), pending, acked, dead, posts + [pending])
    case Done(outcome) => outcome
    case More(rest, acked', dead') => Deliver(wire, base, rest, acked', dead', posts + [pending])
  }

  /** The per-item loop: what to retry, and whether it ended in an exception.
      Permanent failures go to the dead-letter file as they are met. */
  method InspectItems(s: Sender, pending: seq<nat>, items: seq<Item>) returns (retry: seq<nat>, anyDead: bool, threw: bool)
    modifies s`deadLetters
    ensures s.deadLetters == old(s.deadLetters) + Read(pending, items, |pending|).dead
    ensures anyDead == (Read(pending, items, |pending|).dead != [])
    ensures threw == (Read(pending, items, |pending|).unread != [])
    ensures retry == Read(pending, items, |pending|).retry
  {
    retry, anyDead, threw := [], false, false;
    for k := 0 to |pending|
      invariant Read(pending, items, k) == Reading(Read(pending, items, k).landed, retry, Read(pending, items, k).dead, [])
      invariant s.deadLetters == old(s.deadLetters) + Read(pending, items, k).dead
      invariant anyDead == (Read(pending, items, k).dead != [])
    {
      match Judge(items, k)
      case Landed =>
      case Again => retry := retry + [pending[k]];
      case Permanent =>
        s.deadLetters := s.deadLetters + [pending[k]];
        anyDead := true;
      case Blew =>
        ReadStops(pending, items, k + 1, |pending|);
        return retry, anyDead, true;
    }
  }

  /** Nothing after a throw is looked at. */
  lemma {:induction false} ReadStops(pending: seq<nat>, items: seq<Item>, j: nat, k: nat)
    requires j <= k <= |pending| && Read(pending, items, j).unread != []
    ensures Read(pending, items, k) == Read(pending, items, j).(unread := Read(pending, items, k).unread)
    ensures Read(pending, items, k).unread != []
    decreases k
  {
    if j < k {
      ReadStops(pending, items, j, k - 1);
    }
  }

  /** One attempt. Without a result the loop goes on with `rest`. `letters` is
      the dead-letter file before the chunk, `acked`, `dead` and `sent` the
      chunk's progress. */
  method TryBatch(s: Sender, pending: seq<nat>, anyDeadLettered: bool, last: bool,
                  ghost letters: seq<nat>, ghost acked: seq<nat>, ghost dead: seq<nat>, ghost sent: seq<seq<nat>>)
    returns (result: Option<int>, rest: seq<nat>, anyDead: bool)
    requires s.deadLetters == letters + dead && anyDeadLettered == (dead != []) && last == (|sent| + 1 >= MAX_RETRY_ATTEMPTS)
    modifies s
    ensures s.posts == old(s.posts) + [pending]
    ensures match Advance(s.wire(|old(s.posts)|), pending, acked, dead, sent + [pending])
            case Done(o) => result == Some(o.rc) && s.deadLetters == letters + o.dead
            case More(rest', _, dead') =>
              result == None && rest == rest' && s.deadLetters == letters + dead' && anyDead == (dead' != [])
  {
    hide Judge, IsTransientFailure;
    rest, anyDead := pending, anyDeadLettered;
    var answer := s.Post(pending);
    var attempt := answer.attempt;
    if attempt.code == 0 {
      if answer.response.Unreadable? || answer.response.AllLanded? {
        return Some(if anyDeadLettered then 3 else 0), rest, anyDead;
      }
      hide Read;
      ghost var reading := Read(pending, answer.response.items, |pending|);
      var retry, more, threw := InspectItems(s, pending, answer.response.items);
      assert letters + dead + reading.dead == letters + (dead + reading.dead);
      anyDead := anyDeadLettered || more;
      if threw || retry == [] {
        return Some(if anyDead then 3 else 0), rest, anyDead;
      }
      rest := retry;
      if !last {
        return None, rest, anyDead;
      }
      assert letters + (dead + reading.dead) + retry == letters + (dead + reading.dead + retry);
    } else {
      if IsTransientFailure(attempt) && !last {
        return None, rest, anyDead;
      }
      assert letters + dead + pending == letters + (dead + pending);
    }
    // Retries exhausted, or a failure that would repeat.
    s.deadLetters := s.deadLetters + rest;
    return Some(if attempt.code != 0 then attempt.code else 3), rest, anyDead;
  }

  method PostBulkChunk(s: Sender, chunk: seq<nat>) returns (rc: int)
    modifies s
    ensures var o := Deliver(s.wire, |old(s.posts)|, chunk, [], [], []);
      rc == o.rc && s.deadLetters == old(s.deadLetters) + o.dead && s.posts == old(s.posts) + o.posts
  {
    hide Advance;
    ghost var base := |s.posts|;
    ghost var acked, dead: seq<nat>, posts: seq<seq<nat>> := [], [], [];
    ghost var goal := Deliver(s.wire, base, chunk, [], [], []);
    var pending, anyDeadLettered := chunk, false;
    var i := 1;
    while true
      invariant 1 <= i <= MAX_RETRY_ATTEMPTS && i == |posts| + 1
      invariant s.posts == old(s.posts) + posts
      invariant goal == Deliver(s.wire, base, pending, acked, dead, posts)
      invariant s.deadLetters == old(s.deadLetters) + dead && anyDeadLettered == (dead != [])
      decreases MAX_RETRY_ATTEMPTS - i
    {
      ghost var progress := Advance(s.wire(|s.posts|), pending, acked, dead, posts + [pending]);
      assert old(s.posts) + posts + [pending] == old(s.posts) + (posts + [pending]);
      var result, rest, anyDead := TryBatch(s, pending, anyDeadLettered, i == MAX_RETRY_ATTEMPTS, old(s.deadLetters), acked, dead, posts);
      if result.Some? {
        return result.value;
      }
      posts, acked, dead := posts + [pending], progress.acked, progress.dead;
      pending, anyDeadLettered := rest, anyDead;
      i := i + 1;
    }
  }

  // -- every document is accounted for -------------------------------------------

  ghost function One(doc: nat, x: nat): nat {
    if doc == x then 1 else 0
  }

  /** Occurrences of `x`. */
  ghost function Count(s: seq<nat>, x: nat): (n: nat)
    ensures s == [] ==> n == 0
  {
    if s == [] then 0 else Count(s[..|s| - 1], x) + One(s[|s| - 1], x)
  }

  lemma CountGrows(s: seq<nat>, doc: nat, x: nat)
    ensures Count(s + [doc], x) == Count(s, x) + One(doc, x)
  {
    assert (s + [doc])[..|s|] == s;
  }

  lemma {:induction false} CountAdds(a: seq<nat>, b: seq<nat>, x: nat)
    ensures Count(a + b, x) == Count(a, x) + Count(b, x)
    decreases |b|
  {
    if b == [] {
      assert a + b == a;
    } else {
      CountAdds(a, b[..|b| - 1], x);
      assert (a + b)[..|a + b| - 1] == a + b[..|b| - 1];
    }
  }

  ghost function Places(r: Reading, x: nat): nat {
    Count(r.landed, x) + Count(r.retry, x) + Count(r.dead, x) + Count(r.unread, x)
  }

  lemma SortPlacesOne(before: Reading, verdict: ItemVerdict, doc: nat, x: nat)
    ensures Places(Sort(before, verdict, doc), x) == Places(before, x) + One(doc, x)
  {
    CountGrows(before.landed, doc, x);
    CountGrows(before.retry, doc, x);
    CountGrows(before.dead, doc, x);
    CountGrows(before.unread, doc, x);
    assert [] + [doc] == [doc];
  }

  /** Occurrences among the first `k`. */
  ghost function Seen(s: seq<nat>, k: nat, x: nat): nat
    requires k <= |s|
  {
    if k == 0 then 0 else Seen(s, k - 1, x) + One(s[k - 1], x)
  }

  lemma {:induction false} SeenCounts(s: seq<nat>, k: nat, x: nat)
    requires k <= |s|
    ensures Seen(s, k, x) == Count(s[..k], x)
    decreases k
  {
    if k > 0 {
      SeenCounts(s, k - 1, x);
      assert s[..k][..k - 1] == s[..k - 1];
    }
  }

  lemma {:induction false} ReadPartitions(pending: seq<nat>, items: seq<Item>, k: nat, x: nat)
    requires k <= |pending|
    ensures Places(Read(pending, items, k), x) == Seen(pending, k, x)
    decreases k
  {
    if k > 0 {
      hide Judge, Sort, Places, Count, One;
      ReadPartitions(pending, items, k - 1, x);
      SortPlacesOne(Read(pending, items, k - 1), Judge(items, k - 1), pending[k - 1], x);
    }
  }

  /** An answer whose 2xx body defies inspection. */
  predicate Uninspectable(a: Answer, batch: seq<nat>) {
    a.attempt.code == 0
    && (a.response.Unreadable? || (a.response.Items? && exists k :: 0 <= k < |batch| && Judge(a.response.items, k) == Blew))
  }

  lemma {:induction false} ReadThrows(pending: seq<nat>, items: seq<Item>, k: nat)
    requires k <= |pending|
    ensures Read(pending, items, k).unread != [] <==> exists j :: 0 <= j < k && Judge(items, j) == Blew
    decreases k
  {
    if k > 0 {
      ReadThrows(pending, items, k - 1);
    }
  }

  /** How often a document ends: acknowledged, dead-lettered or assumed. */
  ghost function Endings(o: Outcome, x: nat): nat {
    Count(o.acked, x) + Count(o.dead, x) + Count(o.assumed, x)
  }

  /** The last request's own code, or 3 when something was dead-lettered. */
  function ResultOf(code: int, dead: seq<nat>): int {
    if code != 0 then code else if dead == [] then 0 else 3
  }

  ghost predicate Accounts(p: Progress, answer: Answer, pending: seq<nat>, acked: seq<nat>, dead: seq<nat>, sent: seq<seq<nat>>, x: nat) {
    match p
    case Done(o) =>
      && Endings(o, x) == Count(acked, x) + Count(dead, x) + Count(pending, x)
      && (o.rc == 0 <==> o.dead == []) && o.posts == sent
      && o.rc == ResultOf(answer.attempt.code, o.dead)
      && (o.assumed != [] <==> Uninspectable(answer, pending))
    case More(rest, acked', dead') =>
      && Count(acked', x) + Count(dead', x) + Count(rest, x) == Count(acked, x) + Count(dead, x) + Count(pending, x)
      && rest != [] && |sent| < MAX_RETRY_ATTEMPTS
  }

  /** One answer loses no document and invents none. */
  lemma AdvanceAccounts(answer: Answer, pending: seq<nat>, acked: seq<nat>, dead: seq<nat>, sent: seq<seq<nat>>, x: nat)
    requires pending != []
    ensures Accounts(Advance(answer, pending, acked, dead, sent), answer, pending, acked, dead, sent, x)
  {
    hide Judge, Read, Seen, Count;
    CountAdds(acked, pending, x);
    CountAdds(dead, pending, x);
    if answer.attempt.code == 0 && answer.response.Items? {
      var items := answer.response.items;
      ReadPartitions(pending, items, |pending|, x);
      SeenCounts(pending, |pending|, x);
      ReadThrows(pending, items, |pending|);
      assert pending[..|pending|] == pending;
      var r := Read(pending, items, |pending|);
      CountAdds(acked, r.landed, x);
      CountAdds(dead, r.dead, x);
      CountAdds(dead + r.dead, r.retry, x);
      CountAdds(r.retry, r.unread, x);
    }
  }

  lemma {:induction false} DeliverAccounts(wire: nat -> Answer, base: nat, pending: seq<nat>, acked: seq<nat>, dead: seq<nat>,
                                           posts: seq<seq<nat>>, x: nat)
    requires |posts| < MAX_RETRY_ATTEMPTS && pending != []
    ensures var o := Deliver(wire, base, pending, acked, dead, posts);
      && Endings(o, x) == Count(acked, x) + Count(dead, x) + Count(pending, x)
      && (o.rc == 0 <==> o.dead == [])
      && posts + [pending] <= o.posts && |o.posts| <= 3
      && o.rc == ResultOf(wire(base + |o.posts| - 1).attempt.code, o.dead)
      && (o.assumed != [] <==> Uninspectable(wire(base + |o.posts| - 1), o.posts[|o.posts| - 1]))
    decreases MAX_RETRY_ATTEMPTS - |posts|
  {
    hide Advance, Endings, Uninspectable, Count, ResultOf;
    AdvanceAccounts(wire(base + |posts|), pending, acked, dead, posts + [pending], x);
    match Advance(wire(base + |posts|), pending, acked, dead, posts + [pending])
    case Done(_) =>
    case More(rest, acked', dead') => DeliverAccounts(wire, base, rest, acked', dead', posts + [pending], x);
  }

  /** Every document of a chunk ends exactly once: acknowledged, dead-lettered,
      or, if and only if the last response could not be inspected, assumed
      delivered. The result is 0 exactly when nothing was dead-lettered. */
  lemma ChunkIsAccountedFor(wire: nat -> Answer, base: nat, chunk: seq<nat>)
    requires chunk != []
    ensures var o := Deliver(wire, base, chunk, [], [], []);
      && (forall x :: Endings(o, x) == Count(chunk, x))
      && (o.rc == 0 <==> o.dead == [])
      && 1 <= |o.posts| <= 3 && o.posts[0] == chunk
      && o.rc == ResultOf(wire(base + |o.posts| - 1).attempt.code, o.dead)
      && (o.assumed != [] <==> Uninspectable(wire(base + |o.posts| - 1), o.posts[|o.posts| - 1]))
  {
    hide Endings, Uninspectable, Deliver, ResultOf;
    assert forall x: nat :: Count([], x) == 0;
    hide Count;
    forall x: nat ensures Endings(Deliver(wire, base, chunk, [], [], []), x) == Count(chunk, x) {
      DeliverAccounts(wire, base, chunk, [], [], [], x);
    }
    DeliverAccounts(wire, base, chunk, [], [], [], 0);
  }

  /** The inspection failure can hide a rejection the server did report: the
      first document was refused for now, the second item is not readable, and
      the chunk returns success with neither document anywhere. */
  lemma InspectionFailureLosesDocuments(wire: nat -> Answer)
    requires wire(0) == Answer(PutAttempt(0, 200), Items([Status(429), Throws]), {})
    ensures var o := Deliver(wire, 0, [0, 1], [], [], []); o.rc == 0 && o.acked == [] && o.dead == [] && o.assumed == [0, 1]
  {
    var items := [Status(429), Throws];
    assert Read([0, 1], items, 1) == Reading([], [0], [], []) by {
      assert Read([0, 1], items, 0) == Reading([], [], [], []);
    }
    assert Read([0, 1], items, 2) == Reading([], [0], [], [1]);
  }

  // -- retry batches -------------------------------------------------------------

  /** `a` arises from `b` by dropping elements. */
  predicate IsSubsequence(a: seq<nat>, b: seq<nat>) {
    if b == [] then a == []
    else
      || IsSubsequence(a, b[..|b| - 1])
      || (a != [] && a[|a| - 1] == b[|b| - 1] && IsSubsequence(a[..|a| - 1], b[..|b| - 1]))
  }

  lemma {:induction false} SubsequenceOfItself(a: seq<nat>)
    ensures IsSubsequence(a, a)
  {
    if a != [] {
      SubsequenceOfItself(a[..|a| - 1]);
    }
  }

  lemma {:induction false} RetryIsSubsequence(pending: seq<nat>, items: seq<Item>, k: nat)
    requires k <= |pending|
    ensures IsSubsequence(Read(pending, items, k).retry, pending[..k])
    decreases k
  {
    if k > 0 {
      hide Judge;
      var before := Read(pending, items, k - 1).retry;
      RetryIsSubsequence(pending, items, k - 1);
      assert pending[..k][..k - 1] == pending[..k - 1];
      assert (before + [pending[k - 1]])[..|before|] == before;
    }
  }

  /** Each batch of a chunk is the previous one with documents dropped. */
  lemma {:induction false} BatchesShrink(wire: nat -> Answer, base: nat, pending: seq<nat>, acked: seq<nat>, dead: seq<nat>, posts: seq<seq<nat>>)
    requires |posts| < MAX_RETRY_ATTEMPTS
    ensures var o := Deliver(wire, base, pending, acked, dead, posts);
      posts + [pending] <= o.posts && forall k :: |posts| < k < |o.posts| ==> IsSubsequence(o.posts[k], o.posts[k - 1])
    decreases MAX_RETRY_ATTEMPTS - |posts|
  {
    hide Read, Judge, IsSubsequence;
    var answer := wire(base + |posts|);
    if answer.attempt.code == 0 && answer.response.Items? {
      RetryIsSubsequence(pending, answer.response.items, |pending|);
      assert pending[..|pending|] == pending;
    }
    SubsequenceOfItself(pending);
    match Advance(answer, pending, acked, dead, posts + [pending])
    case Done(_) =>
    case More(rest, acked', dead') =>
      assert IsSubsequence(rest, pending);
      hide Advance;
      BatchesShrink(wire, base, rest, acked', dead', posts + [pending]);
  }

  // -- the retry policy --------------------------------------------------------

  /** Worth another attempt, by the status alone. */
  predicate ForNow(status: int) {
    status == 429 || status >= 500
  }

  /** A transport error, 429 or 5xx on the n-th of at most three attempts has the
      same batch posted again; any other failure, and the third, ends the chunk
      with everything pending dead-lettered and that code as the result. */
  lemma FailedAttemptDecides(wire: nat -> Answer, base: nat, pending: seq<nat>, acked: seq<nat>, dead: seq<nat>, posts: seq<seq<nat>>)
    requires |posts| < 3 && wire(base + |posts|).attempt.code != 0
    ensures var a, o := wire(base + |posts|).attempt, Deliver(wire, base, pending, acked, dead, posts);
      if |posts| < 2 && (a.code == 2 || (a.code == 3 && ForNow(a.httpStatus))) then posts + [pending, pending] <= o.posts
      else o == Outcome(acked, dead + pending, [], a.code, posts + [pending])
  {
    var sent := posts + [pending];
    assert sent + [pending] == posts + [pending, pending];
    if |posts| < 2 {
      BatchesShrink(wire, base, pending, acked, dead, sent);
    }
    hide IsSubsequence;
  }

  /** The first request of a chunk, spelled out. */
  lemma FirstAttemptDecides(wire: nat -> Answer, base: nat, chunk: seq<nat>)
    ensures var a, o := wire(base).attempt, Deliver(wire, base, chunk, [], [], []);
      && (a.code == 2 || (a.code == 3 && (a.httpStatus == 429 || a.httpStatus >= 500)) ==> |o.posts| >= 2 && o.posts[1] == chunk)
      && (a.code != 0 && a.code != 2 && !(a.code == 3 && (a.httpStatus == 429 || a.httpStatus >= 500)) ==>
            o.posts == [chunk] && o.dead == chunk && o.rc == a.code)
  {
    hide Deliver, Advance;
    var none: seq<seq<nat>> := [];
    assert none + [chunk] == [chunk] && none + [chunk, chunk] == [chunk, chunk];
    if wire(base).attempt.code != 0 {
      FailedAttemptDecides(wire, base, chunk, [], [], none);
    }
  }

  /** A response read to its end has exactly the documents it refused for now
      posted again, unless there are none or the three attempts are spent, in
      which case they are dead-lettered with the others and the result is 3. */
  lemma ReadAttemptDecides(wire: nat -> Answer, base: nat, pending: seq<nat>, acked: seq<nat>, dead: seq<nat>, posts: seq<seq<nat>>, d: nat)
    requires |posts| < 3
    requires var a := wire(base + |posts|); a.attempt.code == 0 && a.response.Items? && !Uninspectable(a, pending)
    ensures var items, o := wire(base + |posts|).response.items, Deliver(wire, base, pending, acked, dead, posts);
      var refused := exists i: nat :: i < |pending| && pending[i] == d && ForNow(StatusOf(items, i));
      && (refused && |posts| < 2 ==> |o.posts| > |posts| + 1 && d in o.posts[|posts| + 1])
      && (|o.posts| > |posts| + 1 && d in o.posts[|posts| + 1] ==> refused)
      && (refused && |posts| == 2 ==> d in o.dead && o.rc == 3)
  {
    hide Judge;
    var items := wire(base + |posts|).response.items;
    var r := Read(pending, items, |pending|);
    ReadThrows(pending, items, |pending|);
    ReadSortsByStatus(pending, items, |pending|, d);
    hide Read, StatusOf, IsSubsequence;
    if r.retry != [] && |posts| < 2 {
      BatchesShrink(wire, base, r.retry, acked + r.landed, dead + r.dead, posts + [pending]);
    }
  }

  // -- what the statuses mean ----------------------------------------------------

  /** The status the k-th item reports; 0 when there is none to read. */
  function StatusOf(items: seq<Item>, k: nat): int {
    if k < |items| && items[k].Status? then items[k].n else 0
  }

  /** A response read to its end sorts a batch by status and by nothing else:
      2xx has landed, 429 and 5xx are tried again, the rest, and what has no
      status, is dead-lettered. */
  lemma {:induction false} ReadSortsByStatus(pending: seq<nat>, items: seq<Item>, k: nat, d: nat)
    requires k <= |pending| && Read(pending, items, k).unread == []
    ensures var r := Read(pending, items, k);
      && (d in r.landed <==> exists i: nat :: i < k && pending[i] == d && 200 <= StatusOf(items, i) < 300)
      && (d in r.retry <==> exists i: nat :: i < k && pending[i] == d && (StatusOf(items, i) == 429 || StatusOf(items, i) >= 500))
      && (d in r.dead <==> exists i: nat :: i < k && pending[i] == d && !(200 <= StatusOf(items, i) < 300)
                                            && StatusOf(items, i) != 429 && StatusOf(items, i) < 500)
    decreases k
  {
    if k > 0 {
      ReadSortsByStatus(pending, items, k - 1, d);
    }
  }

  /** The server answered 2xx for this document of the batch. */
  predicate Acknowledges(a: Answer, batch: seq<nat>, d: nat) {
    a.attempt.code == 0
    && ((a.response.AllLanded? && d in batch)
        || (a.response.Items? && exists i: nat :: i < |batch| && batch[i] == d && 200 <= StatusOf(a.response.items, i) < 300))
  }

  ghost predicate Acknowledged(wire: nat -> Answer, base: nat, posts: seq<seq<nat>>, d: nat) {
    exists j: nat :: j < |posts| && Acknowledges(AnswerTo(wire, base, j), posts[j], d)
  }

  function AnswerTo(wire: nat -> Answer, base: nat, j: nat): Answer {
    wire(base + j)
  }

  lemma {:induction false} LandedIs2xx(a: Answer, batch: seq<nat>, k: nat, d: nat)
    requires a.attempt.code == 0 && a.response.Items? && k <= |batch| && d in Read(batch, a.response.items, k).landed
    ensures Acknowledges(a, batch, d)
    decreases k
  {
    var before := Read(batch, a.response.items, k - 1);
    if d in before.landed {
      LandedIs2xx(a, batch, k - 1, d);
    } else {
      assert batch[k - 1] == d && 200 <= StatusOf(a.response.items, k - 1) < 300;
    }
  }

  /** A document counts as delivered only on a 2xx of its own. */
  lemma {:induction false} AckedWere2xx(wire: nat -> Answer, base: nat, pending: seq<nat>, acked: seq<nat>, dead: seq<nat>, posts: seq<seq<nat>>, d: nat)
    requires |posts| < MAX_RETRY_ATTEMPTS
    requires d in Deliver(wire, base, pending, acked, dead, posts).acked
    ensures d in acked || Acknowledged(wire, base, Deliver(wire, base, pending, acked, dead, posts).posts, d)
    decreases MAX_RETRY_ATTEMPTS - |posts|
  {
    hide Judge, Read, Acknowledges, IsSubsequence;
    var answer, o := AnswerTo(wire, base, |posts|), Deliver(wire, base, pending, acked, dead, posts);
    BatchesShrink(wire, base, pending, acked, dead, posts);
    assert o.posts[|posts|] == pending;
    assert Acknowledges(answer, pending, d) ==> Acknowledged(wire, base, o.posts, d);
    if answer.attempt.code == 0 && answer.response.AllLanded? && d in pending {
      AllLandedIs2xx(answer, pending, d);
    } else if answer.attempt.code == 0 && answer.response.Items? && d in Read(pending, answer.response.items, |pending|).landed {
      LandedIs2xx(answer, pending, |pending|, d);
    }
    match Advance(answer, pending, acked, dead, posts + [pending])
    case Done(_) =>
    case More(rest, acked', dead') =>
      AckedWere2xx(wire, base, rest, acked', dead', posts + [pending], d);
  }

  lemma AllLandedIs2xx(a: Answer, batch: seq<nat>, d: nat)
    requires a.attempt.code == 0 && a.response.AllLanded? && d in batch
    ensures Acknowledges(a, batch, d)
  {
  }

  // -- replays ---------------------------------------------------------------------

  ghost predicate DistinctIds(docs: seq<BulkDoc>) {
    forall a, b :: 0 <= a < b < |docs| ==> docs[a].id != docs[b].id
  }

  /** A server applies only what it was sent, and acknowledges only what it
      applied; when it fails it may have applied any part. */
  ghost predicate Honest(a: Answer, batch: seq<nat>) {
    && (forall d :: d in a.applied ==> d in batch)
    && (a.attempt.code == 0 && a.response.AllLanded? ==> forall d :: d in batch ==> d in a.applied)
    && (a.attempt.code == 0 && a.response.Items? ==>
          forall k :: 0 <= k < |batch| && Judge(a.response.items, k) == Landed ==> batch[k] in a.applied)
  }

  ghost predicate HonestRun(wire: nat -> Answer, base: nat, posts: seq<seq<nat>>) {
    forall j :: 0 <= j < |posts| ==> Honest(wire(base + j), posts[j])
  }

  ghost predicate Applied(wire: nat -> Answer, base: nat, posts: seq<seq<nat>>, d: nat) {
    exists j: nat :: j < |posts| && d in Took(wire, base, j)
  }

  function Took(wire: nat -> Answer, base: nat, j: nat): set<nat> {
    wire(base + j).applied
  }

  lemma {:induction false} LandedIsApplied(a: Answer, batch: seq<nat>, k: nat)
    requires Honest(a, batch) && a.attempt.code == 0 && a.response.Items? && k <= |batch|
    ensures forall d :: d in Read(batch, a.response.items, k).landed ==> d in a.applied
    ensures forall d :: d in Read(batch, a.response.items, k).retry ==> d in batch
    decreases k
  {
    if k > 0 {
      LandedIsApplied(a, batch, k - 1);
    }
  }

  lemma {:induction false} AckedIsApplied(wire: nat -> Answer, base: nat, pending: seq<nat>, acked: seq<nat>, dead: seq<nat>, posts: seq<seq<nat>>)
    requires |posts| < MAX_RETRY_ATTEMPTS && HonestRun(wire, base, Deliver(wire, base, pending, acked, dead, posts).posts)
    ensures var o := Deliver(wire, base, pending, acked, dead, posts);
      && posts + [pending] <= o.posts
      && (forall d :: d in o.acked ==> d in acked || Applied(wire, base, o.posts, d))
      && (forall j, d :: |posts| <= j < |o.posts| && d in o.posts[j] ==> d in pending)
    decreases MAX_RETRY_ATTEMPTS - |posts|
  {
    hide Judge, Read;
    BatchesShrink(wire, base, pending, acked, dead, posts);
    hide IsSubsequence;
    var o, answer := Deliver(wire, base, pending, acked, dead, posts), wire(base + |posts|);
    assert o.posts[|posts|] == pending && Honest(answer, pending);
    if answer.attempt.code == 0 && answer.response.Items? {
      LandedIsApplied(answer, pending, |pending|);
    }
    assert forall d :: d in Took(wire, base, |posts|) ==> Applied(wire, base, o.posts, d);
    hide Honest;
    match Advance(answer, pending, acked, dead, posts + [pending])
    case Done(_) =>
    case More(rest, acked', dead') =>
      AckedIsApplied(wire, base, rest, acked', dead', posts + [pending]);
  }

  /** The index after one POST took effect, in the order of its body. */
  function ApplyBatch(docs: seq<BulkDoc>, index: map<string, string>, batch: seq<nat>, applied: set<nat>): map<string, string> {
    if batch == [] then index
    else
      var before, d := ApplyBatch(docs, index, batch[..|batch| - 1], applied), batch[|batch| - 1];
      if d in applied && d < |docs| then before[docs[d].id := docs[d].body] else before
  }

  function ApplyPosts(docs: seq<BulkDoc>, index: map<string, string>, wire: nat -> Answer, base: nat, posts: seq<seq<nat>>): map<string, string> {
    if posts == [] then index
    else
      var n := |posts| - 1;
      ApplyBatch(docs, ApplyPosts(docs, index, wire, base, posts[..n]), posts[n], wire(base + n).applied)
  }

  predicate Holds(index: map<string, string>, doc: BulkDoc) {
    doc.id in index && index[doc.id] == doc.body
  }

  lemma {:induction false} BatchLands(docs: seq<BulkDoc>, index: map<string, string>, batch: seq<nat>, applied: set<nat>, d: nat)
    requires DistinctIds(docs) && d < |docs|
    requires Holds(index, docs[d]) || (d in batch && d in applied)
    ensures Holds(ApplyBatch(docs, index, batch, applied), docs[d])
  {
    if batch != [] {
      var front, last := batch[..|batch| - 1], batch[|batch| - 1];
      assert batch == front + [last];
      if Holds(index, docs[d]) || d in front {
        BatchLands(docs, index, front, applied, d);
      }
    }
  }

  lemma {:induction false} BatchLeaves(docs: seq<BulkDoc>, index: map<string, string>, batch: seq<nat>, applied: set<nat>, id: string)
    requires forall d :: 0 <= d < |docs| && d in batch ==> docs[d].id != id
    ensures var r := ApplyBatch(docs, index, batch, applied); (id in r <==> id in index) && (id in r ==> r[id] == index[id])
  {
    if batch != [] {
      BatchLeaves(docs, index, batch[..|batch| - 1], applied, id);
      assert batch[|batch| - 1] in batch;
    }
  }

  lemma {:induction false} PostsLand(docs: seq<BulkDoc>, index: map<string, string>, wire: nat -> Answer, base: nat, posts: seq<seq<nat>>, d: nat)
    requires DistinctIds(docs) && HonestRun(wire, base, posts) && d < |docs| && Applied(wire, base, posts, d)
    ensures Holds(ApplyPosts(docs, index, wire, base, posts), docs[d])
  {
    var n := |posts| - 1;
    if d !in wire(base + n).applied {
      var j: nat :| j < |posts| && d in Took(wire, base, j);
      assert forall i :: 0 <= i < n ==> posts[..n][i] == posts[i];
      PostsLand(docs, index, wire, base, posts[..n], d);
    } else {
      assert Honest(wire(base + n), posts[n]);
    }
    BatchLands(docs, ApplyPosts(docs, index, wire, base, posts[..n]), posts[n], wire(base + n).applied, d);
  }

  lemma {:induction false} PostsLeave(docs: seq<BulkDoc>, index: map<string, string>, wire: nat -> Answer, base: nat, posts: seq<seq<nat>>, id: string)
    requires forall j, d :: 0 <= j < |posts| && d in posts[j] && d < |docs| ==> docs[d].id != id
    ensures var r := ApplyPosts(docs, index, wire, base, posts); (id in r <==> id in index) && (id in r ==> r[id] == index[id])
  {
    if posts != [] {
      var n := |posts| - 1;
      PostsLeave(docs, index, wire, base, posts[..n], id);
      BatchLeaves(docs, ApplyPosts(docs, index, wire, base, posts[..n]), posts[n], wire(base + n).applied, id);
    }
  }

  /** With distinct ids, whatever was applied, lost or replayed: every
      acknowledged document is in the index under its id, and nothing changed
      but the ids of this chunk. */
  lemma ReplaysAreIdempotent(docs: seq<BulkDoc>, index: map<string, string>, wire: nat -> Answer, base: nat, chunk: seq<nat>)
    requires DistinctIds(docs) && chunk != [] && forall d :: d in chunk ==> d < |docs|
    requires HonestRun(wire, base, Deliver(wire, base, chunk, [], [], []).posts)
    ensures var o := Deliver(wire, base, chunk, [], [], []);
      var after := ApplyPosts(docs, index, wire, base, o.posts);
      && (forall d :: d in o.acked && d < |docs| ==> Holds(after, docs[d]))
      && (forall id :: (forall d :: d in chunk ==> docs[d].id != id) ==>
            (id in after <==> id in index) && (id in after ==> after[id] == index[id]))
  {
    hide Deliver, Holds;
    var o := Deliver(wire, base, chunk, [], [], []);
    AckedIsApplied(wire, base, chunk, [], [], []);
    forall d | d in o.acked && d < |docs| ensures Holds(ApplyPosts(docs, index, wire, base, o.posts), docs[d]) {
      PostsLand(docs, index, wire, base, o.posts, d);
    }
    forall id | forall d :: d in chunk ==> docs[d].id != id
      ensures var after := ApplyPosts(docs, index, wire, base, o.posts); (id in after <==> id in index) && (id in after ==> after[id] == index[id])
    {
      PostsLeave(docs, index, wire, base, o.posts, id);
    }
  }

  // -- the chunker -----------------------------------------------------------------

  function Weight(docs: seq<BulkDoc>, d: nat): nat {
    if d < |docs| then |docs[d].id| + |docs[d].body| + 32 else 0
  }

  function Bytes(docs: seq<BulkDoc>, chunk: seq<nat>): nat {
    if chunk == [] then 0 else Bytes(docs, chunk[..|chunk| - 1]) + Weight(docs, chunk[|chunk| - 1])
  }

  function Flatten(chunks: seq<seq<nat>>): seq<nat> {
    if chunks == [] then [] else Flatten(chunks[..|chunks| - 1]) + chunks[|chunks| - 1]
  }

  function Upto(n: nat): (r: seq<nat>)
    ensures |r| == n && forall i :: 0 <= i < n ==> r[i] == i
  {
    seq(n, i => i)
  }

  /** Full enough to post: one more document would not have been added. */
  predicate IsFull(docs: seq<BulkDoc>, chunk: seq<nat>) {
    |chunk| >= 1000 || Bytes(docs, chunk) >= 4 * 1024 * 1024
  }

  /** At most 1000 documents, and below 4 MiB before the last one. */
  predicate WithinCaps(docs: seq<BulkDoc>, chunk: seq<nat>) {
    0 < |chunk| <= 1000 && Bytes(docs, chunk[..|chunk| - 1]) < 4 * 1024 * 1024
  }

  function Then(before: Outcome, o: Outcome): Outcome {
    Outcome(before.acked + o.acked, before.dead + o.dead, before.assumed + o.assumed,
            if o.rc != 0 then o.rc else before.rc, before.posts + o.posts)
  }

  /** What bulkIndexDocuments makes of its chunks, posted one after another. */
  function DeliverAll(wire: nat -> Answer, base: nat, chunks: seq<seq<nat>>): Outcome {
    if chunks == [] then Outcome([], [], [], 0, [])
    else
      var before := DeliverAll(wire, base, chunks[..|chunks| - 1]);
      var o := Deliver(wire, base + |before.posts|, chunks[|chunks| - 1], [], [], []);
      Then(before, o)
  }

  /** How the input is cut: in order, nothing left out, every chunk within the
      caps and all but the last full. */
  ghost predicate IsCut(docs: seq<BulkDoc>, chunks: seq<seq<nat>>) {
    && Flatten(chunks) == Upto(|docs|)
    && (forall c :: c in chunks ==> WithinCaps(docs, c))
    && (forall i :: 0 <= i < |chunks| - 1 ==> IsFull(docs, chunks[i]))
  }

  method Flush(s: Sender, chunk: seq<nat>, worst: int, ghost base: nat, ghost letters: seq<nat>, ghost sent: seq<seq<nat>>, ghost chunks: seq<seq<nat>>)
    returns (rc: int)
    requires var o := DeliverAll(s.wire, base, chunks);
      worst == o.rc && s.deadLetters == letters + o.dead && s.posts == sent + o.posts && |sent| == base
    modifies s
    ensures var o := DeliverAll(s.wire, base, chunks + [chunk]);
      rc == o.rc && s.deadLetters == letters + o.dead && s.posts == sent + o.posts
  {
    hide Deliver;
    ghost var before := DeliverAll(s.wire, base, chunks);
    ghost var o := Deliver(s.wire, |s.posts|, chunk, [], [], []);
    assert (chunks + [chunk])[..|chunks|] == chunks;
    assert letters + before.dead + o.dead == letters + (before.dead + o.dead);
    assert sent + before.posts + o.posts == sent + (before.posts + o.posts);
    var code := PostBulkChunk(s, chunk);
    return if code != 0 then code else worst;
  }

  method BulkIndexDocuments(s: Sender, docs: seq<BulkDoc>, enabled: bool) returns (worst: int, ghost chunks: seq<seq<nat>>)
    modifies s
    ensures docs == [] || !enabled ==> worst == 0 && chunks == [] && s.posts == old(s.posts) && s.deadLetters == old(s.deadLetters)
    ensures docs != [] && enabled ==> IsCut(docs, chunks)
    ensures var o := DeliverAll(s.wire, |old(s.posts)|, chunks);
      worst == o.rc && s.deadLetters == old(s.deadLetters) + o.dead && s.posts == old(s.posts) + o.posts
  {
    hide Flatten, Bytes, Weight, Deliver;
    worst, chunks := 0, [];
    assert Flatten([]) == [] && Bytes(docs, []) == 0 by { EmptyCut(docs); }
    if docs == [] || !enabled {
      return;
    }
    ghost var base := |s.posts|;
    var chunk: seq<nat> := [];
    var chunkBytes := 0;
    for d := 0 to |docs|
      invariant Flatten(chunks) + chunk == Upto(d)
      invariant forall c :: c in chunks ==> WithinCaps(docs, c) && IsFull(docs, c)
      invariant chunkBytes == Bytes(docs, chunk) && !IsFull(docs, chunk)
      invariant var o := DeliverAll(s.wire, base, chunks);
        worst == o.rc && s.deadLetters == old(s.deadLetters) + o.dead && s.posts == old(s.posts) + o.posts
    {
      CutGrows(docs, chunks, chunk, d);
      chunk := chunk + [d];
      chunkBytes := chunkBytes + |docs[d].id| + |docs[d].body| + 32;
      if |chunk| >= MAX_BULK_DOCS || chunkBytes >= MAX_BULK_BYTES {
        worst := Flush(s, chunk, worst, base, old(s.deadLetters), old(s.posts), chunks);
        chunks := chunks + [chunk];
        chunk, chunkBytes := [], 0;
      }
    }
    if chunk != [] {
      CutEnds(docs, chunks, chunk);
      worst := Flush(s, chunk, worst, base, old(s.deadLetters), old(s.posts), chunks);
      chunks := chunks + [chunk];
    }
  }

  lemma EmptyCut(docs: seq<BulkDoc>)
    ensures Flatten([]) == [] && Bytes(docs, []) == 0
  {
  }

  lemma FlattenGrows(chunks: seq<seq<nat>>, chunk: seq<nat>)
    ensures Flatten(chunks + [chunk]) == Flatten(chunks) + chunk
  {
    assert (chunks + [chunk])[..|chunks|] == chunks;
  }

  lemma CutGrows(docs: seq<BulkDoc>, chunks: seq<seq<nat>>, chunk: seq<nat>, d: nat)
    requires d < |docs| && Flatten(chunks) + chunk == Upto(d) && !IsFull(docs, chunk)
    ensures Flatten(chunks) + (chunk + [d]) == Upto(d + 1) && Flatten(chunks + [chunk + [d]]) == Upto(d + 1)
    ensures Bytes(docs, chunk + [d]) == Bytes(docs, chunk) + |docs[d].id| + |docs[d].body| + 32
    ensures WithinCaps(docs, chunk + [d])
  {
    assert (chunk + [d])[..|chunk|] == chunk;
    FlattenGrows(chunks, chunk + [d]);
    assert Flatten(chunks) + (chunk + [d]) == (Flatten(chunks) + chunk) + [d];
  }

  lemma CutEnds(docs: seq<BulkDoc>, chunks: seq<seq<nat>>, chunk: seq<nat>)
    requires Flatten(chunks) + chunk == Upto(|docs|) && chunk != [] && !IsFull(docs, chunk)
    ensures Flatten(chunks + [chunk]) == Upto(|docs|) && WithinCaps(docs, chunk)
  {
    FlattenGrows(chunks, chunk);
    assert chunk == chunk[..|chunk| - 1] + [chunk[|chunk| - 1]];
  }

  /** What the k-th chunk's requests ended with. */
  function ChunkResult(wire: nat -> Answer, base: nat, chunks: seq<seq<nat>>, k: nat): int
    requires k < |chunks|
  {
    Deliver(wire, base + |DeliverAll(wire, base, chunks[..k]).posts|, chunks[k], [], [], []).rc
  }

  /** The result is that of the last chunk that failed, and 0 when none did. */
  lemma {:induction false} LastFailureDecides(wire: nat -> Answer, base: nat, chunks: seq<seq<nat>>, k: nat)
    requires k < |chunks|
    requires ChunkResult(wire, base, chunks, k) != 0
    requires forall i :: k < i < |chunks| ==> ChunkResult(wire, base, chunks, i) == 0
    ensures DeliverAll(wire, base, chunks).rc == ChunkResult(wire, base, chunks, k)
    decreases |chunks|
  {
    hide Deliver;
    var front := chunks[..|chunks| - 1];
    if k < |front| {
      forall i: nat | i < |front| ensures ChunkResult(wire, base, front, i) == ChunkResult(wire, base, chunks, i) {
        assert front[..i] == chunks[..i];
      }
      assert ChunkResult(wire, base, chunks, |chunks| - 1) == 0;
      LastFailureDecides(wire, base, front, k);
    }
  }

  lemma ThenAccounts(before: Outcome, o: Outcome, x: nat)
    requires (before.rc == 0 <==> before.dead == []) && (o.rc == 0 <==> o.dead == [])
    ensures Endings(Then(before, o), x) == Endings(before, x) + Endings(o, x)
    ensures Then(before, o).rc == 0 <==> Then(before, o).dead == []
  {
    hide Count;
    CountAdds(before.acked, o.acked, x);
    CountAdds(before.dead, o.dead, x);
    CountAdds(before.assumed, o.assumed, x);
  }

  lemma DeliverAllGrows(wire: nat -> Answer, base: nat, chunks: seq<seq<nat>>, n: nat)
    requires 0 < n <= |chunks|
    ensures var before := DeliverAll(wire, base, chunks[..n - 1]);
      DeliverAll(wire, base, chunks[..n]) == Then(before, Deliver(wire, base + |before.posts|, chunks[n - 1], [], [], []))
  {
    hide Deliver, Then;
    var upto := chunks[..n];
    assert upto[..n - 1] == chunks[..n - 1] && upto[n - 1] == chunks[n - 1];
  }

  lemma {:induction false} AllChunksAccount(wire: nat -> Answer, base: nat, chunks: seq<seq<nat>>, n: nat, x: nat)
    requires n <= |chunks| && forall i :: 0 <= i < |chunks| ==> chunks[i] != []
    ensures var o := DeliverAll(wire, base, chunks[..n]);
      Endings(o, x) == Count(Flatten(chunks[..n]), x) && (o.rc == 0 <==> o.dead == [])
    decreases n
  {
    hide Deliver, Uninspectable, Then;
    if n == 0 {
      assert chunks[..0] == [];
    } else {
      hide Count, Endings, DeliverAll, Flatten;
      var front, last := chunks[..n - 1], chunks[n - 1];
      assert chunks[..n] == front + [last];
      AllChunksAccount(wire, base, chunks, n - 1, x);
      var before := DeliverAll(wire, base, front);
      ChunkIsAccountedFor(wire, base + |before.posts|, last);
      ThenAccounts(before, Deliver(wire, base + |before.posts|, last, [], [], []), x);
      DeliverAllGrows(wire, base, chunks, n);
      FlattenGrows(front, last);
      CountAdds(Flatten(front), last, x);
    }
  }

  /** However the requests fare, every document handed over ends exactly once,
      and the result is 0 exactly when none was dead-lettered. */
  lemma BulkIsAccountedFor(wire: nat -> Answer, base: nat, docs: seq<BulkDoc>, chunks: seq<seq<nat>>, x: nat)
    requires IsCut(docs, chunks)
    ensures var o := DeliverAll(wire, base, chunks);
      && Endings(o, x) == (if x < |docs| then 1 else 0)
      && (o.rc == 0 <==> o.dead == [])
  {
    hide Bytes, Flatten, Deliver, Then, DeliverAll, Endings, Count;
    assert forall i :: 0 <= i < |chunks| ==> chunks[i] in chunks;
    AllChunksAccount(wire, base, chunks, |chunks|, x);
    assert chunks[..|chunks|] == chunks;
    UptoCounts(|docs|, x);
  }

  lemma {:induction false} UptoCounts(n: nat, x: nat)
    ensures Count(Upto(n), x) == if x < n then 1 else 0
  {
    if n > 0 {
      UptoCounts(n - 1, x);
      assert Upto(n)[..n - 1] == Upto(n - 1);
    } else {
      assert Upto(0) == [];
    }
  }
}
