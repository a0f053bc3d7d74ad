/** The list commands of the work queue: producers LPUSH at the head, workers
    LINDEX -1 and RPOP at the tail, LREM 0 removes every occurrence. */
module QueueOps {
  import opened Wrappers

  function Push<T>(list: seq<T>, x: T): seq<T> {
    [x] + list
  }

  function Tail<T>(list: seq<T>): Option<T> {
    if list == [] then None else Some(list[|list| - 1])
  }

  function Pop<T>(list: seq<T>): seq<T> {
    if list == [] then [] else list[..|list| - 1]
  }

  function RemoveAll<T(==,!new)>(list: seq<T>, x: T): (r: seq<T>)
    ensures x !in r && |r| <= |list|
    ensures forall y :: y in r <==> y in list && y != x
    ensures x in list ==> |r| < |list|
  {
    if list == [] then []
    else if list[0] == x then RemoveAll(list[1..], x)
    else [list[0]] + RemoveAll(list[1..], x)
  }

  function At<T>(lists: map<string, seq<T>>, key: string): seq<T> {
    if key in lists then lists[key] else []
  }

  // -- what producers send ---------------------------------------------------

  datatype Command =
    | Store(name: string, body: string)                 // SET name body PX ttl
    | ListName(list: string, name: string)              // LPUSH list name
    | Advertise(queue: string, descriptor: string)      // LPUSH queue descriptor

  /** Every listed name is stored by an earlier command. */
  ghost predicate PayloadsFirst(program: seq<Command>) {
    forall i :: 0 <= i < |program| && program[i].ListName? ==>
      exists j :: 0 <= j < i && program[j].Store? && program[j].name == program[i].name
  }
}
