/** Lexicographic order on strings (the order of std::string and
    std::string_view), the sort-and-deduplicate idiom built on it, and the
    binary search used over the engine's static tables. */
module StringOrder {
  import opened Wrappers

  predicate Less(a: string, b: string) {
    b != [] && (a == [] || a[0] < b[0] || (a[0] == b[0] && Less(a[1..], b[1..])))
  }

  lemma {:induction false} LessIrreflexive(a: string)
    ensures !Less(a, a)
  {
    if a != [] {
      LessIrreflexive(a[1..]);
    }
  }

  lemma {:induction false} LessTransitive(a: string, b: string, c: string)
    requires Less(a, b) && Less(b, c)
    ensures Less(a, c)
  {
    if a != [] && a[0] == b[0] && b[0] == c[0] {
      LessTransitive(a[1..], b[1..], c[1..]);
    }
  }

  lemma {:induction false} LessTotal(a: string, b: string)
    ensures Less(a, b) || Less(b, a) || a == b
  {
    if a != [] && b != [] && a[0] == b[0] {
      LessTotal(a[1..], b[1..]);
      assert a == [a[0]] + a[1..] && b == [b[0]] + b[1..];
    }
  }

  lemma LessAsymmetric(a: string, b: string)
    requires Less(a, b)
    ensures !Less(b, a) && a != b
  {
    if Less(b, a) {
      LessTransitive(a, b, a);
    }
    LessIrreflexive(a);
  }

  /** Strictly ascending: what the tables' static_asserts demand and what a
      sorted, deduplicated vector satisfies. */
  ghost predicate StrictlySorted(s: seq<string>) {
    forall i, j :: 0 <= i < j < |s| ==> Less(s[i], s[j])
  }

  /** The static_asserts compare neighbours only; that is enough. */
  lemma {:induction false} NeighboursSuffice(s: seq<string>)
    requires forall i :: 0 < i < |s| ==> Less(s[i - 1], s[i])
    ensures StrictlySorted(s)
  {
    forall i, j | 0 <= i < j < |s| ensures Less(s[i], s[j]) {
      NeighboursReach(s, i, j);
    }
  }

  lemma {:induction false} NeighboursReach(s: seq<string>, i: nat, j: nat)
    requires forall k :: 0 < k < |s| ==> Less(s[k - 1], s[k])
    requires i < j < |s|
    ensures Less(s[i], s[j])
    decreases j
  {
    if i + 1 < j {
      NeighboursReach(s, i, j - 1);
      LessTransitive(s[i], s[j - 1], s[j]);
    }
  }

  /** The halving search of groupsFor and findRule: over any strictly sorted
      table it finds the entry when there is one, and nothing otherwise. */
  method BinarySearch(names: seq<string>, wanted: string) returns (found: Option<nat>)
    requires StrictlySorted(names)
    ensures found.Some? ==> found.value < |names| && names[found.value] == wanted
    ensures found.None? <==> wanted !in names
  {
    var lo, hi := 0, |names|;
    while lo < hi
      invariant 0 <= lo <= hi <= |names|
      invariant forall k :: 0 <= k < lo ==> Less(names[k], wanted)
      invariant forall k :: hi <= k < |names| ==> Less(wanted, names[k])
    {
      var mid := lo + (hi - lo) / 2;
      if Less(names[mid], wanted) {
        forall k | 0 <= k < mid ensures Less(names[k], wanted) {
          LessTransitive(names[k], names[mid], wanted);
        }
        lo := mid + 1;
      } else if Less(wanted, names[mid]) {
        forall k | mid < k < |names| ensures Less(wanted, names[k]) {
          LessTransitive(wanted, names[mid], names[k]);
        }
        hi := mid;
      } else {
        LessTotal(names[mid], wanted);
        return Some(mid);
      }
    }
    LessIrreflexive(wanted);
    found := None;
  }

  // -- sort, then unique + erase ------------------------------------------

  ghost predicate Sorted(s: seq<string>) {
    forall i, j :: 0 <= i < j < |s| ==> s[i] == s[j] || Less(s[i], s[j])
  }

  function Elements(s: seq<string>): set<string> {
    set x | x in s
  }

  /** std::ranges::sort, as the insertion of one element after another. */
  function Insert(x: string, s: seq<string>): (r: seq<string>)
    ensures multiset(r) == multiset(s) + multiset{x}
  {
    if s == [] || !Less(s[0], x) then [x] + s
    else
      assert s == [s[0]] + s[1..];
      [s[0]] + Insert(x, s[1..])
  }

  function Sort(s: seq<string>): (r: seq<string>)
    ensures multiset(r) == multiset(s)
  {
    if s == [] then []
    else
      assert s == [s[0]] + s[1..];
      Insert(s[0], Sort(s[1..]))
  }

  lemma {:induction false} InsertSorted(x: string, s: seq<string>)
    requires Sorted(s)
    ensures Sorted(Insert(x, s))
  {
    if s != [] && Less(s[0], x) {
      InsertSorted(x, s[1..]);
      var tail := Insert(x, s[1..]);
      forall j | 0 <= j < |tail| ensures s[0] == tail[j] || Less(s[0], tail[j]) {
        assert tail[j] in multiset(tail);
        assert tail[j] == x || tail[j] in s[1..];
      }
    } else if s != [] {
      LessTotal(s[0], x);
      forall j | 0 <= j < |s| ensures x == s[j] || Less(x, s[j]) {
        if Less(x, s[0]) && j > 0 && s[0] != s[j] {
          LessTransitive(x, s[0], s[j]);
        }
      }
    }
  }

  lemma {:induction false} SortSorts(s: seq<string>)
    ensures Sorted(Sort(s))
  {
    if s != [] {
      SortSorts(s[1..]);
      InsertSorted(s[0], Sort(s[1..]));
    }
  }

  /** std::ranges::unique followed by erase: drop every element equal to the
      one kept before it. */
  method DropRepeats(s: seq<string>) returns (r: seq<string>)
    requires Sorted(s)
    ensures StrictlySorted(r) && Elements(r) == Elements(s)
  {
    r := [];
    for i := 0 to |s|
      invariant StrictlySorted(r)
      invariant Elements(r) == Elements(s[..i])
      invariant i == 0 <==> r == []
      invariant i > 0 ==> r[|r| - 1] == s[i - 1]
    {
      assert s[..i + 1] == s[..i] + [s[i]];
      assert Elements(s[..i + 1]) == Elements(s[..i]) + {s[i]};
      if r == [] || r[|r| - 1] != s[i] {
        if r != [] {
          assert Less(s[i - 1], s[i]);
          forall k | 0 <= k < |r| ensures Less(r[k], s[i]) {
            if k < |r| - 1 {
              LessTransitive(r[k], r[|r| - 1], s[i]);
            }
          }
        }
        assert Elements(r + [s[i]]) == Elements(r) + {s[i]};
        r := r + [s[i]];
      } else {
        assert s[i] in Elements(r);
      }
    }
    assert s[..|s|] == s;
  }

  /** A strictly sorted vector is determined by its elements, which is why a
      rebuilt set does not depend on the order of the book. */
  lemma {:induction false} StrictlySortedUnique(a: seq<string>, b: seq<string>)
    requires StrictlySorted(a) && StrictlySorted(b)
    requires Elements(a) == Elements(b)
    ensures a == b
  {
    NoElements(a);
    NoElements(b);
    if a != [] {
      assert a[0] in Elements(b);
      assert b[0] in Elements(b);
      assert b[0] in a;
      HeadIsLeast(a, b[0]);
      HeadIsLeast(b, a[0]);
      if a[0] != b[0] {
        LessAsymmetric(a[0], b[0]);
        assert false;
      }
      TailElements(a);
      TailElements(b);
      StrictlySortedUnique(a[1..], b[1..]);
      assert a == [a[0]] + a[1..] && b == [b[0]] + b[1..];
    }
  }

  lemma NoElements(s: seq<string>)
    ensures Elements(s) == {} <==> s == []
  {
    if s != [] {
      assert s[0] in Elements(s);
    }
  }

  lemma HeadIsLeast(s: seq<string>, x: string)
    requires StrictlySorted(s) && x in s
    ensures s[0] == x || Less(s[0], x)
  {
    var k :| 0 <= k < |s| && s[k] == x;
    if k > 0 {
      assert Less(s[0], s[k]);
    }
  }

  lemma TailElements(s: seq<string>)
    requires StrictlySorted(s) && s != []
    ensures Elements(s[1..]) == Elements(s) - {s[0]}
  {
    assert s == [s[0]] + s[1..];
    if s[0] in s[1..] {
      var k :| 1 <= k < |s| && s[k] == s[0];
      LessIrreflexive(s[0]);
      assert false;
    }
  }
}
