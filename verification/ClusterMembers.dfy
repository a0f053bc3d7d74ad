/** The CG# member format, the verdict on one cluster, and the producer's
    grouping of the broker's book. */
module ClusterMembers {
  import opened Wrappers
  import opened StringOrder
  import opened ClusterRules

  /** One open broker deal. */
  datatype Deal = Deal(symbol: string, strategyName: string, dealReference: string)

  function Render(d: Deal): string {
    d.symbol + "#" + d.strategyName + "#" + d.dealReference
  }

  /** Position of the first '#', or the length when there is none. */
  function FindHash(s: string): (k: nat)
    ensures k <= |s| && '#' !in s[..k]
    ensures k < |s| ==> s[k] == '#'
  {
    if s == [] || s[0] == '#' then 0
    else
      assert forall k :: 0 <= k < |s| ==> s[..k + 1] == [s[0]] + s[1..][..k];
      1 + FindHash(s[1..])
  }

  /** "symbol#strategy#reference" to (symbol, strategy); None below two fields. */
  function SplitMember(member: string): Option<(string, string)> {
    var first := FindHash(member);
    if first == |member| then None
    else
      var rest := member[first + 1..];
      Some((member[..first], rest[..FindHash(rest)]))
  }

  predicate Clean(d: Deal) {
    '#' !in d.symbol && '#' !in d.strategyName
  }

  lemma FindHashAfter(a: string, b: string)
    requires '#' !in a
    ensures FindHash(a + "#" + b) == |a|
  {
    var s := a + "#" + b;
    var k := FindHash(s);
    assert s[|a|] == '#';
    assert forall i :: 0 <= i < |a| ==> s[i] == a[i] && a[i] != '#';
    assert forall i :: 0 <= i < k ==> s[i] == s[..k][i] && s[i] != '#';
  }

  /** splitMember inverts clusterMemberString exactly on the deals whose symbol
      and strategy carry no '#'. */
  lemma SplitInvertsRender(d: Deal)
    ensures SplitMember(Render(d)) == Some((d.symbol, d.strategyName)) <==> Clean(d)
  {
    var tail := d.strategyName + "#" + d.dealReference;
    assert Render(d) == d.symbol + "#" + tail;
    if '#' !in d.symbol {
      FindHashAfter(d.symbol, tail);
      assert Render(d)[..|d.symbol|] == d.symbol && Render(d)[|d.symbol| + 1..] == tail;
      if '#' !in d.strategyName {
        FindHashAfter(d.strategyName, d.dealReference);
        assert tail[..|d.strategyName|] == d.strategyName;
      }
    }
  }

  lemma RenderInjective(a: Deal, b: Deal)
    requires Clean(a) && Clean(b) && Render(a) == Render(b)
    ensures a == b
  {
    SplitInvertsRender(a);
    SplitInvertsRender(b);
    var k := |a.symbol| + |a.strategyName| + 2;
    assert Render(a)[k..] == a.dealReference && Render(b)[k..] == b.dealReference;
  }

  // -- the verdict on one cluster -------------------------------------------

  datatype Verdict = Allowed | GroupFull | SymbolStrategyStacked | StrategyNotDiverse

  const SIZE_T: int := 0x1_0000_0000_0000_0000

  /** members.size() >= static_cast<std::size_t>(limit): a negative limit wraps
      to a huge capacity. */
  predicate Full(count: nat, limit: int) {
    count >= if limit < 0 then limit + SIZE_T else limit
  }

  predicate Stacks(member: string, symbol: string, strategyName: string) {
    SplitMember(member) == Some((symbol, strategyName))
  }

  predicate Repeats(member: string, strategyName: string) {
    var parts := SplitMember(member);
    parts.Some? && parts.value.1 == strategyName
  }

  /** What the three checks decide, in their order. */
  function VerdictOn(members: seq<string>, symbol: string, strategyName: string, limit: int, strict: bool): Verdict {
    if Full(|members|, limit) then GroupFull
    else if exists m | m in members :: Stacks(m, symbol, strategyName) then SymbolStrategyStacked
    else if strict && exists m | m in members :: Repeats(m, strategyName) then StrategyNotDiverse
    else Allowed
  }

  method EvaluateClusterGroup(members: seq<string>, symbol: string, strategyName: string, limit: int, strict: bool)
    returns (verdict: Verdict)
    ensures limit >= 0 ==> (verdict == GroupFull <==> |members| >= limit)
    ensures limit < 0 && |members| < 0x8000_0000_0000_0000 && -0x8000_0000 <= limit ==> verdict != GroupFull
    ensures verdict != GroupFull ==>
      (verdict == SymbolStrategyStacked
       <==> exists k :: 0 <= k < |members| && SplitMember(members[k]) == Some((symbol, strategyName)))
    ensures verdict == Allowed ==>
      forall k :: 0 <= k < |members| && SplitMember(members[k]).Some? ==>
        !(SplitMember(members[k]).value == (symbol, strategyName)) && (strict ==> SplitMember(members[k]).value.1 != strategyName)
    ensures verdict == StrategyNotDiverse ==>
      strict && exists k :: 0 <= k < |members| && SplitMember(members[k]).Some? && SplitMember(members[k]).value.1 == strategyName
    ensures verdict == VerdictOn(members, symbol, strategyName, limit, strict)
  {
    if Full(|members|, limit) {
      return GroupFull;
    }
    for i := 0 to |members|
      invariant forall k :: 0 <= k < i ==> !Stacks(members[k], symbol, strategyName)
    {
      if Stacks(members[i], symbol, strategyName) {
        return SymbolStrategyStacked;
      }
    }
    if strict {
      for i := 0 to |members|
        invariant forall k :: 0 <= k < i ==> !Repeats(members[k], strategyName)
      {
        if Repeats(members[i], strategyName) {
          return StrategyNotDiverse;
        }
      }
    }
    return Allowed;
  }

  /** The order in which SMEMBERS lists a set does not matter. */
  lemma VerdictIgnoresOrder(a: seq<string>, b: seq<string>, symbol: string, strategyName: string, limit: int, strict: bool)
    requires multiset(a) == multiset(b)
    ensures VerdictOn(a, symbol, strategyName, limit, strict) == VerdictOn(b, symbol, strategyName, limit, strict)
  {
    assert |a| == |multiset(a)| == |multiset(b)| == |b|;
    assert forall m :: m in a <==> m in multiset(a);
    assert forall m :: m in b <==> m in multiset(b);
  }

  /** More members never turn a block into an Allowed. */
  lemma BlocksAreMonotone(a: seq<string>, b: seq<string>, symbol: string, strategyName: string, limit: int, strict: bool)
    requires multiset(a) <= multiset(b)
    requires VerdictOn(b, symbol, strategyName, limit, strict) == Allowed
    ensures VerdictOn(a, symbol, strategyName, limit, strict) == Allowed
  {
    assert multiset(b) == multiset(a) + (multiset(b) - multiset(a));
    assert |a| == |multiset(a)| <= |multiset(b)| == |b|;
    assert forall m :: m in a ==> m in multiset(a);
    assert forall m :: m in multiset(b) ==> m in b;
  }

  // -- the same verdict on the structured book ------------------------------

  /** The rule the gate is meant to enforce, on deals rather than strings. */
  function BookVerdict(deals: set<Deal>, symbol: string, strategyName: string, limit: int, strict: bool): Verdict {
    if Full(|deals|, limit) then GroupFull
    else if exists d | d in deals :: d.symbol == symbol && d.strategyName == strategyName then SymbolStrategyStacked
    else if strict && exists d | d in deals :: d.strategyName == strategyName then StrategyNotDiverse
    else Allowed
  }

  predicate NoRepeats(s: seq<string>) {
    forall i, j :: 0 <= i < j < |s| ==> s[i] != s[j]
  }

  function Rendered(deals: set<Deal>): set<string> {
    set d | d in deals :: Render(d)
  }

  ghost predicate DistinctMembers(deals: set<Deal>) {
    forall a, b :: a in deals && b in deals && Render(a) == Render(b) ==> a == b
  }

  lemma {:induction false} RenderedSize(deals: set<Deal>)
    requires DistinctMembers(deals)
    ensures |Rendered(deals)| == |deals|
  {
    if deals != {} {
      var d :| d in deals;
      RenderedSize(deals - {d});
      assert Rendered(deals) == Rendered(deals - {d}) + {Render(d)};
      assert forall e :: e in deals - {d} ==> Render(e) != Render(d);
    }
  }

  lemma {:induction false} NoRepeatsSize(s: seq<string>)
    requires NoRepeats(s)
    ensures |Elements(s)| == |s|
  {
    if s == [] {
      assert Elements(s) == {};
    } else {
      var front, last := s[..|s| - 1], s[|s| - 1];
      NoRepeatsSize(front);
      assert s == front + [last];
      assert Elements(s) == Elements(front) + {last};
    }
  }

  /** A synced set, listed in any order without repeats, gets the verdict of
      the deals it renders. */
  lemma VerdictOnSyncedSet(deals: set<Deal>, members: seq<string>, symbol: string, strategyName: string, limit: int, strict: bool)
    requires forall d :: d in deals ==> Clean(d)
    requires NoRepeats(members) && Elements(members) == Rendered(deals)
    ensures VerdictOn(members, symbol, strategyName, limit, strict) == BookVerdict(deals, symbol, strategyName, limit, strict)
  {
    hide Render, SplitMember, Clean;
    forall a, b | a in deals && b in deals && Render(a) == Render(b) ensures a == b {
      RenderInjective(a, b);
    }
    RenderedSize(deals);
    NoRepeatsSize(members);
    forall d | d in deals
      ensures Render(d) in members && SplitMember(Render(d)) == Some((d.symbol, d.strategyName))
    {
      SplitInvertsRender(d);
      assert Render(d) in Elements(members);
    }
    forall m | m in members ensures exists d :: d in deals && Render(d) == m {
      assert m in Elements(members);
    }
  }

  // -- the producer's grouping ----------------------------------------------

  /** The rendered members of one cluster. */
  function RenderedIn(members: seq<Deal>, lookup: map<string, seq<string>>, cluster: string): set<string> {
    set d | d in members && cluster in GroupsOf(lookup, d.symbol) :: Render(d)
  }

  /** Exactly the clusters with a member, each as a strictly sorted vector. */
  ghost predicate IsGrouping(members: seq<Deal>, lookup: map<string, seq<string>>, clusters: map<string, seq<string>>) {
    && (forall c :: c in clusters <==> RenderedIn(members, lookup, c) != {})
    && (forall c :: c in clusters ==> StrictlySorted(clusters[c]) && Elements(clusters[c]) == RenderedIn(members, lookup, c))
  }

  ghost predicate Collects(members: seq<Deal>, lookup: map<string, seq<string>>, raw: map<string, seq<string>>) {
    && (forall c :: c in raw <==> RenderedIn(members, lookup, c) != {})
    && (forall c :: c in raw ==> Elements(raw[c]) == RenderedIn(members, lookup, c))
  }

  /** The inner loop: push one value onto the vector of every group. */
  method PushToGroups(raw: map<string, seq<string>>, groups: seq<string>, value: string) returns (r: map<string, seq<string>>)
    ensures forall c :: c in r <==> c in raw || c in groups
    ensures forall c :: c in r ==>
      Elements(r[c]) == (if c in raw then Elements(raw[c]) else {}) + (if c in groups then {value} else {})
  {
    r := raw;
    for i := 0 to |groups|
      invariant forall c :: c in r <==> c in raw || c in groups[..i]
      invariant forall c :: c in r ==>
        Elements(r[c]) == (if c in raw then Elements(raw[c]) else {}) + (if c in groups[..i] then {value} else {})
    {
      var g := groups[i];
      var old_r := r;
      var held := if g in r then r[g] else [];
      assert Elements(held + [value]) == Elements(held) + {value};
      assert groups[..i + 1] == groups[..i] + [g];
      r := r[g := held + [value]];
      forall c | c in r
        ensures Elements(r[c]) == (if c in raw then Elements(raw[c]) else {}) + (if c in groups[..i + 1] then {value} else {})
      {
        if c != g {
          assert c in old_r && r[c] == old_r[c];
        }
      }
    }
    assert groups[..|groups|] == groups;
  }

  method GroupMembersByCluster(members: seq<Deal>, lookup: map<string, seq<string>>)
    returns (clusters: map<string, seq<string>>)
    ensures IsGrouping(members, lookup, clusters)
  {
    var raw := CollectMembers(members, lookup);
    clusters := SortAndDedup(raw);
  }

  /** The fan-out loop. */
  method CollectMembers(members: seq<Deal>, lookup: map<string, seq<string>>) returns (raw: map<string, seq<string>>)
    ensures Collects(members, lookup, raw)
  {
    raw := map[];
    for i := 0 to |members|
      invariant Collects(members[..i], lookup, raw)
    {
      var d := members[i];
      var next := PushToGroups(raw, GroupsOf(lookup, d.symbol), Render(d));
      assert members[..i + 1] == members[..i] + [d];
      CollectsOneMore(members[..i], d, lookup, raw, next);
      raw := next;
    }
    assert members[..|members|] == members;
  }

  /** The loop that sorts every cluster's vector and erases the repeats. */
  method SortAndDedup(raw: map<string, seq<string>>) returns (clusters: map<string, seq<string>>)
    ensures clusters.Keys == raw.Keys
    ensures forall c :: c in clusters ==> StrictlySorted(clusters[c]) && Elements(clusters[c]) == Elements(raw[c])
  {
    clusters := map[];
    var todo := raw.Keys;
    while todo != {}
      invariant todo <= raw.Keys && clusters.Keys == raw.Keys - todo
      invariant forall c :: c in clusters ==> StrictlySorted(clusters[c]) && Elements(clusters[c]) == Elements(raw[c])
      decreases todo
    {
      var c :| c in todo;
      var distinct := SortedDistinct(raw[c]);
      clusters := clusters[c := distinct];
      todo := todo - {c};
    }
  }

  method SortedDistinct(values: seq<string>) returns (distinct: seq<string>)
    ensures StrictlySorted(distinct) && Elements(distinct) == Elements(values)
  {
    SortSorts(values);
    distinct := DropRepeats(Sort(values));
    SameElements(values, Sort(values));
  }

  lemma SameElements(a: seq<string>, b: seq<string>)
    requires multiset(a) == multiset(b)
    ensures Elements(a) == Elements(b)
  {
    forall x ensures x in a <==> x in b {
      assert x in a <==> x in multiset(a);
      assert x in b <==> x in multiset(b);
    }
  }

  lemma RenderedInAppend(members: seq<Deal>, d: Deal, lookup: map<string, seq<string>>, c: string)
    ensures RenderedIn(members + [d], lookup, c)
      == RenderedIn(members, lookup, c) + (if c in GroupsOf(lookup, d.symbol) then {Render(d)} else {})
  {
    var whole := RenderedIn(members + [d], lookup, c);
    var parts := RenderedIn(members, lookup, c) + (if c in GroupsOf(lookup, d.symbol) then {Render(d)} else {});
    forall x ensures x in whole <==> x in parts {
      if x in parts {
        if x in RenderedIn(members, lookup, c) {
          var e :| e in members && c in GroupsOf(lookup, e.symbol) && Render(e) == x;
          assert e in members + [d];
        } else {
          assert d in members + [d];
        }
      }
    }
  }

  lemma CollectsOneMore(members: seq<Deal>, d: Deal, lookup: map<string, seq<string>>,
                        raw: map<string, seq<string>>, next: map<string, seq<string>>)
    requires Collects(members, lookup, raw)
    requires forall c :: c in next <==> c in raw || c in GroupsOf(lookup, d.symbol)
    requires forall c :: c in next ==>
      Elements(next[c]) == (if c in raw then Elements(raw[c]) else {}) + (if c in GroupsOf(lookup, d.symbol) then {Render(d)} else {})
    ensures Collects(members + [d], lookup, next)
  {
    forall c
      ensures c in next <==> RenderedIn(members + [d], lookup, c) != {}
      ensures c in next ==> Elements(next[c]) == RenderedIn(members + [d], lookup, c)
    {
      RenderedInAppend(members, d, lookup, c);
      if c in GroupsOf(lookup, d.symbol) {
        assert Render(d) in RenderedIn(members + [d], lookup, c);
      }
    }
  }

  /** The rebuilt sets do not depend on the order, or the repeats, of the
      broker's book. */
  lemma GroupingIgnoresBookOrder(a: seq<Deal>, b: seq<Deal>, lookup: map<string, seq<string>>,
                                 ca: map<string, seq<string>>, cb: map<string, seq<string>>)
    requires forall d :: d in a <==> d in b
    requires IsGrouping(a, lookup, ca) && IsGrouping(b, lookup, cb)
    ensures ca == cb
  {
    forall c ensures RenderedIn(a, lookup, c) == RenderedIn(b, lookup, c) {
    }
    forall c | c in ca && c in cb ensures ca[c] == cb[c] {
      StrictlySortedUnique(ca[c], cb[c]);
    }
  }

  /** Producer and gate together: on what groupMembersByCluster writes for a
      cluster, the gate reaches the verdict of the book's deals there. */
  lemma GateSeesTheBook(members: seq<Deal>, lookup: map<string, seq<string>>, clusters: map<string, seq<string>>,
                        cluster: string, symbol: string, strategyName: string, limit: int, strict: bool)
    requires IsGrouping(members, lookup, clusters)
    requires forall d :: d in members ==> Clean(d)
    ensures VerdictOn(if cluster in clusters then clusters[cluster] else [], symbol, strategyName, limit, strict)
      == BookVerdict((set d | d in members && cluster in GroupsOf(lookup, d.symbol)), symbol, strategyName, limit, strict)
  {
    var deals := set d | d in members && cluster in GroupsOf(lookup, d.symbol);
    var listed := if cluster in clusters then clusters[cluster] else [];
    assert Rendered(deals) == RenderedIn(members, lookup, cluster);
    forall i, j | 0 <= i < j < |listed| ensures listed[i] != listed[j] {
      LessIrreflexive(listed[i]);
    }
    NoElements(listed);
    VerdictOnSyncedSet(deals, listed, symbol, strategyName, limit, strict);
  }
}
