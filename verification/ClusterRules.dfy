/** The static risk-cluster tables and the searches over them. */
module ClusterRules {
  import opened Wrappers
  import opened StringOrder

  /** Capacity of a cluster, and whether a strategy may appear in it twice. */
  datatype Rule = Rule(limit: int, strict: bool)

  function Names<T>(table: seq<(string, T)>): (names: seq<string>)
    ensures |names| == |table|
    ensures forall i :: 0 <= i < |table| ==> names[i] == table[i].0
  {
    seq(|table|, i requires 0 <= i < |table| => table[i].0)
  }

  /** What a table means: its last row for a name wins, and a sorted table has
      only one. */
  function AsMap<T>(table: seq<(string, T)>): (m: map<string, T>)
    ensures forall name :: name in m <==> exists i :: 0 <= i < |table| && table[i].0 == name
  {
    if table == [] then map[]
    else
      var last := table[|table| - 1];
      var m := AsMap(table[..|table| - 1])[last.0 := last.1];
      assert forall name :: name in m <==> exists i :: 0 <= i < |table| && table[i].0 == name by {
        forall name ensures name in m <==> exists i :: 0 <= i < |table| && table[i].0 == name {
          if exists i :: 0 <= i < |table| && table[i].0 == name {
            var i :| 0 <= i < |table| && table[i].0 == name;
            if i < |table| - 1 {
              assert table[..|table| - 1][i].0 == name;
            }
          }
        }
      }
      m
  }

  lemma {:induction false} AsMapRow<T>(table: seq<(string, T)>, k: nat)
    requires StrictlySorted(Names(table)) && k < |table|
    ensures table[k].0 in AsMap(table) && AsMap(table)[table[k].0] == table[k].1
  {
    if k < |table| - 1 {
      var front := table[..|table| - 1];
      forall i, j | 0 <= i < j < |front| ensures Less(Names(front)[i], Names(front)[j]) {
        assert Less(Names(table)[i], Names(table)[j]);
      }
      AsMapRow(front, k);
      assert Less(Names(table)[k], Names(table)[|table| - 1]);
      LessIrreflexive(table[k].0);
    }
  }

  lemma RowIsUnique<T>(table: seq<(string, T)>)
    requires StrictlySorted(Names(table))
    ensures forall j, k :: 0 <= j < |table| && 0 <= k < |table| && table[j].0 == table[k].0 ==> j == k
    ensures forall k :: 0 <= k < |table| ==> table[k].0 in Names(table)
  {
    forall j, k | 0 <= j < k < |table| ensures table[j].0 != table[k].0 {
      assert Less(Names(table)[j], Names(table)[k]);
      LessIrreflexive(table[j].0);
    }
    forall k | 0 <= k < |table| ensures table[k].0 in Names(table) {
      assert Names(table)[k] == table[k].0;
    }
  }

  function GroupsOf(table: map<string, seq<string>>, symbol: string): seq<string> {
    if symbol in table then table[symbol] else []
  }

  function LimitOf(rules: map<string, Rule>, cluster: string): int {
    if cluster in rules then rules[cluster].limit else 1
  }

  predicate StrictIn(rules: map<string, Rule>, cluster: string) {
    cluster in rules && rules[cluster].strict
  }

  /** groupsFor: the symbol's clusters, or an empty view when it is unmapped. */
  method GroupsFor(table: seq<(string, seq<string>)>, symbol: string) returns (groups: seq<string>)
    requires StrictlySorted(Names(table))
    ensures forall k :: 0 <= k < |table| && table[k].0 == symbol ==> groups == table[k].1
    ensures symbol !in Names(table) ==> groups == []
    ensures groups == GroupsOf(AsMap(table), symbol)
  {
    var row := BinarySearch(Names(table), symbol);
    RowIsUnique(table);
    match row
    case Some(k) =>
      AsMapRow(table, k);
      return table[k].1;
    case None =>
      return [];
  }

  /** findRule. */
  method FindRule(table: seq<(string, Rule)>, cluster: string) returns (rule: Option<Rule>)
    requires StrictlySorted(Names(table))
    ensures forall k :: 0 <= k < |table| && table[k].0 == cluster ==> rule == Some(table[k].1)
    ensures cluster !in Names(table) ==> rule == None
    ensures rule == if cluster in AsMap(table) then Some(AsMap(table)[cluster]) else None
  {
    var row := BinarySearch(Names(table), cluster);
    RowIsUnique(table);
    match row
    case Some(k) =>
      AsMapRow(table, k);
      return Some(table[k].1);
    case None =>
      return None;
  }

  /** clusterLimit and isStrictCluster, with their fallbacks of 1 and false. */
  method RuleFor(table: seq<(string, Rule)>, cluster: string) returns (limit: int, strict: bool)
    requires StrictlySorted(Names(table))
    ensures forall k :: 0 <= k < |table| && table[k].0 == cluster ==> limit == table[k].1.limit && strict == table[k].1.strict
    ensures cluster !in Names(table) ==> limit == 1 && !strict
    ensures limit == LimitOf(AsMap(table), cluster) && strict == StrictIn(AsMap(table), cluster)
  {
    var rule := FindRule(table, cluster);
    limit, strict := if rule.Some? then rule.value.limit else 1, rule.Some? && rule.value.strict;
  }

  const CLUSTER_RULES: seq<(string, Rule)> := [
    ("AUD_Pairs", Rule(2, false)), ("Asian_Index", Rule(1, true)), ("Commodity_FX", Rule(2, false)),
    ("Crosses", Rule(2, false)), ("EUR_Pairs", Rule(2, false)), ("EU_Index", Rule(1, true)),
    ("Energy", Rule(1, true)), ("GBP_Pairs", Rule(2, false)), ("Industrial_Metals", Rule(1, true)),
    ("JPY_Pairs", Rule(2, false)), ("Precious_Metals", Rule(1, true)), ("Scandi_Pairs", Rule(1, false)),
    ("UK_Index", Rule(1, true)), ("USD_Forex", Rule(2, false)), ("US_Index", Rule(1, true))
  ]

  /** The rule table satisfies what its static_assert demands, so FindRule
      applies to it; every capacity is positive. */
  lemma RulesAreSorted()
    ensures StrictlySorted(Names(CLUSTER_RULES))
    ensures forall c :: LimitOf(AsMap(CLUSTER_RULES), c) >= 1
  {
    RuleNamesAscend();
    NeighboursSuffice(RULE_NAMES);
    RuleRows();
    forall c ensures LimitOf(AsMap(CLUSTER_RULES), c) >= 1 {
      if c in AsMap(CLUSTER_RULES) {
        var i :| 0 <= i < |CLUSTER_RULES| && CLUSTER_RULES[i].0 == c;
        AsMapRow(CLUSTER_RULES, i);
      }
    }
  }

  lemma RuleRows()
    ensures Names(CLUSTER_RULES) == RULE_NAMES
    ensures forall i :: 0 <= i < |CLUSTER_RULES| ==> CLUSTER_RULES[i].1.limit >= 1
  {
  }

  const RULE_NAMES: seq<string> := [
    "AUD_Pairs", "Asian_Index", "Commodity_FX", "Crosses", "EUR_Pairs",
    "EU_Index", "Energy", "GBP_Pairs", "Industrial_Metals", "JPY_Pairs",
    "Precious_Metals", "Scandi_Pairs", "UK_Index", "USD_Forex", "US_Index"
  ]

  lemma RuleNamesAscend()
    ensures forall i :: 0 < i < |RULE_NAMES| ==> Less(RULE_NAMES[i - 1], RULE_NAMES[i])
  {
    FirstDifference("AUD_Pairs", "Asian_Index", 1);
    FirstDifference("Asian_Index", "Commodity_FX", 0);
    FirstDifference("Commodity_FX", "Crosses", 1);
    FirstDifference("Crosses", "EUR_Pairs", 0);
    FirstDifference("EUR_Pairs", "EU_Index", 2);
    FirstDifference("EU_Index", "Energy", 1);
    FirstDifference("Energy", "GBP_Pairs", 0);
    FirstDifference("GBP_Pairs", "Industrial_Metals", 0);
    FirstDifference("Industrial_Metals", "JPY_Pairs", 0);
    FirstDifference("JPY_Pairs", "Precious_Metals", 0);
    FirstDifference("Precious_Metals", "Scandi_Pairs", 0);
    FirstDifference("Scandi_Pairs", "UK_Index", 0);
    FirstDifference("UK_Index", "USD_Forex", 1);
    FirstDifference("USD_Forex", "US_Index", 2);
  }

  lemma {:induction false} FirstDifference(a: string, b: string, k: nat)
    requires k < |a| && k < |b| && a[..k] == b[..k] && a[k] < b[k]
    ensures Less(a, b)
  {
    if k > 0 {
      assert a[0] == a[..k][0] == b[0];
      assert a[1..][..k - 1] == a[..k][1..] == b[1..][..k - 1];
      FirstDifference(a[1..], b[1..], k - 1);
    }
  }
}
