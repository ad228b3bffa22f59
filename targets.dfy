/**
 * The backup target table of src/index.ts: container names paired by index
 * with the destination lists discovered for them (`zipWith` then `assign`,
 * later entries overriding earlier ones), and the volume count reported
 * after discovery (`sum` of the lengths of the table's values).
 */
module Targets {

  /** The table `assign({}, {[cs[0]]: ms[0]}, ..., {[cs[n-1]]: ms[n-1]})`. */
  function TargetsTable(cs: seq<string>, ms: seq<seq<string>>): (t: map<string, seq<string>>)
    requires |cs| == |ms|
    ensures t.Keys == set c | c in cs
    decreases |cs|
  {
    if cs == [] then map[]
    else TargetsTable(cs[..|cs| - 1], ms[..|ms| - 1])[cs[|cs| - 1] := ms[|ms| - 1]]
  }

  /** `cs[i]` is not repeated after position `i`. */
  predicate LastOccurrence(cs: seq<string>, i: nat)
    requires i < |cs|
  {
    forall j :: i < j < |cs| ==> cs[j] != cs[i]
  }

  /** Each name is bound to the list discovered at its last position: paired
      by index, and a repeated name takes the later entry. */
  lemma {:induction false} LaterEntryWins(cs: seq<string>, ms: seq<seq<string>>, i: nat)
    requires |cs| == |ms| && i < |cs|
    requires LastOccurrence(cs, i)
    ensures TargetsTable(cs, ms)[cs[i]] == ms[i]
    decreases |cs|
  {
    if i < |cs| - 1 {
      assert cs[|cs| - 1] != cs[i];
      assert cs[..|cs| - 1][i] == cs[i];
      LaterEntryWins(cs[..|cs| - 1], ms[..|ms| - 1], i);
    }
  }

  /** Without repeated names the table pairs every name with its own list. */
  lemma DistinctNamesPairedByIndex(cs: seq<string>, ms: seq<seq<string>>)
    requires |cs| == |ms|
    requires forall i, j :: 0 <= i < j < |cs| ==> cs[i] != cs[j]
    ensures forall i :: 0 <= i < |cs| ==> TargetsTable(cs, ms)[cs[i]] == ms[i]
  {
    forall i | 0 <= i < |cs|
      ensures TargetsTable(cs, ms)[cs[i]] == ms[i]
    {
      LaterEntryWins(cs, ms, i);
    }
  }

  /** The sum of the lengths of all values of a table (lodash `sum` over
      `map(targets, t => t.length)`). Independent of the order in which the
      entries are visited, as TotalLengthRemove shows. */
  ghost function TotalLength(m: map<string, seq<string>>): (n: nat)
    ensures forall k :: k in m ==> |m[k]| <= n
    ensures n == 0 <==> forall k :: k in m ==> m[k] == []
    decreases |m|
  {
    if m == map[] then 0
    else
      var k :| k in m;
      assert forall j :: j in m && j != k ==> j in m - {k};
      |m[k]| + TotalLength(m - {k})
  }

  /** Any entry can be taken out of the sum first. */
  lemma {:induction false} TotalLengthRemove(m: map<string, seq<string>>, k: string)
    requires k in m
    ensures TotalLength(m) == |m[k]| + TotalLength(m - {k})
    decreases |m|
  {
    var j :| j in m && TotalLength(m) == |m[j]| + TotalLength(m - {j});
    if j != k {
      assert (m - {j}).Keys == m.Keys - {j};
      assert (m - {k}).Keys == m.Keys - {k};
      TotalLengthRemove(m - {j}, k);
      TotalLengthRemove(m - {k}, j);
      assert m - {j} - {k} == m - {k} - {j};
    }
  }

  /** Adding an entry under a new name adds its length to the sum. */
  lemma TotalLengthAdd(m: map<string, seq<string>>, k: string, v: seq<string>)
    requires k !in m
    ensures TotalLength(m[k := v]) == TotalLength(m) + |v|
  {
    TotalLengthRemove(m[k := v], k);
    assert m[k := v] - {k} == m;
  }

  /** The volume count reported after discovery: the sum of the lengths of
      all lists in the table. */
  method CountVolumes(targets: map<string, seq<string>>) returns (n: nat)
    ensures n == TotalLength(targets)
  {
    n := 0;
    var rest := targets;
    while rest != map[]
      invariant n + TotalLength(rest) == TotalLength(targets)
      decreases |rest|
    {
      var k :| k in rest;
      TotalLengthRemove(rest, k);
      n := n + |rest[k]|;
      assert (rest - {k}).Keys == rest.Keys - {k};
      rest := rest - {k};
    }
  }

  /** The sum of the lengths of a sequence of lists. */
  function SumLengths(ms: seq<seq<string>>): nat {
    if ms == [] then 0 else SumLengths(ms[..|ms| - 1]) + |ms[|ms| - 1]|
  }

  /** With distinct names the reported count is the number of destinations
      discovered over all containers. */
  lemma {:induction false} DistinctNamesCountAll(cs: seq<string>, ms: seq<seq<string>>)
    requires |cs| == |ms|
    requires forall i, j :: 0 <= i < j < |cs| ==> cs[i] != cs[j]
    ensures TotalLength(TargetsTable(cs, ms)) == SumLengths(ms)
    decreases |cs|
  {
    if cs != [] {
      var n := |cs| - 1;
      var init, minit := cs[..n], ms[..n];
      DistinctNamesCountAll(init, minit);
      assert cs[n] !in init;
      TotalLengthAdd(TargetsTable(init, minit), cs[n], ms[n]);
    }
  }

  /** A repeated name is counted once: two containers of the same name with
      one volume each report one volume. */
  lemma RepeatedNameCountedOnce()
    ensures TotalLength(TargetsTable(["web", "web"], [["/data"], ["/data"]])) == 1
    ensures SumLengths([["/data"], ["/data"]]) == 2
  {
    var t := TargetsTable(["web", "web"], [["/data"], ["/data"]]);
    assert ["web", "web"][..1] == ["web"];
    assert t == map["web" := ["/data"]];
    TotalLengthAdd(map[], "web", ["/data"]);
    assert map[]["web" := ["/data"]] == map["web" := ["/data"]];
  }
}
