/** Per-name histories: the `defaultdict(list)` maps of `ScenarioRun` and
    `StatsCollector`, which append one value under each registered object's
    name at every sweep. A name never appended to reads as the empty list. */
module History {

  type Histories<K> = map<K, seq<real>>

  /** Read the history of `name`, empty when nothing was appended yet. */
  function Lookup<K(==)>(m: Histories<K>, name: K): seq<real>
  {
    if name in m then m[name] else []
  }

  /** The values listed under `name`, in order. */
  function Picks<K(==)>(names: seq<K>, values: seq<real>, name: K): (r: seq<real>)
    ensures |r| <= |names|
    ensures name !in names ==> r == []
  {
    if |names| == 0 || |values| == 0 then []
    else (if names[0] == name then [values[0]] else []) + Picks(names[1..], values[1..], name)
  }

  /** Append `values[i]` under `names[i]`, left to right. */
  function AppendEach<K(==)>(m: Histories<K>, names: seq<K>, values: seq<real>): (r: Histories<K>)
    decreases |names|
  {
    if |names| == 0 || |values| == 0 then m
    else AppendEach(m[names[0] := Lookup(m, names[0]) + [values[0]]], names[1..], values[1..])
  }

  /** What `AppendEach` does to one name: the name has a history afterwards
      exactly when it had one or is listed, and its history grows by exactly
      the values listed under it, in order. */
  lemma {:induction false} AppendEachLookup<K>(m: Histories<K>, names: seq<K>, values: seq<real>, name: K)
    requires |names| == |values|
    ensures name in AppendEach(m, names, values) <==> name in m || name in names
    ensures Lookup(AppendEach(m, names, values), name) == Lookup(m, name) + Picks(names, values, name)
    decreases |names|
  {
    if |names| > 0 {
      var m' := m[names[0] := Lookup(m, names[0]) + [values[0]]];
      AppendEachLookup(m', names[1..], values[1..], name);
      InHeadOrTail(names, name);
      LookupHead(m, names, values, name);
    }
  }

  /** One step of `AppendEach`, seen from one name: appending the head
      value and then the tail's picks is appending all of the name's picks. */
  lemma LookupHead<K>(m: Histories<K>, names: seq<K>, values: seq<real>, name: K)
    requires |names| == |values| && 0 < |names|
    ensures Lookup(m[names[0] := Lookup(m, names[0]) + [values[0]]], name) + Picks(names[1..], values[1..], name)
            == Lookup(m, name) + Picks(names, values, name)
  {
    var tail := Picks(names[1..], values[1..], name);
    LookupUpdate(m, names[0], Lookup(m, names[0]) + [values[0]], name);
    PicksHead(names, values, name);
    if names[0] == name {
      Associative(Lookup(m, name), [values[0]], tail);
    } else {
      assert [] + tail == tail;
    }
  }

  lemma PicksHead<K>(names: seq<K>, values: seq<real>, name: K)
    requires 0 < |names| && 0 < |values|
    ensures Picks(names, values, name)
            == (if names[0] == name then [values[0]] else []) + Picks(names[1..], values[1..], name)
  {
  }

  lemma Associative(a: seq<real>, b: seq<real>, c: seq<real>)
    ensures (a + b) + c == a + (b + c)
  {
  }

  lemma LookupUpdate<K>(m: Histories<K>, key: K, h: seq<real>, name: K)
    ensures Lookup(m[key := h], name) == if key == name then h else Lookup(m, name)
  {
  }

  lemma InHeadOrTail<K>(names: seq<K>, name: K)
    requires 0 < |names|
    ensures name in names <==> name == names[0] || name in names[1..]
  {
    assert names == [names[0]] + names[1..];
  }

  /** No name is listed twice. */
  predicate Distinct<K(==)>(names: seq<K>) {
    forall i, j :: 0 <= i < j < |names| ==> names[i] != names[j]
  }

  /** With distinct names, each name picks out exactly its own value. */
  lemma {:induction false} PicksDistinct<K>(names: seq<K>, values: seq<real>, k: nat)
    requires |names| == |values| && Distinct(names) && k < |names|
    ensures Picks(names, values, names[k]) == [values[k]]
  {
    if k == 0 {
      assert names[0] !in names[1..];
    } else {
      assert names[0] != names[k];
      assert names[1..][k - 1] == names[k];
      PicksDistinct(names[1..], values[1..], k - 1);
    }
  }

  /** A name listed n times picks up n values. */
  lemma {:induction false} PicksCount<K>(names: seq<K>, values: seq<real>, name: K)
    requires |names| == |values|
    ensures |Picks(names, values, name)| == multiset(names)[name]
  {
    if |names| > 0 {
      assert names == [names[0]] + names[1..];
      assert multiset(names) == multiset([names[0]]) + multiset(names[1..]);
      PicksCount(names[1..], values[1..], name);
    }
  }

  /** The values listed under `name` over several sweeps: each sweep's picks,
      in sweep order. */
  function PicksAll<K(==)>(names: seq<K>, readings: seq<seq<real>>, name: K): seq<real>
    decreases |readings|
  {
    if |readings| == 0 then []
    else PicksAll(names, readings[..|readings| - 1], name) + Picks(names, readings[|readings| - 1], name)
  }

  /** One more sweep adds that sweep's picks. */
  lemma PicksAllSnoc<K>(names: seq<K>, readings: seq<seq<real>>, last: seq<real>, name: K)
    ensures PicksAll(names, readings + [last], name) == PicksAll(names, readings, name) + Picks(names, last, name)
  {
    assert (readings + [last])[..|readings|] == readings;
  }

  /** Append one reading per sweep, sweep by sweep. */
  function AppendAll<K(==)>(m: Histories<K>, names: seq<K>, readings: seq<seq<real>>): Histories<K>
    decreases |readings|
  {
    if |readings| == 0 then m
    else AppendEach(AppendAll(m, names, readings[..|readings| - 1]), names, readings[|readings| - 1])
  }

  /** One more sweep appends its reading. */
  lemma AppendAllSnoc<K>(m: Histories<K>, names: seq<K>, readings: seq<seq<real>>, last: seq<real>)
    ensures AppendAll(m, names, readings + [last]) == AppendEach(AppendAll(m, names, readings), names, last)
  {
    assert (readings + [last])[..|readings|] == readings;
  }

  /** After several sweeps, a name's history has grown by the values listed
      under it in every sweep, in sweep order. */
  lemma {:induction false} AppendAllLookup<K>(m: Histories<K>, names: seq<K>, readings: seq<seq<real>>, name: K)
    requires forall t :: 0 <= t < |readings| ==> |readings[t]| == |names|
    ensures Lookup(AppendAll(m, names, readings), name) == Lookup(m, name) + PicksAll(names, readings, name)
    decreases |readings|
  {
    if |readings| > 0 {
      var n := |readings| - 1;
      var before := AppendAll(m, names, readings[..n]);
      AppendAllLookup(m, names, readings[..n], name);
      AppendEachLookup(before, names, readings[n], name);
      assert AppendAll(m, names, readings) == AppendEach(before, names, readings[n]);
      assert PicksAll(names, readings, name) == PicksAll(names, readings[..n], name) + Picks(names, readings[n], name);
      Associative(Lookup(m, name), PicksAll(names, readings[..n], name), Picks(names, readings[n], name));
    }
  }

  /** Entry `k` of every reading, in sweep order. */
  function Column(readings: seq<seq<real>>, k: nat): (r: seq<real>)
    requires forall t :: 0 <= t < |readings| ==> k < |readings[t]|
    ensures |r| == |readings|
    ensures forall t :: 0 <= t < |readings| ==> r[t] == readings[t][k]
  {
    seq(|readings|, t requires 0 <= t < |readings| => readings[t][k])
  }

  /** A column grows by one entry per reading appended. */
  lemma ColumnSnoc(readings: seq<seq<real>>, k: nat)
    requires 0 < |readings| && forall t :: 0 <= t < |readings| ==> k < |readings[t]|
    ensures Column(readings, k) == Column(readings[..|readings| - 1], k) + [readings[|readings| - 1][k]]
  {
    var n := |readings| - 1;
    var a := Column(readings, k);
    var b := Column(readings[..n], k) + [readings[n][k]];
    assert |a| == |b|;
    forall t | 0 <= t < |a|
      ensures a[t] == b[t]
    {
      if t < n {
        assert readings[..n][t] == readings[t];
      }
    }
  }

  /** With distinct names and one value per name in every reading, a name's
      picks over several sweeps are its own column: one value per sweep, in
      sweep order. */
  lemma {:induction false} PicksAllDistinct<K>(names: seq<K>, readings: seq<seq<real>>, k: nat)
    requires Distinct(names) && k < |names|
    requires forall t :: 0 <= t < |readings| ==> |readings[t]| == |names|
    ensures PicksAll(names, readings, names[k]) == Column(readings, k)
    decreases |readings|
  {
    if |readings| > 0 {
      var n := |readings| - 1;
      PicksAllDistinct(names, readings[..n], k);
      PicksDistinct(names, readings[n], k);
      ColumnSnoc(readings, k);
    }
  }
}
