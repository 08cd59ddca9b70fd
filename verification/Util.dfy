/** Result and option types, sequences, sets and sums that several components share. */
module Util {

  datatype Option<+T> = None | Some(value: T)

  datatype Result<+T, +E> = Ok(value: T) | Err(error: E)

  function Reverse<T>(s: seq<T>): (r: seq<T>)
    ensures |r| == |s|
    ensures forall i :: 0 <= i < |s| ==> r[i] == s[|s| - 1 - i]
  {
    if s == [] then [] else Reverse(s[1..]) + [s[0]]
  }

  lemma ReverseTwice<T>(s: seq<T>)
    ensures Reverse(Reverse(s)) == s
  {}

  function Min(a: nat, b: nat): nat {
    if a < b then a else b
  }

  function Max(a: nat, b: nat): nat {
    if a < b then b else a
  }

  function Elements<T>(s: seq<T>): set<T> {
    set x | x in s
  }

  predicate Distinct<T(==)>(s: seq<T>) {
    forall i, j :: 0 <= i < j < |s| ==> s[i] != s[j]
  }

  function CountIn<T(==)>(s: seq<T>, among: set<T>): nat {
    if s == [] then 0 else (if s[0] in among then 1 else 0) + CountIn(s[1..], among)
  }

  lemma ElementsSplit<T>(s: seq<T>)
    requires s != []
    ensures Elements(s) == {s[0]} + Elements(s[1..])
  {}

  lemma IntersectInsert<T>(among: set<T>, others: set<T>, x: T)
    requires x !in others
    ensures |among * ({x} + others)| == |among * others| + if x in among then 1 else 0
  {
    if x in among {
      assert among * ({x} + others) == {x} + among * others;
    } else {
      assert among * ({x} + others) == among * others;
    }
  }

  lemma {:induction false} CountInDistinct<T>(s: seq<T>, among: set<T>)
    requires Distinct(s)
    ensures CountIn(s, among) == |among * Elements(s)|
  {
    if s == [] {
      assert among * Elements(s) == {};
    } else {
      CountInDistinct(s[1..], among);
      ElementsSplit(s);
      IntersectInsert(among, Elements(s[1..]), s[0]);
    }
  }

  lemma {:induction false} SubsetSize<T>(a: set<T>, b: set<T>)
    requires a <= b
    ensures |a| <= |b|
    ensures |a| == |b| ==> a == b
  {
    if a != {} {
      var x :| x in a;
      SubsetSize(a - {x}, b - {x});
    }
  }

  // ---- Sums over maps

  ghost function MapSum<K(!new)>(m: map<K, nat>): nat
    decreases |m|
  {
    if m == map[] then 0
    else
      var k :| k in m;
      m[k] + MapSum(m - {k})
  }

  lemma {:induction false} MapSumSplit<K(!new)>(m: map<K, nat>, k: K)
    requires k in m
    ensures MapSum(m) == m[k] + MapSum(m - {k})
    decreases |m|
  {
    var j :| j in m && MapSum(m) == m[j] + MapSum(m - {j});
    if j != k {
      MapSumSplit(m - {j}, k);
      MapSumSplit(m - {k}, j);
      assert m - {j} - {k} == m - {k} - {j};
    }
  }

  lemma MapSumUpdate<K(!new)>(m: map<K, nat>, k: K, v: nat)
    ensures MapSum(m[k := v]) + (if k in m then m[k] else 0) == MapSum(m) + v
  {
    MapSumSplit(m[k := v], k);
    assert m[k := v] - {k} == m - {k};
    if k in m { MapSumSplit(m, k); } else { assert m - {k} == m; }
  }

  // ---- Sets of numbers in ascending order

  lemma FindLeast(s: set<nat>) returns (low: nat)
    requires s != {}
    ensures low in s && forall y :: y in s ==> low <= y
  {
    var x :| x in s;
    low := x;
    var rest := s - {x};
    if rest != {} {
      low := FindLeast(rest);
      if x < low { low := x; }
    }
    assert s == rest + {x};
  }

  function Least(s: set<nat>): (x: nat)
    requires s != {}
    ensures x in s && forall y :: y in s ==> x <= y
  {
    assert exists x :: x in s && forall y :: y in s ==> x <= y by { var _ := FindLeast(s); }
    var x :| x in s && forall y :: y in s ==> x <= y;
    x
  }

  /** The order in which a sorted map is traversed. */
  function Ascending(s: set<nat>): (keys: seq<nat>)
    ensures forall x :: x in keys <==> x in s
    ensures forall i, j :: 0 <= i < j < |keys| ==> keys[i] < keys[j]
  {
    if s == {} then [] else [Least(s)] + Ascending(s - {Least(s)})
  }
}
