/** Small value types and helpers over finite maps and sequences, shared by the
    model of the FarmHub tables and the reporting service. */
module Collections {

  datatype Option<T> = None | Some(value: T) {
    function GetOr(default: T): T {
      match this
      case Some(v) => v
      case None => default
    }
  }

  datatype Result<T, E> = Success(value: T) | Failure(error: E)

  /** A request field read with `data.get(...)` and checked for truthiness:
      an absent field and the id 0 both count as "not given". */
  predicate Truthy(field: Option<nat>) {
    field.Some? && field.value != 0
  }

  /** Every non-empty set of naturals has a least element. */
  lemma {:induction false} MinExists(s: set<nat>)
    requires s != {}
    ensures exists k :: k in s && forall j :: j in s ==> k <= j
    decreases s
  {
    var x :| x in s;
    var smaller := set y | y in s && y < x;
    if smaller == {} {
      forall j | j in s ensures x <= j {
        assert j < x ==> j in smaller;
      }
    } else {
      MinExists(smaller);
      var m :| m in smaller && forall j :: j in smaller ==> m <= j;
      forall j | j in s ensures m <= j {
        assert j < x ==> j in smaller;
      }
    }
  }

  /** The least key of a set of row ids; it makes iteration over a table deterministic. */
  function MinKey(s: set<nat>): (k: nat)
    requires s != {}
    ensures k in s
    ensures forall j :: j in s ==> k <= j
  {
    MinExists(s);
    var k :| k in s && forall j :: j in s ==> k <= j;
    k
  }

  ghost predicate Increasing(ks: seq<nat>) {
    forall i, j :: 0 <= i < j < |ks| ==> ks[i] < ks[j]
  }

  /** The keys of a table in ascending order, the order in which a table is scanned. */
  function SortedKeys<T>(m: map<nat, T>): (ks: seq<nat>)
    ensures |ks| == |m|
    ensures forall k :: k in ks <==> k in m
    decreases |m|
  {
    if |m| == 0 then []
    else
      var k := MinKey(m.Keys);
      var rest := m - {k};
      assert rest.Keys == m.Keys - {k};
      [k] + SortedKeys(rest)
  }

  lemma ConsIncreasing(k: nat, tail: seq<nat>)
    requires Increasing(tail)
    requires forall y :: y in tail ==> k < y
    ensures Increasing([k] + tail)
  {
    var ks := [k] + tail;
    forall i, j | 0 <= i < j < |ks| ensures ks[i] < ks[j] {
      assert ks[j] == tail[j - 1] && tail[j - 1] in tail;
      if i > 0 { assert ks[i] == tail[i - 1]; } else { assert ks[i] == k; }
    }
  }

  /** The scan visits every key once, in strictly ascending order. */
  lemma {:induction false} SortedKeysIncreasing<T>(m: map<nat, T>)
    ensures Increasing(SortedKeys(m))
    decreases |m|
  {
    if |m| != 0 {
      var k := MinKey(m.Keys);
      var rest := m - {k};
      assert rest.Keys == m.Keys - {k};
      SortedKeysIncreasing(rest);
      ConsIncreasing(k, SortedKeys(rest));
    }
  }

  /** The rows of a table in ascending key order. */
  function Rows<T>(m: map<nat, T>): (rows: seq<T>)
    ensures |rows| == |m|
    ensures forall i :: 0 <= i < |rows| ==> SortedKeys(m)[i] in m && rows[i] == m[SortedKeys(m)[i]]
  {
    var ks := SortedKeys(m);
    seq(|ks|, i requires 0 <= i < |ks| => m[ks[i]])
  }

  /** Every row of a table is visited by the scan. */
  lemma RowsComplete<T>(m: map<nat, T>, k: nat)
    requires k in m
    ensures m[k] in Rows(m)
  {
    var ks := SortedKeys(m);
    var i :| 0 <= i < |ks| && ks[i] == k;
    assert Rows(m)[i] == m[k];
  }

  /** Every row the scan visits is stored in the table. */
  lemma RowsSound<T>(m: map<nat, T>, x: T)
    requires x in Rows(m)
    ensures exists k :: k in m && m[k] == x
  {
    var i :| 0 <= i < |Rows(m)| && Rows(m)[i] == x;
    assert SortedKeys(m)[i] in m;
  }

  /** The elements of `s` that `keep` accepts, in their original order. */
  function Filter<T(!new)>(s: seq<T>, keep: T -> bool): (r: seq<T>)
    ensures |r| <= |s|
    ensures forall x :: x in r <==> x in s && keep(x)
    ensures multiset(r) <= multiset(s)
  {
    if s == [] then []
    else
      assert s == [s[0]] + s[1..];
      (if keep(s[0]) then [s[0]] else []) + Filter(s[1..], keep)
  }

  /** A filter that accepts every element returns the sequence unchanged. */
  lemma {:induction false} FilterKeepsAll<T(!new)>(s: seq<T>, keep: T -> bool)
    requires forall x :: x in s ==> keep(x)
    ensures Filter(s, keep) == s
  {
    if s != [] {
      assert s == [s[0]] + s[1..];
      FilterKeepsAll(s[1..], keep);
    }
  }

  /** A stricter filter keeps no more elements. */
  lemma {:induction false} FilterMonotone<T(!new)>(s: seq<T>, strict: T -> bool, loose: T -> bool)
    requires forall x :: x in s && strict(x) ==> loose(x)
    ensures |Filter(s, strict)| <= |Filter(s, loose)|
  {
    if s != [] {
      assert s == [s[0]] + s[1..];
      FilterMonotone(s[1..], strict, loose);
    }
  }
}
