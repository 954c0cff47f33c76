/** A stable ascending sort by a numeric key, standing for the host language's library sort. */
module Sorting {
  import opened Prelude

  ghost predicate Sorted(s: seq<real>) {
    forall i, j :: 0 <= i <= j < |s| ==> s[i] <= s[j]
  }

  /** Puts `x` in front of the first element whose key is not smaller, hence before its equals. */
  function Insert<T>(key: T -> real, x: T, s: seq<T>): (r: seq<T>)
    ensures |r| == |s| + 1
  {
    if s == [] || key(x) <= key(s[0]) then [x] + s else [s[0]] + Insert(key, x, s[1..])
  }

  function SortBy<T>(key: T -> real, s: seq<T>): (r: seq<T>)
    ensures |r| == |s|
  {
    if s == [] then [] else Insert(key, s[0], SortBy(key, s[1..]))
  }

  lemma {:induction false} InsertMultiset<T>(key: T -> real, x: T, s: seq<T>)
    ensures multiset(Insert(key, x, s)) == multiset(s) + multiset{x}
  {
    if s != [] {
      assert s == [s[0]] + s[1..];
      InsertMultiset(key, x, s[1..]);
    }
  }

  lemma {:induction false} SortByMultiset<T>(key: T -> real, s: seq<T>)
    ensures multiset(SortBy(key, s)) == multiset(s)
  {
    if s != [] {
      assert s == [s[0]] + s[1..];
      SortByMultiset(key, s[1..]);
      InsertMultiset(key, s[0], SortBy(key, s[1..]));
    }
  }

  lemma {:induction false} InsertSorted<T>(key: T -> real, x: T, s: seq<T>)
    requires Sorted(Map(key, s))
    ensures Sorted(Map(key, Insert(key, x, s)))
    ensures key(Insert(key, x, s)[0]) == if s == [] || key(x) <= key(s[0]) then key(x) else key(s[0])
  {
    if s != [] && key(x) > key(s[0]) {
      var keys := Map(key, s);
      assert Map(key, s[1..]) == keys[1..];
      InsertSorted(key, x, s[1..]);
      var rest := Insert(key, x, s[1..]);
      var rk := Map(key, rest);
      assert Map(key, [s[0]] + rest) == [keys[0]] + rk;
      assert keys[0] <= rk[0] by {
        assert s[1..] != [] ==> keys[0] <= keys[1];
      }
    } else {
      assert Map(key, [x] + s) == [key(x)] + Map(key, s);
      assert s != [] ==> Map(key, s)[0] == key(s[0]);
    }
  }

  lemma {:induction false} SortBySorted<T>(key: T -> real, s: seq<T>)
    ensures Sorted(Map(key, SortBy(key, s)))
  {
    if s != [] {
      SortBySorted(key, s[1..]);
      InsertSorted(key, s[0], SortBy(key, s[1..]));
    }
  }

  /** The earliest position among those with the smallest key. */
  ghost predicate FirstMinimum<T>(key: T -> real, s: seq<T>, k: nat) {
    k < |s| && (forall i :: 0 <= i < k ==> key(s[k]) < key(s[i])) && forall i :: k <= i < |s| ==> key(s[k]) <= key(s[i])
  }

  /** Stability where it shows: the head of the sorted sequence is the first minimum of the input. */
  lemma {:induction false} SortByHead<T>(key: T -> real, s: seq<T>) returns (k: nat)
    requires s != []
    ensures FirstMinimum(key, s, k)
    ensures SortBy(key, s)[0] == s[k]
  {
    if |s| == 1 {
      k := 0;
    } else {
      var rest := s[1..];
      var m := SortByHead(key, rest);
      if key(s[0]) <= key(rest[m]) {
        k := 0;
        forall i | 1 <= i < |s| ensures key(rest[m]) <= key(s[i]) {
          assert s[i] == rest[i - 1];
        }
      } else {
        k := m + 1;
        forall i | 1 <= i < |s| ensures (i < k ==> key(s[k]) < key(s[i])) && key(s[k]) <= key(s[i]) {
          assert s[i] == rest[i - 1];
        }
      }
    }
  }

  /** Two ascending sequences with the same elements are the same sequence. */
  lemma {:induction false} SortedUnique(s: seq<real>, t: seq<real>)
    requires Sorted(s) && Sorted(t) && multiset(s) == multiset(t)
    ensures s == t
  {
    assert |s| == |multiset(s)| == |multiset(t)| == |t|;
    if s != [] {
      SameHead(s, t);
      TailMultiset(s);
      TailMultiset(t);
      SortedUnique(s[1..], t[1..]);
      assert s == [s[0]] + s[1..] && t == [t[0]] + t[1..];
    }
  }

  lemma TailMultiset(s: seq<real>)
    requires s != []
    ensures multiset(s[1..]) == multiset(s) - multiset{s[0]}
  {
    assert s == [s[0]] + s[1..];
  }

  lemma SameHead(s: seq<real>, t: seq<real>)
    requires Sorted(s) && Sorted(t) && s != [] && t != [] && multiset(s) == multiset(t)
    ensures s[0] == t[0]
  {
    assert s[0] in multiset(t) && t[0] in multiset(s);
    var i :| 0 <= i < |t| && t[i] == s[0];
    var j :| 0 <= j < |s| && s[j] == t[0];
  }

  /** How many elements lie strictly above a value. */
  function CountAbove(s: seq<real>, v: real): (n: nat)
    ensures n <= |s|
  {
    if s == [] then 0 else (if s[0] > v then 1 else 0) + CountAbove(s[1..], v)
  }

  ghost function PositionsAbove(s: seq<real>, v: real): set<nat> {
    set k: nat | k < |s| && s[k] > v
  }

  lemma {:induction false} CountAboveSnoc(s: seq<real>, x: real, v: real)
    ensures CountAbove(s + [x], v) == CountAbove(s, v) + if x > v then 1 else 0
  {
    if s != [] {
      CountAboveSnoc(s[1..], x, v);
      assert (s + [x])[1..] == s[1..] + [x];
    }
  }

  lemma {:induction false} CountAbovePositions(s: seq<real>, v: real)
    ensures CountAbove(s, v) == |PositionsAbove(s, v)|
  {
    if s != [] {
      var n := |s| - 1;
      CountAbovePositions(s[..n], v);
      CountAboveSnoc(s[..n], s[n], v);
      assert s == s[..n] + [s[n]];
      assert PositionsAbove(s, v) == PositionsAbove(s[..n], v) + if s[n] > v then {n} else {};
    }
  }

  lemma {:induction false} CountAboveInsert(x: real, s: seq<real>, v: real)
    ensures CountAbove(Insert((y: real) => y, x, s), v) == CountAbove([x] + s, v)
  {
    var id := (y: real) => y;
    assert ([x] + s)[1..] == s;
    if s != [] && x > s[0] {
      CountAboveInsert(x, s[1..], v);
      assert ([x] + s[1..])[1..] == s[1..];
      assert ([s[0]] + Insert(id, x, s[1..]))[1..] == Insert(id, x, s[1..]);
    }
  }

  lemma {:induction false} CountAboveSort(s: seq<real>, v: real)
    ensures CountAbove(SortBy((y: real) => y, s), v) == CountAbove(s, v)
  {
    if s != [] {
      var id := (y: real) => y;
      CountAboveSort(s[1..], v);
      CountAboveInsert(s[0], SortBy(id, s[1..]), v);
      assert ([s[0]] + SortBy(id, s[1..]))[1..] == SortBy(id, s[1..]);
    }
  }

  /** In an ascending sequence nothing up to position `k` lies above the value at `k`. */
  lemma {:induction false} CountAboveRank(s: seq<real>, k: nat)
    requires Sorted(s) && k < |s|
    ensures CountAbove(s, s[k]) <= |s| - 1 - k
    decreases k
  {
    if k > 0 {
      CountAboveRank(s[1..], k - 1);
    }
  }
}
