/** Datatypes and sequence facts shared by every part of the model. */
module Prelude {

  datatype Option<+T> = None | Some(value: T)

  datatype Result<+T> = Ok(value: T) | Err(error: string)

  /** No two positions of the sequence hold the same value. */
  ghost predicate Distinct<T>(s: seq<T>) {
    forall i, j :: 0 <= i < j < |s| ==> s[i] != s[j]
  }

  /** The positions listed in ascending order. */
  ghost predicate Enumerates(at: seq<nat>, positions: set<nat>) {
    (forall j, k :: 0 <= j < k < |at| ==> at[j] < at[k]) && forall k :: k in at <==> k in positions
  }

  lemma EnumeratesSnoc(at: seq<nat>, positions: set<nat>, n: nat)
    requires Enumerates(at, positions) && forall k :: k in positions ==> k < n
    ensures Enumerates(at + [n], positions + {n})
  {
    var next := at + [n];
    forall j, k | 0 <= j < k < |next| ensures next[j] < next[k] {
      assert j < |at| && at[j] in at;
    }
  }

  function Filter<T>(keep: T -> bool, s: seq<T>): (r: seq<T>)
    ensures |r| <= |s|
  {
    if s == [] then []
    else
      var rest := Filter(keep, s[..|s| - 1]);
      if keep(s[|s| - 1]) then rest + [s[|s| - 1]] else rest
  }

  lemma FilterFirst<T>(keep: T -> bool, s: seq<T>)
    requires s != []
    ensures Filter(keep, s) == (if keep(s[0]) then [s[0]] else []) + Filter(keep, s[1..])
  {
    FilterAppend(keep, s[..1], s[1..]);
    assert s == s[..1] + s[1..];
    assert Filter(keep, s[..1][..0]) == [];
  }

  function Map<T, U>(f: T -> U, s: seq<T>): (r: seq<U>)
    ensures |r| == |s|
    ensures forall i :: 0 <= i < |s| ==> r[i] == f(s[i])
  {
    seq(|s|, i requires 0 <= i < |s| => f(s[i]))
  }

  lemma {:induction false} FilterMember<T>(keep: T -> bool, s: seq<T>, x: T)
    ensures x in Filter(keep, s) <==> x in s && keep(x)
  {
    if s != [] {
      var n := |s| - 1;
      FilterMember(keep, s[..n], x);
      assert s == s[..n] + [s[n]];
    }
  }

  /** Filtering keeps the elements at the positions where the predicate holds, in order. */
  lemma {:induction false} FilterAt<T>(keep: T -> bool, s: seq<T>) returns (at: seq<nat>)
    ensures Enumerates(at, set k: nat | k < |s| && keep(s[k])) && |Filter(keep, s)| == |at|
    ensures forall j :: 0 <= j < |at| ==> at[j] < |s| && Filter(keep, s)[j] == s[at[j]]
  {
    at := [];
    if s != [] {
      var n := |s| - 1;
      at := FilterAt(keep, s[..n]);
      var front := set k: nat | k < n && keep(s[..n][k]);
      if keep(s[n]) {
        EnumeratesSnoc(at, front, n);
        at := at + [n];
        assert (set k: nat | k < |s| && keep(s[k])) == front + {n};
      } else {
        assert (set k: nat | k < |s| && keep(s[k])) == front;
      }
    }
  }

  /** Filtering keeps exactly the multiplicity of what it keeps. */
  lemma {:induction false} FilterMultiset<T>(keep: T -> bool, s: seq<T>, x: T)
    ensures multiset(Filter(keep, s))[x] == if keep(x) then multiset(s)[x] else 0
  {
    if s != [] {
      var n := |s| - 1;
      FilterMultiset(keep, s[..n], x);
      assert s == s[..n] + [s[n]];
    }
  }

  lemma {:induction false} FilterAppend<T>(keep: T -> bool, a: seq<T>, b: seq<T>)
    ensures Filter(keep, a + b) == Filter(keep, a) + Filter(keep, b)
  {
    if b == [] {
      assert a + b == a;
    } else {
      var n := |b| - 1;
      assert (a + b)[..|a + b| - 1] == a + b[..n];
      FilterAppend(keep, a, b[..n]);
    }
  }

  lemma Associative<T>(a: seq<T>, b: seq<T>, c: seq<T>)
    ensures a + b + c == a + (b + c)
  {
  }

  lemma HeadTail<T>(a: seq<T>, b: seq<T>)
    requires a != [] && b != []
    ensures a == b <==> a[0] == b[0] && a[1..] == b[1..]
  {
    assert a == [a[0]] + a[1..] && b == [b[0]] + b[1..];
  }

  function RemoveAt<T>(s: seq<T>, k: nat): (r: seq<T>)
    requires k < |s|
    ensures |r| == |s| - 1
    ensures forall i :: 0 <= i < |r| ==> r[i] == if i < k then s[i] else s[i + 1]
  {
    s[..k] + s[k + 1..]
  }

  lemma RemoveAtMultiset<T>(s: seq<T>, k: nat)
    requires k < |s|
    ensures multiset(s) == multiset(RemoveAt(s, k)) + multiset{s[k]}
    ensures multiset(RemoveAt(s, k)) == multiset(s) - multiset{s[k]}
  {
    assert s == s[..k] + [s[k]] + s[k + 1..];
  }

  lemma MapRemoveAt<T, U>(f: T -> U, s: seq<T>, k: nat)
    requires k < |s|
    ensures multiset(Map(f, s)) == multiset(Map(f, RemoveAt(s, k))) + multiset{f(s[k])}
  {
    assert Map(f, RemoveAt(s, k)) == RemoveAt(Map(f, s), k);
    RemoveAtMultiset(Map(f, s), k);
  }

  /** The multiset of images depends on the multiset of arguments only. */
  lemma {:induction false} MapMultiset<T, U>(f: T -> U, s: seq<T>, t: seq<T>)
    requires multiset(s) == multiset(t)
    ensures multiset(Map(f, s)) == multiset(Map(f, t))
  {
    if s == [] {
      assert |multiset(t)| == 0;
    } else {
      assert s[0] in multiset(t);
      var k :| 0 <= k < |t| && t[k] == s[0];
      MapRemoveAt(f, s, 0);
      MapRemoveAt(f, t, k);
      var a, b := RemoveAt(s, 0), RemoveAt(t, k);
      assert multiset(a) == multiset(b) by {
        RemoveAtMultiset(s, 0);
        RemoveAtMultiset(t, k);
      }
      MapMultiset(f, a, b);
    }
  }
}
