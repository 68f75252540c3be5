/** Sequence, map and ordering vocabulary shared by the component models. */
module Prelude {

  datatype Option<+T> = None | Some(value: T) {
    predicate IsFailure() { None? }

    function PropagateFailure<U>(): Option<U>
      requires None?
    {
      None
    }

    function Extract(): T
      requires Some?
    {
      value
    }
  }

  const U16 := 0x1_0000
  const U32 := 0x1_0000_0000
  const U64 := 0x1_0000_0000_0000_0000

  // ---- sequences

  function RemoveAt<T>(s: seq<T>, i: nat): seq<T>
    requires i < |s|
  {
    s[..i] + s[i + 1..]
  }

  lemma RemoveAtMultiset<T>(s: seq<T>, i: nat)
    requires i < |s|
    ensures multiset(s) == multiset(RemoveAt(s, i)) + multiset{s[i]}
  {
    assert s == s[..i] + [s[i]] + s[i + 1..];
  }

  predicate Ascending(s: seq<nat>) {
    forall i, j :: 0 <= i < j < |s| ==> s[i] < s[j]
  }

  predicate Distinct<T(==)>(s: seq<T>) {
    forall i, j :: 0 <= i < j < |s| ==> s[i] != s[j]
  }

  function Flatten<T>(ss: seq<seq<T>>): seq<T> {
    if ss == [] then [] else ss[0] + Flatten(ss[1..])
  }

  lemma Reassociate<T>(a: seq<T>, b: seq<T>, c: seq<T>)
    ensures (a + b) + c == a + (b + c)
  {
  }

  lemma {:induction false} FlattenAppend<T>(xs: seq<seq<T>>, ys: seq<seq<T>>)
    ensures Flatten(xs + ys) == Flatten(xs) + Flatten(ys)
  {
    if xs == [] {
      assert xs + ys == ys;
    } else {
      assert (xs + ys)[1..] == xs[1..] + ys;
      FlattenAppend(xs[1..], ys);
      assert xs[0] + (Flatten(xs[1..]) + Flatten(ys)) == (xs[0] + Flatten(xs[1..])) + Flatten(ys);
    }
  }

  lemma FlattenSnoc<T>(xs: seq<seq<T>>, y: seq<T>)
    ensures Flatten(xs + [y]) == Flatten(xs) + y
  {
    FlattenAppend(xs, [y]);
    assert Flatten([y]) == y + Flatten([y][1..]) == y;
  }

  lemma {:induction false} MemberOfFlatten<T>(ss: seq<seq<T>>, x: T) returns (k: nat)
    requires x in Flatten(ss)
    ensures k < |ss| && x in ss[k]
    decreases |ss|
  {
    if x in ss[0] {
      k := 0;
    } else {
      var j := MemberOfFlatten(ss[1..], x);
      k := j + 1;
    }
  }

  lemma {:induction false} FlattenMember<T>(ss: seq<seq<T>>, k: nat, x: T)
    requires k < |ss| && x in ss[k]
    ensures x in Flatten(ss)
    decreases |ss|
  {
    if k > 0 { FlattenMember(ss[1..], k - 1, x); }
  }

  lemma PrefixFlattens<T>(ss: seq<seq<T>>, n: nat)
    requires n <= |ss|
    ensures Flatten(ss[..n]) <= Flatten(ss)
  {
    assert ss == ss[..n] + ss[n..];
    FlattenAppend(ss[..n], ss[n..]);
  }

  /** `s` cut into pieces of `k`, the last one possibly shorter. */
  function Groups<T>(s: seq<T>, k: nat): seq<seq<T>>
    requires k > 0
    decreases |s|
  {
    if s == [] then [] else if |s| <= k then [s] else [s[..k]] + Groups(s[k..], k)
  }

  lemma {:induction false} GroupsFlatten<T>(s: seq<T>, k: nat)
    requires k > 0
    ensures Flatten(Groups(s, k)) == s
    decreases |s|
  {
    if |s| > k {
      GroupsFlatten(s[k..], k);
      assert Groups(s, k)[1..] == Groups(s[k..], k);
      assert s == s[..k] + s[k..];
    } else if s != [] {
      assert [s][1..] == [];
      assert s + [] == s;
    }
  }

  lemma {:induction false} GroupsSizes<T>(s: seq<T>, k: nat)
    requires k > 0
    ensures forall i :: 0 <= i < |Groups(s, k)| ==> 0 < |Groups(s, k)[i]| <= k
    ensures forall i :: 0 <= i < |Groups(s, k)| - 1 ==> |Groups(s, k)[i]| == k
    decreases |s|
  {
    if |s| > k { GroupsSizes(s[k..], k); }
  }

  lemma GroupsFull<T>(group: seq<T>, rest: seq<T>, k: nat)
    requires k > 0 && |group| == k
    ensures Groups(group + rest, k) == [group] + Groups(rest, k)
  {
    var s := group + rest;
    if rest == [] {
      assert s == group;
    } else {
      assert s[..k] == group && s[k..] == rest;
    }
  }

  lemma TwiceIn<T>(s: seq<T>, i: nat, j: nat)
    requires i < j < |s| && s[i] == s[j]
    ensures multiset(s)[s[i]] >= 2
  {
    RemoveAtMultiset(s, j);
    assert RemoveAt(s, j)[i] == s[i];
    assert s[i] in multiset(RemoveAt(s, j));
  }

  lemma DistinctMultiset<T>(s: seq<T>)
    requires forall x :: multiset(s)[x] <= 1
    ensures Distinct(s)
  {
    forall i, j | 0 <= i < j < |s| ensures s[i] == s[j] ==> multiset(s)[s[i]] >= 2 {
      if s[i] == s[j] { TwiceIn(s, i, j); }
    }
  }

  // ---- a set of naturals in ascending order: the iteration order of std::map

  lemma {:induction false} MinimumExists(keys: set<nat>) returns (m: nat)
    requires keys != {}
    ensures m in keys && forall y :: y in keys ==> m <= y
  {
    m :| m in keys;
    var rest := keys - {m};
    assert forall y :: y in keys ==> y == m || y in rest;
    if rest != {} {
      var k := MinimumExists(rest);
      if k < m { m := k; }
    }
  }

  function Minimum(keys: set<nat>): (x: nat)
    requires keys != {}
    ensures x in keys && forall y :: y in keys ==> x <= y
  {
    assert exists x :: x in keys && forall y :: y in keys ==> x <= y by { var m := MinimumExists(keys); }
    var x :| x in keys && forall y :: y in keys ==> x <= y;
    x
  }

  function SortedIds(keys: set<nat>): (ids: seq<nat>)
    ensures forall x :: x in ids <==> x in keys
    ensures |ids| == |keys|
  {
    if keys == {} then [] else
      var x := Minimum(keys);
      [x] + SortedIds(keys - {x})
  }

  lemma {:induction false} SortedAscending(keys: set<nat>)
    ensures Ascending(SortedIds(keys))
  {
    if keys != {} {
      var x := Minimum(keys);
      var rest := SortedIds(keys - {x});
      SortedAscending(keys - {x});
      AscendingCons(x, rest);
    }
  }

  lemma AscendingCons(x: nat, rest: seq<nat>)
    requires Ascending(rest) && forall y :: y in rest ==> x < y
    ensures Ascending([x] + rest)
  {
    assert forall i :: 0 <= i < |rest| ==> rest[i] in rest;
  }
}
