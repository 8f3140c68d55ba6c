/** The array updaters the pages pass to their state setters, stated once. */
module Lists {

  /** `prev.filter((_, i) => i !== index)`: drops the element at position `index`
      and keeps the others in order; an index outside the list drops nothing. */
  function RemoveAt<T>(s: seq<T>, index: int): (r: seq<T>)
    ensures 0 <= index < |s| ==> |r| == |s| - 1
    ensures 0 <= index < |s| ==> forall j :: 0 <= j < index ==> r[j] == s[j]
    ensures 0 <= index < |s| ==> forall j :: index <= j < |r| ==> r[j] == s[j + 1]
    ensures !(0 <= index < |s|) ==> r == s
    decreases |s|
  {
    if s == [] then []
    else if index == 0 then s[1..]
    else [s[0]] + RemoveAt(s[1..], index - 1)
  }

  /** Pairs the elements of two equally long lists position by position. */
  function Zip<A, B>(a: seq<A>, b: seq<B>): (r: seq<(A, B)>)
    requires |a| == |b|
    ensures |r| == |a|
    ensures forall j :: 0 <= j < |r| ==> r[j] == (a[j], b[j])
  {
    if a == [] then [] else [(a[0], b[0])] + Zip(a[1..], b[1..])
  }

  /** Removing the same index from two parallel lists keeps them parallel:
      the pairs that remain are the old pairs minus the removed one. */
  lemma RemoveAtKeepsPairs<A, B>(a: seq<A>, b: seq<B>, index: int)
    requires |a| == |b|
    ensures |RemoveAt(a, index)| == |RemoveAt(b, index)|
    ensures Zip(RemoveAt(a, index), RemoveAt(b, index)) == RemoveAt(Zip(a, b), index)
  {
  }

  /** Appending to two parallel lists, element for element, keeps them parallel. */
  lemma AppendKeepsPairs<A, B>(a: seq<A>, b: seq<B>, x: seq<A>, y: seq<B>)
    requires |a| == |b| && |x| == |y|
    ensures Zip(a + x, b + y) == Zip(a, b) + Zip(x, y)
  {
  }

  /** `s.filter(keep)`: the elements for which `keep` holds, in their order. */
  function Filter<T>(s: seq<T>, keep: T -> bool): (r: seq<T>)
    ensures |r| <= |s|
    ensures forall i :: 0 <= i < |r| ==> r[i] in s && keep(r[i])
    ensures forall i :: 0 <= i < |s| && keep(s[i]) ==> s[i] in r
  {
    if s == [] then [] else (if keep(s[0]) then [s[0]] else []) + Filter(s[1..], keep)
  }

  /** Filtering keeps relative order: it works on each part of a list separately. */
  lemma {:induction false} FilterConcat<T>(a: seq<T>, b: seq<T>, keep: T -> bool)
    ensures Filter(a + b, keep) == Filter(a, keep) + Filter(b, keep)
  {
    if a == [] {
      assert a + b == b;
    } else {
      assert (a + b)[1..] == a[1..] + b;
      FilterConcat(a[1..], b, keep);
    }
  }

  /** Filtering removes every copy of a rejected element and no copy of a kept one. */
  lemma {:induction false} FilterMultiplicity<T>(s: seq<T>, keep: T -> bool, x: T)
    ensures multiset(Filter(s, keep))[x] == if keep(x) then multiset(s)[x] else 0
  {
    if s != [] {
      assert s == [s[0]] + s[1..];
      FilterMultiplicity(s[1..], keep, x);
    }
  }

  /** A filter that rejects nothing returns the list unchanged. */
  lemma {:induction false} FilterKeepsAll<T>(s: seq<T>, keep: T -> bool)
    requires forall i :: 0 <= i < |s| ==> keep(s[i])
    ensures Filter(s, keep) == s
  {
    if s != [] {
      FilterKeepsAll(s[1..], keep);
    }
  }
}
