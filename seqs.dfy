/** Element-wise maps and filters over sequences, as list comprehensions build them. */
module Seqs {
  /** `[f(x) for x in s]`. */
  function Map<A, B>(f: A -> B, s: seq<A>): (r: seq<B>)
    ensures |r| == |s| && forall i :: 0 <= i < |s| ==> r[i] == f(s[i])
  {
    if s == [] then [] else Map(f, s[..|s| - 1]) + [f(s[|s| - 1])]
  }

  /** `[x for x in s if keep(x)]`. */
  function Filter<A(!new)>(keep: A -> bool, s: seq<A>): (r: seq<A>)
    ensures |r| <= |s|
    ensures forall x :: x in r <==> x in s && keep(x)
  {
    if s == [] then [] else Filter(keep, s[..|s| - 1]) + (if keep(s[|s| - 1]) then [s[|s| - 1]] else [])
  }

  /** Filtering one more element. */
  lemma FilterSnoc<A(!new)>(keep: A -> bool, s: seq<A>, x: A)
    ensures Filter(keep, s + [x]) == Filter(keep, s) + (if keep(x) then [x] else [])
  {
    assert (s + [x])[..|s + [x]| - 1] == s;
  }

  /** A list behind a fixed head grows by one element. */
  lemma AppendBehindHead<A>(head: A, front: seq<A>, x: A, grown: seq<A>)
    requires grown == front + [x]
    ensures [head] + front + [x] == [head] + grown
  {
  }

  /** Appending a list's elements one by one, behind a fixed front. */
  lemma AppendSnoc<A>(front: seq<A>, init: seq<A>, x: A, whole: seq<A>)
    requires whole == init + [x]
    ensures front + init + [x] == front + whole
  {
  }

  /** Splitting off the first element and appending again. */
  lemma ConsAppend<A>(s: seq<A>, t: seq<A>)
    requires s != []
    ensures [s[0]] + (s[1..] + t) == s + t
  {
  }

  /** Keeping one more element of a prefix. */
  lemma FilterPrefix<A(!new)>(keep: A -> bool, s: seq<A>, k: nat)
    requires k < |s|
    ensures Filter(keep, s[..k + 1]) == Filter(keep, s[..k]) + (if keep(s[k]) then [s[k]] else [])
  {
    assert s[..k + 1] == s[..k] + [s[k]];
    FilterSnoc(keep, s[..k], s[k]);
  }

  /** Mapping one more element of a prefix. */
  lemma MapPrefix<A, B>(f: A -> B, s: seq<A>, k: nat)
    requires k < |s|
    ensures Map(f, s[..k + 1]) == Map(f, s[..k]) + [f(s[k])]
  {
    assert s[..k + 1][..k] == s[..k];
  }

  /** Keeping and mapping one more element. */
  lemma MapFilterSnoc<A(!new), B>(f: A -> B, keep: A -> bool, s: seq<A>, x: A)
    ensures Map(f, Filter(keep, s + [x])) == Map(f, Filter(keep, s)) + (if keep(x) then [f(x)] else [])
  {
    assert (s + [x])[..|s + [x]| - 1] == s;
    if !keep(x) {
      assert Filter(keep, s) + [] == Filter(keep, s);
    }
  }

  /** Keeping and mapping one more element of a prefix. */
  lemma MapFilterPrefix<A(!new), B>(f: A -> B, keep: A -> bool, s: seq<A>, k: nat)
    requires k < |s|
    ensures Map(f, Filter(keep, s[..k + 1])) == Map(f, Filter(keep, s[..k])) + (if keep(s[k]) then [f(s[k])] else [])
  {
    assert s[..k + 1] == s[..k] + [s[k]];
    MapFilterSnoc(f, keep, s[..k], s[k]);
  }

  /** An element of a mapped filter is the image of a kept element, and every kept element's image is there. */
  lemma MapFilterMember<A(!new), B>(f: A -> B, keep: A -> bool, s: seq<A>, y: B)
    ensures y in Map(f, Filter(keep, s)) <==> exists x :: x in s && keep(x) && y == f(x)
  {
    var kept := Filter(keep, s);
    var ys := Map(f, kept);
    if y in ys {
      var i :| 0 <= i < |ys| && ys[i] == y;
      assert kept[i] in kept;
    }
    if exists x :: x in s && keep(x) && y == f(x) {
      var x :| x in s && keep(x) && y == f(x);
      assert x in kept;
      var i :| 0 <= i < |kept| && kept[i] == x;
      assert ys[i] == y;
    }
  }
}
