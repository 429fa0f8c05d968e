/** Generic facts about lists drawn from an enumeration: filtering in order,
    lists whose elements ascend in declaration order, and when two such lists
    are the same list. */
module Enumeration {

  /** The elements of `s` that satisfy `keep`, in their original order. */
  function Filter<T>(s: seq<T>, keep: T -> bool): (r: seq<T>)
    ensures |r| <= |s|
  {
    if s == [] then []
    else if keep(s[0]) then [s[0]] + Filter(s[1..], keep)
    else Filter(s[1..], keep)
  }

  /** What Filter keeps is exactly the elements that satisfy `keep`. */
  lemma {:induction false} FilterMembers<T>(s: seq<T>, keep: T -> bool)
    ensures forall x :: x in Filter(s, keep) <==> x in s && keep(x)
  {
    if s != [] {
      FilterMembers(s[1..], keep);
      assert s == [s[0]] + s[1..];
    }
  }

  /** The positions `ord` gives to the elements strictly increase along `s`. */
  ghost predicate Ascending<T>(s: seq<T>, ord: T -> nat) {
    forall i, j :: 0 <= i < j < |s| ==> ord(s[i]) < ord(s[j])
  }

  /** No element occurs twice in `s`. */
  ghost predicate Distinct<T>(s: seq<T>) {
    forall i, j :: 0 <= i < j < |s| ==> s[i] != s[j]
  }

  /** A list whose every element sits at its own position ascends. */
  lemma AscendingByPosition<T>(s: seq<T>, ord: T -> nat)
    requires forall i :: 0 <= i < |s| ==> ord(s[i]) == i
    ensures Ascending(s, ord)
  {
  }

  /** An ascending list repeats no element. */
  lemma AscendingDistinct<T>(s: seq<T>, ord: T -> nat)
    requires Ascending(s, ord)
    ensures Distinct(s)
  {
    forall i, j | 0 <= i < j < |s|
      ensures s[i] != s[j]
    {
      assert ord(s[i]) < ord(s[j]);
    }
  }

  /** Dropping the first element of an ascending list leaves an ascending list. */
  lemma AscendingTail<T>(s: seq<T>, ord: T -> nat)
    requires s != [] && Ascending(s, ord)
    ensures Ascending(s[1..], ord)
  {
    var t := s[1..];
    forall i, j | 0 <= i < j < |t|
      ensures ord(t[i]) < ord(t[j])
    {
      assert t[i] == s[i + 1] && t[j] == s[j + 1];
    }
  }

  /** ... and that list holds exactly the other elements. */
  lemma AscendingTailMembers<T>(s: seq<T>, ord: T -> nat)
    requires s != [] && Ascending(s, ord)
    ensures forall x :: x in s[1..] <==> x in s && x != s[0]
  {
    var t := s[1..];
    forall x | x in s && x != s[0]
      ensures x in t
    {
      var p :| 0 <= p < |s| && s[p] == x;
      assert t[p - 1] == x;
    }
    forall x | x in t
      ensures x != s[0]
    {
      var p :| 0 <= p < |t| && t[p] == x;
      assert ord(s[0]) < ord(s[p + 1]);
    }
  }

  /** Filtering keeps a lower bound on the positions of the elements. */
  lemma {:induction false} FilterAbove<T>(s: seq<T>, keep: T -> bool, ord: T -> nat, bound: int)
    requires forall i :: 0 <= i < |s| ==> bound < ord(s[i])
    ensures forall i :: 0 <= i < |Filter(s, keep)| ==> bound < ord(Filter(s, keep)[i])
  {
    if s != [] {
      FilterAbove(s[1..], keep, ord, bound);
    }
  }

  /** Filtering keeps the order of what it keeps. */
  lemma {:induction false} FilterAscending<T>(s: seq<T>, keep: T -> bool, ord: T -> nat)
    requires Ascending(s, ord)
    ensures Ascending(Filter(s, keep), ord)
  {
    if s != [] {
      var tail := s[1..];
      AscendingTail(s, ord);
      FilterAscending(tail, keep, ord);
      if keep(s[0]) {
        var r, rt := Filter(s, keep), Filter(tail, keep);
        assert r == [s[0]] + rt;
        assert forall i :: 0 <= i < |tail| ==> ord(s[0]) < ord(tail[i]) by {
          forall i | 0 <= i < |tail|
            ensures ord(s[0]) < ord(tail[i])
          {
            assert tail[i] == s[i + 1];
          }
        }
        FilterAbove(tail, keep, ord, ord(s[0]));
        forall i, j | 0 <= i < j < |r|
          ensures ord(r[i]) < ord(r[j])
        {
          assert r[j] == rt[j - 1];
          if i > 0 {
            assert r[i] == rt[i - 1];
          }
        }
      }
    }
  }

  /** A list without members is empty. */
  lemma NoMembersEmpty<T>(s: seq<T>)
    ensures (forall x :: x !in s) ==> s == []
  {
    if s != [] {
      assert s[0] in s;
    }
  }

  /** Two ascending lists with the same elements are the same list. */
  lemma {:induction false} AscendingUnique<T>(a: seq<T>, b: seq<T>, ord: T -> nat)
    requires Ascending(a, ord) && Ascending(b, ord)
    requires forall x :: x in a <==> x in b
    ensures a == b
  {
    if a == [] || b == [] {
      NoMembersEmpty(a);
      NoMembersEmpty(b);
    } else {
      // Each list starts with the element of least position.
      assert a[0] in b;
      var j :| 0 <= j < |b| && b[j] == a[0];
      assert b[0] in a;
      var i :| 0 <= i < |a| && a[i] == b[0];
      assert ord(a[0]) <= ord(a[i]) && ord(b[0]) <= ord(b[j]);
      AscendingTail(a, ord);
      AscendingTail(b, ord);
      AscendingTailMembers(a, ord);
      AscendingTailMembers(b, ord);
      AscendingUnique(a[1..], b[1..], ord);
      assert a == [a[0]] + a[1..] && b == [b[0]] + b[1..];
    }
  }
}
