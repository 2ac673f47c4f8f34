/** Strictly increasing value lists: what the cron fields are kept as, and what
    `sort.SearchInts` and `toList` do with them. */
module SortedLists {

  ghost predicate Increasing(s: seq<int>) {
    forall i, j :: 0 <= i < j < |s| ==> s[i] < s[j]
  }

  /** `sort.SearchInts`: the first index whose value is at least x. */
  function Search(s: seq<int>, x: int): (i: nat)
    ensures i <= |s|
    ensures forall j :: 0 <= j < i ==> s[j] < x
    ensures i < |s| ==> s[i] >= x
  {
    if s == [] || s[0] >= x then 0 else 1 + Search(s[1..], x)
  }

  /** On an increasing list the search splits the values at x. */
  lemma SearchSplits(s: seq<int>, x: int)
    requires Increasing(s)
    ensures forall v :: v in s && v >= x ==> Search(s, x) < |s| && s[Search(s, x)] <= v
    ensures x in s <==> Search(s, x) < |s| && s[Search(s, x)] == x
  {
    forall v | v in s && v >= x
      ensures Search(s, x) < |s| && s[Search(s, x)] <= v
    {
      var k :| 0 <= k < |s| && s[k] == v;
    }
  }

  /** Searching past the found value moves the index by one. */
  lemma SearchNext(s: seq<int>, x: int, y: int)
    requires Increasing(s) && Search(s, x) < |s| && y == s[Search(s, x)] + 1
    ensures Search(s, y) == Search(s, x) + 1
  {
    var i, k := Search(s, x), Search(s, y);
    assert k > i;
    assert i + 1 < |s| ==> s[i + 1] >= y;
  }

  lemma HeadIsLeast(s: seq<int>)
    requires Increasing(s)
    ensures forall v :: v in s ==> s[0] <= v
  {
  }

  function Insert(s: seq<int>, x: int): (r: seq<int>)
    requires Increasing(s) && x !in s
    ensures Increasing(r)
    ensures forall v :: v in r <==> v == x || v in s
  {
    var i := Search(s, x);
    s[..i] + [x] + s[i..]
  }

  /** `sort.Ints`, on a list without repetitions. */
  function SortInts(s: seq<int>): (r: seq<int>)
    requires Distinct(s)
    ensures Increasing(r)
    ensures forall v :: v in r <==> v in s
  {
    if s == [] then [] else Insert(SortInts(s[1..]), s[0])
  }

  ghost predicate Distinct(s: seq<int>) {
    forall i, j :: 0 <= i < j < |s| ==> s[i] != s[j]
  }

  lemma SomeMember<T>(s: set<T>) returns (x: T)
    requires s != {}
    ensures x in s
  {
    x :| x in s;
  }

  /** `toList`: copy the keys of the set out in whatever order, then sort them. */
  method ToList(values: set<int>) returns (list: seq<int>)
    ensures Increasing(list)
    ensures forall x :: x in list <==> x in values
  {
    list := [];
    var rest := values;
    while rest != {}
      invariant rest <= values
      invariant forall x :: x in list <==> x in values && x !in rest
      invariant Distinct(list)
    {
      ghost var some := SomeMember(rest);
      var k :| k in rest;
      rest := rest - {k};
      list := list + [k];
    }
    list := SortInts(list);
  }
}
