/** The two list operations the plugin applies to a block-list:
    `list(set(xs))` after an add, and the comprehension
    `[x for x in xs if x not in ids]` for a delete. */
module IdLists {

  predicate NoDup(s: seq<string>) {
    forall i, j :: 0 <= i < j < |s| ==> s[i] != s[j]
  }

  function Elems(s: seq<string>): (e: set<string>) {
    set x | x in s
  }

  /** r keeps some of the elements of s, in their original order. */
  predicate IsSubsequence(r: seq<string>, s: seq<string>)
    decreases |s|
  {
    r == [] || (s != [] && ((r[0] == s[0] && IsSubsequence(r[1..], s[1..])) || IsSubsequence(r, s[1..])))
  }

  /** `list(set(s))`: every element of s exactly once. Python leaves the order
      unspecified; this one keeps last occurrences, and no contract relies on it. */
  function Distinct(s: seq<string>): (r: seq<string>)
    ensures NoDup(r)
    ensures Elems(r) == Elems(s)
    ensures |r| <= |s|
  {
    if s == [] then []
    else
      var rest := Distinct(s[1..]);
      assert s == [s[0]] + s[1..];
      assert Elems(s) == {s[0]} + Elems(s[1..]);
      if s[0] in s[1..] then rest
      else
        assert s[0] !in Elems(rest);
        [s[0]] + rest
  }

  /** `[x for x in s if x not in ids]`: every occurrence of a supplied id is
      dropped, every other occurrence kept, in order. */
  function Without(s: seq<string>, ids: seq<string>): (r: seq<string>)
    ensures forall x :: x in r <==> x in s && x !in ids
    ensures forall x :: multiset(r)[x] == if x in ids then 0 else multiset(s)[x]
    ensures IsSubsequence(r, s)
  {
    if s == [] then []
    else
      var rest := Without(s[1..], ids);
      assert s == [s[0]] + s[1..];
      if s[0] in ids then rest else [s[0]] + rest
  }

  lemma {:induction false} NoDupCardinality(s: seq<string>)
    requires NoDup(s)
    ensures |Elems(s)| == |s|
  {
    if s != [] {
      NoDupCardinality(s[1..]);
      assert Elems(s) == {s[0]} + Elems(s[1..]);
      assert s[0] !in Elems(s[1..]);
    }
  }

  /** Adding ids that are all present already changes neither the elements nor
      the length of a duplicate-free list. */
  lemma AddPresent(a: seq<string>, ids: seq<string>)
    requires NoDup(a) && Elems(ids) <= Elems(a)
    ensures Elems(Distinct(a + ids)) == Elems(a)
    ensures |Distinct(a + ids)| == |a|
  {
    var r := Distinct(a + ids);
    assert Elems(a + ids) == Elems(a) + Elems(ids);
    NoDupCardinality(a);
    NoDupCardinality(r);
  }

  /** Applying the same add twice gives the same set as applying it once. */
  lemma AddIdempotent(a: seq<string>, ids: seq<string>)
    ensures Elems(Distinct(Distinct(a + ids) + ids)) == Elems(Distinct(a + ids))
    ensures |Distinct(Distinct(a + ids) + ids)| == |Distinct(a + ids)|
  {
    var once := Distinct(a + ids);
    assert Elems(a + ids) == Elems(a) + Elems(ids);
    AddPresent(once, ids);
  }

  lemma {:induction false} WithoutIdempotent(s: seq<string>, ids: seq<string>)
    ensures Without(Without(s, ids), ids) == Without(s, ids)
  {
    if s != [] {
      WithoutIdempotent(s[1..], ids);
      if s[0] !in ids {
        var r := Without(s, ids);
        assert r[0] == s[0] && r[1..] == Without(s[1..], ids);
      }
    }
  }

  /** Ids that are not on the list are ignored. */
  lemma {:induction false} WithoutAbsent(s: seq<string>, ids: seq<string>)
    requires forall x :: x in ids ==> x !in s
    ensures Without(s, ids) == s
  {
    if s != [] {
      assert s[0] in s;
      WithoutAbsent(s[1..], ids);
    }
  }

  /** A delete never introduces duplicates into a list that had none. */
  lemma {:induction false} WithoutKeepsNoDup(s: seq<string>, ids: seq<string>)
    requires NoDup(s)
    ensures NoDup(Without(s, ids))
  {
    if s != [] {
      WithoutKeepsNoDup(s[1..], ids);
      assert s[0] !in s[1..];
    }
  }
}
