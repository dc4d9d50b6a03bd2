/** The logging data map `M` and its sorted key list (logger.go:35-46).
    Go's sort.Strings orders strings byte-wise; on the characters modelled
    here that is the lexicographic order of code points, defined below. */
module Data {

  /** A data value (Go `interface{}`), represented by its `%v` rendering,
      which is all the text handlers use of it. */
  datatype Value = Value(shown: string)

  /** The data map type M. A nil map and an empty map are both `map[]`. */
  type M = map<string, Value>

  /** Lexicographic order on strings: a <= b. */
  predicate LessEq(a: string, b: string): (r: bool)
    ensures a <= b ==> r
    ensures r && a != [] ==> b != [] && a[0] <= b[0]
  {
    a == [] || (b != [] && (a[0] < b[0] || (a[0] == b[0] && LessEq(a[1..], b[1..]))))
  }

  lemma {:induction false} LessEqReflexive(a: string)
    ensures LessEq(a, a)
  {
    if a != [] { LessEqReflexive(a[1..]); }
  }

  lemma {:induction false} LessEqAntisymmetric(a: string, b: string)
    requires LessEq(a, b) && LessEq(b, a)
    ensures a == b
  {
    if a != [] && b != [] {
      LessEqAntisymmetric(a[1..], b[1..]);
      assert a == [a[0]] + a[1..] && b == [b[0]] + b[1..];
    }
  }

  lemma {:induction false} LessEqTransitive(a: string, b: string, c: string)
    requires LessEq(a, b) && LessEq(b, c)
    ensures LessEq(a, c)
  {
    if a != [] && b != [] && c != [] && a[0] == b[0] == c[0] {
      LessEqTransitive(a[1..], b[1..], c[1..]);
    }
  }

  lemma {:induction false} LessEqTotal(a: string, b: string)
    ensures LessEq(a, b) || LessEq(b, a)
  {
    if a != [] && b != [] && a[0] == b[0] {
      LessEqTotal(a[1..], b[1..]);
    }
  }

  /** Ascending order (sort.Strings' postcondition). */
  ghost predicate Sorted(s: seq<string>)
  {
    forall i, j :: 0 <= i < j < |s| ==> LessEq(s[i], s[j])
  }

  /** Strictly ascending order: sorted with no repeated element. */
  ghost predicate StrictlySorted(s: seq<string>)
  {
    forall i, j :: 0 <= i < j < |s| ==> LessEq(s[i], s[j]) && s[i] != s[j]
  }

  /** Two sorted sequences holding the same elements are equal: the sorted
      order of a collection is unique. */
  lemma {:induction false} SortedUnique(s: seq<string>, t: seq<string>)
    requires Sorted(s) && Sorted(t) && multiset(s) == multiset(t)
    ensures s == t
  {
    if s != [] {
      assert s[0] in multiset(t);
      HeadIsLeast(t, s[0]);
      HeadIsLeast(s, t[0]);
      LessEqAntisymmetric(s[0], t[0]);
      TailMultiset(s);
      TailMultiset(t);
      SortedUnique(s[1..], t[1..]);
    }
  }

  /** The head of a sorted sequence is below each of its elements. */
  lemma HeadIsLeast(s: seq<string>, x: string)
    requires Sorted(s) && x in multiset(s)
    ensures s != [] && LessEq(s[0], x)
  {
    var i :| 0 <= i < |s| && s[i] == x;
    if i == 0 {
      LessEqReflexive(x);
    }
  }

  /** Dropping the head removes one occurrence from the multiset. */
  lemma TailMultiset(s: seq<string>)
    requires s != []
    ensures multiset(s[1..]) == multiset(s) - multiset{s[0]}
  {
    assert s == [s[0]] + s[1..];
  }

  /** A non-empty finite set of strings has a least element. */
  lemma {:induction false} MinimumExists(ks: set<string>)
    requires ks != {}
    ensures exists k :: k in ks && forall x :: x in ks ==> LessEq(k, x)
    decreases ks
  {
    var y :| y in ks;
    var rest := ks - {y};
    if rest == {} {
      assert ks == {y};
      LessEqReflexive(y);
    } else {
      MinimumExists(rest);
      var k :| k in rest && forall x :: x in rest ==> LessEq(k, x);
      if LessEq(k, y) {
        assert forall x :: x in ks ==> LessEq(k, x);
      } else {
        LessEqTotal(k, y);
        LessEqReflexive(y);
        forall x | x in ks ensures LessEq(y, x) {
          if x != y { LessEqTransitive(y, k, x); }
        }
      }
    }
  }

  lemma RemoveOne(k: string, ks: set<string>)
    requires k in ks
    ensures multiset(ks) == multiset(ks - {k}) + multiset{k}
    ensures |ks - {k}| + 1 == |ks|
  {
    assert ks == (ks - {k}) + {k};
    forall x ensures multiset(ks)[x] == (multiset(ks - {k}) + multiset{k})[x] {
    }
  }

  /** Putting the least key in front of the sorted remaining keys sorts them all. */
  lemma PrependLeast(k: string, ks: set<string>, rest: seq<string>)
    requires k in ks && forall x :: x in ks ==> LessEq(k, x)
    requires forall x :: x in rest <==> x in ks && x != k
    requires StrictlySorted(rest)
    ensures StrictlySorted([k] + rest)
  {
    var r := [k] + rest;
    forall i, j | 0 <= i < j < |r| ensures LessEq(r[i], r[j]) && r[i] != r[j] {
      if i == 0 {
        assert r[j] == rest[j - 1];
      } else {
        assert r[i] == rest[i - 1] && r[j] == rest[j - 1];
      }
    }
  }

  /** The specification of M.Keys: every key exactly once, in ascending
      order, and nothing else. */
  ghost function SortedKeys(ks: set<string>): (r: seq<string>)
    ensures multiset(r) == multiset(ks)
    ensures StrictlySorted(r)
    ensures forall k :: k in r <==> k in ks
    ensures |r| == |ks|
    decreases ks
  {
    if ks == {} then []
    else
      MinimumExists(ks);
      var k :| k in ks && forall x :: x in ks ==> LessEq(k, x);
      var rest := SortedKeys(ks - {k});
      PrependLeast(k, ks, rest);
      RemoveOne(k, ks);
      assert multiset([k] + rest) == multiset{k} + multiset(rest);
      [k] + rest
  }

  /** The test case of logger_test.go: {"c","a","b"} yields ["a","b","c"]. */
  lemma SortedKeysExample()
    ensures SortedKeys({"c", "a", "b"}) == ["a", "b", "c"]
  {
    var r := ["a", "b", "c"];
    assert LessEq("a", "b") && LessEq("b", "c") && LessEq("a", "c");
    assert Sorted(r);
    assert multiset(r) == multiset({"c", "a", "b"});
    SortedUnique(SortedKeys({"c", "a", "b"}), r);
  }

  /** sort.Strings, modelled by an insertion sort by adjacent swaps: only
      the contract (the slice ends ascending and is a permutation of its old
      contents) stands for Go's sort, which is a pattern-defeating quicksort. */
  method SortStrings(a: array<string>)
    modifies a
    ensures Sorted(a[..])
    ensures multiset(a[..]) == multiset(old(a[..]))
  {
    var i := 0;
    while i < a.Length
      invariant 0 <= i <= a.Length
      invariant Sorted(a[..i])
      invariant multiset(a[..]) == multiset(old(a[..]))
    {
      InsertLast(a, i);
      i := i + 1;
    }
    assert a[..] == a[..a.Length];
  }

  /** One insertion step: a[i] moves left by adjacent swaps until the prefix
      a[..i + 1] is sorted. */
  method InsertLast(a: array<string>, i: nat)
    requires i < a.Length && Sorted(a[..i])
    modifies a
    ensures Sorted(a[..i + 1])
    ensures multiset(a[..]) == multiset(old(a[..]))
  {
    var j := i;
    StartInserting(a[..], i);
    while j > 0 && !LessEq(a[j - 1], a[j])
      invariant 0 <= j <= i
      invariant Inserting(a[..], i, j)
      invariant multiset(a[..]) == multiset(old(a[..]))
    {
      ghost var s := a[..];
      SwapKeepsInserting(s, i, j);
      a[j - 1], a[j] := a[j], a[j - 1];
      assert a[..] == s[j - 1 := s[j]][j := s[j - 1]];
      j := j - 1;
    }
    InsertingDone(a[..], i, j);
  }

  /** The state of an insertion step: the element in flight sits at j, and
      the first i + 1 elements without it are ascending, as are its two
      neighbours. */
  ghost predicate Inserting(s: seq<string>, i: nat, j: nat)
  {
    && j <= i < |s|
    && (forall p, q :: 0 <= p < q <= i && q != j ==> LessEq(s[p], s[q]))
    && (0 < j < i ==> LessEq(s[j - 1], s[j + 1]))
  }

  lemma StartInserting(s: seq<string>, i: nat)
    requires i < |s| && Sorted(s[..i])
    ensures Inserting(s, i, i)
  {
    forall p, q | 0 <= p < q < i ensures LessEq(s[p], s[q]) {
      assert s[p] == s[..i][p] && s[q] == s[..i][q];
    }
  }

  /** Swapping the element in flight with a larger left neighbour keeps the
      insertion state, one position further left, and the multiset. */
  lemma SwapKeepsInserting(s: seq<string>, i: nat, j: nat)
    requires Inserting(s, i, j) && 0 < j && !LessEq(s[j - 1], s[j])
    ensures Inserting(s[j - 1 := s[j]][j := s[j - 1]], i, j - 1)
    ensures multiset(s[j - 1 := s[j]][j := s[j - 1]]) == multiset(s)
  {
    LessEqTotal(s[j - 1], s[j]);
  }

  /** The insertion stops at the front or below a neighbour, sorted. */
  lemma InsertingDone(s: seq<string>, i: nat, j: nat)
    requires Inserting(s, i, j) && (j == 0 || LessEq(s[j - 1], s[j]))
    ensures Sorted(s[..i + 1])
  {
    forall p, q | 0 <= p < q <= i ensures LessEq(s[p], s[q]) {
      if q == j && p < j - 1 {
        LessEqTransitive(s[p], s[j - 1], s[j]);
      }
    }
  }

  /** M.Keys: collects the keys in map iteration order (an arbitrary order,
      here an arbitrary choice at each step), then sorts them. The result is
      the sorted key list, whatever the iteration order was. */
  method Keys(m: M) returns (names: seq<string>)
    ensures names == SortedKeys(m.Keys)
    ensures StrictlySorted(names)
    ensures forall k :: k in names <==> k in m
    ensures |names| == |m|
  {
    names := [];
    var rest := m.Keys;
    while rest != {}
      invariant rest <= m.Keys
      invariant multiset(names) + multiset(rest) == multiset(m.Keys)
      decreases rest
    {
      var k :| k in rest;
      names := names + [k];
      rest := rest - {k};
    }
    var a := new string[|names|](i requires 0 <= i < |names| => names[i]);
    assert a[..] == names;
    SortStrings(a);
    names := a[..];
    SortedUnique(names, SortedKeys(m.Keys));
  }
}
