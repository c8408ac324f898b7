/** Sorting by a strict total order, the one sorted list of a finite set, and the lexicographic order. */
module Orders {
  import opened Prelude

  type Order<!T> = (T, T) -> bool

  ghost predicate IsStrictTotal<T(!new)>(less: Order<T>) {
    && (forall x, y :: !(less(x, y) && less(y, x)))
    && (forall x, y :: less(x, y) || less(y, x) || x == y)
    && (forall x, y, z :: less(x, y) && less(y, z) ==> less(x, z))
  }

  ghost predicate StrictlySorted<T(!new)>(less: Order<T>, s: seq<T>) {
    forall i, j :: 0 <= i < j < |s| ==> less(s[i], s[j])
  }

  ghost predicate Sorted<T(!new)>(less: Order<T>, s: seq<T>) {
    forall i, j :: 0 <= i < j < |s| ==> s[i] == s[j] || less(s[i], s[j])
  }

  lemma ElementsOfMore<T>(s: seq<T>, x: T)
    ensures Elements(s + [x]) == Elements(s) + {x} && Elements([x] + s) == Elements(s) + {x}
  {
  }

  // ---------- Sorting by insertion ----------

  function Insert<T(==)>(less: Order<T>, x: T, s: seq<T>): seq<T> {
    if s == [] || x == s[0] || less(x, s[0]) then [x] + s else [s[0]] + Insert(less, x, s[1..])
  }

  lemma {:induction false} InsertKeeps<T(!new)>(less: Order<T>, x: T, s: seq<T>)
    requires IsStrictTotal(less) && Sorted(less, s)
    ensures Sorted(less, Insert(less, x, s)) && Elements(Insert(less, x, s)) == Elements(s) + {x}
  {
    if s == [] {
    } else if x == s[0] || less(x, s[0]) {
      ElementsOfMore(s, x);
    } else {
      var rest := Insert(less, x, s[1..]);
      InsertKeeps(less, x, s[1..]);
      assert s == [s[0]] + s[1..];
      ElementsOfMore(s[1..], s[0]);
      ElementsOfMore(rest, s[0]);
      forall j | 0 <= j < |rest|
        ensures s[0] == rest[j] || less(s[0], rest[j])
      {
        assert rest[j] in Elements(rest);
        assert rest[j] != x ==> rest[j] in s[1..];
      }
    }
  }

  lemma {:induction false} InsertKeepsStrict<T(!new)>(less: Order<T>, x: T, s: seq<T>)
    requires IsStrictTotal(less) && StrictlySorted(less, s) && x !in s
    ensures StrictlySorted(less, Insert(less, x, s))
  {
    if s == [] || less(x, s[0]) {
    } else {
      var rest := Insert(less, x, s[1..]);
      InsertKeepsStrict(less, x, s[1..]);
      InsertKeeps(less, x, s[1..]);
      forall j | 0 <= j < |rest|
        ensures less(s[0], rest[j])
      {
        assert rest[j] in Elements(rest);
        assert rest[j] != x ==> rest[j] in s[1..];
      }
    }
  }

  function Sort<T(==)>(less: Order<T>, s: seq<T>): seq<T> {
    if s == [] then [] else Insert(less, s[0], Sort(less, s[1..]))
  }

  lemma {:induction false} SortSorts<T(!new)>(less: Order<T>, s: seq<T>)
    requires IsStrictTotal(less)
    ensures Sorted(less, Sort(less, s)) && Elements(Sort(less, s)) == Elements(s)
    ensures Distinct(s) ==> StrictlySorted(less, Sort(less, s))
  {
    if s == [] {
    } else {
      SortSorts(less, s[1..]);
      InsertKeeps(less, s[0], Sort(less, s[1..]));
      assert s == [s[0]] + s[1..];
      assert Distinct(s) ==> s[0] !in s[1..] && s[0] !in Elements(s[1..]);
      if Distinct(s) {
        assert s[0] !in Elements(Sort(less, s[1..]));
        InsertKeepsStrict(less, s[0], Sort(less, s[1..]));
      }
      ElementsOfMore(s[1..], s[0]);
    }
  }

  // ---------- The sorted list of a set ----------

  /** The last element of a strictly sorted list is in no other place. */
  lemma LastApart<T(!new)>(less: Order<T>, s: seq<T>)
    requires IsStrictTotal(less) && StrictlySorted(less, s) && s != []
    ensures StrictlySorted(less, s[..|s| - 1])
    ensures Elements(s[..|s| - 1]) == Elements(s) - {s[|s| - 1]}
    ensures forall x :: x in Elements(s) && x != s[|s| - 1] ==> less(x, s[|s| - 1])
  {
    var front, last := s[..|s| - 1], s[|s| - 1];
    assert s == front + [last];
    ElementsOfMore(front, last);
    forall x | x in front
      ensures less(x, last)
    {
      var i :| 0 <= i < |front| && front[i] == x;
      assert less(s[i], s[|s| - 1]);
    }
  }

  /** A set has one strictly sorted list only. */
  lemma {:induction false} SortedUnique<T(!new)>(less: Order<T>, s: seq<T>, t: seq<T>)
    requires IsStrictTotal(less) && StrictlySorted(less, s) && StrictlySorted(less, t) && Elements(s) == Elements(t)
    ensures s == t
    decreases |s|
  {
    NoElements(s);
    NoElements(t);
    if s == [] {
    } else {
      LastApart(less, s);
      LastApart(less, t);
      var x, y := s[|s| - 1], t[|t| - 1];
      assert x in Elements(s) && y in Elements(t);
      SortedUnique(less, s[..|s| - 1], t[..|t| - 1]);
      assert s == s[..|s| - 1] + [x] && t == t[..|t| - 1] + [y];
    }
  }

  ghost predicate IsGreatest<T(!new)>(less: Order<T>, x: T, s: set<T>) {
    x in s && forall y :: y in s && y != x ==> less(y, x)
  }

  lemma {:induction false} Greatest<T(!new)>(less: Order<T>, s: set<T>) returns (x: T)
    requires IsStrictTotal(less) && s != {}
    ensures IsGreatest(less, x, s)
  {
    var z := SomeElement(s);
    x := z;
    if s != {z} {
      assert exists y :: y in s - {z} by {
        var y :| y in s && y != z;
        assert y in s - {z};
      }
      x := Greatest(less, s - {z});
      if less(x, z) {
        assert forall y :: y in s && y != z ==> y in s - {z};
        x := z;
      }
    }
  }

  lemma {:induction false} HasSortedList<T(!new)>(less: Order<T>, s: set<T>) returns (r: seq<T>)
    requires IsStrictTotal(less)
    ensures StrictlySorted(less, r) && Elements(r) == s
  {
    if s == {} {
      r := [];
    } else {
      var x := Greatest(less, s);
      var rest := HasSortedList(less, s - {x});
      r := rest + [x];
      ElementsOfMore(rest, x);
      assert forall i :: 0 <= i < |rest| ==> rest[i] in Elements(rest);
    }
  }

  /** The elements of a set in ascending order. */
  ghost function SortedElements<T(!new)>(less: Order<T>, s: set<T>): (r: seq<T>)
    requires IsStrictTotal(less)
    ensures StrictlySorted(less, r) && Elements(r) == s
  {
    assert exists r :: StrictlySorted(less, r) && Elements(r) == s by {
      var r := HasSortedList(less, s);
    }
    var r :| StrictlySorted(less, r) && Elements(r) == s;
    r
  }

  // ---------- Lexicographic order ----------

  predicate Less(a: seq<int>, b: seq<int>) {
    if b == [] then false
    else if a == [] then true
    else if a[0] != b[0] then a[0] < b[0]
    else Less(a[1..], b[1..])
  }

  lemma {:induction false} LessIsTotal(a: seq<int>, b: seq<int>)
    ensures Less(a, b) || Less(b, a) || a == b
    ensures !(Less(a, b) && Less(b, a)) && !Less(a, a)
  {
    if a != [] && b != [] {
      LessIsTotal(a[1..], b[1..]);
      assert a == [a[0]] + a[1..] && b == [b[0]] + b[1..];
    }
    if a == [] {
    } else {
      LessIsTotal(a[1..], a[1..]);
    }
  }

  lemma {:induction false} LessIsTransitive(a: seq<int>, b: seq<int>, c: seq<int>)
    requires Less(a, b) && Less(b, c)
    ensures Less(a, c)
  {
    if a != [] && a[0] == b[0] == c[0] {
      LessIsTransitive(a[1..], b[1..], c[1..]);
    }
  }

  /** The first place at which the lists differ, and `a` is smaller there. */
  ghost predicate ListSmallerAt(a: seq<int>, b: seq<int>, k: nat) {
    k < |a| && k < |b| && a[k] < b[k] && forall i :: 0 <= i < k ==> a[i] == b[i]
  }

  lemma {:induction false} LessAtPlace(a: seq<int>, b: seq<int>)
    requires |a| == |b|
    ensures Less(a, b) <==> exists k: nat :: ListSmallerAt(a, b, k)
  {
    if a == [] {
    } else {
      LessAtPlace(a[1..], b[1..]);
      if Less(a, b) {
        if a[0] == b[0] {
          var k: nat :| ListSmallerAt(a[1..], b[1..], k);
          forall i | 0 <= i < k + 1
            ensures a[i] == b[i]
          {
            assert i > 0 ==> a[i] == a[1..][i - 1] && b[i] == b[1..][i - 1];
          }
          assert ListSmallerAt(a, b, k + 1);
        } else {
          assert ListSmallerAt(a, b, 0);
        }
      }
      if k: nat :| ListSmallerAt(a, b, k) {
        if k > 0 {
          assert ListSmallerAt(a[1..], b[1..], k - 1);
        }
      }
    }
  }

  lemma {:induction false} SmallerAtPlace(a: seq<int>, b: seq<int>, k: nat)
    requires ListSmallerAt(a, b, k)
    ensures Less(a, b)
  {
    if k == 0 {
    } else {
      assert a[0] == b[0];
      SmallerAtPlace(a[1..], b[1..], k - 1);
    }
  }

  lemma LessIsStrictTotal()
    ensures IsStrictTotal(Less)
  {
    forall a: seq<int>, b: seq<int>
      ensures !(Less(a, b) && Less(b, a)) && (Less(a, b) || Less(b, a) || a == b)
    {
      LessIsTotal(a, b);
    }
    forall a: seq<int>, b: seq<int>, c: seq<int> | Less(a, b) && Less(b, c)
      ensures Less(a, c)
    {
      LessIsTransitive(a, b, c);
    }
  }
}
