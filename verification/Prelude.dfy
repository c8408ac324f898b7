/** Optional values, results with an error, and the running sums and row-wise concatenations that
    several components share. */
module Prelude {

  datatype Option<+T> = None | Some(value: T)

  datatype Result<+T, +E> = Ok(value: T) | Err(error: E)

  lemma SomeElement<T>(s: set<T>) returns (x: T)
    requires s != {}
    ensures x in s
  {
    x :| x in s;
  }

  function Elements<T(==)>(s: seq<T>): set<T> {
    set x | x in s
  }

  lemma NoElements<T>(s: seq<T>)
    ensures Elements(s) == {} <==> s == []
  {
    if s != [] {
      assert s[0] in Elements(s);
    }
  }

  lemma SameElements<T>(s: seq<T>, t: seq<T>)
    requires (forall x :: x in s ==> x in t) && (forall x :: x in t ==> x in s)
    ensures Elements(s) == Elements(t)
  {
  }

  ghost predicate Distinct<T>(s: seq<T>) {
    forall i, j :: 0 <= i < j < |s| ==> s[i] != s[j]
  }

  /** The sum of the first `n` elements of `s`. */
  function Prefix(s: seq<int>, n: nat): int
    requires n <= |s|
  {
    if n == 0 then 0 else Prefix(s, n - 1) + s[n - 1]
  }

  function Total(s: seq<int>): int {
    Prefix(s, |s|)
  }

  ghost predicate NonNegative(s: seq<int>) {
    forall i :: 0 <= i < |s| ==> 0 <= s[i]
  }

  lemma {:induction false} PrefixMonotone(s: seq<int>, a: nat, b: nat)
    requires a <= b <= |s| && NonNegative(s)
    ensures 0 <= Prefix(s, a) <= Prefix(s, b)
  {
    if a < b {
      PrefixMonotone(s, a, b - 1);
    } else if a > 0 {
      PrefixMonotone(s, a - 1, b - 1);
    }
  }

  lemma {:induction false} PrefixAgrees(s: seq<int>, t: seq<int>, n: nat)
    requires n <= |s| && n <= |t| && s[..n] == t[..n]
    ensures Prefix(s, n) == Prefix(t, n)
  {
    if n == 0 {
    } else {
      assert s[..n - 1] == s[..n][..n - 1] && t[..n - 1] == t[..n][..n - 1];
      assert s[n - 1] == s[..n][n - 1] && t[n - 1] == t[..n][n - 1];
      PrefixAgrees(s, t, n - 1);
    }
  }

  /** The first `n` blocks, joined in order. */
  function Join<T>(blocks: seq<seq<T>>, n: nat): seq<T>
    requires n <= |blocks|
  {
    if n == 0 then [] else Join(blocks, n - 1) + blocks[n - 1]
  }

  /** All blocks joined in order: concatenation along dimension 0. */
  function Concat<T>(blocks: seq<seq<T>>): seq<T> {
    Join(blocks, |blocks|)
  }

  function Lengths<T>(blocks: seq<seq<T>>): (r: seq<int>)
    ensures NonNegative(r)
  {
    seq(|blocks|, i requires 0 <= i < |blocks| => |blocks[i]|)
  }

  lemma {:induction false} JoinLength<T>(blocks: seq<seq<T>>, n: nat)
    requires n <= |blocks|
    ensures |Join(blocks, n)| == Prefix(Lengths(blocks), n)
  {
    if n == 0 {
    } else {
      JoinLength(blocks, n - 1);
    }
  }

  lemma {:induction false} JoinIsPrefix<T>(blocks: seq<seq<T>>, a: nat, b: nat)
    requires a <= b <= |blocks|
    ensures Join(blocks, a) <= Join(blocks, b)
  {
    if a == b {
    } else {
      JoinIsPrefix(blocks, a, b - 1);
    }
  }

  lemma {:induction false} JoinOfMore<T>(rows: seq<seq<T>>, row: seq<T>, n: nat)
    requires n <= |rows|
    ensures Join(rows + [row], n) == Join(rows, n)
  {
    if n == 0 {
    } else {
      JoinOfMore(rows, row, n - 1);
    }
  }

  lemma ConcatOfMore<T>(rows: seq<seq<T>>, row: seq<T>)
    ensures Concat(rows + [row]) == Concat(rows) + row
  {
    JoinOfMore(rows, row, |rows|);
  }

  /** Cutting a concatenation at the running sums of the block lengths gives the blocks back. */
  lemma {:induction false} ConcatSlice<T>(blocks: seq<seq<T>>, i: nat)
    requires i < |blocks|
    ensures IsCut(Concat(blocks), Lengths(blocks), i, blocks[i])
  {
    JoinLength(blocks, i);
    JoinLength(blocks, i + 1);
    JoinLength(blocks, |blocks|);
    JoinIsPrefix(blocks, i, i + 1);
    JoinIsPrefix(blocks, i + 1, |blocks|);
    var cut := Prefix(Lengths(blocks), i + 1);
    assert Concat(blocks)[..cut] == Join(blocks, i + 1) == Join(blocks, i) + blocks[i];
    assert Concat(blocks)[|Join(blocks, i)|..cut] == Concat(blocks)[..cut][|Join(blocks, i)|..];
  }

  /** `piece` is what lies between the running sums before and after size `i`. */
  ghost predicate IsCut<T>(whole: seq<T>, sizes: seq<int>, i: nat, piece: seq<T>)
    requires i < |sizes|
  {
    && 0 <= Prefix(sizes, i) <= Prefix(sizes, i + 1) <= |whole|
    && piece == whole[Prefix(sizes, i)..Prefix(sizes, i + 1)]
  }

  /** Joining the consecutive pieces of a sequence gives the sequence back. */
  lemma {:induction false} JoinOfCuts<T>(whole: seq<T>, sizes: seq<int>, pieces: seq<seq<T>>, n: nat)
    requires n <= |sizes| == |pieces|
    requires forall i :: 0 <= i < |sizes| ==> IsCut(whole, sizes, i, pieces[i])
    ensures 0 <= Prefix(sizes, n) <= |whole|
    ensures Join(pieces, n) == whole[..Prefix(sizes, n)]
  {
    if n == 0 {
    } else {
      var a := Prefix(sizes, n - 1);
      JoinOfCuts(whole, sizes, pieces, n - 1);
      assert IsCut(whole, sizes, n - 1, pieces[n - 1]);
      assert whole[..a] + whole[a..Prefix(sizes, n)] == whole[..Prefix(sizes, n)];
    }
  }
}
