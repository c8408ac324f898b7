/** Fingerprints with their hash functions taken as free constructors: two fingerprints are equal only
    if they were built the same way. Small integers are their own fingerprint, modulo 2^64. */
module Fingerprints {

  datatype Fp = Raw(bits: nat) | Text(text: string) | Cat(left: Fp, right: Fp)

  const TWO_TO_64 := 0x1_0000_0000_0000_0000

  function OfInt(n: int): Fp {
    Raw(n % TWO_TO_64)
  }

  /** Appends the fingerprints one after the other, from the left. */
  function Fold(start: Fp, fps: seq<Fp>): Fp {
    if fps == [] then start else Cat(Fold(start, fps[..|fps| - 1]), fps[|fps| - 1])
  }

  /** A span is seeded with its length. */
  function OfSpan(fps: seq<Fp>): Fp {
    Fold(OfInt(|fps|), fps)
  }

  method FingerprintSpan(fps: seq<Fp>) returns (fp: Fp)
    ensures fp == OfSpan(fps)
  {
    fp := OfInt(|fps|);
    for i := 0 to |fps|
      invariant fp == Fold(OfInt(|fps|), fps[..i])
    {
      assert fps[..i + 1][..i] == fps[..i];
      fp := Cat(fp, fps[i]);
    }
    assert fps[..|fps|] == fps;
  }

  /** The left-associative concatenation of at least one fingerprint. */
  function FingerprintCat(fps: seq<Fp>): Fp
    requires fps != []
  {
    Fold(fps[0], fps[1..])
  }

  /** Spans of a leaf seed can be taken apart again: seed, length and every element. */
  lemma {:induction false} FoldInjective(a: Fp, s: seq<Fp>, b: Fp, t: seq<Fp>)
    requires !a.Cat? && !b.Cat? && Fold(a, s) == Fold(b, t)
    ensures a == b && s == t
    decreases |s|
  {
    if s == [] || t == [] {
    } else {
      FoldInjective(a, s[..|s| - 1], b, t[..|t| - 1]);
      assert s == s[..|s| - 1] + [s[|s| - 1]] && t == t[..|t| - 1] + [t[|t| - 1]];
    }
  }

  lemma {:induction false} FoldSameLength(a: Fp, s: seq<Fp>, b: Fp, t: seq<Fp>)
    requires |s| == |t|
    ensures Fold(a, s) == Fold(b, t) <==> a == b && s == t
  {
    if s == [] {
    } else {
      FoldSameLength(a, s[..|s| - 1], b, t[..|t| - 1]);
      assert s == s[..|s| - 1] + [s[|s| - 1]] && t == t[..|t| - 1] + [t[|t| - 1]];
    }
  }

  lemma OfSpanInjective(s: seq<Fp>, t: seq<Fp>)
    ensures OfSpan(s) == OfSpan(t) <==> s == t
  {
    if OfSpan(s) == OfSpan(t) {
      FoldInjective(OfInt(|s|), s, OfInt(|t|), t);
    }
  }

  /** Concatenations of equally many parts are equal exactly when all the parts are. */
  lemma FingerprintCatInjective(s: seq<Fp>, t: seq<Fp>)
    requires s != [] && |s| == |t|
    ensures FingerprintCat(s) == FingerprintCat(t) <==> s == t
  {
    FoldSameLength(s[0], s[1..], t[0], t[1..]);
    assert s == [s[0]] + s[1..] && t == [t[0]] + t[1..];
  }

  // ---------- Spans of integers, strings and pairs ----------

  ghost predicate InInt64(n: int) {
    -0x8000_0000_0000_0000 <= n < 0x8000_0000_0000_0000
  }

  ghost predicate AllInt64(s: seq<int>) {
    forall i :: 0 <= i < |s| ==> InInt64(s[i])
  }

  function OfInts(s: seq<int>): Fp {
    OfSpan(seq(|s|, i requires 0 <= i < |s| => OfInt(s[i])))
  }

  function OfTexts(s: seq<string>): Fp {
    OfSpan(seq(|s|, i requires 0 <= i < |s| => Text(s[i])))
  }

  function OfPairs(s: seq<(string, Fp)>): Fp {
    OfSpan(seq(|s|, i requires 0 <= i < |s| => Cat(Text(s[i].0), s[i].1)))
  }

  lemma OfIntsInjective(s: seq<int>, t: seq<int>)
    requires AllInt64(s) && AllInt64(t)
    ensures OfInts(s) == OfInts(t) <==> s == t
  {
    if OfInts(s) == OfInts(t) {
      var u, v := seq(|s|, i requires 0 <= i < |s| => OfInt(s[i])), seq(|t|, i requires 0 <= i < |t| => OfInt(t[i]));
      OfSpanInjective(u, v);
      forall i | 0 <= i < |s|
        ensures s[i] == t[i]
      {
        assert u[i] == v[i];
      }
    }
  }

  lemma OfTextsInjective(s: seq<string>, t: seq<string>)
    ensures OfTexts(s) == OfTexts(t) <==> s == t
  {
    if OfTexts(s) == OfTexts(t) {
      var u, v := seq(|s|, i requires 0 <= i < |s| => Text(s[i])), seq(|t|, i requires 0 <= i < |t| => Text(t[i]));
      OfSpanInjective(u, v);
      forall i | 0 <= i < |s|
        ensures s[i] == t[i]
      {
        assert u[i] == v[i];
      }
    }
  }

  lemma OfPairsInjective(s: seq<(string, Fp)>, t: seq<(string, Fp)>)
    ensures OfPairs(s) == OfPairs(t) <==> s == t
  {
    if OfPairs(s) == OfPairs(t) {
      var u := seq(|s|, i requires 0 <= i < |s| => Cat(Text(s[i].0), s[i].1));
      var v := seq(|t|, i requires 0 <= i < |t| => Cat(Text(t[i].0), t[i].1));
      OfSpanInjective(u, v);
      forall i | 0 <= i < |s|
        ensures s[i] == t[i]
      {
        assert u[i] == v[i];
      }
    }
  }

  // ---------- Dimension keys ----------

  /** The key of concrete tensor dimensions; the trailing `false` is historical. */
  function DimensionsKey(dims: seq<int>): Fp {
    FingerprintCat([OfInts(dims), OfInt(0)])
  }

  /** The key of dimension bounds. */
  function BoundsKey(uppers: seq<int>, lowers: seq<int>): Fp {
    FingerprintCat([OfInts(uppers), OfInts(lowers)])
  }

  lemma DimensionsKeyInjective(s: seq<int>, t: seq<int>)
    requires AllInt64(s) && AllInt64(t)
    ensures DimensionsKey(s) == DimensionsKey(t) <==> s == t
  {
    FingerprintCatInjective([OfInts(s), OfInt(0)], [OfInts(t), OfInt(0)]);
    OfIntsInjective(s, t);
  }

  lemma BoundsKeyInjective(uppers: seq<int>, lowers: seq<int>, uppers': seq<int>, lowers': seq<int>)
    requires AllInt64(uppers) && AllInt64(lowers) && AllInt64(uppers') && AllInt64(lowers')
    ensures BoundsKey(uppers, lowers) == BoundsKey(uppers', lowers') <==> uppers == uppers' && lowers == lowers'
  {
    FingerprintCatInjective([OfInts(uppers), OfInts(lowers)], [OfInts(uppers'), OfInts(lowers')]);
    OfIntsInjective(uppers, uppers');
    OfIntsInjective(lowers, lowers');
  }

  /** A key of dimensions is never a key of bounds, unless there are no bounds at all: an empty span
      has the fingerprint of the number 0. */
  lemma DimensionsMeetBounds(dims: seq<int>, uppers: seq<int>, lowers: seq<int>)
    requires AllInt64(dims) && AllInt64(uppers) && |lowers| == |uppers|
    ensures DimensionsKey(dims) == BoundsKey(uppers, lowers) <==> dims == uppers == []
  {
    FingerprintCatInjective([OfInts(dims), OfInt(0)], [OfInts(uppers), OfInts(lowers)]);
    OfIntsInjective(dims, uppers);
    if lowers == [] {
      assert OfInts(lowers) == OfInt(0);
    }
  }

  /** What identifies one compilation: the graph but for its sizes, its sizes or bounds, the options. */
  datatype CacheKey = CacheKey(shapeless: Fp, dimensions: Fp, options: Fp)
}
