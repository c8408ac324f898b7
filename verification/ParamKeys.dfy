/** Cache keys of op parameters: how a parameter of any supported type becomes a fingerprint, and what
    the map of a set of named parameters still says about their values. */
module ParamKeys {
  import opened Prelude
  import opened Fingerprints

  /** Parameter types. Integers are of a type of at most 64 bits; `TPresence` stands for optional
      tensors and generators, of which only the presence is encoded, as `tag`. */
  datatype Type =
    | TInt(low: int, high: int)
    | TBool
    | TDouble
    | TText
    | TScalar
    | TPresence(tag: string)
    | TOptional(inner: Type)
    | TPair(first: Type, second: Type)
    | TRange(inner: Type)

  /** A dynamically typed number; doubles are 64-bit patterns. */
  datatype Scalar = Floating(bits: nat) | Integral(n: int) | Boolean(b: bool) | Complex(re: nat, im: nat)

  datatype Value =
    | VInt(n: int)
    | VBool(b: bool)
    | VDouble(bits: nat)
    | VText(text: string)
    | VScalar(scalar: Scalar)
    | VPresence(tag: string, present: bool)
    | VNone
    | VSome(value: Value)
    | VPair(first: Value, second: Value)
    | VRange(elements: seq<Value>)

  const NEGATIVE_ZERO := 0x8000_0000_0000_0000

  ghost predicate IsDouble(bits: nat) {
    bits < TWO_TO_64
  }

  ghost predicate IsScalar(s: Scalar) {
    match s
    case Floating(bits) => IsDouble(bits)
    case Integral(n) => InInt64(n)
    case Boolean(_) => true
    case Complex(re, im) => IsDouble(re) && IsDouble(im)
  }

  ghost predicate HasType(v: Value, t: Type)
    decreases v
  {
    match (v, t)
    case (VInt(n), TInt(low, high)) => high - low <= TWO_TO_64 && low <= n < high
    case (VBool(_), TBool) => true
    case (VDouble(bits), TDouble) => IsDouble(bits)
    case (VText(_), TText) => true
    case (VScalar(s), TScalar) => IsScalar(s)
    case (VPresence(tag, _), TPresence(tag')) => tag == tag' && tag != ""
    case (VNone, TOptional(_)) => true
    case (VSome(w), TOptional(inner)) => HasType(w, inner)
    case (VPair(a, b), TPair(ta, tb)) => HasType(a, ta) && HasType(b, tb)
    case (VRange(elements), TRange(inner)) => forall e | e in elements :: HasType(e, inner)
    case _ => false
  }

  /** -0.0 and 0.0 share the pattern of 0.0; all other patterns stand for themselves. */
  function NormalDouble(bits: nat): nat {
    if bits == NEGATIVE_ZERO then 0 else bits
  }

  function EncodeDouble(bits: nat): Fp {
    Raw(NormalDouble(bits))
  }

  function EncodeBool(b: bool): Fp {
    OfInt(if b then 1 else 0)
  }

  function EncodeScalar(s: Scalar): Fp {
    match s
    case Floating(bits) => Cat(Text("Double"), EncodeDouble(bits))
    case Integral(n) => Cat(Text("Long"), OfInt(n))
    case Boolean(b) => Cat(Text("Bool"), EncodeBool(b))
    case Complex(re, im) => Cat(Text("ComplexDouble"), Cat(EncodeDouble(re), EncodeDouble(im)))
  }

  function Encode(v: Value): Fp
    decreases v, 0
  {
    match v
    case VInt(n) => OfInt(n)
    case VBool(b) => EncodeBool(b)
    case VDouble(bits) => EncodeDouble(bits)
    case VText(text) => Text(text)
    case VScalar(s) => EncodeScalar(s)
    case VPresence(tag, present) => Text(if present then tag else "")
    case VNone => Text("")
    case VSome(w) => Cat(Text("+"), Encode(w))
    case VPair(a, b) => Cat(Encode(a), Encode(b))
    case VRange(elements) => EncodeElements(elements, |elements|)
  }

  /** The first `n` elements of a range, seeded with the fingerprint of the empty string. */
  function EncodeElements(elements: seq<Value>, n: nat): Fp
    requires n <= |elements|
    decreases elements, n
  {
    if n == 0 then Text("") else Cat(EncodeElements(elements, n - 1), Encode(elements[n - 1]))
  }

  method EncodeParamCacheKeyForRange(elements: seq<Value>) returns (result: Fp)
    ensures result == Encode(VRange(elements))
  {
    result := Text("");
    for i := 0 to |elements|
      invariant result == EncodeElements(elements, i)
    {
      result := Cat(result, Encode(elements[i]));
    }
  }

  /** The value with every -0.0 in it replaced by 0.0. */
  function Normal(v: Value): Value
    decreases v
  {
    match v
    case VDouble(bits) => VDouble(NormalDouble(bits))
    case VScalar(Floating(bits)) => VScalar(Floating(NormalDouble(bits)))
    case VScalar(Complex(re, im)) => VScalar(Complex(NormalDouble(re), NormalDouble(im)))
    case VSome(w) => VSome(Normal(w))
    case VPair(a, b) => VPair(Normal(a), Normal(b))
    case VRange(elements) =>
      VRange(seq(|elements|, i requires 0 <= i < |elements| => Normal(elements[i])))
    case _ => v
  }

  lemma ScalarsDiffer(s: Scalar, t: Scalar)
    requires IsScalar(s) && IsScalar(t) && EncodeScalar(s) == EncodeScalar(t)
    ensures Normal(VScalar(s)) == Normal(VScalar(t))
  {
    assert "Double" != "Long" && "Double" != "Bool" && "Long" != "Bool" by {
      assert |"Double"| == 6 && |"Long"| == 4 && "Long"[0] != "Bool"[0];
    }
    assert |"ComplexDouble"| == 13;
  }

  lemma {:induction false} ElementsAgree(s: seq<Value>, t: seq<Value>, n: nat)
    requires n <= |s| && n <= |t|
    requires forall i :: 0 <= i < n ==> Encode(s[i]) == Encode(t[i])
    ensures EncodeElements(s, n) == EncodeElements(t, n)
  {
    if n == 0 {
    } else {
      ElementsAgree(s, t, n - 1);
    }
  }

  /** Equal encodings of one type come from equal values, but for the sign of a zero. */
  lemma {:induction false} EncodeInjective(v: Value, w: Value, t: Type)
    requires HasType(v, t) && HasType(w, t) && Encode(v) == Encode(w)
    ensures Normal(v) == Normal(w)
    decreases v, 0
  {
    match v
    case VInt(n) =>
      assert w.VInt? && n % TWO_TO_64 == w.n % TWO_TO_64;
      SameResidue(n, w.n);
    case VScalar(s) =>
      ScalarsDiffer(s, w.scalar);
    case VSome(x) =>
      if w.VSome? {
        EncodeInjective(x, w.value, t.inner);
      }
    case VPair(a, b) =>
      EncodeInjective(a, w.first, t.first);
      EncodeInjective(b, w.second, t.second);
    case VRange(elements) =>
      ElementsInjective(elements, |elements|, w.elements, |w.elements|, t.inner);
    case _ =>
  }

  lemma SameResidue(a: int, b: int)
    requires a % TWO_TO_64 == b % TWO_TO_64 && -TWO_TO_64 < a - b < TWO_TO_64
    ensures a == b
  {
  }

  lemma {:induction false} ElementsInjective(s: seq<Value>, m: nat, t: seq<Value>, n: nat, inner: Type)
    requires m <= |s| && n <= |t| && EncodeElements(s, m) == EncodeElements(t, n)
    requires forall e | e in s :: HasType(e, inner)
    requires forall e | e in t :: HasType(e, inner)
    ensures m == n && forall i :: 0 <= i < m ==> Normal(s[i]) == Normal(t[i])
    decreases s, m
  {
    if m == 0 || n == 0 {
    } else {
      EncodeInjective(s[m - 1], t[n - 1], inner);
      ElementsInjective(s, m - 1, t, n - 1, inner);
    }
  }

  /** The encoding sees nothing of a value but its normal form. */
  lemma {:induction false} EncodeNormal(v: Value)
    ensures Encode(v) == Encode(Normal(v))
    decreases v
  {
    match v
    case VSome(w) => EncodeNormal(w);
    case VPair(a, b) =>
      EncodeNormal(a);
      EncodeNormal(b);
    case VRange(elements) =>
      forall i | 0 <= i < |elements|
        ensures Encode(elements[i]) == Encode(Normal(elements[i]))
      {
        EncodeNormal(elements[i]);
      }
      ElementsAgree(elements, Normal(v).elements, |elements|);
    case _ =>
  }

  /** For values of one type, equal encoding and equal value, up to the sign of zeros, are the same. */
  lemma EncodeIffSame(v: Value, w: Value, t: Type)
    requires HasType(v, t) && HasType(w, t)
    ensures Encode(v) == Encode(w) <==> Normal(v) == Normal(w)
  {
    if Encode(v) == Encode(w) {
      EncodeInjective(v, w, t);
    }
    EncodeNormal(v);
    EncodeNormal(w);
  }

  // ---------- What the sign of zeros hides ----------

  /** The same double, or both a zero. */
  ghost predicate SameDouble(a: nat, b: nat) {
    a == b || (a in {0, 9223372036854775808} && b in {0, 9223372036854775808})
  }

  ghost predicate SameScalar(s: Scalar, t: Scalar) {
    match (s, t)
    case (Floating(a), Floating(b)) => SameDouble(a, b)
    case (Complex(a, b), Complex(c, d)) => SameDouble(a, c) && SameDouble(b, d)
    case _ => s == t
  }

  /** Equal but for doubles that are zeros of different signs. */
  ghost predicate Alike(v: Value, w: Value)
    decreases v
  {
    match (v, w)
    case (VDouble(a), VDouble(b)) => SameDouble(a, b)
    case (VScalar(s), VScalar(t)) => SameScalar(s, t)
    case (VSome(a), VSome(b)) => Alike(a, b)
    case (VPair(a, b), VPair(c, d)) => Alike(a, c) && Alike(b, d)
    case (VRange(s), VRange(t)) => |s| == |t| && forall i :: 0 <= i < |s| ==> Alike(s[i], t[i])
    case _ => v == w
  }

  lemma {:induction false} NormalIffAlike(v: Value, w: Value)
    ensures Normal(v) == Normal(w) <==> Alike(v, w)
    decreases v
  {
    match (v, w)
    case (VSome(a), VSome(b)) => NormalIffAlike(a, b);
    case (VPair(a, b), VPair(c, d)) =>
      NormalIffAlike(a, c);
      NormalIffAlike(b, d);
    case (VRange(s), VRange(t)) =>
      forall i | 0 <= i < |s| && i < |t|
        ensures Normal(s[i]) == Normal(t[i]) <==> Alike(s[i], t[i])
      {
        NormalIffAlike(s[i], t[i]);
      }
      RangesAlike(s, t);
    case _ =>
  }

  lemma RangesAlike(s: seq<Value>, t: seq<Value>)
    requires forall i :: 0 <= i < |s| && i < |t| ==> (Normal(s[i]) == Normal(t[i]) <==> Alike(s[i], t[i]))
    ensures Normal(VRange(s)) == Normal(VRange(t)) <==> Alike(VRange(s), VRange(t))
  {
    var a, b := Normal(VRange(s)).elements, Normal(VRange(t)).elements;
    assert |a| == |s| && |b| == |t|;
    assert forall i :: 0 <= i < |s| ==> a[i] == Normal(s[i]);
    assert forall i :: 0 <= i < |t| ==> b[i] == Normal(t[i]);
    if a == b {
      assert forall i :: 0 <= i < |s| ==> a[i] == b[i];
    }
    if Alike(VRange(s), VRange(t)) {
      assert a == b;
    }
  }

  /** For values of one type: equal encodings are equal values, but for zeros of different signs. */
  lemma EncodeIffAlike(v: Value, w: Value, t: Type)
    requires HasType(v, t) && HasType(w, t)
    ensures Encode(v) == Encode(w) <==> Alike(v, w)
  {
    EncodeIffSame(v, w, t);
    NormalIffAlike(v, w);
  }

  // ---------- Named parameters ----------

  class OpParamCacheKeys {
    var nameToValue: map<string, Fp>

    constructor Empty()
      ensures nameToValue == map[]
    {
      nameToValue := map[];
    }

    /** Adds a parameter, unless its encoding is that of the empty string. */
    method SetParam(name: string, value: Value)
      requires name !in nameToValue
      modifies this
      ensures nameToValue == WithParam(old(nameToValue), name, value)
    {
      var fp := Encode(value);
      if fp != Text("") {
        nameToValue := nameToValue[name := fp];
      }
    }
  }

  function WithParam(keys: map<string, Fp>, name: string, value: Value): map<string, Fp> {
    if Encode(value) == Text("") then keys else keys[name := Encode(value)]
  }

  /** The parameters set in the given order of names. */
  function SetAll(order: seq<string>, values: map<string, Value>): map<string, Fp>
    requires forall name | name in order :: name in values
  {
    if order == [] then map[]
    else WithParam(SetAll(order[..|order| - 1], values), order[|order| - 1], values[order[|order| - 1]])
  }

  ghost predicate Enumerates(order: seq<string>, names: set<string>) {
    && (forall name :: name in order <==> name in names)
    && (forall i, j :: 0 <= i < j < |order| ==> order[i] != order[j])
  }

  lemma {:induction false} SetAllKeeps(order: seq<string>, values: map<string, Value>, name: string)
    requires forall n | n in order :: n in values
    ensures name in SetAll(order, values) <==> name in order && Encode(values[name]) != Text("")
    ensures name in SetAll(order, values) ==> SetAll(order, values)[name] == Encode(values[name])
  {
    if order == [] {
    } else {
      SetAllKeeps(order[..|order| - 1], values, name);
      assert order == order[..|order| - 1] + [order[|order| - 1]];
    }
  }

  /** What is left of the parameters: those whose encoding is not that of the empty string. */
  function Traces(values: map<string, Value>): map<string, Fp> {
    map name | name in values && Encode(values[name]) != Text("") :: Encode(values[name])
  }

  /** Whatever the order in which the parameters are set, the result is the same map. */
  lemma OrderIrrelevant(order: seq<string>, values: map<string, Value>)
    requires Enumerates(order, values.Keys)
    ensures SetAll(order, values) == Traces(values)
  {
    forall name
      ensures name in SetAll(order, values) <==> name in Traces(values)
      ensures name in SetAll(order, values) ==> SetAll(order, values)[name] == Traces(values)[name]
    {
      SetAllKeeps(order, values, name);
    }
  }

  ghost predicate Typed(values: map<string, Value>, types: map<string, Type>) {
    values.Keys == types.Keys && forall name :: name in values ==> HasType(values[name], types[name])
  }

  ghost predicate SameValue(values: map<string, Value>, values': map<string, Value>, name: string) {
    name in values && name in values' && Normal(values[name]) == Normal(values'[name])
  }

  lemma TracesDetermine(values: map<string, Value>, values': map<string, Value>, types: map<string, Type>, name: string)
    requires Typed(values, types) && Typed(values', types) && name in types && Traces(values) == Traces(values')
    ensures SameValue(values, values', name)
  {
    assert name in Traces(values) <==> name in Traces(values');
    assert Encode(values[name]) == Encode(values'[name]);
    EncodeInjective(values[name], values'[name], types[name]);
  }

  /** For a fixed set of typed names the map determines every value, although parameters with an empty
      encoding leave no trace in it. */
  lemma ParamsDetermined(order: seq<string>, values: map<string, Value>, order': seq<string>,
                         values': map<string, Value>,
                         types: map<string, Type>)
    requires Typed(values, types) && Typed(values', types)
    requires Enumerates(order, types.Keys) && Enumerates(order', types.Keys)
    ensures SetAll(order, values) == SetAll(order', values') <==>
      forall name :: name in types ==> SameValue(values, values', name)
  {
    hide Traces, SetAll, SameValue, HasType, Enumerates;
    TypedKeys(values, types);
    TypedKeys(values', types);
    OrderIrrelevant(order, values);
    OrderIrrelevant(order', values');
    if Traces(values) == Traces(values') {
      forall name | name in types
        ensures SameValue(values, values', name)
      {
        TracesDetermine(values, values', types, name);
      }
    }
    if forall name :: name in types ==> SameValue(values, values', name) {
      SameValuesSameTraces(values, values');
    }
  }

  lemma TypedKeys(values: map<string, Value>, types: map<string, Type>)
    requires Typed(values, types)
    ensures values.Keys == types.Keys
  {
  }

  lemma SameValuesSameTraces(values: map<string, Value>, values': map<string, Value>)
    requires values.Keys == values'.Keys && forall name :: name in values ==> SameValue(values, values', name)
    ensures Traces(values) == Traces(values')
  {
    forall name | name in values
      ensures Encode(values[name]) == Encode(values'[name])
    {
      assert SameValue(values, values', name);
      EncodeNormal(values[name]);
      EncodeNormal(values'[name]);
    }
  }
}
