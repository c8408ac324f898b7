/** Version strings of the TPU runtime library: how they are read, and how versions with different
    numbers of components are compared. */
module LibtpuVersions {
  import opened Prelude
  import opened Orders

  const INT_MAX := 0x7FFF_FFFF

  // ---------- Reading ----------

  predicate IsDigit(c: char) {
    '0' <= c <= '9'
  }

  /** The first place from `i` on that holds a digit. */
  function FirstDigit(s: string, i: nat): (r: nat)
    requires i <= |s|
    ensures i <= r <= |s|
    decreases |s| - i
  {
    if i == |s| || IsDigit(s[i]) then i else FirstDigit(s, i + 1)
  }

  /** The first place from `i` on that does not hold a digit. */
  function DigitsEnd(s: string, i: nat): (r: nat)
    requires i <= |s|
    ensures i <= r <= |s| && forall k :: i <= k < r ==> IsDigit(s[k])
    decreases |s| - i
  {
    if i == |s| || !IsDigit(s[i]) then i else DigitsEnd(s, i + 1)
  }

  ghost predicate AllDigits(s: string) {
    forall k :: 0 <= k < |s| ==> IsDigit(s[k])
  }

  function Number(s: string): (r: nat)
    requires forall k :: 0 <= k < |s| ==> IsDigit(s[k])
  {
    if s == "" then 0
    else
      assert IsDigit(s[|s| - 1]);
      Number(s[..|s| - 1]) * 10 + (s[|s| - 1] as int - '0' as int)
  }

  /** The number in the first run of digits, if there is one and it fits into 32 bits. */
  function Component(part: string): Option<int> {
    var start := FirstDigit(part, 0);
    var end := DigitsEnd(part, start);
    var value := Number(part[start..end]);
    if start == |part| || value > INT_MAX then None else Some(value)
  }

  /** The parts between dots. */
  function Split(s: string): (r: seq<string>)
    ensures r != []
    decreases |s|
  {
    if '.' !in s then [s]
    else
      var i := FirstDot(s, 0);
      [s[..i]] + Split(s[i + 1..])
  }

  function FirstDot(s: string, i: nat): (r: nat)
    requires i <= |s| && '.' in s[i..]
    ensures i <= r < |s| && s[r] == '.' && '.' !in s[i..r]
    decreases |s| - i
  {
    if s[i] == '.' then i
    else
      assert s[i..] == [s[i]] + s[i + 1..];
      var r := FirstDot(s, i + 1);
      assert s[i..r] == [s[i]] + s[i + 1..r];
      r
  }

  function Components(parts: seq<string>): seq<int> {
    if parts == [] then []
    else
      var last := Component(parts[|parts| - 1]);
      Components(parts[..|parts| - 1]) + if last.Some? then [last.value] else []
  }

  function Parsed(version: string): seq<int> {
    Components(Split(version))
  }

  method ParsePart(part: string) returns (value: Option<int>)
    ensures value == Component(part)
  {
    var start: nat := 0;
    while start < |part| && !IsDigit(part[start])
      invariant start <= |part| && FirstDigit(part, 0) == FirstDigit(part, start)
    {
      start := start + 1;
    }
    if start >= |part| {
      return None;
    }
    var end: nat := start;
    while end < |part| && IsDigit(part[end])
      invariant start <= end <= |part| && DigitsEnd(part, start) == DigitsEnd(part, end)
    {
      end := end + 1;
    }
    var number := Number(part[start..end]);
    return if number > INT_MAX then None else Some(number);
  }

  method ParseVersion(version: string) returns (components: seq<int>)
    ensures components == Parsed(version)
  {
    components := [];
    var parts := Split(version);
    for i := 0 to |parts|
      invariant components == Components(parts[..i])
    {
      assert parts[..i + 1][..i] == parts[..i];
      var value := ParsePart(parts[i]);
      if value.Some? {
        components := components + [value.value];
      }
    }
    assert parts[..|parts|] == parts;
  }

  // ---------- Printing and reading back ----------

  function Digit(d: nat): char
    requires d < 10
  {
    ('0' as int + d) as char
  }

  function Decimal(n: nat): string {
    if n < 10 then [Digit(n)] else Decimal(n / 10) + [Digit(n % 10)]
  }

  /** The components in decimal, with dots between them. */
  function Printed(version: seq<nat>): string {
    if version == [] then ""
    else if |version| == 1 then Decimal(version[0])
    else Decimal(version[0]) + "." + Printed(version[1..])
  }

  lemma {:induction false} NumberOfDecimal(n: nat)
    ensures AllDigits(Decimal(n)) && Number(Decimal(n)) == n && Decimal(n) != ""
  {
    if n >= 10 {
      NumberOfDecimal(n / 10);
      var s := Decimal(n);
      assert s[..|s| - 1] == Decimal(n / 10);
    } else {
      assert Decimal(n)[..0] == "";
    }
  }

  lemma {:induction false} DigitsToTheEnd(s: string, i: nat)
    requires AllDigits(s) && i <= |s|
    ensures DigitsEnd(s, i) == |s|
    decreases |s| - i
  {
    if i == |s| {
    } else {
      DigitsToTheEnd(s, i + 1);
    }
  }

  lemma ComponentOfDecimal(n: nat)
    requires n <= INT_MAX
    ensures Component(Decimal(n)) == Some(n)
  {
    NumberOfDecimal(n);
    DigitsToTheEnd(Decimal(n), 0);
    var s := Decimal(n);
    assert s[0..|s|] == s && FirstDigit(s, 0) == 0;
  }

  lemma SplitFirst(part: string, rest: string)
    requires '.' !in part
    ensures Split(part + "." + rest) == [part] + Split(rest)
  {
    var s := part + "." + rest;
    assert s[|part|] == '.';
    assert s[..|part|] == part && s[|part| + 1..] == rest;
    DotAfter(part, s, 0);
  }

  lemma {:induction false} DotAfter(part: string, s: string, i: nat)
    requires i <= |part| < |s| && '.' !in part && part == s[..|part|] && s[|part|] == '.'
    ensures '.' in s[i..] && FirstDot(s, i) == |part|
    decreases |part| - i
  {
    assert s[i..][|part| - i] == '.';
    if i == |part| {
    } else {
      assert s[i] == part[i];
      DotAfter(part, s, i + 1);
    }
  }

  lemma {:induction false} ComponentsFromFirst(part: string, parts: seq<string>)
    ensures Components([part] + parts) == (if Component(part).Some? then [Component(part).value] else [])
      + Components(parts)
  {
    hide Component;
    if parts == [] {
      assert ([part] + parts)[..0] == [] && [part] + parts == [part];
    } else {
      ComponentsFromFirst(part, parts[..|parts| - 1]);
      assert ([part] + parts)[..|parts|] == [part] + parts[..|parts| - 1];
    }
  }

  lemma NoDot(n: nat)
    ensures '.' !in Decimal(n)
  {
    NumberOfDecimal(n);
  }

  /** Reading a printed version gives the version back. */
  lemma {:induction false} ParsePrinted(version: seq<nat>)
    requires forall k :: 0 <= k < |version| ==> version[k] <= INT_MAX
    ensures Parsed(Printed(version)) == version
  {
    hide Decimal, Component, Split;
    if version == [] {
      NoComponents();
    } else {
      var first := Decimal(version[0]);
      NoDot(version[0]);
      ComponentOfDecimal(version[0]);
      if |version| == 1 {
        SplitWhole(first);
        ComponentsFromFirst(first, []);
        assert [first] + [] == [first];
      } else {
        ParsePrinted(version[1..]);
        SplitFirst(first, Printed(version[1..]));
        ComponentsFromFirst(first, Split(Printed(version[1..])));
      }
    }
  }

  lemma SplitWhole(s: string)
    requires '.' !in s
    ensures Split(s) == [s]
  {
  }

  lemma NoComponents()
    ensures Parsed("") == []
  {
    assert Split("") == [""];
    assert Component("") == None;
    assert Components([""]) == Components([""][..0]) + [];
  }

  // ---------- Reading any text ----------

  const DIGITS := "0123456789"

  /** The digits count in tens. */
  lemma {:induction false} NumberOfJoined(s: string, t: string)
    requires AllDigits(s) && AllDigits(t)
    ensures AllDigits(s + t) && Number(s + t) == Number(s) * Power(10, |t|) + Number(t)
  {
    if t == "" {
      assert s + t == s;
    } else {
      var front := t[..|t| - 1];
      NumberOfJoined(s, front);
      assert (s + t)[..|s + t| - 1] == s + front;
      assert (s + t)[|s + t| - 1] == t[|t| - 1];
      Distribute(Number(s), Power(10, |front|), Number(front));
    }
  }

  function Power(base: nat, exponent: nat): nat {
    if exponent == 0 then 1 else Power(base, exponent - 1) * base
  }

  lemma Distribute(a: nat, b: nat, c: nat)
    ensures (a * b + c) * 10 == a * (b * 10) + c * 10
  {
  }

  /** And each of them for its place among the ten. */
  lemma NumberOfDigit(d: nat)
    requires d < 10
    ensures AllDigits([DIGITS[d]]) && Number([DIGITS[d]]) == d
  {
    assert [DIGITS[d]][..0] == "";
  }

  lemma DigitsAreTheTen(c: char)
    ensures IsDigit(c) <==> c in DIGITS
  {
    if IsDigit(c) {
      assert DIGITS[c as int - '0' as int] == c;
    }
  }

  /** One part of a version: what comes before its first digits, those digits, and what comes after. */
  datatype Part = Part(before: string, digits: string, after: string)

  function Text(part: Part): string {
    part.before + part.digits + part.after
  }

  ghost predicate IsPart(part: Part) {
    && '.' !in Text(part)
    && (forall k :: 0 <= k < |part.before| ==> part.before[k] !in DIGITS)
    && (forall k :: 0 <= k < |part.digits| ==> part.digits[k] in DIGITS)
    && (if part.digits == "" then part.after == "" else part.after == "" || part.after[0] !in DIGITS)
  }

  lemma PartDigits(part: Part)
    requires IsPart(part)
    ensures AllDigits(part.digits)
  {
    forall k | 0 <= k < |part.digits|
      ensures IsDigit(part.digits[k])
    {
      DigitsAreTheTen(part.digits[k]);
    }
  }

  lemma {:induction false} NoDigitBefore(s: string, i: nat, end: nat)
    requires i <= end <= |s| && (forall k :: i <= k < end ==> !IsDigit(s[k])) && (end < |s| ==> IsDigit(s[end]))
    ensures FirstDigit(s, i) == end
    decreases end - i
  {
    if i == end {
    } else {
      NoDigitBefore(s, i + 1, end);
    }
  }

  lemma {:induction false} DigitsUpTo(s: string, i: nat, end: nat)
    requires i <= end <= |s| && (forall k :: i <= k < end ==> IsDigit(s[k])) && (end < |s| ==> !IsDigit(s[end]))
    ensures DigitsEnd(s, i) == end
    decreases end - i
  {
    if i == end {
    } else {
      DigitsUpTo(s, i + 1, end);
    }
  }

  /** A part counts for the number that its first digits stand for, if it has any and the number is at most
      2^31 - 1. */
  lemma PartDecides(part: Part)
    requires IsPart(part)
    ensures AllDigits(part.digits)
    ensures Component(Text(part))
      == if part.digits != "" && Number(part.digits) < 0x8000_0000 then Some(Number(part.digits)) else None
  {
    PartDigits(part);
    var s, start, end := Text(part), |part.before|, |part.before| + |part.digits|;
    forall k | 0 <= k < start
      ensures !IsDigit(s[k])
    {
      DigitsAreTheTen(part.before[k]);
    }
    NoDigitBefore(s, 0, start);
    if part.digits != "" {
      if end < |s| {
        DigitsAreTheTen(s[end]);
      }
      assert forall k :: start <= k < end ==> s[k] == part.digits[k - start];
      DigitsUpTo(s, start, end);
      assert s[start..end] == part.digits;
    }
  }

  function JoinWithDots(texts: seq<string>): string
    requires texts != []
  {
    if |texts| == 1 then texts[0] else texts[0] + "." + JoinWithDots(texts[1..])
  }

  ghost predicate AreParts(parts: seq<Part>) {
    forall i :: 0 <= i < |parts| ==> IsPart(parts[i])
  }

  function Texts(parts: seq<Part>): seq<string> {
    seq(|parts|, i requires 0 <= i < |parts| => Text(parts[i]))
  }

  /** The numbers of the parts that have one below 2^31. */
  ghost function NumbersOf(parts: seq<Part>): seq<int>
    requires AreParts(parts)
  {
    if parts == [] then []
    else
      PartDigits(parts[0]);
      var rest := NumbersOf(parts[1..]);
      if parts[0].digits != "" && Number(parts[0].digits) < 0x8000_0000 then [Number(parts[0].digits)] + rest else rest
  }

  lemma {:induction false} SplitOfJoined(texts: seq<string>)
    requires texts != [] && forall i :: 0 <= i < |texts| ==> '.' !in texts[i]
    ensures Split(JoinWithDots(texts)) == texts
  {
    if |texts| == 1 {
      assert texts == [texts[0]];
    } else {
      SplitOfJoined(texts[1..]);
      SplitFirst(texts[0], JoinWithDots(texts[1..]));
    }
  }

  lemma {:induction false} ComponentsOfParts(parts: seq<Part>)
    requires AreParts(parts)
    ensures Components(Texts(parts)) == NumbersOf(parts)
  {
    hide Component, Number, IsPart;
    if parts == [] {
    } else {
      PartDecides(parts[0]);
      ComponentsOfParts(parts[1..]);
      assert Texts(parts) == [Text(parts[0])] + Texts(parts[1..]);
      ComponentsFromFirst(Text(parts[0]), Texts(parts[1..]));
    }
  }

  /** Reading parts joined by dots gives their numbers, in order. */
  lemma ParseJoined(parts: seq<Part>)
    requires parts != [] && AreParts(parts)
    ensures Parsed(JoinWithDots(Texts(parts))) == NumbersOf(parts)
  {
    hide Components, NumbersOf;
    SplitOfJoined(Texts(parts));
    ComponentsOfParts(parts);
  }

  lemma ParseFirst(part: string, rest: string)
    requires '.' !in part && Component(part).Some?
    ensures Parsed(part + "." + rest) == [Component(part).value] + Parsed(rest)
  {
    hide Component, Split;
    SplitFirst(part, rest);
    ComponentsFromFirst(part, Split(rest));
  }

  /** What follows a printed version adds its own components. */
  lemma {:induction false} ParsePrintedAnd(version: seq<nat>, rest: string)
    requires version != [] && forall k :: 0 <= k < |version| ==> version[k] <= INT_MAX
    ensures Parsed(Printed(version) + "." + rest) == version + Parsed(rest)
  {
    hide Decimal, Component, Split, Parsed;
    var first := Decimal(version[0]);
    NoDot(version[0]);
    ComponentOfDecimal(version[0]);
    if |version| == 1 {
      ParseFirst(first, rest);
    } else {
      var more := Printed(version[1..]) + "." + rest;
      ParsePrintedAnd(version[1..], rest);
      ParseFirst(first, more);
      assert Printed(version) + "." + rest == first + "." + more;
      assert version + Parsed(rest) == [version[0]] + (version[1..] + Parsed(rest));
    }
  }

  /** A nightly build's date is a component of its own, whatever is around it. */
  lemma ParseNightly(release: seq<nat>, build: Part, date: nat)
    requires release != [] && forall k :: 0 <= k < |release| ==> release[k] <= INT_MAX
    requires IsPart(build) && build.digits == Decimal(date) && date <= INT_MAX
    ensures Parsed(Printed(release) + "." + Text(build)) == release + [date]
  {
    hide Decimal, Component, IsPart, Number, Printed;
    ParsePrintedAnd(release, Text(build));
    NumberOfDecimal(date);
    PartDecides(build);
    NoDotInPart(build);
    SplitWhole(Text(build));
    ComponentsFromFirst(Text(build), []);
    assert [Text(build)] + [] == [Text(build)];
  }

  lemma NoDotInPart(part: Part)
    requires IsPart(part)
    ensures '.' !in Text(part)
  {
  }

  // ---------- Comparing ----------

  /** Component `i` of a version continued for ever: zeros up to the third, then the greatest integer. */
  function Extended(c: seq<int>, i: nat): int {
    if i < |c| then c[i] else if i < 3 then 0 else INT_MAX
  }

  function Max(a: nat, b: nat): nat {
    if a < b then b else a
  }

  /** The first `n` components of the continued version, or more if there are more. */
  function Padded(c: seq<int>, n: nat): (r: seq<int>)
    ensures |r| == Max(|c|, n)
  {
    seq(Max(|c|, n), i requires 0 <= i < Max(|c|, n) => Extended(c, i))
  }

  method PadVersion(components: seq<int>, targetLen: nat) returns (padded: seq<int>)
    ensures padded == Padded(components, targetLen)
  {
    padded := components;
    while |padded| < targetLen
      invariant |components| <= |padded| <= Max(|components|, targetLen) && forall i :: 0 <= i < |padded| ==>
        padded[i] == Extended(components, i)
    {
      padded := padded + [if |padded| < 3 then 0 else INT_MAX];
    }
  }

  /** The comparison: pad both to the longer length, then compare as lists. */
  predicate AtLeast(c: seq<int>, d: seq<int>) {
    !Less(Padded(c, Max(|c|, |d|)), Padded(d, Max(|c|, |d|)))
  }

  class LibtpuVersionState {
    var version: Option<string>
    var parsedVersion: seq<int>

    ghost predicate Valid()
      reads this
    {
      version.Some? ==> parsedVersion == Parsed(version.value)
    }

    constructor ()
      ensures Valid() && version == None
    {
      version, parsedVersion := None, [];
    }

    /** Fails if another version has been set already. */
    method SetLibtpuVersion(v: string) returns (ok: bool)
      requires Valid()
      modifies this
      ensures Valid() && ok == (old(version) == None || old(version) == Some(v))
      ensures version == if ok then Some(v) else old(version)
    {
      if version.Some? {
        return version.value == v;
      }
      version := Some(v);
      parsedVersion := ParseVersion(v);
      return true;
    }

    method IsLibtpuVersionAtLeast(minVersion: string) returns (r: bool)
      requires Valid()
      ensures r <==> version.None? || version.value == "" || AtLeast(Parsed(version.value), Parsed(minVersion))
    {
      if version.None? || version.value == "" {
        return true;
      }
      var required := ParseVersion(minVersion);
      var targetLen := Max(|parsedVersion|, |required|);
      var current := PadVersion(parsedVersion, targetLen);
      required := PadVersion(required, targetLen);
      return !Less(current, required);
    }
  }

  /** At place `k` the continued version `c` is smaller for the first time. */
  ghost predicate SmallerAt(c: seq<int>, d: seq<int>, k: nat) {
    Extended(c, k) < Extended(d, k) && forall i: nat :: i < k ==> Extended(c, i) == Extended(d, i)
  }

  /** Although the padding depends on both versions, the comparison is the lexicographic order of the
      versions continued for ever. */
  lemma AtLeastIsLexicographic(c: seq<int>, d: seq<int>)
    ensures AtLeast(c, d) <==> !(exists k: nat :: SmallerAt(c, d, k))
  {
    var n := Max(|c|, |d|);
    LessAtPlace(Padded(c, n), Padded(d, n));
    if k: nat :| SmallerAt(c, d, k) {
      assert ListSmallerAt(Padded(c, n), Padded(d, n), k);
    }
    if k: nat :| ListSmallerAt(Padded(c, n), Padded(d, n), k) {
      forall i: nat | i < k
        ensures Extended(c, i) == Extended(d, i)
      {
        assert Padded(c, n)[i] == Padded(d, n)[i];
      }
      assert SmallerAt(c, d, k);
    }
  }

  /** The comparison is total and transitive on all versions. */
  lemma AtLeastIsPreorder(c: seq<int>, d: seq<int>, e: seq<int>)
    ensures AtLeast(c, c)
    ensures AtLeast(c, d) || AtLeast(d, c)
    ensures AtLeast(c, d) && AtLeast(d, e) ==> AtLeast(c, e)
  {
    hide AtLeast;
    AtLeastIsLexicographic(c, c);
    AtLeastIsLexicographic(c, d);
    AtLeastIsLexicographic(d, c);
    AtLeastIsLexicographic(d, e);
    AtLeastIsLexicographic(c, e);
    if k: nat, l: nat :| SmallerAt(c, d, k) && SmallerAt(d, c, l) {
      assert false by { OneSmaller(c, d, k, l); }
    }
    if AtLeast(c, d) && AtLeast(d, e) && !AtLeast(c, e) {
      var k: nat :| SmallerAt(c, e, k);
      NegativelyTransitive(c, d, e, k);
    }
  }

  lemma OneSmaller(c: seq<int>, d: seq<int>, k: nat, l: nat)
    requires SmallerAt(c, d, k)
    ensures !SmallerAt(d, c, l)
  {
    if k < l {
      assert SmallerAt(d, c, l) ==> Extended(d, k) == Extended(c, k);
    }
  }

  /** If `c` is smaller than `e`, then every `d` is greater than `c` or smaller than `e`. */
  lemma NegativelyTransitive(c: seq<int>, d: seq<int>, e: seq<int>, k: nat)
    requires SmallerAt(c, e, k)
    ensures (exists l: nat :: SmallerAt(c, d, l)) || (exists l: nat :: SmallerAt(d, e, l))
  {
    var i := FirstDifference(c, d, k);
    if i < k {
      if Extended(c, i) < Extended(d, i) {
        assert SmallerAt(c, d, i);
      } else {
        assert SmallerAt(d, e, i);
      }
    } else if Extended(c, k) < Extended(d, k) {
      assert SmallerAt(c, d, k);
    } else {
      assert SmallerAt(d, e, k);
    }
  }

  lemma {:induction false} FirstDifference(c: seq<int>, d: seq<int>, n: nat) returns (i: nat)
    ensures i <= n && (i < n ==> Extended(c, i) != Extended(d, i))
    ensures forall j: nat :: j < i ==> Extended(c, j) == Extended(d, j)
  {
    if n == 0 {
      i := 0;
    } else {
      i := FirstDifference(c, d, n - 1);
      if i == n - 1 && Extended(c, i) == Extended(d, i) {
        i := n;
      }
    }
  }

  /** A release of three parts is at least as new as every longer build of it. */
  lemma ReleaseIsAtLeastItsBuilds(release: seq<int>, build: seq<int>)
    requires |release| == 3 && forall k :: 0 <= k < |build| ==> build[k] <= INT_MAX
    ensures AtLeast(release, release + build)
    ensures AtLeast(release + build, release) <==> forall k :: 0 <= k < |build| ==> build[k] == INT_MAX
  {
    var longer := release + build;
    AtLeastIsLexicographic(release, longer);
    AtLeastIsLexicographic(longer, release);
    forall k: nat
      ensures !SmallerAt(release, longer, k)
    {
      assert Extended(longer, k) <= Extended(release, k);
    }
    if k :| 0 <= k < |build| && build[k] != INT_MAX {
      var i := FirstDifference(longer, release, 3 + k + 1);
      assert Extended(longer, 3 + k) == build[k];
      assert SmallerAt(longer, release, i);
    }
  }

  /** Versions with equally many components compare by the first that differs. */
  lemma AtLeastOfSameLength(c: seq<int>, d: seq<int>)
    requires |c| == |d|
    ensures AtLeast(c, d) <==> !exists k: nat :: ListSmallerAt(c, d, k)
  {
    assert Padded(c, |c|) == c && Padded(d, |d|) == d;
    LessAtPlace(c, d);
  }

  /** A missing second or third component is zero; any other missing component is the greatest integer, so
      that what goes on is older unless it goes on with just that. */
  lemma OneMoreComponent(c: seq<int>, x: int)
    requires x <= 0x7FFF_FFFF
    ensures |c| < 3 ==>
      && (AtLeast(c, c + [x]) <==> x <= 0)
      && (AtLeast(c + [x], c) <==> 0 <= x)
    ensures |c| >= 3 ==>
      && AtLeast(c, c + [x])
      && (AtLeast(c + [x], c) <==> x == 0x7FFF_FFFF)
  {
    var y := if |c| < 3 then 0 else 0x7FFF_FFFF;
    assert Padded(c, |c| + 1) == c + [y] && Padded(c + [x], |c| + 1) == c + [x];
    LessAtLast(c, x, y);
    LessAtLast(c, y, x);
  }

  lemma LessAtLast(c: seq<int>, x: int, y: int)
    ensures Less(c + [x], c + [y]) <==> x < y
  {
    LessAtPlace(c + [x], c + [y]);
    if x < y {
      assert ListSmallerAt(c + [x], c + [y], |c|);
    }
    forall k: nat | k < |c|
      ensures !ListSmallerAt(c + [x], c + [y], k)
    {
      assert (c + [x])[k] == c[k] == (c + [y])[k];
    }
  }
}
