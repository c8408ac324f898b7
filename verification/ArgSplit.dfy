/** Two ways to split the text of a macro's arguments at its top-level commas: all at once, and one
    argument at a time off the front. */
module ArgSplit {

  predicate IsSpace(c: char) {
    c == ' ' || c == '\t' || c == '\n' || c == '\r' || c as int == 11 || c as int == 12
  }

  function StripLeft(s: string): string {
    if s != "" && IsSpace(s[0]) then StripLeft(s[1..]) else s
  }

  function StripRight(s: string): string {
    if s != "" && IsSpace(s[|s| - 1]) then StripRight(s[..|s| - 1]) else s
  }

  function Strip(s: string): string {
    StripRight(StripLeft(s))
  }

  /** How many parentheses are open after the first `n` characters; negative if more were closed. */
  function Depth(s: string, n: nat): int
    requires n <= |s|
  {
    if n == 0 then 0
    else Depth(s, n - 1) + if s[n - 1] == '(' then 1 else if s[n - 1] == ')' then -1 else 0
  }

  predicate TopComma(s: string, i: nat)
    requires i < |s|
  {
    s[i] == ',' && Depth(s, i) == 0
  }

  /** The first comma outside of parentheses from place `i` on; the end if there is none. */
  function FirstComma(s: string, i: nat): (r: nat)
    requires i <= |s|
    ensures i <= r <= |s| && (r < |s| ==> TopComma(s, r))
    ensures forall k :: i <= k < r ==> !TopComma(s, k)
    decreases |s| - i
  {
    if i == |s| || TopComma(s, i) then i else FirstComma(s, i + 1)
  }

  // ---------- One argument at a time ----------

  function NextName(s: string): (string, string) {
    var end := FirstComma(s, 0);
    (Strip(s[..end]), if end == |s| then "" else s[end + 1..])
  }

  method ParseNextArgName(s: string) returns (name: string, rest: string)
    ensures (name, rest) == NextName(s)
  {
    var nameEnd: nat := |s|;
    var depth := 0;
    for i := 0 to |s|
      invariant depth == Depth(s, i) && nameEnd == |s| && FirstComma(s, 0) == FirstComma(s, i)
    {
      if s[i] == '(' {
        depth := depth + 1;
      } else if s[i] == ')' {
        depth := depth - 1;
      } else if s[i] == ',' && depth == 0 {
        nameEnd := i;
        break;
      }
    }
    assert FirstComma(s, 0) == nameEnd;
    name := Strip(s[..nameEnd]);
    var removed := if nameEnd == |s| then nameEnd else nameEnd + 1;
    rest := s[removed..];
    assert nameEnd == |s| ==> rest == "";
  }

  /** All the names, until nothing is left. */
  function Names(s: string): seq<string>
    decreases |s|
  {
    if s == "" then [] else [NextName(s).0] + Names(NextName(s).1)
  }

  // ---------- All at once ----------

  function Args(s: string): seq<string>
    decreases |s|
  {
    if s == "" then []
    else
      var end := FirstComma(s, 0);
      var arg := Strip(s[..end]);
      if end == |s| then (if arg == "" then [] else [arg]) else [arg] + Args(s[end + 1..])
  }

  method ArgsAsStrings(csv: string) returns (args: seq<string>)
    ensures args == Args(csv)
  {
    hide Strip, FirstComma, Args;
    args := [];
    ArgsStep(csv);
    if csv == "" {
      return;
    }
    var start: nat := 0;
    assert csv[0..] == csv;
    while start < |csv|
      invariant start <= |csv| && args + Args(csv[start..]) == Args(csv)
    {
      var commaPos := FindComma(csv, start);
      ArgsFrom(csv, start, commaPos);
      var arg := Strip(csv[start..commaPos]);
      if arg != "" || commaPos != |csv| {
        args := args + [arg];
      }
      if commaPos == |csv| {
        return;
      }
      start := commaPos + 1;
    }
    assert csv[start..] == "";
    ArgsStep("");
  }

  lemma ArgsFrom(csv: string, start: nat, commaPos: nat)
    requires start < |csv| && start <= commaPos <= |csv| && commaPos - start == FirstComma(csv[start..], 0)
    ensures var arg := Strip(csv[start..commaPos]);
      Args(csv[start..]) ==
        if commaPos == |csv| then (if arg == "" then [] else [arg]) else [arg] + Args(csv[commaPos + 1..])
  {
    hide Strip, FirstComma, Args;
    ArgsStep(csv[start..]);
    SliceOfRest(csv, start, commaPos);
  }

  lemma SliceOfRest(csv: string, start: nat, end: nat)
    requires start <= end <= |csv|
    ensures csv[start..][..end - start] == csv[start..end]
    ensures end < |csv| ==> csv[start..][end - start + 1..] == csv[end + 1..]
  {
  }

  lemma ArgsStep(s: string)
    ensures s == "" ==> Args(s) == []
    ensures s != "" ==>
      var end := FirstComma(s, 0);
      var arg := Strip(s[..end]);
      Args(s) == if end == |s| then (if arg == "" then [] else [arg]) else [arg] + Args(s[end + 1..])
  {
  }

  /** The inner loop: the depth starts again at every argument. */
  method FindComma(csv: string, start: nat) returns (commaPos: nat)
    requires start <= |csv|
    ensures start <= commaPos <= |csv| && commaPos - start == FirstComma(csv[start..], 0)
  {
    ghost var rest := csv[start..];
    var depth := 0;
    for i := start to |csv|
      invariant depth == Depth(rest, i - start) && FirstComma(rest, 0) == FirstComma(rest, i - start)
    {
      assert csv[i] == rest[i - start];
      if csv[i] == '(' {
        depth := depth + 1;
      } else if csv[i] == ')' {
        depth := depth - 1;
      } else if csv[i] == ',' && depth == 0 {
        return i;
      }
    }
    return |csv|;
  }

  // ---------- Pieces ----------

  /** The text between the top-level commas, as it is. */
  function Pieces(s: string): (r: seq<string>)
    ensures r != []
    decreases |s|
  {
    var end := FirstComma(s, 0);
    if end == |s| then [s] else [s[..end]] + Pieces(s[end + 1..])
  }

  lemma PiecesStep(s: string)
    ensures var end := FirstComma(s, 0);
      Pieces(s) == if end == |s| then [s] else [s[..end]] + Pieces(s[end + 1..])
  {
    hide FirstComma;
  }

  lemma LastPieceStep(s: string)
    ensures var end := FirstComma(s, 0);
      LastPiece(s) == if end == |s| then s else LastPiece(s[end + 1..])
  {
    hide FirstComma, Pieces;
    PiecesStep(s);
    var end := FirstComma(s, 0);
    if end != |s| {
      var rest := Pieces(s[end + 1..]);
      assert ([s[..end]] + rest)[|rest|] == rest[|rest| - 1];
    }
  }

  function LastPiece(s: string): string {
    Pieces(s)[|Pieces(s)| - 1]
  }

  function AllStripped(pieces: seq<string>): seq<string> {
    seq(|pieces|, i requires 0 <= i < |pieces| => Strip(pieces[i]))
  }

  lemma StrippedFirst(piece: string, pieces: seq<string>)
    ensures AllStripped([piece] + pieces) == [Strip(piece)] + AllStripped(pieces)
  {
  }

  function WithoutLast(pieces: seq<string>, drop: bool): seq<string>
    requires pieces != []
  {
    if drop then pieces[..|pieces| - 1] else pieces
  }

  lemma WithoutLastFirst(piece: string, pieces: seq<string>, drop: bool)
    requires pieces != []
    ensures WithoutLast([piece] + pieces, drop) == [piece] + WithoutLast(pieces, drop)
  {
  }

  /** One at a time gives all pieces, but for a last one of no characters. */
  lemma {:induction false} NamesArePieces(s: string)
    ensures Names(s) == AllStripped(WithoutLast(Pieces(s), LastPiece(s) == ""))
    decreases |s|
  {
    hide Strip, FirstComma;
    LastPieceStep(s);
    var end := FirstComma(s, 0);
    if end == |s| {
      assert s[..end] == s;
    } else {
      var rest := s[end + 1..];
      NamesArePieces(rest);
      WithoutLastFirst(s[..end], Pieces(rest), LastPiece(s) == "");
      StrippedFirst(s[..end], WithoutLast(Pieces(rest), LastPiece(s) == ""));
    }
  }

  /** All at once gives all pieces, but for a last one of white space only. */
  lemma {:induction false} ArgsArePieces(s: string)
    ensures Args(s) == AllStripped(WithoutLast(Pieces(s), Strip(LastPiece(s)) == ""))
    decreases |s|
  {
    hide Strip, AllStripped, WithoutLast, Args, FirstComma, Pieces, LastPiece;
    StripNothing();
    ArgsStep(s);
    PiecesStep(s);
    LastPieceStep(s);
    var end := FirstComma(s, 0);
    if end == |s| {
      assert s[..end] == s;
      OnePiece(s, Strip(s) == "");
    } else {
      var rest := s[end + 1..];
      ArgsArePieces(rest);
      WithoutLastFirst(s[..end], Pieces(rest), Strip(LastPiece(s)) == "");
      StrippedFirst(s[..end], WithoutLast(Pieces(rest), Strip(LastPiece(s)) == ""));
    }
  }

  lemma OnePiece(piece: string, drop: bool)
    ensures AllStripped(WithoutLast([piece], drop)) == if drop then [] else [Strip(piece)]
  {
  }

  lemma StripNothing()
    ensures Strip("") == ""
  {
  }

  /** The two splitters agree, except that only the first gives an empty name for a last piece that is
      not empty but holds nothing but white space. */
  lemma SplittersAgree(s: string)
    ensures Names(s) == Args(s) + if LastPiece(s) != "" && Strip(LastPiece(s)) == "" then [""] else []
  {
    hide Strip, Pieces, Names, Args;
    NamesArePieces(s);
    ArgsArePieces(s);
    StripNothing();
    var pieces := Pieces(s);
    var front := pieces[..|pieces| - 1];
    assert pieces == front + [LastPiece(s)];
    assert AllStripped(pieces) == AllStripped(front) + [Strip(LastPiece(s))];
  }

  // ---------- Joining ----------

  function JoinWithCommas(pieces: seq<string>): string
    requires pieces != []
  {
    if |pieces| == 1 then pieces[0] else pieces[0] + "," + JoinWithCommas(pieces[1..])
  }

  /** Joining the pieces gives the text back. */
  lemma {:induction false} JoinOfPieces(s: string)
    ensures JoinWithCommas(Pieces(s)) == s
    decreases |s|
  {
    hide FirstComma, Pieces;
    var end := FirstComma(s, 0);
    PiecesStep(s);
    if end == |s| {
    } else {
      var rest := s[end + 1..];
      JoinOfPieces(rest);
      assert Pieces(s)[1..] == Pieces(rest);
      assert s == s[..end] + "," + rest;
    }
  }

  ghost predicate NoTopComma(s: string) {
    FirstComma(s, 0) == |s|
  }

  /** No piece has a top-level comma, and each but the last closes as many parentheses as it opens. */
  ghost predicate Separable(pieces: seq<string>) {
    && (forall i :: 0 <= i < |pieces| ==> NoTopComma(pieces[i]))
    && (forall i :: 0 <= i < |pieces| - 1 ==> Depth(pieces[i], |pieces[i]|) == 0)
  }

  lemma {:induction false} DepthOfFront(s: string, t: string, n: nat)
    requires n <= |s|
    ensures Depth(s + t, n) == Depth(s, n)
  {
    if n == 0 {
    } else {
      DepthOfFront(s, t, n - 1);
    }
  }

  lemma CommaAfter(s: string, rest: string)
    ensures FirstComma(s + "," + rest, 0) == |s| <==> NoTopComma(s) && Depth(s, |s|) == 0
  {
    var whole := s + "," + rest;
    assert whole == s + ("," + rest);
    forall k | 0 <= k < |s|
      ensures TopComma(whole, k) <==> TopComma(s, k)
    {
      DepthOfFront(s, "," + rest, k);
    }
    DepthOfFront(s, "," + rest, |s|);
    assert whole[|s|] == ',';
    assert TopComma(whole, |s|) <==> Depth(s, |s|) == 0;
    if FirstComma(whole, 0) == |s| {
      assert TopComma(whole, |s|);
      assert forall k :: 0 <= k < |s| ==> !TopComma(whole, k);
      assert FirstComma(s, 0) == |s|;
    }
    if NoTopComma(s) && Depth(s, |s|) == 0 {
      assert forall k :: 0 <= k < |s| ==> !TopComma(s, k);
      assert FirstComma(whole, 0) == |s|;
    }
  }

  lemma SeparableFromFirst(pieces: seq<string>)
    requires |pieces| > 1
    ensures Separable(pieces) <==> NoTopComma(pieces[0]) && Depth(pieces[0], |pieces[0]|) == 0 && Separable(pieces[1..])
  {
    var rest := pieces[1..];
    if NoTopComma(pieces[0]) && Depth(pieces[0], |pieces[0]|) == 0 && Separable(rest) {
      forall i | 0 <= i < |pieces|
        ensures NoTopComma(pieces[i]) && (i < |pieces| - 1 ==> Depth(pieces[i], |pieces[i]|) == 0)
      {
        assert i > 0 ==> pieces[i] == rest[i - 1];
      }
    }
    if Separable(pieces) {
      forall i | 0 <= i < |rest|
        ensures NoTopComma(rest[i]) && (i < |rest| - 1 ==> Depth(rest[i], |rest[i]|) == 0)
      {
        assert rest[i] == pieces[i + 1];
      }
    }
  }

  lemma FirstPieceEnds(s: string)
    ensures |Pieces(s)[0]| == FirstComma(s, 0)
  {
  }

  /** Splitting a joined text gives the pieces back exactly when they are separable. */
  lemma {:induction false} PiecesOfJoin(pieces: seq<string>)
    requires pieces != []
    ensures Pieces(JoinWithCommas(pieces)) == pieces <==> Separable(pieces)
  {
    var s := JoinWithCommas(pieces);
    if |pieces| == 1 {
      assert pieces == [s];
      if Pieces(s) == pieces {
        assert FirstComma(s, 0) == |s|;
      }
      assert Separable(pieces) <==> NoTopComma(s) by { assert pieces[0] == s; }
    } else {
      var first, rest := pieces[0], JoinWithCommas(pieces[1..]);
      SeparableFromFirst(pieces);
      CommaAfter(first, rest);
      PiecesOfJoin(pieces[1..]);
      FirstPieceEnds(s);
      if FirstComma(s, 0) == |first| {
        assert s[..|first|] == first && s[|first| + 1..] == rest;
        assert pieces == [first] + pieces[1..];
        assert Pieces(s)[1..] == Pieces(rest);
      }
    }
  }

  /** Both splitters undo joining separable arguments, with white space around them or not, as long as
      the last is not blank. */
  lemma SplittersUndoJoining(pieces: seq<string>)
    requires pieces != [] && Separable(pieces) && Strip(pieces[|pieces| - 1]) != ""
    ensures Names(JoinWithCommas(pieces)) == Args(JoinWithCommas(pieces)) == AllStripped(pieces)
  {
    hide Strip;
    PiecesOfJoin(pieces);
    NamesArePieces(JoinWithCommas(pieces));
    ArgsArePieces(JoinWithCommas(pieces));
    StripNothing();
  }

  /** Trimmed arguments come back unchanged. */
  lemma SplittersReturnArguments(args: seq<string>)
    requires args != [] && Separable(args) && forall i :: 0 <= i < |args| ==> args[i] != "" && Strip(args[i]) == args[i]
    ensures Names(JoinWithCommas(args)) == args && Args(JoinWithCommas(args)) == args
  {
    SplittersUndoJoining(args);
    assert AllStripped(args) == args;
  }

  // ---------- The answers in terms of characters ----------

  /** As many parentheses are opened as closed among the first `n` characters. */
  ghost predicate Balanced(s: string, n: nat)
    requires n <= |s|
  {
    multiset(s[..n])['('] == multiset(s[..n])[')']
  }

  lemma {:induction false} DepthCounts(s: string, n: nat)
    requires n <= |s|
    ensures Depth(s, n) + multiset(s[..n])[')'] == multiset(s[..n])['(']
  {
    if n == 0 {
    } else {
      DepthCounts(s, n - 1);
      assert s[..n] == s[..n - 1] + [s[n - 1]];
    }
  }

  /** Spaces, tabs, line feeds, vertical tabs, form feeds and carriage returns only. */
  ghost predicate Blank(s: string) {
    forall i :: 0 <= i < |s| ==> s[i] in {' ', 9 as char, 10 as char, 11 as char, 12 as char, 13 as char}
  }

  /** `t` is what remains of `s` without the white space at both ends. */
  ghost predicate IsTrimmed(s: string, t: string) {
    && (exists left, right :: Blank(left) && Blank(right) && s == left + t + right)
    && (t != "" ==> !Blank([t[0]]) && !Blank([t[|t| - 1]]))
  }

  lemma {:induction false} StripLeftCuts(s: string) returns (left: string)
    ensures Blank(left) && s == left + StripLeft(s) && (StripLeft(s) != "" ==> !Blank([StripLeft(s)[0]]))
  {
    if s != "" && IsSpace(s[0]) {
      left := StripLeftCuts(s[1..]);
      assert s == [s[0]] + s[1..];
      left := [s[0]] + left;
    } else {
      left := "";
      assert s != "" ==> [s[0]][0] == s[0];
    }
  }

  lemma {:induction false} StripRightCuts(s: string) returns (right: string)
    ensures Blank(right) && s == StripRight(s) + right
    ensures StripRight(s) != "" ==> !Blank([StripRight(s)[|StripRight(s)| - 1]]) && StripRight(s)[0] == s[0]
  {
    if s != "" && IsSpace(s[|s| - 1]) {
      right := StripRightCuts(s[..|s| - 1]);
      assert s == s[..|s| - 1] + [s[|s| - 1]];
      right := right + [s[|s| - 1]];
    } else {
      right := "";
      assert s != "" ==> [s[|s| - 1]][0] == s[|s| - 1];
    }
  }

  lemma StripTrims(s: string)
    ensures IsTrimmed(s, Strip(s))
  {
    var left := StripLeftCuts(s);
    var right := StripRightCuts(StripLeft(s));
    assert Blank(left) && Blank(right) && s == left + Strip(s) + right;
  }

  lemma BlankAt(s: string, k: nat)
    requires Blank(s) && k < |s|
    ensures Blank([s[k]])
  {
  }

  lemma FirstAfter(a: string, t: string, b: string, u: string)
    requires a + t == b + u && |a| < |b| && t != ""
    ensures t[0] == b[|a|]
  {
    assert (a + t)[|a|] == t[0];
  }

  lemma LastBefore(t: string, a: string, u: string, b: string)
    requires t + a == u + b && |a| < |b| && t != ""
    ensures 0 <= |t| - 1 - |u| < |b| && t[|t| - 1] == b[|t| - 1 - |u|]
  {
    assert (t + a)[|t| - 1] == t[|t| - 1];
  }

  lemma BlankPrefix(a: string, b: string, t: string, u: string)
    requires a + t == b + u && |a| <= |b| && Blank(b) && t != "" && !Blank([t[0]])
    ensures a == b && t == u
  {
    if |a| < |b| {
      BlankAt(b, |a|);
      FirstAfter(a, t, b, u);
    } else {
      assert (a + t)[..|a|] == a && (b + u)[..|a|] == b;
      assert (a + t)[|a|..] == t && (b + u)[|a|..] == u;
    }
  }

  lemma BlankSuffix(t: string, a: string, u: string, b: string)
    requires t + a == u + b && |a| <= |b| && Blank(b) && t != "" && !Blank([t[|t| - 1]])
    ensures t == u
  {
    if |a| < |b| {
      BlankAt(b, |b| - |a| - 1);
      LastBefore(t, a, u, b);
    } else {
      assert (t + a)[..|t|] == t && (u + b)[..|t|] == u;
    }
  }

  lemma NotAllBlank(s: string, t: string)
    requires IsTrimmed(s, t) && t != ""
    ensures !Blank(s)
  {
    var left, right :| Blank(left) && Blank(right) && s == left + t + right;
    assert s[|left|] == t[0] == [t[0]][0];
  }

  /** There is one such text only. */
  lemma TrimmedUnique(s: string, t: string, u: string)
    requires IsTrimmed(s, t) && IsTrimmed(s, u)
    ensures t == u
  {
    var a, c :| Blank(a) && Blank(c) && s == a + t + c;
    var b, d :| Blank(b) && Blank(d) && s == b + u + d;
    if t == "" {
      assert Blank(s);
      if u != "" {
        NotAllBlank(s, u);
      }
    } else if u == "" {
      assert Blank(s);
      NotAllBlank(s, t);
    } else {
      assert s == a + (t + c) == b + (u + d);
      if |a| <= |b| {
        BlankPrefix(a, b, t + c, u + d);
      } else {
        BlankPrefix(b, a, u + d, t + c);
      }
      if |c| <= |d| {
        BlankSuffix(t, c, u, d);
      } else {
        BlankSuffix(u, d, t, c);
      }
    }
  }

  /** Every comma of a piece has more parentheses opened than closed before it, or more closed than opened;
      and each piece but the last opens as many as it closes. */
  ghost predicate CutAtTopCommas(pieces: seq<string>) {
    && (forall i, k :: 0 <= i < |pieces| && 0 <= k < |pieces[i]| && pieces[i][k] == ',' ==> !Balanced(pieces[i], k))
    && (forall i :: 0 <= i < |pieces| - 1 ==> Balanced(pieces[i], |pieces[i]|))
  }

  lemma NoTopCommaByCount(s: string)
    ensures NoTopComma(s) <==> forall k :: 0 <= k < |s| && s[k] == ',' ==> !Balanced(s, k)
  {
    forall k | 0 <= k < |s|
      ensures TopComma(s, k) <==> s[k] == ',' && Balanced(s, k)
    {
      DepthCounts(s, k);
    }
    if NoTopComma(s) {
      assert forall k :: 0 <= k < |s| ==> !TopComma(s, k);
    }
  }

  lemma SeparableByCount(pieces: seq<string>)
    ensures Separable(pieces) <==> CutAtTopCommas(pieces)
  {
    hide NoTopComma, Balanced, Depth;
    forall i | 0 <= i < |pieces|
      ensures NoTopComma(pieces[i]) <==> forall k :: 0 <= k < |pieces[i]| && pieces[i][k] == ',' ==>
        !Balanced(pieces[i], k)
      ensures Depth(pieces[i], |pieces[i]|) == 0 <==> Balanced(pieces[i], |pieces[i]|)
    {
      NoTopCommaByCount(pieces[i]);
      BalancedIs(pieces[i], |pieces[i]|);
    }
  }

  lemma BalancedIs(s: string, n: nat)
    requires n <= |s|
    ensures Balanced(s, n) <==> Depth(s, n) == 0
  {
    DepthCounts(s, n);
  }

  /** The pieces of a text are the one way to cut it at all its commas outside of parentheses. */
  lemma PiecesAreTheCut(s: string, pieces: seq<string>)
    requires pieces != []
    ensures pieces == Pieces(s) <==> JoinWithCommas(pieces) == s && CutAtTopCommas(pieces)
  {
    SeparableByCount(pieces);
    PiecesOfJoin(pieces);
    JoinOfPieces(s);
  }

  ghost predicate AllTrimmed(pieces: seq<string>, args: seq<string>) {
    |args| == |pieces| && forall i :: 0 <= i < |pieces| ==> IsTrimmed(pieces[i], args[i])
  }

  lemma TrimmedIsStripped(pieces: seq<string>, args: seq<string>)
    ensures AllTrimmed(pieces, args) <==> args == AllStripped(pieces)
  {
    hide Strip, IsTrimmed;
    forall i | 0 <= i < |pieces|
      ensures IsTrimmed(pieces[i], Strip(pieces[i]))
    {
      StripTrims(pieces[i]);
    }
    if AllTrimmed(pieces, args) {
      forall i | 0 <= i < |pieces|
        ensures args[i] == Strip(pieces[i])
      {
        TrimmedUnique(pieces[i], args[i], Strip(pieces[i]));
      }
    }
  }

  lemma StrippedFront(pieces: seq<string>)
    requires pieces != []
    ensures AllStripped(pieces[..|pieces| - 1]) == AllStripped(pieces)[..|pieces| - 1]
  {
  }

  /** Both splitters by characters: cut the text at every comma that has as many opening as closing
      parentheses before it in its piece, and trim the pieces. All at once drops a last argument that is
      empty; one at a time drops it if its piece is. */
  lemma SplittersByCharacters(s: string, pieces: seq<string>, args: seq<string>)
    requires pieces != [] && JoinWithCommas(pieces) == s && CutAtTopCommas(pieces) && AllTrimmed(pieces, args)
    ensures Args(s) == if args[|args| - 1] == "" then args[..|args| - 1] else args
    ensures Names(s) == if pieces[|pieces| - 1] == "" then args[..|args| - 1] else args
  {
    hide Strip, Names, Args, Pieces, CutAtTopCommas, AllTrimmed, AllStripped, JoinWithCommas;
    PiecesAreTheCut(s, pieces);
    TrimmedIsStripped(pieces, args);
    ArgsArePieces(s);
    NamesArePieces(s);
    StrippedFront(pieces);
    StrippedLast(pieces);
  }

  lemma StrippedLast(pieces: seq<string>)
    requires pieces != []
    ensures |AllStripped(pieces)| == |pieces| && AllStripped(pieces)[|pieces| - 1] == Strip(pieces[|pieces| - 1])
  {
  }

  /** Every text can be cut like that. */
  lemma CutExists(s: string) returns (pieces: seq<string>, args: seq<string>)
    ensures pieces != [] && JoinWithCommas(pieces) == s && CutAtTopCommas(pieces) && AllTrimmed(pieces, args)
  {
    pieces, args := Pieces(s), AllStripped(Pieces(s));
    PiecesAreTheCut(s, pieces);
    TrimmedIsStripped(pieces, args);
  }

  /** The first name ends at the first comma that has as many opening as closing parentheses before it. */
  lemma FirstNameByCharacters(s: string, end: nat)
    requires end <= |s| && (end < |s| ==> s[end] == ',' && Balanced(s, end))
    requires forall k :: 0 <= k < end && s[k] == ',' ==> !Balanced(s, k)
    ensures IsTrimmed(s[..end], NextName(s).0) && NextName(s).1 == if end == |s| then "" else s[end + 1..]
  {
    hide Strip;
    forall k | 0 <= k < |s|
      ensures TopComma(s, k) <==> s[k] == ',' && Balanced(s, k)
    {
      BalancedIs(s, k);
    }
    assert FirstComma(s, 0) == end;
    StripTrims(s[..end]);
  }
}
