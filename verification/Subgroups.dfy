/** Device groups: their normal form, and how every process learns all the subgroups of the slice by
    summing tables in which each process fills one row. */
module Subgroups {
  import opened Prelude
  import opened Orders

  type Group = seq<int>

  // ---------- The normal form ----------

  /** The groups of a list in lexicographic order, each once. */
  ghost function Canonical(groups: seq<Group>): (r: seq<Group>)
    ensures StrictlySorted(Less, r) && Elements(r) == Elements(groups)
  {
    LessIsStrictTotal();
    SortedElements(Less, Elements(groups))
  }

  lemma SortedGroups(groups: seq<Group>)
    ensures Sorted(Less, Sort(Less, groups)) && Elements(Sort(Less, groups)) == Elements(groups)
  {
    LessIsStrictTotal();
    SortSorts(Less, groups);
  }

  lemma IsCanonical(s: seq<Group>, groups: seq<Group>)
    requires StrictlySorted(Less, s) && Elements(s) == Elements(groups)
    ensures s == Canonical(groups)
  {
    LessIsStrictTotal();
    SortedUnique(Less, s, Canonical(groups));
  }

  method Normalize(groups: seq<Group>) returns (result: seq<Group>)
    ensures result == Canonical(groups)
  {
    hide *;
    var sorted := Sort(Less, groups);
    SortedGroups(groups);
    result := [];
    NothingKept(sorted);
    for i := 0 to |sorted|
      invariant Kept(sorted, i, result)
    {
      KeepNext(sorted, i, result);
      if i == 0 || sorted[i] != sorted[i - 1] {
        result := result + [sorted[i]];
      }
    }
    AllKept(sorted, result, groups);
  }

  /** `kept` has the first `i` groups of a sorted list, each once. */
  ghost predicate Kept(sorted: seq<Group>, i: nat, kept: seq<Group>) {
    && i <= |sorted|
    && StrictlySorted(Less, kept) && Elements(kept) == Elements(sorted[..i])
  }

  lemma NothingKept(sorted: seq<Group>)
    ensures Kept(sorted, 0, [])
  {
    assert sorted[..0] == [];
  }

  lemma AllKept(sorted: seq<Group>, kept: seq<Group>, groups: seq<Group>)
    requires Kept(sorted, |sorted|, kept) && Elements(sorted) == Elements(groups)
    ensures kept == Canonical(groups)
  {
    assert sorted[..|sorted|] == sorted;
    IsCanonical(kept, groups);
  }

  lemma KeepNext(sorted: seq<Group>, i: nat, kept: seq<Group>)
    requires Sorted(Less, sorted) && i < |sorted| && Kept(sorted, i, kept)
    ensures Kept(sorted, i + 1, if i == 0 || sorted[i] != sorted[i - 1] then kept + [sorted[i]] else kept)
  {
    hide Sorted, Less;
    assert sorted[..i + 1] == sorted[..i] + [sorted[i]];
    ElementsOfMore(sorted[..i], sorted[i]);
    if i == 0 || sorted[i] != sorted[i - 1] {
      ElementsOfMore(kept, sorted[i]);
      SmallerThanNext(sorted, i, kept);
    } else {
      assert sorted[i] in Elements(sorted[..i]) by { assert sorted[..i][i - 1] == sorted[i]; }
    }
  }

  lemma SmallerThanNext(sorted: seq<Group>, i: nat, kept: seq<Group>)
    requires Sorted(Less, sorted) && i < |sorted| && Elements(kept) == Elements(sorted[..i])
    requires (i > 0 ==> sorted[i] != sorted[i - 1])
    ensures forall k :: 0 <= k < |kept| ==> Less(kept[k], sorted[i])
  {
    forall k | 0 <= k < |kept|
      ensures Less(kept[k], sorted[i])
    {
      assert kept[k] in Elements(kept);
      var j :| 0 <= j < i && sorted[..i][j] == kept[k];
      assert sorted[j] == kept[k] && Less(sorted[i - 1], sorted[i]);
      if sorted[j] != sorted[i - 1] {
        LessIsTransitive(sorted[j], sorted[i - 1], sorted[i]);
      }
    }
  }

  /** Two lists have the same normal form exactly when they hold the same groups, in whatever order and
      however often. */
  lemma NormalFormIffSameGroups(a: seq<Group>, b: seq<Group>)
    ensures Canonical(a) == Canonical(b) <==> Elements(a) == Elements(b)
  {
    if Elements(a) == Elements(b) {
      IsCanonical(Canonical(a), b);
    }
  }

  // ---------- Logical device ids ----------

  function IndexOf(ids: seq<int>, id: int): (r: nat)
    requires id in ids
    ensures r < |ids| && ids[r] == id
  {
    if ids[0] == id then 0 else 1 + IndexOf(ids[1..], id)
  }

  /** The place of a device among all devices of the slice; none for a device of another slice. */
  method GetLogicalDeviceId(ids: seq<int>, id: int) returns (r: Option<nat>)
    requires Distinct(ids)
    ensures r == if id in ids then Some(IndexOf(ids, id)) else None
  {
    for i := 0 to |ids|
      invariant id !in ids[..i]
    {
      if ids[i] == id {
        return Some(i);
      }
      assert ids[..i + 1] == ids[..i] + [ids[i]];
    }
    assert ids[..|ids|] == ids;
    return None;
  }

  ghost predicate AllIn(devices: seq<int>, ids: seq<int>) {
    forall k :: 0 <= k < |devices| ==> devices[k] in ids
  }

  function Logical(ids: seq<int>, devices: seq<int>): Group
    requires AllIn(devices, ids)
  {
    seq(|devices|, k requires 0 <= k < |devices| => IndexOf(ids, devices[k]))
  }

  // ---------- One table per process ----------

  /** What the process of device `own`, whose group is `devices`, has at row `i` and column `j`. */
  function TableEntry(ids: seq<int>, devices: seq<int>, own: int, i: int, j: int): int
    requires AllIn(devices, ids) && own in ids && 0 <= j < |devices|
  {
    if i == IndexOf(ids, own) then Logical(ids, devices)[j] else 0
  }

  method OwnTable(ids: seq<int>, devices: seq<int>, own: int) returns (table: array2<int>)
    requires Distinct(ids) && AllIn(devices, ids) && own in ids
    ensures fresh(table) && table.Length0 == |ids| && table.Length1 == |devices|
    ensures forall i, j :: 0 <= i < |ids| && 0 <= j < |devices| ==> table[i, j] == TableEntry(ids, devices, own, i, j)
  {
    table := new int[|ids|, |devices|]((i, j) => 0);
    var row := GetLogicalDeviceId(ids, own);
    for k := 0 to |devices|
      invariant forall i, j :: 0 <= i < |ids| && 0 <= j < |devices| ==>
        table[i, j] == if j < k then TableEntry(ids, devices, own, i, j) else 0
    {
      var member := GetLogicalDeviceId(ids, devices[k]);
      table[row.value, k] := member.value;
    }
  }

  ghost predicate HasRows(table: array2<int>, rows: seq<Group>)
    reads table
  {
    && |rows| == table.Length0
    && forall i :: 0 <= i < |rows| ==> |rows[i]| == table.Length1 && forall j :: 0 <= j < table.Length1 ==>
      rows[i][j] == table[i, j]
  }

  /** Reads the summed table row by row and normalizes it. */
  method GroupsOfTable(table: array2<int>) returns (groups: seq<Group>, ghost rows: seq<Group>)
    ensures HasRows(table, rows) && groups == Canonical(rows)
  {
    var result: seq<Group> := [];
    for i := 0 to table.Length0
      invariant |result| == i
      invariant forall k :: 0 <= k < i ==> |result[k]| == table.Length1 && forall j :: 0 <= j < table.Length1 ==>
        result[k][j] == table[k, j]
    {
      var row: Group := [];
      for j := 0 to table.Length1
        invariant |row| == j && forall l :: 0 <= l < j ==> row[l] == table[i, l]
      {
        row := row + [table[i, j]];
      }
      result := result + [row];
    }
    rows := result;
    groups := Normalize(result);
  }

  // ---------- All processes together ----------

  /** The process groups that were made, each the devices of its ranks in order, have `size` devices each
      and partition the devices of the slice. */
  ghost predicate Partition(ids: seq<int>, groups: seq<seq<int>>, size: nat) {
    && size > 0 && Distinct(ids)
    && (forall k :: 0 <= k < |groups| ==> |groups[k]| == size && AllIn(groups[k], ids))
    && Distinct(Concat(groups)) && (forall id :: id in ids ==> id in Concat(groups))
  }

  lemma {:induction false} JoinOfEqual(groups: seq<seq<int>>, size: nat, n: nat, p: nat)
    requires n <= |groups| && size > 0 && forall k :: 0 <= k < |groups| ==> |groups[k]| == size
    ensures |Join(groups, n)| == n * size
    ensures p < n * size ==> p / size < n && Join(groups, n)[p] == groups[p / size][p % size]
  {
    if n == 0 {
    } else {
      JoinOfEqual(groups, size, n - 1, p);
      var before := (n - 1) * size;
      assert n * size == before + size;
      if before <= p < before + size {
        Quotient(p, size, n - 1);
        assert Join(groups, n)[p] == groups[n - 1][p - before];
      }
    }
  }

  lemma Quotient(p: nat, size: nat, q: nat)
    requires size > 0 && q * size <= p < (q + 1) * size
    ensures p / size == q && p % size == p - q * size
  {
    var d := p / size - q;
    assert p == p / size * size + p % size;
    assert d * size == p / size * size - q * size;
    BigProduct(d, size);
  }

  lemma BigProduct(d: int, size: int)
    requires size >= 0
    ensures (d > 0 ==> d * size >= size) && (d < 0 ==> d * size <= -size)
  {
    assert d > 0 ==> (d - 1) * size >= 0;
    assert d < 0 ==> (-1 - d) * size >= 0;
  }

  /** The device of the process with number `p`, groups first to last and ranks in order. */
  ghost function DeviceOf(groups: seq<seq<int>>, p: nat): int
    requires p < |Concat(groups)|
  {
    Concat(groups)[p]
  }

  ghost function GroupOf(groups: seq<seq<int>>, size: nat, p: nat): seq<int>
    requires size > 0 && p / size < |groups|
  {
    groups[p / size]
  }

  lemma ProcessesKnow(ids: seq<int>, groups: seq<seq<int>>, size: nat, p: nat)
    requires Partition(ids, groups, size) && p < |Concat(groups)|
    ensures |Concat(groups)| == |groups| * size && p / size < |groups|
    ensures |GroupOf(groups, size, p)| == size && AllIn(GroupOf(groups, size, p), ids)
    ensures DeviceOf(groups, p) == GroupOf(groups, size, p)[p % size] && DeviceOf(groups, p) in ids
  {
    JoinOfEqual(groups, size, |groups|, p);
  }

  /** The sum over the tables of the first `n` processes. */
  ghost function Summed(ids: seq<int>, groups: seq<seq<int>>, size: nat, n: nat, i: nat, j: nat): int
    requires Partition(ids, groups, size) && n <= |Concat(groups)| && j < size
  {
    if n == 0 then 0
    else
      ProcessesKnow(ids, groups, size, n - 1);
      Summed(ids, groups, size, n - 1, i, j)
        + TableEntry(ids, GroupOf(groups, size, n - 1), DeviceOf(groups, n - 1), i, j)
  }

  /** Row `i` is filled by the process of device `i` and by no other. */
  lemma {:induction false} SumHasOneTerm(ids: seq<int>, groups: seq<seq<int>>, size: nat, n: nat, p: nat, i: nat,
      j: nat)
    requires Partition(ids, groups, size) && n <= |Concat(groups)| && j < size && p < |Concat(groups)|
    requires i < |ids| && DeviceOf(groups, p) == ids[i]
    ensures p / size < |groups| && AllIn(GroupOf(groups, size, p), ids) && |GroupOf(groups, size, p)| == size
    ensures Summed(ids, groups, size, n, i, j) == if p < n then Logical(ids, GroupOf(groups, size, p))[j] else 0
  {
    ProcessesKnow(ids, groups, size, p);
    if n == 0 {
    } else {
      SumHasOneTerm(ids, groups, size, n - 1, p, i, j);
      ProcessesKnow(ids, groups, size, n - 1);
      if n - 1 != p {
        assert DeviceOf(groups, n - 1) != DeviceOf(groups, p);
      }
    }
  }

  /** The summed table that every process receives. */
  ghost predicate IsSum(rows: seq<Group>, ids: seq<int>, groups: seq<seq<int>>, size: nat)
    requires Partition(ids, groups, size)
  {
    && |rows| == |ids|
    && forall i :: 0 <= i < |ids| ==> |rows[i]| == size && forall j :: 0 <= j < size ==>
      rows[i][j] == Summed(ids, groups, size, |Concat(groups)|, i, j)
  }

  function LogicalGroups(ids: seq<int>, groups: seq<seq<int>>): seq<Group>
    requires forall k :: 0 <= k < |groups| ==> AllIn(groups[k], ids)
  {
    seq(|groups|, k requires 0 <= k < |groups| => Logical(ids, groups[k]))
  }

  lemma IndexOfPlace(ids: seq<int>, i: nat)
    requires Distinct(ids) && i < |ids|
    ensures ids[i] in ids && IndexOf(ids, ids[i]) == i
  {
  }

  lemma RowIsGroup(rows: seq<Group>, ids: seq<int>, groups: seq<seq<int>>, size: nat, p: nat)
    requires Partition(ids, groups, size) && IsSum(rows, ids, groups, size) && p < |Concat(groups)|
    ensures p / size < |groups| && DeviceOf(groups, p) in ids
    ensures rows[IndexOf(ids, DeviceOf(groups, p))] == LogicalGroups(ids, groups)[p / size]
  {
    hide Summed, Concat, Distinct, IndexOf;
    ProcessesKnow(ids, groups, size, p);
    var i := IndexOf(ids, DeviceOf(groups, p));
    var own := Logical(ids, GroupOf(groups, size, p));
    assert LogicalGroups(ids, groups)[p / size] == own;
    forall j | 0 <= j < size
      ensures rows[i][j] == own[j]
    {
      SumHasOneTerm(ids, groups, size, |Concat(groups)|, p, i, j);
    }
  }

  /** The first process of a group. */
  lemma FirstOfGroup(ids: seq<int>, groups: seq<seq<int>>, size: nat, k: nat) returns (p: nat)
    requires Partition(ids, groups, size) && k < |groups|
    ensures p == k * size < |Concat(groups)| && p / size == k && |groups[k]| == size
    ensures Concat(groups)[p] == groups[k][0]
  {
    hide Concat, Distinct;
    p := FirstPlace(k, |groups|, size);
    FirstInConcat(groups, size, k, p);
  }

  lemma FirstPlace(k: nat, n: nat, size: nat) returns (p: nat)
    requires k < n && size > 0
    ensures p == k * size && p + size <= n * size && p / size == k && p % size == 0
  {
    p := k * size;
    MoreBlocks(k + 1, n, size);
    assert (k + 1) * size == p + size;
    Quotient(p, size, k);
  }

  lemma MoreBlocks(a: nat, b: nat, size: nat)
    requires a <= b
    ensures a * size <= b * size
  {
    assert b * size - a * size == (b - a) * size;
  }

  lemma FirstInConcat(groups: seq<seq<int>>, size: nat, k: nat, p: nat)
    requires k < |groups| && size > 0 && forall l :: 0 <= l < |groups| ==> |groups[l]| == size
    requires p < |groups| * size && p / size == k && p % size == 0
    ensures p < |Concat(groups)| && Concat(groups)[p] == groups[k][0]
  {
    JoinOfEqual(groups, size, |groups|, p);
  }

  /** The rows of the summed table are the groups of the partition. */
  lemma SumHoldsGroups(rows: seq<Group>, ids: seq<int>, groups: seq<seq<int>>, size: nat)
    requires Partition(ids, groups, size) && IsSum(rows, ids, groups, size)
    ensures Elements(rows) == Elements(LogicalGroups(ids, groups))
  {
    hide Summed, IndexOf, Logical;
    var all := LogicalGroups(ids, groups);
    forall x | x in rows
      ensures x in all
    {
      var i :| 0 <= i < |rows| && rows[i] == x;
      IndexOfPlace(ids, i);
      assert ids[i] in Concat(groups);
      var p :| 0 <= p < |Concat(groups)| && Concat(groups)[p] == ids[i];
      RowIsGroup(rows, ids, groups, size, p);
      assert all[p / size] == x;
    }
    forall x | x in all
      ensures x in rows
    {
      var k :| 0 <= k < |all| && all[k] == x;
      var p := FirstOfGroup(ids, groups, size, k);
      RowIsGroup(rows, ids, groups, size, p);
    }
  }

  // ---------- Counting the groups ----------

  lemma {:induction false} CountDistinct<T>(s: seq<T>)
    requires Distinct(s)
    ensures |Elements(s)| == |s|
  {
    if s == [] {
    } else {
      var front, last := s[..|s| - 1], s[|s| - 1];
      CountDistinct(front);
      assert Elements(s) == Elements(front) + {last} by { assert s == front + [last]; }
    }
  }

  lemma SamePlace(ids: seq<int>, p: nat, q: nat)
    requires Distinct(ids) && p < |ids| && q < |ids| && p != q
    ensures ids[p] != ids[q]
  {
    if p < q {
      assert ids[p] != ids[q];
    } else {
      assert ids[q] != ids[p];
    }
  }

  lemma GroupsAreDistinct(ids: seq<int>, groups: seq<seq<int>>, size: nat, k: nat, l: nat)
    requires Partition(ids, groups, size) && k < l < |groups|
    ensures LogicalGroups(ids, groups)[k] != LogicalGroups(ids, groups)[l]
  {
    hide Concat, Distinct;
    var p := FirstOfGroup(ids, groups, size, k);
    var q := FirstOfGroup(ids, groups, size, l);
    var x, y := groups[k][0], groups[l][0];
    assert p != q by { assert p / size != q / size; }
    SamePlace(Concat(groups), p, q);
    assert LogicalGroups(ids, groups)[k][0] == IndexOf(ids, x) && LogicalGroups(ids, groups)[l][0] == IndexOf(ids, y);
    assert ids[IndexOf(ids, x)] == x && ids[IndexOf(ids, y)] == y;
  }

  lemma SameDevices(ids: seq<int>, groups: seq<seq<int>>, size: nat)
    requires Partition(ids, groups, size)
    ensures Elements(ids) == Elements(Concat(groups))
  {
    forall id | id in Concat(groups)
      ensures id in ids
    {
      var p :| 0 <= p < |Concat(groups)| && Concat(groups)[p] == id;
      ProcessesKnow(ids, groups, size, p);
    }
    assert forall id :: id in ids ==> id in Concat(groups);
    SameElements(ids, Concat(groups));
  }

  /** As many groups as the number of devices divided by the size of a group. */
  lemma PartitionCounts(ids: seq<int>, groups: seq<seq<int>>, size: nat)
    requires Partition(ids, groups, size)
    ensures |ids| == |groups| * size && |Elements(LogicalGroups(ids, groups))| == |groups|
  {
    JoinOfEqual(groups, size, |groups|, 0);
    CountDistinct(ids);
    CountDistinct(Concat(groups));
    SameDevices(ids, groups, size);
    forall k, l | 0 <= k < l < |groups|
      ensures LogicalGroups(ids, groups)[k] != LogicalGroups(ids, groups)[l]
    {
      GroupsAreDistinct(ids, groups, size, k, l);
    }
    CountDistinct(LogicalGroups(ids, groups));
  }

  /** Every process learns exactly the groups of the partition, in the same order, and there are
      world size / group size of them. */
  lemma GatherFindsAllGroups(rows: seq<Group>, ids: seq<int>, groups: seq<seq<int>>, size: nat)
    requires Partition(ids, groups, size) && IsSum(rows, ids, groups, size)
    ensures Canonical(rows) == Canonical(LogicalGroups(ids, groups))
    ensures |ids| % size == 0 && |Canonical(rows)| == |ids| / size
  {
    SumHoldsGroups(rows, ids, groups, size);
    NormalFormIffSameGroups(rows, LogicalGroups(ids, groups));
    PartitionCounts(ids, groups, size);
    Quotient(|ids|, size, |groups|);
    var list := Canonical(rows);
    forall i, j | 0 <= i < j < |list|
      ensures list[i] != list[j]
    {
      LessIsTotal(list[i], list[j]);
    }
    CountDistinct(list);
  }

  /** A group of all devices needs no exchange: its trivial list is what the exchange would find. */
  lemma WholeSliceAgrees(rows: seq<Group>, ids: seq<int>, group: seq<int>)
    requires Partition(ids, [group], |ids|) && IsSum(rows, ids, [group], |ids|)
    ensures Canonical(rows) == [Logical(ids, group)]
  {
    GatherFindsAllGroups(rows, ids, [group], |ids|);
    var all := LogicalGroups(ids, [group]);
    assert all == [Logical(ids, group)];
    IsCanonical([Logical(ids, group)], all);
  }
}
