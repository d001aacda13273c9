/**
 * `SpatialJoiner.summary` of `join.py`: voter counts are summed per building
 * (rows grouped on building id and point), then every building whose point
 * lies within some ballot-box isochrone adds its count once to the "within
 * any" total. The point-in-polygon test is a parameter `within`.
 */
module SpatialJoin {

  /** A voter-address row: its building, its point and the count column. */
  datatype VoterRow<P> = VoterRow(buildingId: string, point: P, count: int)

  /** A row of `building_addresses`: one group key and the summed count. */
  datatype Building<P> = Building(buildingId: string, point: P, count: int)

  /** The output rows, `within_any = [True, False]` with their counts. */
  datatype SummaryRow = SummaryRow(withinAny: bool, countVoters: int)

  /** `voter_addresses[count_voters_col].sum()`. */
  function Total<P>(rows: seq<VoterRow<P>>): int
    decreases |rows|
  {
    if rows == [] then 0 else Total(rows[..|rows| - 1]) + rows[|rows| - 1].count
  }

  function BuildingsTotal<P>(bs: seq<Building<P>>): int
    decreases |bs|
  {
    if bs == [] then 0 else bs[0].count + BuildingsTotal(bs[1..])
  }

  predicate SameKey<P(==)>(b: Building<P>, r: VoterRow<P>) {
    b.buildingId == r.buildingId && b.point == r.point
  }

  /** Adds one row to the groups: to its group's sum if the key is present, as a new last group otherwise. */
  function AddRow<P(==)>(bs: seq<Building<P>>, r: VoterRow<P>): (res: seq<Building<P>>)
    ensures BuildingsTotal(res) == BuildingsTotal(bs) + r.count
    decreases |bs|
  {
    if bs == [] then [Building(r.buildingId, r.point, r.count)]
    else if SameKey(bs[0], r) then
      var res := [bs[0].(count := bs[0].count + r.count)] + bs[1..];
      assert res[1..] == bs[1..];
      res
    else
      var res := [bs[0]] + AddRow(bs[1..], r);
      assert res[1..] == AddRow(bs[1..], r);
      res
  }

  /** `groupby(["building_id", "geometry"])[count].sum()`, groups in order of first appearance. */
  function GroupByBuilding<P(==)>(rows: seq<VoterRow<P>>): (bs: seq<Building<P>>)
    ensures BuildingsTotal(bs) == Total(rows)
    decreases |rows|
  {
    if rows == [] then [] else AddRow(GroupByBuilding(rows[..|rows| - 1]), rows[|rows| - 1])
  }

  /** `point.within(polygon)` for some ballot-box isochrone. */
  predicate WithinAny<P, Q>(within: (P, Q) -> bool, point: P, isochrones: seq<Q>) {
    exists j :: 0 <= j < |isochrones| && within(point, isochrones[j])
  }

  /** The summed count of the buildings within some isochrone, each building counted once. */
  function CoveredTotal<P, Q>(within: (P, Q) -> bool, bs: seq<Building<P>>, isochrones: seq<Q>): int
    decreases |bs|
  {
    if bs == [] then 0
    else
      var last := bs[|bs| - 1];
      CoveredTotal(within, bs[..|bs| - 1], isochrones) + (if WithinAny(within, last.point, isochrones) then last.count else 0)
  }

  /** The summed count of the voter rows within some isochrone. */
  function CoveredRows<P, Q>(within: (P, Q) -> bool, rows: seq<VoterRow<P>>, isochrones: seq<Q>): int
    decreases |rows|
  {
    if rows == [] then 0
    else
      var last := rows[|rows| - 1];
      CoveredRows(within, rows[..|rows| - 1], isochrones) + (if WithinAny(within, last.point, isochrones) then last.count else 0)
  }

  /** The two output rows for a covered total and an overall total. */
  function Rollup(covered: int, total: int): (rollup: seq<SummaryRow>)
    ensures |rollup| == 2 && rollup[0].withinAny && !rollup[1].withinAny
    ensures rollup[0].countVoters + rollup[1].countVoters == total
  {
    [SummaryRow(true, covered), SummaryRow(false, total - covered)]
  }

  /**
   * `summary(count_voters_col)`: the nested loop over buildings and
   * isochrones, leaving the inner loop at the first isochrone that contains
   * the building.
   */
  method Summary<P(==), Q>(voters: seq<VoterRow<P>>, isochrones: seq<Q>, within: (P, Q) -> bool) returns (rollup: seq<SummaryRow>)
    ensures rollup == Rollup(CoveredTotal(within, GroupByBuilding(voters), isochrones), Total(voters))
  {
    var withinAnyTrue := 0;
    var total := Total(voters);
    var buildings := GroupByBuilding(voters);
    var i := 0;
    while i < |buildings|
      invariant 0 <= i <= |buildings|
      invariant withinAnyTrue == CoveredTotal(within, buildings[..i], isochrones)
    {
      var building := buildings[i];
      ghost var before := withinAnyTrue;
      ghost var found := false;
      var j := 0;
      while j < |isochrones|
        invariant 0 <= j <= |isochrones|
        invariant withinAnyTrue == before + (if found then building.count else 0)
        invariant found ==> WithinAny(within, building.point, isochrones)
        invariant !found ==> forall k :: 0 <= k < j ==> !within(building.point, isochrones[k])
      {
        if within(building.point, isochrones[j]) {
          withinAnyTrue := withinAnyTrue + building.count;
          found := true;
          break;
        }
        j := j + 1;
      }
      assert found <==> WithinAny(within, building.point, isochrones);
      CoveredStep(within, buildings, i, isochrones);
      i := i + 1;
    }
    assert buildings[..i] == buildings;
    var withinAnyFalse := total - withinAnyTrue;
    rollup := [SummaryRow(true, withinAnyTrue), SummaryRow(false, withinAnyFalse)];
  }

  lemma CoveredStep<P, Q>(within: (P, Q) -> bool, bs: seq<Building<P>>, i: nat, isochrones: seq<Q>)
    requires i < |bs|
    ensures CoveredTotal(within, bs[..i + 1], isochrones) ==
            CoveredTotal(within, bs[..i], isochrones) + (if WithinAny(within, bs[i].point, isochrones) then bs[i].count else 0)
  {
    assert bs[..i + 1][..i] == bs[..i];
  }

  lemma {:induction false} CoveredConcat<P, Q>(within: (P, Q) -> bool, a: seq<Building<P>>, b: seq<Building<P>>, isochrones: seq<Q>)
    ensures CoveredTotal(within, a + b, isochrones) == CoveredTotal(within, a, isochrones) + CoveredTotal(within, b, isochrones)
    decreases |b|
  {
    if b == [] {
      assert a + b == a;
    } else {
      var init := b[..|b| - 1];
      CoveredConcat(within, a, init, isochrones);
      assert (a + b)[..|a + b| - 1] == a + init;
    }
  }

  lemma {:induction false} AddRowCovered<P, Q>(within: (P, Q) -> bool, bs: seq<Building<P>>, r: VoterRow<P>, isochrones: seq<Q>)
    ensures CoveredTotal(within, AddRow(bs, r), isochrones) ==
            CoveredTotal(within, bs, isochrones) + (if WithinAny(within, r.point, isochrones) then r.count else 0)
    decreases |bs|
  {
    var one := Building(r.buildingId, r.point, r.count);
    assert [one][..0] == [];
    if bs != [] {
      assert bs == [bs[0]] + bs[1..];
      CoveredConcat(within, [bs[0]], bs[1..], isochrones);
      assert [bs[0]][..0] == [];
      if SameKey(bs[0], r) {
        var first := bs[0].(count := bs[0].count + r.count);
        assert [first][..0] == [];
        CoveredConcat(within, [first], bs[1..], isochrones);
      } else {
        AddRowCovered(within, bs[1..], r, isochrones);
        CoveredConcat(within, [bs[0]], AddRow(bs[1..], r), isochrones);
      }
    }
  }

  /**
   * Grouping by building and point loses no voter and counts none twice:
   * the covered total over buildings is the covered total over the voter
   * rows themselves.
   */
  lemma {:induction false} GroupingPreservesCoveredCount<P, Q>(within: (P, Q) -> bool, rows: seq<VoterRow<P>>, isochrones: seq<Q>)
    ensures CoveredTotal(within, GroupByBuilding(rows), isochrones) == CoveredRows(within, rows, isochrones)
    decreases |rows|
  {
    if rows != [] {
      var init := rows[..|rows| - 1];
      GroupingPreservesCoveredCount(within, init, isochrones);
      AddRowCovered(within, GroupByBuilding(init), rows[|rows| - 1], isochrones);
    }
  }

  /** The sum of the counts of the rows with one group key. */
  function KeyTotal<P(==)>(rows: seq<VoterRow<P>>, buildingId: string, point: P): int
    decreases |rows|
  {
    if rows == [] then 0
    else
      var last := rows[|rows| - 1];
      KeyTotal(rows[..|rows| - 1], buildingId, point) + (if last.buildingId == buildingId && last.point == point then last.count else 0)
  }

  /** The group keys of the buildings. */
  ghost function KeySet<P(!new)>(bs: seq<Building<P>>): set<(string, P)> {
    set i | 0 <= i < |bs| :: (bs[i].buildingId, bs[i].point)
  }

  /** The group keys occurring among the voter rows. */
  ghost function RowKeySet<P(!new)>(rows: seq<VoterRow<P>>): set<(string, P)> {
    set j | 0 <= j < |rows| :: (rows[j].buildingId, rows[j].point)
  }

  /** No two groups share a key. */
  predicate DistinctKeys<P(==)>(bs: seq<Building<P>>) {
    forall i, j :: 0 <= i < j < |bs| ==> bs[i].buildingId != bs[j].buildingId || bs[i].point != bs[j].point
  }

  /** Each group holds the summed count of the voter rows with its key. */
  predicate CountsMatch<P(==)>(bs: seq<Building<P>>, rows: seq<VoterRow<P>>) {
    forall i :: 0 <= i < |bs| ==> bs[i].count == KeyTotal(rows, bs[i].buildingId, bs[i].point)
  }

  /** The groups of `rows`: one per key that occurs, each holding its key's summed count. */
  ghost predicate GroupsOf<P(!new)>(bs: seq<Building<P>>, rows: seq<VoterRow<P>>) {
    DistinctKeys(bs) && CountsMatch(bs, rows) && KeySet(bs) == RowKeySet(rows)
  }

  lemma {:induction false} AbsentKeyTotal<P(!new)>(rows: seq<VoterRow<P>>, buildingId: string, point: P)
    requires (buildingId, point) !in RowKeySet(rows)
    ensures KeyTotal(rows, buildingId, point) == 0
    decreases |rows|
  {
    if rows != [] {
      var init := rows[..|rows| - 1];
      assert RowKeySet(init) <= RowKeySet(rows) by {
        forall k | k in RowKeySet(init)
          ensures k in RowKeySet(rows)
        {
          var j :| 0 <= j < |init| && (init[j].buildingId, init[j].point) == k;
          assert rows[j] == init[j];
        }
      }
      assert (rows[|rows| - 1].buildingId, rows[|rows| - 1].point) in RowKeySet(rows);
      AbsentKeyTotal(init, buildingId, point);
    }
  }

  lemma RowKeySetSnoc<P(!new)>(rows: seq<VoterRow<P>>, r: VoterRow<P>)
    ensures RowKeySet(rows + [r]) == RowKeySet(rows) + {(r.buildingId, r.point)}
  {
    var rows' := rows + [r];
    forall k | k in RowKeySet(rows')
      ensures k in RowKeySet(rows) + {(r.buildingId, r.point)}
    {
      var j :| 0 <= j < |rows'| && (rows'[j].buildingId, rows'[j].point) == k;
      if j < |rows| {
        assert rows'[j] == rows[j];
      }
    }
    forall k | k in RowKeySet(rows)
      ensures k in RowKeySet(rows')
    {
      var j :| 0 <= j < |rows| && (rows[j].buildingId, rows[j].point) == k;
      assert rows'[j] == rows[j];
    }
    assert rows'[|rows|] == r;
  }

  /** A row whose key has a group is added to that group. */
  lemma {:induction false} AddRowAt<P(!new)>(bs: seq<Building<P>>, r: VoterRow<P>, i: nat)
    requires DistinctKeys(bs) && i < |bs| && SameKey(bs[i], r)
    ensures AddRow(bs, r) == bs[i := bs[i].(count := bs[i].count + r.count)]
    decreases |bs|
  {
    if i > 0 {
      assert !SameKey(bs[0], r);
      assert DistinctKeys(bs[1..]) by {
        forall u, v | 0 <= u < v < |bs| - 1
          ensures bs[1..][u].buildingId != bs[1..][v].buildingId || bs[1..][u].point != bs[1..][v].point
        {
          assert bs[1..][u] == bs[u + 1] && bs[1..][v] == bs[v + 1];
        }
      }
      AddRowAt(bs[1..], r, i - 1);
      assert [bs[0]] + bs[1..][i - 1 := bs[i].(count := bs[i].count + r.count)] == bs[i := bs[i].(count := bs[i].count + r.count)];
    }
  }

  /** A row whose key has no group opens a new one at the end. */
  lemma {:induction false} AddRowNew<P(!new)>(bs: seq<Building<P>>, r: VoterRow<P>)
    requires forall i :: 0 <= i < |bs| ==> !SameKey(bs[i], r)
    ensures AddRow(bs, r) == bs + [Building(r.buildingId, r.point, r.count)]
    decreases |bs|
  {
    if bs != [] {
      assert !SameKey(bs[0], r);
      assert forall i :: 0 <= i < |bs| - 1 ==> bs[1..][i] == bs[i + 1];
      AddRowNew(bs[1..], r);
      assert [bs[0]] + (bs[1..] + [Building(r.buildingId, r.point, r.count)]) == bs + [Building(r.buildingId, r.point, r.count)];
    }
  }

  /** Adding a row to the group that has its key keeps the groups right. */
  lemma AddRowToGroup<P(!new)>(bs: seq<Building<P>>, rows: seq<VoterRow<P>>, r: VoterRow<P>, i: nat)
    requires GroupsOf(bs, rows) && i < |bs| && SameKey(bs[i], r)
    ensures GroupsOf(AddRow(bs, r), rows + [r])
  {
    var rows' := rows + [r];
    assert rows'[..|rows'| - 1] == rows && rows'[|rows'| - 1] == r;
    AddRowAt(bs, r, i);
    var res := AddRow(bs, r);
    forall k | 0 <= k < |res|
      ensures res[k].count == KeyTotal(rows', res[k].buildingId, res[k].point)
    {
      if k != i {
        assert res[k] == bs[k];
      }
    }
    assert KeySet(res) == KeySet(bs) by {
      forall k | k in KeySet(res)
        ensures k in KeySet(bs)
      {
        var u :| 0 <= u < |res| && (res[u].buildingId, res[u].point) == k;
        assert (bs[u].buildingId, bs[u].point) == k;
      }
      forall k | k in KeySet(bs)
        ensures k in KeySet(res)
      {
        var u :| 0 <= u < |bs| && (bs[u].buildingId, bs[u].point) == k;
        assert (res[u].buildingId, res[u].point) == k;
      }
    }
    RowKeySetSnoc(rows, r);
    assert (r.buildingId, r.point) in KeySet(bs);
  }

  lemma KeySetSnoc<P(!new)>(bs: seq<Building<P>>, b: Building<P>)
    ensures KeySet(bs + [b]) == KeySet(bs) + {(b.buildingId, b.point)}
  {
    var res := bs + [b];
    forall k | k in KeySet(res)
      ensures k in KeySet(bs) + {(b.buildingId, b.point)}
    {
      var u :| 0 <= u < |res| && (res[u].buildingId, res[u].point) == k;
      if u < |bs| {
        assert res[u] == bs[u];
      }
    }
    forall k | k in KeySet(bs)
      ensures k in KeySet(res)
    {
      var u :| 0 <= u < |bs| && (bs[u].buildingId, bs[u].point) == k;
      assert res[u] == bs[u];
    }
    assert res[|bs|] == b;
  }

  /** A key other than the new row's keeps its summed count. */
  lemma KeyTotalSnoc<P>(rows: seq<VoterRow<P>>, r: VoterRow<P>, buildingId: string, point: P)
    ensures KeyTotal(rows + [r], buildingId, point) ==
            KeyTotal(rows, buildingId, point) + (if r.buildingId == buildingId && r.point == point then r.count else 0)
  {
    assert (rows + [r])[..|rows|] == rows;
  }

  /** A row whose key has no group opens a new, last group holding its count. */
  lemma NewGroupForRow<P(!new)>(bs: seq<Building<P>>, rows: seq<VoterRow<P>>, r: VoterRow<P>)
    requires GroupsOf(bs, rows) && (r.buildingId, r.point) !in KeySet(bs)
    ensures GroupsOf(AddRow(bs, r), rows + [r])
  {
    assert forall i :: 0 <= i < |bs| ==> (bs[i].buildingId, bs[i].point) in KeySet(bs);
    AddRowNew(bs, r);
    var one := Building(r.buildingId, r.point, r.count);
    var res := bs + [one];
    KeySetSnoc(bs, one);
    RowKeySetSnoc(rows, r);
    assert DistinctKeys(res);
    forall k | 0 <= k < |res|
      ensures res[k].count == KeyTotal(rows + [r], res[k].buildingId, res[k].point)
    {
      KeyTotalSnoc(rows, r, res[k].buildingId, res[k].point);
      if k < |bs| {
        assert res[k] == bs[k];
      } else {
        AbsentKeyTotal(rows, r.buildingId, r.point);
      }
    }
  }

  lemma AddRowGroups<P(!new)>(bs: seq<Building<P>>, rows: seq<VoterRow<P>>, r: VoterRow<P>)
    requires GroupsOf(bs, rows)
    ensures GroupsOf(AddRow(bs, r), rows + [r])
  {
    if (r.buildingId, r.point) in KeySet(bs) {
      var i :| 0 <= i < |bs| && (bs[i].buildingId, bs[i].point) == (r.buildingId, r.point);
      AddRowToGroup(bs, rows, r, i);
    } else {
      NewGroupForRow(bs, rows, r);
    }
  }

  /**
   * `building_addresses` holds exactly one row per (building id, point) key
   * occurring among the voter rows, and that row's count is the sum of the
   * counts of the voter rows with its key.
   */
  lemma {:induction false} GroupByBuildingGroups<P(!new)>(rows: seq<VoterRow<P>>)
    ensures GroupsOf(GroupByBuilding(rows), rows)
    decreases |rows|
  {
    if rows != [] {
      var init := rows[..|rows| - 1];
      GroupByBuildingGroups(init);
      AddRowGroups(GroupByBuilding(init), init, rows[|rows| - 1]);
      assert init + [rows[|rows| - 1]] == rows;
    }
  }

  /** With no isochrones nothing is within any of them. */
  lemma {:induction false} NoIsochronesCoverNothing<P, Q>(within: (P, Q) -> bool, bs: seq<Building<P>>)
    ensures CoveredTotal(within, bs, []) == 0
    decreases |bs|
  {
    if bs != [] {
      NoIsochronesCoverNothing(within, bs[..|bs| - 1]);
    }
  }

  /** With non-negative counts the covered total lies between 0 and the total of all buildings. */
  lemma {:induction false} CoveredBounds<P, Q>(within: (P, Q) -> bool, bs: seq<Building<P>>, isochrones: seq<Q>)
    requires forall i :: 0 <= i < |bs| ==> bs[i].count >= 0
    ensures 0 <= CoveredTotal(within, bs, isochrones) <= BuildingsTotal(bs)
    decreases |bs|
  {
    if bs != [] {
      var init, last := bs[..|bs| - 1], bs[|bs| - 1];
      CoveredBounds(within, init, isochrones);
      assert bs == init + [last];
      BuildingsTotalConcat(init, [last]);
    }
  }

  lemma {:induction false} BuildingsTotalConcat<P>(a: seq<Building<P>>, b: seq<Building<P>>)
    ensures BuildingsTotal(a + b) == BuildingsTotal(a) + BuildingsTotal(b)
    decreases |a|
  {
    if a == [] {
      assert a + b == b;
    } else {
      BuildingsTotalConcat(a[1..], b);
      assert (a + b)[1..] == a[1..] + b;
    }
  }

  /**
   * The covered total depends only on which isochrones there are: a building
   * inside several of them, or inside one listed twice, is counted once.
   */
  lemma {:induction false} CoveredDependsOnlyOnIsochroneSet<P, Q>(within: (P, Q) -> bool, bs: seq<Building<P>>, a: seq<Q>, b: seq<Q>)
    requires forall q :: q in a <==> q in b
    ensures CoveredTotal(within, bs, a) == CoveredTotal(within, bs, b)
    decreases |bs|
  {
    if bs != [] {
      var last := bs[|bs| - 1];
      CoveredDependsOnlyOnIsochroneSet(within, bs[..|bs| - 1], a, b);
      if WithinAny(within, last.point, a) {
        var j :| 0 <= j < |a| && within(last.point, a[j]);
        assert a[j] in b;
        var k :| 0 <= k < |b| && b[k] == a[j];
      }
      if WithinAny(within, last.point, b) {
        var j :| 0 <= j < |b| && within(last.point, b[j]);
        assert b[j] in a;
        var k :| 0 <= k < |a| && a[k] == b[j];
      }
    }
  }

  /**
   * The rollup of `Summary`: the "within any" count is the summed count of
   * the voter rows inside some isochrone, and the two counts add up to the
   * voter total; with non-negative counts both are non-negative.
   */
  lemma SummaryMeaning<P, Q>(voters: seq<VoterRow<P>>, isochrones: seq<Q>, within: (P, Q) -> bool)
    ensures var rollup := Rollup(CoveredTotal(within, GroupByBuilding(voters), isochrones), Total(voters));
            rollup[0].countVoters == CoveredRows(within, voters, isochrones) &&
            rollup[0].countVoters + rollup[1].countVoters == Total(voters) &&
            (isochrones == [] ==> rollup[0].countVoters == 0 && rollup[1].countVoters == Total(voters))
  {
    GroupingPreservesCoveredCount(within, voters, isochrones);
    NoIsochronesCoverNothing(within, GroupByBuilding(voters));
  }

  /** With non-negative counts, `0 <= within_any_true <= total`. */
  lemma {:induction false} SummaryBounds<P(!new), Q>(voters: seq<VoterRow<P>>, isochrones: seq<Q>, within: (P, Q) -> bool)
    requires forall i :: 0 <= i < |voters| ==> voters[i].count >= 0
    ensures var covered := CoveredTotal(within, GroupByBuilding(voters), isochrones);
            0 <= covered <= Total(voters)
  {
    var bs := GroupByBuilding(voters);
    GroupByBuildingGroups(voters);
    forall i | 0 <= i < |bs|
      ensures bs[i].count >= 0
    {
      KeyTotalNonNegative(voters, bs[i].buildingId, bs[i].point);
    }
    CoveredBounds(within, bs, isochrones);
  }

  lemma {:induction false} KeyTotalNonNegative<P>(rows: seq<VoterRow<P>>, buildingId: string, point: P)
    requires forall i :: 0 <= i < |rows| ==> rows[i].count >= 0
    ensures KeyTotal(rows, buildingId, point) >= 0
    decreases |rows|
  {
    if rows != [] {
      KeyTotalNonNegative(rows[..|rows| - 1], buildingId, point);
    }
  }
}
