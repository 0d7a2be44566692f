/**
  Trip tables shared by both map front-ends: the rows an origin-destination
  query returns, the per-origin destination -> trips table built from them,
  and the aggregation of all origins' tables into one destination -> total
  trips table (`combinedTrips`) and into a hover total.

  Trip counts are JavaScript numbers in the front-ends; here they are exact
  `real`s, so floating-point rounding of the sums is not modelled.
*/
module Trips {

  /** A census block group identifier (GEOID / Block_Group attribute). */
  type BlockGroupId = string

  /** Destination block group -> trips, for one origin. */
  type TripMap = map<BlockGroupId, real>

  /** Origin block group -> its trip table (`tripData`). */
  type TripData = map<BlockGroupId, TripMap>

  /** One record of an origin-destination query: the destination id and its trip count. */
  datatype Row = Row(destId: BlockGroupId, trips: real)

  /** What the hover tooltip shows: nothing, or a total number of trips. */
  datatype Tooltip = Hidden | Shown(total: real)

  /** The value stored under k, or 0 when k is absent (a missing entry counts as no trips). */
  function Lookup(m: map<BlockGroupId, real>, k: BlockGroupId): real
  {
    if k in m then m[k] else 0.0
  }

  // ---------------------------------------------------------------------------
  // Building a trip table from query rows
  // ---------------------------------------------------------------------------

  /** Destination ids appearing in the rows. */
  ghost function DestIds(rows: seq<Row>): set<BlockGroupId>
  {
    set i | 0 <= i < |rows| :: rows[i].destId
  }

  /** Row i is the last row carrying its destination id. */
  ghost predicate LastFor(rows: seq<Row>, i: int)
    requires 0 <= i < |rows|
  {
    forall j | i < j < |rows| :: rows[j].destId != rows[i].destId
  }

  /**
    The table a query completion stores: the rows written one after the other
    into an empty object, so a later row overwrites an earlier one with the
    same destination id. Its keys are exactly the rows' destination ids, and
    each key holds the trips of the last row carrying it.
  */
  function TripMapOf(rows: seq<Row>): (m: TripMap)
    ensures m.Keys == DestIds(rows)
    ensures forall i | 0 <= i < |rows| && LastFor(rows, i) :: m[rows[i].destId] == rows[i].trips
    decreases |rows|
  {
    if rows == [] then map[]
    else
      var m0 := TripMapOf(rows[..|rows| - 1]);
      TripMapOfStep(rows, m0);
      m0[rows[|rows| - 1].destId := rows[|rows| - 1].trips]
  }

  /** Writing the last row into the table built from the other rows keeps TripMapOf's contract. */
  lemma TripMapOfStep(rows: seq<Row>, m0: TripMap)
    requires |rows| > 0
    requires m0.Keys == DestIds(rows[..|rows| - 1])
    requires forall i | 0 <= i < |rows| - 1 && LastFor(rows[..|rows| - 1], i) :: m0[rows[i].destId] == rows[i].trips
    ensures var m := m0[rows[|rows| - 1].destId := rows[|rows| - 1].trips];
      && m.Keys == DestIds(rows)
      && forall i | 0 <= i < |rows| && LastFor(rows, i) :: m[rows[i].destId] == rows[i].trips
  {
    var last := rows[|rows| - 1];
    var init := rows[..|rows| - 1];
    assert DestIds(rows) == DestIds(init) + {last.destId} by {
      forall d | d in DestIds(rows) ensures d in DestIds(init) + {last.destId} {
        var i :| 0 <= i < |rows| && rows[i].destId == d;
        if i < |init| { assert init[i].destId == d; }
      }
      forall d | d in DestIds(init) ensures d in DestIds(rows) {
        var i :| 0 <= i < |init| && init[i].destId == d;
        assert rows[i].destId == d;
      }
    }
    forall i | 0 <= i < |init| && LastFor(rows, i) ensures LastFor(init, i) {
      forall j | i < j < |init| ensures init[j].destId != init[i].destId {
        assert init[j] == rows[j];
      }
    }
  }

  /** Writing row i into the table of the rows before it gives the table of the rows up to i. */
  lemma TripMapOfPrefix(rows: seq<Row>, i: nat)
    requires i < |rows|
    ensures TripMapOf(rows[..i + 1]) == TripMapOf(rows[..i])[rows[i].destId := rows[i].trips]
  {
    assert rows[..i + 1][..i] == rows[..i];
  }

  /**
    The completion callback's loop: starting from an empty table, each row
    writes its trips under its destination id.
  */
  method BuildTripMap(rows: seq<Row>) returns (table: TripMap)
    ensures table == TripMapOf(rows)
  {
    table := map[];
    for i := 0 to |rows|
      invariant table == TripMapOf(rows[..i])
    {
      TripMapOfPrefix(rows, i);
      table := table[rows[i].destId := rows[i].trips];
    }
    assert rows[..|rows|] == rows;
  }

  /** A non-empty query result yields a non-empty trip table. */
  lemma TripMapOfNonEmpty(rows: seq<Row>)
    requires |rows| > 0
    ensures TripMapOf(rows) != map[]
  {
    assert rows[0].destId in TripMapOf(rows);
  }

  /** Every entry of the table comes from some row of the query result. */
  lemma TripMapOfFromRows(rows: seq<Row>, d: BlockGroupId)
    requires d in TripMapOf(rows)
    ensures exists i | 0 <= i < |rows| :: rows[i] == Row(d, TripMapOf(rows)[d])
  {
    var i :| 0 <= i < |rows| && rows[i].destId == d;
    var k := i;
    while k < |rows| - 1 && !LastFor(rows, k)
      invariant i <= k < |rows| && rows[k].destId == d
      decreases |rows| - k
    {
      var j :| k < j < |rows| && rows[j].destId == rows[k].destId;
      k := j;
    }
    assert LastFor(rows, k);
  }

  // ---------------------------------------------------------------------------
  // Sums of trip tables
  // ---------------------------------------------------------------------------

  /** The sum of all values of a map, as a reduction starting from 0. */
  ghost function Sum(m: map<BlockGroupId, real>): real
    decreases m.Keys
  {
    if m == map[] then 0.0
    else
      var k :| k in m;
      m[k] + Sum(m - {k})
  }

  /** Summing may start from any key: the sum does not depend on an iteration order. */
  lemma {:induction false} SumRemove(m: map<BlockGroupId, real>, k: BlockGroupId)
    requires k in m
    ensures Sum(m) == m[k] + Sum(m - {k})
    decreases m.Keys
  {
    var k' :| k' in m && Sum(m) == m[k'] + Sum(m - {k'});
    if k' != k {
      SumRemove(m - {k'}, k);
      SumRemove(m - {k}, k');
      assert m - {k'} - {k} == m - {k} - {k'};
    }
  }

  /** Writing x under k replaces k's contribution to the sum by x. */
  lemma SumUpdate(m: map<BlockGroupId, real>, k: BlockGroupId, x: real)
    ensures Sum(m[k := x]) == x + Sum(m - {k})
  {
    SumRemove(m[k := x], k);
    assert m[k := x] - {k} == m - {k};
  }

  /** A map whose values are all 0 sums to 0. */
  lemma {:induction false} SumZero(m: map<BlockGroupId, real>)
    requires forall k | k in m :: m[k] == 0.0
    ensures Sum(m) == 0.0
    decreases m.Keys
  {
    if m != map[] {
      var k :| k in m;
      SumRemove(m, k);
      SumZero(m - {k});
    }
  }

  /** Non-negative trip counts give a non-negative sum. */
  lemma {:induction false} SumNonNegative(m: map<BlockGroupId, real>)
    requires forall k | k in m :: m[k] >= 0.0
    ensures Sum(m) >= 0.0
    decreases m.Keys
  {
    if m != map[] {
      var k :| k in m;
      SumRemove(m, k);
      SumNonNegative(m - {k});
    }
  }

  // ---------------------------------------------------------------------------
  // Aggregation over origins
  // ---------------------------------------------------------------------------

  /** Every destination that some origin's table mentions. */
  ghost function Destinations(td: TripData): set<BlockGroupId>
  {
    set o, d | o in td && d in td[o] :: d
  }

  /** For destination d: origin -> that origin's trips to d (0 if it has none). */
  ghost function Column(td: TripData, d: BlockGroupId): map<BlockGroupId, real>
  {
    map o | o in td :: Lookup(td[o], d)
  }

  /**
    The reference definition of `combinedTrips`: one entry per destination that
    any origin mentions, holding the sum over all origins of their trips to it.
  */
  ghost function Combined(td: TripData): map<BlockGroupId, real>
  {
    map d | d in Destinations(td) :: Sum(Column(td, d))
  }

  /** Pointwise addition of two trip tables over the union of their keys. */
  ghost function MergeAdd(a: map<BlockGroupId, real>, b: map<BlockGroupId, real>): (r: map<BlockGroupId, real>)
    ensures r.Keys == a.Keys + b.Keys
  {
    map d | d in a.Keys + b.Keys :: Lookup(a, d) + Lookup(b, d)
  }

  /** A destination no origin mentions has a column of zeros. */
  lemma ColumnOutsideDestinations(td: TripData, d: BlockGroupId)
    requires d !in Destinations(td)
    ensures Sum(Column(td, d)) == 0.0
  {
    var c := Column(td, d);
    forall o | o in c ensures c[o] == 0.0 {
      assert d !in td[o];
    }
    SumZero(c);
  }

  /**
    For every destination d, including those absent from the combined map,
    its combined total (0 when absent) is the sum over all origins of that
    origin's trips to d (0 when it has none).
  */
  lemma CombinedLookup(td: TripData, d: BlockGroupId)
    ensures Lookup(Combined(td), d) == Sum(Column(td, d))
  {
    if d !in Destinations(td) {
      ColumnOutsideDestinations(td, d);
    }
  }

  /** The destinations after adding an origin are the old ones plus the new origin's. */
  lemma DestinationsAddOrigin(td: TripData, o: BlockGroupId, m: TripMap)
    requires o !in td
    ensures Destinations(td[o := m]) == Destinations(td) + m.Keys
  {
    var td' := td[o := m];
    forall d | d in Destinations(td') ensures d in Destinations(td) + m.Keys {
      var o', d' :| o' in td' && d' in td'[o'] && d' == d;
      if o' != o { assert d in td[o']; }
    }
    forall d | d in Destinations(td) ensures d in Destinations(td') {
      var o', d' :| o' in td && d' in td[o'] && d' == d;
      assert o' in td' && d in td'[o'];
    }
    forall d | d in m ensures d in Destinations(td') {
      assert o in td' && d in td'[o];
    }
  }

  /** Adding an origin adds its trips to d to the column sum of d. */
  lemma ColumnAddOrigin(td: TripData, o: BlockGroupId, m: TripMap, d: BlockGroupId)
    requires o !in td
    ensures Sum(Column(td[o := m], d)) == Sum(Column(td, d)) + Lookup(m, d)
  {
    assert Column(td[o := m], d) == Column(td, d)[o := Lookup(m, d)];
    SumUpdate(Column(td, d), o, Lookup(m, d));
    assert Column(td, d) - {o} == Column(td, d);
  }

  /**
    Adding one origin's table to the trip data adds it pointwise to the
    combined table: aggregating origins one at a time (in any order) is the
    same as aggregating them in one pass.
  */
  lemma CombinedAddOrigin(td: TripData, o: BlockGroupId, m: TripMap)
    requires o !in td
    ensures Combined(td[o := m]) == MergeAdd(Combined(td), m)
  {
    var td' := td[o := m];
    DestinationsAddOrigin(td, o, m);
    forall d | d in Destinations(td')
      ensures Combined(td')[d] == MergeAdd(Combined(td), m)[d]
    {
      ColumnAddOrigin(td, o, m, d);
      CombinedLookup(td, d);
    }
  }

  /** Adding v to the value under k (0 if absent) adds v to the sum. */
  lemma SumBump(m: map<BlockGroupId, real>, k: BlockGroupId, v: real)
    ensures Sum(m[k := Lookup(m, k) + v]) == Sum(m) + v
  {
    SumUpdate(m, k, Lookup(m, k) + v);
    if k in m {
      SumRemove(m, k);
    } else {
      assert m - {k} == m;
    }
  }

  /** Taking key k out of b takes b[k] off the merged value at k. */
  lemma MergeAddStep(a: map<BlockGroupId, real>, b: map<BlockGroupId, real>, k: BlockGroupId)
    requires k in b
    ensures var r' := MergeAdd(a, b - {k});
      MergeAdd(a, b) == r'[k := Lookup(r', k) + b[k]]
  {
  }

  /** Pointwise addition adds the sums. */
  lemma {:induction false} SumMergeAdd(a: map<BlockGroupId, real>, b: map<BlockGroupId, real>)
    ensures Sum(MergeAdd(a, b)) == Sum(a) + Sum(b)
    decreases b.Keys
  {
    if b == map[] {
      assert MergeAdd(a, b) == a;
    } else {
      var k :| k in b;
      SumMergeAdd(a, b - {k});
      SumRemove(b, k);
      MergeAddStep(a, b, k);
      SumBump(MergeAdd(a, b - {k}), k, b[k]);
    }
  }

  /** origin -> the sum of its trips, for every origin with a table. */
  ghost function Subtotals(td: TripData): map<BlockGroupId, real>
  {
    map o | o in td :: Sum(td[o])
  }

  /** Adding an origin adds its subtotal to the sum of subtotals. */
  lemma SubtotalsAddOrigin(td: TripData, o: BlockGroupId, m: TripMap)
    requires o !in td
    ensures Sum(Subtotals(td[o := m])) == Sum(Subtotals(td)) + Sum(m)
  {
    assert Subtotals(td[o := m]) == Subtotals(td)[o := Sum(m)];
    SumUpdate(Subtotals(td), o, Sum(m));
    assert Subtotals(td) - {o} == Subtotals(td);
  }

  /**
    Conservation of trips: the per-origin subtotals add up to the same total
    as the combined destination table.
  */
  lemma {:induction false} SubtotalsMatchCombined(td: TripData)
    ensures Sum(Subtotals(td)) == Sum(Combined(td))
    decreases td.Keys
  {
    if td == map[] {
      assert Combined(td) == map[];
      assert Subtotals(td) == map[];
    } else {
      var o :| o in td;
      var rest := td - {o};
      assert td == rest[o := td[o]];
      SubtotalsMatchCombined(rest);
      SubtotalsAddOrigin(rest, o, td[o]);
      CombinedAddOrigin(rest, o, td[o]);
      SumMergeAdd(Combined(rest), td[o]);
    }
  }

  /** An origin's displayed outbound total: the sum of its trips, 0 while it has no table. */
  ghost function Subtotal(td: TripData, origin: BlockGroupId): (r: real)
    ensures origin !in td ==> r == 0.0
    ensures origin in td && (forall d | d in td[origin] :: td[origin][d] >= 0.0) ==> r >= 0.0
  {
    if origin in td then
      assert (forall d | d in td[origin] :: td[origin][d] >= 0.0) ==> Sum(td[origin]) >= 0.0 by {
        if forall d | d in td[origin] :: td[origin][d] >= 0.0 {
          SumNonNegative(td[origin]);
        }
      }
      Sum(td[origin])
    else 0.0
  }

  /** origin -> displayed subtotal, for each origin of a given set. */
  ghost function SubtotalsOver(td: TripData, origins: set<BlockGroupId>): map<BlockGroupId, real>
  {
    map o | o in origins :: Subtotal(td, o)
  }

  /**
    When every origin with a table is listed, the listed subtotals (0 for the
    origins still without one) add up to the total of the combined table.
  */
  lemma {:induction false} SubtotalsOverMatchCombined(td: TripData, origins: set<BlockGroupId>)
    requires td.Keys <= origins
    ensures Sum(SubtotalsOver(td, origins)) == Sum(Combined(td))
    decreases origins
  {
    if origins - td.Keys == {} {
      forall x | x in origins ensures x in td.Keys {
        assert x !in origins - td.Keys;
      }
      assert origins == td.Keys;
      assert SubtotalsOver(td, origins) == Subtotals(td);
      SubtotalsMatchCombined(td);
    } else {
      var x :| x in origins - td.Keys;
      SubtotalsOverMatchCombined(td, origins - {x});
      assert SubtotalsOver(td, origins) == SubtotalsOver(td, origins - {x})[x := 0.0];
      SumUpdate(SubtotalsOver(td, origins - {x}), x, 0.0);
      assert SubtotalsOver(td, origins - {x}) - {x} == SubtotalsOver(td, origins - {x});
    }
  }

  // ---------------------------------------------------------------------------
  // The two accumulation loops of `updateDisplay`
  // ---------------------------------------------------------------------------

  /**
    The inner accumulation of `combinedTrips` for one origin: each
    (destId, trips) entry of its table is added to the running total under
    destId, a missing total counting as 0.
  */
  method AccumulateOrigin(combined: map<BlockGroupId, real>, originData: TripMap)
    returns (result: map<BlockGroupId, real>)
    ensures result == MergeAdd(combined, originData)
  {
    result := combined;
    var dests := originData.Keys;
    while dests != {}
      invariant dests <= originData.Keys
      invariant result.Keys == combined.Keys + (originData.Keys - dests)
      invariant forall k | k in result ::
        result[k] == Lookup(combined, k) + (if k in originData && k !in dests then originData[k] else 0.0)
      decreases dests
    {
      var d :| d in dests;
      result := result[d := (if d in result then result[d] else 0.0) + originData[d]];
      dests := dests - {d};
    }
  }

  /**
    `combinedTrips`: every origin's table accumulated into one
    destination -> total table. Origins and destinations are visited in an
    arbitrary order; the result is the reference aggregation all the same.
  */
  method CombineTrips(tripData: TripData) returns (combined: map<BlockGroupId, real>)
    ensures combined == Combined(tripData)
  {
    combined := map[];
    var todo := tripData.Keys;
    ghost var done: TripData := map[];
    while todo != {}
      invariant todo <= tripData.Keys
      invariant done.Keys == tripData.Keys - todo
      invariant forall o | o in done :: done[o] == tripData[o]
      invariant combined == Combined(done)
      decreases todo
    {
      var o :| o in todo;
      combined := AccumulateOrigin(combined, tripData[o]);
      CombinedAddOrigin(done, o, tripData[o]);
      done := done[o := tripData[o]];
      todo := todo - {o};
    }
    assert done == tripData;
  }

  /**
    The hover total for block group h: each origin's trips to h (0 when it
    has none) added up. It equals the combined total for h, or 0 when no
    origin has trips to h.
  */
  method HoverTotal(tripData: TripData, h: BlockGroupId) returns (total: real)
    ensures total == Lookup(Combined(tripData), h)
    ensures total == Sum(Column(tripData, h))
  {
    total := 0.0;
    var todo := tripData.Keys;
    ghost var done: TripData := map[];
    while todo != {}
      invariant todo <= tripData.Keys
      invariant done.Keys == tripData.Keys - todo
      invariant forall o | o in done :: done[o] == tripData[o]
      invariant total == Lookup(Combined(done), h)
      decreases todo
    {
      var o :| o in todo;
      total := total + (if h in tripData[o] then tripData[o][h] else 0.0);
      CombinedAddOrigin(done, o, tripData[o]);
      done := done[o := tripData[o]];
      todo := todo - {o};
    }
    assert done == tripData;
    CombinedLookup(tripData, h);
  }

  /** Merging into an empty table gives the table itself. */
  lemma MergeAddEmpty(a: map<BlockGroupId, real>)
    ensures MergeAdd(map[], a) == a
  {
  }

  /** The pointwise addition step of the worked example below. */
  lemma ExampleMerge()
    ensures MergeAdd(map["150700002" := 10.0, "150700003" := 5.0], map["150700002" := 7.0])
         == map["150700002" := 17.0, "150700003" := 5.0]
  {
    var a: map<BlockGroupId, real> := map["150700002" := 10.0, "150700003" := 5.0];
    var b: map<BlockGroupId, real> := map["150700002" := 7.0];
    assert "150700002" != "150700003" by {
      assert "150700002"[8] != "150700003"[8];
    }
    assert MergeAdd(a, b).Keys == {"150700002", "150700003"};
  }

  /** The worked example of the aggregation: two origins sharing one destination. */
  lemma CombinedExample()
    ensures Combined(map["150700001" := map["150700002" := 10.0, "150700003" := 5.0],
                         "150700004" := map["150700002" := 7.0]])
         == map["150700002" := 17.0, "150700003" := 5.0]
  {
    var a: TripMap := map["150700002" := 10.0, "150700003" := 5.0];
    var b: TripMap := map["150700002" := 7.0];
    var empty: TripData := map[];
    var one: TripData := map["150700001" := a];
    assert Combined(empty) == map[] by {
      assert Destinations(empty) == {};
    }
    CombinedAddOrigin(empty, "150700001", a);
    assert empty["150700001" := a] == one;
    MergeAddEmpty(a);
    assert "150700004" !in one by {
      assert "150700004"[8] != "150700001"[8];
    }
    CombinedAddOrigin(one, "150700004", b);
    ExampleMerge();
  }
}
