/**
  The Beaver Falls front-end: an origin-selection store driven by a
  per-block-group click counter, without any filter.

  `FallsState` is the value of the module-level variables and `Clicked` /
  `ResultRecorded` say what the click handler and a query completion do to
  them; `FallsApp` holds the same variables as fields and is proved against
  those functions. The hit test is an input (`hit`: the Block_Group under
  the pointer, None when there is none); whether the hovered block group is
  one of the origin layer's features is an input of `PointerMove`.
*/
module Falls {
  import opened Wrappers
  import opened Trips
  import opened Classify
  import opened Queries

  datatype FallsState = FallsState(
    selectedOrigins: set<BlockGroupId>,
    tripData: TripData,
    clickCount: map<BlockGroupId, int>)

  /** What a click leads to: nothing, a deselection, or a selection with its trip query. */
  datatype ClickOutcome =
    | NoFeature                                    // no block group under the pointer
    | Deselected(id: BlockGroupId)
    | Selected(id: BlockGroupId, query: string)    // the where-clause of the trip query to issue

  /** What `updateDisplay` does. */
  datatype Display =
    | Unchanged                                    // no origin selected: graphics cleared, side panel left as it was
    | Rendered(combined: map<BlockGroupId, real>, destinationColors: map<BlockGroupId, Color>, panelShown: bool)

  function Init(): FallsState
  {
    FallsState({}, map[], map[])
  }

  /** The recorded click count of an id, 0 when it has none. */
  function CountOf(clickCount: map<BlockGroupId, int>, id: BlockGroupId): int
  {
    if id in clickCount then clickCount[id] else 0
  }

  /** The click handler's answer: a second counted click deselects. */
  function ClickOutcomeOf(s: FallsState, hit: Option<BlockGroupId>): ClickOutcome
  {
    match hit
    case None => NoFeature
    case Some(id) =>
      if CountOf(s.clickCount, id) + 1 > 1 then Deselected(id)
      else Selected(id, FallsOriginWhere(id))
  }

  /**
    The click handler's effect: the counter is incremented; past 1 the id
    leaves the selection, the counter and the trip data, otherwise it joins
    the selection.
  */
  function Clicked(s: FallsState, hit: Option<BlockGroupId>): FallsState
  {
    match hit
    case None => s
    case Some(id) =>
      var count := CountOf(s.clickCount, id) + 1;
      if count > 1 then
        FallsState(s.selectedOrigins - {id}, s.tripData - {id}, s.clickCount - {id})
      else
        FallsState(s.selectedOrigins + {id}, s.tripData, s.clickCount[id := count])
  }

  /**
    A trip query for `origin` completes with `rows`: zero rows change nothing;
    otherwise the origin's table is rebuilt from the rows, selected or not.
  */
  function ResultRecorded(s: FallsState, origin: BlockGroupId, rows: seq<Row>): FallsState
  {
    if |rows| == 0 then s else s.(tripData := s.tripData[origin := TripMapOf(rows)])
  }

  /** The side panel's subtotal lines: one per selected origin that has a trip table. */
  ghost function PanelTotals(s: FallsState): (p: map<BlockGroupId, real>)
    ensures p.Keys == s.selectedOrigins * s.tripData.Keys
    ensures forall o | o in p :: p[o] == Subtotal(s.tripData, o)
  {
    map o | o in s.selectedOrigins && o in s.tripData :: Sum(s.tripData[o])
  }

  /**
    What every reachable state satisfies: the counter holds exactly the
    selected ids, each with count 1, and no trip table is empty.
  */
  ghost predicate Valid(s: FallsState)
  {
    && s.clickCount.Keys == s.selectedOrigins
    && (forall id | id in s.clickCount :: s.clickCount[id] == 1)
    && (forall o | o in s.tripData :: s.tripData[o] != map[])
  }

  // ---------------------------------------------------------------------------
  // Properties of the handlers
  // ---------------------------------------------------------------------------

  lemma InitValid()
    ensures Valid(Init())
  {
  }

  /** Clicks and query completions keep the state valid. */
  lemma HandlersPreserveValid(s: FallsState, hit: Option<BlockGroupId>, origin: BlockGroupId, rows: seq<Row>)
    requires Valid(s)
    ensures Valid(Clicked(s, hit))
    ensures Valid(ResultRecorded(s, origin, rows))
  {
    if |rows| > 0 {
      TripMapOfNonEmpty(rows);
    }
  }

  /**
    In a valid state a click on `id` toggles it: a selected id leaves the
    selection, the counter and the trip data; an unselected one joins the
    selection with count 1 (its table as it was) and its trip query is
    issued. Every other id's membership, count and table are unchanged.
  */
  lemma ClickToggles(s: FallsState, id: BlockGroupId)
    requires Valid(s)
    ensures var r := Clicked(s, Some(id));
      && (id in r.selectedOrigins <==> id !in s.selectedOrigins)
      && (id in s.selectedOrigins ==>
            id !in r.tripData && id !in r.clickCount && ClickOutcomeOf(s, Some(id)) == Deselected(id))
      && (id !in s.selectedOrigins ==>
            r.tripData == s.tripData && r.clickCount[id] == 1
            && ClickOutcomeOf(s, Some(id)) == Selected(id, FallsOriginWhere(id)))
      && (forall o | o != id :: (o in r.selectedOrigins <==> o in s.selectedOrigins))
      && (forall o | o != id :: CountOf(r.clickCount, o) == CountOf(s.clickCount, o))
      && (forall o | o != id :: (o in r.tripData <==> o in s.tripData))
      && (forall o | o != id && o in s.tripData :: r.tripData[o] == s.tripData[o])
  {
  }

  /** A click on no block group changes nothing. */
  lemma ClickWithoutFeature(s: FallsState)
    ensures Clicked(s, None) == s && ClickOutcomeOf(s, None) == NoFeature
  {
  }

  /** n clicks on the same block group, one after the other. */
  ghost function ClickedTimes(s: FallsState, id: BlockGroupId, n: nat): FallsState
  {
    if n == 0 then s else Clicked(ClickedTimes(s, id, n - 1), Some(id))
  }

  /** From a valid state, after n clicks on an id its membership has flipped n times. */
  lemma {:induction false} ClickParity(s: FallsState, id: BlockGroupId, n: nat)
    requires Valid(s)
    ensures Valid(ClickedTimes(s, id, n))
    ensures id in ClickedTimes(s, id, n).selectedOrigins <==> (id in s.selectedOrigins) != (n % 2 == 1)
  {
    if n > 0 {
      ClickParity(s, id, n - 1);
      var p := ClickedTimes(s, id, n - 1);
      HandlersPreserveValid(p, Some(id), id, []);
      ClickToggles(p, id);
    }
  }

  /** Starting from the empty page, an id is selected exactly after an odd number of clicks on it. */
  lemma ClickParityFromStart(id: BlockGroupId, n: nat)
    ensures id in ClickedTimes(Init(), id, n).selectedOrigins <==> n % 2 == 1
  {
    ClickParity(Init(), id, n);
  }

  /**
    Recording a result with zero rows changes nothing; otherwise the origin's
    table becomes the rows' table, other tables are kept, and the selection
    and the counter are never touched.
  */
  lemma RecordResult(s: FallsState, origin: BlockGroupId, rows: seq<Row>)
    ensures |rows| == 0 ==> ResultRecorded(s, origin, rows) == s
    ensures |rows| > 0 ==> var r := ResultRecorded(s, origin, rows);
      && r.tripData.Keys == s.tripData.Keys + {origin}
      && r.tripData[origin] == TripMapOf(rows)
      && (forall o | o in s.tripData && o != origin :: r.tripData[o] == s.tripData[o])
      && r.selectedOrigins == s.selectedOrigins && r.clickCount == s.clickCount
  {
  }

  /**
    There is no membership check on completion: a late result for an origin
    clicked on and off again re-creates its table, so trip tables can exist
    for origins that are not selected.
  */
  lemma LateResultResurrects(s: FallsState, id: BlockGroupId, rows: seq<Row>)
    requires Valid(s) && id !in s.selectedOrigins && |rows| > 0
    ensures var r := ResultRecorded(Clicked(Clicked(s, Some(id)), Some(id)), id, rows);
      id !in r.selectedOrigins && id in r.tripData && Valid(r)
  {
    ClickToggles(s, id);
    HandlersPreserveValid(s, Some(id), id, rows);
    var s1 := Clicked(s, Some(id));
    ClickToggles(s1, id);
    HandlersPreserveValid(s1, Some(id), id, rows);
    HandlersPreserveValid(Clicked(s1, Some(id)), None, id, rows);
  }

  /**
    Without late results, the side panel lists a subtotal for every origin
    with a table, and those subtotals add up to the combined destination total.
  */
  lemma PanelTotalsMatchCombined(s: FallsState)
    requires s.tripData.Keys <= s.selectedOrigins
    ensures PanelTotals(s) == Subtotals(s.tripData)
    ensures Sum(PanelTotals(s)) == Sum(Combined(s.tripData))
  {
    SubtotalsMatchCombined(s.tripData);
  }

  /**
    Trip tables stay within the selection under every click, and under every
    completion except one for an origin that is not selected; the empty page
    starts with none.
  */
  lemma TablesWithinSelectionPreserved(s: FallsState, hit: Option<BlockGroupId>, origin: BlockGroupId, rows: seq<Row>)
    requires s.tripData.Keys <= s.selectedOrigins
    ensures Init().tripData.Keys <= Init().selectedOrigins
    ensures Clicked(s, hit).tripData.Keys <= Clicked(s, hit).selectedOrigins
    ensures origin in s.selectedOrigins ==>
      ResultRecorded(s, origin, rows).tripData.Keys <= ResultRecorded(s, origin, rows).selectedOrigins
  {
  }

  // ---------------------------------------------------------------------------
  // The page state, updated in place by the handlers
  // ---------------------------------------------------------------------------

  class FallsApp {
    var selectedOrigins: set<BlockGroupId>
    var tripData: TripData
    var clickCount: map<BlockGroupId, int>

    function State(): FallsState
      reads this
    {
      FallsState(selectedOrigins, tripData, clickCount)
    }

    constructor ()
      ensures State() == Init()
    {
      selectedOrigins := {};
      tripData := map[];
      clickCount := map[];
    }

    method Click(hit: Option<BlockGroupId>) returns (outcome: ClickOutcome)
      modifies this
      ensures outcome == ClickOutcomeOf(old(State()), hit)
      ensures State() == Clicked(old(State()), hit)
    {
      if hit.None? {
        return NoFeature;
      }
      var clickedId := hit.value;
      clickCount := clickCount[clickedId := (if clickedId in clickCount then clickCount[clickedId] else 0) + 1];
      if clickCount[clickedId] > 1 {
        selectedOrigins := selectedOrigins - {clickedId};
        clickCount := clickCount - {clickedId};
        tripData := tripData - {clickedId};
        return Deselected(clickedId);
      }
      selectedOrigins := selectedOrigins + {clickedId};
      outcome := Selected(clickedId, FallsOriginWhere(clickedId));
    }

    /** The trip query for `origin` completed: its rows are written one by one into a fresh table. */
    method QueryCompleted(origin: BlockGroupId, rows: seq<Row>)
      modifies this
      ensures State() == ResultRecorded(old(State()), origin, rows)
    {
      if |rows| == 0 {
        return;
      }
      var table := BuildTripMap(rows);
      tripData := tripData[origin := table];
    }

    /**
      `updateDisplay`: with no origin selected it returns right after clearing
      the graphics, leaving the side panel as it was; otherwise the combined
      destination table is computed, each destination is coloured by the
      if-chain, and the side panel is shown (its hide branch cannot be reached).
    */
    method UpdateDisplay() returns (display: Display)
      ensures selectedOrigins == {} <==> display == Unchanged
      ensures display.Rendered? ==> display.combined == Combined(tripData) && display.panelShown
      ensures display.Rendered? ==> display.destinationColors.Keys == display.combined.Keys
      ensures display.Rendered? ==> forall d | d in display.destinationColors ::
        display.destinationColors[d] == FallsColor(display.combined[d])
    {
      if selectedOrigins == {} {
        return Unchanged;
      }
      var combined := CombineTrips(tripData);
      var colors := map d | d in combined :: FallsColor(combined[d]);
      var panelShown := true;
      if selectedOrigins == {} {
        assert false;
        panelShown := false;
      }
      display := Rendered(combined, colors, panelShown);
    }

    /**
      The pointer-move handler: with a selection and a block group under the
      pointer that is not an origin-layer feature, the total over all origins
      is shown, even when it is 0.
    */
    method PointerMove(hovered: Option<BlockGroupId>, hoveredIsOrigin: bool) returns (tooltip: Tooltip)
      ensures selectedOrigins == {} || hovered == None || hoveredIsOrigin ==> tooltip == Hidden
      ensures selectedOrigins != {} && hovered.Some? && !hoveredIsOrigin ==>
        tooltip == Shown(Lookup(Combined(tripData), hovered.value))
    {
      if selectedOrigins == {} {
        return Hidden;
      }
      if hovered.None? {
        return Hidden;
      }
      if hoveredIsOrigin {
        return Hidden;
      }
      var total := HoverTotal(tripData, hovered.value);
      tooltip := Shown(total);
    }
  }
}
