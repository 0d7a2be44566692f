/**
  The Beaver County front-end: a day / time-period filter gating an
  origin-selection store.

  `CountyState` is the value of the module-level variables; the functions
  over it (`DayChanged`, `TimeChanged`, `LayerFilterUpdated`, `Clicked`,
  `ResultRecorded`) say what each event handler does to them, and the lemmas
  state what the handlers promise. `CountyApp` holds the same variables as
  fields; its methods update them in place and are proved against those
  functions.

  The map hit test is an input (`hit`: the GEOID under the pointer, None
  when no block group is there); a query completion is a separate call
  (`QueryCompleted`) that the caller may make at any point.
*/
module County {
  import opened Wrappers
  import opened Trips
  import opened Classify
  import opened Queries

  /** The OD table layer in use: its URL and definition expression. */
  datatype ODTable = ODTable(url: string, definitionExpression: string)

  datatype CountyState = CountyState(
    selectedOrigins: set<BlockGroupId>,
    tripData: TripData,
    clickCount: map<BlockGroupId, int>,
    selectedDay: string,
    selectedTime: string,
    odTable: ODTable)

  /** What a click leads to: an alert, nothing, a deselection, or a selection with its trip query. */
  datatype ClickOutcome =
    | DayMissing                                   // "Please select a Day of Week first"
    | TimeMissing                                  // "Please select a Time Period"
    | NoFeature                                    // no block group under the pointer
    | NoGeoid                                      // the feature has an empty GEOID
    | Deselected(id: BlockGroupId)
    | Selected(id: BlockGroupId, query: string)    // the where-clause of the trip query to issue

  /** What `updateDisplay` renders. */
  datatype Display =
    | PanelHidden                                  // no origin selected: the side panel is hidden
    | Rendered(combined: map<BlockGroupId, real>, destinationColors: map<BlockGroupId, Color>)

  /** The start-up state: nothing selected, no filters, day 1's OD table with `1=1`. */
  function Init(): CountyState
  {
    CountyState({}, map[], map[], "", "", ODTable(ODTableBase + "1", "1=1"))
  }

  /**
    `updateLayerFilter`: without a day nothing happens; otherwise the OD table
    is replaced by the day's table filtered by the time period, and the
    selection store is wiped.
  */
  function LayerFilterUpdated(s: CountyState): CountyState
  {
    if s.selectedDay == "" then s
    else match ODTableURL(s.selectedDay)
      case None => s
      case Some(url) =>
        s.(odTable := ODTable(url, LayerWhere(s.selectedTime)),
           selectedOrigins := {}, tripData := map[], clickCount := map[])
  }

  /** The day select's change handler. */
  function DayChanged(s: CountyState, day: string): CountyState
  {
    LayerFilterUpdated(s.(selectedDay := day, selectedTime := if day == "" then "" else s.selectedTime))
  }

  /** The time select's change handler. */
  function TimeChanged(s: CountyState, time: string): CountyState
  {
    LayerFilterUpdated(s.(selectedTime := time))
  }

  /** The click handler's answer. */
  function ClickOutcomeOf(s: CountyState, hit: Option<BlockGroupId>): ClickOutcome
  {
    if s.selectedDay == "" then DayMissing
    else if s.selectedTime == "" then TimeMissing
    else match hit
      case None => NoFeature
      case Some(id) =>
        if id == "" then NoGeoid
        else if id in s.selectedOrigins then Deselected(id)
        else Selected(id, OriginWhere(id, s.selectedTime))
  }

  /** The click handler's effect on the state. */
  function Clicked(s: CountyState, hit: Option<BlockGroupId>): CountyState
  {
    match ClickOutcomeOf(s, hit)
    case Deselected(id) => s.(selectedOrigins := s.selectedOrigins - {id}, tripData := s.tripData - {id})
    case Selected(id, _) => s.(selectedOrigins := s.selectedOrigins + {id})
    case _ => s
  }

  /**
    A trip query for `origin` completes with `rows`: zero rows change
    nothing; otherwise the origin's table is rebuilt from the rows. There is
    no check that the origin is still selected.
  */
  function ResultRecorded(s: CountyState, origin: BlockGroupId, rows: seq<Row>): CountyState
  {
    if |rows| == 0 then s else s.(tripData := s.tripData[origin := TripMapOf(rows)])
  }

  /** The side panel: each selected origin with its outbound total. */
  ghost function PanelTotals(s: CountyState): (p: map<BlockGroupId, real>)
    ensures p.Keys == s.selectedOrigins
    ensures forall o | o in p && o !in s.tripData :: p[o] == 0.0
    ensures forall o | o in p && o in s.tripData :: p[o] == Sum(s.tripData[o])
  {
    SubtotalsOver(s.tripData, s.selectedOrigins)
  }

  /**
    What every reachable state satisfies: `clickCount` is never filled in
    (only ever reset), and no origin's table is empty, because a zero-row
    result is not stored.
  */
  ghost predicate Valid(s: CountyState)
  {
    && s.clickCount == map[]
    && forall o | o in s.tripData :: s.tripData[o] != map[]
  }

  // ---------------------------------------------------------------------------
  // Properties of the handlers
  // ---------------------------------------------------------------------------

  lemma InitValid()
    ensures Valid(Init())
  {
  }

  /** Every handler keeps the state valid. */
  lemma HandlersPreserveValid(s: CountyState, day: string, time: string, hit: Option<BlockGroupId>,
                              origin: BlockGroupId, rows: seq<Row>)
    requires Valid(s)
    ensures Valid(DayChanged(s, day))
    ensures Valid(TimeChanged(s, time))
    ensures Valid(Clicked(s, hit))
    ensures Valid(ResultRecorded(s, origin, rows))
  {
    if |rows| > 0 {
      TripMapOfNonEmpty(rows);
    }
  }

  /** A click is refused, with an alert and no change, unless both a day and a time period are set. */
  lemma ClickNeedsDayAndTime(s: CountyState, hit: Option<BlockGroupId>)
    requires s.selectedDay == "" || s.selectedTime == ""
    ensures Clicked(s, hit) == s
    ensures ClickOutcomeOf(s, hit) == if s.selectedDay == "" then DayMissing else TimeMissing
  {
  }

  /** A click on no block group, or on one without a GEOID, changes nothing. */
  lemma ClickWithoutId(s: CountyState, hit: Option<BlockGroupId>)
    requires hit == None || hit == Some("")
    ensures Clicked(s, hit) == s
  {
  }

  /**
    With both filters set, a click on block group `id` toggles it: a selected
    id is removed together with its trip table, an unselected one is added
    (its table stays as it was) and its trip query is issued; every other
    id's membership and table, and the filters, are unchanged.
  */
  lemma ClickToggles(s: CountyState, id: BlockGroupId)
    requires s.selectedDay != "" && s.selectedTime != "" && id != ""
    ensures var r := Clicked(s, Some(id));
      && (id in r.selectedOrigins <==> id !in s.selectedOrigins)
      && (id in s.selectedOrigins ==> id !in r.tripData && ClickOutcomeOf(s, Some(id)) == Deselected(id))
      && (id !in s.selectedOrigins ==>
            r.tripData == s.tripData && ClickOutcomeOf(s, Some(id)) == Selected(id, OriginWhere(id, s.selectedTime)))
      && (forall o | o != id :: (o in r.selectedOrigins <==> o in s.selectedOrigins))
      && (forall o | o != id :: (o in r.tripData <==> o in s.tripData))
      && (forall o | o != id && o in s.tripData :: r.tripData[o] == s.tripData[o])
      && r.selectedDay == s.selectedDay && r.selectedTime == s.selectedTime
      && r.clickCount == s.clickCount && r.odTable == s.odTable
  {
  }

  /** n clicks on the same block group, one after the other. */
  ghost function ClickedTimes(s: CountyState, id: BlockGroupId, n: nat): CountyState
  {
    if n == 0 then s else Clicked(ClickedTimes(s, id, n - 1), Some(id))
  }

  /** Clicks change neither filter, nor the OD table, nor the (never filled) click counter. */
  lemma {:induction false} ClickedTimesKeepsFilters(s: CountyState, id: BlockGroupId, n: nat)
    ensures ClickedTimes(s, id, n).selectedDay == s.selectedDay
    ensures ClickedTimes(s, id, n).selectedTime == s.selectedTime
    ensures ClickedTimes(s, id, n).odTable == s.odTable
    ensures ClickedTimes(s, id, n).clickCount == s.clickCount
  {
    if n > 0 {
      ClickedTimesKeepsFilters(s, id, n - 1);
    }
  }

  /** With both filters set, after n clicks on an id its membership has flipped n times. */
  lemma {:induction false} ClickParity(s: CountyState, id: BlockGroupId, n: nat)
    requires s.selectedDay != "" && s.selectedTime != "" && id != ""
    ensures id in ClickedTimes(s, id, n).selectedOrigins <==> (id in s.selectedOrigins) != (n % 2 == 1)
  {
    if n > 0 {
      ClickParity(s, id, n - 1);
      ClickedTimesKeepsFilters(s, id, n - 1);
      ClickToggles(ClickedTimes(s, id, n - 1), id);
    }
  }

  /**
    Recording a result with zero rows changes nothing (a selected origin stays
    without a table); otherwise the origin's table becomes the rows' table
    and nothing else changes.
  */
  lemma RecordResult(s: CountyState, origin: BlockGroupId, rows: seq<Row>)
    ensures |rows| == 0 ==> ResultRecorded(s, origin, rows) == s
    ensures |rows| > 0 ==> var r := ResultRecorded(s, origin, rows);
      && r.tripData.Keys == s.tripData.Keys + {origin}
      && r.tripData[origin] == TripMapOf(rows)
      && (forall o | o in s.tripData && o != origin :: r.tripData[o] == s.tripData[o])
      && r.selectedOrigins == s.selectedOrigins
      && r == s.(tripData := r.tripData)
  {
  }

  /**
    A non-empty day change wipes the selection store and switches to the
    day's OD table; the time period is kept.
  */
  lemma DayChangeClears(s: CountyState, day: string)
    requires day != ""
    ensures var r := DayChanged(s, day);
      && r.selectedOrigins == {} && r.tripData == map[] && r.clickCount == map[]
      && r.selectedDay == day && r.selectedTime == s.selectedTime
      && r.odTable == ODTable(ODTableBase + day, LayerWhere(s.selectedTime))
  {
  }

  /**
    Clearing the day also clears the time period, but the layer filter update
    returns before the wipe: selections, trip tables and the OD table survive.
  */
  lemma DayClearedKeepsSelection(s: CountyState)
    ensures var r := DayChanged(s, "");
      && r.selectedDay == "" && r.selectedTime == ""
      && r.selectedOrigins == s.selectedOrigins && r.tripData == s.tripData
      && r.clickCount == s.clickCount && r.odTable == s.odTable
  {
  }

  /** Any time change under a selected day wipes the selection store and refilters the OD table. */
  lemma TimeChangeClears(s: CountyState, time: string)
    requires s.selectedDay != ""
    ensures var r := TimeChanged(s, time);
      && r.selectedOrigins == {} && r.tripData == map[] && r.clickCount == map[]
      && r.selectedDay == s.selectedDay && r.selectedTime == time
      && r.odTable == ODTable(ODTableBase + s.selectedDay, LayerWhere(time))
  {
  }

  /** `updateLayerFilter` never reaches its "Invalid day selected" exit: a set day always has a URL. */
  lemma LayerFilterURLAlwaysFound(s: CountyState)
    requires s.selectedDay != ""
    ensures ODTableURL(s.selectedDay).Some?
    ensures DayOfURL(LayerFilterUpdated(s).odTable.url) == Some(s.selectedDay)
  {
    ODTableURLRoundTrip(s.selectedDay);
  }

  /**
    Completions are not checked against the selection: a late result for an
    origin clicked on and off again re-creates its table although the origin
    is no longer selected.
  */
  lemma LateResultResurrects(s: CountyState, id: BlockGroupId, rows: seq<Row>)
    requires s.selectedDay != "" && s.selectedTime != "" && id != ""
    requires id !in s.selectedOrigins && |rows| > 0
    ensures var r := ResultRecorded(Clicked(Clicked(s, Some(id)), Some(id)), id, rows);
      id !in r.selectedOrigins && id in r.tripData
  {
  }

  /**
    Without late results, the trip tables belong to selected origins, and the
    side panel's subtotals add up to the combined destination total.
  */
  lemma PanelTotalsMatchCombined(s: CountyState)
    requires s.tripData.Keys <= s.selectedOrigins
    ensures Sum(PanelTotals(s)) == Sum(Combined(s.tripData))
  {
    SubtotalsOverMatchCombined(s.tripData, s.selectedOrigins);
  }

  /** Trip tables stay within the selection under every handler except a result for an unselected origin. */
  lemma TablesWithinSelectionPreserved(s: CountyState, day: string, time: string, hit: Option<BlockGroupId>,
                                       origin: BlockGroupId, rows: seq<Row>)
    requires s.tripData.Keys <= s.selectedOrigins
    ensures DayChanged(s, day).tripData.Keys <= DayChanged(s, day).selectedOrigins
    ensures TimeChanged(s, time).tripData.Keys <= TimeChanged(s, time).selectedOrigins
    ensures Clicked(s, hit).tripData.Keys <= Clicked(s, hit).selectedOrigins
    ensures origin in s.selectedOrigins ==>
      ResultRecorded(s, origin, rows).tripData.Keys <= ResultRecorded(s, origin, rows).selectedOrigins
  {
    LayerFilterKeepsTablesWithinSelection(s.(selectedDay := day, selectedTime := if day == "" then "" else s.selectedTime));
    LayerFilterKeepsTablesWithinSelection(s.(selectedTime := time));
  }

  /** The layer filter update either changes nothing or wipes both the selection and the tables. */
  lemma LayerFilterKeepsTablesWithinSelection(s: CountyState)
    requires s.tripData.Keys <= s.selectedOrigins
    ensures LayerFilterUpdated(s).tripData.Keys <= LayerFilterUpdated(s).selectedOrigins
  {
    var r := LayerFilterUpdated(s);
    assert r.tripData == s.tripData || r.tripData == map[];
  }

  // ---------------------------------------------------------------------------
  // The page state, updated in place by the handlers
  // ---------------------------------------------------------------------------

  class CountyApp {
    var selectedOrigins: set<BlockGroupId>
    var tripData: TripData
    var clickCount: map<BlockGroupId, int>
    var selectedDay: string
    var selectedTime: string
    var odTable: ODTable

    function State(): CountyState
      reads this
    {
      CountyState(selectedOrigins, tripData, clickCount, selectedDay, selectedTime, odTable)
    }

    constructor ()
      ensures State() == Init()
    {
      selectedOrigins := {};
      tripData := map[];
      clickCount := map[];
      selectedDay := "";
      selectedTime := "";
      odTable := ODTable(ODTableBase + "1", "1=1");
    }

    method UpdateLayerFilter()
      modifies this
      ensures State() == LayerFilterUpdated(old(State()))
    {
      if selectedDay == "" {
        return;
      }
      var newUrl := ODTableURL(selectedDay);
      if newUrl.None? {
        return;
      }
      odTable := ODTable(newUrl.value, LayerWhere(selectedTime));
      selectedOrigins := {};
      tripData := map[];
      clickCount := map[];
    }

    method DaySelectChanged(value: string)
      modifies this
      ensures State() == DayChanged(old(State()), value)
    {
      selectedDay := value;
      if selectedDay == "" {
        selectedTime := "";
      }
      UpdateLayerFilter();
    }

    method TimeSelectChanged(value: string)
      modifies this
      ensures State() == TimeChanged(old(State()), value)
    {
      selectedTime := value;
      UpdateLayerFilter();
    }

    method Click(hit: Option<BlockGroupId>) returns (outcome: ClickOutcome)
      modifies this
      ensures outcome == ClickOutcomeOf(old(State()), hit)
      ensures State() == Clicked(old(State()), hit)
    {
      if selectedDay == "" {
        return DayMissing;
      }
      if selectedTime == "" {
        return TimeMissing;
      }
      if hit.None? {
        return NoFeature;
      }
      var clickedId := hit.value;
      if clickedId == "" {
        return NoGeoid;
      }
      if clickedId in selectedOrigins {
        selectedOrigins := selectedOrigins - {clickedId};
        tripData := tripData - {clickedId};
        return Deselected(clickedId);
      }
      selectedOrigins := selectedOrigins + {clickedId};
      outcome := Selected(clickedId, OriginWhere(clickedId, selectedTime));
    }

    /** The trip query for `origin` completed: its rows are written one by one into a fresh table. */
    method QueryCompleted(origin: BlockGroupId, rows: seq<Row>)
      modifies this
      ensures State() == ResultRecorded(old(State()), origin, rows)
    {
      if |rows| == 0 {
        return;
      }
      var table := BuildTripMap(rows);
      tripData := tripData[origin := table];
    }

    /**
      `updateDisplay`: with no origin selected the side panel is hidden;
      otherwise the combined destination table is computed and every
      destination in it is coloured by the renderer's class breaks.
    */
    method UpdateDisplay() returns (display: Display)
      ensures selectedOrigins == {} <==> display == PanelHidden
      ensures display.Rendered? ==> display.combined == Combined(tripData)
      ensures display.Rendered? ==> display.destinationColors.Keys == display.combined.Keys
      ensures display.Rendered? ==> forall d | d in display.destinationColors ::
        display.destinationColors[d] == ColorFromRenderer(display.combined[d])
    {
      if selectedOrigins == {} {
        return PanelHidden;
      }
      var combined := CombineTrips(tripData);
      display := Rendered(combined, map d | d in combined :: ColorFromRenderer(combined[d]));
    }

    /**
      The pointer-move handler: with a selection and a block group under the
      pointer, its total over all origins is shown when it is positive.
    */
    method PointerMove(hovered: Option<BlockGroupId>) returns (tooltip: Tooltip)
      ensures selectedOrigins == {} || hovered == None ==> tooltip == Hidden
      ensures selectedOrigins != {} && hovered.Some? ==>
        var total := Lookup(Combined(tripData), hovered.value);
        tooltip == if total > 0.0 then Shown(total) else Hidden
    {
      if selectedOrigins == {} {
        return Hidden;
      }
      if hovered.None? {
        return Hidden;
      }
      var total := HoverTotal(tripData, hovered.value);
      if total > 0.0 {
        tooltip := Shown(total);
      } else {
        tooltip := Hidden;
      }
    }
  }
}
