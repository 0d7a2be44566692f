# Beaver County / Beaver Falls origin–destination trip maps

Two browser front-ends show origin–destination (OD) trip data on a map of
census block groups. A user clicks block groups to select them as trip
origins. Each selection issues a trip query against an OD table, and the
rows that come back are stored per origin. All stored trips are then added
up per destination, each destination is coloured by its combined trip
count, and hovering a block group shows its total.

- **Beaver County** (`BeaverCounty/app.js`) first requires a day-of-week and
  a time-period filter. The day picks the OD table (one feature-service
  layer per day). The time period becomes a `Day_Part` condition. Any filter
  change under a set day wipes the selection store.
- **Beaver Falls** (`BeaverFalls/app.js`) has no filters. It toggles
  selections through a per-block-group click counter.

The project models the state these front-ends keep and the bookkeeping
their handlers do to it:

- `wrappers.dfy`: `Option`.
- `trips.dfy` (module `Trips`), the aggregation core shared by both
  front-ends:
  - building an origin's trip table from query rows, where the last row for
    a destination wins;
  - `combinedTrips` as a sum over origins per destination;
  - the hover total;
  - the side-panel subtotals.
  Each loop is a method proved equal to a reference definition: the
  row-by-row table build to the function `TripMapOf`, the accumulation loops
  to the ghost functions `MergeAdd` and `Combined`.
  Lemmas relate that definition to incremental updates and prove that
  subtotals and combined totals carry the same trips.
- `classify.dfy` (module `Classify`): the county renderer's class-break
  lookup, the falls if-chain, and exactly where the two disagree.
- `queries.dfy` (module `Queries`): the OD table URL and the where-clauses,
  each with a parser. The builders' contracts state that the parser reads
  back exactly what was built for quote-free ids and times; a lemma states
  the same for the URL of every non-empty day.
- `county.dfy` (module `County`) and `falls.dfy` (module `Falls`):
  - the page state as a datatype;
  - one function per event handler;
  - lemmas on what the handlers promise (toggling, parity of clicks,
    wiping, a valid-state invariant, late results);
  - a class (`CountyApp` / `FallsApp`) whose fields are the page variables,
    with methods that update them in place, each proved equal to its
    handler function.

Trip counts are exact `real`s. Colours are tags, one per fill colour.

## Model

| member | source | states |
|---|---|---|
| Trips.TripMapOf | BeaverCounty/app.js:400-404 | The table built from query rows has exactly the rows' destination ids as keys. The value under a destination is the trips of the last row naming it. |
| Trips.TripMapOfPrefix | BeaverCounty/app.js:401-404 | Writing rows one at a time: the table after row i is the table before it, with row i's destination set to row i's trips. |
| Trips.BuildTripMap | BeaverCounty/app.js:400-404 | The row-by-row loop produces exactly the table `TripMapOf` describes. |
| Trips.TripMapOfNonEmpty | BeaverCounty/app.js:395-404 | Rows that pass the zero-length check give a non-empty table. |
| Trips.TripMapOfFromRows | BeaverFalls/app.js:288-292 | Every entry of a stored table comes from some row with that destination and trip count. |
| Trips.SumRemove | BeaverCounty/app.js:495 | A map's total is any one entry plus the total of the rest, so the sum does not depend on the order it is taken in. |
| Trips.SumNonNegative | BeaverCounty/app.js:495 | A table of non-negative trip counts has a non-negative total. |
| Trips.CombinedLookup | BeaverCounty/app.js:446-451 | For every destination, including absent ones, the combined total is the sum over all origins of that origin's trips to it (0 when it has none). |
| Trips.CombinedAddOrigin | BeaverCounty/app.js:447-450 | Adding one new origin's table to the trip data changes the combined map by adding that table entry-wise. |
| Trips.SubtotalsMatchCombined | BeaverCounty/app.js:446-451 | Conservation: the per-origin subtotals and the per-destination combined totals add up to the same number. |
| Trips.Subtotal | BeaverCounty/app.js:495 | An origin's displayed outbound total: 0 for an origin without a table, and non-negative when its trip counts are. It is the sum of the table's values (`Sum`, whose order-independence is `SumRemove`). |
| Trips.SubtotalsOverMatchCombined | BeaverCounty/app.js:493-504 | Subtotals over any set of origins that covers the trip data (0 for an origin without a table) add up to the combined total. |
| Trips.AccumulateOrigin | BeaverCounty/app.js:448-450 | The inner loop adds one origin's table into the running combined map, entry-wise. |
| Trips.CombineTrips | BeaverCounty/app.js:446-451 | The nested loops compute exactly the combined map: each destination reached by some origin, with the sum of all origins' trips to it. |
| Trips.HoverTotal | BeaverCounty/app.js:547-551 | The hover loop's total is the combined total of the hovered block group, or 0 when no origin has trips to it. |
| Trips.CombinedExample | BeaverCounty/app.js:446-451 | Two origins sharing a destination: their trips to it are added, and a destination only one origin has keeps that origin's count. |
| Classify.FindBreak | BeaverCounty/app.js:573-575 | The lookup returns the first class break whose closed range contains the count, or none exactly when no break contains it. |
| Classify.ColorFromRenderer | BeaverCounty/app.js:572-577 | The county colour is the default exactly when no class break contains the count; otherwise it is the colour of a break that contains it. The full range table is `ColorFromRendererRanges`. |
| Classify.FallsColor | BeaverFalls/app.js:350-356 | The falls chain gives every count a visible colour (never transparent): white exactly for 0, dark red exactly above 50. How it relates to the county table is `ClassificationsAgreeOnBreaks`. |
| Classify.ClassBreaksDisjoint | BeaverCounty/app.js:108-159 | The five breaks are in increasing order and pairwise disjoint, so at most one contains a count. |
| Classify.ColorFromRendererRanges | BeaverCounty/app.js:572-577 | The county colour of every count, range by range: 1–5, 6–15, 16–25, 26–50, 51–99999, otherwise the transparent default. |
| Classify.ColorFromRendererDefault | BeaverCounty/app.js:103-107 | Counts of 0 or below, and above 99999, get the transparent default symbol. |
| Classify.ColorFromRendererGaps | BeaverCounty/app.js:108-159 | Fractional counts between two breaks (e.g. 5.5) match no break and get the default. |
| Classify.NegativeCountsDiffer | BeaverFalls/app.js:350-356 | A negative count is light yellow in the falls chain and transparent in the county renderer. |
| Classify.GapCountsDiffer | BeaverFalls/app.js:350-356 | A count strictly between 5 and 6 is yellow in the falls chain and transparent in the county renderer. |
| Classify.LargeCountsDiffer | BeaverFalls/app.js:350-356 | Counts above 99999 stay dark red in the falls chain but fall back to transparent in the county renderer. |
| Classify.ClassificationsAgreeOnBreaks | BeaverFalls/app.js:350-356 | The two classifications agree exactly on the counts some county break contains, and differ on every other count. |
| Queries.ODTableURL | BeaverCounty/app.js:213-218 | There is no URL exactly when the day is empty. |
| Queries.ODTableURLRoundTrip | BeaverCounty/app.js:213-218 | The URL built for a day names that day, so distinct days get distinct OD tables. |
| Queries.QuoteIndex | BeaverCounty/app.js:384 | Finds the first quote of a string, or its length; everything before it is quote-free (used to read a quoted value back). |
| Queries.EqualsRoundTrip | BeaverCounty/app.js:384 | A `field = 'value'` condition with a quote-free value parses back to the value and the text after it. |
| Queries.DayPartRoundTrip | BeaverCounty/app.js:309-312 | For a quote-free time, the optional `Day_Part` condition parses back to the time period; empty text means "no time". |
| Queries.LayerWhere | BeaverCounty/app.js:309-312 | The layer's definition expression is `1=1` alone exactly when no time period is set, and for a quote-free time it parses back to exactly that time period. |
| Queries.OriginWhere | BeaverCounty/app.js:383-387 | For a quote-free id and time, the county trip query parses back to exactly that origin id and time period. |
| Queries.OriginWhereUnescaped | BeaverCounty/app.js:384 | Ids are spliced in unescaped. With a time period set, as on every issued county query, the id `1' OR Origin_ID_Text = '2` gives a query that no longer reads back as a trip query: it opens with origin "1"'s condition, followed by text that is not a time condition. |
| Queries.FallsOriginWhere | BeaverFalls/app.js:273-277 | For a quote-free id, the falls trip query parses back to exactly that origin id. |
| County.InitValid | BeaverCounty/app.js:20-26 | The start-up state satisfies the invariant: an empty click counter and no empty trip table. |
| County.HandlersPreserveValid | BeaverCounty/app.js:265-406 | The day, time, click and query-completion handlers all keep the invariant. |
| County.ClickNeedsDayAndTime | BeaverCounty/app.js:337-345 | Without a day the click alerts for the day; with a day but no time it alerts for the time. Either way the state is unchanged. |
| County.ClickWithoutId | BeaverCounty/app.js:351-362 | A click on no block group, or on one with an empty GEOID, changes nothing. |
| County.ClickToggles | BeaverCounty/app.js:365-387 | With both filters set, a click toggles the id. Deselecting drops its table. Selecting keeps the tables and issues the origin query with the time condition. Other ids are untouched. |
| County.ClickedTimesKeepsFilters | BeaverCounty/app.js:365-374 | Repeated clicks never change the day, the time, the OD table or the click counter. |
| County.ClickParity | BeaverCounty/app.js:365-374 | With both filters set, after n clicks on an id its membership has flipped n times. |
| County.RecordResult | BeaverCounty/app.js:395-404 | A zero-row result changes nothing. Otherwise the origin's table becomes the rows' table, other tables are kept, and the selection and filters are untouched. |
| County.DayChangeClears | BeaverCounty/app.js:265-330 | Choosing a day wipes selections, trip data and click counts, keeps the time period, and switches to that day's table filtered by the time period. |
| County.DayClearedKeepsSelection | BeaverCounty/app.js:265-292 | Clearing the day clears the time period, but the layer update returns first: selections, trip data and the OD table survive. |
| County.TimeChangeClears | BeaverCounty/app.js:279-330 | Under a set day, any time change wipes the selection store and refilters the day's OD table. |
| County.LayerFilterURLAlwaysFound | BeaverCounty/app.js:294-298 | Under a set day the "invalid day" exit is unreachable, and the new table's URL names the day. |
| County.LateResultResurrects | BeaverCounty/app.js:389-404 | A result for an origin clicked on and off again re-creates its table although it is not selected. |
| County.PanelTotals | BeaverCounty/app.js:493-504 | The county side panel has one line per selected origin: the sum of its trips, or 0 while its result has not arrived. |
| County.PanelTotalsMatchCombined | BeaverCounty/app.js:493-504 | When every table belongs to a selected origin, the side panel's subtotals add up to the combined destination total. |
| County.TablesWithinSelectionPreserved | BeaverCounty/app.js:265-404 | "Every trip table belongs to a selected origin" survives every handler except a result for an unselected origin. |
| County.CountyApp.constructor | BeaverCounty/app.js:20-26 | The page starts with nothing selected and no filters (lines 20-26), and with day 1's OD table under the definition expression `1=1` (lines 221-228). |
| County.CountyApp.UpdateLayerFilter | BeaverCounty/app.js:287-332 | The fields after the call are exactly `LayerFilterUpdated` of the fields before. |
| County.CountyApp.DaySelectChanged | BeaverCounty/app.js:265-277 | The fields after the call are exactly `DayChanged` of the fields before. |
| County.CountyApp.TimeSelectChanged | BeaverCounty/app.js:279-284 | The fields after the call are exactly `TimeChanged` of the fields before. |
| County.CountyApp.Click | BeaverCounty/app.js:335-413 | The outcome is `ClickOutcomeOf` and the new fields are `Clicked` of the old ones. |
| County.CountyApp.QueryCompleted | BeaverCounty/app.js:389-406 | The new fields are `ResultRecorded` of the old ones; the table is built row by row. |
| County.CountyApp.UpdateDisplay | BeaverCounty/app.js:416-480 | The panel is hidden exactly when nothing is selected. Otherwise the combined map is rendered and each destination gets its class-break colour. |
| County.CountyApp.PointerMove | BeaverCounty/app.js:531-562 | The tooltip is hidden without a selection or a hovered block group. Otherwise it shows the hovered block group's combined total when positive, and is hidden when not. |
| Falls.InitValid | BeaverFalls/app.js:22-24 | The start-up state satisfies the invariant: counter keys equal the selection, every count is 1, no empty table. |
| Falls.HandlersPreserveValid | BeaverFalls/app.js:210-292 | Clicks and query completions keep the invariant. |
| Falls.ClickToggles | BeaverFalls/app.js:210-225 | In a valid state a click toggles the id. Deselecting removes it from the selection, the counter and the trip data. Selecting sets its count to 1 and issues its query. Other ids are untouched. |
| Falls.ClickWithoutFeature | BeaverFalls/app.js:198-205 | A click on no block group changes nothing. |
| Falls.ClickParity | BeaverFalls/app.js:210-225 | From a valid state, after n clicks on an id its membership has flipped n times, and the state stays valid. |
| Falls.ClickParityFromStart | BeaverFalls/app.js:210-225 | From the empty page, an id is selected exactly after an odd number of clicks on it. |
| Falls.RecordResult | BeaverFalls/app.js:281-292 | A zero-row result changes nothing. Otherwise only the origin's table is replaced, and the selection and counter are untouched. |
| Falls.LateResultResurrects | BeaverFalls/app.js:281-292 | A result for an origin clicked twice re-creates its table although it is not selected. |
| Falls.PanelTotals | BeaverFalls/app.js:404-410 | The falls side panel shows a total only for selected origins that have a trip table, each the origin's displayed subtotal. |
| Falls.TablesWithinSelectionPreserved | BeaverFalls/app.js:197-292 | "Every trip table belongs to a selected origin" holds on the empty page and survives every click, and every completion for a selected origin; only a late result for an unselected origin breaks it. |
| Falls.PanelTotalsMatchCombined | BeaverFalls/app.js:404-410 | When every table belongs to a selected origin, the panel lists a subtotal per origin with a table, and the subtotals add up to the combined total. |
| Falls.FallsApp.constructor | BeaverFalls/app.js:22-24 | The page starts with nothing selected, no trip data and no counts. |
| Falls.FallsApp.Click | BeaverFalls/app.js:197-225 | The outcome is `ClickOutcomeOf` and the new fields are `Clicked` of the old ones. |
| Falls.FallsApp.QueryCompleted | BeaverFalls/app.js:281-295 | The new fields are `ResultRecorded` of the old ones; the table is built row by row. |
| Falls.FallsApp.UpdateDisplay | BeaverFalls/app.js:300-419 | Nothing is rendered exactly when nothing is selected. Otherwise the combined map is rendered, each destination gets its if-chain colour, and the panel is shown. |
| Falls.FallsApp.PointerMove | BeaverFalls/app.js:422-464 | The tooltip is hidden without a selection, without a hovered block group, or over an origin-layer feature. Otherwise it shows the combined total, even when 0. |

## Behaviour of the code that the model follows

These differ from what the front-ends evidently intend. The model does what
the code does.

- Neither front-end checks a completed trip query against the current
  selection. A late result for a deselected origin re-creates its table
  (`LateResultResurrects`), and that table counts in `combinedTrips` and in
  the hover total.
- A result with zero rows stores nothing, so no empty table is ever stored.
- The county `clickCount` is only ever reset, never filled in.
- A county click needs both a day and a time period.
- Choosing a new non-empty county day keeps the previous time period.
- Clearing the county day clears the time period. But the layer update
  returns before wiping, so selections and trip tables survive.
- The county time-select handler has no day guard of its own. It relies on
  the control being disabled while no day is set, and the model does not
  assume that.
- The Beaver Falls `updateDisplay` returns early when nothing is selected,
  so its branch that hides the side panel cannot be reached. Deselecting
  the last origin leaves the panel as it was.
- Ids and time periods are spliced into where-clauses without escaping
  (`OriginWhereUnescaped`).

## Left out

- The Esri ArcGIS SDK (map, view, layers, legend, feature queries) is not part of this model. Hit tests, the trip-query rows and whether a hovered block group is an origin-layer feature are inputs.
- Asynchrony: each handler, and each query completion, is one atomic step. A completion is a separate call that may come at any time. A failed query is the same as a completion that never arrives.
- DOM output (side-panel HTML, tooltip position and text, select borders, alerts, console logging) is not modelled. The side panel is modelled by its subtotal map (`PanelTotals`), without its order or the municipality names.
- The falls click handler's own side-panel rebuild (municipality lookups per selected origin) is left out; only the panel built by `updateDisplay` is modelled.
- Highlight graphics for origins and destinations (geometry, outlines) are left out. Only which destinations get which colour is modelled.
- `queryFeatureCount` after a layer change only logs, and is left out.
- The disabled state of the time select is a UI constraint, not a state change, and is left out.
- Trip counts are JavaScript floating-point numbers; here they are exact reals, so rounding of sums is not modelled.
- Null, undefined or NaN attribute values are not modelled: rows carry a string destination id and a real trip count.
- Colours are tags; the RGBA literals appear only as comments.
