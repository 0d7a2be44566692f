/**
  Colour classification of a destination's trip count.

  The county front-end looks the count up in the class-break table of its
  trips renderer (`getColorFromRenderer`); the falls front-end uses a
  hand-written if-chain. Colours are opaque tags, one per bucket.
*/
module Classify {
  import opened Wrappers

  /** One tag per fill colour the two front-ends use for destinations. */
  datatype Color =
    | Transparent   // county renderer default, [0, 0, 0, 0]
    | White         // falls chain for a count of 0, [255, 255, 255, 0.7]
    | LightYellow   // [255, 241, 169, 0.7]
    | Yellow        // [254, 204, 92, 0.7]
    | Orange        // [253, 141, 60, 0.7]
    | RedOrange     // [240, 59, 32, 0.7]
    | DarkRed       // [189, 0, 38, 0.7]

  /** An entry of `classBreakInfos`: the closed range [minValue, maxValue] and its colour. */
  datatype ClassBreakInfo = ClassBreakInfo(minValue: real, maxValue: real, color: Color, legendLabel: string)

  /** The county trips renderer's class breaks, in table order. */
  const TripsClassBreaks: seq<ClassBreakInfo> := [
    ClassBreakInfo(1.0, 5.0, LightYellow, "1-5 trips"),
    ClassBreakInfo(6.0, 15.0, Yellow, "6-15 trips"),
    ClassBreakInfo(16.0, 25.0, Orange, "16-25 trips"),
    ClassBreakInfo(26.0, 50.0, RedOrange, "26-50 trips"),
    ClassBreakInfo(51.0, 99999.0, DarkRed, ">50 trips")
  ]

  /** The county renderer's `defaultSymbol` colour. */
  const DefaultColor: Color := Transparent

  predicate InBreak(info: ClassBreakInfo, count: real)
  {
    info.minValue <= count <= info.maxValue
  }

  /**
    The renderer lookup: the index of the first break whose range
    contains the count, or None when no break does.
  */
  function FindBreak(breaks: seq<ClassBreakInfo>, count: real): (r: Option<nat>)
    ensures r.Some? ==> r.value < |breaks| && InBreak(breaks[r.value], count)
    ensures r.Some? ==> forall j | 0 <= j < r.value :: !InBreak(breaks[j], count)
    ensures r.None? <==> forall j | 0 <= j < |breaks| :: !InBreak(breaks[j], count)
    decreases |breaks|
  {
    if breaks == [] then None
    else if InBreak(breaks[0], count) then Some(0)
    else match FindBreak(breaks[1..], count)
      case None => None
      case Some(i) => Some(i + 1)
  }

  /** The county front-end's destination colour for a trip count. */
  function ColorFromRenderer(count: real): (c: Color)
    ensures c == DefaultColor <==> forall j | 0 <= j < |TripsClassBreaks| :: !InBreak(TripsClassBreaks[j], count)
    ensures c != DefaultColor ==>
      exists j | 0 <= j < |TripsClassBreaks| :: InBreak(TripsClassBreaks[j], count) && c == TripsClassBreaks[j].color
  {
    match FindBreak(TripsClassBreaks, count)
    case Some(i) => TripsClassBreaks[i].color
    case None => DefaultColor
  }

  /** The breaks are listed in increasing order and do not overlap, so at most one contains a count. */
  lemma ClassBreaksDisjoint()
    ensures forall i, j | 0 <= i < j < |TripsClassBreaks| ::
      TripsClassBreaks[i].maxValue < TripsClassBreaks[j].minValue
    ensures forall i, j, c | 0 <= i < |TripsClassBreaks| && 0 <= j < |TripsClassBreaks|
      && InBreak(TripsClassBreaks[i], c) && InBreak(TripsClassBreaks[j], c) :: i == j
  {
  }

  /** What the county renderer does with every count, written out range by range. */
  lemma ColorFromRendererRanges(count: real)
    ensures ColorFromRenderer(count) ==
      if 1.0 <= count <= 5.0 then LightYellow
      else if 6.0 <= count <= 15.0 then Yellow
      else if 16.0 <= count <= 25.0 then Orange
      else if 26.0 <= count <= 50.0 then RedOrange
      else if 51.0 <= count <= 99999.0 then DarkRed
      else Transparent
  {
    var b := TripsClassBreaks;
    assert b[1..][1..][1..][1..][1..] == [];
    assert b[1..][0] == b[1] && b[1..][1..][0] == b[2];
    assert b[1..][1..][1..][0] == b[3] && b[1..][1..][1..][1..][0] == b[4];
  }

  /** Zero, negative counts and counts above 99999 get the default (transparent) colour. */
  lemma ColorFromRendererDefault(count: real)
    requires count <= 0.0 || count > 99999.0
    ensures ColorFromRenderer(count) == DefaultColor
  {
    ColorFromRendererRanges(count);
  }

  /** Counts in the gaps between two breaks (e.g. 5.5) also get the default colour. */
  lemma ColorFromRendererGaps(count: real)
    requires (5.0 < count < 6.0) || (15.0 < count < 16.0) || (25.0 < count < 26.0) || (50.0 < count < 51.0)
    ensures ColorFromRenderer(count) == DefaultColor
  {
    ColorFromRendererRanges(count);
  }

  /** The falls front-end's if-chain: total, one colour for every count. */
  function FallsColor(count: real): (c: Color)
    ensures c != Transparent
    ensures c == White <==> count == 0.0
    ensures c == DarkRed <==> count > 50.0
  {
    if count == 0.0 then White
    else if count <= 5.0 then LightYellow
    else if count <= 15.0 then Yellow
    else if count <= 25.0 then Orange
    else if count <= 50.0 then RedOrange
    else DarkRed
  }

  /** Unlike the county table, the falls chain puts negative counts in the 1-5 colour. */
  lemma NegativeCountsDiffer(count: real)
    requires count < 0.0
    ensures FallsColor(count) == LightYellow
    ensures ColorFromRenderer(count) == Transparent
  {
    ColorFromRendererDefault(count);
  }

  /** Counts strictly between two county breaks get the next falls colour but the county default. */
  lemma GapCountsDiffer(count: real)
    requires 5.0 < count < 6.0
    ensures FallsColor(count) == Yellow
    ensures ColorFromRenderer(count) == Transparent
  {
    ColorFromRendererGaps(count);
  }

  /** Above the county's last break the falls chain keeps the top colour. */
  lemma LargeCountsDiffer(count: real)
    requires count > 99999.0
    ensures FallsColor(count) == DarkRed
    ensures ColorFromRenderer(count) == Transparent
  {
    ColorFromRendererDefault(count);
  }

  /**
    The two classifications agree exactly on the counts some county break
    contains, and disagree on every other count (zero, negatives, gaps and
    values above 99999).
  */
  lemma ClassificationsAgreeOnBreaks(count: real)
    ensures FallsColor(count) == ColorFromRenderer(count) <==> ColorFromRenderer(count) != DefaultColor
    ensures ColorFromRenderer(count) != DefaultColor <==>
      exists i | 0 <= i < |TripsClassBreaks| :: InBreak(TripsClassBreaks[i], count)
  {
    ColorFromRendererRanges(count);
    if ColorFromRenderer(count) != DefaultColor {
      var i :| i == FindBreak(TripsClassBreaks, count).value;
      assert InBreak(TripsClassBreaks[i], count);
    }
  }
}
