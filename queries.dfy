/**
  The strings the two front-ends build for the feature service: the county
  OD table URL for a day, and the where-clauses of the layer filter and of
  the per-origin trip queries. Each builder has a parser as its partner, and
  the builders' contracts (and the URL's round-trip lemma) say what the
  string encodes.
*/
module Queries {
  import opened Wrappers

  /** The county feature service; the OD table for day N is its layer N. */
  const ODTableBase: string :=
    "https://services3.arcgis.com/MV5wh5WkCMqlwISp/arcgis/rest/services/BeaverCounty_Merge/FeatureServer/"

  /** The OD table URL for a day: no URL for an empty day, else the base URL with the day appended. */
  function ODTableURL(day: string): (url: Option<string>)
    ensures url.None? <==> day == ""
  {
    if day == "" then None else Some(ODTableBase + day)
  }

  /** The day a county OD table URL names: what follows the base URL. */
  function DayOfURL(url: string): Option<string>
  {
    if |ODTableBase| < |url| && url[..|ODTableBase|] == ODTableBase then Some(url[|ODTableBase|..])
    else None
  }

  /** Every URL built for a day names that day, so different days get different tables. */
  lemma ODTableURLRoundTrip(day: string)
    requires day != ""
    ensures DayOfURL(ODTableURL(day).value) == Some(day)
  {
    var url := ODTableBase + day;
    assert url[..|ODTableBase|] == ODTableBase;
    assert url[|ODTableBase|..] == day;
  }

  // ---------------------------------------------------------------------------
  // Where-clauses
  // ---------------------------------------------------------------------------

  /** No quote character inside a value, so quoting it is unambiguous. */
  predicate QuoteFree(s: string)
  {
    forall k | 0 <= k < |s| :: s[k] != '\''
  }

  /** `<field> = '<value>'`, with the value spliced in as is (no escaping). */
  function Equals(field: string, value: string): string
  {
    field + " = '" + value + "'"
  }

  /** `" AND Day_Part = '<time>'"` when a time period is set, else nothing. */
  function DayPartCondition(time: string): string
  {
    if time == "" then "" else " AND " + Equals("Day_Part", time)
  }

  /**
    The county OD layer's definition expression: `1=1` plus the optional time
    condition. It encodes exactly the selected (quote-free) time period, and
    is `1=1` alone exactly when there is none.
  */
  function LayerWhere(time: string): (w: string)
    ensures w == "1=1" <==> time == ""
    ensures QuoteFree(time) ==> ParseLayerWhere(w) == Some(time)
  {
    var w := "1=1" + DayPartCondition(time);
    assert QuoteFree(time) ==> ParseLayerWhere(w) == Some(time) by {
      if QuoteFree(time) {
        assert w[..3] == "1=1";
        assert w[3..] == DayPartCondition(time);
        DayPartRoundTrip(time);
      }
    }
    assert w == "1=1" ==> time == "" by {
      if time != "" {
        assert |w| > 3;
      }
    }
    w
  }

  /**
    The county per-origin trip query: the origin's id plus the optional time
    condition. For quote-free values it encodes exactly the id and the time.
  */
  function OriginWhere(id: string, time: string): (w: string)
    ensures QuoteFree(id) && QuoteFree(time) ==> ParseOriginWhere(w) == Some((id, time))
  {
    var w := Equals("Origin_ID_Text", id) + DayPartCondition(time);
    assert QuoteFree(id) && QuoteFree(time) ==> ParseOriginWhere(w) == Some((id, time)) by {
      if QuoteFree(id) && QuoteFree(time) {
        EqualsRoundTrip("Origin_ID_Text", id, DayPartCondition(time));
        DayPartRoundTrip(time);
      }
    }
    w
  }

  /** The falls per-origin trip query. For a quote-free id it encodes exactly the id. */
  function FallsOriginWhere(id: string): (w: string)
    ensures QuoteFree(id) ==> ParseFallsOriginWhere(w) == Some(id)
  {
    var w := Equals("Origin_Block_Group", id);
    assert QuoteFree(id) ==> ParseFallsOriginWhere(w) == Some(id) by {
      if QuoteFree(id) {
        assert w == Equals("Origin_Block_Group", id) + "";
        EqualsRoundTrip("Origin_Block_Group", id, "");
      }
    }
    w
  }

  /** The index of the first quote character in s, or |s| if there is none. */
  function QuoteIndex(s: string): (i: nat)
    ensures i <= |s|
    ensures i < |s| ==> s[i] == '\''
    ensures QuoteFree(s[..i])
    decreases |s|
  {
    if s == [] then 0
    else if s[0] == '\'' then 0
    else
      var j := QuoteIndex(s[1..]);
      assert s[..j + 1] == [s[0]] + s[1..][..j];
      j + 1
  }

  /**
    Reads `<field> = '<value>'` at the start of w: the value (up to the first
    closing quote) and the text after the closing quote.
  */
  function ParseEquals(field: string, w: string): Option<(string, string)>
  {
    var open := field + " = '";
    if |open| <= |w| && w[..|open|] == open then
      var rest := w[|open|..];
      var i := QuoteIndex(rest);
      if i < |rest| then Some((rest[..i], rest[i + 1..])) else None
    else None
  }

  /** Reads the optional time condition: the empty text is "no time". */
  function ParseDayPart(w: string): Option<string>
  {
    if w == "" then Some("")
    else if 5 <= |w| && w[..5] == " AND " then
      match ParseEquals("Day_Part", w[5..])
      case Some((time, tail)) => if tail == "" && time != "" then Some(time) else None
      case None => None
    else None
  }

  /** Reads a county layer definition expression back into its time period. */
  function ParseLayerWhere(w: string): Option<string>
  {
    if 3 <= |w| && w[..3] == "1=1" then ParseDayPart(w[3..]) else None
  }

  /** Reads a county origin query back into the origin id and time period. */
  function ParseOriginWhere(w: string): Option<(string, string)>
  {
    match ParseEquals("Origin_ID_Text", w)
    case Some((id, tail)) =>
      (match ParseDayPart(tail)
       case Some(time) => Some((id, time))
       case None => None)
    case None => None
  }

  /** Reads a falls origin query back into the origin id. */
  function ParseFallsOriginWhere(w: string): Option<string>
  {
    match ParseEquals("Origin_Block_Group", w)
    case Some((id, tail)) => if tail == "" then Some(id) else None
    case None => None
  }

  lemma QuoteIndexOfQuoted(value: string, tail: string)
    requires QuoteFree(value)
    ensures QuoteIndex(value + "'" + tail) == |value|
    decreases |value|
  {
    if value != [] {
      assert (value + "'" + tail)[1..] == value[1..] + "'" + tail;
      QuoteIndexOfQuoted(value[1..], tail);
    }
  }

  /** A quote-free value followed by anything parses back to itself and that remainder. */
  lemma EqualsRoundTrip(field: string, value: string, tail: string)
    requires QuoteFree(value)
    ensures ParseEquals(field, Equals(field, value) + tail) == Some((value, tail))
  {
    var open := field + " = '";
    var w := Equals(field, value) + tail;
    assert w == open + (value + "'" + tail);
    assert w[..|open|] == open;
    var rest := w[|open|..];
    assert rest == value + "'" + tail;
    QuoteIndexOfQuoted(value, tail);
    assert rest[..|value|] == value;
    assert rest[|value| + 1..] == tail;
  }

  lemma DayPartRoundTrip(time: string)
    requires QuoteFree(time)
    ensures ParseDayPart(DayPartCondition(time)) == Some(time)
  {
    if time != "" {
      var w := DayPartCondition(time);
      assert w[..5] == " AND ";
      assert w[5..] == Equals("Day_Part", time) + "";
      EqualsRoundTrip("Day_Part", time, "");
    }
  }

  /**
    Ids are spliced in without escaping, so the quote-free condition above is
    needed. With a time period set, as every issued county query has, an id
    holding quotes yields a query that does not read back as that id: it
    starts with the condition of origin "1" and its tail is no time condition.
  */
  lemma OriginWhereUnescaped()
    ensures var id, time := "1' OR Origin_ID_Text = '2", "AM";
      && ParseOriginWhere(OriginWhere(id, time)) == None
      && ParseEquals("Origin_ID_Text", OriginWhere(id, time)) == Some(("1", InjectedTail))
  {
    var w := OriginWhere("1' OR Origin_ID_Text = '2", "AM");
    assert w == Equals("Origin_ID_Text", "1' OR Origin_ID_Text = '2") + DayPartCondition("AM");
    EqualsSplit("Origin_ID_Text", "1", " OR Origin_ID_Text = '2", DayPartCondition("AM"));
    assert w == Equals("Origin_ID_Text", "1") + InjectedTail;
    EqualsRoundTrip("Origin_ID_Text", "1", InjectedTail);
    assert ParseEquals("Origin_ID_Text", w) == Some(("1", InjectedTail));
    InjectedTailIsNoTime();
    assert ParseOriginWhere(w) == None;
  }

  /** A quote inside a spliced value closes the condition early. */
  lemma EqualsSplit(field: string, a: string, b: string, c: string)
    ensures Equals(field, a + "'" + b) + c == Equals(field, a) + (b + "'" + c)
  {
  }

  /** What follows the closing quote of origin "1" in the injected query above. */
  const InjectedTail: string := " OR Origin_ID_Text = '2" + "'" + DayPartCondition("AM")

  lemma InjectedTailIsNoTime()
    ensures ParseDayPart(InjectedTail) == None
  {
    assert InjectedTail[1] == 'O';
    assert InjectedTail[..5] != " AND " by {
      assert InjectedTail[..5][1] == 'O';
    }
  }
}
