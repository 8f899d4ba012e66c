/**
 * The per-card props that src/app/page.tsx derives from each digest entry for
 * `ForecastWeatherDetail`. An absent entry degrades field by field: text to
 * "", numbers to 0. The date and day labels are computed by date-fns from
 * `dt_txt`; here they are the caller-supplied partial functions `dateLabel`
 * and `dayLabel`, absent where date-fns throws on an unparseable timestamp.
 */
module Cards {
  import opened Wrappers
  import opened Weather
  import opened Distance
  import opened Digest

  datatype Card = Card(
    description: string, weatherIcon: string, date: string, day: string,
    feelsLike: real, temp: real, tempMax: real, tempMin: real,
    visibility: string)

  /**
   * What rendering a card can throw: `TypeError` when `weather[0]` of a
   * present sample is read from an empty array, `RangeError` when date-fns
   * is asked to format an invalid date.
   */
  datatype RenderError = TypeError | RangeError

  /** The visibility prop: `${metersToKilometers(v)} km`. */
  function VisibilityLabel(v: nat): (s: string)
    ensures |s| >= 6 && s[|s| - 5..] == "km km"
    ensures IsCanonical(s[..|s| - 5]) && DecimalValue(s[..|s| - 5]) == RoundedKilometers(v)
  {
    var m := MetersToKilometers(v);
    var s := m + " km";
    assert s[..|s| - 5] == m[..|m| - 2];
    assert s[|s| - 5..] == m[|m| - 2..] + " km";
    s
  }

  /**
   * The props of one card for the digest entry `d`, or the first error their
   * evaluation throws: the description (and icon) come before the date and day.
   */
  function CardFor(d: Option<Sample>, dateLabel: string -> Option<string>, dayLabel: string -> Option<string>)
    : (r: Result<Card, RenderError>)
    ensures r == Failure(TypeError) <==> d.Some? && d.value.weather == []
    ensures r == Failure(RangeError) <==>
      d.Some? && d.value.weather != [] && (dateLabel(d.value.dtTxt).None? || dayLabel(d.value.dtTxt).None?)
    ensures r.Success? ==> |r.value.visibility| >= 6 && r.value.visibility[|r.value.visibility| - 5..] == "km km"
  {
    match d
    case None =>
      Success(Card("", "", "", "", 0.0, 0.0, 0.0, 0.0, VisibilityLabel(0)))
    case Some(s) =>
      if s.weather == [] then Failure(TypeError)
      else
        match (dateLabel(s.dtTxt), dayLabel(s.dtTxt))
        case (Some(date), Some(day)) =>
          Success(Card(
            s.weather[0].description, s.weather[0].icon, date, day,
            s.main.feelsLike, s.main.temp, s.main.tempMax, s.main.tempMin,
            VisibilityLabel(s.main.visibility)))
        case _ => Failure(RangeError)
  }

  /**
   * `entries.map(d => <card for d>)`: the cards of all entries in order, or,
   * when building one of them throws, the error of the first that does. A
   * throw escapes the page's render, so then nothing of the page is shown.
   * The map runs only while no city lookup is in progress; during one the
   * page shows a skeleton instead and no card can throw.
   */
  function RenderCards(entries: seq<Option<Sample>>, dateLabel: string -> Option<string>, dayLabel: string -> Option<string>)
    : (r: Result<seq<Card>, RenderError>)
    ensures r.Failure? <==> exists i :: 0 <= i < |entries| && CardFor(entries[i], dateLabel, dayLabel).Failure?
    ensures r.Failure? ==>
      exists i :: 0 <= i < |entries| && CardFor(entries[i], dateLabel, dayLabel) == Failure(r.error) &&
        forall j :: 0 <= j < i ==> CardFor(entries[j], dateLabel, dayLabel).Success?
    ensures r.Success? ==>
      |r.value| == |entries| &&
      forall i :: 0 <= i < |entries| ==> CardFor(entries[i], dateLabel, dayLabel) == Success(r.value[i])
  {
    if entries == [] then Success([])
    else
      assert forall i :: 1 <= i < |entries| ==> entries[i] == entries[1..][i - 1];
      match CardFor(entries[0], dateLabel, dayLabel)
      case Failure(e) => Failure(e)
      case Success(c) =>
        match RenderCards(entries[1..], dateLabel, dayLabel)
        case Failure(e) => Failure(e)
        case Success(cs) => Success([c] + cs)
  }

  /** The forecast section: one card per digest entry, unless rendering throws. */
  function DigestCards(data: Option<WeatherData>, dateLabel: string -> Option<string>, dayLabel: string -> Option<string>)
    : (r: Result<seq<Card>, RenderError>)
    ensures r.Success? ==> |r.value| == |FirstDataForEachDate(data)| <= DaysShown
  {
    RenderCards(FirstDataForEachDate(data), dateLabel, dayLabel)
  }

  /** With no sample, every field takes its fallback: "" for text, 0 for numbers, and 0 m of visibility. */
  lemma AbsentSampleFallbacks(dateLabel: string -> Option<string>, dayLabel: string -> Option<string>)
    ensures CardFor(None, dateLabel, dayLabel) ==
      Success(Card("", "", "", "", 0.0, 0.0, 0.0, 0.0, "0km km"))
  {
    ShortDistanceIsZero(0);
    assert VisibilityLabel(0) == "0km" + " km" == "0km km";
    assert CardFor(None, dateLabel, dayLabel) ==
      Success(Card("", "", "", "", 0.0, 0.0, 0.0, 0.0, VisibilityLabel(0)));
  }

  /** A digest entry whose date or day label cannot be formatted, or that has no weather condition. */
  predicate Unrenderable(e: Sample, dateLabel: string -> Option<string>, dayLabel: string -> Option<string>) {
    e.weather == [] || dateLabel(e.dtTxt).None? || dayLabel(e.dtTxt).None?
  }

  /**
   * Rendering a list of present entries throws exactly when one of them cannot
   * be rendered; otherwise each card shows its own entry's fields.
   */
  lemma {:induction false} CardsShowTheirEntries(entries: seq<Option<Sample>>, dateLabel: string -> Option<string>, dayLabel: string -> Option<string>)
    requires forall i :: 0 <= i < |entries| ==> entries[i].Some?
    ensures var cards := RenderCards(entries, dateLabel, dayLabel);
      (cards.Failure? <==>
        exists i :: 0 <= i < |entries| && Unrenderable(entries[i].value, dateLabel, dayLabel)) &&
      (cards.Success? ==>
        |cards.value| == |entries| &&
        forall i :: 0 <= i < |entries| ==>
          var e, c := entries[i].value, cards.value[i];
          c.description == e.weather[0].description &&
          c.weatherIcon == e.weather[0].icon &&
          c.date == dateLabel(e.dtTxt).value &&
          c.day == dayLabel(e.dtTxt).value &&
          c.feelsLike == e.main.feelsLike &&
          c.temp == e.main.temp &&
          c.tempMax == e.main.tempMax &&
          c.tempMin == e.main.tempMin &&
          c.visibility == VisibilityLabel(e.main.visibility))
  {
    forall i | 0 <= i < |entries|
      ensures CardFor(entries[i], dateLabel, dayLabel).Failure? <==> Unrenderable(entries[i].value, dateLabel, dayLabel)
    {
    }
    var cards := RenderCards(entries, dateLabel, dayLabel);
    if cards.Success? {
      forall i | 0 <= i < |entries|
        ensures var e, c := entries[i].value, cards.value[i];
          c.description == e.weather[0].description &&
          c.weatherIcon == e.weather[0].icon &&
          c.date == dateLabel(e.dtTxt).value &&
          c.day == dayLabel(e.dtTxt).value &&
          c.feelsLike == e.main.feelsLike &&
          c.temp == e.main.temp &&
          c.tempMax == e.main.tempMax &&
          c.tempMin == e.main.tempMin &&
          c.visibility == VisibilityLabel(e.main.visibility)
      {
        assert CardFor(entries[i], dateLabel, dayLabel) == Success(cards.value[i]);
      }
    }
  }

  /**
   * The forecast section throws exactly when some digest entry cannot be
   * rendered, and then no card is shown. Otherwise it shows one card per
   * digest entry, at most five, each with its own entry's fields and never
   * a fallback.
   */
  lemma DigestCardsUseTheirEntries(data: Option<WeatherData>, dateLabel: string -> Option<string>, dayLabel: string -> Option<string>)
    ensures var cards := DigestCards(data, dateLabel, dayLabel);
      var digest := FirstDataForEachDate(data);
      (cards.Failure? <==>
        exists i :: 0 <= i < |digest| && Unrenderable(digest[i].value, dateLabel, dayLabel)) &&
      (cards.Success? ==>
        |cards.value| == |digest| <= DaysShown &&
        forall i :: 0 <= i < |digest| ==>
          var e, c := digest[i].value, cards.value[i];
          c.description == e.weather[0].description &&
          c.weatherIcon == e.weather[0].icon &&
          c.date == dateLabel(e.dtTxt).value &&
          c.day == dayLabel(e.dtTxt).value &&
          c.feelsLike == e.main.feelsLike &&
          c.temp == e.main.temp &&
          c.tempMax == e.main.tempMax &&
          c.tempMin == e.main.tempMin &&
          c.visibility == VisibilityLabel(e.main.visibility))
  {
    CardsShowTheirEntries(FirstDataForEachDate(data), dateLabel, dayLabel);
  }
}
