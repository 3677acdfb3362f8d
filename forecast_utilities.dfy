/** The event-forecast object of tools/forecast_utilities.py: the seven-day
    forecastability gate, the filter that keeps the hourly periods holding the
    whole event window, and the fetch → filter → summarise sequence that fills
    in the object's `raw` and `forecast` attributes. */
module ForecastUtilities {
  import opened Types

  /** How far ahead the hourly forecast reaches: seven days, in microseconds. */
  const Horizon: int := 7 * 24 * 60 * 60 * 1_000_000

  /** A forecast may be asked for unless the event starts both after now and
      more than the horizon after now. */
  function Forecastable(start: Instant, now: Instant): (r: bool)
    ensures r <==> start <= now + Horizon
    ensures start <= now ==> r
    ensures start == now + Horizon ==> r
  {
    !(start > now && start > now + Horizon)
  }

  /** The period holds the whole event window, both edges inclusive. */
  predicate Covers(p: Period, start: Instant, end: Instant) {
    start >= p.startTime && end <= p.endTime
  }

  /** The periods of `raw` that hold the window, in their original order. */
  function CoveringPeriods(raw: seq<Period>, start: Instant, end: Instant): (r: seq<Period>)
    ensures forall i :: 0 <= i < |r| ==> Covers(r[i], start, end)
  {
    if raw == [] then []
    else (if Covers(raw[0], start, end) then [raw[0]] else []) + CoveringPeriods(raw[1..], start, end)
  }

  /** `xs` is obtained from `ys` by deleting elements. */
  ghost predicate IsSubsequence(xs: seq<Period>, ys: seq<Period>)
    decreases |ys|
  {
    xs == [] ||
    (ys != [] && ((xs[0] == ys[0] && IsSubsequence(xs[1..], ys[1..])) || IsSubsequence(xs, ys[1..])))
  }

  lemma {:induction false} SubsequenceNoLonger(xs: seq<Period>, ys: seq<Period>)
    requires IsSubsequence(xs, ys)
    ensures |xs| <= |ys|
    decreases |ys|
  {
    if xs != [] {
      if xs[0] == ys[0] && IsSubsequence(xs[1..], ys[1..]) {
        SubsequenceNoLonger(xs[1..], ys[1..]);
      } else {
        SubsequenceNoLonger(xs, ys[1..]);
      }
    }
  }

  /** A period is kept exactly when it occurs in the input and holds the window. */
  lemma {:induction false} CoveringPeriodsMembership(raw: seq<Period>, start: Instant, end: Instant, p: Period)
    ensures p in CoveringPeriods(raw, start, end) <==> p in raw && Covers(p, start, end)
  {
    if raw != [] {
      CoveringPeriodsMembership(raw[1..], start, end, p);
      assert raw == [raw[0]] + raw[1..];
    }
  }

  /** The kept periods are a subsequence of the input: order is preserved. */
  lemma {:induction false} CoveringPeriodsSubsequence(raw: seq<Period>, start: Instant, end: Instant)
    ensures IsSubsequence(CoveringPeriods(raw, start, end), raw)
  {
    if raw != [] {
      var rest := CoveringPeriods(raw[1..], start, end);
      CoveringPeriodsSubsequence(raw[1..], start, end);
      if Covers(raw[0], start, end) {
        var r := [raw[0]] + rest;
        assert r[0] == raw[0] && r[1..] == rest;
      } else {
        assert CoveringPeriods(raw, start, end) == rest;
        assert IsSubsequence(rest, raw[1..]);
      }
    }
  }

  /** The filter never grows the list. */
  lemma {:induction false} CoveringPeriodsNoLonger(raw: seq<Period>, start: Instant, end: Instant)
    ensures |CoveringPeriods(raw, start, end)| <= |raw|
  {
    CoveringPeriodsSubsequence(raw, start, end);
    SubsequenceNoLonger(CoveringPeriods(raw, start, end), raw);
  }

  /** Filtering distributes over concatenation. */
  lemma {:induction false} CoveringPeriodsAppend(a: seq<Period>, b: seq<Period>, start: Instant, end: Instant)
    ensures CoveringPeriods(a + b, start, end) == CoveringPeriods(a, start, end) + CoveringPeriods(b, start, end)
  {
    if a == [] {
      assert a + b == b;
    } else {
      assert (a + b)[0] == a[0] && (a + b)[1..] == a[1..] + b;
      CoveringPeriodsAppend(a[1..], b, start, end);
    }
  }

  /** A list whose every period holds the window passes the filter whole. */
  lemma {:induction false} CoveringPeriodsKeepsAll(raw: seq<Period>, start: Instant, end: Instant)
    requires forall i :: 0 <= i < |raw| ==> Covers(raw[i], start, end)
    ensures CoveringPeriods(raw, start, end) == raw
  {
    if raw != [] {
      CoveringPeriodsKeepsAll(raw[1..], start, end);
    }
  }

  /** Filtering again with the same window changes nothing. */
  lemma CoveringPeriodsIdempotent(raw: seq<Period>, start: Instant, end: Instant)
    ensures var kept := CoveringPeriods(raw, start, end);
            CoveringPeriods(kept, start, end) == kept
  {
    CoveringPeriodsKeepsAll(CoveringPeriods(raw, start, end), start, end);
  }

  /** The loop of filter_forecast: walk the raw periods in order and append
      every one that holds the event window. */
  method CollectPeriods(raw: seq<Period>, start: Instant, end: Instant) returns (kept: seq<Period>)
    ensures kept == CoveringPeriods(raw, start, end)
    ensures forall p :: p in kept <==> p in raw && Covers(p, start, end)
  {
    kept := [];
    for i := 0 to |raw|
      invariant kept == CoveringPeriods(raw[..i], start, end)
    {
      var period := raw[i];
      if start >= period.startTime && end <= period.endTime {
        kept := kept + [period];
      }
      CoveringPeriodsAppend(raw[..i], [period], start, end);
      assert raw[..i + 1] == raw[..i] + [period];
    }
    assert raw[..|raw|] == raw;
    forall p ensures p in kept <==> p in raw && Covers(p, start, end) {
      CoveringPeriodsMembership(raw, start, end, p);
    }
  }

  /** The `forecast` attribute: a dictionary holding the filtered periods and,
      once summarised, the language model's message. */
  datatype ForecastDict = ForecastDict(rawFiltered: Option<seq<Period>>, chatgptSummary: Option<string>)

  /** The language model's answer: the messages of its choices, or a failure
      of the client. */
  datatype Completion = Choices(messages: seq<string>) | CompletionFailure

  /** The summariser, as a function of what the prompt embeds. */
  type Summarizer = (seq<Period>, Time) -> Completion

  /** The steps of main_get_forecast, in the order they can be attempted. */
  datatype Step = FetchStep | FilterStep | SummarizeStep

  class Forecast {
    /** The event's place and time, copied from the event record. */
    var place: GridCell
    var time: Time
    /** The fetched periods; None while the attribute has never been set. */
    var raw: Option<seq<Period>>
    /** The result dictionary; None while the attribute has never been set. */
    var forecast: Option<ForecastDict>
    /** The steps attempted so far, oldest first. */
    ghost var trace: seq<Step>

    /** Copies the place and time out of the event record; the source goes on
        to call main_get_forecast, which NewForecast does. */
    constructor (place: GridCell, time: Time)
      ensures this.place == place && this.time == time
      ensures raw == None && forecast == None && trace == []
    {
      this.place := place;
      this.time := time;
      raw := None;
      forecast := None;
      trace := [];
    }

    /** Fetches the hourly periods of the place's grid cell into `raw`. */
    method GetForecast(hourly: HourlyProvider) returns (outcome: Outcome<Error>)
      modifies this`raw, this`trace
      ensures trace == old(trace) + [FetchStep]
      ensures var response := hourly(place);
              if RaisesForStatus(response.statusCode) then
                outcome == Fail(HTTPError(response.statusCode)) && raw == old(raw)
              else
                outcome == Pass && raw == Some(response.periods)
    {
      trace := trace + [FetchStep];
      var response := hourly(place);
      if RaisesForStatus(response.statusCode) {
        return Fail(HTTPError(response.statusCode));
      }
      raw := Some(response.periods);
      outcome := Pass;
    }

    /** Replaces `forecast` with a fresh dictionary whose only entry is the
        list of raw periods that hold the event window. Parsing a missing
        endDateTime raises before `raw` is read. */
    method FilterForecast() returns (outcome: Outcome<Error>)
      modifies this`forecast, this`trace
      ensures trace == old(trace) + [FilterStep]
      ensures raw == old(raw)
      ensures time.endDateTime.None? ==> outcome == Fail(TypeError) && forecast == old(forecast)
      ensures time.endDateTime.Some? && raw.None? ==>
                outcome == Fail(AttributeError("raw")) && forecast == old(forecast)
      ensures time.endDateTime.Some? && raw.Some? ==>
                && outcome == Pass
                && forecast == Some(ForecastDict(Some(CoveringPeriods(raw.value, time.startDateTime, time.endDateTime.value)), None))
    {
      trace := trace + [FilterStep];
      if time.endDateTime.None? {
        return Fail(TypeError);
      }
      if raw.None? {
        return Fail(AttributeError("raw"));
      }
      var kept := CollectPeriods(raw.value, time.startDateTime, time.endDateTime.value);
      forecast := Some(ForecastDict(Some(kept), None));
      outcome := Pass;
    }

    /** Adds the language model's summary of the filtered periods to
        `forecast`, keeping the filtered periods. */
    method SummarizeForecast(complete: Summarizer) returns (outcome: Outcome<Error>)
      modifies this`forecast, this`trace
      ensures trace == old(trace) + [SummarizeStep]
      ensures old(forecast).None? ==> outcome == Fail(AttributeError("forecast")) && forecast == old(forecast)
      ensures old(forecast).Some? && old(forecast).value.rawFiltered.None? ==>
                outcome == Fail(KeyError("raw_filtered")) && forecast == old(forecast)
      ensures old(forecast).Some? && old(forecast).value.rawFiltered.Some? ==>
                match complete(old(forecast).value.rawFiltered.value, time)
                case CompletionFailure => outcome == Fail(APIError) && forecast == old(forecast)
                case Choices(messages) =>
                  if messages == [] then outcome == Fail(IndexError) && forecast == old(forecast)
                  else outcome == Pass && forecast == Some(old(forecast).value.(chatgptSummary := Some(messages[0])))
      ensures forecast.Some? ==> forecast.value.rawFiltered == old(forecast).value.rawFiltered
    {
      trace := trace + [SummarizeStep];
      if forecast.None? {
        return Fail(AttributeError("forecast"));
      }
      var current := forecast.value;
      if current.rawFiltered.None? {
        return Fail(KeyError("raw_filtered"));
      }
      var completion := complete(current.rawFiltered.value, time);
      match completion
      case CompletionFailure =>
        outcome := Fail(APIError);
      case Choices(messages) =>
        if messages == [] {
          outcome := Fail(IndexError);
        } else {
          forecast := Some(current.(chatgptSummary := Some(messages[0])));
          outcome := Pass;
        }
    }

    /** If the event is forecastable, fetch, then filter, then summarise,
        stopping at the first step that raises; otherwise do nothing. */
    method MainGetForecast(now: Instant, hourly: HourlyProvider, complete: Summarizer) returns (outcome: Outcome<Error>)
      modifies this`raw, this`forecast, this`trace
      ensures !Forecastable(time.startDateTime, now) ==>
                && outcome == Pass
                && raw == old(raw) && forecast == old(forecast) && trace == old(trace)
      ensures Forecastable(time.startDateTime, now) ==>
                var response := hourly(place);
                if RaisesForStatus(response.statusCode) then
                  && outcome == Fail(HTTPError(response.statusCode))
                  && raw == old(raw) && forecast == old(forecast)
                  && trace == old(trace) + [FetchStep]
                else if time.endDateTime.None? then
                  && outcome == Fail(TypeError)
                  && raw == Some(response.periods) && forecast == old(forecast)
                  && trace == old(trace) + [FetchStep, FilterStep]
                else
                  var kept := CoveringPeriods(response.periods, time.startDateTime, time.endDateTime.value);
                  && raw == Some(response.periods)
                  && trace == old(trace) + [FetchStep, FilterStep, SummarizeStep]
                  && match complete(kept, time)
                     case Choices(messages) =>
                       if messages == [] then
                         outcome == Fail(IndexError) && forecast == Some(ForecastDict(Some(kept), None))
                       else
                         outcome == Pass && forecast == Some(ForecastDict(Some(kept), Some(messages[0])))
                     case CompletionFailure =>
                       outcome == Fail(APIError) && forecast == Some(ForecastDict(Some(kept), None))
    {
      if !Forecastable(time.startDateTime, now) {
        return Pass;
      }
      outcome := GetForecast(hourly);
      if outcome.Fail? {
        return;
      }
      outcome := FilterForecast();
      if outcome.Fail? {
        return;
      }
      outcome := SummarizeForecast(complete);
    }
  }

  /** Building the object runs the whole sequence, as its initialiser does;
      if any step raises, no object results. A Forecast that is built either
      holds nothing (the event was not yet forecastable) or holds the fetched
      periods, the filtered periods and the summary together. */
  method NewForecast(place: GridCell, time: Time, now: Instant, hourly: HourlyProvider, complete: Summarizer)
    returns (r: Result<Forecast, Error>)
    ensures !Forecastable(time.startDateTime, now) ==>
              && r.Ok? && fresh(r.value) && r.value.place == place && r.value.time == time
              && r.value.raw == None && r.value.forecast == None && r.value.trace == []
    ensures Forecastable(time.startDateTime, now) ==>
              var response := hourly(place);
              if RaisesForStatus(response.statusCode) then
                r == Err(HTTPError(response.statusCode))
              else if time.endDateTime.None? then
                r == Err(TypeError)
              else
                var kept := CoveringPeriods(response.periods, time.startDateTime, time.endDateTime.value);
                match complete(kept, time)
                case CompletionFailure => r == Err(APIError)
                case Choices(messages) =>
                  if messages == [] then r == Err(IndexError)
                  else
                    && r.Ok? && fresh(r.value) && r.value.place == place && r.value.time == time
                    && r.value.raw == Some(response.periods)
                    && r.value.forecast == Some(ForecastDict(Some(kept), Some(messages[0])))
                    && r.value.trace == [FetchStep, FilterStep, SummarizeStep]
    ensures r.Ok? ==>
              || (r.value.raw == None && r.value.forecast == None)
              || (&& r.value.raw.Some? && r.value.forecast.Some?
                  && r.value.forecast.value.rawFiltered.Some? && r.value.forecast.value.chatgptSummary.Some?)
  {
    var f := new Forecast(place, time);
    var outcome := f.MainGetForecast(now, hourly, complete);
    match outcome
    case Fail(e) => r := Err(e);
    case Pass => r := Ok(f);
  }

  /** The three boundary cases of the gate, one day being 86,400,000,000
      microseconds and the reference now 2024-01-01T00:00:00Z. */
  lemma ForecastableExamples()
    ensures var now := 1_704_067_200_000_000;
            var day := 86_400_000_000;
            && Forecastable(now + 2 * day, now)
            && !Forecastable(now + 9 * day, now)
            && Forecastable(now + 7 * day, now)
            && Forecastable(now - day, now)
  {
  }
}
