# raincheck: event-forecast logic, modelled in Dafny

raincheck keeps weather-aware reminders for scheduled events. An event has a
place (an address) and a time window. The place is geocoded to a latitude and
longitude, then mapped to a National Weather Service grid cell. The hourly
forecast for that cell is fetched, and the periods that matter for the event
are kept; a language model may then summarise them.

This project models the decision logic of that pipeline:

- `types.dfy` (module `Types`): instants, the failure wrappers, the Python
  exceptions the code raises (`Error`), the `time` record, the forecast
  period and the hourly-forecast response.
- `forecast_utilities.dfy` (module `ForecastUtilities`), after
  `tools/forecast_utilities.py`:
  - the seven-day forecastability gate;
  - the period filter, as a loop (`CollectPeriods`) proved against a
    specification function (`CoveringPeriods`);
  - the `Forecast` class, whose methods fill in the `raw` and `forecast`
    attributes step by step: fetch, then filter, then summarise.
- `models.dfy` (module `Models`), after `models.py`:
  - the `Time` validators;
  - the `Place` class, whose methods derive `lat`/`lon` and then
    `gridId`/`gridX`/`gridY` from provider answers;
  - the `Event` class, whose search loop (`FindEventPeriod`) picks one
    period for the event's start.

Instants are integers: microseconds since the Unix epoch, UTC. Every
comparison in the source is between timezone-aware datetimes, so only the
instant matters. The current time is a parameter `now`. Each external service
is a total function parameter from request to answer:

- the hourly forecast: grid cell → response;
- the geocoder: address → response;
- the points lookup: (lat, lon) → response;
- the language model: (periods, time) → completion.

So a contract can say which request a step made. For example, the grid lookup
is made with the coordinates the geocoder just produced. An exception becomes
a `Fail`/`Err` value. Attributes assigned before a raise stay assigned, as in
Python. A constructor that raises yields no object (`NewForecast`,
`NewPlace`, `NewEvent` return `Err`). The ghost `trace` fields record what
was attempted, in order: in `Place`, the two provider lookups; in `Forecast`,
the fetch, filter and summarise steps.

`Place` and `Event` are pydantic (version 2) models. The model follows
pydantic's rule for exceptions raised while a model is validated, including
those from `model_post_init`:

- A `ValueError` becomes a line error of a `ValidationError`, and validation
  goes on to the next field.
- Any other exception escapes at once.
- A nested model's line errors join those of the model around it.

So building an Event first validates its `time` field, and then builds its
`place`, even when the time was invalid.

Behaviours of the code worth noting:

- An absent `endDateTime` is not accepted. `dateutil`'s parser raises a
  `TypeError` on `None`, both in the `Time` validator and in the filter.
- A failed summary is not recoverable. The exception leaves `Forecast`'s
  initialiser, so no Forecast object results.
- When no period holds the event's start, `get_event_forecast` keeps the
  *last* period rather than none. An empty period list raises
  `UnboundLocalError`.
- Nothing is memoised and nothing is retried in these files.

## Model

| member | source | states |
|---|---|---|
| ForecastUtilities.Forecastable | tools/forecast_utilities.py:81-92 | forecastable exactly when start ≤ now + 7 days; every start at or before now is forecastable, and so is a start exactly 7 days ahead |
| ForecastUtilities.ForecastableExamples | tools/forecast_utilities.py:81-92 | from 2024-01-01T00:00Z: 2 days ahead and 1 day past are forecastable, 9 days ahead is not, exactly 7 days ahead is |
| ForecastUtilities.CoveringPeriods | tools/forecast_utilities.py:57-62 | every kept period satisfies period_start ≤ event_start and event_end ≤ period_end |
| ForecastUtilities.CoveringPeriodsMembership | tools/forecast_utilities.py:57-62 | a period is kept iff it occurs in the input and holds the whole window, both edges inclusive |
| ForecastUtilities.CoveringPeriodsSubsequence | tools/forecast_utilities.py:56-62 | the kept periods are a subsequence of the input, in the input's order |
| ForecastUtilities.SubsequenceNoLonger | tools/forecast_utilities.py:56-62 | a subsequence is no longer than the list it comes from |
| ForecastUtilities.CoveringPeriodsNoLonger | tools/forecast_utilities.py:56-62 | the filtered list is at most as long as raw, because it is a subsequence of raw |
| ForecastUtilities.CoveringPeriodsAppend | tools/forecast_utilities.py:57-62 | filtering a concatenation is the concatenation of the filtered parts, which is why appending in a loop computes the filter |
| ForecastUtilities.CoveringPeriodsKeepsAll | tools/forecast_utilities.py:57-62 | a list whose every period holds the window is returned whole |
| ForecastUtilities.CoveringPeriodsIdempotent | tools/forecast_utilities.py:57-62 | filtering raw_filtered again with the same window yields raw_filtered |
| ForecastUtilities.CollectPeriods | tools/forecast_utilities.py:56-62 | the loop's result equals the filter of the raw periods; a period is in it iff it is in the input and holds the window |
| ForecastUtilities.Forecast.constructor | tools/forecast_utilities.py:40-41 | place and time are copied; raw and forecast are not yet set |
| ForecastUtilities.Forecast.GetForecast | tools/forecast_utilities.py:44-49 | an HTTP error status raises and leaves raw unchanged; otherwise raw is the list of periods for the object's grid cell |
| ForecastUtilities.Forecast.FilterForecast | tools/forecast_utilities.py:51-65 | raw is unchanged; forecast becomes a fresh dictionary whose only entry is raw_filtered = the filtered raw periods; a missing end raises TypeError, an unset raw raises AttributeError, both leaving forecast unchanged |
| ForecastUtilities.Forecast.SummarizeForecast | tools/forecast_utilities.py:67-79 | adds chatgpt_summary = the first choice's message for the filtered periods and keeps raw_filtered; a missing forecast, a missing key, a client failure or no choice raises and leaves forecast unchanged |
| ForecastUtilities.Forecast.MainGetForecast | tools/forecast_utilities.py:94-99 | not forecastable: nothing is fetched, filtered or summarised and raw/forecast are unchanged; forecastable: fetch, then filter, then summarise, stopping at the first raise, with the resulting raw and forecast for each way it can end |
| ForecastUtilities.NewForecast | tools/forecast_utilities.py:16-42 | not forecastable: a Forecast holding nothing; otherwise, for each way the fetch, filter and summary can end, either the exception raised (HTTPError with the status, TypeError, APIError, IndexError) or a Forecast whose raw is the fetched periods and whose forecast is exactly {raw_filtered: the filtered periods, chatgpt_summary: the first choice's message}; so a built Forecast is never partly filled |
| Models.ValidateStartEndTimes | models.py:136-140 | passes iff an end is given and start < end; start ≥ end raises the "must be before" ValueError, an absent end a TypeError |
| Models.ValidateFutureStartTime | models.py:142-146 | passes iff start > now; otherwise raises the "must be in the future" ValueError |
| Models.ValidateTime | models.py:148-150 | Time's model_post_init passes iff start < end and start > now, returning the time unchanged (pydantic then reports a ValueError as described under Reported); when start ≥ end the ordering error is raised whatever now is, because that check runs first |
| Models.GeocodeFailure | models.py:191-195 | geocoding succeeds iff the HTTP status is not an error, the status is not ZERO_RESULTS and there is a first result; ZERO_RESULTS gives the "no results" ValueError |
| Models.PointsFailure | models.py:199-202 | the grid lookup succeeds iff the HTTP status is not an error and gridId, gridX and gridY are all present |
| Models.PlaceFailure | models.py:184-206 | building a Place raises nothing iff geocoding succeeds and the grid lookup for the geocoded coordinates succeeds; a geocoding failure is the one raised; after a successful geocoding, the grid lookup's own failure (HTTP error or missing key) for the first result's coordinates is the one raised; never a ValidationError |
| Models.Reported | models.py:204-206 | a ValueError raised while a model is validated reaches the caller as a one-line ValidationError; any other exception unchanged |
| Models.Place.constructor | models.py:153-182 | the six fields are as given |
| Models.Place.GetLatLonForAddress | models.py:184-195 | on a raise lat and lon are untouched; otherwise both come from the first result of the answer for the place's address |
| Models.Place.GetGridpointsByLatLon | models.py:197-202 | the lookup uses the current lat/lon; on success gridId, gridX and gridY all come from the same answer; a missing key raises after assigning only the keys before it |
| Models.Place.ModelPostInit | models.py:204-206 | geocoding comes first; if it raises, no grid lookup is made and no field changes; otherwise the grid lookup uses the new coordinates |
| Models.NewPlace | models.py:153-206 | a built Place has its address, and lat, lon, gridId, gridX and gridY all set from the geocoder's first result and the points answer for those coordinates; either lookup raising means no Place, with a ValueError reported inside a ValidationError |
| Models.FirstContaining | models.py:264-271 | the index found is the first, in list order, whose period satisfies period_start ≤ t ≤ period_end; None only when no period does |
| Models.SelectedPeriod | models.py:264-273 | an error (UnboundLocalError) iff the list is empty; otherwise a period of the list |
| Models.SelectsFirstContaining | models.py:266-271 | when period i is the first holding t, period i is the one selected |
| Models.SelectsLastWhenNoneContains | models.py:266-273 | when no period holds t, the last period is the one selected |
| Models.FindEventPeriod | models.py:262-273 | the search loop with its early exit selects exactly the selected period of the specification: first containing, else last, else an error |
| Models.Event.constructor | models.py:246-254 | time and place are as given; no forecast yet |
| Models.Event.GetEventForecast | models.py:256-273 | an HTTP error raises; otherwise forecast becomes the period selected for startDateTime alone (endDateTime is never read), and an empty list raises and leaves forecast unchanged |
| Models.EventFieldErrors | models.py:246-248 | validating time then place gives, in every case: a non-ValueError from the time (the TypeError of an absent end) escapes before any lookup; otherwise the time's ValueError, if any, is collected first and the place is still built; a place ValueError is collected after it, and any other place exception escapes; so valid input gives no line errors, and the result is exactly [], [timeErr], [placeErr], [timeErr, placeErr] or the escaping exception |
| Models.NewEvent | models.py:246-276 | an escaping field exception is raised as it is; collected line errors are raised as one ValidationError; otherwise an HTTP error status from the hourly fetch or an empty period list raises, and in every remaining case an Event is built with the given time, the place for that address with its coordinates and grid fields from the geocoder and points answers, and the period selected for its start |

## Left out

- Transport failures: `requests.get` can raise on a connection error or timeout, and the code sets no timeout. The model represents every provider failure as an HTTP error status (or, for the language model, a client failure), so a request that never returns is not modelled.
- HTTP, JSON and the providers: the requests to maps.googleapis.com and api.weather.gov and the OpenAI call are function parameters. A body missing a key other than the three grid keys is not modelled, and neither is a body that is not JSON.
- ISO-8601 parsing and timezone offsets: instants are integers. A naive datetime, which Python cannot compare with an aware one, is not modelled.
- The clock: `datetime.now()` becomes the parameter `now`. `forecastable` reads the clock twice; the model uses one value for both reads.
- URL encoding of the address (`quote_plus`) is not modelled: the geocoder receives the address itself.
- The prompt text and model settings of the summary are not modelled: the summariser receives the filtered periods and the time. The OpenAI message object is modelled as a string.
- `event_id`, the `Subscriber` and `Subscription` records, the class-level default `Time` values and pydantic's field coercion and schema metadata are not modelled.
- Route handlers, the database layer, the memoised lookups of tools/place_utilities.py and the chat loop are not part of this model. They are plumbing around external services.
