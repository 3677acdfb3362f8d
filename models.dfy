/** The record models of models.py that carry logic: the validation of an
    event's time window, the place whose coordinates and grid cell are
    derived from its address, and the event that picks one hourly period for
    its start time. */
module Models {
  import opened Types

  const StartBeforeEndMessage: string := "The startDateTime must be before the endDateTime."
  const FutureStartMessage: string := "The startDateTime must be in the future."
  const NoResultsMessage: string := "The address provided returned no results."
  const ZeroResults: string := "ZERO_RESULTS"

  /** The optional exception of a step as the outcome of that step. */
  function AsOutcome(failure: Option<Error>): Outcome<Error>
  {
    match failure
    case None => Pass
    case Some(e) => Fail(e)
  }

  // ----- Time -----

  /** The start must come strictly before the end; an absent end cannot be
      parsed and raises a TypeError. */
  function ValidateStartEndTimes(t: Time): (r: Outcome<Error>)
    ensures r.Pass? <==> t.endDateTime.Some? && t.startDateTime < t.endDateTime.value
    ensures t.endDateTime.None? ==> r == Fail(TypeError)
    ensures r.Fail? && t.endDateTime.Some? ==> r.error == ValueError(StartBeforeEndMessage)
  {
    match t.endDateTime
    case None => Fail(TypeError)
    case Some(end) =>
      if t.startDateTime >= end then Fail(ValueError(StartBeforeEndMessage)) else Pass
  }

  /** The start must lie strictly after now. */
  function ValidateFutureStartTime(t: Time, now: Instant): (r: Outcome<Error>)
    ensures r.Pass? <==> t.startDateTime > now
    ensures r.Fail? ==> r.error == ValueError(FutureStartMessage)
  {
    if t.startDateTime <= now then Fail(ValueError(FutureStartMessage)) else Pass
  }

  /** Constructing a Time: the ordering check first, then the future check. */
  function ValidateTime(t: Time, now: Instant): (r: Result<Time, Error>)
    ensures r.Ok? <==> t.endDateTime.Some? && t.startDateTime < t.endDateTime.value && t.startDateTime > now
    ensures r.Ok? ==> r.value == t
    ensures t.endDateTime.Some? && t.startDateTime >= t.endDateTime.value ==>
              r == Err(ValueError(StartBeforeEndMessage))
    ensures t.endDateTime.None? ==> r == Err(TypeError)
    ensures t.endDateTime.Some? && t.startDateTime < t.endDateTime.value && t.startDateTime <= now ==>
              r == Err(ValueError(FutureStartMessage))
  {
    match ValidateStartEndTimes(t)
    case Fail(e) => Err(e)
    case Pass =>
      match ValidateFutureStartTime(t, now)
      case Fail(e) => Err(e)
      case Pass => Ok(t)
  }

  // ----- Place -----

  datatype Location = Location(lat: real, lng: real)

  /** The geocoder's answer: HTTP status, the `status` field and the results. */
  datatype GeocodeResponse = GeocodeResponse(statusCode: int, status: string, results: seq<Location>)

  /** The points endpoint's answer: HTTP status and the three grid keys of
      `properties`, each None when the key is missing. */
  datatype PointsResponse = PointsResponse(statusCode: int, gridId: Option<string>, gridX: Option<int>, gridY: Option<int>)

  type Geocoder = string -> GeocodeResponse
  type PointsProvider = (Option<real>, Option<real>) -> PointsResponse

  /** The provider lookups of a place, in the order they can happen. */
  datatype Lookup = GeocodeLookup | PointsLookup

  /** The exception geocoding raises for this answer, if any. */
  function GeocodeFailure(response: GeocodeResponse): (r: Option<Error>)
    ensures r.None? <==>
              !RaisesForStatus(response.statusCode) && response.status != ZeroResults && response.results != []
    ensures !RaisesForStatus(response.statusCode) && response.status == ZeroResults ==>
              r == Some(ValueError(NoResultsMessage))
  {
    if RaisesForStatus(response.statusCode) then Some(HTTPError(response.statusCode))
    else if response.status == ZeroResults then Some(ValueError(NoResultsMessage))
    else if response.results == [] then Some(IndexError)
    else None
  }

  /** The exception the grid lookup raises for this answer, if any. */
  function PointsFailure(response: PointsResponse): (r: Option<Error>)
    ensures r.None? <==>
              && !RaisesForStatus(response.statusCode)
              && response.gridId.Some? && response.gridX.Some? && response.gridY.Some?
  {
    if RaisesForStatus(response.statusCode) then Some(HTTPError(response.statusCode))
    else if response.gridId.None? then Some(KeyError("gridId"))
    else if response.gridX.None? then Some(KeyError("gridX"))
    else if response.gridY.None? then Some(KeyError("gridY"))
    else None
  }

  /** The exception building a Place raises from its own code, if any:
      the geocoder's, else the grid lookup's for the geocoded coordinates. */
  function PlaceFailure(address: string, geocode: Geocoder, points: PointsProvider): (r: Option<Error>)
    ensures r.None? <==>
              && GeocodeFailure(geocode(address)).None?
              && PointsFailure(points(Some(geocode(address).results[0].lat),
                                      Some(geocode(address).results[0].lng))).None?
    ensures GeocodeFailure(geocode(address)).Some? ==> r == GeocodeFailure(geocode(address))
    ensures r.Some? ==> !r.value.ValidationError?
    ensures GeocodeFailure(geocode(address)).None? ==>
              r == PointsFailure(points(Some(geocode(address).results[0].lat),
                                        Some(geocode(address).results[0].lng)))
  {
    var g := geocode(address);
    match GeocodeFailure(g)
    case Some(e) => Some(e)
    case None => PointsFailure(points(Some(g.results[0].lat), Some(g.results[0].lng)))
  }

  /** pydantic (version 2) reports a ValueError raised while a model is
      validated as a line error of a ValidationError; any other exception
      escapes as it is. */
  function Reported(e: Error): (r: Error)
    ensures e.ValueError? ==> r == ValidationError([e])
    ensures !e.ValueError? ==> r == e
  {
    if e.ValueError? then ValidationError([e]) else e
  }

  class Place {
    var address: string
    var lat: Option<real>
    var lon: Option<real>
    var gridId: Option<string>
    var gridX: Option<int>
    var gridY: Option<int>
    /** The provider lookups made so far, oldest first. */
    ghost var trace: seq<Lookup>

    /** The fields as given; the derivation is ModelPostInit. */
    constructor (address: string, lat: Option<real>, lon: Option<real>,
                 gridId: Option<string>, gridX: Option<int>, gridY: Option<int>)
      ensures this.address == address && this.lat == lat && this.lon == lon
      ensures this.gridId == gridId && this.gridX == gridX && this.gridY == gridY
      ensures trace == []
    {
      this.address := address;
      this.lat, this.lon := lat, lon;
      this.gridId, this.gridX, this.gridY := gridId, gridX, gridY;
      trace := [];
    }

    /** Sets lat and lon from the first geocoding result; a ZERO_RESULTS
        status raises and leaves both as they were. */
    method GetLatLonForAddress(geocode: Geocoder) returns (outcome: Outcome<Error>)
      modifies this`lat, this`lon, this`trace
      ensures trace == old(trace) + [GeocodeLookup]
      ensures var response := geocode(address);
              match GeocodeFailure(response)
              case Some(e) => outcome == Fail(e) && lat == old(lat) && lon == old(lon)
              case None =>
                outcome == Pass && lat == Some(response.results[0].lat) && lon == Some(response.results[0].lng)
    {
      trace := trace + [GeocodeLookup];
      var response := geocode(address);
      if RaisesForStatus(response.statusCode) {
        return Fail(HTTPError(response.statusCode));
      }
      if response.status == ZeroResults {
        return Fail(ValueError(NoResultsMessage));
      }
      if |response.results| == 0 {
        return Fail(IndexError);
      }
      lat := Some(response.results[0].lat);
      lon := Some(response.results[0].lng);
      outcome := Pass;
    }

    /** Sets gridId, gridX and gridY, in that order, from the points answer
        for the current lat and lon; a missing key raises after the keys
        before it were assigned. */
    method GetGridpointsByLatLon(points: PointsProvider) returns (outcome: Outcome<Error>)
      modifies this`gridId, this`gridX, this`gridY, this`trace
      ensures trace == old(trace) + [PointsLookup]
      ensures var response := points(lat, lon);
              && outcome == AsOutcome(PointsFailure(response))
              && (outcome.Pass? ==>
                    gridId == response.gridId && gridX == response.gridX && gridY == response.gridY)
              && (RaisesForStatus(response.statusCode) || response.gridId.None? ==>
                    gridId == old(gridId) && gridX == old(gridX) && gridY == old(gridY))
              && (!RaisesForStatus(response.statusCode) && response.gridId.Some? && response.gridX.None? ==>
                    gridId == response.gridId && gridX == old(gridX) && gridY == old(gridY))
              && (!RaisesForStatus(response.statusCode) && response.gridId.Some? && response.gridX.Some?
                    && response.gridY.None? ==>
                    gridId == response.gridId && gridX == response.gridX && gridY == old(gridY))
    {
      trace := trace + [PointsLookup];
      var response := points(lat, lon);
      if RaisesForStatus(response.statusCode) {
        return Fail(HTTPError(response.statusCode));
      }
      if response.gridId.None? {
        return Fail(KeyError("gridId"));
      }
      gridId := response.gridId;
      if response.gridX.None? {
        return Fail(KeyError("gridX"));
      }
      gridX := response.gridX;
      if response.gridY.None? {
        return Fail(KeyError("gridY"));
      }
      gridY := response.gridY;
      outcome := Pass;
    }

    /** Geocode, then look up the grid cell of the new coordinates; a failed
        geocode stops before the grid lookup. */
    method ModelPostInit(geocode: Geocoder, points: PointsProvider) returns (outcome: Outcome<Error>)
      modifies this`lat, this`lon, this`gridId, this`gridX, this`gridY, this`trace
      ensures var g := geocode(address);
              match GeocodeFailure(g)
              case Some(e) =>
                && outcome == Fail(e)
                && lat == old(lat) && lon == old(lon)
                && gridId == old(gridId) && gridX == old(gridX) && gridY == old(gridY)
                && trace == old(trace) + [GeocodeLookup]
              case None =>
                var p := points(Some(g.results[0].lat), Some(g.results[0].lng));
                && lat == Some(g.results[0].lat) && lon == Some(g.results[0].lng)
                && trace == old(trace) + [GeocodeLookup, PointsLookup]
                && outcome == AsOutcome(PointsFailure(p))
                && (outcome.Pass? ==> gridId == p.gridId && gridX == p.gridX && gridY == p.gridY)
    {
      outcome := GetLatLonForAddress(geocode);
      if outcome.Fail? {
        return;
      }
      outcome := GetGridpointsByLatLon(points);
    }
  }

  /** Building a Place derives its coordinates and grid cell; if either
      lookup raises, no Place results, and a ValueError reaches the caller
      inside a ValidationError. */
  method NewPlace(address: string, geocode: Geocoder, points: PointsProvider) returns (r: Result<Place, Error>)
    ensures PlaceFailure(address, geocode, points).Some? ==>
              r == Err(Reported(PlaceFailure(address, geocode, points).value))
    ensures PlaceFailure(address, geocode, points).None? ==>
              var g := geocode(address);
              var p := points(Some(g.results[0].lat), Some(g.results[0].lng));
              && r.Ok? && fresh(r.value) && r.value.address == address
              && r.value.lat == Some(g.results[0].lat) && r.value.lon == Some(g.results[0].lng)
              && r.value.gridId == p.gridId && r.value.gridX == p.gridX && r.value.gridY == p.gridY
              && r.value.trace == [GeocodeLookup, PointsLookup]
    ensures r.Ok? ==>
              && r.value.lat.Some? && r.value.lon.Some?
              && r.value.gridId.Some? && r.value.gridX.Some? && r.value.gridY.Some?
  {
    var place := new Place(address, None, None, None, None, None);
    var outcome := place.ModelPostInit(geocode, points);
    match outcome
    case Fail(e) => r := Err(Reported(e));
    case Pass => r := Ok(place);
  }

  // ----- Event -----

  /** The period's span holds the instant, both edges inclusive. */
  predicate Contains(p: Period, t: Instant) {
    t >= p.startTime && t <= p.endTime
  }

  /** The index of the first period, in list order, whose span holds t. */
  function FirstContaining(periods: seq<Period>, t: Instant): (r: Option<nat>)
    ensures r.Some? ==> r.value < |periods| && Contains(periods[r.value], t)
    ensures r.Some? ==> forall j :: 0 <= j < r.value ==> !Contains(periods[j], t)
    ensures r.None? ==> forall j :: 0 <= j < |periods| ==> !Contains(periods[j], t)
  {
    if periods == [] then None
    else if Contains(periods[0], t) then Some(0)
    else match FirstContaining(periods[1..], t)
      case None => None
      case Some(i) => Some(i + 1)
  }

  /** The period the event loop leaves selected: the first one holding t,
      else the last one looked at; a loop over no periods leaves its
      variable unbound. */
  function SelectedPeriod(periods: seq<Period>, t: Instant): (r: Result<Period, Error>)
    ensures r.Err? <==> periods == []
    ensures r.Err? ==> r.error == UnboundLocalError
    ensures r.Ok? ==> r.value in periods
  {
    match FirstContaining(periods, t)
    case Some(i) => Ok(periods[i])
    case None => if periods == [] then Err(UnboundLocalError) else Ok(periods[|periods| - 1])
  }

  /** The first period holding t is the one selected. */
  lemma SelectsFirstContaining(periods: seq<Period>, t: Instant, i: nat)
    requires i < |periods| && Contains(periods[i], t)
    requires forall j :: 0 <= j < i ==> !Contains(periods[j], t)
    ensures SelectedPeriod(periods, t) == Ok(periods[i])
  {
  }

  /** When no period holds t, the last period is selected. */
  lemma SelectsLastWhenNoneContains(periods: seq<Period>, t: Instant)
    requires periods != []
    requires forall j :: 0 <= j < |periods| ==> !Contains(periods[j], t)
    ensures SelectedPeriod(periods, t) == Ok(periods[|periods| - 1])
  {
  }

  /** The search loop of get_event_forecast: stop at the first period
      holding the event's start; the loop variable keeps the last period
      looked at. */
  method FindEventPeriod(periods: seq<Period>, eventTime: Instant) returns (r: Result<Period, Error>)
    ensures r == SelectedPeriod(periods, eventTime)
  {
    var periodForecast: Option<Period> := None;
    for i := 0 to |periods|
      invariant forall j :: 0 <= j < i ==> !Contains(periods[j], eventTime)
      invariant periodForecast == if i == 0 then None else Some(periods[i - 1])
    {
      periodForecast := Some(periods[i]);
      var startTime := periods[i].startTime;
      var endTime := periods[i].endTime;
      if eventTime >= startTime && eventTime <= endTime {
        SelectsFirstContaining(periods, eventTime, i);
        break;
      }
    }
    match periodForecast
    case None =>
      r := Err(UnboundLocalError);
    case Some(p) =>
      r := Ok(p);
  }

  class Event {
    var time: Time
    var place: Place
    /** The selected period; None until one has been selected. */
    var forecast: Option<Period>

    constructor (time: Time, place: Place)
      ensures this.time == time && this.place == place && forecast == None
    {
      this.time := time;
      this.place := place;
      forecast := None;
    }

    /** Fetches the hourly periods of the place's grid cell and keeps the one
        the search loop selects for the event's start; the end time is not
        read. */
    method GetEventForecast(hourly: HourlyProvider) returns (outcome: Outcome<Error>)
      modifies this`forecast
      ensures var response := hourly(GridCell(place.gridId, place.gridX, place.gridY));
              if RaisesForStatus(response.statusCode) then
                outcome == Fail(HTTPError(response.statusCode)) && forecast == old(forecast)
              else
                match SelectedPeriod(response.periods, time.startDateTime)
                case Ok(p) => outcome == Pass && forecast == Some(p)
                case Err(e) => outcome == Fail(e) && forecast == old(forecast)
    {
      var response := hourly(GridCell(place.gridId, place.gridX, place.gridY));
      if RaisesForStatus(response.statusCode) {
        return Fail(HTTPError(response.statusCode));
      }
      var selected := FindEventPeriod(response.periods, time.startDateTime);
      match selected
      case Err(e) =>
        outcome := Fail(e);
      case Ok(p) =>
        forecast := Some(p);
        outcome := Pass;
    }
  }

  /** Validating an Event's fields: the time, then the place. A ValueError
      from either becomes a line error and validation goes on to the next
      field; any other exception escapes at once. The result is the line
      errors collected, or the exception that escaped. */
  function EventFieldErrors(time: Time, now: Instant, address: string,
                            geocode: Geocoder, points: PointsProvider): (r: Result<seq<Error>, Error>)
    ensures r.Err? ==> !r.error.ValueError? && !r.error.ValidationError?
    ensures r.Ok? ==> forall e :: e in r.value ==> e.ValueError?
    ensures r.Ok? ==> (r.value == [] <==> ValidateTime(time, now).Ok? && PlaceFailure(address, geocode, points).None?)
    // the time's own exception, when it is not a ValueError, escapes before any lookup
    ensures ValidateTime(time, now) == Err(TypeError) ==> r == Err(TypeError)
    ensures ValidateTime(time, now).Err? && !ValidateTime(time, now).error.ValueError? ==>
              r == Err(ValidateTime(time, now).error)
    // a valid time: the place decides
    ensures ValidateTime(time, now).Ok? && PlaceFailure(address, geocode, points).None? ==>
              r == Ok([])
    ensures && ValidateTime(time, now).Ok? && PlaceFailure(address, geocode, points).Some?
            && PlaceFailure(address, geocode, points).value.ValueError? ==>
              r == Ok([PlaceFailure(address, geocode, points).value])
    ensures && ValidateTime(time, now).Ok? && PlaceFailure(address, geocode, points).Some?
            && !PlaceFailure(address, geocode, points).value.ValueError? ==>
              r == Err(PlaceFailure(address, geocode, points).value)
    // a time ValueError is collected first, then the place is still built
    ensures && ValidateTime(time, now).Err? && ValidateTime(time, now).error.ValueError?
            && PlaceFailure(address, geocode, points).None? ==>
              r == Ok([ValidateTime(time, now).error])
    ensures && ValidateTime(time, now).Err? && ValidateTime(time, now).error.ValueError?
            && PlaceFailure(address, geocode, points).Some?
            && PlaceFailure(address, geocode, points).value.ValueError? ==>
              r == Ok([ValidateTime(time, now).error, PlaceFailure(address, geocode, points).value])
    ensures && ValidateTime(time, now).Err? && ValidateTime(time, now).error.ValueError?
            && PlaceFailure(address, geocode, points).Some?
            && !PlaceFailure(address, geocode, points).value.ValueError? ==>
              r == Err(PlaceFailure(address, geocode, points).value)
  {
    var checked := ValidateTime(time, now);
    if checked.Err? && !checked.error.ValueError? then Err(checked.error)
    else
      match PlaceFailure(address, geocode, points)
      case None => if checked.Ok? then Ok([]) else Ok([checked.error])
      case Some(e) =>
        if !e.ValueError? then Err(e)
        else if checked.Ok? then Ok([e])
        else Ok([checked.error, e])
  }

  /** Building an Event: its fields are validated (EventFieldErrors); if any
      line error was collected, a ValidationError is raised; otherwise the
      event's period is selected. Any failure means no Event. */
  method NewEvent(time: Time, address: string, now: Instant,
                  geocode: Geocoder, points: PointsProvider, hourly: HourlyProvider)
    returns (r: Result<Event, Error>)
    ensures match EventFieldErrors(time, now, address, geocode, points)
            case Err(e) => r == Err(e)
            case Ok(lineErrors) =>
              if lineErrors != [] then r == Err(ValidationError(lineErrors))
              else
                var g := geocode(address);
                var p := points(Some(g.results[0].lat), Some(g.results[0].lng));
                var response := hourly(GridCell(p.gridId, p.gridX, p.gridY));
                if RaisesForStatus(response.statusCode) then r == Err(HTTPError(response.statusCode))
                else
                  match SelectedPeriod(response.periods, time.startDateTime)
                  case Err(e) => r == Err(e)
                  case Ok(period) =>
                    && r.Ok? && fresh(r.value) && r.value.time == time && r.value.forecast == Some(period)
                    && r.value.place.address == address
                    && r.value.place.lat == Some(g.results[0].lat) && r.value.place.lon == Some(g.results[0].lng)
                    && r.value.place.gridId == p.gridId && r.value.place.gridX == p.gridX
                    && r.value.place.gridY == p.gridY
    ensures r.Ok? ==>
              && time.endDateTime.Some? && time.startDateTime < time.endDateTime.value
              && time.startDateTime > now
              && r.value.place.gridId.Some? && r.value.place.gridX.Some? && r.value.place.gridY.Some?
  {
    var lineErrors: seq<Error> := [];
    var checked := ValidateTime(time, now);
    if checked.Err? {
      if !checked.error.ValueError? {
        return Err(checked.error);
      }
      lineErrors := [checked.error];
    }
    var place := NewPlace(address, geocode, points);
    if place.Err? {
      if !place.error.ValidationError? {
        return Err(place.error);
      }
      assert place.error.lineErrors == [PlaceFailure(address, geocode, points).value];
      assert checked.Ok? ==> [] + place.error.lineErrors == place.error.lineErrors;
      assert checked.Err? ==>
               [checked.error] + place.error.lineErrors == [checked.error, PlaceFailure(address, geocode, points).value];
      lineErrors := lineErrors + place.error.lineErrors;
    }
    if lineErrors != [] {
      return Err(ValidationError(lineErrors));
    }
    var event := new Event(time, place.value);
    var outcome := event.GetEventForecast(hourly);
    match outcome
    case Fail(e) => r := Err(e);
    case Pass => r := Ok(event);
  }
}
