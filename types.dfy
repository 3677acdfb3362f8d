/** Values shared by the forecast utilities and the record models: instants,
    the failure-carrying wrappers, the exceptions the code raises, the
    forecast period the weather service returns, and the shapes of the
    provider responses the code reads. */
module Types {

  /** An absolute instant: microseconds since the Unix epoch, UTC. Every
      timestamp the code compares is timezone-aware, so only the instant
      matters; parsing of ISO-8601 text is not part of this model. */
  type Instant = int

  datatype Option<+T> = None | Some(value: T)

  /** Pass, or the exception that a step raised. */
  datatype Outcome<+E> = Pass | Fail(error: E)

  datatype Result<+R, +E> = Ok(value: R) | Err(error: E)

  /** The Python exceptions the core can raise, by kind. */
  datatype Error =
    | HTTPError(statusCode: int)         // response.raise_for_status()
    | ValueError(message: string)        // raised explicitly by the validators and the geocoder
    | TypeError                          // dateutil's parse given None
    | IndexError                         // [0] of an empty list
    | KeyError(key: string)              // a missing key in a provider's JSON
    | AttributeError(name: string)       // an attribute read before it was ever assigned
    | UnboundLocalError                  // a for-loop variable read after zero iterations
    | APIError                           // the language-model client failed
    | ValidationError(lineErrors: seq<Error>)  // pydantic's report of the ValueErrors raised while validating a model

  /** raise_for_status raises for every client and server error status. */
  predicate RaisesForStatus(statusCode: int) {
    400 <= statusCode < 600
  }

  /** The start and end of an event, as the `time` record holds them. */
  datatype Time = Time(startDateTime: Instant, endDateTime: Option<Instant>)

  /** One period of an hourly forecast. Only startTime and endTime are read;
      the descriptive fields pass through unchanged. */
  datatype Period = Period(
    startTime: Instant,
    endTime: Instant,
    number: int,
    temperature: int,
    shortForecast: string,
    detailedForecast: string)

  /** The grid cell a forecast request is addressed to; each part is None
      while the place has not been resolved. */
  datatype GridCell = GridCell(gridId: Option<string>, gridX: Option<int>, gridY: Option<int>)

  /** The hourly-forecast endpoint's answer: the HTTP status and the
      `properties.periods` list of its body. */
  datatype HourlyResponse = HourlyResponse(statusCode: int, periods: seq<Period>)

  /** The weather service, as a function from grid cell to its answer. */
  type HourlyProvider = GridCell -> HourlyResponse
}
