/** The weather adapter: one current-weather query by city name, with the
    provider's JSON document reduced to a small weather record. The HTTP
    request is an injected function from the requested city to the
    provider's response. */
module Weather {
  import opened Results
  import opened Strings
  import opened Numbers

  /** One element of the provider's `weather` array. */
  datatype Condition = Condition(description: Option<string>)

  /** The provider's `main` object. */
  datatype Readings = Readings(temp: Num, feelsLike: Num, humidity: Num)

  /** The parts of the provider's JSON document the adapter reads. */
  datatype Document = Document(name: Option<string>, weather: Option<seq<Condition>>, main: Option<Readings>)

  /** An HTTP response: its status, its text, and its body parsed as JSON. */
  datatype Response = Response(status: nat, text: string, body: Document)

  /** The adapter's result. */
  datatype WeatherRecord = WeatherRecord(
    city: string,
    description: string,
    tempCelsius: Num,
    feelsLikeCelsius: Num,
    humidity: Num)

  const KeyMissing := Error("OpenWeather API key not configured")

  /** The error `data.main.temp` throws when `main` is absent. */
  const NoReadings := Error("Cannot read properties of undefined (reading 'temp')")

  function ApiError(response: Response): Error {
    Error("Weather API error: " + NatToString(response.status) + " " + response.text)
  }

  /** `data.weather && data.weather[0] && data.weather[0].description`. */
  predicate HasDescription(doc: Document) {
    doc.weather.Some? && |doc.weather.value| > 0 && Truthy(doc.weather.value[0].description)
  }

  function Description(doc: Document): string {
    if HasDescription(doc) then doc.weather.value[0].description.value else "No description"
  }

  /** `getCurrentWeatherByCity(city)` with the API key `apiKey` (the empty
      string when it is not configured) and the provider `fetch`; the trace
      lists the cities requested from the provider. */
  function GetCurrentWeatherByCity(apiKey: string, city: string, fetch: string -> Response)
    : (run: Run<Result<WeatherRecord>, string>)
    ensures apiKey == "" <==> run.calls == []
    ensures apiKey == "" ==> run.result == Failure(KeyMissing)
    ensures apiKey != "" ==> run.calls == [city]
    ensures apiKey != "" && !Ok(fetch(city).status) ==> run.result == Failure(ApiError(fetch(city)))
    ensures run.result.Success? <==> apiKey != "" && Ok(fetch(city).status) && fetch(city).body.main.Some?
    ensures run.result.Success? ==>
      var doc := fetch(city).body;
      var w := run.result.value;
      && (Truthy(doc.name) ==> w.city == doc.name.value)
      && (!Truthy(doc.name) ==> w.city == city)
      && w.description != ""
      && (HasDescription(doc) ==> w.description == doc.weather.value[0].description.value)
      && (!HasDescription(doc) ==> w.description == "No description")
      && w.humidity == doc.main.value.humidity
      && w.tempCelsius == RoundTenth(doc.main.value.temp)
      && w.feelsLikeCelsius == RoundTenth(doc.main.value.feelsLike)
  {
    if apiKey == "" then Run(Failure(KeyMissing), [])
    else
      var response := fetch(city);
      if !Ok(response.status) then Run(Failure(ApiError(response)), [city])
      else
        var doc := response.body;
        match doc.main
        case None => Run(Failure(NoReadings), [city])
        case Some(readings) =>
          Run(Success(WeatherRecord(
                Or(doc.name, city),
                Description(doc),
                RoundTenth(readings.temp),
                RoundTenth(readings.feelsLike),
                readings.humidity)),
              [city])
  }
}
