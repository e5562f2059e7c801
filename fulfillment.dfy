/** The webhook's fulfillment: the agent that collects replies, the four
    intent handlers, the reply composer of the flight handler, and the
    intent map that routes a request to its handler. The two adapters are
    injected as functions from their input to the value they resolve to or
    the error they throw. */
module Fulfillment {
  import opened Results
  import opened Strings
  import opened Numbers
  import opened Slots
  import Weather
  import Flights

  // ----- Agent -------------------------------------------------------------

  /** The webhook client of one request: its intent parameters (an empty
      bag when the platform sends none) and the replies added so far. */
  class Agent {
    const parameters: Params
    var replies: seq<string>

    constructor (parameters: Params)
      ensures this.parameters == parameters && replies == []
    {
      this.parameters := parameters;
      replies := [];
    }

    /** `agent.add(text)`. */
    method Add(text: string)
      modifies this
      ensures replies == old(replies) + [text]
    {
      replies := replies + [text];
    }
  }

  /** One request a handler makes to an adapter. */
  datatype ServiceCall = WeatherCall(city: string) | FlightCall(request: Flights.SearchRequest)

  // ----- Fixed replies -----------------------------------------------------

  const FallbackText := "Sorry, I didn't get that. Can you rephrase?"
  const WelcomeText := "Hi! I am your travel assistant. How can I help?"
  const AskCity := "Which city would you like the weather for?"
  const WeatherApology := "Sorry, I couldn't fetch the weather right now. Please try again later."
  const AskCities := "Please tell me the origin and destination city (e.g., from Mumbai to Delhi)."
  const FlightApology := "Sorry, I couldn't search flights right now. Please try again later."

  // ----- Weather -----------------------------------------------------------

  /** The weather sentence for a record; numbers are written as JavaScript
      writes them. */
  function WeatherSentence(w: Weather.WeatherRecord): string {
    "Weather in " + w.city + ": " + w.description + ". Temperature: " + NumToString(w.tempCelsius) + "°C"
    + (" (feels like " + NumToString(w.feelsLikeCelsius) + "°C). Humidity " + NumToString(w.humidity) + "%.")
  }

  /** What the weather handler replies for `params` when the adapter
      resolves or throws as `weather` says, and the adapter calls it makes. */
  function WeatherReply(params: Params, weather: string -> Result<Weather.WeatherRecord>)
    : (run: Run<string, ServiceCall>)
    ensures City(params) == "" <==> run.calls == []
    ensures City(params) == "" ==> run.result == AskCity
    ensures City(params) != "" ==> run.calls == [WeatherCall(City(params))]
    ensures City(params) != "" && weather(City(params)).Failure? ==> run.result == WeatherApology
    ensures City(params) != "" && weather(City(params)).Success? ==>
      run.result == WeatherSentence(weather(City(params)).value)
  {
    var city := City(params);
    if city == "" then Run(AskCity, [])
    else
      var found := weather(city);
      if found.Failure? then Run(WeatherApology, [WeatherCall(city)])
      else Run(WeatherSentence(found.value), [WeatherCall(city)])
  }

  /** `handleCheckWeather(agent)`: adds exactly the reply `WeatherReply`
      describes. */
  method HandleCheckWeather(agent: Agent, weather: string -> Result<Weather.WeatherRecord>)
    returns (calls: seq<ServiceCall>)
    modifies agent
    ensures agent.replies == old(agent.replies) + [WeatherReply(agent.parameters, weather).result]
    ensures calls == WeatherReply(agent.parameters, weather).calls
  {
    var city := City(agent.parameters);
    if city == "" {
      agent.Add(AskCity);
      calls := [];
      return;
    }
    calls := [WeatherCall(city)];
    var found := weather(city);
    if found.Failure? {
      agent.Add(WeatherApology);
    } else {
      var w := found.value;
      agent.Add(WeatherSentence(w));
    }
  }

  // ----- Flights -----------------------------------------------------------

  /** `f.price || 'N/A'`: a missing or zero price reads as `N/A`. */
  function PriceText(price: Option<Num>): (text: string)
    ensures text == "N/A" <==> price.None? || IsZero(price.value)
    ensures price.Some? && !IsZero(price.value) ==> text == NumToString(price.value)
    ensures text != "N/A" ==> Numeral(text)
  {
    if price.None? || IsZero(price.value) then "N/A"
    else
      NumToStringChars(price.value);
      var s := NumToString(price.value);
      assert s != "N/A" by {
        if |s| == 3 {
          assert NumeralChar(s[0]);
        }
      }
      s
  }

  function NoFlights(origin: string, destination: string): string {
    "I couldn't find flights from " + origin + " to " + destination + ". Try another date or cities."
  }

  /** The first line of a listing, without its line break. */
  function HeaderLine(origin: string, destination: string, count: nat): string {
    "Here are the top " + NatToString(count) + " flights from " + origin + " to " + destination + ":"
  }

  function Header(origin: string, destination: string, count: nat): string {
    HeaderLine(origin, destination, count) + "\n"
  }

  /** The text of the line for the flight ranked `rank`; `f.currency || ''`
      is the currency itself, since the currency is a string. */
  function LineBody(rank: nat, f: Flights.Flight): string {
    NatToString(rank) + ". " + f.airline + " " + f.flightNo + " — Departure: " + f.departureTime
    + " Arrival: " + f.arrivalTime + " — Price: " + PriceText(f.price) + " " + f.currency
  }

  function FlightLine(rank: nat, f: Flights.Flight): string {
    "\n" + LineBody(rank, f)
  }

  /** The lines of `top`, ranked from 1, each after a line break. */
  function Lines(top: seq<Flights.Flight>): string {
    if |top| == 0 then "" else Lines(top[..|top| - 1]) + FlightLine(|top|, top[|top| - 1])
  }

  /** Extending a prefix by one flight adds that flight's line. */
  lemma LinesPrefix(header: string, reply: string, top: seq<Flights.Flight>, i: nat)
    requires i < |top| && reply == header + Lines(top[..i])
    ensures reply + FlightLine(i + 1, top[i]) == header + Lines(top[..i + 1])
  {
    var prefix := top[..i + 1];
    assert prefix[..i] == top[..i] && prefix[i] == top[i] && |prefix| == i + 1;
    assert Lines(prefix) == Lines(top[..i]) + FlightLine(i + 1, top[i]);
    ConcatAssoc(header, Lines(top[..i]), FlightLine(i + 1, top[i]));
  }

  /** `flights.slice(0, 3)`. */
  function Top(flights: seq<Flights.Flight>): (top: seq<Flights.Flight>)
    ensures |top| <= 3 && |top| <= |flights|
    ensures |top| == 3 || |top| == |flights|
    ensures top == flights[..|top|]
  {
    if |flights| < 3 then flights else flights[..3]
  }

  /** The reply for a non-empty result: a header with the number of flights
      shown, then one line per flight among the first three. */
  function Listing(origin: string, destination: string, flights: seq<Flights.Flight>): string {
    Header(origin, destination, |Top(flights)|) + Lines(Top(flights))
  }

  /** The adapter request the flight handler makes for `params`, when it
      makes one. */
  function SearchRequestFor(params: Params): Flights.SearchRequest
    requires Origin(params).Some? && Destination(params).Some?
  {
    Flights.SearchRequest(Origin(params).value, Destination(params).value, DepartDate(params), TravelClass(params))
  }

  /** What the flight handler replies for `params` when the adapter
      resolves or throws as `search` says, and the adapter calls it makes. */
  function FlightReply(params: Params, search: Flights.SearchRequest -> Result<seq<Flights.Flight>>)
    : (run: Run<string, ServiceCall>)
    ensures Origin(params).None? || Destination(params).None? <==> run.calls == []
    ensures Origin(params).None? || Destination(params).None? ==> run.result == AskCities
    ensures Origin(params).Some? && Destination(params).Some? ==>
      var request := SearchRequestFor(params);
      && run.calls == [FlightCall(request)]
      && (search(request).Failure? ==> run.result == FlightApology)
      && (search(request) == Success([]) ==> run.result == NoFlights(request.origin, request.destination))
      && (search(request).Success? && search(request).value != [] ==>
            run.result == Listing(request.origin, request.destination, search(request).value))
  {
    var origin := Origin(params);
    var destination := Destination(params);
    if !Truthy(origin) || !Truthy(destination) then Run(AskCities, [])
    else
      var request := Flights.SearchRequest(origin.value, destination.value, DepartDate(params), TravelClass(params));
      var found := search(request);
      if found.Failure? then Run(FlightApology, [FlightCall(request)])
      else if |found.value| == 0 then Run(NoFlights(origin.value, destination.value), [FlightCall(request)])
      else Run(Listing(origin.value, destination.value, found.value), [FlightCall(request)])
  }

  /** The listing as the handler builds it: the header for the first three
      flights, then one line per flight appended in order. */
  method ComposeListing(origin: string, destination: string, flights: seq<Flights.Flight>)
    returns (reply: string)
    ensures reply == Listing(origin, destination, flights)
  {
    var top := Top(flights);
    var header := Header(origin, destination, |top|);
    reply := header;
    var i := 0;
    while i < |top|
      invariant 0 <= i <= |top|
      invariant reply == header + Lines(top[..i])
    {
      LinesPrefix(header, reply, top, i);
      reply := reply + FlightLine(i + 1, top[i]);
      i := i + 1;
    }
    assert top[..i] == top;
  }

  /** `handleBookFlight(agent)`: adds
      exactly the reply `FlightReply` describes. */
  method HandleBookFlight(agent: Agent, search: Flights.SearchRequest -> Result<seq<Flights.Flight>>)
    returns (calls: seq<ServiceCall>)
    modifies agent
    ensures agent.replies == old(agent.replies) + [FlightReply(agent.parameters, search).result]
    ensures calls == FlightReply(agent.parameters, search).calls
  {
    var params := agent.parameters;
    var origin := Origin(params);
    var destination := Destination(params);
    var departDate := DepartDate(params);
    var travelClass := TravelClass(params);
    if !Truthy(origin) || !Truthy(destination) {
      agent.Add(AskCities);
      calls := [];
      return;
    }
    var request := Flights.SearchRequest(origin.value, destination.value, departDate, travelClass);
    calls := [FlightCall(request)];
    var found := search(request);
    if found.Failure? {
      agent.Add(FlightApology);
      return;
    }
    var flights := found.value;
    if |flights| == 0 {
      agent.Add(NoFlights(origin.value, destination.value));
      return;
    }
    var reply := ComposeListing(origin.value, destination.value, flights);
    agent.Add(reply);
  }

  // ----- Shape of a listing -----------------------------------------------

  /** A flight whose text fields hold no line break. */
  predicate SingleLine(f: Flights.Flight) {
    '\n' !in f.airline && '\n' !in f.flightNo && '\n' !in f.departureTime
    && '\n' !in f.arrivalTime && '\n' !in f.currency
  }

  /** `render(rank, x)` for each element of `xs`, ranked from 1 in order. */
  function Ranked<T>(xs: seq<T>, render: (nat, T) -> string): seq<string> {
    seq(|xs|, i requires 0 <= i < |xs| => render(i + 1, xs[i]))
  }

  /** One more element adds its text, ranked after the others. */
  lemma RankedSnoc<T>(xs: seq<T>, render: (nat, T) -> string)
    requires |xs| > 0
    ensures Ranked(xs, render) == Ranked(xs[..|xs| - 1], render) + [render(|xs|, xs[|xs| - 1])]
  {
    var init := xs[..|xs| - 1];
    assert forall i :: 0 <= i < |init| ==> init[i] == xs[i];
  }

  /** The line texts of `top`, ranked from 1 in order. */
  function Bodies(top: seq<Flights.Flight>): seq<string> {
    Ranked(top, LineBody)
  }

  lemma DigitsSingleLine(s: string)
    requires AllDigits(s)
    ensures '\n' !in s
  {
    forall i | 0 <= i < |s| ensures s[i] != '\n' {
      assert IsDigit(s[i]);
    }
  }

  lemma LineBodySingleLine(rank: nat, f: Flights.Flight)
    requires SingleLine(f)
    ensures '\n' !in LineBody(rank, f)
  {
    DigitsSingleLine(NatToString(rank));
    var price := PriceText(f.price);
    if price != "N/A" {
      forall i | 0 <= i < |price| ensures price[i] != '\n' {
        assert NumeralChar(price[i]);
      }
    }
  }

  /** Text that splits into an empty piece and `bodies`, followed by a line
      break and one more line, splits into one more piece. */
  lemma SplitLineAfter(prefix: string, body: string, bodies: seq<string>)
    requires Split(prefix, '\n') == [""] + bodies && '\n' !in body
    ensures Split(prefix + ['\n'] + body, '\n') == [""] + (bodies + [body])
  {
    SplitConcat(prefix, body, '\n');
    SplitNoSep(body, '\n');
  }

  /** The last flight's line is a line break and its text. */
  lemma LinesSnoc(top: seq<Flights.Flight>)
    requires |top| > 0
    ensures Lines(top) == Lines(top[..|top| - 1]) + ['\n'] + LineBody(|top|, top[|top| - 1])
  {
    ConcatAssoc(Lines(top[..|top| - 1]), ['\n'], LineBody(|top|, top[|top| - 1]));
  }

  /** Splitting the flight lines at line breaks gives an empty piece (the
      text before the first break) and then each line's text. */
  lemma {:induction false} LinesSplit(top: seq<Flights.Flight>)
    requires forall i :: 0 <= i < |top| ==> SingleLine(top[i])
    ensures Split(Lines(top), '\n') == [""] + Bodies(top)
  {
    if |top| > 0 {
      var init := top[..|top| - 1];
      var f := top[|top| - 1];
      var body := LineBody(|top|, f);
      LinesSplit(init);
      LineBodySingleLine(|top|, f);
      LinesSnoc(top);
      SplitLineAfter(Lines(init), body, Bodies(init));
      RankedSnoc(top, LineBody);
    }
  }

  /** A listing is read line by line as the header, an empty line, and one
      line per flight among the first three, ranked 1, 2, 3 in the
      adapter's order; the header counts exactly the flights shown. */
  lemma ListingLines(origin: string, destination: string, flights: seq<Flights.Flight>)
    requires '\n' !in origin && '\n' !in destination
    requires forall i :: 0 <= i < |flights| ==> SingleLine(flights[i])
    ensures var top := Top(flights);
      var lines := Split(Listing(origin, destination, flights), '\n');
      && |lines| == 2 + |top|
      && lines[..2] == [HeaderLine(origin, destination, |top|), ""]
      && |top| == (if |flights| < 3 then |flights| else 3)
      && forall i :: 0 <= i < |top| ==> lines[2 + i] == LineBody(i + 1, flights[i])
  {
    var top := Top(flights);
    ListingShape(origin, destination, flights);
    var lines := [HeaderLine(origin, destination, |top|), ""] + Bodies(top);
    assert lines[..2] == [HeaderLine(origin, destination, |top|), ""];
    forall i | 0 <= i < |top| ensures lines[2 + i] == LineBody(i + 1, flights[i]) {
      BodiesAt(top, i);
      assert top[i] == flights[i];
    }
  }

  lemma ListingShape(origin: string, destination: string, flights: seq<Flights.Flight>)
    requires '\n' !in origin && '\n' !in destination
    requires forall i :: 0 <= i < |flights| ==> SingleLine(flights[i])
    ensures Split(Listing(origin, destination, flights), '\n')
      == [HeaderLine(origin, destination, |Top(flights)|), ""] + Bodies(Top(flights))
  {
    ListingSplit(origin, destination, Top(flights));
  }

  /** Line `i` of the listing's body is the flight at position `i`, ranked
      `i + 1`. */
  lemma BodiesAt(top: seq<Flights.Flight>, i: nat)
    requires i < |top|
    ensures |Bodies(top)| == |top| && Bodies(top)[i] == LineBody(i + 1, top[i])
  {
  }

  lemma ListingSplit(origin: string, destination: string, top: seq<Flights.Flight>)
    requires '\n' !in origin && '\n' !in destination
    requires forall i :: 0 <= i < |top| ==> SingleLine(top[i])
    ensures Split(Header(origin, destination, |top|) + Lines(top), '\n')
      == [HeaderLine(origin, destination, |top|), ""] + Bodies(top)
  {
    var head := HeaderLine(origin, destination, |top|);
    HeaderSingleLine(origin, destination, |top|);
    LinesSplit(top);
    assert Header(origin, destination, |top|) == head + ['\n'];
    SplitAfterLine(head, Lines(top), Bodies(top));
  }

  /** A first line without a break, a break, then text that splits into an
      empty piece and `bodies`. */
  lemma SplitAfterLine(head: string, rest: string, bodies: seq<string>)
    requires '\n' !in head && Split(rest, '\n') == [""] + bodies
    ensures Split(head + ['\n'] + rest, '\n') == [head, ""] + bodies
  {
    SplitConcat(head, rest, '\n');
    SplitNoSep(head, '\n');
  }

  lemma HeaderSingleLine(origin: string, destination: string, count: nat)
    requires '\n' !in origin && '\n' !in destination
    ensures '\n' !in HeaderLine(origin, destination, count)
  {
    DigitsSingleLine(NatToString(count));
  }


  // ----- Routing -----------------------------------------------------------

  /** The handlers index.js registers. */
  datatype Handler = DefaultFallback | Welcome | CheckWeather | BookFlight

  /** The intent map: intent display name to handler. */
  const IntentTable: map<string, Handler> := map[
    "Default Fallback Intent" := DefaultFallback,
    "Default Welcome Intent" := Welcome,
    "Check_Weather" := CheckWeather,
    "Book_Flight" := BookFlight]

  /** The `Map` the webhook builds for each request. */
  class IntentMap {
    var handlers: map<string, Handler>

    constructor ()
      ensures handlers == map[]
    {
      handlers := map[];
    }

    /** `intentMap.set(name, handler)`. */
    method Set(name: string, handler: Handler)
      modifies this
      ensures handlers == old(handlers)[name := handler]
    {
      handlers := handlers[name := handler];
    }
  }

  method BuildIntentMap() returns (m: IntentMap)
    ensures fresh(m) && m.handlers == IntentTable
  {
    m := new IntentMap();
    m.Set("Default Fallback Intent", DefaultFallback);
    m.Set("Default Welcome Intent", Welcome);
    m.Set("Check_Weather", CheckWeather);
    m.Set("Book_Flight", BookFlight);
  }

  /** The reply a handler adds and the adapter calls it makes. */
  function Respond(
    handler: Handler,
    params: Params,
    weather: string -> Result<Weather.WeatherRecord>,
    search: Flights.SearchRequest -> Result<seq<Flights.Flight>>)
    : Run<string, ServiceCall>
  {
    match handler
    case DefaultFallback => Run(FallbackText, [])
    case Welcome => Run(WelcomeText, [])
    case CheckWeather => WeatherReply(params, weather)
    case BookFlight => FlightReply(params, search)
  }

  /** `agent.handleRequest(intentMap)` for a request whose intent is
      registered: the intent's handler adds one reply. For an intent that
      is not registered nothing is added and `handled` is false. */
  method HandleRequest(
    m: IntentMap,
    agent: Agent,
    intent: string,
    weather: string -> Result<Weather.WeatherRecord>,
    search: Flights.SearchRequest -> Result<seq<Flights.Flight>>)
    returns (handled: bool, calls: seq<ServiceCall>)
    modifies agent
    ensures handled <==> intent in m.handlers
    ensures handled ==>
      var run := Respond(m.handlers[intent], agent.parameters, weather, search);
      agent.replies == old(agent.replies) + [run.result] && calls == run.calls
    ensures !handled ==> agent.replies == old(agent.replies) && calls == []
  {
    if intent !in m.handlers {
      return false, [];
    }
    handled := true;
    match m.handlers[intent]
    case DefaultFallback =>
      agent.Add(FallbackText);
      calls := [];
    case Welcome =>
      agent.Add(WelcomeText);
      calls := [];
    case CheckWeather =>
      calls := HandleCheckWeather(agent, weather);
    case BookFlight =>
      calls := HandleBookFlight(agent, search);
  }

  /** The fallback and welcome intents answer with fixed text and call no
      adapter; only the weather intent calls the weather adapter and only the
      flight intent the flight adapter. */
  lemma IntentRouting(
    params: Params,
    weather: string -> Result<Weather.WeatherRecord>,
    search: Flights.SearchRequest -> Result<seq<Flights.Flight>>)
    ensures Respond(IntentTable["Default Fallback Intent"], params, weather, search) == Run(FallbackText, [])
    ensures Respond(IntentTable["Default Welcome Intent"], params, weather, search) == Run(WelcomeText, [])
    ensures forall c :: c in Respond(IntentTable["Check_Weather"], params, weather, search).calls ==> c.WeatherCall?
    ensures forall c :: c in Respond(IntentTable["Book_Flight"], params, weather, search).calls ==> c.FlightCall?
  {
    assert IntentTable["Check_Weather"] == CheckWeather;
    assert IntentTable["Book_Flight"] == BookFlight;
  }

  // ----- Scenarios ---------------------------------------------------------

  lemma PuneNumbers()
    ensures NumToString(Num(300, 1)) == "30" && NumToString(Num(320, 1)) == "32"
    ensures NumToString(Num(60, 0)) == "60"
  {
    assert Pow10(0) == 1 && Pow10(1) == 10;
    WholeText(Num(300, 1), 30);
    WholeText(Num(320, 1), 32);
    WholeText(Num(60, 0), 60);
    assert NatToString(30) == "30" && NatToString(32) == "32" && NatToString(60) == "60";
  }

  /** A record with whole-degree temperatures reads without decimals (the
      expected text is written in two halves). */
  lemma PuneSentence()
    ensures WeatherSentence(Weather.WeatherRecord("Pune", "Sunny", Num(300, 1), Num(320, 1), Num(60, 0)))
      == "Weather in Pune: Sunny. Temperature: 30°C" + " (feels like 32°C). Humidity 60%."
  {
    PuneNumbers();
    PuneText();
  }

  lemma PuneText()
    ensures "Weather in " + "Pune" + ": " + "Sunny" + ". Temperature: " + "30" + "°C"
      == "Weather in Pune: Sunny. Temperature: 30°C"
    ensures " (feels like " + "32" + "°C). Humidity " + "60" + "%." == " (feels like 32°C). Humidity 60%."
  {
    assert "Weather in " + "Pune" == "Weather in Pune";
    assert "Weather in Pune" + ": " == "Weather in Pune: ";
    assert "Weather in Pune: " + "Sunny" == "Weather in Pune: Sunny";
    assert "Weather in Pune: Sunny" + ". Temperature: " == "Weather in Pune: Sunny. Temperature: ";
    assert "Weather in Pune: Sunny. Temperature: " + "30" == "Weather in Pune: Sunny. Temperature: 30";
    assert "Weather in Pune: Sunny. Temperature: 30" + "°C" == "Weather in Pune: Sunny. Temperature: 30°C";
    assert " (feels like " + "32" == " (feels like 32";
    assert " (feels like 32" + "°C). Humidity " == " (feels like 32°C). Humidity ";
    assert " (feels like 32°C). Humidity " + "60" == " (feels like 32°C). Humidity 60";
    assert " (feels like 32°C). Humidity 60" + "%." == " (feels like 32°C). Humidity 60%.";
  }

  lemma TokyoNumbers()
    ensures NumToString(Num(152, 1)) == "15.2" && NumToString(Num(148, 1)) == "14.8"
    ensures NumToString(Num(55, 0)) == "55"
  {
    TokyoTemp();
    TokyoFeelsLike();
    assert Pow10(0) == 1;
    WholeText(Num(55, 0), 55);
    assert NatToString(55) == "55";
  }

  lemma TokyoTemp()
    ensures NumToString(Num(152, 1)) == "15.2"
  {
    TenthsText(Num(152, 1), 15, 2);
    assert NatToString(15) == "15" && DigitChar(2) == '2';
  }

  lemma TokyoFeelsLike()
    ensures NumToString(Num(148, 1)) == "14.8"
  {
    TenthsText(Num(148, 1), 14, 8);
    assert NatToString(14) == "14" && DigitChar(8) == '8';
  }

  /** Temperatures with one decimal keep it (the expected text is written in
      two halves). */
  lemma TokyoSentence()
    ensures WeatherSentence(Weather.WeatherRecord("Tokyo", "clear sky", Num(152, 1), Num(148, 1), Num(55, 0)))
      == "Weather in Tokyo: clear sky. Temperature: 15.2°C" + " (feels like 14.8°C). Humidity 55%."
  {
    TokyoNumbers();
    TokyoText();
  }

  lemma TokyoText()
    ensures "Weather in " + "Tokyo" + ": " + "clear sky" + ". Temperature: " + "15.2" + "°C"
      == "Weather in Tokyo: clear sky. Temperature: 15.2°C"
    ensures " (feels like " + "14.8" + "°C). Humidity " + "55" + "%." == " (feels like 14.8°C). Humidity 55%."
  {
    assert "Weather in " + "Tokyo" == "Weather in Tokyo";
    assert "Weather in Tokyo" + ": " == "Weather in Tokyo: ";
    assert "Weather in Tokyo: " + "clear sky" == "Weather in Tokyo: clear sky";
    assert "Weather in Tokyo: clear sky" + ". Temperature: " == "Weather in Tokyo: clear sky. Temperature: ";
    assert "Weather in Tokyo: clear sky. Temperature: " + "15.2" == "Weather in Tokyo: clear sky. Temperature: 15.2";
    assert "Weather in Tokyo: clear sky. Temperature: 15.2" + "°C" == "Weather in Tokyo: clear sky. Temperature: 15.2°C";
    assert " (feels like " + "14.8" == " (feels like 14.8";
    assert " (feels like 14.8" + "°C). Humidity " == " (feels like 14.8°C). Humidity ";
    assert " (feels like 14.8°C). Humidity " + "55" == " (feels like 14.8°C). Humidity 55";
    assert " (feels like 14.8°C). Humidity 55" + "%." == " (feels like 14.8°C). Humidity 55%.";
  }

  /** A weather request for Tokyo, end to end through the intent map. */
  lemma TokyoWeather(weather: string -> Result<Weather.WeatherRecord>, search: Flights.SearchRequest -> Result<seq<Flights.Flight>>)
    requires weather("Tokyo") == Success(Weather.WeatherRecord("Tokyo", "clear sky", Num(152, 1), Num(148, 1), Num(55, 0)))
    ensures Respond(IntentTable["Check_Weather"], map["geo-city" := "Tokyo"], weather, search)
      == Run("Weather in Tokyo: clear sky. Temperature: 15.2°C" + " (feels like 14.8°C). Humidity 55%.",
             [WeatherCall("Tokyo")])
  {
    CityResolution(map["geo-city" := "Tokyo"]);
    TokyoSentence();
  }

  /** A flight request that finds nothing names both cities. */
  lemma MumbaiDelhiNoFlights(weather: string -> Result<Weather.WeatherRecord>, search: Flights.SearchRequest -> Result<seq<Flights.Flight>>)
    requires search(Flights.SearchRequest("Mumbai", "Delhi", "", "economy")) == Success([])
    ensures Respond(IntentTable["Book_Flight"], map["origin" := "Mumbai", "destination" := "Delhi"], weather, search).result
      == "I couldn't find flights from Mumbai to Delhi" + ". Try another date or cities."
  {
    var params := map["origin" := "Mumbai", "destination" := "Delhi"];
    MumbaiDelhiSlots();
    assert IntentTable["Book_Flight"] == BookFlight;
    assert FlightReply(params, search).result == NoFlights("Mumbai", "Delhi");
    MumbaiDelhiText();
  }

  lemma MumbaiDelhiText()
    ensures NoFlights("Mumbai", "Delhi") == "I couldn't find flights from Mumbai to Delhi" + ". Try another date or cities."
  {
    assert "I couldn't find flights from " + "Mumbai" == "I couldn't find flights from Mumbai";
    assert "I couldn't find flights from Mumbai" + " to " == "I couldn't find flights from Mumbai to ";
    assert "I couldn't find flights from Mumbai to " + "Delhi" == "I couldn't find flights from Mumbai to Delhi";
  }

  lemma MumbaiDelhiSlots()
    ensures var params := map["origin" := "Mumbai", "destination" := "Delhi"];
      && Origin(params).Some? && Destination(params).Some?
      && SearchRequestFor(params) == Flights.SearchRequest("Mumbai", "Delhi", "", "economy")
  {
    var params := map["origin" := "Mumbai", "destination" := "Delhi"];
    EndpointResolution(params);
    assert Origin(params) == Some("Mumbai") && Destination(params) == Some("Delhi");
    assert forall j :: 0 <= j < |DateAliases| ==> DateAliases[j] !in params;
    NoTruthyAlias(params, DateAliases);
    assert forall j :: 0 <= j < |ClassAliases| ==> ClassAliases[j] !in params;
    NoTruthyAlias(params, ClassAliases);
  }

  // ----- With the real adapters -------------------------------------------

  /** The weather handler over the weather adapter: without an API key, or
      on a provider error, the user gets the apology and a key is needed
      before the provider is asked; a good response is reported with its
      temperatures rounded to tenths. */
  lemma WeatherWithAdapter(apiKey: string, params: Params, fetch: string -> Weather.Response)
    ensures var city := City(params);
      var reply := WeatherReply(params, (c: string) => Weather.GetCurrentWeatherByCity(apiKey, c, fetch).result).result;
      && (city != "" && apiKey == "" ==> reply == WeatherApology)
      && (city != "" && apiKey != "" && !Ok(fetch(city).status) ==> reply == WeatherApology)
      && (city != "" && apiKey != "" && Ok(fetch(city).status) && fetch(city).body.main.None? ==>
            reply == WeatherApology)
      && (city != "" && apiKey != "" && Ok(fetch(city).status) && fetch(city).body.main.Some? ==>
            var doc := fetch(city).body;
            reply == WeatherSentence(Weather.WeatherRecord(
              Or(doc.name, city), Weather.Description(doc),
              RoundTenth(doc.main.value.temp), RoundTenth(doc.main.value.feelsLike), doc.main.value.humidity)))
  {
  }

  /** The flight handler over the flight adapter: without an API key the
      user gets the apology, and a search whose response has no `data`
      reads as no flights found. */
  lemma FlightsWithAdapter(
    apiKey: string,
    params: Params,
    lookup: Flights.LocationQuery -> Flights.LocationResponse,
    searchEndpoint: seq<Flights.Pair> -> Flights.SearchResponse,
    today: Flights.CalendarDate,
    weekLater: Flights.CalendarDate,
    localTime: string -> string)
    requires Origin(params).Some? && Destination(params).Some?
    ensures var search := (r: Flights.SearchRequest) =>
        Flights.SearchFlights(apiKey, r, lookup, searchEndpoint, today, weekLater, localTime).result;
      var run := Flights.SearchFlights(apiKey, SearchRequestFor(params), lookup, searchEndpoint, today, weekLater, localTime);
      var reply := FlightReply(params, search).result;
      && (apiKey == "" ==> reply == FlightApology)
      && (run.result.Failure? ==> reply == FlightApology)
      && (run.result.Success? && searchEndpoint(run.calls[|run.calls| - 1].query).body.data.None? ==>
            reply == NoFlights(Origin(params).value, Destination(params).value))
  {
  }
}
