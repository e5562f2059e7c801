# Travel assistant webhook — a Dafny model

The webhook answers a conversational agent's fulfillment requests for two
intents. `Check_Weather` reads a city from the intent parameters, asks the
weather adapter (OpenWeatherMap) for the current weather, and replies with
one sentence. `Book_Flight` reads an origin, a destination, a date and a
travel class. It asks the flight adapter (Kiwi Tequila) to search, then
replies with the first three flights, or asks for the missing cities, or
says that nothing was found. The fallback and welcome intents reply with
fixed text.

The model has seven modules, one per file:

- `Results` holds optional values, errors, `Result` (a resolved value or a
  thrown error) and `Run`. A `Run` is a result together with the trace of
  requests made to an injected provider, so "the provider is not called" is
  something a contract can state.
- `Strings` holds JavaScript truthiness of optional strings and
  `split`/`padStart`.
- `Numbers` models JavaScript numbers as exact decimals (`Num`). It covers
  `Math.round(x * 10) / 10` and the text a template literal gives a number.
- `Slots` is the ordered alias lookup `params[a] || params[b] || ...`.
- `Weather` is `services/weather.js`. The HTTP request is a function from
  the city to the provider's response.
- `Flights` is `services/flights.js`. It covers the city-then-airport
  location lookup, the date conversion, the query built on a
  `URLSearchParams` object (the class `QueryParams`), and the reshaping of
  results. The two endpoints are functions from request to response; the
  server clock and `toLocaleString` are parameters.
- `Fulfillment` is `index.js`. It covers the agent that collects replies,
  the handlers, the loop that composes the flight listing, and the intent
  map with its dispatch.

Where the adapters are used by the handlers, they enter as functions from
their input to the value they resolve to or the error they throw. Two
lemmas compose the handlers with the real adapter models.

## Model

| member | source | states |
|---|---|---|
| `Strings.Split` | services/flights.js:54 | `split('-')` yields at least one piece, and no piece contains the separator |
| `Strings.JoinSplit` | services/flights.js:54 | joining the pieces with the separator gives back the original string |
| `Strings.SplitCount` | services/flights.js:55 | the number of pieces is the number of separators plus one |
| `Strings.SplitConcat` | services/flights.js:54 | splitting `a + sep + b` gives the pieces of `a` followed by the pieces of `b` |
| `Strings.PadStart` | services/flights.js:63-64 | `padStart` reaches the width and keeps the original string as the suffix, with only pad characters before it |
| `Numbers.NatToString` | index.js:65 | a non-negative integer prints as at least one decimal digit, with no leading zero except for `0` itself |
| `Numbers.NatToStringRoundTrip` | services/flights.js:63 | reading the printed digits back gives the number |
| `Numbers.RoundTenth` | services/weather.js:29-30 | the result has one decimal; its tenths count `t` is the integer nearest to `10x`, halves rounded up (`t <= 10x + 1/2 < t + 1`) |
| `Numbers.RoundTenthExact` | services/weather.js:29-30 | a value with at most one decimal is not changed by rounding, so rounding twice equals rounding once |
| `Numbers.NumToStringChars` | index.js:35 | a number's text has only digits, a minus sign and a point, so it never contains a line break |
| `Numbers.NumToStringIntegral` | index.js:35 | the text has a decimal point exactly when the value is not an integer; an integer value prints as that integer |
| `Numbers.NumToStringScale` | index.js:35 | the text depends only on the value: `30` and `30.0` print the same |
| `Numbers.NumToString` | index.js:35 | the text `${x}` gives a number: no contract of its own; `NumToStringChars`, `NumToStringIntegral`, `NumToStringScale` and `TenthsToString` state what it writes |
| `Numbers.TenthsToString` | index.js:35 | a one-decimal value prints as an integer when its tenths digit is zero, and otherwise with exactly that one digit after the point |
| `Slots.FirstTruthy` | index.js:26 | the lookup finds something exactly when some alias has a non-empty value; what it finds is that value for an alias all of whose predecessors are empty |
| `Slots.City` | index.js:26 | no contract of its own; `CityResolution` states the city's alias order and its `""` default |
| `Slots.Origin` | index.js:45 | no contract of its own; `EndpointResolution` states the origin's alias order |
| `Slots.Destination` | index.js:46 | no contract of its own; `EndpointResolution` states the destination's alias order |
| `Slots.DepartDate` | index.js:47 | no contract of its own; `DateAndClassResolution` states the date's aliases and its `""` default |
| `Slots.TravelClass` | index.js:48 | no contract of its own; `DateAndClassResolution` states the class aliases and the `economy` default |
| `Slots.HigherPriorityWins` | index.js:26 | an alias with a value wins over every later alias, whatever values those later aliases have |
| `Slots.NoTruthyAlias` | index.js:45 | when every alias is empty or missing, the slot is undefined |
| `Slots.CityResolution` | index.js:26 | the city is `geo-city`, else `place`, else `city`; it is `""` exactly when all three are empty |
| `Slots.EndpointResolution` | index.js:45-46 | origin is `origin`, else `from`, ..., and only last `place`; destination is `destination` first; either is missing exactly when all of its aliases are empty, and a present one is never empty |
| `Slots.DateAndClassResolution` | index.js:47-48 | the date is `""` exactly when all date aliases are empty; the travel class is never empty and falls back to `economy` only when both class aliases are empty |
| `Weather.GetCurrentWeatherByCity` | services/weather.js:13-34 | no key: fails with the key error and makes no request. Otherwise exactly one request for the city. Non-ok status: fails with status and text. Success exactly when the status is ok and `main` is present. The city falls back to the input, the description to `No description`, humidity passes through unchanged, and temperatures are rounded to tenths |
| `Weather.Description` | services/weather.js:28 | no contract of its own; `GetCurrentWeatherByCity` states that the description is the first condition's when that is truthy, and `No description` otherwise |
| `Flights.FindLocationCode` | services/flights.js:13-33 | no key means no lookup. The city lookup comes first. The airport lookup happens exactly when the city lookup is ok and empty. Success exactly when the last lookup is ok and non-empty, with its first id. Each error case gives its own message |
| `Flights.IsoToDdMmYyyy` | services/flights.js:54-56 | a conversion exists exactly when the date has two `-` |
| `Flights.IsoDateConversion` | services/flights.js:52-58 | `YYYY-MM-DD` becomes `DD/MM/YYYY` |
| `Flights.TwoDigits` | services/flights.js:63-64 | `String(n).padStart(2, '0')`: no contract of its own; `TwoDigitsRoundTrip` states its text |
| `Flights.DdMmYyyy` | services/flights.js:62-71 | the clock window's `${dd}/${mm}/${yyyy}` text: no contract of its own; `DdMmYyyyRoundTrip` states its text |
| `Flights.TwoDigitsRoundTrip` | services/flights.js:63-64 | a day or month below 100 is written as exactly two digits that read back as the number |
| `Flights.DdMmYyyyRoundTrip` | services/flights.js:62-71 | the clock date's text splits on `/` into two-digit day, two-digit month and year, reading back as the date |
| `Flights.Without` | services/flights.js:57-58 | a pair remains exactly when it is in the input and has another name, so no pair with the name is left; an input without the name comes back unchanged |
| `Flights.SetParam` | services/flights.js:48 | `URLSearchParams.set` on the list of pairs: no contract of its own; `SetParamLookup` and `SetParamAppends` state its effect |
| `Flights.SetParamLookup` | services/flights.js:48-49 | after `set`, the name reads back the new value and every other name reads as before |
| `Flights.SetParamAppends` | services/flights.js:48-49 | setting a name that is not yet present appends the pair at the end |
| `Flights.QueryParams.constructor` | services/flights.js:47 | a new `URLSearchParams` is empty |
| `Flights.QueryParams.Set` | services/flights.js:48 | `set` replaces the first pair with the name, drops later ones, or appends |
| `Flights.DateFields` | services/flights.js:50-74 | no contract of its own; `SearchQueryDates` states the date window it gives |
| `Flights.SearchQuery` | services/flights.js:47-80 | no contract of its own; `SearchQueryPolicy` and `SearchQueryDates` state what the query carries, and `BuildSearchQuery` that the `set` calls build it |
| `Flights.SearchQueryPolicy` | services/flights.js:76-80 | whatever the date, the query carries both location codes and the whole fixed policy |
| `Flights.SearchQueryDates` | services/flights.js:50-74 | a date that splits into three parts gives `parts[2]/parts[1]/parts[0]` at both ends. Any other non-empty date sets neither end. An empty date gives today to a week later |
| `Flights.BuildSearchQuery` | services/flights.js:47-80 | the object built by successive `set` calls holds exactly the pairs of `SearchQuery`, in insertion order |
| `Flights.SetLocations` | services/flights.js:48-49 | the two location `set` calls on an empty query give exactly `fly_from` then `fly_to` |
| `Flights.SetDateWindow` | services/flights.js:50-74 | the date branch appends exactly the date-window pairs |
| `Flights.SetDates` | services/flights.js:57-58 | setting `dateFrom` then `dateTo` on a query without them appends exactly those two pairs, in that order |
| `Flights.SetPolicy` | services/flights.js:76-80 | the five policy `set` calls append exactly the policy pairs |
| `Flights.ShapeFlight` | services/flights.js:93-102 | price passes through. Currency falls back from the result's to the search's to `USD` and is never empty. With a route, airline is the segment's and the flight number is the airline code then the number. Without a route, the airline is the first listed or `Unknown`, and the other fields are `N/A`. The deep link is kept only when non-empty |
| `Flights.ShapeFlights` | services/flights.js:92-103 | one record per raw result, same length and same order |
| `Flights.SearchOutcome` | services/flights.js:84-104 | a non-ok status throws the search error with status and text; an ok response without `data` gives `[]`, and otherwise the reshaped results |
| `Flights.SearchFlights` | services/flights.js:40-105 | no key: fails with no request. The origin's lookups come first; a failed origin lookup stops there and rethrows its error. Otherwise the destination's lookups follow; a failed one stops there and rethrows its error. When both resolve, exactly one search with query `SearchQuery` is made last. A non-ok search status fails with status and text; an ok one succeeds, with `[]` when `data` is missing and the reshaped results otherwise |
| `Flights.TravelClassIgnored` | services/flights.js:40 | the travel class changes neither the requests nor the result |
| `Fulfillment.Agent.constructor` | index.js:16 | a new agent carries the request's parameters and no replies |
| `Fulfillment.Agent.Add` | index.js:20 | `agent.add` appends one reply |
| `Fulfillment.WeatherReply` | index.js:24-40 | an empty city asks for one and makes no adapter call. Otherwise the adapter is called once with the city; an error gives the fixed apology, and a record gives the weather sentence |
| `Fulfillment.WeatherSentence` | index.js:35 | no contract of its own; `PuneSentence` and `TokyoSentence` state its exact text for given records |
| `Fulfillment.HandleCheckWeather` | index.js:24-40 | the handler adds exactly one reply, the one `WeatherReply` gives, and makes the same adapter calls |
| `Fulfillment.PriceText` | index.js:65 | the price reads `N/A` exactly when it is missing or zero; otherwise it is the price's own text, `NumToString` of the price, which is a numeral |
| `Fulfillment.NoFlights` | index.js:58 | no contract of its own; `MumbaiDelhiNoFlights` states its exact text |
| `Fulfillment.HeaderLine` | index.js:63 | no contract of its own; `ListingLines` states that it is the listing's first line, with the count of flights shown |
| `Fulfillment.LineBody` | index.js:65 | no contract of its own; `ListingLines` states that line `i + 2` of the listing is this text for the flight at position `i`, ranked `i + 1` |
| `Fulfillment.Top` | index.js:62 | at most three flights, all of them when there are fewer, as a prefix of the input |
| `Fulfillment.Listing` | index.js:62-66 | no contract of its own; `ComposeListing` states that the loop builds it and `ListingLines` states its lines |
| `Fulfillment.ComposeListing` | index.js:62-66 | the header followed by one line per appended flight equals `Listing` |
| `Fulfillment.FlightReply` | index.js:43-72 | a missing origin or destination asks for both and makes no adapter call. Otherwise there is exactly one call with the origin, destination, date and class. An error gives the apology, an empty result the no-flights sentence, and any other result the listing |
| `Fulfillment.HandleBookFlight` | index.js:43-72 | the handler adds exactly one reply, the one `FlightReply` gives, and makes the same adapter calls |
| `Fulfillment.LinesSplit` | index.js:64-66 | the appended flight lines split at line breaks into an empty piece, then each flight's line in order |
| `Fulfillment.ListingLines` | index.js:62-66 | a listing reads as the header with the count `min(3, n)`, an empty line, and exactly `min(3, n)` flight lines ranked 1.. in the adapter's order |
| `Fulfillment.IntentMap.constructor` | index.js:75 | the map starts empty |
| `Fulfillment.IntentMap.Set` | index.js:76-79 | `set` binds the intent name to the handler |
| `Fulfillment.BuildIntentMap` | index.js:75-79 | the map holds exactly the four registered intents |
| `Fulfillment.Respond` | index.js:76-82 | the dispatch to one handler: no contract of its own; `HandleRequest` states that the handler's one reply is added, and `IntentRouting` what each intent replies and calls |
| `Fulfillment.HandleRequest` | index.js:81-82 | a registered intent's handler adds exactly one reply, with its adapter calls; an unregistered intent adds nothing |
| `Fulfillment.IntentRouting` | index.js:76-79 | fallback and welcome reply with fixed text and make no calls. Only the weather intent calls the weather adapter, and only the flight intent calls the flight adapter |
| `Fulfillment.PuneSentence` | index.js:35 | `30.0` degrees prints as `30` in the weather sentence |
| `Fulfillment.TokyoSentence` | index.js:35 | one-decimal temperatures keep their decimal in the weather sentence |
| `Fulfillment.TokyoWeather` | index.js:24-35 | a Tokyo weather request through the intent map gives the exact sentence and one adapter call |
| `Fulfillment.MumbaiDelhiNoFlights` | index.js:57-59 | an empty result for Mumbai to Delhi gives the exact no-flights sentence |
| `Fulfillment.WeatherWithAdapter` | index.js:33-39 | with the real adapter: no key, a provider error or a missing `main` gives the apology; a good response gives the sentence with rounded temperatures |
| `Fulfillment.FlightsWithAdapter` | index.js:55-60 | with the real adapter: no key or any adapter error gives the apology; a response without `data` gives the no-flights sentence |

## Left out

- The Express server, body parsing, `dotenv`, the health route and the port (index.js:1-15, 89-95): these are transport and process set-up.
- What `handleRequest` does for an intent with no registered handler, and its error path answering 500 `Server error` (index.js:81-86). That behaviour belongs to the fulfillment library. Every registered handler catches its own errors, so this path is reached only through the library. `HandleRequest` reports such an intent as not handled.
- `agent.parameters || {}`: the parameters are a map, and a missing bag is the empty map.
- The `node-fetch` requests, `encodeURIComponent` and the URLs. Responses are inputs: a status, the text and the parsed JSON fields that are read. A body that is not JSON is not modelled.
- `Numbers.RoundTenth`: rounds exact decimals, not binary floating point. Binary representation error in `x * 10` (a value such as `1.005`) is not captured.
- `Numbers.NumToString`: writes the plain decimal form only. Exponent notation (`1e21`, `1e-7`), `-0`, `NaN` and `Infinity` are not modelled.
- The clock window in services/flights.js:62-71 takes today's and the next week's calendar dates as parameters; the `Date` arithmetic is not part of this model. `toLocaleString` is an injected function, because it depends on locale and time zone.
- A `date-period` slot that is an object rather than a string: dates are strings only.
- `URLSearchParams.toString()` (services/flights.js:82): the query is modelled as its list of name/value pairs.
- `!flights` in index.js:57: the search adapter resolves to an array or throws, so only the empty case is modelled.
- Console logging, the start-up warnings about missing keys, and `async` scheduling: there is one request at a time and no interleaving.
- The origin aliases end with `place` (index.js:45), the same alias the weather handler reads for its city (index.js:26), so a bag that only has `place` gives a flight origin. `Slots.EndpointResolution` states this case.
