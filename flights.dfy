/** The flight adapter: resolving free-text cities to location codes
    (a city lookup, then an airport lookup), building the search query with
    its fixed policy, and reshaping the provider's results into simplified
    flight records. The two HTTP endpoints are injected functions from the
    request to the provider's response. */
module Flights {
  import opened Results
  import opened Strings
  import opened Numbers

  const KeyMissing := Error("Tequila API key not configured")

  // ----- Location lookup ---------------------------------------------------

  datatype LocationType = CityType | AirportType

  /** One request to the locations endpoint (`term`, `location_types`,
      `limit=1`). */
  datatype LocationQuery = LocationQuery(term: string, locationType: LocationType)

  /** The endpoint's response: status, text, and the ids of `locations`
      (`None` when the field is missing). */
  datatype LocationResponse = LocationResponse(status: nat, text: string, locations: Option<seq<string>>)

  /** `data.locations && data.locations.length > 0`. */
  predicate HasLocation(response: LocationResponse) {
    response.locations.Some? && |response.locations.value| > 0
  }

  function LocationsError(response: LocationResponse): Error {
    Error("Tequila locations error: " + NatToString(response.status) + " " + response.text)
  }

  const FallbackFailed := Error("Tequila fallback failed")

  function NoLocation(term: string): Error {
    Error("No location found for " + term)
  }

  /** `findLocationCode(term)`: the first city id for `term`; when the city
      lookup finds nothing, the first airport id; the trace lists the
      lookups made. */
  function FindLocationCode(apiKey: string, term: string, lookup: LocationQuery -> LocationResponse)
    : (run: Run<Result<string>, LocationQuery>)
    ensures apiKey == "" <==> run.calls == []
    ensures apiKey == "" ==> run.result == Failure(KeyMissing)
    ensures |run.calls| <= 2
    ensures apiKey != "" ==> run.calls[0] == LocationQuery(term, CityType)
    ensures var first := lookup(LocationQuery(term, CityType));
      |run.calls| == 2 <==> apiKey != "" && Ok(first.status) && !HasLocation(first)
    ensures |run.calls| == 2 ==> run.calls[1] == LocationQuery(term, AirportType)
    ensures run.result.Success? <==>
      run.calls != [] && Ok(lookup(run.calls[|run.calls| - 1]).status) && HasLocation(lookup(run.calls[|run.calls| - 1]))
    ensures run.result.Success? ==> run.result.value == lookup(run.calls[|run.calls| - 1]).locations.value[0]
    ensures var first := lookup(LocationQuery(term, CityType));
      apiKey != "" && !Ok(first.status) ==> run.result == Failure(LocationsError(first))
    ensures var second := lookup(LocationQuery(term, AirportType));
      |run.calls| == 2 && !Ok(second.status) ==> run.result == Failure(FallbackFailed)
    ensures var second := lookup(LocationQuery(term, AirportType));
      |run.calls| == 2 && Ok(second.status) && !HasLocation(second) ==> run.result == Failure(NoLocation(term))
  {
    if apiKey == "" then Run(Failure(KeyMissing), [])
    else
      var cityQuery := LocationQuery(term, CityType);
      var first := lookup(cityQuery);
      if !Ok(first.status) then Run(Failure(LocationsError(first)), [cityQuery])
      else if HasLocation(first) then Run(Success(first.locations.value[0]), [cityQuery])
      else
        var airportQuery := LocationQuery(term, AirportType);
        var second := lookup(airportQuery);
        if !Ok(second.status) then Run(Failure(FallbackFailed), [cityQuery, airportQuery])
        else if !HasLocation(second) then Run(Failure(NoLocation(term)), [cityQuery, airportQuery])
        else Run(Success(second.locations.value[0]), [cityQuery, airportQuery])
  }

  // ----- Dates -------------------------------------------------------------

  /** `date.split('-')` turned into `${parts[2]}/${parts[1]}/${parts[0]}`
      when there are exactly three parts. */
  function IsoToDdMmYyyy(date: string): (r: Option<string>)
    ensures r.Some? <==> Count(date, '-') == 2
  {
    SplitCount(date, '-');
    var parts := Split(date, '-');
    if |parts| == 3 then Some(parts[2] + "/" + parts[1] + "/" + parts[0]) else None
  }

  /** An ISO `YYYY-MM-DD` date becomes `DD/MM/YYYY`. */
  lemma IsoDateConversion(year: string, month: string, day: string)
    requires '-' !in year && '-' !in month && '-' !in day
    ensures IsoToDdMmYyyy(year + "-" + month + "-" + day) == Some(day + "/" + month + "/" + year)
  {
    var rest := month + "-" + day;
    assert year + "-" + month + "-" + day == year + ['-'] + rest;
    assert rest == month + ['-'] + day;
    SplitConcat(year, rest, '-');
    SplitConcat(month, day, '-');
    SplitNoSep(year, '-');
    SplitNoSep(month, '-');
    SplitNoSep(day, '-');
  }

  /** A calendar date from the server clock; `month` is 1-based
      (`getMonth() + 1`). */
  datatype CalendarDate = CalendarDate(day: nat, month: nat, year: nat)

  /** `String(n).padStart(2, '0')`. */
  function TwoDigits(n: nat): string {
    PadStart(NatToString(n), 2, '0')
  }

  /** `${dd}/${mm}/${yyyy}` for a clock date. */
  function DdMmYyyy(d: CalendarDate): string {
    TwoDigits(d.day) + "/" + TwoDigits(d.month) + "/" + NatToString(d.year)
  }

  lemma {:induction false} LeadingZeros(k: nat, s: string)
    requires AllDigits(s)
    ensures AllDigits(Repeat('0', k) + s)
    ensures DigitsValue(Repeat('0', k) + s) == DigitsValue(s)
    decreases |s|, k
  {
    var z := Repeat('0', k);
    if |s| == 0 {
      assert z + s == z;
      if k > 0 {
        assert z[..k - 1] == Repeat('0', k - 1);
        LeadingZeros(k - 1, "");
        assert Repeat('0', k - 1) + "" == Repeat('0', k - 1);
      }
    } else {
      var init := s[..|s| - 1];
      LeadingZeros(k, init);
      assert (z + s)[..|z + s| - 1] == z + init;
    }
  }

  /** A day or month below 100 is written with exactly two digits that
      read back as the number. */
  lemma TwoDigitsRoundTrip(n: nat)
    requires n < 100
    ensures |TwoDigits(n)| == 2 && AllDigits(TwoDigits(n)) && DigitsValue(TwoDigits(n)) == n
  {
    var s := NatToString(n);
    assert Pow10(2) == 100;
    NatToStringLength(n, 2);
    NatToStringRoundTrip(n);
    LeadingZeros(2 - |s|, s);
  }

  /** The clock date's text splits on `/` into day, month and year, which
      read back as the date's numbers; day and month are two digits wide. */
  lemma DdMmYyyyRoundTrip(d: CalendarDate)
    requires d.day < 100 && d.month < 100
    ensures var parts := Split(DdMmYyyy(d), '/');
      |parts| == 3 && |parts[0]| == 2 && |parts[1]| == 2
      && AllDigits(parts[0]) && AllDigits(parts[1]) && AllDigits(parts[2])
      && DigitsValue(parts[0]) == d.day && DigitsValue(parts[1]) == d.month && DigitsValue(parts[2]) == d.year
  {
    var dd, mm, yyyy := TwoDigits(d.day), TwoDigits(d.month), NatToString(d.year);
    TwoDigitsRoundTrip(d.day);
    TwoDigitsRoundTrip(d.month);
    NatToStringRoundTrip(d.year);
    assert DdMmYyyy(d) == dd + ['/'] + (mm + ['/'] + yyyy);
    SplitConcat(dd, mm + ['/'] + yyyy, '/');
    SplitConcat(mm, yyyy, '/');
    assert forall i :: 0 <= i < |dd| ==> dd[i] != '/';
    assert forall i :: 0 <= i < |mm| ==> mm[i] != '/';
    assert forall i :: 0 <= i < |yyyy| ==> yyyy[i] != '/';
    SplitNoSep(dd, '/');
    SplitNoSep(mm, '/');
    SplitNoSep(yyyy, '/');
  }

  // ----- Query parameters --------------------------------------------------

  type Pair = (string, string)

  /** `params.get(name)`: the value of the first pair with that name. */
  function Lookup(pairs: seq<Pair>, name: string): Option<string> {
    if |pairs| == 0 then None
    else if pairs[0].0 == name then Some(pairs[0].1)
    else Lookup(pairs[1..], name)
  }

  predicate HasName(pairs: seq<Pair>, name: string) {
    exists i :: 0 <= i < |pairs| && pairs[i].0 == name
  }

  /** The pairs not named `name`. */
  function Without(pairs: seq<Pair>, name: string): (r: seq<Pair>)
    ensures forall p :: p in r <==> p in pairs && p.0 != name
    ensures !HasName(r, name)
    ensures !HasName(pairs, name) ==> r == pairs
  {
    if |pairs| == 0 then []
    else
      var rest := Without(pairs[1..], name);
      assert forall p :: p in pairs <==> p == pairs[0] || p in pairs[1..] by {
        assert pairs == [pairs[0]] + pairs[1..];
      }
      assert forall i :: 0 <= i < |pairs[1..]| ==> pairs[1..][i] == pairs[i + 1];
      var r := if pairs[0].0 == name then rest else [pairs[0]] + rest;
      assert forall i :: 0 <= i < |r| ==> r[i].0 != name by {
        forall i | 0 <= i < |r| ensures r[i].0 != name {
          assert r[i] in r;
        }
      }
      r
  }

  /** `URLSearchParams.set(name, value)`: the first pair with that name
      takes the new value and every later one is removed; without such a
      pair, the pair is appended. */
  function SetParam(pairs: seq<Pair>, name: string, value: string): seq<Pair> {
    if |pairs| == 0 then [(name, value)]
    else if pairs[0].0 == name then [(name, value)] + Without(pairs[1..], name)
    else [pairs[0]] + SetParam(pairs[1..], name, value)
  }

  lemma {:induction false} LookupAbsent(pairs: seq<Pair>, name: string)
    requires !HasName(pairs, name)
    ensures Lookup(pairs, name) == None
  {
    if |pairs| > 0 {
      forall i | 0 <= i < |pairs[1..]| ensures pairs[1..][i].0 != name {
        assert pairs[1..][i] == pairs[i + 1];
      }
      LookupAbsent(pairs[1..], name);
    }
  }

  lemma {:induction false} LookupWithout(pairs: seq<Pair>, name: string, other: string)
    requires other != name
    ensures Lookup(Without(pairs, name), other) == Lookup(pairs, other)
  {
    if |pairs| > 0 {
      LookupWithout(pairs[1..], name, other);
    }
  }

  /** After `set`, the name reads back the new value and every other name
      reads what it did before. */
  lemma {:induction false} SetParamLookup(pairs: seq<Pair>, name: string, value: string, other: string)
    ensures Lookup(SetParam(pairs, name, value), name) == Some(value)
    ensures other != name ==> Lookup(SetParam(pairs, name, value), other) == Lookup(pairs, other)
  {
    if |pairs| > 0 {
      if pairs[0].0 == name {
        if other != name {
          LookupWithout(pairs[1..], name, other);
        }
      } else {
        SetParamLookup(pairs[1..], name, value, other);
      }
    }
  }

  /** Setting a name that is not there yet appends it. */
  lemma {:induction false} SetParamAppends(pairs: seq<Pair>, name: string, value: string)
    requires forall i :: 0 <= i < |pairs| ==> pairs[i].0 != name
    ensures SetParam(pairs, name, value) == pairs + [(name, value)]
  {
    if |pairs| > 0 {
      assert forall i :: 0 <= i < |pairs[1..]| ==> pairs[1..][i] == pairs[i + 1];
      SetParamAppends(pairs[1..], name, value);
      assert [pairs[0]] + (pairs[1..] + [(name, value)]) == pairs + [(name, value)];
    }
  }

  /** The `URLSearchParams` object the search builds, as its list of
      name/value pairs in insertion order. */
  class QueryParams {
    var pairs: seq<Pair>

    constructor ()
      ensures pairs == []
    {
      pairs := [];
    }

    method Set(name: string, value: string)
      modifies this
      ensures pairs == SetParam(old(pairs), name, value)
    {
      pairs := SetParam(pairs, name, value);
    }
  }

  /** The fixed search policy: one-way, one result per destination city, at
      most two stopovers, ten results, prices in US dollars. */
  const Policy: seq<Pair> := [
    ("flight_type", "oneway"), ("one_for_city", "1"), ("max_stopovers", "2"),
    ("limit", "10"), ("curr", "USD")]

  /** The date window: a given date that converts is both ends; a given
      date that does not convert sets neither; no date gives today to a
      week from today. */
  function DateFields(date: string, today: CalendarDate, weekLater: CalendarDate): seq<Pair> {
    if date != "" then
      match IsoToDdMmYyyy(date)
      case Some(ddmmyyyy) => [("dateFrom", ddmmyyyy), ("dateTo", ddmmyyyy)]
      case None => []
    else [("dateFrom", DdMmYyyy(today)), ("dateTo", DdMmYyyy(weekLater))]
  }

  /** The search query's pairs, in the order they are set. */
  function SearchQuery(originCode: string, destCode: string, date: string, today: CalendarDate, weekLater: CalendarDate)
    : seq<Pair>
  {
    [("fly_from", originCode), ("fly_to", destCode)] + DateFields(date, today, weekLater) + Policy
  }

  lemma {:induction false} LookupAppend(a: seq<Pair>, b: seq<Pair>, name: string)
    ensures Lookup(a + b, name) == if Lookup(a, name).Some? then Lookup(a, name) else Lookup(b, name)
  {
    if |a| == 0 {
      assert a + b == b;
    } else {
      assert (a + b)[0] == a[0];
      assert (a + b)[1..] == a[1..] + b;
      LookupAppend(a[1..], b, name);
    }
  }

  /** Looking a name up past a prefix that does not use it. */
  lemma LookupPast(a: seq<Pair>, b: seq<Pair>, name: string)
    requires forall i :: 0 <= i < |a| ==> a[i].0 != name
    ensures Lookup(a + b, name) == Lookup(b, name)
  {
    LookupAppend(a, b, name);
    forall i | 0 <= i < |a| ensures a[i].0 != name { }
    LookupAbsent(a, name);
  }

  const PolicyNames: set<string> := {"flight_type", "one_for_city", "max_stopovers", "limit", "curr"}

  lemma DateFieldsNames(date: string, today: CalendarDate, weekLater: CalendarDate)
    ensures var dates := DateFields(date, today, weekLater);
      forall i :: 0 <= i < |dates| ==> dates[i].0 == "dateFrom" || dates[i].0 == "dateTo"
  {
  }

  /** The query always carries the two location codes and the whole fixed
      policy, whatever the date. */
  lemma SearchQueryPolicy(originCode: string, destCode: string, date: string, today: CalendarDate, weekLater: CalendarDate)
    ensures var q := SearchQuery(originCode, destCode, date, today, weekLater);
      && Lookup(q, "fly_from") == Some(originCode) && Lookup(q, "fly_to") == Some(destCode)
      && Lookup(q, "flight_type") == Some("oneway") && Lookup(q, "one_for_city") == Some("1")
      && Lookup(q, "max_stopovers") == Some("2") && Lookup(q, "limit") == Some("10")
      && Lookup(q, "curr") == Some("USD")
  {
    var head := [("fly_from", originCode), ("fly_to", destCode)];
    var dates := DateFields(date, today, weekLater);
    var q := SearchQuery(originCode, destCode, date, today, weekLater);
    assert q == head + (dates + Policy);
    LookupAppend(head, dates + Policy, "fly_from");
    LookupAppend(head, dates + Policy, "fly_to");
    DateFieldsNames(date, today, weekLater);
    PolicyLookup(head, dates, "flight_type");
    PolicyLookup(head, dates, "one_for_city");
    PolicyLookup(head, dates, "max_stopovers");
    PolicyLookup(head, dates, "limit");
    PolicyLookup(head, dates, "curr");
  }

  lemma PolicyLookup(head: seq<Pair>, dates: seq<Pair>, name: string)
    requires forall i :: 0 <= i < |head| ==> head[i].0 != name
    requires forall i :: 0 <= i < |dates| ==> dates[i].0 != name
    ensures Lookup(head + (dates + Policy), name) == Lookup(Policy, name)
  {
    LookupPast(head, dates + Policy, name);
    LookupPast(dates, Policy, name);
  }

  /** The date window the query carries: a date that splits into three
      parts on `-` gives `parts[2]/parts[1]/parts[0]` as both ends; any
      other non-empty date sets neither end; no date gives the clock
      window. */
  lemma SearchQueryDates(originCode: string, destCode: string, date: string, today: CalendarDate, weekLater: CalendarDate)
    ensures var q := SearchQuery(originCode, destCode, date, today, weekLater);
      var parts := Split(date, '-');
      date != "" && |parts| == 3 ==>
        Lookup(q, "dateFrom") == Some(parts[2] + "/" + parts[1] + "/" + parts[0])
        && Lookup(q, "dateTo") == Lookup(q, "dateFrom")
    ensures var q := SearchQuery(originCode, destCode, date, today, weekLater);
      date != "" && |Split(date, '-')| != 3 ==> Lookup(q, "dateFrom") == None && Lookup(q, "dateTo") == None
    ensures var q := SearchQuery(originCode, destCode, date, today, weekLater);
      date == "" ==> Lookup(q, "dateFrom") == Some(DdMmYyyy(today)) && Lookup(q, "dateTo") == Some(DdMmYyyy(weekLater))
  {
    var head := [("fly_from", originCode), ("fly_to", destCode)];
    var dates := DateFields(date, today, weekLater);
    var q := SearchQuery(originCode, destCode, date, today, weekLater);
    assert q == head + (dates + Policy);
    DateLookup(head, dates, "dateFrom");
    DateLookup(head, dates, "dateTo");
    var parts := Split(date, '-');
    SplitCount(date, '-');
    if date != "" && |parts| == 3 {
      assert dates == [("dateFrom", parts[2] + "/" + parts[1] + "/" + parts[0]), ("dateTo", parts[2] + "/" + parts[1] + "/" + parts[0])];
    } else if date != "" {
      assert dates == [];
    } else {
      assert dates == [("dateFrom", DdMmYyyy(today)), ("dateTo", DdMmYyyy(weekLater))];
    }
  }

  lemma DateLookup(head: seq<Pair>, dates: seq<Pair>, name: string)
    requires forall i :: 0 <= i < |head| ==> head[i].0 != name
    requires name == "dateFrom" || name == "dateTo"
    ensures Lookup(head + (dates + Policy), name) == Lookup(dates, name)
  {
    LookupPast(head, dates + Policy, name);
    LookupAppend(dates, Policy, name);
    if name == "dateFrom" {
      assert Lookup(Policy, "dateFrom") == None;
    } else {
      assert Lookup(Policy, "dateTo") == None;
    }
  }

  /** `searchFlights` builds its query step by step on a `URLSearchParams`
      object; the result is the query `SearchQuery` describes. */
  method BuildSearchQuery(originCode: string, destCode: string, date: string, today: CalendarDate, weekLater: CalendarDate)
    returns (query: seq<Pair>)
    ensures query == SearchQuery(originCode, destCode, date, today, weekLater)
  {
    var params := new QueryParams();
    SetLocations(params, originCode, destCode);
    SetDateWindow(params, date, today, weekLater);
    NoPolicyNames(originCode, destCode, date, today, weekLater);
    SetPolicy(params);
    query := params.pairs;
  }

  /** The two location codes come first. */
  method SetLocations(params: QueryParams, originCode: string, destCode: string)
    requires params.pairs == []
    modifies params
    ensures params.pairs == [("fly_from", originCode), ("fly_to", destCode)]
  {
    params.Set("fly_from", originCode);
    SetParamAppends(params.pairs, "fly_to", destCode);
    params.Set("fly_to", destCode);
  }

  /** Before the policy is set, the query holds none of its names. */
  lemma NoPolicyNames(originCode: string, destCode: string, date: string, today: CalendarDate, weekLater: CalendarDate)
    ensures var pairs := [("fly_from", originCode), ("fly_to", destCode)] + DateFields(date, today, weekLater);
      forall i :: 0 <= i < |pairs| ==> pairs[i].0 !in PolicyNames
  {
    DateFieldsNames(date, today, weekLater);
  }

  /** The `if (date) ... else ...` part of the query building. */
  method SetDateWindow(params: QueryParams, date: string, today: CalendarDate, weekLater: CalendarDate)
    requires forall i :: 0 <= i < |params.pairs| ==> params.pairs[i].0 != "dateFrom" && params.pairs[i].0 != "dateTo"
    modifies params
    ensures params.pairs == old(params.pairs) + DateFields(date, today, weekLater)
  {
    if date != "" {
      var parts := Split(date, '-');
      SplitCount(date, '-');
      if |parts| == 3 {
        var ddmmyyyy := parts[2] + "/" + parts[1] + "/" + parts[0];
        assert IsoToDdMmYyyy(date) == Some(ddmmyyyy);
        SetDates(params, ddmmyyyy, ddmmyyyy);
      } else {
        assert IsoToDdMmYyyy(date) == None;
        assert params.pairs + DateFields(date, today, weekLater) == params.pairs;
      }
    } else {
      SetDates(params, DdMmYyyy(today), DdMmYyyy(weekLater));
    }
  }

  /** `params.set('dateFrom', from)` then `params.set('dateTo', to)`. */
  method SetDates(params: QueryParams, from: string, to: string)
    requires forall i :: 0 <= i < |params.pairs| ==> params.pairs[i].0 != "dateFrom" && params.pairs[i].0 != "dateTo"
    modifies params
    ensures params.pairs == old(params.pairs) + [("dateFrom", from), ("dateTo", to)]
  {
    SetParamAppends(params.pairs, "dateFrom", from);
    params.Set("dateFrom", from);
    SetParamAppends(params.pairs, "dateTo", to);
    params.Set("dateTo", to);
  }

  /** The five `params.set` calls of the fixed policy. */
  method SetPolicy(params: QueryParams)
    requires forall i :: 0 <= i < |params.pairs| ==> params.pairs[i].0 !in PolicyNames
    modifies params
    ensures params.pairs == old(params.pairs) + Policy
  {
    SetParamAppends(params.pairs, "flight_type", "oneway");
    params.Set("flight_type", "oneway");
    SetParamAppends(params.pairs, "one_for_city", "1");
    params.Set("one_for_city", "1");
    SetParamAppends(params.pairs, "max_stopovers", "2");
    params.Set("max_stopovers", "2");
    SetParamAppends(params.pairs, "limit", "10");
    params.Set("limit", "10");
    SetParamAppends(params.pairs, "curr", "USD");
    params.Set("curr", "USD");
  }

  // ----- Result reshaping --------------------------------------------------

  /** One segment of a result's `route`. */
  datatype Segment = Segment(airline: string, flightNo: string, localDeparture: string, localArrival: string)

  /** One element of the provider's `data` array. */
  datatype RawFlight = RawFlight(
    route: Option<seq<Segment>>,
    airlines: Option<seq<string>>,
    price: Option<Num>,
    currency: Option<string>,
    deepLink: Option<string>)

  /** The search endpoint's JSON body: `data` and the search-level
      `currency`. */
  datatype SearchBody = SearchBody(data: Option<seq<RawFlight>>, currency: Option<string>)

  datatype SearchResponse = SearchResponse(status: nat, text: string, body: SearchBody)

  /** A simplified flight record. */
  datatype Flight = Flight(
    airline: string,
    flightNo: string,
    departureTime: string,
    arrivalTime: string,
    price: Option<Num>,
    currency: string,
    deepLink: Option<string>)

  /** `r.route && r.route[0]`. */
  function FirstSegment(raw: RawFlight): Option<Segment> {
    if raw.route.Some? && |raw.route.value| > 0 then Some(raw.route.value[0]) else None
  }

  /** `r.airlines && r.airlines[0]`. */
  function FirstAirline(raw: RawFlight): Option<string> {
    if raw.airlines.Some? && |raw.airlines.value| > 0 then Some(raw.airlines.value[0]) else None
  }

  /** One raw result as a flight record; `localTime` is the server's
      `new Date(t).toLocaleString()`. */
  function ShapeFlight(raw: RawFlight, searchCurrency: Option<string>, localTime: string -> string): (f: Flight)
    ensures f.price == raw.price
    ensures f.currency != ""
    ensures Truthy(raw.currency) ==> f.currency == raw.currency.value
    ensures !Truthy(raw.currency) && Truthy(searchCurrency) ==> f.currency == searchCurrency.value
    ensures !Truthy(raw.currency) && !Truthy(searchCurrency) ==> f.currency == "USD"
    ensures FirstSegment(raw).Some? ==>
      var s := FirstSegment(raw).value;
      f.airline == s.airline && f.flightNo == s.airline + s.flightNo
      && f.departureTime == localTime(s.localDeparture) && f.arrivalTime == localTime(s.localArrival)
    ensures FirstSegment(raw).None? ==>
      f.airline != "" && f.flightNo == "N/A" && f.departureTime == "N/A" && f.arrivalTime == "N/A"
      && (Truthy(FirstAirline(raw)) ==> f.airline == FirstAirline(raw).value)
      && (!Truthy(FirstAirline(raw)) ==> f.airline == "Unknown")
    ensures f.deepLink.Some? <==> Truthy(raw.deepLink)
    ensures f.deepLink.Some? ==> f.deepLink == raw.deepLink
  {
    var route := FirstSegment(raw);
    Flight(
      if route.Some? then route.value.airline else Or(FirstAirline(raw), "Unknown"),
      if route.Some? then route.value.airline + route.value.flightNo else "N/A",
      if route.Some? then localTime(route.value.localDeparture) else "N/A",
      if route.Some? then localTime(route.value.localArrival) else "N/A",
      raw.price,
      Or(raw.currency, Or(searchCurrency, "USD")),
      if Truthy(raw.deepLink) then raw.deepLink else None)
  }

  /** `data.data.map(...)`: one record per raw result, in the same order. */
  function ShapeFlights(raws: seq<RawFlight>, searchCurrency: Option<string>, localTime: string -> string)
    : (flights: seq<Flight>)
    ensures |flights| == |raws|
    ensures forall i :: 0 <= i < |raws| ==> flights[i] == ShapeFlight(raws[i], searchCurrency, localTime)
  {
    if |raws| == 0 then []
    else [ShapeFlight(raws[0], searchCurrency, localTime)] + ShapeFlights(raws[1..], searchCurrency, localTime)
  }

  // ----- Search ------------------------------------------------------------

  /** The adapter's input; `travelClass` is accepted but not used. */
  datatype SearchRequest = SearchRequest(origin: string, destination: string, date: string, travelClass: string)

  /** One outbound request of the adapter. */
  datatype Call = Locate(location: LocationQuery) | Search(query: seq<Pair>)

  function Locates(queries: seq<LocationQuery>): (calls: seq<Call>)
    ensures |calls| == |queries| && forall i :: 0 <= i < |calls| ==> calls[i] == Locate(queries[i])
  {
    if |queries| == 0 then [] else [Locate(queries[0])] + Locates(queries[1..])
  }

  function SearchError(response: SearchResponse): Error {
    Error("Tequila search error: " + NatToString(response.status) + " " + response.text)
  }

  /** What the search call resolves to or throws, given its response. */
  function SearchOutcome(response: SearchResponse, localTime: string -> string): (r: Result<seq<Flight>>)
    ensures !Ok(response.status) ==> r == Failure(SearchError(response))
    ensures Ok(response.status) && response.body.data.None? ==> r == Success([])
    ensures Ok(response.status) && response.body.data.Some? ==>
      r == Success(ShapeFlights(response.body.data.value, response.body.currency, localTime))
  {
    if !Ok(response.status) then Failure(SearchError(response))
    else if response.body.data.None? then Success([])
    else Success(ShapeFlights(response.body.data.value, response.body.currency, localTime))
  }

  /** `searchFlights(request)`: resolves both cities, then issues one
      search; `today` and `weekLater` are the server's clock dates and
      `localTime` its timestamp formatting. */
  function SearchFlights(
    apiKey: string,
    request: SearchRequest,
    lookup: LocationQuery -> LocationResponse,
    search: seq<Pair> -> SearchResponse,
    today: CalendarDate,
    weekLater: CalendarDate,
    localTime: string -> string)
    : (run: Run<Result<seq<Flight>>, Call>)
    ensures apiKey == "" ==> run == Run(Failure(KeyMissing), [])
    ensures forall i :: 0 <= i < |run.calls| && run.calls[i].Search? ==> i == |run.calls| - 1
    ensures var origin := FindLocationCode(apiKey, request.origin, lookup);
      apiKey != "" ==> |origin.calls| <= |run.calls| && run.calls[..|origin.calls|] == Locates(origin.calls)
    ensures var origin := FindLocationCode(apiKey, request.origin, lookup);
      var destination := FindLocationCode(apiKey, request.destination, lookup);
      (run.calls != [] && run.calls[|run.calls| - 1].Search?) <==>
        (origin.result.Success? && destination.result.Success?)
    ensures var origin := FindLocationCode(apiKey, request.origin, lookup);
      var destination := FindLocationCode(apiKey, request.destination, lookup);
      origin.result.Success? && destination.result.Success? ==>
        run.calls[|run.calls| - 1]
          == Search(SearchQuery(origin.result.value, destination.result.value, request.date, today, weekLater))
    ensures run.result.Success? ==>
      run.calls != [] && run.calls[|run.calls| - 1].Search?
      && var response := search(run.calls[|run.calls| - 1].query);
      Ok(response.status)
      && (response.body.data.None? ==> run.result.value == [])
      && (response.body.data.Some? ==>
            run.result.value == ShapeFlights(response.body.data.value, response.body.currency, localTime))
    ensures run.calls != [] && run.calls[|run.calls| - 1].Search? ==>
      var response := search(run.calls[|run.calls| - 1].query);
      !Ok(response.status) ==> run.result == Failure(SearchError(response))
    ensures var origin := FindLocationCode(apiKey, request.origin, lookup);
      apiKey != "" && origin.result.Failure? ==> run == Run(Failure(origin.result.error), Locates(origin.calls))
    ensures var origin := FindLocationCode(apiKey, request.origin, lookup);
      var destination := FindLocationCode(apiKey, request.destination, lookup);
      apiKey != "" && origin.result.Success? && destination.result.Failure? ==>
        run == Run(Failure(destination.result.error), Locates(origin.calls) + Locates(destination.calls))
    ensures var origin := FindLocationCode(apiKey, request.origin, lookup);
      var destination := FindLocationCode(apiKey, request.destination, lookup);
      origin.result.Success? && destination.result.Success? ==>
        var query := SearchQuery(origin.result.value, destination.result.value, request.date, today, weekLater);
        var response := search(query);
        && run.calls == Locates(origin.calls) + Locates(destination.calls) + [Search(query)]
        && (Ok(response.status) ==>
              run.result == Success(
                if response.body.data.None? then []
                else ShapeFlights(response.body.data.value, response.body.currency, localTime)))
  {
    if apiKey == "" then Run(Failure(KeyMissing), [])
    else
      var origin := FindLocationCode(apiKey, request.origin, lookup);
      var originCalls := Locates(origin.calls);
      if origin.result.Failure? then Run(Failure(origin.result.error), originCalls)
      else
        var destination := FindLocationCode(apiKey, request.destination, lookup);
        var locateCalls := originCalls + Locates(destination.calls);
        if destination.result.Failure? then Run(Failure(destination.result.error), locateCalls)
        else
          var query := SearchQuery(origin.result.value, destination.result.value, request.date, today, weekLater);
          Run(SearchOutcome(search(query), localTime), locateCalls + [Search(query)])
  }

  /** The travel class never reaches the provider: two requests that differ
      only in it give the same result and the same requests. */
  lemma TravelClassIgnored(
    apiKey: string,
    request: SearchRequest,
    travelClass: string,
    lookup: LocationQuery -> LocationResponse,
    search: seq<Pair> -> SearchResponse,
    today: CalendarDate,
    weekLater: CalendarDate,
    localTime: string -> string)
    ensures SearchFlights(apiKey, request, lookup, search, today, weekLater, localTime)
      == SearchFlights(apiKey, request.(travelClass := travelClass), lookup, search, today, weekLater, localTime)
  {
  }
}
