/** Slot normalisation in the intent handlers: each semantic slot is read
    from the platform's parameter bag by trying a fixed list of aliases in
    priority order, `params[a1] || params[a2] || ...`, so that the first
    alias with a non-empty value wins. */
module Slots {
  import opened Results
  import opened Strings

  /** The intent's parameter bag; a key that is not in the map is
      `undefined`. */
  type Params = map<string, string>

  function Param(params: Params, key: string): Option<string> {
    if key in params then Some(params[key]) else None
  }

  /** `params[aliases[0]] || params[aliases[1]] || ...`: the value of the
      first alias whose value is truthy, or `None` when there is none. */
  function FirstTruthy(params: Params, aliases: seq<string>): (r: Option<string>)
    ensures r.Some? <==> exists i :: 0 <= i < |aliases| && Truthy(Param(params, aliases[i]))
    ensures r.Some? ==> r.value != "" && exists i :: (0 <= i < |aliases| && Param(params, aliases[i]) == r
      && forall j :: 0 <= j < i ==> !Truthy(Param(params, aliases[j])))
  {
    if |aliases| == 0 then None
    else if Truthy(Param(params, aliases[0])) then Param(params, aliases[0])
    else
      var r := FirstTruthy(params, aliases[1..]);
      assert forall i :: 1 <= i < |aliases| ==> aliases[i] == aliases[1..][i - 1];
      r
  }

  /** An alias with a value wins over every alias after it, whatever
      values those have. */
  lemma {:induction false} HigherPriorityWins(params: Params, aliases: seq<string>, i: nat)
    requires i < |aliases| && Truthy(Param(params, aliases[i]))
    requires forall j :: 0 <= j < i ==> !Truthy(Param(params, aliases[j]))
    ensures FirstTruthy(params, aliases) == Param(params, aliases[i])
  {
    if i > 0 {
      assert forall j :: 0 <= j < i - 1 ==> aliases[1..][j] == aliases[j + 1];
      HigherPriorityWins(params, aliases[1..], i - 1);
    }
  }

  const CityAliases: seq<string> := ["geo-city", "place", "city"]
  const OriginAliases: seq<string> := ["origin", "from", "place-from", "city-from", "place"]
  const DestinationAliases: seq<string> := ["destination", "to", "place-to", "city-to"]
  const DateAliases: seq<string> := ["date", "travel_date", "date-period"]
  const ClassAliases: seq<string> := ["flight-class", "travel_class"]

  /** The weather handler's city: the first truthy of `geo-city`, `place`,
      `city`, else the empty string. */
  function City(params: Params): string {
    FirstTruthy(params, CityAliases).GetOr("")
  }

  /** The flight handler's origin; `None` (undefined) when every alias is
      falsy. */
  function Origin(params: Params): Option<string> {
    FirstTruthy(params, OriginAliases)
  }

  /** The flight handler's destination; `None` when every alias is falsy. */
  function Destination(params: Params): Option<string> {
    FirstTruthy(params, DestinationAliases)
  }

  /** The departure date, else the empty string. */
  function DepartDate(params: Params): string {
    FirstTruthy(params, DateAliases).GetOr("")
  }

  /** The travel class, else `"economy"`. */
  function TravelClass(params: Params): string {
    FirstTruthy(params, ClassAliases).GetOr("economy")
  }

  /** When every alias is falsy the lookup yields `None`. */
  lemma NoTruthyAlias(params: Params, aliases: seq<string>)
    requires forall j :: 0 <= j < |aliases| ==> !Truthy(Param(params, aliases[j]))
    ensures FirstTruthy(params, aliases) == None
  {
  }

  /** The city is `geo-city` when that is set, `place` when only the later
      aliases may be set, and `city` or the empty string otherwise. */
  lemma CityResolution(params: Params)
    ensures Truthy(Param(params, "geo-city")) ==> City(params) == params["geo-city"]
    ensures !Truthy(Param(params, "geo-city")) && Truthy(Param(params, "place")) ==>
      City(params) == params["place"]
    ensures !Truthy(Param(params, "geo-city")) && !Truthy(Param(params, "place")) ==>
      City(params) == Or(Param(params, "city"), "")
    ensures City(params) == "" <==> forall a :: a in CityAliases ==> !Truthy(Param(params, a))
  {
    if Truthy(Param(params, "geo-city")) {
      HigherPriorityWins(params, CityAliases, 0);
    } else if Truthy(Param(params, "place")) {
      HigherPriorityWins(params, CityAliases, 1);
    } else if Truthy(Param(params, "city")) {
      HigherPriorityWins(params, CityAliases, 2);
    } else {
      NoTruthyAlias(params, CityAliases);
    }
  }

  /** The origin is the first truthy of `origin`, `from`, `place-from`,
      `city-from` and only then `place`; the destination the first truthy of
      `destination`, `to`, `place-to`, `city-to`. Either is missing exactly
      when all its aliases are falsy, and a present one is never empty. */
  lemma EndpointResolution(params: Params)
    ensures Origin(params).Some? ==> Origin(params).value != ""
    ensures Origin(params).None? <==> forall a :: a in OriginAliases ==> !Truthy(Param(params, a))
    ensures Truthy(Param(params, "origin")) ==> Origin(params) == Param(params, "origin")
    ensures !Truthy(Param(params, "origin")) && Truthy(Param(params, "from")) ==>
      Origin(params) == Param(params, "from")
    ensures (forall a :: a in OriginAliases[..4] ==> !Truthy(Param(params, a))) ==>
      Origin(params) == (if Truthy(Param(params, "place")) then Param(params, "place") else None)
    ensures Destination(params).Some? ==> Destination(params).value != ""
    ensures Destination(params).None? <==> forall a :: a in DestinationAliases ==> !Truthy(Param(params, a))
    ensures Truthy(Param(params, "destination")) ==> Destination(params) == Param(params, "destination")
  {
    if Truthy(Param(params, "origin")) {
      HigherPriorityWins(params, OriginAliases, 0);
    } else if Truthy(Param(params, "from")) {
      HigherPriorityWins(params, OriginAliases, 1);
    } else if forall a :: a in OriginAliases[..4] ==> !Truthy(Param(params, a)) {
      if Truthy(Param(params, "place")) {
        HigherPriorityWins(params, OriginAliases, 4);
      } else {
        NoTruthyAlias(params, OriginAliases);
      }
    }
    if Truthy(Param(params, "destination")) {
      HigherPriorityWins(params, DestinationAliases, 0);
    }
  }

  /** The date is `date`, `travel_date` or `date-period`, else empty; the
      travel class is `flight-class` or `travel_class`, and the default
      `"economy"` is substituted only when both are falsy. */
  lemma DateAndClassResolution(params: Params)
    ensures Truthy(Param(params, "date")) ==> DepartDate(params) == params["date"]
    ensures DepartDate(params) == "" <==> forall a :: a in DateAliases ==> !Truthy(Param(params, a))
    ensures TravelClass(params) != ""
    ensures Truthy(Param(params, "flight-class")) ==> TravelClass(params) == params["flight-class"]
    ensures !Truthy(Param(params, "flight-class")) && Truthy(Param(params, "travel_class")) ==>
      TravelClass(params) == params["travel_class"]
    ensures !Truthy(Param(params, "flight-class")) && !Truthy(Param(params, "travel_class")) ==>
      TravelClass(params) == "economy"
  {
    if Truthy(Param(params, "date")) {
      HigherPriorityWins(params, DateAliases, 0);
    }
    if Truthy(Param(params, "flight-class")) {
      HigherPriorityWins(params, ClassAliases, 0);
    } else if Truthy(Param(params, "travel_class")) {
      HigherPriorityWins(params, ClassAliases, 1);
    } else {
      NoTruthyAlias(params, ClassAliases);
    }
  }
}
