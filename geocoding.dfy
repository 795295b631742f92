/**
  What the page decides from a geocoding API answer: the forward search by
  place name, which can fail, and the reverse lookup of the browser's
  coordinates, which never does.
*/
module Geocoding {
  import opened Wrappers

  /** An HTTP response as the page sees it: `res.ok` and the decoded JSON body. */
  datatype Response<T> = Response(ok: bool, body: T)

  /** One element of the geocoding API's `results` list. */
  datatype Place = Place(
    name: string,
    country: Option<string>,
    latitude: real,
    longitude: real,
    timezone: Option<string>)

  /** The decoded geocoding body; `results` may be missing. */
  datatype GeoBody = GeoBody(results: Option<seq<Place>>)

  /** The place handed to the weather load. */
  datatype Location = Location(
    name: string,
    country: Option<string>,
    latitude: real,
    longitude: real,
    timezone: Option<string>)

  const GeocodingFailed := "Geocoding failed"
  const CityNotFound := "City not found"
  const FallbackName := "Your location"

  /** The body holds at least one result. */
  predicate HasResults(body: GeoBody) {
    body.results.Some? && |body.results.value| > 0
  }

  /** The first (best) match of a search: used as is, with no disambiguation. */
  function FirstResult(body: GeoBody): (p: Place)
    requires HasResults(body)
    ensures p == body.results.value[0]
  {
    body.results.value[0]
  }

  /**
    `searchCity` up to the weather load: a non-ok status throws "Geocoding
    failed", a missing or empty result list throws "City not found", and
    otherwise the first result becomes the location.
  */
  function ResolveByName(res: Response<GeoBody>): (r: Result<Location, string>)
    ensures r == Failure(GeocodingFailed) <==> !res.ok
    ensures r == Failure(CityNotFound) <==> res.ok && !HasResults(res.body)
    ensures r.Success? <==> res.ok && HasResults(res.body)
    ensures r.Success? ==>
      var p := FirstResult(res.body);
      r.value == Location(p.name, p.country, p.latitude, p.longitude, p.timezone)
  {
    if !res.ok then Failure(GeocodingFailed)
    else if res.body.results.None? || |res.body.results.value| == 0 then Failure(CityNotFound)
    else
      var c := res.body.results.value[0];
      Success(Location(c.name, c.country, c.latitude, c.longitude, c.timezone))
  }

  /** `country || ''`: a missing country becomes the empty string. */
  function CountryOrEmpty(country: Option<string>): (s: string)
    ensures country.Some? ==> s == country.value
    ensures country.None? ==> s == ""
  {
    match country
    case Some(c) => c
    case None => ""
  }

  /**
    The reverse-geocoding step of the geolocation button: the location is
    always the given coordinates with no timezone, named "Your location" with
    an empty country unless the response is ok and holds a result, in which
    case the first result's name and country are used.
  */
  function ReverseLocation(latitude: real, longitude: real, res: Response<GeoBody>): (loc: Location)
    ensures loc.latitude == latitude && loc.longitude == longitude && loc.timezone == None
    ensures res.ok && HasResults(res.body) ==>
      loc.name == FirstResult(res.body).name &&
      loc.country == Some(CountryOrEmpty(FirstResult(res.body).country))
    ensures !(res.ok && HasResults(res.body)) ==> loc.name == FallbackName && loc.country == Some("")
  {
    var (name, country) :=
      if res.ok && res.body.results.Some? && |res.body.results.value| > 0 then
        var g := res.body.results.value[0];
        (g.name, CountryOrEmpty(g.country))
      else
        (FallbackName, "");
    Location(name, Some(country), latitude, longitude, None)
  }
}
