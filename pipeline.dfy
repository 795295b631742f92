/**
  The two ways the page loads weather, chained end to end with the network
  answers given as inputs: searching a place name, and reverse-geocoding the
  browser's position. Also what a unit toggle searches for afterwards.
*/
module Pipeline {
  import opened Wrappers
  import NumberText
  import opened WeatherCodes
  import opened Units
  import opened Geocoding
  import opened Report

  const LocationFailed := "Failed to load your location"

  /**
    `searchCity`: geocode the name, then load the weather for the first match.
    A geocoding error is thrown unchanged and stops before the weather load.
  */
  method SearchCity(geo: Response<GeoBody>, wx: Response<Payload>, u: UnitPair)
    returns (r: Result<WeatherReport, string>)
    requires ResolveByName(geo).Success? && wx.ok ==> WellFormed(wx.body)
    ensures ResolveByName(geo).Failure? ==> r == Failure(ResolveByName(geo).error)
    ensures ResolveByName(geo).Success? && !wx.ok ==> r == Failure(WeatherFetchFailed)
    ensures ResolveByName(geo).Success? && wx.ok ==>
      r.Success? && Assembled(r.value, ResolveByName(geo).value, wx.body, u)
  {
    var resolved := ResolveByName(geo);
    match resolved
    case Failure(e) =>
      r := Failure(e);
    case Success(loc) =>
      r := LoadWeather(loc, wx, u);
  }

  /**
    The geolocation callback after a position is known: the reverse lookup
    always yields a location, so only the weather load can fail, and any
    failure is reported as "Failed to load your location".
  */
  method LocateAndLoad(latitude: real, longitude: real, rev: Response<GeoBody>, wx: Response<Payload>, u: UnitPair)
    returns (r: Result<WeatherReport, string>)
    requires wx.ok ==> WellFormed(wx.body)
    ensures r.Failure? <==> !wx.ok
    ensures r.Failure? ==> r.error == LocationFailed
    ensures r.Success? ==> Assembled(r.value, ReverseLocation(latitude, longitude, rev), wx.body, u)
  {
    var loc := ReverseLocation(latitude, longitude, rev);
    var loaded := LoadWeather(loc, wx, u);
    match loaded
    case Failure(_) =>
      r := Failure(LocationFailed);
    case Success(report) =>
      r := Success(report);
  }

  /**
    A unit toggle reading a place label re-searches: the label is never empty
    or the placeholder, and the query is the location's name up to its first
    comma (the whole name when it has none).
  */
  lemma RefetchOfLabel(loc: Location)
    ensures RefetchQuery(PlaceLabel(loc)) == Some(FirstField(loc.name))
    ensures ',' !in loc.name ==> RefetchQuery(PlaceLabel(loc)) == Some(loc.name)
  {
    var shown := PlaceLabel(loc);
    assert shown == loc.name + shown[|loc.name|..];
    FirstFieldAppend(loc.name, shown[|loc.name|..]);
    if ',' !in loc.name {
      FirstFieldNoComma(loc.name);
    }
  }

  /** After any load, the panel's place label is such a label. */
  lemma RefetchAfterLoad(report: WeatherReport, loc: Location, wx: Payload, u: UnitPair)
    requires WellFormed(wx) && Assembled(report, loc, wx, u)
    ensures RefetchQuery(report.current.place) == Some(FirstField(loc.name))
    ensures ',' !in loc.name ==> RefetchQuery(report.current.place) == Some(loc.name)
  {
    assert report.current.place == PlaceLabel(loc);
    RefetchOfLabel(loc);
  }

  /**
    After a geolocation load whose reverse lookup fell back, a unit toggle
    searches for the literal name "Your location" instead of the coordinates.
  */
  lemma FallbackRefetch(latitude: real, longitude: real, rev: Response<GeoBody>, report: WeatherReport, wx: Payload, u: UnitPair)
    requires !(rev.ok && HasResults(rev.body))
    requires WellFormed(wx) && Assembled(report, ReverseLocation(latitude, longitude, rev), wx, u)
    ensures RefetchQuery(report.current.place) == Some(FallbackName)
  {
    RefetchAfterLoad(report, ReverseLocation(latitude, longitude, rev), wx, u);
  }

  /** A geocoding answer for Paris and a metric forecast whose current time is the third hour. */
  const ParisGeo := Response(true, GeoBody(Some([Place("Paris", Some("FR"), 48.85, 2.35, Some("Europe/Paris"))])))
  const ParisHourly := Hourly(["T0", "T1", "T2"], [15.0, 16.0, 17.0], [Some(50), Some(55), Some(60)])
  const ParisWeather := Payload(CurrentWeather("T2", 18.0, 10.0, 3), ParisHourly, Daily([], [], [], []), None)

  /**
    The Paris search shows the overcast entry, the rounded temperatures, and
    the feels-like and humidity of the matching hour.
  */
  lemma ParisScenario()
    ensures ResolveByName(ParisGeo).Success?
    ensures
      var v := CurrentOf(ResolveByName(ParisGeo).value, ParisWeather, Metric);
      && v.place == "Paris, FR"
      && v.icon == "☁️" && v.description == "Overcast"
      && v.temperature == "18°C" && v.feels == "17°C"
      && v.humidity == "60%" && v.wind == "10 km/h"
      && v.timezone == "Europe/Paris"
  {
    var loc := ResolveByName(ParisGeo).value;
    assert loc == Location("Paris", Some("FR"), 48.85, 2.35, Some("Europe/Paris"));
    assert CodeToInfo(3) == Info("Overcast", "☁️");
    assert IndexOf(ParisHourly.time, "T2") == 2;
    assert HourlyAt(ParisHourly, "T2", 18.0) == Joined(17.0, Some(60));
    assert NumberText.Round(18.0) == 18 && NumberText.IntToString(18) == "18";
    assert FmtTemp(18.0, Metric) == "18°C";
    assert NumberText.Round(17.0) == 17 && NumberText.IntToString(17) == "17";
    assert FmtTemp(17.0, Metric) == "17°C";
    assert NumberText.Round(10.0) == 10 && NumberText.IntToString(10) == "10";
    assert FmtWind(10.0, Metric) == "10 km/h";
    assert NumberText.IntToString(60) == "60";
    assert HumidityText(Some(60)) == "60%";
  }
}
