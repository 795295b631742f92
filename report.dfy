/**
  The data side of `loadWeather`: turning a forecast API payload and a
  location into what the page shows (current conditions and one card per
  forecast day), with no DOM and no network.
*/
module Report {
  import opened Wrappers
  import opened NumberText
  import opened WeatherCodes
  import opened Units
  import opened Geocoding

  /** `current_weather` of the payload. */
  datatype CurrentWeather = CurrentWeather(time: string, temperature: real, windspeed: real, weathercode: int)

  /** `hourly`: parallel series indexed like `time`; a humidity entry may be `null`. */
  datatype Hourly = Hourly(time: seq<string>, apparentTemperature: seq<real>, relativeHumidity: seq<Option<int>>)

  /** `daily`: parallel series indexed like `time`. */
  datatype Daily = Daily(time: seq<string>, weathercode: seq<int>, temperatureMin: seq<real>, temperatureMax: seq<real>)

  /** The decoded body of a forecast API response. */
  datatype Payload = Payload(currentWeather: CurrentWeather, hourly: Hourly, daily: Daily, timezone: Option<string>)

  /** The current-conditions panel, field by field as the page fills it. */
  datatype CurrentView = CurrentView(
    place: string,
    icon: string,
    temperature: string,
    description: string,
    timezone: string,
    feels: string,
    humidity: string,
    wind: string)

  /** One forecast card: the day's date key, icon, description and rounded low and high. */
  datatype DayCard = DayCard(date: string, icon: string, description: string, low: int, high: int)

  datatype WeatherReport = WeatherReport(current: CurrentView, days: seq<DayCard>)

  /** The hourly joined values read at the current time, or their fallbacks. */
  datatype Joined = Joined(feels: real, humidity: Option<int>)

  const WeatherFetchFailed := "Weather fetch failed"
  const Placeholder := "—"

  /** Every hourly series is defined wherever `hourly.time` is. */
  predicate HourlyAligned(h: Hourly) {
    |h.apparentTemperature| >= |h.time| && |h.relativeHumidity| >= |h.time|
  }

  /** Every daily series is defined wherever `daily.time` is. */
  predicate DailyAligned(d: Daily) {
    |d.weathercode| >= |d.time| && |d.temperatureMin| >= |d.time| && |d.temperatureMax| >= |d.time|
  }

  predicate WellFormed(wx: Payload) {
    HourlyAligned(wx.hourly) && DailyAligned(wx.daily)
  }

  /** `xs.indexOf(x)`: the first position holding `x`, or -1 when there is none. */
  function IndexOf(xs: seq<string>, x: string): (i: int)
    ensures -1 <= i < |xs|
    ensures i == -1 <==> x !in xs
    ensures 0 <= i ==> xs[i] == x && x !in xs[..i]
  {
    if xs == [] then -1
    else if xs[0] == x then 0
    else
      var j := IndexOf(xs[1..], x);
      assert 0 <= j ==> xs[..j + 1] == [xs[0]] + xs[1..][..j];
      if j == -1 then -1 else j + 1
  }

  /**
    Joining the hourly series to the current time: at the first hour equal to
    `time`, the apparent temperature and humidity there; when no hour matches,
    `fallback` and no humidity.
  */
  function HourlyAt(h: Hourly, time: string, fallback: real): (j: Joined)
    requires HourlyAligned(h)
    ensures time !in h.time ==> j == Joined(fallback, None)
    ensures forall i :: 0 <= i < |h.time| && h.time[i] == time && time !in h.time[..i] ==>
      j == Joined(h.apparentTemperature[i], h.relativeHumidity[i])
  {
    var idx := IndexOf(h.time, time);
    if idx >= 0 then Joined(h.apparentTemperature[idx], h.relativeHumidity[idx])
    else Joined(fallback, None)
  }

  /** `hum != null ? `${hum}%` : '—'`. */
  function HumidityText(hum: Option<int>): (s: string)
    ensures hum.None? <==> s == Placeholder
    ensures hum.Some? ==>
      |s| >= 2 && s[|s| - 1] == '%' && Canonical(s[..|s| - 1]) && Denotes(s[..|s| - 1], hum.value)
  {
    match hum
    case None => Placeholder
    case Some(h) =>
      IntToStringRoundTrip(h);
      var s := IntToString(h) + "%";
      assert s[..|s| - 1] == IntToString(h);
      s
  }

  /** The string is present and not empty (truthy). */
  predicate Present(o: Option<string>) {
    o.Some? && o.value != ""
  }

  /** JavaScript `a || b` on an optional string: `a` unless it is missing or empty. */
  function OrElse(a: Option<string>, b: string): (s: string)
    ensures Present(a) ==> s == a.value
    ensures !Present(a) ==> s == b
  {
    match a
    case Some(v) => if v != "" then v else b
    case None => b
  }

  /**
    `wx.timezone || timezone || '—'`: the payload's timezone, else the
    location's, else the placeholder; never blank.
  */
  function TimezoneLabel(payloadZone: Option<string>, locationZone: Option<string>): (s: string)
    ensures s != ""
    ensures Present(payloadZone) ==> s == payloadZone.value
    ensures !Present(payloadZone) && Present(locationZone) ==> s == locationZone.value
    ensures !Present(payloadZone) && !Present(locationZone) ==> s == Placeholder
  {
    OrElse(payloadZone, OrElse(locationZone, Placeholder))
  }

  /** How a template literal prints the country: a missing one prints as `undefined`. */
  function CountryText(country: Option<string>): (s: string)
    ensures country.Some? ==> s == country.value
    ensures country.None? ==> s == "undefined"
  {
    match country
    case Some(c) => c
    case None => "undefined"
  }

  /** `${name}, ${country}`: the place label, which a unit toggle reads back. */
  function PlaceLabel(loc: Location): (s: string)
    ensures |s| >= |loc.name| + 2
    ensures s[..|loc.name|] == loc.name && s[|loc.name|] == ','
    ensures s[|loc.name|..] == ", " + CountryText(loc.country)
  {
    loc.name + ", " + CountryText(loc.country)
  }

  /**
    The current-conditions panel for a location, a payload and the selected
    units. Feels-like and humidity come from the first hour equal to the
    current time; when no hour matches, feels-like repeats the current
    temperature and humidity shows `—`.
  */
  function CurrentOf(loc: Location, wx: Payload, u: UnitPair): (v: CurrentView)
    requires HourlyAligned(wx.hourly)
    ensures v.place == PlaceLabel(loc)
    ensures v.icon == CodeToInfo(wx.currentWeather.weathercode).icon
    ensures v.description == CodeToInfo(wx.currentWeather.weathercode).description
    ensures v.temperature == FmtTemp(wx.currentWeather.temperature, u)
    ensures v.wind == FmtWind(wx.currentWeather.windspeed, u)
    ensures v.timezone == TimezoneLabel(wx.timezone, loc.timezone)
    ensures wx.currentWeather.time !in wx.hourly.time ==> v.feels == v.temperature && v.humidity == Placeholder
    ensures forall i :: 0 <= i < |wx.hourly.time| && wx.hourly.time[i] == wx.currentWeather.time
                        && wx.currentWeather.time !in wx.hourly.time[..i] ==>
      v.feels == FmtTemp(wx.hourly.apparentTemperature[i], u) &&
      v.humidity == HumidityText(wx.hourly.relativeHumidity[i])
  {
    var cw := wx.currentWeather;
    var info := CodeToInfo(cw.weathercode);
    var joined := HourlyAt(wx.hourly, cw.time, cw.temperature);
    CurrentView(
      PlaceLabel(loc),
      info.icon,
      FmtTemp(cw.temperature, u),
      info.description,
      TimezoneLabel(wx.timezone, loc.timezone),
      FmtTemp(joined.feels, u),
      HumidityText(joined.humidity),
      FmtWind(cw.windspeed, u))
  }

  /**
    The forecast cards are exactly one per day of `daily.time`, in order, card
    `i` built from index `i` of every daily series.
  */
  predicate IsForecastOf(days: seq<DayCard>, d: Daily)
    requires DailyAligned(d)
  {
    && |days| == |d.time|
    && forall i :: 0 <= i < |days| ==>
      && days[i].date == d.time[i]
      && days[i].icon == CodeToInfo(d.weathercode[i]).icon
      && days[i].description == CodeToInfo(d.weathercode[i]).description
      && days[i].low == Round(d.temperatureMin[i])
      && days[i].high == Round(d.temperatureMax[i])
  }

  /** The report for a location, a payload and the selected units. */
  predicate Assembled(r: WeatherReport, loc: Location, wx: Payload, u: UnitPair)
    requires WellFormed(wx)
  {
    r.current == CurrentOf(loc, wx, u) && IsForecastOf(r.days, wx.daily)
  }

  /** The forecast list: emptied, then one card appended per daily entry. */
  method BuildForecast(d: Daily) returns (days: seq<DayCard>)
    requires DailyAligned(d)
    ensures IsForecastOf(days, d)
  {
    days := [];
    var i := 0;
    while i < |d.time|
      invariant 0 <= i <= |d.time|
      invariant |days| == i
      invariant forall k :: 0 <= k < i ==>
        && days[k].date == d.time[k]
        && days[k].icon == CodeToInfo(d.weathercode[k]).icon
        && days[k].description == CodeToInfo(d.weathercode[k]).description
        && days[k].low == Round(d.temperatureMin[k])
        && days[k].high == Round(d.temperatureMax[k])
    {
      var info := CodeToInfo(d.weathercode[i]);
      days := days + [DayCard(d.time[i], info.icon, info.description,
                              Round(d.temperatureMin[i]), Round(d.temperatureMax[i]))];
      i := i + 1;
    }
  }

  /**
    `loadWeather` after its fetch: a non-ok response throws "Weather fetch
    failed"; otherwise the current panel and the forecast cards.
  */
  method LoadWeather(loc: Location, res: Response<Payload>, u: UnitPair) returns (r: Result<WeatherReport, string>)
    requires res.ok ==> WellFormed(res.body)
    ensures r.Failure? <==> !res.ok
    ensures r.Failure? ==> r.error == WeatherFetchFailed
    ensures r.Success? ==> Assembled(r.value, loc, res.body, u)
  {
    if !res.ok {
      return Failure(WeatherFetchFailed);
    }
    var wx := res.body;
    var current := CurrentOf(loc, wx, u);
    var days := BuildForecast(wx.daily);
    r := Success(WeatherReport(current, days));
  }

  /** Two forecast lists built from the same daily data are the same list: nothing stale survives. */
  lemma ForecastUnique(a: seq<DayCard>, b: seq<DayCard>, d: Daily)
    requires DailyAligned(d) && IsForecastOf(a, d) && IsForecastOf(b, d)
    ensures a == b
  {
    assert forall i :: 0 <= i < |a| ==> a[i] == b[i];
  }
}
