/**
  The page's unit selection (temperature and wind units, always switched as
  a pair), the two formatters that read it, and the re-fetch a unit toggle
  triggers.
*/
module Units {
  import opened Wrappers
  import opened NumberText

  /** The unit parameters sent to the forecast API and read by the formatters. */
  datatype UnitPair = UnitPair(temp: string, wind: string)

  const Metric := UnitPair("celsius", "kmh")
  const Imperial := UnitPair("fahrenheit", "mph")

  /** The two unit systems the page ever selects. */
  predicate Paired(u: UnitPair) {
    u == Metric || u == Imperial
  }

  /** The unit text `fmtTemp` appends: `°C` exactly when the temperature unit is `celsius`. */
  function TempSuffix(u: UnitPair): (suffix: string)
    ensures suffix == "°C" <==> u.temp == "celsius"
    ensures suffix == "°F" <==> u.temp != "celsius"
  {
    if u.temp == "celsius" then "°C" else "°F"
  }

  /** The unit text `fmtWind` appends: ` km/h` exactly when the wind unit is `kmh`. */
  function WindSuffix(u: UnitPair): (suffix: string)
    ensures suffix == " km/h" <==> u.wind == "kmh"
    ensures suffix == " mph" <==> u.wind != "kmh"
  {
    if u.wind == "kmh" then " km/h" else " mph"
  }

  /**
    `fmtTemp`: the temperature rounded to the nearest integer, followed by the
    temperature unit's suffix.
  */
  function FmtTemp(t: real, u: UnitPair): (s: string)
    ensures |s| > |TempSuffix(u)|
    ensures s[|s| - |TempSuffix(u)|..] == TempSuffix(u)
    ensures Canonical(s[..|s| - |TempSuffix(u)|]) && Denotes(s[..|s| - |TempSuffix(u)|], Round(t))
  {
    var n := IntToString(Round(t));
    IntToStringRoundTrip(Round(t));
    var s := n + TempSuffix(u);
    assert s[..|n|] == n && s[|n|..] == TempSuffix(u);
    s
  }

  /**
    `fmtWind`: the speed rounded to the nearest integer, followed by the wind
    unit's suffix.
  */
  function FmtWind(w: real, u: UnitPair): (s: string)
    ensures |s| > |WindSuffix(u)|
    ensures s[|s| - |WindSuffix(u)|..] == WindSuffix(u)
    ensures Canonical(s[..|s| - |WindSuffix(u)|]) && Denotes(s[..|s| - |WindSuffix(u)|], Round(w))
  {
    var n := IntToString(Round(w));
    IntToStringRoundTrip(Round(w));
    var s := n + WindSuffix(u);
    assert s[..|n|] == n && s[|n|..] == WindSuffix(u);
    s
  }

  /** Reading a formatted temperature back gives the rounded value and the unit it was shown in. */
  lemma FmtTempInjective(t1: real, u1: UnitPair, t2: real, u2: UnitPair)
    requires Paired(u1) && Paired(u2)
    ensures FmtTemp(t1, u1) == FmtTemp(t2, u2) <==> Round(t1) == Round(t2) && u1 == u2
  {
    var s1, s2 := FmtTemp(t1, u1), FmtTemp(t2, u2);
    if s1 == s2 {
      assert |TempSuffix(u1)| == |TempSuffix(u2)| == 2;
      assert s1[..|s1| - 2] == s2[..|s2| - 2];
      assert TempSuffix(u1) == s1[|s1| - 2..] == s2[|s2| - 2..] == TempSuffix(u2);
    }
  }

  /** Rounding goes to the nearest integer, and a half goes up. */
  lemma FmtTempExamples()
    ensures FmtTemp(20.4, Metric) == "20°C"
    ensures FmtTemp(20.6, Metric) == "21°C"
  {
  }

  lemma FmtTempNegativeHalf()
    ensures FmtTemp(-2.5, Imperial) == "-2°F"
  {
  }

  lemma FmtWindExample()
    ensures FmtWind(15.2, Imperial) == "15 mph"
  {
  }

  /** `place.split(',')[0]`: the text before the first comma, or all of it. */
  function FirstField(s: string): (r: string)
    ensures r <= s
    ensures ',' !in r
    ensures |r| < |s| ==> s[|r|] == ','
  {
    if s == [] || s[0] == ',' then [] else [s[0]] + FirstField(s[1..])
  }

  /** A label without commas is its own first field. */
  lemma FirstFieldNoComma(s: string)
    requires ',' !in s
    ensures FirstField(s) == s
  {
  }

  /** Text after a comma does not change the first field. */
  lemma {:induction false} FirstFieldAppend(a: string, b: string)
    requires |b| > 0 && b[0] == ','
    ensures FirstField(a + b) == FirstField(a)
  {
    if a != [] && a[0] != ',' {
      assert (a + b)[1..] == a[1..] + b;
      FirstFieldAppend(a[1..], b);
    } else if a == [] {
      assert a + b == b;
    } else {
      assert (a + b)[0] == ',';
    }
  }

  /**
    The search a unit toggle re-runs: none while the place label is empty or
    the placeholder `—`, otherwise the label's text before its first comma.
  */
  function RefetchQuery(place: string): (q: Option<string>)
    ensures q.Some? <==> place != "" && place != "—"
    ensures q.Some? ==> q.value == FirstField(place)
  {
    if place != "" && place != "—" then Some(FirstField(place)) else None
  }

  /** The module-level `units` variable of the page. */
  class UnitState {
    var units: UnitPair

    ghost predicate Valid()
      reads this
    {
      Paired(units)
    }

    /** The page starts in Celsius and km/h. */
    constructor ()
      ensures Valid() && units == Metric
    {
      units := Metric;
    }

    /**
      The `°C` button: nothing happens when Celsius is already selected;
      otherwise both units switch to the metric pair and the shown place is
      searched again when there is one.
    */
    method SelectCelsius(place: string) returns (refetch: Option<string>)
      requires Valid()
      modifies this
      ensures Valid() && units == Metric
      ensures old(units) == Metric ==> refetch == None
      ensures old(units) != Metric ==> refetch == RefetchQuery(place)
    {
      if units.temp == "celsius" {
        return None;
      }
      units := Metric;
      refetch := RefetchQuery(place);
    }

    /** The `°F` button: the same, towards the imperial pair. */
    method SelectFahrenheit(place: string) returns (refetch: Option<string>)
      requires Valid()
      modifies this
      ensures Valid() && units == Imperial
      ensures old(units) == Imperial ==> refetch == None
      ensures old(units) != Imperial ==> refetch == RefetchQuery(place)
    {
      if units.temp == "fahrenheit" {
        return None;
      }
      units := Imperial;
      refetch := RefetchQuery(place);
    }
  }
}
