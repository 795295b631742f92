/**
  The catalog of weather condition codes (a sparse subset of the WMO
  weather interpretation codes used by the Open-Meteo forecast API) and
  their description and icon.
*/
module WeatherCodes {

  /** What the page shows for a condition code: its description and its icon. */
  datatype Info = Info(description: string, icon: string)

  /** The pair shown for a code the catalog does not list. */
  const UnknownInfo := Info("Unknown", "❔")

  /** The listed codes with their description and icon. */
  const Catalog: map<int, Info> := map[
    0 := Info("Clear sky", "☀️"),
    1 := Info("Mainly clear", "🌤️"),
    2 := Info("Partly cloudy", "⛅"),
    3 := Info("Overcast", "☁️"),
    45 := Info("Fog", "🌫️"),
    48 := Info("Depositing rime fog", "🌫️"),
    51 := Info("Light drizzle", "🌦️"),
    53 := Info("Moderate drizzle", "🌦️"),
    55 := Info("Dense drizzle", "🌧️"),
    56 := Info("Freezing drizzle", "🌧️"),
    57 := Info("Dense freezing drizzle", "🌧️"),
    61 := Info("Slight rain", "🌦️"),
    63 := Info("Moderate rain", "🌧️"),
    65 := Info("Heavy rain", "🌧️"),
    66 := Info("Light freezing rain", "🌧️"),
    67 := Info("Heavy freezing rain", "🌧️"),
    71 := Info("Slight snow fall", "🌨️"),
    73 := Info("Moderate snow fall", "🌨️"),
    75 := Info("Heavy snow fall", "❄️"),
    77 := Info("Snow grains", "❄️"),
    80 := Info("Rain showers: slight", "🌦️"),
    81 := Info("Rain showers: moderate", "🌧️"),
    82 := Info("Rain showers: violent", "⛈️"),
    85 := Info("Snow showers: slight", "🌨️"),
    86 := Info("Snow showers: heavy", "❄️"),
    95 := Info("Thunderstorm", "⛈️"),
    96 := Info("Thunderstorm w/ slight hail", "⛈️"),
    99 := Info("Thunderstorm w/ heavy hail", "⛈️")
  ]

  /** The codes that have an entry of their own, in the order the table lists them. */
  const TableOrder: seq<int> :=
    [0, 1, 2, 3, 45, 48, 51, 53, 55, 56, 57, 61, 63, 65, 66, 67,
     71, 73, 75, 77, 80, 81, 82, 85, 86, 95, 96, 99]

  const ListedCodes: set<int> :=
    {0, 1, 2, 3, 45, 48, 51, 53, 55, 56, 57, 61, 63, 65, 66, 67,
     71, 73, 75, 77, 80, 81, 82, 85, 86, 95, 96, 99}

  predicate StrictlyIncreasing(s: seq<int>) {
    forall i, j :: 0 <= i < j < |s| ==> s[i] < s[j]
  }

  /** A strictly increasing sequence has as many distinct elements as it is long. */
  lemma {:induction false} IncreasingCard(s: seq<int>)
    requires StrictlyIncreasing(s)
    ensures |set x | x in s| == |s|
  {
    if s != [] {
      var rest := s[..|s| - 1];
      IncreasingCard(rest);
      assert (set x | x in s) == (set x | x in rest) + {s[|s| - 1]};
    }
  }

  /**
    Description and icon of a condition code. Total: a listed code gets its
    own entry and every other integer gets the Unknown pair, which no listed
    code shares.
  */
  function CodeToInfo(code: int): (info: Info)
    ensures code in ListedCodes ==> info == Catalog[code]
    ensures code !in ListedCodes <==> info == UnknownInfo
    ensures info.description == "Unknown" <==> code !in ListedCodes
    ensures info.icon == "❔" <==> code !in ListedCodes
  {
    if code in Catalog then Catalog[code] else UnknownInfo
  }

  /** The catalog lists exactly the 28 codes above, all within the WMO range 0..99. */
  lemma CatalogCodes()
    ensures Catalog.Keys == ListedCodes
    ensures forall code :: code in ListedCodes ==> 0 <= code <= 99
  {
  }

  /** The table has 28 entries: its codes are listed without repetition. */
  lemma CatalogSize()
    ensures |TableOrder| == |ListedCodes| == |Catalog| == 28
  {
    assert StrictlyIncreasing(TableOrder);
    IncreasingCard(TableOrder);
    assert (set x | x in TableOrder) == ListedCodes;
    CatalogCodes();
  }

  /** A few entries spelled out, and a code well outside the table. */
  lemma CodeToInfoExamples()
    ensures CodeToInfo(0) == Info("Clear sky", "☀️")
    ensures CodeToInfo(3) == Info("Overcast", "☁️")
    ensures CodeToInfo(61) == Info("Slight rain", "🌦️")
    ensures CodeToInfo(99) == Info("Thunderstorm w/ heavy hail", "⛈️")
    ensures CodeToInfo(4) == UnknownInfo
    ensures CodeToInfo(-1) == UnknownInfo
    ensures CodeToInfo(9999) == UnknownInfo
  {
  }
}
