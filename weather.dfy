/**
 * The weather page's own logic (src/pages/Weather.jsx): the compass label
 * for a wind direction, the search box that changes the city, the dark-mode
 * switch, and the sign shown before the timezone offset. Fetching the
 * weather is not modelled.
 */
module Weather {
  import opened Wrappers
  import opened JsText

  const InitialCity: string := "Velliparamba"

  /** The eight compass labels, clockwise from north. */
  const Directions: seq<string> := ["N", "NE", "E", "SE", "S", "SW", "W", "NW"]

  /**
   * `Math.round((degrees % 360) / 45)` for integer degrees. `Math.round(x)`
   * is the floor of `x + 1/2`, here the floor of `(2r + 45) / 90`; an
   * integer `r` never lands on a tie.
   */
  function WindIndex(degrees: int): (i: int)
    ensures -8 <= i <= 8
    ensures 90 * i <= 2 * JsRemainder(degrees, 360) + 45 < 90 * (i + 1)
  {
    (2 * JsRemainder(degrees, 360) + 45) / 90
  }

  /**
   * `getWindDirection`: `directions[index % 8]`. A negative index gives a
   * negative remainder and so `undefined` (None), except that -8 gives -0,
   * which reads the first entry.
   */
  function WindDirection(degrees: int): (r: Option<string>)
    ensures r.Some? ==> r.value in Directions
  {
    var k := JsRemainder(WindIndex(degrees), 8);
    if k >= 0 then Some(Directions[k]) else None
  }

  /** Every non-negative reading gets one of the eight labels; a negative one may get none. */
  lemma WindDirectionDefined(degrees: int)
    ensures WindDirection(degrees).None? <==> WindIndex(degrees) < 0 && WindIndex(degrees) != -8
    ensures degrees >= 0 ==> WindDirection(degrees).Some?
    ensures WindDirection(-30) == None
  {
    assert WindIndex(-30) == -1;
  }

  /**
   * The sector rule: a reading whose remainder modulo 360 lies within 22
   * degrees of `45 * k` is labelled `Directions[k % 8]`; k = 8 covers 338 to 359.
   */
  lemma WindSector(degrees: int, k: int)
    requires degrees >= 0 && 0 <= k <= 8
    requires 45 * k - 22 <= degrees % 360 <= 45 * k + 22
    ensures WindDirection(degrees) == Some(Directions[k % 8])
  {
    var r := JsRemainder(degrees, 360);
    assert r == degrees % 360;
    assert 90 * k <= 2 * r + 45 < 90 * (k + 1);
    assert WindIndex(degrees) == k;
  }

  /** The eight exact bearings get their own labels. */
  lemma CardinalLabels()
    ensures WindDirection(0) == Some("N") && WindDirection(45) == Some("NE")
    ensures WindDirection(90) == Some("E") && WindDirection(135) == Some("SE")
    ensures WindDirection(180) == Some("S") && WindDirection(225) == Some("SW")
    ensures WindDirection(270) == Some("W") && WindDirection(315) == Some("NW")
  {
    WindSector(0, 0);
    WindSector(45, 1);
    WindSector(90, 2);
    WindSector(135, 3);
    WindSector(180, 4);
    WindSector(225, 5);
    WindSector(270, 6);
    WindSector(315, 7);
  }

  /** Readings from 338 to 359 wrap round to north. */
  lemma NorthWraps(degrees: int)
    requires 338 <= degrees <= 359
    ensures WindDirection(degrees) == Some("N")
  {
    WindSector(degrees, 8);
  }

  /** A full turn more gives the same label. */
  lemma WindDirectionPeriodic(degrees: int)
    requires degrees >= 0
    ensures WindDirection(degrees + 360) == WindDirection(degrees)
  {
    assert JsRemainder(degrees + 360, 360) == JsRemainder(degrees, 360);
  }

  /**
   * `UTC{timezone >= 0 ? '+' : ''}{timezone / 3600}` for an offset of a
   * whole number of hours, `hours == timezone / 3600`: after "UTC" comes an
   * explicit sign, '+' added by the page or '-' from the number itself,
   * then the digits of the hours.
   */
  function TimezoneLabel(hours: int): (text: string)
    ensures |text| >= 5 && text[..3] == "UTC"
    ensures text[3] == if hours >= 0 then '+' else '-'
    ensures text[4..] == NatDecimal(if hours >= 0 then hours else -hours)
  {
    "UTC" + (if hours >= 0 then "+" else "") + Decimal(hours)
  }

  /** Different offsets get different labels. */
  lemma TimezoneLabelInjective(h1: int, h2: int)
    requires TimezoneLabel(h1) == TimezoneLabel(h2)
    ensures h1 == h2
  {
    var l := TimezoneLabel(h1);
    assert l[3] == TimezoneLabel(h2)[3];
    assert l[4..] == TimezoneLabel(h2)[4..];
    NatDecimalInjective(if h1 >= 0 then h1 else -h1, if h2 >= 0 then h2 else -h2);
  }

  /**
   * The city after a search with the box holding `input`: a box of nothing
   * but whitespace keeps the city; otherwise the new city is non-empty and
   * neither starts nor ends with whitespace.
   */
  function SearchedCity(city: string, input: string): (c: string)
    ensures WhitespaceBetween(input, 0, |input|) ==> c == city
    ensures !WhitespaceBetween(input, 0, |input|) ==>
      c != [] && !IsJsWhitespace(c[0]) && !IsJsWhitespace(c[|c| - 1])
  {
    TrimEmpty(input);
    TrimEnds(input);
    if Trim(input) != "" then Trim(input) else city
  }

  /**
   * The city is either kept or replaced by the trimmed box, searching again
   * with the same box changes nothing, and pre-trimming the box makes no
   * difference.
   */
  lemma SearchSettles(city: string, input: string)
    ensures SearchedCity(city, input) == city || SearchedCity(city, input) == Trim(input)
    ensures SearchedCity(SearchedCity(city, input), input) == SearchedCity(city, input)
    ensures SearchedCity(city, Trim(input)) == SearchedCity(city, input)
  {
    TrimIdempotent(input);
  }

  class WeatherDashboard {
    var city: string
    var searchInput: string
    var darkMode: bool

    constructor ()
      ensures city == InitialCity && searchInput == "" && !darkMode
    {
      city := InitialCity;
      searchInput := "";
      darkMode := false;
    }

    /** Typing in the search box. */
    method SetSearchInput(value: string)
      modifies this
      ensures searchInput == value && city == old(city) && darkMode == old(darkMode)
    {
      searchInput := value;
    }

    /** `handleSearch`: a non-blank box sets the city to its trimmed text; a blank one does nothing. */
    method HandleSearch()
      modifies this
      ensures city == SearchedCity(old(city), old(searchInput))
      ensures Trim(old(searchInput)) == "" ==> city == old(city)
      ensures searchInput == old(searchInput) && darkMode == old(darkMode)
    {
      var trimmed := Trim(searchInput);
      if trimmed != "" {
        city := trimmed;
      }
    }

    /** `toggleDarkMode`. */
    method ToggleDarkMode()
      modifies this
      ensures darkMode == !old(darkMode)
      ensures city == old(city) && searchInput == old(searchInput)
    {
      darkMode := !darkMode;
    }
  }

  /** Two toggles restore the mode. */
  method ToggleTwice(page: WeatherDashboard)
    modifies page
    ensures page.darkMode == old(page.darkMode)
    ensures page.city == old(page.city) && page.searchInput == old(page.searchInput)
  {
    page.ToggleDarkMode();
    page.ToggleDarkMode();
  }
}
