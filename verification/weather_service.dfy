/**
 * `weatherService`: the stored readings, and `getWeatherSummary`'s helpers that pick an icon
 * and write a one-line summary from the current temperature and condition.
 */
module WeatherService {
  import opened Records
  import Text

  /** The fields of the current reading the dashboard and advice use. */
  datatype Reading = Reading(temperature: int, humidity: int, windSpeed: int, condition: string)

  /** One forecast day. */
  datatype Day = Day(date: string, day: string, high: int, low: int, condition: string,
                     humidity: int, windSpeed: int, precipitation: int)

  datatype WeatherData = WeatherData(current: Reading, forecast: seq<Day>)

  /** The readings the service holds. */
  const Stored := WeatherData(
    Reading(22, 65, 12, "Partly Cloudy"),
    [ Day("2024-01-15", "Today", 25, 18, "Partly Cloudy", 65, 12, 10),
      Day("2024-01-16", "Tomorrow", 28, 20, "Sunny", 55, 8, 0),
      Day("2024-01-17", "Wednesday", 26, 19, "Cloudy", 70, 15, 25),
      Day("2024-01-18", "Thursday", 23, 16, "Light Rain", 80, 18, 65),
      Day("2024-01-19", "Friday", 27, 21, "Partly Cloudy", 60, 10, 15) ])

  /** `conditionLower.includes(word)`. */
  predicate Mentions(condition: string, word: string) {
    Text.Contains(Text.Lower(condition), word)
  }

  /** Which rule of the precedence sunny/clear > cloud > rain > storm > snow > fog a condition
      falls under first; both helpers branch on it. */
  datatype Kind = Clear | Clouds | Rain | Storm | Snow | Fog | Other

  /** A condition that mentions "sunny" or "clear": the first rule. */
  predicate Bright(condition: string) {
    Mentions(condition, "sunny") || Mentions(condition, "clear")
  }

  function KindOf(condition: string): (k: Kind)
    ensures k == Clear <==> Bright(condition)
    ensures k == Clouds <==> !Bright(condition) && Mentions(condition, "cloud")
    ensures k == Rain <==> !Bright(condition) && !Mentions(condition, "cloud") && Mentions(condition, "rain")
    ensures k == Storm <==> (!Bright(condition) && !Mentions(condition, "cloud") && !Mentions(condition, "rain")
      && Mentions(condition, "storm"))
    ensures k == Snow <==> (!Bright(condition) && !Mentions(condition, "cloud") && !Mentions(condition, "rain")
      && !Mentions(condition, "storm") && Mentions(condition, "snow"))
    ensures k == Fog <==> (!Bright(condition) && !Mentions(condition, "cloud") && !Mentions(condition, "rain")
      && !Mentions(condition, "storm") && !Mentions(condition, "snow") && Mentions(condition, "fog"))
    ensures k == Other <==> (!Bright(condition) && !Mentions(condition, "cloud") && !Mentions(condition, "rain")
      && !Mentions(condition, "storm") && !Mentions(condition, "snow") && !Mentions(condition, "fog"))
  {
    if Bright(condition) then Clear
    else if Mentions(condition, "cloud") then Clouds
    else if Mentions(condition, "rain") then Rain
    else if Mentions(condition, "storm") then Storm
    else if Mentions(condition, "snow") then Snow
    else if Mentions(condition, "fog") then Fog
    else Other
  }

  /** `getWeatherIcon` (the service's own, case-insensitive, first match wins). */
  function Icon(condition: string): (icon: string)
    ensures icon in {"Sun", "Cloud", "CloudRain", "CloudLightning", "CloudSnow", "CloudFog"}
    ensures icon == "Sun" <==> (Bright(condition) || (!Mentions(condition, "cloud") && !Mentions(condition, "rain")
      && !Mentions(condition, "storm") && !Mentions(condition, "snow") && !Mentions(condition, "fog")))
    ensures icon == "Cloud" <==> !Bright(condition) && Mentions(condition, "cloud")
    ensures icon == "CloudRain" <==> !Bright(condition) && !Mentions(condition, "cloud") && Mentions(condition, "rain")
    ensures icon == "CloudLightning" <==> (!Bright(condition) && !Mentions(condition, "cloud")
      && !Mentions(condition, "rain") && Mentions(condition, "storm"))
    ensures icon == "CloudSnow" <==> (!Bright(condition) && !Mentions(condition, "cloud")
      && !Mentions(condition, "rain") && !Mentions(condition, "storm") && Mentions(condition, "snow"))
    ensures icon == "CloudFog" <==> (!Bright(condition) && !Mentions(condition, "cloud")
      && !Mentions(condition, "rain") && !Mentions(condition, "storm") && !Mentions(condition, "snow")
      && Mentions(condition, "fog"))
  {
    match KindOf(condition)
    case Clear => "Sun"
    case Clouds => "Cloud"
    case Rain => "CloudRain"
    case Storm => "CloudLightning"
    case Snow => "CloudSnow"
    case Fog => "CloudFog"
    case Other => "Sun"
  }

  /** `tempDesc`. */
  function TempWord(temp: int): (w: string)
    ensures w == "warm" <==> temp >= 75
    ensures w == "comfortable" <==> 60 <= temp < 75
    ensures w == "cool" <==> 45 <= temp < 60
    ensures w == "cold" <==> temp < 45
  {
    if temp >= 75 then "warm" else if temp >= 60 then "comfortable" else if temp >= 45 then "cool" else "cold"
  }

  /** `generateSummary`. */
  function Summary(temp: int, condition: string): string {
    Template(KindOf(condition), TempWord(temp), condition)
  }

  /** The summary sentence for a condition of kind `k` and temperature word `t`. */
  function Template(k: Kind, t: string, condition: string): string {
    var band := t + " temperatures";
    match k
    case Clear => "Pleasant " + Text.Lower(condition) + " day with " + band
    case Clouds => condition + " conditions with " + band + " and light winds"
    case Rain => condition + " weather with " + band + " - good day for indoor activities"
    case Storm => condition + " conditions with " + band + " - stay indoors and safe"
    case _ => condition + " weather with " + band
  }

  /** `getWeatherSummary(location)` over the current reading. */
  function GetWeatherSummary(current: Reading, location: string): (r: WeatherSummary)
    ensures r.location == location && r.temperature == current.temperature && r.condition == current.condition
    ensures r.icon == Icon(current.condition) && r.summary == Summary(current.temperature, current.condition)
  {
    WeatherSummary(current.temperature, current.condition, Icon(current.condition), location,
                   Summary(current.temperature, current.condition))
  }

  // ---- properties ----

  /** A warmer reading never gets a colder word: the bands are ordered. */
  function Warmth(w: string): int {
    if w == "warm" then 3 else if w == "comfortable" then 2 else if w == "cool" then 1 else 0
  }

  lemma TempWordMonotone(t1: int, t2: int)
    requires t1 <= t2
    ensures Warmth(TempWord(t1)) <= Warmth(TempWord(t2))
  {
  }

  /** Icon and summary follow the same precedence: a condition mentioning both "cloud" and
      "rain" (and neither "sunny" nor "clear") gets the cloud icon and the cloud template. */
  lemma CloudBeatsRain(temp: int, condition: string)
    requires Mentions(condition, "cloud") && Mentions(condition, "rain")
    requires !Mentions(condition, "sunny") && !Mentions(condition, "clear")
    ensures Icon(condition) == "Cloud"
    ensures Summary(temp, condition) == condition + " conditions with " + TempWord(temp) + " temperatures and light winds"
  {
  }

  /** The icon does not depend on the condition's case: "Light RAIN" and "light rain" get the same
      icon and the same kind of summary. */
  lemma KindIgnoresCase(condition: string)
    ensures KindOf(Text.Lower(condition)) == KindOf(condition)
    ensures Icon(Text.Lower(condition)) == Icon(condition)
  {
    Text.LowerIdempotent(condition);
  }

  /** `b` occurs in `a + b + c` right after `a`. */
  lemma OccursInMiddle(a: string, b: string, c: string)
    ensures Text.OccursAt(a + b + c, b, |a|)
  {
    assert (a + b + c)[|a|..|a| + |b|] == b;
  }

  /** Every template names the temperature word, followed by " temperatures". */
  lemma {:induction false} TemplateNamesBand(k: Kind, t: string, condition: string)
    ensures Text.Contains(Template(k, t, condition), t + " temperatures")
  {
    var m := t + " temperatures";
    var p, q := "", "";
    match k {
      case Clear => p, q := "Pleasant " + Text.Lower(condition) + " day with ", "";
        assert p + m + q == p + m;
      case Clouds => p, q := condition + " conditions with ", " and light winds";
      case Rain => p, q := condition + " weather with ", " - good day for indoor activities";
      case Storm => p, q := condition + " conditions with ", " - stay indoors and safe";
      case _ => p, q := condition + " weather with ", "";
        assert p + m + q == p + m;
    }
    assert Template(k, t, condition) == p + m + q;
    OccursInMiddle(p, m, q);
  }

  /** The summary always names the temperature band, followed by " temperatures". */
  lemma SummaryNamesBand(temp: int, condition: string)
    ensures Text.Contains(Summary(temp, condition), TempWord(temp) + " temperatures")
  {
    TemplateNamesBand(KindOf(condition), TempWord(temp), condition);
  }
}
