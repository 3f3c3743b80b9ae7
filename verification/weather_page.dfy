/**
 * The Weather page: the icon lookup for a condition key, and the rule table that turns the
 * current reading and the forecast into farming advice.
 */
module WeatherPage {
  import opened Wrappers
  import opened Lists
  import opened WeatherService

  /** `getWeatherIcon`: the page's own table of six condition keys, "Sun" otherwise. */
  function Icon(condition: string): (icon: string)
    ensures condition == "sunny" ==> icon == "Sun"
    ensures condition == "cloudy" ==> icon == "Cloud"
    ensures condition == "rainy" ==> icon == "CloudRain"
    ensures condition == "stormy" ==> icon == "CloudLightning"
    ensures condition == "snowy" ==> icon == "CloudSnow"
    ensures condition == "partly_cloudy" ==> icon == "CloudSun"
    ensures condition !in {"sunny", "cloudy", "rainy", "stormy", "snowy", "partly_cloudy"} ==> icon == "Sun"
  {
    match condition
    case "sunny" => "Sun"
    case "cloudy" => "Cloud"
    case "rainy" => "CloudRain"
    case "stormy" => "CloudLightning"
    case "snowy" => "CloudSnow"
    case "partly_cloudy" => "CloudSun"
    case _ => "Sun"
  }

  /** The advice entries, in the order the rules add them. */
  datatype Advice = HighTemperature | Frost | RainExpected | HighWind | HighHumidity | GoodConditions

  /** Position of each entry in the rule order. */
  function Position(a: Advice): nat {
    match a
    case HighTemperature => 0
    case Frost => 0
    case RainExpected => 1
    case HighWind => 2
    case HighHumidity => 3
    case GoodConditions => 4
  }

  /** Entries appear in strictly increasing rule position. */
  predicate InRuleOrder(advice: seq<Advice>) {
    forall i, j | 0 <= i < j < |advice| :: Position(advice[i]) < Position(advice[j])
  }

  /** Appending one rule's entries (none, or one at rule position `k`) after entries that all
      come before `k` keeps the rule order. */
  lemma AppendRule(prefix: seq<Advice>, part: seq<Advice>, k: int)
    requires InRuleOrder(prefix) && forall x <- prefix :: Position(x) < k
    requires |part| <= 1 && forall x <- part :: Position(x) == k
    ensures InRuleOrder(prefix + part) && forall x <- prefix + part :: Position(x) <= k
    ensures |prefix + part| <= |prefix| + 1
  {
  }

  /** The filter callback for `rainyDays`. */
  predicate IsRainy(d: Day) {
    d.condition == "rainy" || d.condition == "stormy"
  }

  /** The entries each rule contributes. */
  function TemperatureAdvice(w: Reading): seq<Advice> {
    if w.temperature > 85 then [HighTemperature] else if w.temperature < 35 then [Frost] else []
  }

  function RainAdvice(days: seq<Day>): seq<Advice> {
    if |Filter(days, IsRainy)| > 0 then [RainExpected] else []
  }

  function WindAdvice(w: Reading): seq<Advice> {
    if w.windSpeed > 20 then [HighWind] else []
  }

  function HumidityAdvice(w: Reading): seq<Advice> {
    if w.humidity > 80 then [HighHumidity] else []
  }

  /** The advice list the rules produce: every rule's entries in turn, or Good Conditions alone
      when no rule applied. */
  function AdviceFor(weather: Option<Reading>, forecast: Option<seq<Day>>): seq<Advice> {
    if weather.None? || forecast.None? then []
    else
      var w := weather.value;
      var found := TemperatureAdvice(w) + RainAdvice(forecast.value) + WindAdvice(w) + HumidityAdvice(w);
      if found == [] then [GoodConditions] else found
  }

  /** `getWeatherAdvice(weather, forecast)`; `None` is a missing (null) reading or forecast. The
      entries are pushed one rule at a time. */
  method Advise(weather: Option<Reading>, forecast: Option<seq<Day>>) returns (advice: seq<Advice>)
    ensures advice == AdviceFor(weather, forecast)
  {
    if weather.None? || forecast.None? {
      return [];
    }
    var w, days := weather.value, forecast.value;
    advice := [];
    if w.temperature > 85 {
      advice := advice + [HighTemperature];
    } else if w.temperature < 35 {
      advice := advice + [Frost];
    }
    assert advice == TemperatureAdvice(w);
    var rainyDays := Filter(days, IsRainy);
    if |rainyDays| > 0 {
      advice := advice + [RainExpected];
    }
    assert advice == TemperatureAdvice(w) + RainAdvice(days);
    if w.windSpeed > 20 {
      advice := advice + [HighWind];
    }
    if w.humidity > 80 {
      advice := advice + [HighHumidity];
    }
    if |advice| == 0 {
      advice := advice + [GoodConditions];
    }
  }

  // ---- properties of the rule table ----

  /** A missing reading or forecast gives no advice. An empty forecast is not missing. */
  lemma MissingInputGivesNothing(weather: Option<Reading>, forecast: Option<seq<Day>>)
    ensures weather.None? || forecast.None? ==> AdviceFor(weather, forecast) == []
    ensures weather.Some? && forecast.Some? ==> AdviceFor(weather, forecast) != []
  {
  }

  /** High Temperature above 85, Frost below 35, never both. */
  lemma TemperatureRule(w: Reading, days: seq<Day>)
    ensures HighTemperature in AdviceFor(Some(w), Some(days)) <==> w.temperature > 85
    ensures Frost in AdviceFor(Some(w), Some(days)) <==> w.temperature < 35
    ensures !(HighTemperature in AdviceFor(Some(w), Some(days)) && Frost in AdviceFor(Some(w), Some(days)))
  {
  }

  /** Rain Expected exactly when some forecast day is "rainy" or "stormy". */
  lemma {:induction false} RainRule(w: Reading, days: seq<Day>)
    ensures RainExpected in AdviceFor(Some(w), Some(days)) <==> exists d :: d in days && IsRainy(d)
  {
    FilterMembers(days, IsRainy);
    if |Filter(days, IsRainy)| > 0 {
      assert Filter(days, IsRainy)[0] in Filter(days, IsRainy);
    }
  }

  /** High Wind above 20 mph, High Humidity above 80 percent. */
  lemma WindAndHumidityRules(w: Reading, days: seq<Day>)
    ensures HighWind in AdviceFor(Some(w), Some(days)) <==> w.windSpeed > 20
    ensures HighHumidity in AdviceFor(Some(w), Some(days)) <==> w.humidity > 80
  {
  }

  /** Good Conditions appears exactly when no other rule applied, and then alone. */
  lemma GoodConditionsRule(w: Reading, days: seq<Day>)
    ensures var a := AdviceFor(Some(w), Some(days));
      GoodConditions in a <==> a == [GoodConditions]
    ensures var a := AdviceFor(Some(w), Some(days));
      GoodConditions in a <==> (35 <= w.temperature <= 85 && |Filter(days, IsRainy)| == 0
                                 && w.windSpeed <= 20 && w.humidity <= 80)
  {
  }

  /** The entries follow the rule order (temperature, rain, wind, humidity), so there are at
      most four of them. */
  lemma {:induction false} AdviceOrderAndSize(weather: Option<Reading>, forecast: Option<seq<Day>>)
    ensures InRuleOrder(AdviceFor(weather, forecast))
    ensures |AdviceFor(weather, forecast)| <= 4
  {
    if weather.Some? && forecast.Some? {
      var w := weather.value;
      var t := TemperatureAdvice(w);
      var r := t + RainAdvice(forecast.value);
      var wi := r + WindAdvice(w);
      var h := wi + HumidityAdvice(w);
      assert [] + t == t;
      AppendRule([], t, 0);
      AppendRule(t, RainAdvice(forecast.value), 1);
      AppendRule(r, WindAdvice(w), 2);
      AppendRule(wi, HumidityAdvice(w), 3);
    }
  }
}
