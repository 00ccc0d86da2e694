/** The weather endpoint (`/api/weather`): the provider's condition text is classified into the
    portal's five conditions, the hourly forecast is sampled, and a shoe is recommended for the
    condition. The provider call itself is an input: its decoded reply, or `None` on failure. */
module Weather {
  import opened Wrappers
  import opened Js
  import opened Http
  import Text
  import Seqs

  datatype Condition = LightRain | Cloudy | Sunny | Snow | Dry {
    /** The condition as the response writes it. */
    function Name(): string {
      match this
      case LightRain => "light-rain"
      case Cloudy => "cloudy"
      case Sunny => "sunny"
      case Snow => "snow"
      case Dry => "dry"
    }
  }

  // ---------------------------------------------------------------- classification

  predicate Mentions(lower: string, a: string, b: string) {
    Text.Contains(lower, a) || Text.Contains(lower, b)
  }

  /** `mapWeatherCondition(text)`: the first matching group wins, in the order rain or drizzle,
      cloud or overcast, sun or clear, snow; anything else is dry. */
  function MapWeatherCondition(text: string): (r: Condition)
    ensures var l := Text.Lower(text);
            (r == LightRain <==> Mentions(l, "rain", "drizzle"))
            && (r == Cloudy <==> !Mentions(l, "rain", "drizzle") && Mentions(l, "cloud", "overcast"))
            && (r == Sunny <==> !Mentions(l, "rain", "drizzle") && !Mentions(l, "cloud", "overcast")
                                && Mentions(l, "sun", "clear"))
            && (r == Snow <==> !Mentions(l, "rain", "drizzle") && !Mentions(l, "cloud", "overcast")
                               && !Mentions(l, "sun", "clear") && Text.Contains(l, "snow"))
  {
    var l := Text.Lower(text);
    if Mentions(l, "rain", "drizzle") then LightRain
    else if Mentions(l, "cloud", "overcast") then Cloudy
    else if Mentions(l, "sun", "clear") then Sunny
    else if Text.Contains(l, "snow") then Snow
    else Dry
  }

  /** The classification ignores letter case. */
  lemma MapIgnoresCase(text: string)
    ensures MapWeatherCondition(Text.Upper(text)) == MapWeatherCondition(text)
    ensures MapWeatherCondition(Text.Lower(text)) == MapWeatherCondition(text)
  {
    Text.LowerOfUpper(text);
    Text.LowerIdempotent(text);
  }

  /** Rain outranks every other word: "sunny with light rain" is rain. */
  lemma RainOutranks(text: string)
    requires Text.Contains(Text.Lower(text), "rain")
    ensures MapWeatherCondition(text) == LightRain
  {
  }

  // ---------------------------------------------------------------- forecast

  /** One hour of the provider's forecast; temperatures are taken as already rounded. */
  datatype Hour = Hour(time: int, tempC: int, conditionText: string, chanceOfRain: int)

  /** One forecast entry of the response; `time` is shown as the hour's local `HH:MM`. */
  datatype Entry = Entry(time: int, temp: int, condition: Condition)

  function EntryOf(h: Hour): Entry {
    Entry(h.time, h.tempC, MapWeatherCondition(h.conditionText))
  }

  /** `hours.filter((_, index) => index % 3 === 0)` from position `i` on. */
  function EveryThirdFrom(hours: seq<Hour>, i: nat): seq<Hour>
    requires i <= |hours|
    decreases |hours| - i
  {
    if i == |hours| then []
    else (if i % 3 == 0 then [hours[i]] else []) + EveryThirdFrom(hours, i + 1)
  }

  /** From a multiple of three `i` on, the filter keeps the hours at `i`, `i + 3`, ... */
  lemma {:induction false} EveryThirdShape(hours: seq<Hour>, i: nat)
    requires i <= |hours| && i % 3 == 0
    ensures var r := EveryThirdFrom(hours, i);
            |hours| - i <= 3 * |r| < |hours| - i + 3
            && forall k :: 0 <= k < |r| ==> i + 3 * k < |hours| && r[k] == hours[i + 3 * k]
    decreases |hours| - i
  {
    if i < |hours| {
      KeepThenSkipTwo(hours, i);
      if i + 3 <= |hours| {
        NextMultiples(i);
        EveryThirdShape(hours, i + 3);
        var r, rest := EveryThirdFrom(hours, i), EveryThirdFrom(hours, i + 3);
        forall k | 0 <= k < |r| ensures i + 3 * k < |hours| && r[k] == hours[i + 3 * k] {
          if k > 0 {
            assert r[k] == rest[k - 1];
          }
        }
      }
    }
  }

  /** The hour at a multiple of three is kept and the next two are dropped. */
  lemma KeepThenSkipTwo(hours: seq<Hour>, i: nat)
    requires i < |hours| && i % 3 == 0
    ensures EveryThirdFrom(hours, i) ==
              [hours[i]] + (if i + 3 <= |hours| then EveryThirdFrom(hours, i + 3) else [])
  {
    NextMultiples(i);
    if i + 1 < |hours| {
      if i + 2 < |hours| {
        assert EveryThirdFrom(hours, i + 2) == EveryThirdFrom(hours, i + 3);
      } else {
        assert EveryThirdFrom(hours, i + 2) == [];
      }
      assert EveryThirdFrom(hours, i + 1) == EveryThirdFrom(hours, i + 2);
    } else {
      assert EveryThirdFrom(hours, i + 1) == [];
    }
  }

  lemma NextMultiples(i: nat)
    requires i % 3 == 0
    ensures (i + 1) % 3 == 1 && (i + 2) % 3 == 2 && (i + 3) % 3 == 0
  {
  }

  /** `.filter(every third).slice(0, 4).map(...)`: the hours at 0, 3, 6 and 9. */
  function Forecast(hours: seq<Hour>): (r: seq<Entry>)
    ensures |r| == if |hours| >= 10 then 4 else (|hours| + 2) / 3
    ensures forall k :: 0 <= k < |r| ==> 3 * k < |hours| && r[k] == EntryOf(hours[3 * k])
  {
    var kept := Seqs.Take(EveryThirdFrom(hours, 0), 4);
    EveryThirdShape(hours, 0);
    seq(|kept|, k requires 0 <= k < |kept| => EntryOf(kept[k]))
  }

  /** The response's weather. */
  datatype Report = Report(temperature: int, condition: Condition, humidity: int,
                           chanceOfRain: int, forecast: seq<Entry>)

  /** The provider's reply: the current reading and the hours of each forecast day. */
  datatype Reading = Reading(tempC: int, conditionText: string, humidity: int, days: seq<seq<Hour>>)

  /** `forecastday[0]?.hour[0]?.chance_of_rain || 0` */
  function ChanceOfRain(days: seq<seq<Hour>>): (r: int)
    ensures |days| == 0 || |days[0]| == 0 ==> r == 0
    ensures |days| > 0 && |days[0]| > 0 ==> r == days[0][0].chanceOfRain
  {
    if |days| > 0 && |days[0]| > 0 then days[0][0].chanceOfRain else 0
  }

  /** The transform in `fetchWeatherData`; only the first forecast day is sampled, and no day at
      all gives an empty forecast. */
  function Transform(d: Reading): (w: Report)
    ensures w.condition == MapWeatherCondition(d.conditionText)
    ensures w.chanceOfRain == ChanceOfRain(d.days)
    ensures |d.days| == 0 ==> w.forecast == []
    ensures |d.days| > 0 ==> w.forecast == Forecast(d.days[0])
    ensures |w.forecast| <= 4
  {
    Report(d.tempC, MapWeatherCondition(d.conditionText), d.humidity, ChanceOfRain(d.days),
           if |d.days| > 0 then Forecast(d.days[0]) else [])
  }

  // ---------------------------------------------------------------- recommendation

  datatype Shoe = Shoe(name: string, style: string, color: string, matchScore: nat)

  datatype Recommendation = Recommendation(primary: Shoe, features: seq<string>,
                                           alternatives: seq<Shoe>)

  const RainPick := Recommendation(Shoe("The Pablo", "City Shoe", "Chocolate Suede", 96),
                                   ["Water-resistant", "All-day comfort"],
                                   [Shoe("The Chelsea", "Chelsea Boot", "Black", 92),
                                    Shoe("The Traveller", "Derby", "Brown", 88)])
  const CloudPick := Recommendation(Shoe("The Kensington", "Brogue Oxford", "Tan", 94),
                                    ["Versatile styling", "Weather-appropriate"],
                                    [Shoe("The Mayfair", "Oxford Cap-Toe", "Black", 90)])
  const SunPick := Recommendation(Shoe("The Piccadilly", "Loafer", "Cognac", 95),
                                  ["Breathable leather", "Elegant casual"], [])
  const DryPick := Recommendation(Shoe("The Mayfair", "Oxford Cap-Toe", "Black", 98),
                                  ["Classic elegance", "Business appropriate"], [])

  /** `weatherRecommendations[condition]`: there is no entry for snow. */
  function Recommendations(c: Condition): (r: Option<Recommendation>)
    ensures r.None? <==> c == Snow
  {
    match c
    case LightRain => Some(RainPick)
    case Cloudy => Some(CloudPick)
    case Sunny => Some(SunPick)
    case Snow => None
    case Dry => Some(DryPick)
  }

  /** `weatherRecommendations[condition] || weatherRecommendations.dry` */
  function RecommendationFor(c: Condition): (r: Recommendation)
    ensures Recommendations(c).Some? ==> r == Recommendations(c).value
    ensures Recommendations(c).None? ==> r == DryPick
  {
    Recommendations(c).GetOr(DryPick)
  }

  /** Snow falls back to the dry-weather shoe. */
  lemma SnowFallsBackToDry()
    ensures RecommendationFor(Snow) == RecommendationFor(Dry)
  {
  }

  // ---------------------------------------------------------------- handlers

  const DefaultLocation := "London"

  /** The reading used when the provider fails: 15 degrees, dry, 65% humidity, 10% rain. */
  const FallbackWeather := Report(15, Dry, 65, 10, [])

  datatype Body =
    | Current(weather: Report, recommendation: Recommendation, location: string, timestamp: int)
    | Fallback(error: string, weather: Report, recommendation: Recommendation)
    | Error(error: string)
    | Preferences(message: string, currentWeather: Report, location: string)

  /** `GET ?location=` at instant `now`; `reply` is the provider's answer for the location. */
  function Get(location: Option<string>, reply: Option<Reading>, now: int): (r: Response<Body>)
    ensures reply.None? ==>
              r == Response(SERVER_ERROR, Fallback("Failed to fetch weather data", FallbackWeather, DryPick))
    ensures reply.Some? ==>
              r.status == OK && r.body.Current?
              && r.body.weather == Transform(reply.value)
              && r.body.recommendation == RecommendationFor(r.body.weather.condition)
              && r.body.location == OrElse(location, DefaultLocation)
              && r.body.timestamp == now
  {
    match reply
    case None => Response(SERVER_ERROR, Fallback("Failed to fetch weather data", FallbackWeather, DryPick))
    case Some(d) =>
      var w := Transform(d);
      Response(OK, Current(w, RecommendationFor(w.condition), OrElse(location, DefaultLocation), now))
  }

  /** `POST` with body `{customerId, location}`; `reply` is the provider's answer. */
  function Post(customerId: Option<string>, location: Option<string>, reply: Option<Reading>): (r: Response<Body>)
    ensures !Present(customerId) ==> r == Response(BAD_REQUEST, Error("Customer ID is required"))
    ensures Present(customerId) && reply.None? ==>
              r == Response(SERVER_ERROR, Error("Failed to update preferences"))
    ensures Present(customerId) && reply.Some? ==>
              r == Response(OK, Preferences("Preferences updated successfully", Transform(reply.value),
                                            OrElse(location, DefaultLocation)))
  {
    if !Present(customerId) then Response(BAD_REQUEST, Error("Customer ID is required"))
    else match reply
      case None => Response(SERVER_ERROR, Error("Failed to update preferences"))
      case Some(d) =>
        Response(OK, Preferences("Preferences updated successfully", Transform(d), OrElse(location, DefaultLocation)))
  }

  /** Whatever the provider answers, GET recommends a shoe the table holds, never a missing one. */
  lemma GetAlwaysRecommends(location: Option<string>, reply: Option<Reading>, now: int)
    ensures var b := Get(location, reply, now).body;
            (b.Current? && b.recommendation in [RainPick, CloudPick, SunPick, DryPick])
            || (b.Fallback? && b.recommendation == DryPick)
  {
  }
}
