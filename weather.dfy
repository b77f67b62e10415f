/**
 * The OpenWeatherMap side of the firmware: the closed set of condition codes
 * the JSON may carry, the icon each one is drawn with, the bounded shape of a
 * decoded response, and the request URL built by `WeatherApi::new`.
 */
module Weather {
  import opened Wrappers
  import opened Heapless
  import opened Decimal

  /** `ConditionCode`: one variant per documented OpenWeatherMap code. */
  datatype ConditionCode =
    | ThunderstormWithLightRain
    | ThunderstormWithRain
    | ThunderstormWithHeavyRain
    | LightThunderstorm
    | Thunderstorm
    | HeavyThunderstorm
    | RaggedThunderstorm
    | ThunderstormWithLightDrizzle
    | ThunderstormWithDrizzle
    | ThunderstormWithHeavyDrizzle
    | LightIntensityDrizzle
    | Drizzle
    | HeavyIntensityDrizzle
    | LightIntensityDrizzleRain
    | DrizzleRain
    | HeavyIntensityDrizzleRain
    | ShowerRainAndDrizzle
    | HeavyShowerRainAndDrizzle
    | ShowerDrizzle
    | LightRain
    | ModerateRain
    | HeavyIntensityRain
    | VeryHeavyRain
    | ExtremeRain
    | FreezingRain
    | LightIntensityShowerRain
    | ShowerRain
    | HeavyIntensityShowerRain
    | RaggedShowerRain
    | LightSnow
    | Snow
    | HeavySnow
    | Sleet
    | LightShowerSleet
    | ShowerSleet
    | LightRainAndSnow
    | RainAndSnow
    | LightShowerSnow
    | ShowerSnow
    | HeavyShowerSnow
    | Mist
    | Smoke
    | Haze
    | SandDustWhirls
    | Fog
    | Sand
    | Dust
    | VolcanicAsh
    | Squalls
    | Tornado
    | ClearSky
    | FewClouds
    | ScatteredClouds
    | BrokenClouds
    | OvercastClouds

  /** The `u16` discriminant each variant carries. */
  function Code(c: ConditionCode): (n: int)
    ensures 200 <= n <= 804
  {
    match c
    case ThunderstormWithLightRain => 200
    case ThunderstormWithRain => 201
    case ThunderstormWithHeavyRain => 202
    case LightThunderstorm => 210
    case Thunderstorm => 211
    case HeavyThunderstorm => 212
    case RaggedThunderstorm => 221
    case ThunderstormWithLightDrizzle => 230
    case ThunderstormWithDrizzle => 231
    case ThunderstormWithHeavyDrizzle => 232
    case LightIntensityDrizzle => 300
    case Drizzle => 301
    case HeavyIntensityDrizzle => 302
    case LightIntensityDrizzleRain => 310
    case DrizzleRain => 311
    case HeavyIntensityDrizzleRain => 312
    case ShowerRainAndDrizzle => 313
    case HeavyShowerRainAndDrizzle => 314
    case ShowerDrizzle => 321
    case LightRain => 500
    case ModerateRain => 501
    case HeavyIntensityRain => 502
    case VeryHeavyRain => 503
    case ExtremeRain => 504
    case FreezingRain => 511
    case LightIntensityShowerRain => 520
    case ShowerRain => 521
    case HeavyIntensityShowerRain => 522
    case RaggedShowerRain => 531
    case LightSnow => 600
    case Snow => 601
    case HeavySnow => 602
    case Sleet => 611
    case LightShowerSleet => 612
    case ShowerSleet => 613
    case LightRainAndSnow => 615
    case RainAndSnow => 616
    case LightShowerSnow => 620
    case ShowerSnow => 621
    case HeavyShowerSnow => 622
    case Mist => 701
    case Smoke => 711
    case Haze => 721
    case SandDustWhirls => 731
    case Fog => 741
    case Sand => 751
    case Dust => 761
    case VolcanicAsh => 762
    case Squalls => 771
    case Tornado => 781
    case ClearSky => 800
    case FewClouds => 801
    case ScatteredClouds => 802
    case BrokenClouds => 803
    case OvercastClouds => 804
  }

  /**
   * `Deserialize_repr`: an integer decodes to the variant whose discriminant
   * it is, and every other integer is rejected. The match is split by the
   * hundreds digit, following the groups of the enum.
   */
  function Decode(n: int): Option<ConditionCode>
  {
    if 200 <= n < 300 then DecodeThunderstorm(n)
    else if 300 <= n < 400 then DecodeDrizzle(n)
    else if 500 <= n < 600 then DecodeRain(n)
    else if 600 <= n < 700 then DecodeSnow(n)
    else if 700 <= n < 800 then DecodeAtmosphere(n)
    else if 800 <= n < 900 then DecodeSky(n)
    else None
  }

  /** Group 2xx: Thunderstorm. */
  function DecodeThunderstorm(n: int): Option<ConditionCode>
  {
    match n
    case 200 => Some(ThunderstormWithLightRain)
    case 201 => Some(ThunderstormWithRain)
    case 202 => Some(ThunderstormWithHeavyRain)
    case 210 => Some(LightThunderstorm)
    case 211 => Some(Thunderstorm)
    case 212 => Some(HeavyThunderstorm)
    case 221 => Some(RaggedThunderstorm)
    case 230 => Some(ThunderstormWithLightDrizzle)
    case 231 => Some(ThunderstormWithDrizzle)
    case 232 => Some(ThunderstormWithHeavyDrizzle)
    case _ => None
  }

  /** Group 3xx: Drizzle. */
  function DecodeDrizzle(n: int): Option<ConditionCode>
  {
    match n
    case 300 => Some(LightIntensityDrizzle)
    case 301 => Some(Drizzle)
    case 302 => Some(HeavyIntensityDrizzle)
    case 310 => Some(LightIntensityDrizzleRain)
    case 311 => Some(DrizzleRain)
    case 312 => Some(HeavyIntensityDrizzleRain)
    case 313 => Some(ShowerRainAndDrizzle)
    case 314 => Some(HeavyShowerRainAndDrizzle)
    case 321 => Some(ShowerDrizzle)
    case _ => None
  }

  /** Group 5xx: Rain. */
  function DecodeRain(n: int): Option<ConditionCode>
  {
    match n
    case 500 => Some(LightRain)
    case 501 => Some(ModerateRain)
    case 502 => Some(HeavyIntensityRain)
    case 503 => Some(VeryHeavyRain)
    case 504 => Some(ExtremeRain)
    case 511 => Some(FreezingRain)
    case 520 => Some(LightIntensityShowerRain)
    case 521 => Some(ShowerRain)
    case 522 => Some(HeavyIntensityShowerRain)
    case 531 => Some(RaggedShowerRain)
    case _ => None
  }

  /** Group 6xx: Snow. */
  function DecodeSnow(n: int): Option<ConditionCode>
  {
    match n
    case 600 => Some(LightSnow)
    case 601 => Some(Snow)
    case 602 => Some(HeavySnow)
    case 611 => Some(Sleet)
    case 612 => Some(LightShowerSleet)
    case 613 => Some(ShowerSleet)
    case 615 => Some(LightRainAndSnow)
    case 616 => Some(RainAndSnow)
    case 620 => Some(LightShowerSnow)
    case 621 => Some(ShowerSnow)
    case 622 => Some(HeavyShowerSnow)
    case _ => None
  }

  /** Group 7xx: Atmosphere. */
  function DecodeAtmosphere(n: int): Option<ConditionCode>
  {
    match n
    case 701 => Some(Mist)
    case 711 => Some(Smoke)
    case 721 => Some(Haze)
    case 731 => Some(SandDustWhirls)
    case 741 => Some(Fog)
    case 751 => Some(Sand)
    case 761 => Some(Dust)
    case 762 => Some(VolcanicAsh)
    case 771 => Some(Squalls)
    case 781 => Some(Tornado)
    case _ => None
  }

  /** Group 800 and 80x: Clear and Clouds. */
  function DecodeSky(n: int): Option<ConditionCode>
  {
    match n
    case 800 => Some(ClearSky)
    case 801 => Some(FewClouds)
    case 802 => Some(ScatteredClouds)
    case 803 => Some(BrokenClouds)
    case 804 => Some(OvercastClouds)
    case _ => None
  }

  // The 55 discriminants, group by group, written out as an independent reference.
  const ThunderstormCodes: set<int> := {200, 201, 202, 210, 211, 212, 221, 230, 231, 232}
  const DrizzleCodes: set<int> := {300, 301, 302, 310, 311, 312, 313, 314, 321}
  const RainCodes: set<int> := {500, 501, 502, 503, 504, 511, 520, 521, 522, 531}
  const SnowCodes: set<int> := {600, 601, 602, 611, 612, 613, 615, 616, 620, 621, 622}
  const AtmosphereCodes: set<int> := {701, 711, 721, 731, 741, 751, 761, 762, 771, 781}
  const SkyCodes: set<int> := {800, 801, 802, 803, 804}
  const KnownCodes: set<int> :=
    ThunderstormCodes + DrizzleCodes + RainCodes + SnowCodes + AtmosphereCodes + SkyCodes

  const StormIcon: string := "storm.bmp"
  const RainyIcon: string := "rainy.bmp"
  const RainyHeavyIcon: string := "rainy_heavy.bmp"
  const WeatherMixIcon: string := "weather_mix.bmp"
  const SnowingIcon: string := "snowing.bmp"
  const FoggyIcon: string := "foggy.bmp"
  const CycloneIcon: string := "cyclone.bmp"
  const SunnyIcon: string := "sunny.bmp"
  const PartlyCloudyDayIcon: string := "partly_cloudy_day.bmp"

  /** The nine icon file names `ConditionCode::icon` can return. */
  const IconNames: set<string> := {
    StormIcon, RainyIcon, RainyHeavyIcon, WeatherMixIcon, SnowingIcon,
    FoggyIcon, CycloneIcon, SunnyIcon, PartlyCloudyDayIcon
  }

  /** `ConditionCode::icon`: the bitmap a condition is drawn with. */
  function Icon(c: ConditionCode): (name: string)
    ensures name in IconNames
  {
    match c
    case ThunderstormWithLightRain => StormIcon
    case ThunderstormWithRain => StormIcon
    case ThunderstormWithHeavyRain => StormIcon
    case LightThunderstorm => StormIcon
    case Thunderstorm => StormIcon
    case HeavyThunderstorm => StormIcon
    case RaggedThunderstorm => StormIcon
    case ThunderstormWithLightDrizzle => StormIcon
    case ThunderstormWithDrizzle => StormIcon
    case ThunderstormWithHeavyDrizzle => StormIcon
    case LightIntensityDrizzle => RainyIcon
    case Drizzle => RainyIcon
    case HeavyIntensityDrizzle => RainyIcon
    case LightIntensityDrizzleRain => RainyIcon
    case DrizzleRain => RainyIcon
    case HeavyIntensityDrizzleRain => RainyIcon
    case ShowerRainAndDrizzle => RainyIcon
    case HeavyShowerRainAndDrizzle => RainyIcon
    case ShowerDrizzle => RainyIcon
    case LightRain => RainyHeavyIcon
    case ModerateRain => RainyHeavyIcon
    case HeavyIntensityRain => RainyHeavyIcon
    case VeryHeavyRain => RainyHeavyIcon
    case ExtremeRain => RainyHeavyIcon
    case FreezingRain => WeatherMixIcon
    case LightIntensityShowerRain => RainyHeavyIcon
    case ShowerRain => RainyHeavyIcon
    case HeavyIntensityShowerRain => RainyHeavyIcon
    case RaggedShowerRain => RainyHeavyIcon
    case LightSnow => SnowingIcon
    case Snow => SnowingIcon
    case HeavySnow => SnowingIcon
    case Sleet => SnowingIcon
    case LightShowerSleet => SnowingIcon
    case ShowerSleet => SnowingIcon
    case LightRainAndSnow => SnowingIcon
    case RainAndSnow => SnowingIcon
    case LightShowerSnow => SnowingIcon
    case ShowerSnow => SnowingIcon
    case HeavyShowerSnow => SnowingIcon
    case Mist => FoggyIcon
    case Smoke => FoggyIcon
    case Haze => FoggyIcon
    case SandDustWhirls => FoggyIcon
    case Fog => FoggyIcon
    case Sand => FoggyIcon
    case Dust => FoggyIcon
    case VolcanicAsh => FoggyIcon
    case Squalls => FoggyIcon
    case Tornado => CycloneIcon
    case ClearSky => SunnyIcon
    case FewClouds => PartlyCloudyDayIcon
    case ScatteredClouds => PartlyCloudyDayIcon
    case BrokenClouds => PartlyCloudyDayIcon
    case OvercastClouds => PartlyCloudyDayIcon
  }

  lemma DecodeThunderstormCorrect(n: int)
    ensures DecodeThunderstorm(n).Some? ==> Code(DecodeThunderstorm(n).value) == n
    ensures DecodeThunderstorm(n).Some? <==> n in ThunderstormCodes
  {
  }

  lemma DecodeDrizzleCorrect(n: int)
    ensures DecodeDrizzle(n).Some? ==> Code(DecodeDrizzle(n).value) == n
    ensures DecodeDrizzle(n).Some? <==> n in DrizzleCodes
  {
  }

  lemma DecodeRainCorrect(n: int)
    ensures DecodeRain(n).Some? ==> Code(DecodeRain(n).value) == n
    ensures DecodeRain(n).Some? <==> n in RainCodes
  {
  }

  lemma DecodeSnowCorrect(n: int)
    ensures DecodeSnow(n).Some? ==> Code(DecodeSnow(n).value) == n
    ensures DecodeSnow(n).Some? <==> n in SnowCodes
  {
  }

  lemma DecodeAtmosphereCorrect(n: int)
    ensures DecodeAtmosphere(n).Some? ==> Code(DecodeAtmosphere(n).value) == n
    ensures DecodeAtmosphere(n).Some? <==> n in AtmosphereCodes
  {
  }

  lemma DecodeSkyCorrect(n: int)
    ensures DecodeSky(n).Some? ==> Code(DecodeSky(n).value) == n
    ensures DecodeSky(n).Some? <==> n in SkyCodes
  {
  }

  /** Decoding never changes the number: the variant found carries `n`. */
  lemma DecodeSound(n: int)
    ensures Decode(n).Some? ==> Code(Decode(n).value) == n
  {
    DecodeThunderstormCorrect(n);
    DecodeDrizzleCorrect(n);
    DecodeRainCorrect(n);
    DecodeSnowCorrect(n);
    DecodeAtmosphereCorrect(n);
    DecodeSkyCorrect(n);
  }


  /** The variants of each group of the enum, by name. */
  predicate InThunderstormGroup(c: ConditionCode)
  {
    c.ThunderstormWithLightRain?
    || c.ThunderstormWithRain?
    || c.ThunderstormWithHeavyRain?
    || c.LightThunderstorm?
    || c.Thunderstorm?
    || c.HeavyThunderstorm?
    || c.RaggedThunderstorm?
    || c.ThunderstormWithLightDrizzle?
    || c.ThunderstormWithDrizzle?
    || c.ThunderstormWithHeavyDrizzle?
  }

  predicate InDrizzleGroup(c: ConditionCode)
  {
    c.LightIntensityDrizzle?
    || c.Drizzle?
    || c.HeavyIntensityDrizzle?
    || c.LightIntensityDrizzleRain?
    || c.DrizzleRain?
    || c.HeavyIntensityDrizzleRain?
    || c.ShowerRainAndDrizzle?
    || c.HeavyShowerRainAndDrizzle?
    || c.ShowerDrizzle?
  }

  predicate InRainGroup(c: ConditionCode)
  {
    c.LightRain?
    || c.ModerateRain?
    || c.HeavyIntensityRain?
    || c.VeryHeavyRain?
    || c.ExtremeRain?
    || c.FreezingRain?
    || c.LightIntensityShowerRain?
    || c.ShowerRain?
    || c.HeavyIntensityShowerRain?
    || c.RaggedShowerRain?
  }

  predicate InSnowGroup(c: ConditionCode)
  {
    c.LightSnow?
    || c.Snow?
    || c.HeavySnow?
    || c.Sleet?
    || c.LightShowerSleet?
    || c.ShowerSleet?
    || c.LightRainAndSnow?
    || c.RainAndSnow?
    || c.LightShowerSnow?
    || c.ShowerSnow?
    || c.HeavyShowerSnow?
  }

  predicate InAtmosphereGroup(c: ConditionCode)
  {
    c.Mist?
    || c.Smoke?
    || c.Haze?
    || c.SandDustWhirls?
    || c.Fog?
    || c.Sand?
    || c.Dust?
    || c.VolcanicAsh?
    || c.Squalls?
    || c.Tornado?
  }

  predicate InSkyGroup(c: ConditionCode)
  {
    c.ClearSky?
    || c.FewClouds?
    || c.ScatteredClouds?
    || c.BrokenClouds?
    || c.OvercastClouds?
  }

  /** Each group decoder finds every variant of its group from its discriminant. */
  lemma DecodeThunderstormComplete(c: ConditionCode)
    requires InThunderstormGroup(c)
    ensures 200 <= Code(c) < 300 && DecodeThunderstorm(Code(c)) == Some(c)
  {
  }

  lemma DecodeDrizzleComplete(c: ConditionCode)
    requires InDrizzleGroup(c)
    ensures 300 <= Code(c) < 400 && DecodeDrizzle(Code(c)) == Some(c)
  {
  }

  lemma DecodeRainComplete(c: ConditionCode)
    requires InRainGroup(c)
    ensures 500 <= Code(c) < 600 && DecodeRain(Code(c)) == Some(c)
  {
  }

  lemma DecodeSnowComplete(c: ConditionCode)
    requires InSnowGroup(c)
    ensures 600 <= Code(c) < 700 && DecodeSnow(Code(c)) == Some(c)
  {
  }

  lemma DecodeAtmosphereComplete(c: ConditionCode)
    requires InAtmosphereGroup(c)
    ensures 700 <= Code(c) < 800 && DecodeAtmosphere(Code(c)) == Some(c)
  {
  }

  lemma DecodeSkyComplete(c: ConditionCode)
    requires InSkyGroup(c)
    ensures 800 <= Code(c) < 900 && DecodeSky(Code(c)) == Some(c)
  {
  }

  /** A variant's discriminant decodes back to that variant. */
  lemma DecodeCode(c: ConditionCode)
    ensures Decode(Code(c)) == Some(c)
  {
    if InThunderstormGroup(c) {
      DecodeThunderstormComplete(c);
    } else if InDrizzleGroup(c) {
      DecodeDrizzleComplete(c);
    } else if InRainGroup(c) {
      DecodeRainComplete(c);
    } else if InSnowGroup(c) {
      DecodeSnowComplete(c);
    } else if InAtmosphereGroup(c) {
      DecodeAtmosphereComplete(c);
    } else {
      DecodeSkyComplete(c);
    }
  }


  /** An integer is rejected exactly when no variant carries it. */
  lemma DecodeRejects(n: int)
    ensures Decode(n).None? <==> forall c: ConditionCode :: Code(c) != n
  {
    forall c: ConditionCode | Code(c) == n ensures Decode(n).Some? {
      DecodeCode(c);
    }
    DecodeSound(n);
  }

  /** Decoding succeeds exactly on the 55 listed discriminants. */
  lemma DecodeDomain(n: int)
    ensures Decode(n).Some? <==> n in KnownCodes
  {
    DecodeThunderstormCorrect(n);
    DecodeDrizzleCorrect(n);
    DecodeRainCorrect(n);
    DecodeSnowCorrect(n);
    DecodeAtmosphereCorrect(n);
    DecodeSkyCorrect(n);
  }


  /** Codes in the gaps between the groups and outside 200..804 are rejected. */
  lemma DecodeRejectsGaps()
    ensures Decode(203).None? && Decode(505).None? && Decode(623).None?
    ensures Decode(805).None? && Decode(999).None?
    ensures forall n :: n < 200 || n > 804 ==> Decode(n).None?
  {
  }

  /** Each icon is chosen by exactly one group of discriminants. */
  lemma IconGroups(c: ConditionCode)
    ensures Icon(c) == StormIcon <==> 200 <= Code(c) <= 232
    ensures Icon(c) == RainyIcon <==> 300 <= Code(c) <= 321
    ensures Icon(c) == RainyHeavyIcon <==> 500 <= Code(c) <= 504 || 520 <= Code(c) <= 531
    ensures Icon(c) == WeatherMixIcon <==> Code(c) == 511
    ensures Icon(c) == SnowingIcon <==> 600 <= Code(c) <= 622
    ensures Icon(c) == FoggyIcon <==> 701 <= Code(c) <= 771
    ensures Icon(c) == CycloneIcon <==> Code(c) == 781
    ensures Icon(c) == SunnyIcon <==> Code(c) == 800
    ensures Icon(c) == PartlyCloudyDayIcon <==> 801 <= Code(c) <= 804
  {
  }

  /** The icon drawn for each integer code the JSON can carry. */
  lemma IconOfCode(n: int)
    requires Decode(n).Some?
    ensures var icon := Icon(Decode(n).value);
      && (icon == StormIcon <==> 200 <= n <= 232)
      && (icon == RainyIcon <==> 300 <= n <= 321)
      && (icon == RainyHeavyIcon <==> 500 <= n <= 504 || 520 <= n <= 531)
      && (icon == WeatherMixIcon <==> n == 511)
      && (icon == SnowingIcon <==> 600 <= n <= 622)
      && (icon == FoggyIcon <==> 701 <= n <= 771)
      && (icon == CycloneIcon <==> n == 781)
      && (icon == SunnyIcon <==> n == 800)
      && (icon == PartlyCloudyDayIcon <==> 801 <= n <= 804)
  {
    DecodeSound(n);
    IconGroups(Decode(n).value);
  }

  /** Extreme rain (504) is drawn as heavy rain, like the rest of 500..503. */
  lemma ExtremeRainIsHeavy()
    ensures Decode(504) == Some(ExtremeRain) && Icon(ExtremeRain) == RainyHeavyIcon
  {
  }

  /** Clear sky (800) is drawn with the sun icon. */
  lemma ClearSkyIsSunny()
    ensures Decode(800) == Some(ClearSky) && Icon(ClearSky) == SunnyIcon
  {
  }

  // ----- The decoded response -----

  /** One element of the response's `weather` array. */
  datatype Weather = Weather(id: ConditionCode)

  datatype Main = Main(
    temp: real, feelsLike: real, tempMin: real, tempMax: real,
    pressure: int, humidity: int, seaLevel: Option<int>, grndLevel: Option<int>)

  datatype Wind = Wind(speed: real, deg: real, gust: Option<real>)

  /** The UTC calendar date of the response's `dt` timestamp. */
  datatype Date = Date(year: int, month: int, day: int)

  /** `WeatherData`: `weather` is a `Vec<Weather, 4>` and `name` a `String<20>`. */
  datatype WeatherData = WeatherData(weather: seq<Weather>, main: Main, wind: Wind, dt: Date, name: string)

  const MaxWeatherEntries: nat := 4
  const MaxNameBytes: nat := 20

  predicate OptionalI32(o: Option<int>)
  {
    o.None? || IsI32(o.value)
  }

  predicate ValidMain(m: Main)
  {
    IsI32(m.pressure) && IsI32(m.humidity) && OptionalI32(m.seaLevel) && OptionalI32(m.grndLevel)
  }

  /**
   * An `i32` year, a month in 1..12 and a day in 1..31: a superset of the
   * calendar dates chrono yields, which also bounds the year and the day of each month.
   */
  predicate ValidDate(d: Date)
  {
    IsI32(d.year) && 1 <= d.month <= 12 && 1 <= d.day <= 31
  }

  /** What every decoded `WeatherData` satisfies. */
  predicate WellFormed(d: WeatherData)
  {
    && |d.weather| <= MaxWeatherEntries
    && ByteLen(d.name) <= MaxNameBytes
    && ValidMain(d.main)
    && ValidDate(d.dt)
  }

  /** One `weather` entry: its `id` must be a known condition code. */
  function DecodeWeather(id: int): (r: Option<Weather>)
    ensures r.Some? <==> id in KnownCodes
    ensures r.Some? ==> Code(r.value.id) == id
  {
    DecodeDomain(id);
    DecodeSound(id);
    match Decode(id)
    case Some(c) => Some(Weather(c))
    case None => None
  }

  /**
   * The checks the derived `Deserialize` makes once the JSON is split into
   * fields: at most 4 `weather` entries, each id a known code, a name of at
   * most 20 bytes, `i32` integers, and a date that passes `ValidDate` (a superset of
   * the dates chrono yields).
   */
  function DecodeWeatherData(ids: seq<int>, main: Main, wind: Wind, dt: Date, name: string): (r: Option<WeatherData>)
    ensures r.Some? <==>
      && |ids| <= MaxWeatherEntries
      && (forall i :: 0 <= i < |ids| ==> DecodeWeather(ids[i]).Some?)
      && ValidMain(main)
      && ValidDate(dt)
      && ByteLen(name) <= MaxNameBytes
    ensures r.Some? ==> WellFormed(r.value)
    ensures r.Some? ==>
      && |r.value.weather| == |ids|
      && (forall i :: 0 <= i < |ids| ==> DecodeWeather(ids[i]) == Some(r.value.weather[i]))
      && r.value.main == main && r.value.wind == wind && r.value.dt == dt && r.value.name == name
  {
    if !ValidMain(main) || !ValidDate(dt) || ByteLen(name) > MaxNameBytes then None
    else
      var weather :- DecodeVec(ids, DecodeWeather, MaxWeatherEntries);
      Some(WeatherData(weather, main, wind, dt, name))
  }

  // ----- WeatherApi::new -----

  const ApiHost: string := "api.openweathermap.org"
  /** The request URL up to the API key: endpoint, city, units and the `appid` parameter name. */
  const UrlPrefix: string := "https://" + ApiHost + "/data/2.5/weather" + "?q=Tokyo" + "&units=metric" + "&appid="
  const UrlCapacity: nat := 120

  /** The client; the network stack it also holds is not part of this model. */
  datatype WeatherApi = WeatherApi(url: string)

  lemma UrlPrefixLength()
    ensures |UrlPrefix| == 75 && ByteLen(UrlPrefix) == 75
  {
    assert IsAscii("https://") && IsAscii(ApiHost) && IsAscii("/data/2.5/weather");
    assert IsAscii("?q=Tokyo") && IsAscii("&units=metric") && IsAscii("&appid=");
    AsciiAppend("https://", ApiHost);
    AsciiAppend("https://" + ApiHost, "/data/2.5/weather");
    AsciiAppend("https://" + ApiHost + "/data/2.5/weather", "?q=Tokyo");
    AsciiAppend("https://" + ApiHost + "/data/2.5/weather" + "?q=Tokyo", "&units=metric");
    AsciiAppend("https://" + ApiHost + "/data/2.5/weather" + "?q=Tokyo" + "&units=metric", "&appid=");
    AsciiByteLen(UrlPrefix);
  }

  /**
   * `WeatherApi::new`: pushes the fixed prefix, then the API key, into a
   * `String<120>`; each `unwrap` panics (here: `None`) when the push does not fit.
   */
  method NewWeatherApi(apiKey: string) returns (r: Option<WeatherApi>)
    ensures r.Some? <==> ByteLen(apiKey) <= UrlCapacity - 75
    ensures r.Some? ==> r.value.url == UrlPrefix + apiKey && ByteLen(r.value.url) <= UrlCapacity
    ensures r.Some? ==> r.value.url[..75] == UrlPrefix && r.value.url[75..] == apiKey
  {
    UrlPrefixLength();
    var url := new HString(UrlCapacity);
    var ok := url.PushStr(UrlPrefix);
    assert ok;
    ok := url.PushStr(apiKey);
    if !ok {
      return None;
    }
    r := Some(WeatherApi(url.text));
  }
}
