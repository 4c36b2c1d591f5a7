/** The numeric rules of the store (services/db.ts): the level derived from
    experience, the weather multiplier on a mission's XP reward, and how
    long a cached weather reading is reused. */
module Rules {
  import opened Types

  /** Experience per level: `level = floor(xp / 500) + 1`. */
  const XpPerLevel: int := 500

  /** The level a Guardian needs to adopt a spot. */
  const AdoptionLevel: int := 10

  /** A cached weather reading is reused while it is younger than one hour (ms). */
  const WeatherTtl: int := 3600000

  const WeatherAdvice: string := "La nature respire, synchronisez vos actions."

  /** `Math.floor(xp / 500) + 1`.  Dafny's division by a positive divisor
      rounds toward negative infinity, like `Math.floor`, so this holds for
      negative experience too. */
  function Level(xp: int): (l: int)
    ensures (l - 1) * XpPerLevel <= xp < l * XpPerLevel
  {
    xp / XpPerLevel + 1
  }

  lemma LevelMonotonic(xp: int, xp': int)
    requires xp <= xp'
    ensures Level(xp) <= Level(xp')
  {
  }

  /** JavaScript's `Math.round`: the nearest integer, halves rounded up. */
  function JsRound(x: real): (r: int)
    ensures r as real - 0.5 <= x < r as real + 0.5
  {
    (x + 0.5).Floor
  }

  /** `Math.round(r * 1.5)` on an integer needs no floating point: it is
      `(3r + 1) / 2` in floor division. */
  lemma RoundThreeHalves(r: int)
    ensures JsRound(r as real * 1.5) == (3 * r + 1) / 2
  {
    var k := (3 * r + 1) / 2;
    assert 2 * k <= 3 * r + 1 < 2 * k + 2;
    assert k as real - 0.5 <= r as real * 1.5 < k as real + 0.5;
    var j := JsRound(r as real * 1.5);
    assert j as real - 0.5 <= r as real * 1.5 < j as real + 0.5;
    assert (j - k) as real < 1.0 && (k - j) as real < 1.0;
  }

  /** The XP a completion earns (`completeMission`): the mission's
      `xp_reward`, doubled on a rainy water mission, doubled on a sunny
      carbon mission, and `Math.round(xp * 1.5)` on a cloudy biodiversity
      mission, the three tests applied in the source's order. */
  function XpReward(base: int, weather: WeatherType, impact: ImpactType): (r: int)
    ensures !BonusWeather(weather, impact) ==> r == base
    ensures r == base || r == 2 * base || r == (3 * base + 1) / 2
  {
    var afterRain := if weather == Rainy && impact == Water then base * 2 else base;
    var afterSun := if weather == Sunny && impact == Carbon then afterRain * 2 else afterRain;
    if weather == Cloudy && impact == Biodiversity then JsRound(afterSun as real * 1.5) else afterSun
  }

  /** The three weather/impact pairings that carry a bonus. */
  predicate BonusWeather(weather: WeatherType, impact: ImpactType) {
    || (weather == Rainy && impact == Water)
    || (weather == Sunny && impact == Carbon)
    || (weather == Cloudy && impact == Biodiversity)
  }

  /** The reward table: at most one rule fires, and each gives its multiple
      of the base reward; every other pairing earns the base reward. */
  lemma XpRewardRules(base: int, weather: WeatherType, impact: ImpactType)
    ensures weather == Rainy && impact == Water ==> XpReward(base, weather, impact) == 2 * base
    ensures weather == Sunny && impact == Carbon ==> XpReward(base, weather, impact) == 2 * base
    ensures weather == Cloudy && impact == Biodiversity ==> XpReward(base, weather, impact) == (3 * base + 1) / 2
    ensures !BonusWeather(weather, impact) ==> XpReward(base, weather, impact) == base
  {
    RoundThreeHalves(base);
  }

  /** A non-negative reward is never reduced and at most doubled. */
  lemma XpRewardBounds(base: int, weather: WeatherType, impact: ImpactType)
    requires base >= 0
    ensures base <= XpReward(base, weather, impact) <= 2 * base
  {
    XpRewardRules(base, weather, impact);
  }

  /** The cache test of `getCurrentWeather`: `now - timestamp < 3600000`. */
  predicate IsFresh(now: int, timestamp: int): (b: bool)
    ensures b <==> now < timestamp + 60 * 60 * 1000
  {
    now - timestamp < WeatherTtl
  }

  /** `getCurrentWeather`: the cached reading while it is fresh, otherwise a
      new reading taken now (the draw of weather type and temperature is
      passed in). */
  function CurrentWeather(cache: Option<WeatherData>, now: int, kind: WeatherType, temperature: Temperature): (w: WeatherData)
    ensures IsFresh(now, w.timestamp)
    ensures (cache.Some? && w == cache.value) || w == WeatherData(kind, temperature, WeatherAdvice, now)
  {
    if cache.Some? && IsFresh(now, cache.value.timestamp) then cache.value
    else WeatherData(kind, temperature, WeatherAdvice, now)
  }

  /** With no cached reading a new one is always taken; a cached reading is
      reused until exactly one hour after its timestamp (a reading dated in
      the future, negative age, is reused too): at 3,599,999 ms it is
      returned as it is, at 3,600,000 ms it is replaced. */
  lemma WeatherReusedForOneHour(w: WeatherData, kind: WeatherType, temperature: Temperature, age: int)
    ensures CurrentWeather(None, w.timestamp + age, kind, temperature) == WeatherData(kind, temperature, WeatherAdvice, w.timestamp + age)
    ensures age < WeatherTtl ==> CurrentWeather(Some(w), w.timestamp + age, kind, temperature) == w
    ensures age >= WeatherTtl ==>
      CurrentWeather(Some(w), w.timestamp + age, kind, temperature) == WeatherData(kind, temperature, WeatherAdvice, w.timestamp + age)
  {
  }

  /** Level thresholds: 0 and 499 XP are level 1, 500 and 999 level 2, 1000 level 3. */
  lemma LevelExamples()
    ensures Level(0) == 1 && Level(499) == 1 && Level(500) == 2 && Level(999) == 2 && Level(1000) == 3
  {
  }

  /** A cloudy biodiversity mission worth 150 XP earns 225; one worth 151
      earns 227, since 226.5 is rounded up. */
  lemma XpRewardExamples()
    ensures XpReward(150, Cloudy, Biodiversity) == 225
    ensures XpReward(151, Cloudy, Biodiversity) == 227
    ensures XpReward(200, Rainy, Water) == 400 && XpReward(200, Sunny, Water) == 200
  {
    XpRewardRules(150, Cloudy, Biodiversity);
    XpRewardRules(151, Cloudy, Biodiversity);
  }
}
