/** The in-memory store, class `DBService` of services/db.ts.  Each
    collection the source keeps under a storage key is a field; each
    operation reads the fields, updates the affected record in place and
    writes the collection back.  `AdoptSpot`, `UpdateSpiritPersonality`,
    `AddEcho` and `CompleteMission` are proved to leave the store in the
    state, and return the result, of the `Engine` function of the same
    name; `UpdateCollectiveMission` is proved against
    `Collective.UpdateCollectiveMission`, `GetCurrentWeather` against
    `Rules.CurrentWeather` and `GetImpactStats` against
    `Engine.ImpactTotal`; `SetWeather` only stores its argument. */
module Store {
  import opened Types
  import opened Rules
  import Collective
  import Engine

  class DBService {
    var spots: seq<Spot>
    var missions: seq<Mission>
    var collectives: seq<CollectiveMission>
    var completions: seq<MissionCompletion>
    var echos: seq<Echo>
    var profile: Option<Profile>
    var weather: Option<WeatherData>

    /** The store's contents as a value. */
    function State(): Engine.State
      reads this
    {
      Engine.State(spots, missions, collectives, completions, echos, profile, weather)
    }

    /** A store holding the given contents (the source seeds its storage
        once; the seed is left to the caller). */
    constructor (initial: Engine.State)
      ensures State() == initial
    {
      spots, missions, collectives := initial.spots, initial.missions, initial.collectives;
      completions, echos := initial.completions, initial.echos;
      profile, weather := initial.profile, initial.weather;
    }

    /** `getProfile`. */
    method GetProfile() returns (p: Profile)
      ensures p == Engine.CurrentProfile(State())
      ensures profile.Some? ==> p == profile.value
      ensures profile.None? ==> p == Engine.DefaultProfile
    {
      if profile.Some? {
        p := profile.value;
      } else {
        p := Engine.DefaultProfile;
      }
    }

    /** `getCurrentWeather`: the weather type and temperature that the
        source draws at random are parameters, and so is the clock. */
    method GetCurrentWeather(now: int, kind: WeatherType, temperature: Temperature) returns (w: WeatherData)
      modifies this`weather
      ensures w == CurrentWeather(old(weather), now, kind, temperature)
      ensures weather == Some(w)
    {
      if weather.Some? && now - weather.value.timestamp < WeatherTtl {
        w := weather.value;
        return;
      }
      w := WeatherData(kind, temperature, WeatherAdvice, now);
      weather := Some(w);
    }

    /** `setWeather`. */
    method SetWeather(w: WeatherData)
      modifies this`weather
      ensures weather == Some(w)
    {
      weather := Some(w);
    }

    /** `adoptSpot`. */
    method AdoptSpot(spotId: string) returns (r: Result<Spot>)
      modifies this`spots
      ensures Engine.Outcome(State(), r) == Engine.AdoptSpot(old(State()), spotId)
    {
      var current := GetProfile();
      var index := Engine.SpotIndex(spots, spotId);
      if index.None? {
        return Err(SpotNotFound);
      }
      var i := index.value;
      if current.level < AdoptionLevel {
        return Err(LevelTooLow);
      }
      if Truthy(spots[i].ownerId) {
        return Err(SpotAlreadyOwned);
      }
      var spot := spots[i];
      spot := spot.(ownerId := Some(current.id));
      spot := spot.(ownerName := Some(current.username));
      spot := spot.(spiritPersonality := Some(Engine.AdoptedPersonality));
      spots := spots[i := spot];
      r := Ok(spot);
    }

    /** `updateSpiritPersonality`. */
    method UpdateSpiritPersonality(spotId: string, personality: string) returns (r: Result<Spot>)
      modifies this`spots
      ensures Engine.Outcome(State(), r) == Engine.UpdateSpiritPersonality(old(State()), spotId, personality)
    {
      var current := GetProfile();
      var index := Engine.SpotIndex(spots, spotId);
      if index.None? {
        return Err(SpotNotFound);
      }
      var i := index.value;
      if spots[i].ownerId != Some(current.id) {
        return Err(NotAuthorized);
      }
      spots := spots[i := spots[i].(spiritPersonality := Some(personality))];
      r := Ok(spots[i]);
    }

    /** `updateCollectiveMission`. */
    method UpdateCollectiveMission(id: string, value: real, chronicle: Option<string>) returns (r: Result<CollectiveMission>)
      modifies this`collectives
      ensures var u := Collective.UpdateCollectiveMission(old(collectives), id, value, chronicle);
              && (u.Ok? ==> r == Ok(u.value.1) && collectives == u.value.0)
              && (u.Err? ==> r == Err(u.error) && collectives == old(collectives))
    {
      var index := Collective.CollectiveIndex(collectives, id);
      if index.None? {
        return Err(CollectiveMissionNotFound);
      }
      var i := index.value;
      var mission := collectives[i];
      mission := mission.(currentValue := mission.currentValue + value);
      if mission.currentValue >= mission.goalValue {
        mission := mission.(isCompleted := true);
        if Truthy(chronicle) {
          mission := mission.(victoryChronicle := chronicle);
        }
      }
      assert mission == Collective.Contribute(collectives[i], value, chronicle);
      collectives := collectives[i := mission];
      r := Ok(mission);
    }

    /** `addEcho`: the random id and the clock are parameters. */
    method AddEcho(spotId: string, content: string, originalContent: string, echoId: string, now: int) returns (e: Echo)
      modifies this`echos
      ensures Engine.Outcome(State(), Ok(e)) == Engine.AddEcho(old(State()), spotId, content, originalContent, echoId, now)
    {
      var current := GetProfile();
      e := Echo(echoId, spotId, current.id, current.username, content, originalContent, now);
      echos := echos + [e];
    }

    /** `completeMission`: the clock, the random completion id and the
        weather draw are parameters. */
    method CompleteMission(missionId: string, now: int, completionId: string, kind: WeatherType, temperature: Temperature)
      returns (r: Result<MissionCompletion>)
      modifies this
      ensures Engine.Outcome(State(), r) == Engine.CompleteMission(old(State()), missionId, now, completionId, kind, temperature)
    {
      ghost var before := State();
      var index := Engine.MissionIndex(missions, missionId);
      if index.None? {
        return Err(MissionNotFound);
      }
      var mission := missions[index.value];
      var current := GetProfile();
      var w := GetCurrentWeather(now, kind, temperature);
      assert w == Engine.CompletionWeather(before, now, kind, temperature);
      var earned := XpReward(mission.xpReward, w.kind, mission.impactType);
      var completion := MissionCompletion(completionId, current.id, missionId, now, earned);
      var appended := completions + [completion];
      current := current.(xp := current.xp + earned);
      current := current.(level := Level(current.xp));
      var open := Engine.OpenCollectiveIndex(collectives, mission.impactType);
      if open.Some? {
        var contributed := UpdateCollectiveMission(collectives[open.value].id, mission.impactValue, None);
        assert collectives == Engine.ContributeToOpen(before.collectives, mission.impactType, mission.impactValue);
      } else {
        assert collectives == Engine.ContributeToOpen(before.collectives, mission.impactType, mission.impactValue);
      }
      completions := appended;
      profile := Some(current);
      r := Ok(completion);
      assert State() == before.(weather := Some(w), collectives := collectives, completions := appended, profile := Some(current));
    }

    /** `getImpactStats`: one pass over the completions, adding each
        resolved mission's impact to the total of its type. */
    method GetImpactStats() returns (stats: ImpactStats)
      ensures forall t :: stats.Get(t) == Engine.ImpactTotal(completions, missions, t)
    {
      stats := ZeroStats;
      var i := 0;
      while i < |completions|
        invariant 0 <= i <= |completions|
        invariant forall t :: stats.Get(t) == Engine.ImpactTotal(completions[..i], missions, t)
      {
        assert completions[..i + 1][..i] == completions[..i];
        assert forall t :: Engine.ImpactTotal(completions[..i + 1], missions, t)
                          == Engine.ImpactTotal(completions[..i], missions, t) + Engine.CompletionImpact(missions, completions[i], t);
        var index := Engine.MissionIndex(missions, completions[i].missionId);
        if index.Some? {
          var m := missions[index.value];
          stats := stats.Add(m.impactType, m.impactValue);
        }
        i := i + 1;
      }
      assert completions[..i] == completions;
    }
  }
}
