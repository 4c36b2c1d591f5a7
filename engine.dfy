/** The store's operations (services/db.ts, class `DBService`) as functions
    of its contents.  `State` holds what the source keeps under its storage
    keys: spots, missions, collective missions, completions, echos, the
    stored profile (absent until the first completion writes it) and the
    cached weather.  Every operation reads the state, fails with the
    source's error or returns the new state and its result; a failed
    operation writes nothing. */
module Engine {
  import opened Types
  import opened Rules
  import opened Lists
  import opened Collective

  datatype State = State(
    spots: seq<Spot>,
    missions: seq<Mission>,
    collectives: seq<CollectiveMission>,
    completions: seq<MissionCompletion>,
    echos: seq<Echo>,
    profile: Option<Profile>,
    weather: Option<WeatherData>)

  /** The state after an operation and what the operation returns or throws. */
  datatype Outcome<T> = Outcome(state: State, result: Result<T>)

  /** The Guardian `getProfile` returns while no profile is stored. */
  const DefaultProfile: Profile :=
    Profile("u1", "Gardien_Alpha", 0, 1, Some("https://api.dicebear.com/7.x/avataaars/svg?seed=Antigravity"))

  /** The personality a freshly adopted spot's spirit is given. */
  const AdoptedPersonality: string := "Protecteur et mystérieux."

  /** `getProfile`: the stored profile, or the default Guardian. */
  function CurrentProfile(st: State): (p: Profile)
    ensures st.profile.Some? ==> p == st.profile.value
    ensures st.profile.None? ==> p.id == "u1" && p.username == "Gardien_Alpha" && p.xp == 0 && p.level == 1
  {
    st.profile.GetOr(DefaultProfile)
  }

  /** The level a profile shows is the one its experience gives. */
  ghost predicate LevelMatchesXp(p: Profile) {
    p.level == Level(p.xp)
  }

  lemma DefaultProfileIsConsistent()
    ensures LevelMatchesXp(DefaultProfile) && DefaultProfile.level < AdoptionLevel
  {
  }

  // ---- spots ----

  /** `spots.findIndex(s => s.id === spotId)`. */
  function SpotIndex(spots: seq<Spot>, id: string): (r: Option<nat>)
    ensures r.Some? ==> r.value < |spots| && spots[r.value].id == id && forall j :: 0 <= j < r.value ==> spots[j].id != id
    ensures r.None? <==> forall j :: 0 <= j < |spots| ==> spots[j].id != id
  {
    FirstIndex(spots, (s: Spot) => s.id == id)
  }

  /** `getSpot`: the first spot whose id or short code is the key. */
  function GetSpot(spots: seq<Spot>, key: string): (r: Option<Spot>)
    ensures r.None? <==> forall j :: 0 <= j < |spots| ==> spots[j].id != key && spots[j].shortCode != key
    ensures r.Some? ==> exists i :: 0 <= i < |spots| && r.value == spots[i] && (spots[i].id == key || spots[i].shortCode == key)
                                    && forall j :: 0 <= j < i ==> spots[j].id != key && spots[j].shortCode != key
  {
    match FirstIndex(spots, (s: Spot) => s.id == key || s.shortCode == key)
    case Some(i) => Some(spots[i])
    case None => None
  }

  /** `getRecommendedPath`: the first three spots in stored order. */
  function RecommendedPath(spots: seq<Spot>): (r: seq<Spot>)
    ensures |r| == if |spots| < 3 then |spots| else 3
    ensures forall i :: 0 <= i < |r| ==> r[i] == spots[i]
  {
    if |spots| < 3 then spots else spots[..3]
  }

  /** `adoptSpot`: fails on an unknown spot, then below level 10, then on a
      spot that already has a (truthy) owner; otherwise makes the current
      Guardian its protector. */
  function AdoptSpot(st: State, spotId: string): (o: Outcome<Spot>)
    ensures o.result.Err? ==> o.state == st
    ensures o.result == Err(SpotNotFound) <==> SpotIndex(st.spots, spotId).None?
    ensures o.result == Err(LevelTooLow) <==>
      SpotIndex(st.spots, spotId).Some? && CurrentProfile(st).level < AdoptionLevel
    ensures o.result == Err(SpotAlreadyOwned) <==>
      SpotIndex(st.spots, spotId).Some? && CurrentProfile(st).level >= AdoptionLevel
      && Truthy(st.spots[SpotIndex(st.spots, spotId).value].ownerId)
    ensures o.result.Ok? <==>
      SpotIndex(st.spots, spotId).Some? && CurrentProfile(st).level >= AdoptionLevel
      && !Truthy(st.spots[SpotIndex(st.spots, spotId).value].ownerId)
    ensures o.result.Ok? ==>
      var i := SpotIndex(st.spots, spotId).value;
      var p := CurrentProfile(st);
      && o.result.value == st.spots[i].(ownerId := Some(p.id), ownerName := Some(p.username),
                                        spiritPersonality := Some(AdoptedPersonality))
      && o.state == st.(spots := st.spots[i := o.result.value])
  {
    var profile := CurrentProfile(st);
    match SpotIndex(st.spots, spotId)
    case None => Outcome(st, Err(SpotNotFound))
    case Some(i) =>
      if profile.level < AdoptionLevel then Outcome(st, Err(LevelTooLow))
      else if Truthy(st.spots[i].ownerId) then Outcome(st, Err(SpotAlreadyOwned))
      else
        var adopted := st.spots[i].(ownerId := Some(profile.id), ownerName := Some(profile.username),
                                    spiritPersonality := Some(AdoptedPersonality));
        Outcome(st.(spots := st.spots[i := adopted]), Ok(adopted))
  }

  /** `updateSpiritPersonality`: only the spot's owner may change its
      spirit's personality; an unowned spot has no owner to match. */
  function UpdateSpiritPersonality(st: State, spotId: string, personality: string): (o: Outcome<Spot>)
    ensures o.result.Err? ==> o.state == st
    ensures o.result == Err(SpotNotFound) <==> SpotIndex(st.spots, spotId).None?
    ensures o.result == Err(NotAuthorized) <==>
      SpotIndex(st.spots, spotId).Some? && st.spots[SpotIndex(st.spots, spotId).value].ownerId != Some(CurrentProfile(st).id)
    ensures o.result.Ok? <==>
      SpotIndex(st.spots, spotId).Some? && st.spots[SpotIndex(st.spots, spotId).value].ownerId == Some(CurrentProfile(st).id)
    ensures o.result.Ok? ==>
      var i := SpotIndex(st.spots, spotId).value;
      && o.result.value == st.spots[i].(spiritPersonality := Some(personality))
      && o.state == st.(spots := st.spots[i := o.result.value])
  {
    match SpotIndex(st.spots, spotId)
    case None => Outcome(st, Err(SpotNotFound))
    case Some(i) =>
      if st.spots[i].ownerId != Some(CurrentProfile(st).id) then Outcome(st, Err(NotAuthorized))
      else
        var updated := st.spots[i].(spiritPersonality := Some(personality));
        Outcome(st.(spots := st.spots[i := updated]), Ok(updated))
  }

  /** Updating a spot in place without changing its id keeps every spot's
      lookup by id where it was. */
  lemma SpotIndexAfterUpdate(spots: seq<Spot>, i: nat, s: Spot, id: string)
    requires i < |spots| && s.id == spots[i].id
    ensures SpotIndex(spots[i := s], id) == SpotIndex(spots, id)
  {
    var spots' := spots[i := s];
    assert forall j :: 0 <= j < |spots| ==> spots'[j].id == spots[j].id;
    match SpotIndex(spots, id)
    case Some(k) => FirstIndexIs(spots', (x: Spot) => x.id == id, k);
    case None =>
  }

  /** Whoever adopts a spot may then set its spirit's personality. */
  lemma AdoptThenOwnerMayEdit(st: State, spotId: string, personality: string)
    requires AdoptSpot(st, spotId).result.Ok?
    ensures UpdateSpiritPersonality(AdoptSpot(st, spotId).state, spotId, personality).result.Ok?
  {
    var i := SpotIndex(st.spots, spotId).value;
    SpotIndexAfterUpdate(st.spots, i, AdoptSpot(st, spotId).result.value, spotId);
  }

  /** A spot is adopted at most once: adopting it again fails with
      `SpotAlreadyOwned`, provided the adopter's id is not the empty string
      (which JavaScript reads as "no owner"). */
  lemma AdoptTwiceFails(st: State, spotId: string)
    requires AdoptSpot(st, spotId).result.Ok?
    requires CurrentProfile(st).id != ""
    ensures AdoptSpot(AdoptSpot(st, spotId).state, spotId).result == Err(SpotAlreadyOwned)
  {
    var i := SpotIndex(st.spots, spotId).value;
    SpotIndexAfterUpdate(st.spots, i, AdoptSpot(st, spotId).result.value, spotId);
  }

  // ---- missions and echos ----

  /** `missions.find(m => m.id === missionId)`, as an index. */
  function MissionIndex(missions: seq<Mission>, id: string): (r: Option<nat>)
    ensures r.Some? ==> r.value < |missions| && missions[r.value].id == id && forall j :: 0 <= j < r.value ==> missions[j].id != id
    ensures r.None? <==> forall j :: 0 <= j < |missions| ==> missions[j].id != id
  {
    FirstIndex(missions, (m: Mission) => m.id == id)
  }

  /** `getMissionsForSpot`: the missions of a spot, in stored order. */
  function MissionsForSpot(missions: seq<Mission>, spotId: string): (r: seq<Mission>)
    ensures forall m :: multiset(r)[m] == if m.spotId == spotId then multiset(missions)[m] else 0
  {
    Filter(missions, (m: Mission) => m.spotId == spotId)
  }

  /** The echos left at a spot, in stored order. */
  function SpotEchos(echos: seq<Echo>, spotId: string): (r: seq<Echo>)
    ensures forall e :: multiset(r)[e] == if e.spotId == spotId then multiset(echos)[e] else 0
  {
    Filter(echos, (e: Echo) => e.spotId == spotId)
  }

  /** `getEchos`: the echos of a spot, newest first; echos written at the
      same time keep their stored order. */
  function EchosForSpot(echos: seq<Echo>, spotId: string): (r: seq<Echo>)
    ensures forall e :: multiset(r)[e] == if e.spotId == spotId then multiset(echos)[e] else 0
    ensures NewestFirst(r)
    ensures forall t :: AtTime(r, t) == AtTime(SpotEchos(echos, spotId), t)
  {
    SortNewestFirstCorrect(SpotEchos(echos, spotId));
    SortNewestFirst(SpotEchos(echos, spotId))
  }

  /** `addEcho`: appends an echo signed by the current Guardian and dated
      now; the random id is passed in.  The default profile is not stored. */
  function AddEcho(st: State, spotId: string, content: string, originalContent: string, echoId: string, now: int)
    : (o: Outcome<Echo>)
    ensures o.result.Ok?
    ensures o.result.value == Echo(echoId, spotId, CurrentProfile(st).id, CurrentProfile(st).username, content, originalContent, now)
    ensures o.state == st.(echos := st.echos + [o.result.value])
  {
    var profile := CurrentProfile(st);
    var echo := Echo(echoId, spotId, profile.id, profile.username, content, originalContent, now);
    Outcome(st.(echos := st.echos + [echo]), Ok(echo))
  }

  /** An echo newer than every other echo of its spot is listed first. */
  lemma AddEchoListedFirst(st: State, spotId: string, content: string, originalContent: string, echoId: string, now: int)
    requires forall e :: e in st.echos && e.spotId == spotId ==> e.createdAt < now
    ensures var o := AddEcho(st, spotId, content, originalContent, echoId, now);
            var listed := EchosForSpot(o.state.echos, spotId);
            |listed| > 0 && listed[0] == o.result.value
  {
    var o := AddEcho(st, spotId, content, originalContent, echoId, now);
    var echo := o.result.value;
    var listed := EchosForSpot(o.state.echos, spotId);
    assert multiset(o.state.echos)[echo] > 0;
    assert echo in multiset(listed);
    var k :| 0 <= k < |listed| && listed[k] == echo;
    assert listed[0].createdAt >= echo.createdAt;
    assert listed[0] in multiset(listed);
  }

  // ---- impact statistics ----

  /** What one completion adds to the total of impact type `t`: the
      `impact_value` of the mission its id resolves to, when that mission
      is of type `t`; nothing when the id resolves to no mission. */
  function CompletionImpact(missions: seq<Mission>, c: MissionCompletion, t: ImpactType): (r: real)
    ensures MissionIndex(missions, c.missionId).None? ==> r == 0.0
    ensures r != 0.0 ==> MissionIndex(missions, c.missionId).Some?
                         && missions[MissionIndex(missions, c.missionId).value].impactType == t
                         && r == missions[MissionIndex(missions, c.missionId).value].impactValue
  {
    match MissionIndex(missions, c.missionId)
    case Some(i) => if missions[i].impactType == t then missions[i].impactValue else 0.0
    case None => 0.0
  }

  /** The total of impact type `t` over a list of completions. */
  function ImpactTotal(completions: seq<MissionCompletion>, missions: seq<Mission>, t: ImpactType): (r: real)
    ensures (forall i :: 0 <= i < |completions| ==> CompletionImpact(missions, completions[i], t) == 0.0) ==> r == 0.0
  {
    if |completions| == 0 then 0.0
    else ImpactTotal(completions[..|completions| - 1], missions, t) + CompletionImpact(missions, completions[|completions| - 1], t)
  }

  /** Totals are additive over concatenated completion lists. */
  lemma {:induction false} ImpactTotalAppend(a: seq<MissionCompletion>, b: seq<MissionCompletion>, missions: seq<Mission>, t: ImpactType)
    ensures ImpactTotal(a + b, missions, t) == ImpactTotal(a, missions, t) + ImpactTotal(b, missions, t)
  {
    if |b| > 0 {
      var n := |b| - 1;
      assert (a + b)[..|a + b| - 1] == a + b[..n];
      assert (a + b)[|a + b| - 1] == b[n];
      ImpactTotalAppend(a, b[..n], missions, t);
      assert ImpactTotal(b, missions, t) == ImpactTotal(b[..n], missions, t) + CompletionImpact(missions, b[n], t);
    } else {
      assert a + b == a;
    }
  }

  /** Completions whose mission id resolves to no mission count for nothing. */
  lemma {:induction false} ImpactTotalUnresolved(completions: seq<MissionCompletion>, missions: seq<Mission>, t: ImpactType)
    requires forall i :: 0 <= i < |completions| ==> MissionIndex(missions, completions[i].missionId).None?
    ensures ImpactTotal(completions, missions, t) == 0.0
  {
    if |completions| > 0 {
      ImpactTotalUnresolved(completions[..|completions| - 1], missions, t);
    }
  }

  /** With non-negative mission impacts every total is non-negative. */
  lemma {:induction false} ImpactTotalNonNegative(completions: seq<MissionCompletion>, missions: seq<Mission>, t: ImpactType)
    requires forall i :: 0 <= i < |missions| ==> missions[i].impactValue >= 0.0
    ensures ImpactTotal(completions, missions, t) >= 0.0
  {
    if |completions| > 0 {
      ImpactTotalNonNegative(completions[..|completions| - 1], missions, t);
    }
  }

  // ---- mission completion ----

  /** The collective missions are addressed by id. */
  ghost predicate DistinctCollectiveIds(cms: seq<CollectiveMission>) {
    forall i, j :: 0 <= i < j < |cms| ==> cms[i].id != cms[j].id
  }

  /** `colMissions.find(cm => cm.impact_type === t && !cm.is_completed)`. */
  function OpenCollectiveIndex(cms: seq<CollectiveMission>, t: ImpactType): (r: Option<nat>)
    ensures r.Some? ==> r.value < |cms| && cms[r.value].impactType == t && !cms[r.value].isCompleted
                        && forall j :: 0 <= j < r.value ==> !(cms[j].impactType == t && !cms[j].isCompleted)
    ensures r.None? <==> forall j :: 0 <= j < |cms| ==> !(cms[j].impactType == t && !cms[j].isCompleted)
  {
    FirstIndex(cms, (cm: CollectiveMission) => cm.impactType == t && !cm.isCompleted)
  }

  /** The contribution step of `completeMission`: the first open collective
      mission of the mission's impact type is found, then updated through
      `updateCollectiveMission(activeCol.id, impact_value)`, that is, by id. */
  function ContributeToOpen(cms: seq<CollectiveMission>, t: ImpactType, value: real): (r: seq<CollectiveMission>)
    ensures OpenCollectiveIndex(cms, t).None? ==> r == cms
    ensures OpenCollectiveIndex(cms, t).Some? ==>
      var i := OpenCollectiveIndex(cms, t).value;
      CollectiveIndex(cms, cms[i].id).Some? && CollectiveIndex(cms, cms[i].id).value <= i &&
      var k := CollectiveIndex(cms, cms[i].id).value;
      r == cms[k := Contribute(cms[k], value, None)]
  {
    match OpenCollectiveIndex(cms, t)
    case None => cms
    case Some(i) =>
      match UpdateCollectiveMission(cms, cms[i].id, value, None)
      case Ok(updated) => updated.0
      case Err(_) => cms
  }

  /** With distinct ids, the contribution goes to the first open collective
      mission of the impact type, in stored order, and to no other; when
      none is open the collective missions are unchanged. */
  lemma ContributionGoesToFirstOpen(cms: seq<CollectiveMission>, t: ImpactType, value: real)
    requires DistinctCollectiveIds(cms)
    ensures OpenCollectiveIndex(cms, t).None? ==> ContributeToOpen(cms, t, value) == cms
    ensures OpenCollectiveIndex(cms, t).Some? ==>
      var i := OpenCollectiveIndex(cms, t).value;
      ContributeToOpen(cms, t, value) == cms[i := Contribute(cms[i], value, None)]
  {
    match OpenCollectiveIndex(cms, t)
    case None =>
    case Some(i) =>
      FirstIndexIs(cms, (cm: CollectiveMission) => cm.id == cms[i].id, i);
      assert CollectiveIndex(cms, cms[i].id) == Some(i);
  }

  /** The weather `completeMission` reads (through `getCurrentWeather`). */
  function CompletionWeather(st: State, now: int, kind: WeatherType, temperature: Temperature): WeatherData {
    CurrentWeather(st.weather, now, kind, temperature)
  }

  /** `completeMission`: on an unknown mission id nothing changes and
      `MissionNotFound` is thrown.  Otherwise the weather is read (and
      cached), one completion record is appended, the reward is added to the
      Guardian's experience with the level recomputed, and the mission's
      impact is contributed to the first open collective mission of its
      type.  There is no guard against completing a mission twice.  The
      clock, the new completion's id and the weather draw are parameters. */
  function CompleteMission(st: State, missionId: string, now: int, completionId: string,
                           kind: WeatherType, temperature: Temperature): (o: Outcome<MissionCompletion>)
    ensures o.result.Err? <==> MissionIndex(st.missions, missionId).None?
    ensures o.result.Err? ==> o == Outcome(st, Err(MissionNotFound))
    ensures o.state.spots == st.spots && o.state.missions == st.missions && o.state.echos == st.echos
    ensures o.result.Ok? ==>
      && o.state.completions == st.completions + [o.result.value]
      && o.result.value.id == completionId
      && o.result.value.userId == CurrentProfile(st).id
      && o.result.value.missionId == missionId
      && o.result.value.completedAt == now
    ensures o.result.Ok? ==>
      var before := CurrentProfile(st);
      && o.state.profile.Some?
      && o.state.profile.value.xp == before.xp + o.result.value.xpEarned
      && LevelMatchesXp(o.state.profile.value)
      && o.state.profile.value.(xp := before.xp, level := before.level) == before
  {
    match MissionIndex(st.missions, missionId)
    case None => Outcome(st, Err(MissionNotFound))
    case Some(i) =>
      var mission := st.missions[i];
      var profile := CurrentProfile(st);
      var weather := CompletionWeather(st, now, kind, temperature);
      var earned := XpReward(mission.xpReward, weather.kind, mission.impactType);
      var completion := MissionCompletion(completionId, profile.id, missionId, now, earned);
      var xp := profile.xp + earned;
      Outcome(
        st.(weather := Some(weather),
            collectives := ContributeToOpen(st.collectives, mission.impactType, mission.impactValue),
            completions := st.completions + [completion],
            profile := Some(profile.(xp := xp, level := Level(xp)))),
        Ok(completion))
  }

  /** The reward recorded is the weather rule applied to the mission that
      the id resolves to, under the weather of the moment (cached if fresh);
      the weather is cached and the contribution made as described. */
  lemma CompleteMissionEffects(st: State, missionId: string, now: int, completionId: string,
                               kind: WeatherType, temperature: Temperature)
    requires MissionIndex(st.missions, missionId).Some?
    ensures var o := CompleteMission(st, missionId, now, completionId, kind, temperature);
            var mission := st.missions[MissionIndex(st.missions, missionId).value];
            var weather := CompletionWeather(st, now, kind, temperature);
            && o.result.value.xpEarned == XpReward(mission.xpReward, weather.kind, mission.impactType)
            && o.state.weather == Some(weather)
            && o.state.collectives == ContributeToOpen(st.collectives, mission.impactType, mission.impactValue)
  {
  }

  /** With a non-negative base reward and a consistent profile, completing a
      mission never lowers the Guardian's experience or level. */
  lemma CompleteMissionNeverLowersLevel(st: State, missionId: string, now: int, completionId: string,
                                        kind: WeatherType, temperature: Temperature)
    requires MissionIndex(st.missions, missionId).Some?
    requires st.missions[MissionIndex(st.missions, missionId).value].xpReward >= 0
    requires CurrentProfile(st).level <= Level(CurrentProfile(st).xp)
    ensures var after := CurrentProfile(CompleteMission(st, missionId, now, completionId, kind, temperature).state);
            after.xp >= CurrentProfile(st).xp && after.level >= CurrentProfile(st).level
  {
    var mission := st.missions[MissionIndex(st.missions, missionId).value];
    var weather := CompletionWeather(st, now, kind, temperature);
    XpRewardBounds(mission.xpReward, weather.kind, mission.impactType);
    var after := CurrentProfile(CompleteMission(st, missionId, now, completionId, kind, temperature).state);
    LevelMonotonic(CurrentProfile(st).xp, after.xp);
  }

  /** A completion adds its mission's impact to that impact type's total
      and nothing to the others. */
  lemma CompleteMissionImpact(st: State, missionId: string, now: int, completionId: string,
                              kind: WeatherType, temperature: Temperature, t: ImpactType)
    requires MissionIndex(st.missions, missionId).Some?
    ensures var o := CompleteMission(st, missionId, now, completionId, kind, temperature);
            var mission := st.missions[MissionIndex(st.missions, missionId).value];
            ImpactTotal(o.state.completions, o.state.missions, t)
              == ImpactTotal(st.completions, st.missions, t) + (if mission.impactType == t then mission.impactValue else 0.0)
  {
    var o := CompleteMission(st, missionId, now, completionId, kind, temperature);
    assert o.state.completions[..|o.state.completions| - 1] == st.completions;
  }

  /** Completing a mission keeps every reached collective goal completed. */
  lemma CompleteMissionKeepsGoalsLatched(st: State, missionId: string, now: int, completionId: string,
                                         kind: WeatherType, temperature: Temperature)
    requires forall j :: 0 <= j < |st.collectives| ==> ReachedIsCompleted(st.collectives[j])
    ensures var o := CompleteMission(st, missionId, now, completionId, kind, temperature);
            forall j :: 0 <= j < |o.state.collectives| ==> ReachedIsCompleted(o.state.collectives[j])
  {
    match MissionIndex(st.missions, missionId)
    case None =>
    case Some(m) =>
      var mission := st.missions[m];
      match OpenCollectiveIndex(st.collectives, mission.impactType)
      case None =>
      case Some(i) =>
        match UpdateCollectiveMission(st.collectives, st.collectives[i].id, mission.impactValue, None)
        case Err(_) =>
        case Ok(u) =>
          var k := CollectiveIndex(st.collectives, st.collectives[i].id).value;
          ContributeKeepsReachedCompleted(st.collectives[k], mission.impactValue, None);
  }

  /** There is no duplicate-completion guard: completing the same mission
      again succeeds and appends a second record. */
  lemma CompleteMissionTwice(st: State, missionId: string, now: int, now': int, id: string, id': string,
                             kind: WeatherType, temperature: Temperature)
    requires MissionIndex(st.missions, missionId).Some?
    ensures var first := CompleteMission(st, missionId, now, id, kind, temperature);
            var second := CompleteMission(first.state, missionId, now', id', kind, temperature);
            && second.result.Ok?
            && second.state.completions == st.completions + [first.result.value, second.result.value]
            && first.result.value.missionId == second.result.value.missionId == missionId
  {
  }
}
