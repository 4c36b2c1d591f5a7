/** The records of the game store (types.ts): spots, missions, collective
    missions, completions, echos, the Guardian's profile and the cached
    weather.  String unions become closed enumerations; ISO 8601 timestamps
    become integers (milliseconds); `impact_value`, `goal_value` and
    `current_value` are reals because the seed data uses fractional values. */
module Types {

  datatype Option<T> = None | Some(value: T) {
    function GetOr(default: T): T {
      match this
      case Some(v) => v
      case None => default
    }
  }

  /** The errors thrown by the store (services/db.ts). */
  datatype Error =
    | SpotNotFound              // 'Spot introuvable'
    | LevelTooLow               // 'Niveau 10 requis pour adopter un sanctuaire'
    | SpotAlreadyOwned          // 'Ce spot a déjà un protecteur'
    | NotAuthorized             // 'Action non autorisée'
    | CollectiveMissionNotFound // 'Collective mission not found'
    | MissionNotFound           // 'ERR_MISSION_NOT_FOUND'

  datatype Result<T> = Ok(value: T) | Err(error: Error)

  datatype SpotType = TreeSpot | WaterSpot | ZoneSpot | PathSpot

  datatype WeatherType = Sunny | Rainy | Cloudy | Storm | Misty

  datatype ImpactType = Carbon | Water | Biodiversity

  datatype MissionKind = Observation | Action | Report

  /** The temperatures `getCurrentWeather` draws: `floor(random * 25) + 5`. */
  type Temperature = t: int | 5 <= t <= 29 witness 5

  datatype WeatherData = WeatherData(kind: WeatherType, temperature: int, advice: string, timestamp: int)

  datatype Spot = Spot(
    id: string,
    territoryId: string,
    name: string,
    description: string,
    kind: SpotType,
    latitude: real,
    longitude: real,
    shortCode: string,
    ownerId: Option<string>,
    ownerName: Option<string>,
    spiritPersonality: Option<string>)

  datatype Mission = Mission(
    id: string,
    spotId: string,
    title: string,
    description: string,
    xpReward: int,
    kind: MissionKind,
    impactType: ImpactType,
    impactValue: real)

  datatype CollectiveMission = CollectiveMission(
    id: string,
    title: string,
    description: string,
    goalValue: real,
    currentValue: real,
    unit: string,
    impactType: ImpactType,
    isCompleted: bool,
    victoryChronicle: Option<string>)

  datatype Echo = Echo(
    id: string,
    spotId: string,
    userId: string,
    username: string,
    content: string,
    originalContent: string,
    createdAt: int)

  datatype Profile = Profile(id: string, username: string, xp: int, level: int, avatarUrl: Option<string>)

  datatype MissionCompletion = MissionCompletion(
    id: string,
    userId: string,
    missionId: string,
    completedAt: int,
    xpEarned: int)

  /** Per-impact-type totals, as returned by `getImpactStats`. */
  datatype ImpactStats = ImpactStats(carbon: real, water: real, biodiversity: real) {
    function Get(t: ImpactType): real {
      match t
      case Carbon => carbon
      case Water => water
      case Biodiversity => biodiversity
    }

    /** `stats[t] += value`. */
    function Add(t: ImpactType, value: real): (r: ImpactStats)
      ensures r.Get(t) == Get(t) + value
      ensures forall u :: u != t ==> r.Get(u) == Get(u)
    {
      match t
      case Carbon => this.(carbon := carbon + value)
      case Water => this.(water := water + value)
      case Biodiversity => this.(biodiversity := biodiversity + value)
    }
  }

  const ZeroStats := ImpactStats(0.0, 0.0, 0.0)

  /** JavaScript truthiness of an optional string field: `undefined` and the
      empty string are both falsy. */
  predicate Truthy(s: Option<string>) {
    s.Some? && s.value != ""
  }
}
