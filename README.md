# Territoire game store in Dafny

A model of `DBService`, the in-memory game store of the Territoire nature-exploration companion
(services/db.ts). Guardians complete missions bound to spots. Each completion earns XP, scaled by a
weather rule, and raises the Guardian's level. It also feeds the first open collective
(territory-wide) goal of the mission's impact type. Level-10 Guardians can adopt a spot and then set
its spirit's personality. Echos are messages left at a spot and are listed newest first. Impact
statistics sum mission impacts per type over all completions.

Files, one module each:

- `types.dfy` (`Types`): the records of types.ts. `ImpactType`, `WeatherType`, `SpotType` and the
  mission kind are closed enumerations. The thrown errors are an `Error` datatype inside a `Result`.
  ISO 8601 timestamps are integers (milliseconds). XP is `int`. `impact_value`, `goal_value` and
  `current_value` are `real`, because the seed data uses 2.5. JavaScript truthiness of an optional
  string (`if (chronicle)`, `if (owner_id)`) is `Truthy`: absent and `""` are both false.
- `rules.dfy` (`Rules`): level from XP, the weather/impact XP rule with `Math.round`, and the
  one-hour weather cache.
- `lists.dfy` (`Lists`): `findIndex`, `filter`, and the stable newest-first sort of echos.
- `collective.dfy` (`Collective`): `updateCollectiveMission` on one record and on the list.
- `engine.dfy` (`Engine`): the store's contents as a `State` value. Adopting a spot, setting a
  spirit's personality, adding an echo and completing a mission are functions from a state to the
  new state and the result or error. The reads are functions of the collections they read.
- `store.dfy` (`Store`): class `DBService`. Its fields are the collections the source keeps under
  its storage keys. Its methods update records in place and write the collection back. Each method
  is proved against a pure counterpart:
  - `AdoptSpot`, `UpdateSpiritPersonality`, `AddEcho` and `CompleteMission` produce exactly the
    state and result of the `Engine` function of the same name;
  - `UpdateCollectiveMission` produces the list and record of `Collective.UpdateCollectiveMission`;
  - `GetCurrentWeather` returns `Rules.CurrentWeather` of the cache and stores it;
  - `GetImpactStats` returns `Engine.ImpactTotal` for each impact type;
  - `SetWeather` only stores the reading it is given and has no counterpart.

The clock (`now`), the random ids and the random weather draw (type and temperature) are
parameters.

Two behaviours of the code are worth noting:

- `updateCollectiveMission` still adds the value to a goal that is already completed
  (`Collective.ContributionExample`). Only `completeMission` skips completed goals, because it
  looks for an open one.
- The only XP multiplier is the weather rule.

## Model

| member | source | states |
|---|---|---|
| `Rules.Level` | services/db.ts:220 | the level is the unique `l` with `(l-1)*500 <= xp < l*500`, i.e. `floor(xp/500)+1`, negative XP included |
| `Rules.LevelMonotonic` | services/db.ts:219-220 | more XP never gives a lower level |
| `Rules.LevelExamples` | services/db.ts:220 | 0 and 499 XP give level 1, 500 and 999 give level 2, 1000 gives level 3 |
| `Rules.JsRound` | services/db.ts:208 | `Math.round` returns the integer within half of its argument, halves rounded up |
| `Rules.RoundThreeHalves` | services/db.ts:208 | `Math.round(r*1.5)` equals `(3r+1)/2` in floor division, for every integer `r` |
| `Rules.XpRewardRules` | services/db.ts:205-208 | rainy+water and sunny+carbon give twice the reward; cloudy+biodiversity gives `round(1.5*reward)`; every other pairing gives the base reward |
| `Rules.XpRewardBounds` | services/db.ts:205-208 | for a non-negative base, the reward is at least the base and at most twice it |
| `Rules.XpRewardExamples` | services/db.ts:205-208 | 150 XP on a cloudy biodiversity mission gives 225; 151 gives 227 (rounds up); 200 on a rainy water mission gives 400, on a sunny one 200 |
| `Rules.XpReward` | services/db.ts:205-208 | with no bonus pairing the reward is the base; otherwise it is twice the base or `(3*base+1)/2` |
| `Rules.IsFresh` | services/db.ts:60 | a reading taken at `timestamp` is fresh exactly until one hour (3,600,000 ms) later |
| `Rules.CurrentWeather` | services/db.ts:56-75 | the weather returned is always fresh at `now`; it is either the cached reading or exactly the new reading taken now with the drawn type, temperature and the fixed advice |
| `Rules.WeatherReusedForOneHour` | services/db.ts:56-75 | with no cache a new reading is taken; a cached reading is reused while it is younger than 3,600,000 ms (a future-dated one included) and replaced from that age on |
| `Lists.FirstIndex` | services/db.ts:89 | `findIndex` returns the first index whose element satisfies the predicate, or nothing when no element does |
| `Lists.Filter` | services/db.ts:147 | `filter` keeps exactly the satisfying elements, with their multiplicities |
| `Lists.FilterAppend` | services/db.ts:147 | filtering keeps stored order: it distributes over concatenation |
| `Lists.InsertNewest` | services/db.ts:152 | one insertion step of the sort adds exactly one element and loses none |
| `Lists.InsertNewestSorted` | services/db.ts:152 | inserting into a newest-first list keeps it newest-first |
| `Lists.InsertNewestAtTime` | services/db.ts:152 | the inserted echo goes before the echos of its own timestamp, and no other echos of one timestamp change order |
| `Lists.SortNewestFirst` | services/db.ts:152 | the sort is a permutation of its input |
| `Lists.SortNewestFirstCorrect` | services/db.ts:152 | the sort orders by `created_at` descending and is stable: echos with equal timestamps keep their stored order |
| `Collective.Contribute` | services/db.ts:124-128 | adds the value; `is_completed` becomes true when the total reaches the goal and is never reset; the chronicle is written only with a truthy chronicle at or above the goal; no other field changes |
| `Collective.CollectiveIndex` | services/db.ts:122 | finds the first collective mission with the id, or none when no record has it |
| `Collective.UpdateCollectiveMission` | services/db.ts:120-133 | fails with not-found exactly when no record has the id; otherwise only the first record with that id is updated, and the updated record is returned |
| `Collective.ContributeKeepsReachedCompleted` | services/db.ts:125-126 | "goal reached implies completed" is preserved by every contribution |
| `Collective.ContributeAllEffect` | services/db.ts:120-133 | after any sequence of contributions the total is the start plus their sum; the goal is completed exactly when it already was or the running total reached the goal at some point; identity, goal and chronicle are unchanged |
| `Collective.ContributeAllMonotonic` | services/db.ts:124 | with non-negative contributions the total never decreases |
| `Collective.AttachChronicle` | views/Ritual.tsx:25-29 | at or above the goal, a contribution of 0 with a non-empty chronicle leaves the total alone, marks the goal completed and writes the chronicle |
| `Collective.ChronicleNeedsGoal` | services/db.ts:125-128 | below the goal, neither the chronicle nor the completion flag changes |
| `Collective.ContributionExample` | services/db.ts:124-126 | goal 1000 at 650: +400 gives 1050 and completes the goal; a further +50 gives 1100 |
| `Engine.CurrentProfile` | services/db.ts:172-178 | the stored profile when there is one; otherwise the default Guardian `u1`, `Gardien_Alpha`, with 0 XP at level 1 |
| `Engine.DefaultProfileIsConsistent` | services/db.ts:172-178 | the default Guardian's level matches its XP, and the default Guardian cannot adopt a spot |
| `Engine.SpotIndex` | services/db.ts:89 | finds the first spot with the id, or none |
| `Engine.GetSpot` | services/db.ts:140-143 | returns the first spot whose id or short code is the key, or nothing when no spot matches |
| `Engine.RecommendedPath` | services/db.ts:135-138 | returns the first `min(3, n)` spots, in stored order |
| `Engine.AdoptSpot` | services/db.ts:86-101 | fails in this order: unknown spot, then level below 10, then a truthy owner; a failure changes nothing; it succeeds exactly when none of the three guards fires, and success sets exactly the owner id, owner name and the fixed personality on that spot, and leaves every other spot and collection unchanged |
| `Engine.UpdateSpiritPersonality` | services/db.ts:103-114 | fails on an unknown spot, and when the owner is not the current Guardian (an unowned spot included); it succeeds exactly when the spot exists and its owner is the current Guardian, and then changes only that spot's personality |
| `Engine.AdoptThenOwnerMayEdit` | services/db.ts:95-111 | after a successful adoption, the adopter may set the spot's personality |
| `Engine.AdoptTwiceFails` | services/db.ts:93-95 | adopting a spot again fails with already-owned, when the adopter's id is non-empty |
| `Engine.MissionIndex` | services/db.ts:197-198 | finds the first mission with the id, or none |
| `Engine.MissionsForSpot` | services/db.ts:145-148 | returns exactly the spot's missions, with their multiplicities |
| `Engine.SpotEchos` | services/db.ts:150-152 | keeps exactly the spot's echos |
| `Engine.EchosForSpot` | services/db.ts:150-153 | returns exactly the spot's echos, newest first; echos with the same timestamp keep their stored order |
| `Engine.AddEcho` | services/db.ts:155-170 | appends exactly one echo carrying the given id, spot, content and original content, signed with the current Guardian's id and name and dated now; nothing else changes |
| `Engine.AddEchoListedFirst` | services/db.ts:150-170 | an echo newer than every other echo of its spot is listed first |
| `Engine.CompletionImpact` | services/db.ts:188-190 | a completion whose mission id resolves to no mission adds nothing; a non-zero contribution is the `impact_value` of the first mission with that id, which is of the counted type |
| `Engine.ImpactTotal` | services/db.ts:188-190 | when no completion contributes to the type, its total is 0 |
| `Engine.ImpactTotalAppend` | services/db.ts:184-193 | per-type impact totals add up over concatenated completion lists |
| `Engine.ImpactTotalUnresolved` | services/db.ts:188-190 | completions whose mission id resolves to no mission add nothing |
| `Engine.ImpactTotalNonNegative` | services/db.ts:184-193 | with non-negative mission impacts, every total is non-negative |
| `Engine.OpenCollectiveIndex` | services/db.ts:223 | finds the first collective mission of the impact type that is not completed, or none |
| `Engine.ContributeToOpen` | services/db.ts:222-226 | with no open collective mission of the type nothing changes; otherwise the record updated is the first one carrying the id of the first open mission (that one or an earlier one with the same id), and it gets exactly the contribution `updateCollectiveMission` makes |
| `Engine.ContributionGoesToFirstOpen` | services/db.ts:222-226 | with distinct collective ids, only the first open collective mission of the type gets the mission's impact value; when none is open, nothing changes |
| `Engine.CompleteMission` | services/db.ts:195-231 | an unknown id throws mission-not-found and changes nothing; success appends exactly one record with the Guardian's id, the mission id and the time, leaves prior records alone, adds the earned XP to the profile, and sets the level from the new XP whatever it was before; spots, missions and echos are unchanged |
| `Engine.CompleteMissionEffects` | services/db.ts:203-226 | the XP earned is the weather rule applied to the found mission under the weather of the moment; that weather is cached; the collective step is the contribution above |
| `Engine.CompleteMissionNeverLowersLevel` | services/db.ts:219-220 | with a non-negative base reward and a stored level no higher than the one its XP gives (a stale level included), XP and level never decrease |
| `Engine.CompleteMissionImpact` | services/db.ts:210-218 | a completion adds its mission's impact value to the total of that mission's type and nothing to the other types |
| `Engine.CompleteMissionKeepsGoalsLatched` | services/db.ts:222-226 | every collective goal that is reached stays marked completed |
| `Engine.CompleteMissionTwice` | services/db.ts:195-231 | there is no duplicate guard: completing the same mission twice succeeds twice and appends two records |
| `Store.DBService.constructor` | services/db.ts:6-9 | the store starts with the given contents |
| `Store.DBService.GetProfile` | services/db.ts:172-178 | returns the stored profile, or the default Guardian when none is stored |
| `Store.DBService.GetCurrentWeather` | services/db.ts:56-75 | returns the fresh cached reading or a new one; the cache then holds the returned reading |
| `Store.DBService.SetWeather` | services/db.ts:77-79 | the cache holds the given reading |
| `Store.DBService.AdoptSpot` | services/db.ts:86-101 | the in-place update leaves the store in the state `Engine.AdoptSpot` gives, and returns its result |
| `Store.DBService.UpdateSpiritPersonality` | services/db.ts:103-114 | the in-place update leaves the store in the state `Engine.UpdateSpiritPersonality` gives |
| `Store.DBService.UpdateCollectiveMission` | services/db.ts:120-133 | the in-place update gives the list and the record of `Collective.UpdateCollectiveMission`; on not-found nothing changes |
| `Store.DBService.AddEcho` | services/db.ts:155-170 | the push gives the state and the echo of `Engine.AddEcho` |
| `Store.DBService.CompleteMission` | services/db.ts:195-231 | the sequence of weather read, push, profile update and collective update gives the state and result of `Engine.CompleteMission` |
| `Store.DBService.GetImpactStats` | services/db.ts:184-193 | the single accumulating pass returns, for each impact type, the sum of impact values over completions that resolve to a mission of that type (all zeros for no completions) |

## Left out

- Engine.ContributionGoesToFirstOpen: proved only when collective mission ids are distinct. The
  source finds the open goal and then updates it by id, so with a duplicated id the first record
  with that id receives the value. `Engine.ContributeToOpen` models that as written.
- Collective.Contribute, Engine.ImpactTotal: values are exact reals. IEEE double rounding of the
  sum and of the `>=` goal test is not modelled: in JavaScript 0.7 + 0.1 is below 0.8, so a goal of
  0.8 reached by those contributions stays open in the source and completes here.
- Rules.XpRewardRules: `xp_reward` is an integer here. A fractional reward would make the doubled
  rewards fractional in the source.
- Storage plumbing: `localStorage`, JSON serialisation, `delay` and `async`/`await`. The store is
  in-memory state with given initial contents. The seeding in `seedInitialData` is not modelled.
- Randomness and the clock: the weather type and temperature drawn in `getCurrentWeather`, the ids
  from `Math.random`, and `new Date()` are parameters. `completeMission` uses one `now` for the
  weather check and for `completed_at`.
- `getBadges`: it returns a constant catalog and has no unlock logic.
- `getSpots`, `getCollectiveMissions` and `getCompletions`: plain reads, which are the class's fields.
- The 50 XP scan bonus in views/Scan.tsx adds XP without recomputing the level. It is outside the
  store, so a stored profile's level can be stale. `Engine.CompleteMission` restores it.
- Feed merging and resonance, swarms, territory, scanned species, artifacts and chronicles are
  called by views but are not in services/db.ts. They are not part of this model.
- Stability thresholds, the radar projection, spot connectivity and night/symbiosis bonuses have no
  store code. The generative-text, ecology, audio and backend services are foreign calls.
- Concurrency: the source's read-modify-write races between concurrent calls are not modelled.
  Every operation is atomic here.
