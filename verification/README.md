# Houses, activity log and fight settings: a Dafny model

This project models three sequential parts of the Las Venturas Playground
game server and proves properties of them.

- **House manager** (`houses.dfy`). A registry of house locations. Each
  location is an administrator-created point with its own parking lots. Once
  a house is created on it, it also has an owner (`settings`) and an
  interior. `HouseManager` holds the set of locations. Its methods change
  that set, and the parking lots and house of a location, in place. A
  nearest-location search takes an optional maximum distance. Its loop is
  proved to find the location nearest to the player. Ties go to the lower id.
- **Activity log** (`activity_log.dfy`, `ip_address.dfy`). The two name
  transforms `toMethodName` and `toEventName`, and the listener table they
  build. The decision each event handler makes: whether anything is
  recorded, and which record (death, kill, hit, session insert, session
  update). `ip2long` is modelled on strings: JavaScript's `split('.')`,
  unary `+` on decimal digits, and the base-256 sum. For four octets it is
  proved to lie in [0, 2^32) and to be injective. This is the address format
  of section 3.2 of RFC 791.
- **Fight settings builder** (`fights.dfy`). A class whose fields start at
  fixed defaults. Each setter changes exactly one field. The weapons map is
  updated in place. `Build` takes a snapshot of the fields as an immutable
  settings value.

`wrappers.dfy` holds Option/Result/Outcome. `collections.dfy` lists a set's
elements once each; this is `Array.from` on a JavaScript `Set`.
`geometry.dfy` holds integer positions and squared distances.

`houses/house_manager.js`, the implementation of the manager, is not part
of this model. The manager's behaviour is taken from what its test asserts.
The error values `NotRegistered`, `NotFound` and `AlreadyOccupied`, returned
as values, are this model's choice for the cases the test does not exercise.

At `houses/house_manager.test.js:158-163`, a removed occupied location
still reports that it is not available. `RemoveLocation` therefore takes the
location out of the manager and leaves the location object unchanged.

## Model

| member | source | states |
|---|---|---|
| `Houses.HouseManager.constructor` | javascript/features/houses/house_manager.test.js:13-18 | a new manager holds no locations, so `LocationCount() == 0`, as the test at line 86 expects |
| `Houses.HouseManager.LocationCount` | javascript/features/houses/house_manager.test.js:86-98 | the count is zero exactly when the manager holds no locations |
| `Houses.HouseManager.CreateLocation` | javascript/features/houses/house_manager.test.js:44-53 | a player who has identified gets a fresh, available location with no parking lots at the given position, and the count goes up by exactly 1; a player who has not identified gets `NotRegistered` and nothing changes |
| `Houses.HouseManager.RemoveLocation` | javascript/features/houses/house_manager.test.js:151-166 | a managed location is taken out of the set and the count drops by 1; the location object is unchanged, so a removed house still reports its owner; an unmanaged location gives `NotFound` |
| `Houses.CreateThenRemoveLocation` | javascript/features/houses/house_manager.test.js:82-99 | creating a location and then removing it returns the manager to the same set of locations and the same count |
| `Houses.HouseManager.Locations` | javascript/features/houses/house_manager.test.js:91-92 | lists every managed location exactly once, so the list's length equals `locationCount` |
| `Collections.Enumerate` | javascript/features/houses/house_manager.test.js:91 | `Array.from` of a set: as many entries as the set has elements, each element exactly once |
| `Houses.HouseManager.FindClosestLocation` | javascript/features/houses/house_manager.test.js:55-80 | the result is a managed location nearest to the player, with ties going to the lower id, and it lies within the maximum distance; it is none exactly when every location lies beyond the maximum (always the case for an empty manager) |
| `Houses.ClosestIsUnique` | javascript/features/houses/house_manager.test.js:63-66 | in a valid manager, at most one location is nearest under the tie-break, so the search result is determined |
| `Geometry.SquaredDistance` | javascript/features/houses/house_manager.test.js:66 | the squared distance is zero exactly when the two positions coincide |
| `Geometry.SquaredMagnitude` | javascript/features/activity_log/activity_log.js:75 | the squared magnitude of a vector is zero exactly when the vector is zero |
| `Houses.Location.ParkingLots` | javascript/features/houses/house_manager.test.js:117-123 | lists the location's parking lots, as many as `parkingLotCount`, each once and with distinct ids |
| `Houses.Location.ParkingLotCount` | javascript/features/houses/house_manager.test.js:110-127 | the count is zero exactly when the location has no parking lots |
| `Houses.Location.IsAvailable` | javascript/features/houses/house_manager.test.js:137-163 | a valid location is available exactly when it has no interior, i.e. no house has been created on it |
| `Houses.HouseManager.CreateLocationParkingLot` | javascript/features/houses/house_manager.test.js:110-123 | adds one lot whose positive id is the location's next id, which then moves past it, so the id is not in use and was never handed out before; exactly the given position and rotation; the count goes up by 1 and the house is untouched; an unmanaged location gives `NotFound` |
| `Houses.HouseManager.RemoveLocationParkingLot` | javascript/features/houses/house_manager.test.js:125-127 | removes exactly that lot and the count drops by 1; a lot or location that is not there gives `NotFound` and nothing changes |
| `Houses.CreateThenRemoveParkingLot` | javascript/features/houses/house_manager.test.js:110-127 | creating a parking lot and removing it again leaves the location's parking lots, and their count, as they were |
| `Houses.ParkingLotIdsAreNotReused` | javascript/features/houses/house_manager.test.js:110-127 | creating a lot, removing it and creating another gives two different positive ids |
| `Houses.HouseManager.CreateHouse` | javascript/features/houses/house_manager.test.js:130-146 | on an available location, the owner becomes the player's user id and name and the interior becomes the given id, and the location is no longer available; its parking lots and next parking-lot id are kept; an occupied location gives `AlreadyOccupied` and keeps its first owner |
| `Houses.CreateHouseTwice` | javascript/features/houses/house_manager.test.js:136-146 | of two `createHouse` calls in a row on one available location, the first succeeds and the second gets `AlreadyOccupied`; the first owner and interior remain (the refusal is the model's choice, as for `CreateHouse`) |
| `IpAddress.Ip2Long` | javascript/features/activity_log/activity_log.js:103-110 | a result exists exactly when the address has at least four dot-separated parts and the first four are decimal digits; it is then `((a*256+b)*256+c)*256+d` of those four parts |
| `IpAddress.Ip2LongOfDotted` | javascript/features/activity_log/activity_log.js:103-110 | `ip2long` of the dotted form `a.b.c.d` of any four numbers is their base-256 sum |
| `IpAddress.Ip2LongOctets` | javascript/features/activity_log/activity_log.js:106-109 | for four octets, `ip2long` of the dotted form lies below 2^32, and two addresses give the same number only if they are equal |
| `IpAddress.LongOfOctetsBound` | javascript/features/activity_log/activity_log.js:106-109 | four parts below 256 give a number below 2^32 |
| `IpAddress.OctetsOfLong` | javascript/features/activity_log/activity_log.js:106-109 | the four octets can be read back from the base-256 sum |
| `IpAddress.LongOfOctets` | javascript/features/activity_log/activity_log.js:106-109 | every number below 2^32 is the base-256 sum of its octets, so the encoding hits every 32-bit value |
| `IpAddress.LongInjective` | javascript/features/activity_log/activity_log.js:106-109 | for octets, equal sums mean equal parts, and the converse |
| `IpAddress.Octets` | javascript/features/activity_log/activity_log.js:106-109 | splits a 32-bit number into four values, each below 256 |
| `IpAddress.Split` | javascript/features/activity_log/activity_log.js:104 | `split` always returns at least one piece, and no piece contains the separator |
| `IpAddress.SplitWithoutSeparator` | javascript/features/activity_log/activity_log.js:104 | a string without the separator splits into just itself |
| `IpAddress.SplitAtFirstSeparator` | javascript/features/activity_log/activity_log.js:104 | splitting `x.y`, where `x` has no separator, gives `x` followed by the pieces of `y` |
| `IpAddress.SplitDotted` | javascript/features/activity_log/activity_log.js:104 | a dotted address splits into exactly the decimal strings of its four parts |
| `IpAddress.Coerce` | javascript/features/activity_log/activity_log.js:106-109 | a part gives a number exactly when it consists of decimal digits; anything else stands for `NaN` |
| `IpAddress.Decimal` | javascript/features/activity_log/activity_log.js:106-109 | the decimal form of a number is a non-empty string of digits |
| `IpAddress.DecimalRoundTrip` | javascript/features/activity_log/activity_log.js:106-109 | reading back the decimal digits of `n` gives `n` |
| `ActivityLog.ToMethodName` | javascript/features/activity_log/activity_log.js:21 | the length is kept, only the first character is lower-cased, and the rest is unchanged |
| `ActivityLog.ToEventName` | javascript/features/activity_log/activity_log.js:22 | the result is two characters shorter (empty for shorter names), and each character is the lower-cased character two places further on |
| `ActivityLog.EventNameOfMethodName` | javascript/features/activity_log/activity_log.js:20-22 | an event name and the method name of its handler give the same event name |
| `ActivityLog.MethodNamedInverse` | javascript/features/activity_log/activity_log.js:31 | looking up a handler's own method name finds that handler, and a name that finds a handler is that handler's method name |
| `ActivityLog.RegisterDefined` | javascript/features/activity_log/activity_log.js:24-31 | registering a list of names succeeds exactly when every name has a handler method |
| `ActivityLog.RegisterCoversNames` | javascript/features/activity_log/activity_log.js:24-31 | after a successful registration, every registered name's event name has a listener |
| `ActivityLog.RegisterEntriesComeFromNames` | javascript/features/activity_log/activity_log.js:24-31 | every listener comes from a registered name with that event name and is that name's handler |
| `ActivityLog.RegisteredMethodNames` | javascript/features/activity_log/activity_log.js:24-31 | the three registered names translate to `onPlayerResolvedDeath`, `onPlayerConnect` and `onPlayerLogin` |
| `ActivityLog.RegisteredEventNames` | javascript/features/activity_log/activity_log.js:24-31 | the three registered names translate to `playerresolveddeath`, `playerconnect` and `playerlogin` |
| `ActivityLog.RegisteredHandlers` | javascript/features/activity_log/activity_log.js:24-31 | each of the three registered names resolves to the handler defined under its method name |
| `ActivityLog.WeaponShotEventName` | javascript/features/activity_log/activity_log.js:26 | weapon shots would be delivered under `playerweaponshot` |
| `ActivityLog.RegisteredListeners` | javascript/features/activity_log/activity_log.js:24-31 | registration succeeds and yields exactly three listeners, one per registered event name, each bound to its own handler; there is no listener for weapon shots |
| `ActivityLog.RegisteredEventsReachHandlers` | javascript/features/activity_log/activity_log.js:24-31 | every registered name maps to a handler the class defines, and an event under its event name runs that handler |
| `ActivityLog.ShotsAreNotRecorded` | javascript/features/activity_log/activity_log.js:24-31 | with the registration commented out, a weapon-shot event records nothing |
| `ActivityLog.PlayerResolvedDeath` | javascript/features/activity_log/activity_log.js:36-49 | nothing is recorded exactly when the player is unknown; otherwise a kill when the killer is known and a death when not; each user id is null exactly when that player is unregistered |
| `ActivityLog.PlayerWeaponShot` | javascript/features/activity_log/activity_log.js:53-78 | a hit is recorded exactly when the hit type is 1 or 2 and the shooter is known; the target's user id is present exactly when hit type 1 hit a known registered player, and is then that player's user id; the shooter's user id is present exactly when the shooter is registered, and is then the shooter's user id; the weapon, the shooter's position and the squared magnitude of the shot vector are recorded |
| `ActivityLog.PlayerConnect` | javascript/features/activity_log/activity_log.js:82-91 | nothing is recorded exactly when the player is missing or an NPC; otherwise the session insert carries the player's name and the `ip2long` of their address |
| `ActivityLog.PlayerLogin` | javascript/features/activity_log/activity_log.js:93-99 | nothing is recorded exactly when the player is missing or an NPC; otherwise the session update carries the player's session id and user id |
| `ActivityLog.Dispatch` | javascript/features/activity_log/activity_log.js:30-31 | an event name without a listener records nothing |
| `ActivityLog.UserIdOf` | javascript/features/activity_log/activity_log.js:41 | the recorded user id is present exactly when the player is registered, and is then the player's user id |
| `ActivityLog.ActivityLog.constructor` | javascript/features/activity_log/activity_log.js:14-32 | the `forEach` loop builds exactly the listener table of the registered events, and nothing has been written yet |
| `ActivityLog.ActivityLog.OnEvent` | javascript/features/activity_log/activity_log.js:82-98 | the dispatched record, if any, is appended to what was written; after a session insert, the connecting player holds the session id the recorder returned |
| `Fights.DefaultSettings` | javascript/features/fights/fight_settings_builder.js:11-27 | the defaults are health 100, armour 0, time 12:00, weather 1, no weapons and no recording |
| `Fights.FightSettingsBuilder.constructor` | javascript/features/fights/fight_settings_builder.js:11-27 | a new builder describes exactly the default settings |
| `Fights.FightSettingsBuilder.Build` | javascript/features/fights/fight_settings_builder.js:30-42 | every field of the result equals the builder's current field, with the time as `{hours: timeHours, minutes: timeMinutes}`; the builder is not changed |
| `Fights.BuildTwice` | javascript/features/fights/fight_settings_builder.js:30-42 | two consecutive builds give equal settings |
| `Fights.FightSettingsBuilder.WeaponEntries` | javascript/features/fights/fight_settings_builder.js:49 | the entries are exactly the (weapon, ammo) pairs of the map, each weapon once |
| `Fights.FightSettingsBuilder.AddWeapon` | javascript/features/fights/fight_settings_builder.js:52 | the weapon maps to the new ammo, replacing any earlier ammo; other weapons and every other field are unchanged |
| `Fights.FightSettingsBuilder.RemoveWeapon` | javascript/features/fights/fight_settings_builder.js:55 | only that weapon is removed; removing an absent weapon leaves the map unchanged; every other field is unchanged |
| `Fights.FightSettingsBuilder.SetLocation` | javascript/features/fights/fight_settings_builder.js:45-46 | only the location changes, to the new value |
| `Fights.FightSettingsBuilder.SetHealth` | javascript/features/fights/fight_settings_builder.js:58-59 | only the health changes, to the new value |
| `Fights.FightSettingsBuilder.SetArmour` | javascript/features/fights/fight_settings_builder.js:62-63 | only the armour changes, to the new value |
| `Fights.FightSettingsBuilder.SetTimeHours` | javascript/features/fights/fight_settings_builder.js:67-68 | only the hour of the time changes, to the new value |
| `Fights.FightSettingsBuilder.SetTimeMinutes` | javascript/features/fights/fight_settings_builder.js:70-71 | only the minutes of the time change, to the new value |
| `Fights.FightSettingsBuilder.SetWeather` | javascript/features/fights/fight_settings_builder.js:74-75 | only the weather changes, to the new value |
| `Fights.FightSettingsBuilder.SetTeamDamagePolicy` | javascript/features/fights/fight_settings_builder.js:78-79 | only the team damage policy changes, to the new value |
| `Fights.FightSettingsBuilder.SetVisibilityPolicy` | javascript/features/fights/fight_settings_builder.js:82-83 | only the visibility policy changes, to the new value |
| `Fights.FightSettingsBuilder.SetRecording` | javascript/features/fights/fight_settings_builder.js:86-87 | only the recording flag changes, to the new value |

## Left out

- `houses/house_manager.js` is not part of this model. Any behaviour its test does not assert is a choice of this model: the error values, the order of the checks in `CreateHouse`, and ids from per-manager and per-location counters.
- Persistence and asynchrony are left out: the house database (`MockHouseDatabase`), `await` sequencing, the `Economy` dependency and the entrance controller. The operations are sequential methods. Persistence failures and how they are reported are not modelled.
- Serialising concurrent requests on the same location is left out. Calls are sequential, so a second `CreateHouse` on an occupied location sees the first owner.
- `loadHousesFromDatabase` is left out, and so are the facts that depend on the loaded fixture data: non-zero counts and a nearest location exactly 50 units away. The fixture data is not part of this model.
- `dispose` of the manager is left out, and so is a standalone `removeHouse`. The test calls `dispose` after every test (`house_manager.test.js:12`) but asserts nothing about it, and no test exercises `removeHouse`.
- Houses.HouseManager.FindClosestLocation: positions have integer coordinates and the maximum distance is a natural number. Distances are compared as squares instead of with `sqrt`, so floating-point distances are not modelled.
- Houses.HouseManager.FindClosestLocation: the lower-id tie-break is this model's own deterministic rule. The source leaves ties to iteration order.
- `ActivityRecorder` database writes are returned as `Write` values and kept in `written`. The recorder's new session id is a parameter of `OnEvent`.
- `MurmurHash3.generateHash` is left out: the session insert carries the raw serial (`gpci`).
- `ScopedCallbacks` listener mechanics are left out. The listener table is a map with one handler per event name.
- The player lookup (`server.playerManager.getById`) is an input map from id to a snapshot of the player. `onPlayerConnect` writes `player.sessionId` in place; here that is returned as an updated map, so aliasing of player objects is not modelled.
- ActivityLog.PlayerWeaponShot: records the squared magnitude of the shot vector, not `Vector.magnitude`. Floating point is not modelled.
- IpAddress.Ip2Long: JavaScript's unary `+` also accepts surrounding whitespace, signs, hexadecimal, exponents and fractions. The model treats all of these as `NaN` (`None`) and accepts only plain decimal digits; an empty part reads as 0, as in JavaScript. Loss of precision above 2^53 is not modelled.
- ActivityLog.ToMethodName: `toLowerCase` is modelled for ASCII letters only. Unicode case mapping is left out.
- ActivityLog.ToEventName: `toLowerCase` is modelled for ASCII letters only. Unicode case mapping is left out.
- `FightLocation.getById`, the `FightSettings` constructor and its policy constants are not part of this model. A location is a value carrying its id, and only the default policies are named.
- Fights.FightSettingsBuilder.WeaponEntries: the source's `Map.entries()` yields the weapons in insertion order, and re-adding a weapon keeps its place. The model keeps the weapons in a `map`, so the entries come out in no particular order. That order is not modelled.
- Houses.HouseManager.CreateLocationParkingLot: the source also receives the requesting player (`house_manager.test.js:112`). How the manager uses that player is in `house_manager.js`, which is not part of this model, so the argument is dropped.
- Houses.HouseManager.CreateLocationParkingLot: a rotation is a JavaScript number (`house_manager.test.js:114`); here it is an `int`, so fractional rotations are not modelled.
- Fights.FightSettingsBuilder.Build: the settings hold a copy of the weapons map. The source passes the same `Map` by reference, so later `addWeapon`/`removeWeapon` calls may show through an earlier result, if the `FightSettings` constructor keeps the `Map` it is given (that constructor is not part of this model); that aliasing is not modelled.
- `houses/houses.js` (feature wiring) and `server.js` (global singletons) hold no logic to model.
