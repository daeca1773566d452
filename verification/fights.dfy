/** The builder for fight settings: a mutable set of fields with defaults,
    changed one at a time and turned into an immutable settings value by
    `Build`. */
module Fights {
  import Collections

  /** A place where fights are held, known by its id. */
  datatype FightLocation = FightLocation(id: int)

  /** The location with id 1, the LV FightClub. */
  const LV_FIGHT_CLUB := FightLocation(1)

  /** How damage between members of the same team is treated. Only the
      default policy is named here. */
  datatype TeamDamagePolicy = TeamDamagePolicyDefault | OtherTeamDamagePolicy(code: int)

  /** How participants see each other. Only the visible policy is named here. */
  datatype VisibilityPolicy = VisibilityPolicyVisible | OtherVisibilityPolicy(code: int)

  /** The time of day during a fight. */
  datatype FightTime = FightTime(hours: int, minutes: int)

  /** The immutable settings of a fight. `weapons` maps each weapon to its
      rounds of ammunition. */
  datatype FightSettings = FightSettings(
    location: FightLocation,
    weapons: map<int, int>,
    health: int,
    armour: int,
    time: FightTime,
    weather: int,
    teamDamagePolicy: TeamDamagePolicy,
    visibilityPolicy: VisibilityPolicy,
    recording: bool)

  /** The settings a new builder starts from: the LV FightClub, no weapons,
      full health, no armour, noon, sunny weather, default team damage,
      visible players and no recording. */
  function DefaultSettings(): (s: FightSettings)
    ensures s.health == 100 && s.armour == 0 && s.time == FightTime(12, 0)
    ensures s.weather == 1 && !s.recording && s.weapons == map[]
  {
    FightSettings(LV_FIGHT_CLUB, map[], 100, 0, FightTime(12, 0), 1,
                  TeamDamagePolicyDefault, VisibilityPolicyVisible, false)
  }

  class FightSettingsBuilder {
    var location: FightLocation
    var weapons: map<int, int>
    var health: int
    var armour: int
    var timeHours: int
    var timeMinutes: int
    var weather: int
    var teamDamagePolicy: TeamDamagePolicy
    var visibilityPolicy: VisibilityPolicy
    var recording: bool

    /** The settings the builder currently describes. */
    ghost function Current(): FightSettings
      reads this
    {
      FightSettings(location, weapons, health, armour, FightTime(timeHours, timeMinutes), weather,
                    teamDamagePolicy, visibilityPolicy, recording)
    }

    /** A builder holding the default settings. */
    constructor ()
      ensures Current() == DefaultSettings()
      ensures health == 100 && armour == 0 && timeHours == 12 && timeMinutes == 0
      ensures weather == 1 && !recording && weapons == map[]
    {
      location := LV_FIGHT_CLUB;
      weapons := map[];
      health := 100;
      armour := 0;
      timeHours := 12;
      timeMinutes := 0;
      weather := 1;
      teamDamagePolicy := TeamDamagePolicyDefault;
      visibilityPolicy := VisibilityPolicyVisible;
      recording := false;
    }

    /** A settings value holding the builder's current fields, the time as
        hours and minutes. The builder is left as it is. */
    method Build() returns (settings: FightSettings)
      ensures settings.location == location && settings.weapons == weapons
      ensures settings.health == health && settings.armour == armour
      ensures settings.time.hours == timeHours && settings.time.minutes == timeMinutes
      ensures settings.weather == weather && settings.recording == recording
      ensures settings.teamDamagePolicy == teamDamagePolicy && settings.visibilityPolicy == visibilityPolicy
    {
      settings := FightSettings(location, weapons, health, armour, FightTime(timeHours, timeMinutes), weather,
                                teamDamagePolicy, visibilityPolicy, recording);
    }

    /** The weapons and their ammunition, each weapon once. */
    method WeaponEntries() returns (entries: seq<(int, int)>)
      ensures |entries| == |weapons|
      ensures forall weapon, ammo :: (weapon, ammo) in entries <==> weapon in weapons && weapons[weapon] == ammo
    {
      var keys := Collections.Enumerate(weapons.Keys);
      entries := [];
      for k := 0 to |keys|
        invariant |entries| == k
        invariant forall i :: 0 <= i < k ==> entries[i] == (keys[i], weapons[keys[i]])
      {
        entries := entries + [(keys[k], weapons[keys[k]])];
      }
      forall weapon | weapon in weapons
        ensures (weapon, weapons[weapon]) in entries
      {
        var i :| 0 <= i < |keys| && keys[i] == weapon;
        assert entries[i] == (weapon, weapons[weapon]);
      }
    }

    /** Gives the fight `weapon` with `ammo` rounds, replacing any earlier
        ammunition for it. */
    method AddWeapon(weapon: int, ammo: int)
      modifies this`weapons
      ensures weapons == old(weapons)[weapon := ammo]
      ensures Current() == old(Current()).(weapons := weapons)
    {
      weapons := weapons[weapon := ammo];
    }

    /** Takes `weapon` out of the fight; nothing changes when it was not in. */
    method RemoveWeapon(weapon: int)
      modifies this`weapons
      ensures weapons == old(weapons) - {weapon}
      ensures weapon !in old(weapons) ==> weapons == old(weapons)
      ensures Current() == old(Current()).(weapons := weapons)
    {
      weapons := weapons - {weapon};
    }

    method SetLocation(value: FightLocation)
      modifies this`location
      ensures Current() == old(Current()).(location := value)
    {
      location := value;
    }

    method SetHealth(value: int)
      modifies this`health
      ensures Current() == old(Current()).(health := value)
    {
      health := value;
    }

    method SetArmour(value: int)
      modifies this`armour
      ensures Current() == old(Current()).(armour := value)
    {
      armour := value;
    }

    method SetTimeHours(value: int)
      modifies this`timeHours
      ensures Current() == old(Current()).(time := FightTime(value, timeMinutes))
    {
      timeHours := value;
    }

    method SetTimeMinutes(value: int)
      modifies this`timeMinutes
      ensures Current() == old(Current()).(time := FightTime(timeHours, value))
    {
      timeMinutes := value;
    }

    method SetWeather(value: int)
      modifies this`weather
      ensures Current() == old(Current()).(weather := value)
    {
      weather := value;
    }

    method SetTeamDamagePolicy(value: TeamDamagePolicy)
      modifies this`teamDamagePolicy
      ensures Current() == old(Current()).(teamDamagePolicy := value)
    {
      teamDamagePolicy := value;
    }

    method SetVisibilityPolicy(value: VisibilityPolicy)
      modifies this`visibilityPolicy
      ensures Current() == old(Current()).(visibilityPolicy := value)
    {
      visibilityPolicy := value;
    }

    method SetRecording(value: bool)
      modifies this`recording
      ensures Current() == old(Current()).(recording := value)
    {
      recording := value;
    }
  }

  /** Building twice in a row gives equal settings: building changes nothing. */
  method BuildTwice(builder: FightSettingsBuilder) returns (first: FightSettings, second: FightSettings)
    ensures first == second
  {
    first := builder.Build();
    second := builder.Build();
  }
}
