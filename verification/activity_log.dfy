/** The activity log: it listens to in-game events and decides, per event,
    which record to hand to the activity recorder. The recorder, the player
    lookup and the hashing of serials are collaborators: the players are an
    input map and the records are returned as values. */
module ActivityLog {
  import opened Wrappers
  import opened Geometry
  import IpAddress

  // ----- Names of events and handlers -----

  /** `toLowerCase` on one character, for ASCII letters. */
  function ToLowerChar(c: char): char {
    if 'A' <= c <= 'Z' then (c as int + 32) as char else c
  }

  /** `toLowerCase` on a string, character by character. */
  function ToLower(s: string): string {
    seq(|s|, i requires 0 <= i < |s| => ToLowerChar(s[i]))
  }

  /** `toMethodName`: lower-cases the first character and keeps the rest,
      so `OnPlayerConnect` becomes `onPlayerConnect`. */
  function ToMethodName(name: string): (r: string)
    ensures |r| == |name|
    ensures |name| > 0 ==> r[0] == ToLowerChar(name[0]) && r[1..] == name[1..]
  {
    if name == [] then [] else [ToLowerChar(name[0])] + name[1..]
  }

  /** `toEventName`: drops the leading two characters (`On`) and lower-cases
      the rest, so `OnPlayerConnect` becomes `playerconnect`. */
  function ToEventName(name: string): (r: string)
    ensures |r| == if |name| < 2 then 0 else |name| - 2
    ensures forall i :: 0 <= i < |r| ==> r[i] == ToLowerChar(name[i + 2])
  {
    if |name| < 2 then [] else ToLower(name[2..])
  }

  /** The event name does not depend on the case of the first character, so
      an event and its handler's method name give the same event name. */
  lemma EventNameOfMethodName(name: string)
    ensures ToEventName(ToMethodName(name)) == ToEventName(name)
  {
    if |name| >= 2 {
      assert ToMethodName(name)[2..] == name[2..];
    }
  }

  /** The handler methods of the activity log. */
  datatype Handler = OnPlayerResolvedDeath | OnPlayerWeaponShot | OnPlayerConnect | OnPlayerLogin

  /** The name under which the class defines `handler`. */
  function HandlerMethodName(handler: Handler): string {
    match handler
    case OnPlayerResolvedDeath => "onPlayerResolvedDeath"
    case OnPlayerWeaponShot => "onPlayerWeaponShot"
    case OnPlayerConnect => "onPlayerConnect"
    case OnPlayerLogin => "onPlayerLogin"
  }

  /** The handler the class defines under `name`: `this.__proto__[name]`. */
  function MethodNamed(name: string): Option<Handler> {
    if name == "onPlayerResolvedDeath" then Some(OnPlayerResolvedDeath)
    else if name == "onPlayerWeaponShot" then Some(OnPlayerWeaponShot)
    else if name == "onPlayerConnect" then Some(OnPlayerConnect)
    else if name == "onPlayerLogin" then Some(OnPlayerLogin)
    else None
  }

  /** Looking a method up by name finds the handler defined under that name,
      and a name under which no handler is defined finds none. */
  lemma MethodNamedInverse(name: string, handler: Handler)
    ensures MethodNamed(HandlerMethodName(handler)) == Some(handler)
    ensures MethodNamed(name).Some? ==> HandlerMethodName(MethodNamed(name).value) == name
  {
  }

  /** The events the activity log listens to; weapon shots are not among them. */
  const REGISTERED_EVENTS: seq<string> := ["OnPlayerResolvedDeath", "OnPlayerConnect", "OnPlayerLogin"]

  /** The handler bound for the event `name`: the method named by
      `toMethodName(name)`. */
  function Resolve(name: string): Option<Handler> {
    MethodNamed(ToMethodName(name))
  }

  /** The listener table built by registering `names` in order, each under its
      event name with the handler `resolve` finds for it. `None` when a name
      has no handler, where binding `undefined` throws. */
  function Register(names: seq<string>, resolve: string -> Option<Handler>): Option<map<string, Handler>> {
    if names == [] then Some(map[])
    else
      var name := names[|names| - 1];
      var table := Register(names[..|names| - 1], resolve);
      var handler := resolve(name);
      if table.None? || handler.None? then None
      else Some(table.value[ToEventName(name) := handler.value])
  }

  /** The activity log's listener table for `names`. */
  function Listeners(names: seq<string>): Option<map<string, Handler>> {
    Register(names, Resolve)
  }

  /** Registration succeeds exactly when every name has a handler. */
  lemma {:induction false} RegisterDefined(names: seq<string>, resolve: string -> Option<Handler>)
    ensures Register(names, resolve).Some? <==> forall i :: 0 <= i < |names| ==> resolve(names[i]).Some?
  {
    if names != [] {
      var prefix := names[..|names| - 1];
      RegisterDefined(prefix, resolve);
      assert forall i :: 0 <= i < |prefix| ==> names[i] == prefix[i];
    }
  }

  /** The table of a successful registration holds the event name of every
      registered name. */
  lemma {:induction false} RegisterCoversNames(names: seq<string>, resolve: string -> Option<Handler>)
    requires Register(names, resolve).Some?
    ensures forall i :: 0 <= i < |names| ==> ToEventName(names[i]) in Register(names, resolve).value
  {
    if names != [] {
      var prefix := names[..|names| - 1];
      RegisterCoversNames(prefix, resolve);
      assert forall i :: 0 <= i < |prefix| ==> names[i] == prefix[i];
    }
  }

  /** Every entry of the table of a successful registration comes from one of
      the registered names and is bound to that name's handler. */
  lemma {:induction false} RegisterEntriesComeFromNames(names: seq<string>, resolve: string -> Option<Handler>, eventName: string)
    requires Register(names, resolve).Some? && eventName in Register(names, resolve).value
    ensures exists i :: (0 <= i < |names| && ToEventName(names[i]) == eventName
                         && resolve(names[i]) == Some(Register(names, resolve).value[eventName]))
  {
    var last := |names| - 1;
    var prefix := names[..last];
    if eventName != ToEventName(names[last]) {
      RegisterEntriesComeFromNames(prefix, resolve, eventName);
      var i :| 0 <= i < |prefix| && ToEventName(prefix[i]) == eventName
        && resolve(prefix[i]) == Some(Register(prefix, resolve).value[eventName]);
      assert names[i] == prefix[i];
    }
  }

  lemma ResolvedDeathMethodName()
    ensures ToMethodName("OnPlayerResolvedDeath") == "onPlayerResolvedDeath"
  {
    assert ToLowerChar('O') == 'o';
    assert ToMethodName("OnPlayerResolvedDeath") == ['o'] + "nPlayerResolvedDeath";
    assert ['o'] + "nPlayerResolvedDeath" == "onPlayerResolvedDeath";
  }

  lemma ConnectMethodName()
    ensures ToMethodName("OnPlayerConnect") == "onPlayerConnect"
  {
    assert ToLowerChar('O') == 'o';
    assert ToMethodName("OnPlayerConnect") == ['o'] + "nPlayerConnect";
    assert ['o'] + "nPlayerConnect" == "onPlayerConnect";
  }

  lemma LoginMethodName()
    ensures ToMethodName("OnPlayerLogin") == "onPlayerLogin"
  {
    assert ToLowerChar('O') == 'o';
    assert ToMethodName("OnPlayerLogin") == ['o'] + "nPlayerLogin";
    assert ['o'] + "nPlayerLogin" == "onPlayerLogin";
  }

  /** The handler method names of the registered events. */
  lemma RegisteredMethodNames()
    ensures ToMethodName("OnPlayerResolvedDeath") == "onPlayerResolvedDeath"
    ensures ToMethodName("OnPlayerConnect") == "onPlayerConnect"
    ensures ToMethodName("OnPlayerLogin") == "onPlayerLogin"
  {
    ResolvedDeathMethodName();
    ConnectMethodName();
    LoginMethodName();
  }

  lemma ResolvedDeathEventName()
    ensures ToEventName("OnPlayerResolvedDeath") == "playerresolveddeath"
  {
    assert "OnPlayerResolvedDeath"[2..] == "PlayerResolvedDeath";
  }

  lemma ConnectEventName()
    ensures ToEventName("OnPlayerConnect") == "playerconnect"
  {
    assert "OnPlayerConnect"[2..] == "PlayerConnect";
  }

  lemma LoginEventName()
    ensures ToEventName("OnPlayerLogin") == "playerlogin"
  {
    assert "OnPlayerLogin"[2..] == "PlayerLogin";
  }

  /** The event names of the registered events. */
  lemma RegisteredEventNames()
    ensures ToEventName("OnPlayerResolvedDeath") == "playerresolveddeath"
    ensures ToEventName("OnPlayerConnect") == "playerconnect"
    ensures ToEventName("OnPlayerLogin") == "playerlogin"
  {
    ResolvedDeathEventName();
    ConnectEventName();
    LoginEventName();
  }

  /** Each registered event resolves to the handler of the same name. */
  lemma RegisteredHandlers()
    ensures Resolve("OnPlayerResolvedDeath") == Some(OnPlayerResolvedDeath)
    ensures Resolve("OnPlayerConnect") == Some(OnPlayerConnect)
    ensures Resolve("OnPlayerLogin") == Some(OnPlayerLogin)
  {
    RegisteredMethodNames();
  }

  /** The registered events resolve to their handlers under their lower-case
      event names; weapon shots have no listener. */
  lemma RegisteredListeners()
    ensures Listeners(REGISTERED_EVENTS) == Some(map[
      "playerresolveddeath" := OnPlayerResolvedDeath,
      "playerconnect" := OnPlayerConnect,
      "playerlogin" := OnPlayerLogin])
    ensures "playerweaponshot" !in Listeners(REGISTERED_EVENTS).value
  {
    RegisteredHandlers();
    RegisteredEventNames();
    var names := REGISTERED_EVENTS;
    var one := map["playerresolveddeath" := OnPlayerResolvedDeath];
    var two := one["playerconnect" := OnPlayerConnect];
    assert Register(names[..1], Resolve) == Some(one) by {
      assert names[..1][..0] == [] && names[..1][0] == "OnPlayerResolvedDeath";
    }
    assert Register(names[..2], Resolve) == Some(two) by {
      assert names[..2][..1] == names[..1] && names[..2][1] == "OnPlayerConnect";
    }
    assert Register(names, Resolve) == Some(two["playerlogin" := OnPlayerLogin]) by {
      assert names[..2] == names[..|names| - 1] && names[2] == "OnPlayerLogin";
    }
  }

  // ----- Events, players and records -----

  /** The fields of an event as the game server delivers them. Handlers read
      only the fields of their own event. */
  datatype EventPayload = EventPayload(
    playerid: int, killerid: int, reason: int,
    weaponid: int, hittype: int, hitid: int, fX: int, fY: int, fZ: int)

  /** What the player lookup knows about a connected player. */
  datatype PlayerInfo = PlayerInfo(
    name: string, registered: bool, userId: int, isNpc: bool,
    position: Vector, ipAddress: string, gpci: string, sessionId: Option<int>)

  /** The records the activity recorder is asked to write. */
  datatype Write =
    | WriteDeath(userId: Option<int>, position: Vector, reason: int)
    | WriteKill(userId: Option<int>, killerUserId: Option<int>, position: Vector, reason: int)
    | WriteHit(userId: Option<int>, targetUserId: Option<int>, targetDistanceSquared: nat, weaponId: int, position: Vector)
    | InsertSessionAtConnect(name: string, numericIpAddress: Option<nat>, gpci: string)
    | UpdateSessionAtLogin(sessionId: Option<int>, accountId: int)

  const BULLET_HIT_TYPE_PLAYER := 1
  const BULLET_HIT_TYPE_VEHICLE := 2

  /** The user id recorded for `player`: null unless the player is registered. */
  function UserIdOf(player: PlayerInfo): (r: Option<int>)
    ensures r.Some? <==> player.registered
    ensures r.Some? ==> r.value == player.userId
  {
    if player.registered then Some(player.userId) else None
  }

  /** `onPlayerResolvedDeath`: nothing for an unknown player; a death when the
      killer is unknown and a kill otherwise. */
  function PlayerResolvedDeath(players: map<int, PlayerInfo>, event: EventPayload): (r: Option<Write>)
    ensures r.None? <==> event.playerid !in players
    ensures r.Some? ==> r.value.WriteDeath? || r.value.WriteKill?
    ensures r.Some? ==> (r.value.WriteKill? <==> event.killerid in players)
    ensures r.Some? ==>
      && r.value.position == players[event.playerid].position && r.value.reason == event.reason
      && (r.value.userId.None? <==> !players[event.playerid].registered)
      && (r.value.userId.Some? ==> r.value.userId.value == players[event.playerid].userId)
    ensures r.Some? && r.value.WriteKill? ==>
      && (r.value.killerUserId.None? <==> !players[event.killerid].registered)
      && (r.value.killerUserId.Some? ==> r.value.killerUserId.value == players[event.killerid].userId)
  {
    if event.playerid !in players then None
    else
      var player := players[event.playerid];
      if event.killerid !in players then Some(WriteDeath(UserIdOf(player), player.position, event.reason))
      else Some(WriteKill(UserIdOf(player), UserIdOf(players[event.killerid]), player.position, event.reason))
  }

  /** `onPlayerWeaponShot`: a hit is recorded only for shots that hit a player
      or a vehicle, fired by a known player; the target's user id only when a
      registered player was hit. */
  function PlayerWeaponShot(players: map<int, PlayerInfo>, event: EventPayload): (r: Option<Write>)
    ensures r.Some? <==>
      (event.hittype == BULLET_HIT_TYPE_PLAYER || event.hittype == BULLET_HIT_TYPE_VEHICLE) && event.playerid in players
    ensures r.Some? ==> r.value.WriteHit?
    ensures r.Some? ==>
      && (r.value.targetUserId.Some? <==>
            event.hittype == BULLET_HIT_TYPE_PLAYER && event.hitid in players && players[event.hitid].registered)
      && (r.value.targetUserId.Some? ==> r.value.targetUserId.value == players[event.hitid].userId)
      && (r.value.userId.None? <==> !players[event.playerid].registered)
      && (r.value.userId.Some? ==> r.value.userId.value == players[event.playerid].userId)
      && r.value.weaponId == event.weaponid && r.value.position == players[event.playerid].position
      && r.value.targetDistanceSquared == SquaredMagnitude(Vector(event.fX, event.fY, event.fZ))
  {
    if event.hittype != BULLET_HIT_TYPE_PLAYER && event.hittype != BULLET_HIT_TYPE_VEHICLE then None
    else if event.playerid !in players then None
    else
      var player := players[event.playerid];
      var targetUserId :=
        if event.hittype == BULLET_HIT_TYPE_PLAYER && event.hitid in players && players[event.hitid].registered
        then Some(players[event.hitid].userId) else None;
      var targetDistanceSquared := SquaredMagnitude(Vector(event.fX, event.fY, event.fZ));
      Some(WriteHit(UserIdOf(player), targetUserId, targetDistanceSquared, event.weaponid, player.position))
  }

  /** `onPlayerConnect`: a session is opened for a known human player, with the
      numeric form of their address. */
  function PlayerConnect(players: map<int, PlayerInfo>, event: EventPayload): (r: Option<Write>)
    ensures r.None? <==> event.playerid !in players || players[event.playerid].isNpc
    ensures r.Some? ==>
      var player := players[event.playerid];
      r == Some(InsertSessionAtConnect(player.name, IpAddress.Ip2Long(player.ipAddress), player.gpci))
  {
    if event.playerid !in players || players[event.playerid].isNpc then None
    else
      var player := players[event.playerid];
      Some(InsertSessionAtConnect(player.name, IpAddress.Ip2Long(player.ipAddress), player.gpci))
  }

  /** `onPlayerLogin`: the player's session is tied to their account, for a
      known human player. */
  function PlayerLogin(players: map<int, PlayerInfo>, event: EventPayload): (r: Option<Write>)
    ensures r.None? <==> event.playerid !in players || players[event.playerid].isNpc
    ensures r.Some? ==>
      r == Some(UpdateSessionAtLogin(players[event.playerid].sessionId, players[event.playerid].userId))
  {
    if event.playerid !in players || players[event.playerid].isNpc then None
    else Some(UpdateSessionAtLogin(players[event.playerid].sessionId, players[event.playerid].userId))
  }

  /** The record `handler` writes for `event`, if any. */
  function Handle(handler: Handler, players: map<int, PlayerInfo>, event: EventPayload): Option<Write> {
    match handler
    case OnPlayerResolvedDeath => PlayerResolvedDeath(players, event)
    case OnPlayerWeaponShot => PlayerWeaponShot(players, event)
    case OnPlayerConnect => PlayerConnect(players, event)
    case OnPlayerLogin => PlayerLogin(players, event)
  }

  /** The record written when `eventName` arrives: nothing when no listener is
      registered for it. */
  function Dispatch(listeners: map<string, Handler>, eventName: string, players: map<int, PlayerInfo>, event: EventPayload)
    : (r: Option<Write>)
    ensures eventName !in listeners ==> r.None?
  {
    if eventName in listeners then Handle(listeners[eventName], players, event) else None
  }

  /** Every registered event reaches the handler its method name names. */
  lemma RegisteredEventsReachHandlers(i: nat, players: map<int, PlayerInfo>, event: EventPayload)
    requires i < |REGISTERED_EVENTS|
    ensures Listeners(REGISTERED_EVENTS).Some? && MethodNamed(ToMethodName(REGISTERED_EVENTS[i])).Some?
    ensures Dispatch(Listeners(REGISTERED_EVENTS).value, ToEventName(REGISTERED_EVENTS[i]), players, event)
         == Handle(MethodNamed(ToMethodName(REGISTERED_EVENTS[i])).value, players, event)
  {
    RegisteredListeners();
    RegisteredMethodNames();
    RegisteredEventNames();
  }

  /** The event name weapon shots would be delivered under. */
  lemma WeaponShotEventName()
    ensures ToEventName("OnPlayerWeaponShot") == "playerweaponshot"
  {
  }

  /** Weapon shots are not registered, so no hit is ever recorded. */
  lemma ShotsAreNotRecorded(players: map<int, PlayerInfo>, event: EventPayload)
    ensures Listeners(REGISTERED_EVENTS).Some?
    ensures Dispatch(Listeners(REGISTERED_EVENTS).value, ToEventName("OnPlayerWeaponShot"), players, event).None?
  {
    RegisteredListeners();
    WeaponShotEventName();
  }

  /** A session insert is written only for a player present in the lookup. */
  lemma SessionInsertHasPlayer(listeners: map<string, Handler>, eventName: string, players: map<int, PlayerInfo>, event: EventPayload)
    requires Dispatch(listeners, eventName, players, event).Some?
    requires Dispatch(listeners, eventName, players, event).value.InsertSessionAtConnect?
    ensures event.playerid in players && listeners[eventName] == OnPlayerConnect
  {
  }

  /** The players after `write` has been handled: a session insert stores the
      recorder's new session id on the connecting player. */
  function AfterWrite(players: map<int, PlayerInfo>, playerid: int, write: Option<Write>, sessionId: int)
    : map<int, PlayerInfo>
  {
    if write.Some? && write.value.InsertSessionAtConnect? && playerid in players
    then players[playerid := players[playerid].(sessionId := Some(sessionId))]
    else players
  }

  /** The activity log feature: its listener table and the records it has
      handed to the recorder so far. */
  class ActivityLog {
    var listeners: map<string, Handler>
    var written: seq<Write>

    /** Registers a listener for every event in `REGISTERED_EVENTS`. */
    constructor ()
      ensures Listeners(REGISTERED_EVENTS) == Some(listeners)
      ensures written == []
    {
      var table := map[];
      RegisteredListeners();
      RegisterDefined(REGISTERED_EVENTS, Resolve);
      for i := 0 to |REGISTERED_EVENTS|
        invariant Register(REGISTERED_EVENTS[..i], Resolve) == Some(table)
      {
        var name := REGISTERED_EVENTS[i];
        assert REGISTERED_EVENTS[..i + 1][..i] == REGISTERED_EVENTS[..i];
        assert REGISTERED_EVENTS[..i + 1][i] == name;
        var handler := Resolve(name);
        table := table[ToEventName(name) := handler.value];
      }
      assert REGISTERED_EVENTS[..|REGISTERED_EVENTS|] == REGISTERED_EVENTS;
      listeners := table;
      written := [];
    }

    /** Runs the listener for `eventName`, if any: its record, if any, is
        appended to what was written, and a connecting player receives the
        session id `insertedSessionId` that the recorder hands back. */
    method OnEvent(eventName: string, event: EventPayload, players: map<int, PlayerInfo>, insertedSessionId: int)
      returns (playersAfter: map<int, PlayerInfo>)
      modifies this`written
      ensures var write := Dispatch(listeners, eventName, players, event);
        && written == old(written) + (if write.Some? then [write.value] else [])
        && playersAfter == AfterWrite(players, event.playerid, write, insertedSessionId)
    {
      var write := Dispatch(listeners, eventName, players, event);
      playersAfter := players;
      if write.Some? {
        written := written + [write.value];
        if write.value.InsertSessionAtConnect? {
          SessionInsertHasPlayer(listeners, eventName, players, event);
          playersAfter := players[event.playerid := players[event.playerid].(sessionId := Some(insertedSessionId))];
        }
      }
    }
  }
}
