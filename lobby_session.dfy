/** The lobby controller as a reducer: one step function per method and socket handler of
    the `LobbyMenu` class, mapping the controller's fields before the call to the fields after
    it and to the effects the call has on the outside world, in the order they happen. */
module LobbySession {
  import opened Wrappers
  import opened TeamProtocol
  import opened ErrorText

  /** The socket's `readyState`. */
  datatype ReadyState = Connecting | Open | Closing | Closed

  /** A WebSocket object, identified by the number of sockets created before it. */
  datatype Socket = Socket(id: nat, ready: ReadyState)

  /** The four keys of the configuration store that the lobby reads or writes. */
  datatype Config = Config(playerName: string, region: string, gameModeIdx: int, teamAutoFill: bool)

  /** A turnstile callback that has not fired yet: the match arguments it captured, and the
      session (counted by `connect`) in which it was requested. */
  datatype PendingPlay = PendingPlay(args: PlayGameArgs, generation: nat)

  /** What a step does outside the controller's own fields. */
  datatype Effect =
    | OpenSocket(socket: nat)              // a socket is created
    | SilenceClose(socket: nat)            // its close handler is replaced by a no-op
    | CloseSocket(socket: nat)             // it is asked to close
    | Send(socket: nat, msg: ClientMsg)    // a frame is sent on it
    | LeaveCb(text: string)                // the leave callback runs
    | JoinGameCb(matchData: MatchData)     // the game-join callback runs
    | VerifyTurnstile(captchaEnabled: Option<bool>, callback: nat)  // a turnstile check starts

  /** The controller's fields. `nextSocket`, `silenced` and `nextCallback` record which
      sockets and callbacks exist; `generation` counts the sessions started by `connect`. */
  datatype Session = Session(
    active: bool,
    joined: bool,
    create: bool,
    joiningGame: bool,
    ws: Option<Socket>,
    keepAliveTimeout: real,
    playerName: string,
    roomData: RoomData,
    players: seq<Player>,
    localPlayerId: int,
    isLeader: bool,
    config: Config,
    nextSocket: nat,
    silenced: set<nat>,
    pending: map<nat, PendingPlay>,
    nextCallback: nat,
    generation: nat)

  /** The fields after a step and the effects of the step. */
  datatype Next = Next(s: Session, out: seq<Effect>)

  /** Collaborators fixed for the controller's lifetime: the localisation lookup and the
      protocol version sent with `playGame`. */
  datatype Env = Env(translate: string -> string, protocolVersion: int)

  const KeepAliveInterval: real := 45.0

  /** The room record the class starts with, before the first connect: the source leaves
      every field undefined; the model uses empty values. */
  const BlankRoom := RoomData("", "", 0, false, false, "", None, None, None)

  /** The field initialisers of the class. */
  function Initial(config: Config): (s: Session)
    ensures !s.active && !s.joined && s.ws.None? && s.isLeader && s.pending == map[]
  {
    Session(false, false, false, false, None, 0.0, "", BlankRoom, [], 0, true, config,
            0, {}, map[], 0, 0)
  }

  /** The room record `connect` seeds from the configuration store. */
  function SeedRoom(config: Config, roomUrl: string): (r: RoomData)
    ensures r.roomUrl == roomUrl && !r.findingGame && r.lastError == ""
    ensures r.region == config.region && r.gameModeIdx == config.gameModeIdx && r.autoFill == config.teamAutoFill
  {
    RoomData(roomUrl, config.region, config.gameModeIdx, config.teamAutoFill, false, "", None, None, None)
  }

  function AfterClose(r: ReadyState): ReadyState {
    if r == Closed then Closed else Closing
  }

  /** Asking the current socket to close. */
  function CloseCurrent(s: Session): (r: Next)
    requires s.ws.Some?
    ensures r.out == [CloseSocket(s.ws.value.id)]
    ensures r.s.ws.Some? && r.s.ws.value.id == s.ws.value.id && r.s.ws.value.ready != Open
    ensures r.s == s.(ws := r.s.ws)
  {
    Next(s.(ws := Some(s.ws.value.(ready := AfterClose(s.ws.value.ready)))), [CloseSocket(s.ws.value.id)])
  }

  /** `sendMessage`: a frame goes out exactly when there is a socket and it is open; a socket
      that is not open is closed instead; without a socket nothing happens. */
  function SendMessage(s: Session, msg: ClientMsg): (r: Next)
    ensures s.ws.None? ==> r == Next(s, [])
    ensures s.ws.Some? && s.ws.value.ready == Open ==> r == Next(s, [Send(s.ws.value.id, msg)])
    ensures s.ws.Some? && s.ws.value.ready != Open ==>
      r.out == [CloseSocket(s.ws.value.id)] && r.s.ws == Some(s.ws.value.(ready := AfterClose(s.ws.value.ready)))
    ensures r.s == s.(ws := r.s.ws)
  {
    match s.ws
    case None => Next(s, [])
    case Some(w) => if w.ready == Open then Next(s, [Send(w.id, msg)]) else CloseCurrent(s)
  }

  /** The text `leave` gives the leave callback: empty for no error, else the localised text. */
  function LeaveText(env: Env, errType: string): (text: string)
    ensures errType == "" ==> text == ""
    ensures errType != "" ==> text == ErrorTypeToString(errType, env.translate)
  {
    if errType != "" then ErrorTypeToString(errType, env.translate) else ""
  }

  /** What `leave` writes back to the configuration store: the room's queue mode and
      auto-fill always, its region only when this client leads. */
  function SavedConfig(s: Session): (c: Config)
    ensures c.gameModeIdx == s.roomData.gameModeIdx && c.teamAutoFill == s.roomData.autoFill
    ensures c.playerName == s.config.playerName
    ensures c.region == if s.isLeader then s.roomData.region else s.config.region
  {
    var c := s.config.(gameModeIdx := s.roomData.gameModeIdx, teamAutoFill := s.roomData.autoFill);
    if s.isLeader then c.(region := s.roomData.region) else c
  }

  /** `leave(errType)`. On an inactive lobby it changes nothing and calls nothing. On an active
      one it closes and drops the socket, ends the session, saves the queue mode and auto-fill
      (and the region, if this client leads) to the configuration store, and then calls the
      leave callback exactly once. */
  function Leave(env: Env, s: Session, errType: string): (r: Next)
    ensures !s.active ==> r == Next(s, [])
    ensures s.active ==> !r.s.active && !r.s.joined && !r.s.joiningGame && r.s.ws.None?
    ensures s.active ==> r.s.config.gameModeIdx == s.roomData.gameModeIdx &&
                         r.s.config.teamAutoFill == s.roomData.autoFill &&
                         r.s.config.playerName == s.config.playerName &&
                         r.s.config.region == (if s.isLeader then s.roomData.region else s.config.region)
    ensures s.active ==> r.out == (if s.ws.Some? then [CloseSocket(s.ws.value.id)] else []) + [LeaveCb(LeaveText(env, errType))]
    ensures s.active ==> r.s == s.(active := false, joined := false, joiningGame := false, ws := None, config := r.s.config)
  {
    if !s.active then Next(s, [])
    else
      var closing := if s.ws.Some? then [CloseSocket(s.ws.value.id)] else [];
      Next(s.(ws := None, active := false, joined := false, joiningGame := false, config := SavedConfig(s)),
           closing + [LeaveCb(LeaveText(env, errType))])
  }

  /** The error code a close of the socket reports, from the session's flags. */
  function CloseErrorCode(s: Session): string {
    if s.joiningGame then ""
    else if s.joined then "lost_conn"
    else if s.create then "create_failed"
    else "join_failed"
  }

  /** What `connect` does before it creates the new socket: the session flags are set, the
      player name and the room are loaded from the configuration store, the session counter
      moves on, and the previous socket, if any, has its close handler neutralised and is
      closed and dropped. */
  function Restart(s: Session, create: bool, roomUrl: string): (r: Next)
    ensures r.s.active && !r.s.joined && !r.s.joiningGame && r.s.create == create && r.s.ws.None?
    ensures r.s.roomData == SeedRoom(s.config, roomUrl) && r.s.playerName == s.config.playerName
    ensures r.s.generation == s.generation + 1
    ensures r.s.silenced == if s.ws.Some? then s.silenced + {s.ws.value.id} else s.silenced
    ensures r.out == if s.ws.Some? then [SilenceClose(s.ws.value.id), CloseSocket(s.ws.value.id)] else []
    ensures r.s == s.(active := true, joined := false, create := create, joiningGame := false,
                      playerName := s.config.playerName, roomData := SeedRoom(s.config, roomUrl),
                      ws := None, silenced := r.s.silenced, generation := s.generation + 1)
  {
    var s1 := s.(active := true, joined := false, create := create, joiningGame := false,
                 playerName := s.config.playerName, roomData := SeedRoom(s.config, roomUrl),
                 generation := s.generation + 1);
    if s1.ws.Some? then
      Next(s1.(silenced := s1.silenced + {s1.ws.value.id}, ws := None),
           [SilenceClose(s1.ws.value.id), CloseSocket(s1.ws.value.id)])
    else Next(s1, [])
  }

  /** The `try` block of `connect`: a new socket that has not opened yet becomes the current
      one; when its construction throws, the lobby leaves with `create_failed` or
      `join_failed`, according to the session's `create` flag. */
  function CreateSocket(env: Env, s: Session, constructOk: bool): (r: Next)
    ensures constructOk ==> r == Next(s.(ws := Some(Socket(s.nextSocket, Connecting)), nextSocket := s.nextSocket + 1),
                                      [OpenSocket(s.nextSocket)])
    ensures !constructOk ==> r == Leave(env, s, if s.create then "create_failed" else "join_failed")
  {
    if constructOk then
      Next(s.(ws := Some(Socket(s.nextSocket, Connecting)), nextSocket := s.nextSocket + 1), [OpenSocket(s.nextSocket)])
    else
      Leave(env, s, if s.create then "create_failed" else "join_failed")
  }

  /** `connect(create, roomUrl)`. Already active in the same room: nothing happens. Otherwise
      a new session starts from the configuration store; a previous socket has its close
      handler neutralised before it is closed and dropped; then a new socket is created, or,
      when creating it fails, the session is left with `create_failed` or `join_failed`. */
  function Connect(env: Env, s: Session, create: bool, roomUrl: string, constructOk: bool): (r: Next)
    ensures s.active && roomUrl == s.roomData.roomUrl ==> r == Next(s, [])
    ensures !s.active || roomUrl != s.roomData.roomUrl ==>
      var retire := if s.ws.Some? then [SilenceClose(s.ws.value.id), CloseSocket(s.ws.value.id)] else [];
      var started := s.(active := true, joined := false, create := create, joiningGame := false,
                        playerName := s.config.playerName, roomData := SeedRoom(s.config, roomUrl),
                        ws := None, silenced := if s.ws.Some? then s.silenced + {s.ws.value.id} else s.silenced,
                        generation := s.generation + 1);
      if constructOk then
        r.out == retire + [OpenSocket(s.nextSocket)] &&
        r.s == started.(ws := Some(Socket(s.nextSocket, Connecting)), nextSocket := s.nextSocket + 1)
      else
        r.out == retire + [LeaveCb(LeaveText(env, if create then "create_failed" else "join_failed"))] &&
        r.s == Leave(env, started, if create then "create_failed" else "join_failed").s
  {
    if s.active && roomUrl == s.roomData.roomUrl then Next(s, [])
    else
      var r1 := Restart(s, create, roomUrl);
      var r2 := CreateSocket(env, r1.s, constructOk);
      Next(r2.s, r1.out + r2.out)
  }

  /** The `open` event of socket `src`; the handler sends `create` (the seeded room and the
      player's name) when this client creates the room, else `join` (the room URL and name). */
  function OnOpen(s: Session, src: nat): (r: Next)
    ensures var s1 := if s.ws == Some(Socket(src, Connecting)) then s.(ws := Some(Socket(src, Open))) else s;
      r == SendMessage(s1, if s.create then Create(s.roomData, s.playerName) else Join(s.roomData.roomUrl, s.playerName))
    ensures s.ws == Some(Socket(src, Connecting)) ==>
      r.out == [Send(src, if s.create then Create(s.roomData, s.playerName) else Join(s.roomData.roomUrl, s.playerName))]
  {
    var s1 := if s.ws.Some? && s.ws.value.id == src && s.ws.value.ready == Connecting
              then s.(ws := Some(s.ws.value.(ready := Open))) else s;
    SendMessage(s1, if s1.create then Create(s1.roomData, s1.playerName) else Join(s1.roomData.roomUrl, s1.playerName))
  }

  /** The `error` event of any socket: its handler closes the current socket, if any. */
  function OnError(s: Session): (r: Next)
    ensures s.ws.None? ==> r == Next(s, [])
    ensures s.ws.Some? ==> r.out == [CloseSocket(s.ws.value.id)] && r.s.ws.Some? && r.s.ws.value.ready != Open
    ensures r.s == s.(ws := r.s.ws)
  {
    if s.ws.Some? then CloseCurrent(s) else Next(s, [])
  }

  /** The browser's view of socket `src` once its `close` event fires: closed, if it is the
      current socket; only the socket's ready state changes. */
  function SocketClosed(s: Session, src: nat): (r: Session)
    ensures s.ws.Some? && s.ws.value.id == src ==> r == s.(ws := Some(Socket(src, Closed)))
    ensures s.ws.None? || s.ws.value.id != src ==> r == s
  {
    if s.ws.Some? && s.ws.value.id == src then s.(ws := Some(s.ws.value.(ready := Closed))) else s
  }

  /** The `close` event of socket `src`. A socket whose handler `connect` neutralised does
      nothing; otherwise the handler leaves with no error during a hand-off to a game,
      `lost_conn` once joined, else `create_failed` or `join_failed`. */
  function OnClose(env: Env, s: Session, src: nat): (r: Next)
    ensures r == if src in s.silenced then Next(SocketClosed(s, src), []) else Leave(env, SocketClosed(s, src), CloseErrorCode(s))
    ensures src !in s.silenced && s.active ==>
      !r.s.active && r.s.ws.None? && r.out[|r.out| - 1] == LeaveCb(LeaveText(env, CloseErrorCode(s)))
  {
    var s1 := SocketClosed(s, src);
    if src in s1.silenced then Next(s1, []) else Leave(env, s1, CloseErrorCode(s1))
  }

  /** The reconciler run on a `state` frame. The roster, local id and room are taken from the
      frame and the lobby counts as joined; leadership is the local player's roster flag; when
      that makes this client the leader, its own `region` and `autoFill` are kept over the
      frame's. A roster without the local player makes the source's handler throw right after
      the assignments, so leadership and the room are then left as the frame set them. */
  function OnStateMsg(s: Session, room: RoomData, players: seq<Player>, localPlayerId: int): (r: Next)
    ensures r.out == []
    ensures r.s.joined && r.s.players == players && r.s.localPlayerId == localPlayerId
    ensures GetPlayerById(players, localPlayerId).Some? ==>
      r.s.isLeader == GetPlayerById(players, localPlayerId).value.isLeader
    ensures GetPlayerById(players, localPlayerId).None? ==> r.s.isLeader == s.isLeader
    ensures r.s.roomData == if GetPlayerById(players, localPlayerId).Some? && r.s.isLeader
                            then room.(region := s.roomData.region, autoFill := s.roomData.autoFill)
                            else room
    ensures r.s == s.(joined := true, roomData := r.s.roomData, players := players,
                      localPlayerId := localPlayerId, isLeader := r.s.isLeader)
  {
    var ourRoomData := s.roomData;
    var s1 := s.(joined := true, roomData := room, players := players, localPlayerId := localPlayerId);
    match GetPlayerById(players, localPlayerId)
    case None => Next(s1, [])
    case Some(p) =>
      var s2 := s1.(isLeader := p.isLeader);
      if s2.isLeader then Next(s2.(roomData := s2.roomData.(region := ourRoomData.region, autoFill := ourRoomData.autoFill)), [])
      else Next(s2, [])
  }

  /** `onMessage(type, data)`. */
  function OnMessage(env: Env, s: Session, msg: ServerMsg): (r: Next)
    ensures msg.JoinGame? ==> r == Next(s.(joiningGame := true), [JoinGameCb(msg.matchData)])
    ensures msg.KeepAliveAck? || msg.Unhandled? ==> r == Next(s, [])
    ensures msg.Kicked? ==> r == Leave(env, s, "kicked")
    ensures msg.Error? ==> r == Leave(env, s, msg.errType.GetOr(""))
    ensures msg.State? ==> r == OnStateMsg(s, msg.room, msg.players, msg.localPlayerId)
  {
    match msg
    case State(room, players, id) => OnStateMsg(s, room, players, id)
    case JoinGame(m) => Next(s.(joiningGame := true), [JoinGameCb(m)])
    case KeepAliveAck => Next(s, [])
    case Kicked => Leave(env, s, "kicked")
    case Error(t) => Leave(env, s, t.GetOr(""))
    case Unhandled(_) => Next(s, [])
  }

  /** The socket's `message` event: frames are handled only while the lobby is active. */
  function OnSocketMessage(env: Env, s: Session, msg: ServerMsg): (r: Next)
    ensures !s.active ==> r == Next(s, [])
    ensures s.active ==> r == OnMessage(env, s, msg)
  {
    if s.active then OnMessage(env, s, msg) else Next(s, [])
  }

  /** `onGameComplete`: while active, the hand-off marker is cleared and `gameComplete` sent. */
  function OnGameComplete(s: Session): (r: Next)
    ensures !s.active ==> r == Next(s, [])
    ensures s.active ==> r == SendMessage(s.(joiningGame := false), GameComplete)
  {
    if s.active then SendMessage(s.(joiningGame := false), GameComplete) else Next(s, [])
  }

  /** `update(dt)`: while joined, the keep-alive countdown loses `dt`; when it drops below zero
      it restarts at 45 and one `keepAlive` frame is sent. */
  function Update(s: Session, dt: real): (r: Next)
    ensures !s.joined ==> r == Next(s, [])
    ensures s.joined && s.keepAliveTimeout - dt >= 0.0 ==>
      r == Next(s.(keepAliveTimeout := s.keepAliveTimeout - dt), [])
    ensures s.joined && s.keepAliveTimeout - dt < 0.0 ==>
      r == SendMessage(s.(keepAliveTimeout := KeepAliveInterval), KeepAlive)
    ensures s.joined ==> 0.0 <= r.s.keepAliveTimeout
  {
    if s.joined then
      var t := s.keepAliveTimeout - dt;
      if t < 0.0 then SendMessage(s.(keepAliveTimeout := KeepAliveInterval), KeepAlive)
      else Next(s.(keepAliveTimeout := t), [])
    else Next(s, [])
  }

  /** The name editor's submit handler in `refreshUi`: the (already sanitised) name is written
      to the configuration store, so the next `connect` offers it, and a `changeName` frame is
      sent. The name of the running session, `playerName`, is not updated. */
  function SubmitName(s: Session, name: string): (r: Next)
    ensures r.s == s.(config := s.config.(playerName := name), ws := r.s.ws)
    ensures s.ws.None? ==> r.out == []
    ensures s.ws.Some? && s.ws.value.ready == Open ==> r.out == [Send(s.ws.value.id, ChangeName(name))] && r.s.ws == s.ws
    ensures s.ws.Some? && s.ws.value.ready != Open ==> r.out == [CloseSocket(s.ws.value.id)]
  {
    SendMessage(s.(config := s.config.(playerName := name)), ChangeName(name))
  }

  /** `setRoomProperty(prop, val)`: only the leader edits, and only when the value is new;
      then exactly that field changes and the whole updated room goes out in `setRoomProps`. */
  function SetRoomProperty(s: Session, e: RoomEdit): (r: Next)
    ensures !s.isLeader || !Differs(s.roomData, e) ==> r == Next(s, [])
    ensures s.isLeader && Differs(s.roomData, e) ==>
      r.s.roomData == ApplyEdit(s.roomData, e) && r.s.roomData != s.roomData &&
      r == SendMessage(s.(roomData := ApplyEdit(s.roomData, e)), SetRoomProps(ApplyEdit(s.roomData, e)))
  {
    if s.isLeader && Differs(s.roomData, e) then
      var s1 := s.(roomData := ApplyEdit(s.roomData, e));
      SendMessage(s1, SetRoomProps(s1.roomData))
    else Next(s, [])
  }

  /** The match request `tryStartGame` builds: a non-empty `region` query parameter replaces
      the room's region, a non-empty `zone` parameter replaces the measured zone list. */
  function MatchArgs(s: Session, env: Env, paramRegion: Option<string>, paramZone: Option<string>,
                     getZones: string -> seq<string>): (a: PlayGameArgs)
    ensures a.version == env.protocolVersion && a.turnstileToken.None?
    ensures a.region == if paramRegion.Some? && paramRegion.value != "" then paramRegion.value else s.roomData.region
    ensures a.zones == if paramZone.Some? && paramZone.value != "" then [paramZone.value] else getZones(a.region)
  {
    var region := if paramRegion.Some? && |paramRegion.value| > 0 then paramRegion.value else s.roomData.region;
    var zones := if paramZone.Some? && |paramZone.value| > 0 then [paramZone.value] else getZones(region);
    PlayGameArgs(env.protocolVersion, region, zones, None)
  }

  /** `tryStartGame`: unless this client leads and no search is under way, nothing happens.
      Otherwise the turnstile check is started with a fresh callback and `findingGame` is set
      at once; no frame is sent until the callback fires. */
  function TryStartGame(env: Env, s: Session, paramRegion: Option<string>, paramZone: Option<string>,
                        getZones: string -> seq<string>): (r: Next)
    ensures !s.isLeader || s.roomData.findingGame ==> r == Next(s, [])
    ensures s.isLeader && !s.roomData.findingGame ==>
      r.out == [VerifyTurnstile(s.roomData.captchaEnabled, s.nextCallback)] &&
      r.s == s.(roomData := s.roomData.(findingGame := true), nextCallback := s.nextCallback + 1,
                pending := s.pending[s.nextCallback := PendingPlay(MatchArgs(s, env, paramRegion, paramZone, getZones), s.generation)])
  {
    if s.isLeader && !s.roomData.findingGame then
      var args := MatchArgs(s, env, paramRegion, paramZone, getZones);
      var cb := s.nextCallback;
      Next(s.(pending := s.pending[cb := PendingPlay(args, s.generation)], nextCallback := cb + 1,
              roomData := s.roomData.(findingGame := true)),
           [VerifyTurnstile(s.roomData.captchaEnabled, cb)])
    else Next(s, [])
  }

  /** The turnstile callback as the source writes it: it sends `playGame` with the token on
      whatever socket the lobby holds when it fires. */
  function OnTokenAsWritten(s: Session, cb: nat, token: string): (r: Next)
    ensures cb !in s.pending ==> r == Next(s, [])
    ensures cb in s.pending ==>
      r == SendMessage(s.(pending := s.pending - {cb}), PlayGame(s.pending[cb].args.(turnstileToken := Some(token))))
  {
    if cb in s.pending then
      SendMessage(s.(pending := s.pending - {cb}), PlayGame(s.pending[cb].args.(turnstileToken := Some(token))))
    else Next(s, [])
  }

  /** The corrected turnstile callback: one requested in a session that has since ended is
      dropped without sending anything, so a search can only be started on the socket of the
      session that asked for it. */
  function OnToken(s: Session, cb: nat, token: string): (r: Next)
    ensures cb !in s.pending ==> r == Next(s, [])
    ensures cb in s.pending && s.pending[cb].generation != s.generation ==>
      r == Next(s.(pending := s.pending - {cb}), [])
    ensures cb in s.pending && s.pending[cb].generation == s.generation ==> r == OnTokenAsWritten(s, cb, token)
  {
    if cb in s.pending && s.pending[cb].generation == s.generation then OnTokenAsWritten(s, cb, token)
    else if cb in s.pending then Next(s.(pending := s.pending - {cb}), [])
    else Next(s, [])
  }
}
