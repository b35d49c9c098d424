/** The `LobbyMenu` class itself: the controller's fields, updated in place by its methods
    and socket handlers. Each method is proved to change the fields exactly as the matching
    step function of `LobbySession` says and to append that step's effects to `effects`,
    the log of what the lobby does to its socket, callbacks and turnstile collaborator. */
module Lobby {
  import opened Wrappers
  import opened TeamProtocol
  import opened ErrorText
  import opened LobbySession
  import LobbyRuns

  class LobbyMenu {
    const translate: string -> string
    const protocolVersion: int

    var active: bool
    var joined: bool
    var create: bool
    var joiningGame: bool
    var ws: Option<Socket>
    var keepAliveTimeout: real
    var playerName: string
    var roomData: RoomData
    var players: seq<Player>
    var localPlayerId: int
    var isLeader: bool
    var config: Config
    var nextSocket: nat
    var silenced: set<nat>
    var pending: map<nat, PendingPlay>
    var nextCallback: nat
    /** Not a field of the source's class: the number of sessions `connect` has started, kept
        only so that the corrected turnstile callback can tell a stale request from a live one. */
    var generation: nat

    ghost var effects: seq<Effect>

    ghost function Snapshot(): Session
      reads this
    {
      Session(active, joined, create, joiningGame, ws, keepAliveTimeout, playerName, roomData,
              players, localPlayerId, isLeader, config, nextSocket, silenced, pending,
              nextCallback, generation)
    }

    function EnvOf(): Env {
      Env(translate, protocolVersion)
    }

    ghost predicate Valid()
      reads this
    {
      LobbyRuns.Inv(Snapshot())
    }

    constructor (config: Config, translate: string -> string, protocolVersion: int)
      ensures Valid() && Snapshot() == Initial(config) && effects == []
      ensures this.translate == translate && this.protocolVersion == protocolVersion
    {
      this.translate := translate;
      this.protocolVersion := protocolVersion;
      active, joined, create, joiningGame := false, false, false, false;
      ws := None;
      keepAliveTimeout := 0.0;
      playerName := "";
      roomData := BlankRoom;
      players := [];
      localPlayerId := 0;
      isLeader := true;
      this.config := config;
      nextSocket, silenced := 0, {};
      pending, nextCallback := map[], 0;
      generation := 0;
      effects := [];
    }

    /** Ask the current socket to close. */
    method CloseWs()
      requires ws.Some?
      modifies this
      ensures Snapshot() == CloseCurrent(old(Snapshot())).s
      ensures effects == old(effects) + CloseCurrent(old(Snapshot())).out
    {
      effects := effects + [CloseSocket(ws.value.id)];
      ws := Some(ws.value.(ready := AfterClose(ws.value.ready)));
    }

    /** `sendMessage`. Its callers inside the class use it between their own field updates, so
        it keeps `Valid()` when it finds it rather than demanding it. */
    method SendMessage(msg: ClientMsg)
      modifies this
      ensures old(Valid()) ==> Valid()
      ensures Snapshot() == LobbySession.SendMessage(old(Snapshot()), msg).s
      ensures effects == old(effects) + LobbySession.SendMessage(old(Snapshot()), msg).out
    {
      if Valid() {
        LobbyRuns.SendPreservesInv(Snapshot(), msg);
      }
      if ws.Some? {
        if ws.value.ready == Open {
          effects := effects + [Send(ws.value.id, msg)];
        } else {
          CloseWs();
        }
      }
    }

    /** Close the current socket, if there is one, and forget it. */
    method DropSocket()
      modifies this
      ensures Snapshot() == old(Snapshot()).(ws := None)
      ensures effects == old(effects) + (if old(ws).Some? then [CloseSocket(old(ws).value.id)] else [])
    {
      if ws.Some? {
        effects := effects + [CloseSocket(ws.value.id)];
      }
      ws := None;
    }

    /** The flags `leave` clears. */
    method EndSession()
      modifies this
      ensures Snapshot() == old(Snapshot()).(active := false, joined := false, joiningGame := false)
      ensures effects == old(effects)
    {
      active, joined, joiningGame := false, false, false;
    }

    /** `leave` saving the room's settings to the configuration store. */
    method SaveConfig()
      modifies this
      ensures Snapshot() == old(Snapshot()).(config := SavedConfig(old(Snapshot())))
      ensures effects == old(effects)
    {
      var saved := config.(gameModeIdx := roomData.gameModeIdx, teamAutoFill := roomData.autoFill);
      if isLeader {
        saved := saved.(region := roomData.region);
      }
      config := saved;
    }

    method Leave(errType: string)
      requires Valid()
      modifies this
      ensures Valid()
      ensures Snapshot() == LobbySession.Leave(EnvOf(), old(Snapshot()), errType).s
      ensures effects == old(effects) + LobbySession.Leave(EnvOf(), old(Snapshot()), errType).out
    {
      ghost var before := Snapshot();
      if active {
        DropSocket();
        EndSession();
        SaveConfig();
        var errTxt := "";
        if errType != "" {
          errTxt := ErrorTypeToString(errType, translate);
        }
        effects := effects + [LeaveCb(errTxt)];
      }
      LobbyRuns.LeavePreservesInv(EnvOf(), before, errType);
    }

    /** The flags `connect` sets when a session starts; the session counter moves on. */
    method StartSession(create: bool)
      modifies this
      ensures Snapshot() == old(Snapshot()).(active := true, joined := false, create := create,
                                             joiningGame := false, generation := old(generation) + 1)
      ensures effects == old(effects)
    {
      active, joined, this.create, joiningGame := true, false, create, false;
      generation := generation + 1;
    }

    /** `connect` loading the player name and the room's settings from the configuration store. */
    method LoadConfig(roomUrl: string)
      modifies this
      ensures Snapshot() == old(Snapshot()).(playerName := old(config).playerName, roomData := SeedRoom(old(config), roomUrl))
      ensures effects == old(effects)
    {
      playerName := config.playerName;
      roomData := SeedRoom(config, roomUrl);
    }

    /** `connect` disowning the previous socket: its close handler is neutralised, it is closed
        and dropped. */
    method RetireSocket()
      modifies this
      ensures old(ws).Some? ==> Snapshot() == old(Snapshot()).(ws := None, silenced := old(silenced) + {old(ws).value.id})
      ensures old(ws).None? ==> Snapshot() == old(Snapshot())
      ensures effects == old(effects) + (if old(ws).Some? then [SilenceClose(old(ws).value.id), CloseSocket(old(ws).value.id)] else [])
    {
      if ws.Some? {
        var id := ws.value.id;
        silenced := silenced + {id};
        effects := effects + [SilenceClose(id), CloseSocket(id)];
        ws := None;
      }
    }

    /** A newly created socket, not open yet, becomes the current one. */
    method OpenNewSocket()
      modifies this
      ensures Snapshot() == old(Snapshot()).(ws := Some(Socket(old(nextSocket), Connecting)), nextSocket := old(nextSocket) + 1)
      ensures effects == old(effects) + [OpenSocket(old(nextSocket))]
    {
      ws := Some(Socket(nextSocket, Connecting));
      effects := effects + [OpenSocket(nextSocket)];
      nextSocket := nextSocket + 1;
    }

    /** Everything `connect` does before it creates the new socket. */
    method Restart(create: bool, roomUrl: string)
      modifies this
      ensures Snapshot() == LobbySession.Restart(old(Snapshot()), create, roomUrl).s
      ensures effects == old(effects) + LobbySession.Restart(old(Snapshot()), create, roomUrl).out
    {
      StartSession(create);
      LoadConfig(roomUrl);
      RetireSocket();
    }

    /** The `try` block of `connect`, where `constructOk` says whether creating the socket
        succeeded. */
    method CreateSocket(constructOk: bool)
      requires Valid() && active && ws.None?
      modifies this
      ensures Valid()
      ensures Snapshot() == LobbySession.CreateSocket(EnvOf(), old(Snapshot()), constructOk).s
      ensures effects == old(effects) + LobbySession.CreateSocket(EnvOf(), old(Snapshot()), constructOk).out
    {
      LobbyRuns.CreateSocketPreservesInv(EnvOf(), Snapshot(), constructOk);
      if constructOk {
        OpenNewSocket();
      } else {
        Leave(if create then "create_failed" else "join_failed");
      }
    }

    method Connect(create: bool, roomUrl: string, constructOk: bool)
      requires Valid()
      modifies this
      ensures Valid()
      ensures Snapshot() == LobbySession.Connect(EnvOf(), old(Snapshot()), create, roomUrl, constructOk).s
      ensures effects == old(effects) + LobbySession.Connect(EnvOf(), old(Snapshot()), create, roomUrl, constructOk).out
    {
      ghost var before := Snapshot();
      if !active || roomUrl != roomData.roomUrl {
        Restart(create, roomUrl);
        LobbyRuns.RestartPreservesInv(before, create, roomUrl);
        CreateSocket(constructOk);
      }
      LobbyRuns.ConnectPreservesInv(EnvOf(), before, create, roomUrl, constructOk);
    }

    /** The socket's `open` handler. */
    method OnOpen(src: nat)
      requires Valid()
      modifies this
      ensures Valid()
      ensures Snapshot() == LobbySession.OnOpen(old(Snapshot()), src).s
      ensures effects == old(effects) + LobbySession.OnOpen(old(Snapshot()), src).out
    {
      LobbyRuns.OpenPreservesInv(Snapshot(), src);
      if ws.Some? && ws.value.id == src && ws.value.ready == Connecting {
        ws := Some(ws.value.(ready := Open));
      }
      if create {
        SendMessage(Create(roomData, playerName));
      } else {
        SendMessage(Join(roomData.roomUrl, playerName));
      }
    }

    /** The socket's `error` handler. */
    method OnError()
      requires Valid()
      modifies this
      ensures Valid()
      ensures Snapshot() == LobbySession.OnError(old(Snapshot())).s
      ensures effects == old(effects) + LobbySession.OnError(old(Snapshot())).out
    {
      LobbyRuns.ErrorPreservesInv(Snapshot());
      if ws.Some? {
        CloseWs();
      }
    }

    /** The current socket's ready state once socket `src` reports `close`. */
    method SocketClosed(src: nat)
      modifies this
      ensures Snapshot() == LobbySession.SocketClosed(old(Snapshot()), src)
      ensures effects == old(effects)
    {
      if ws.Some? && ws.value.id == src {
        ws := Some(ws.value.(ready := Closed));
      }
    }

    /** The socket's `close` handler, for the socket numbered `src`. */
    method OnClose(src: nat)
      requires Valid()
      modifies this
      ensures Valid()
      ensures Snapshot() == LobbySession.OnClose(EnvOf(), old(Snapshot()), src).s
      ensures effects == old(effects) + LobbySession.OnClose(EnvOf(), old(Snapshot()), src).out
    {
      LobbyRuns.SocketClosedPreservesInv(Snapshot(), src);
      SocketClosed(src);
      if src !in silenced {
        var errMsg := "";
        if !joiningGame {
          errMsg := if joined then "lost_conn" else if create then "create_failed" else "join_failed";
        }
        Leave(errMsg);
      }
    }

    /** The assignments that open the `state` case of `onMessage`. */
    method AdoptState(room: RoomData, ps: seq<Player>, id: int)
      modifies this
      ensures Snapshot() == old(Snapshot()).(joined := true, roomData := room, players := ps, localPlayerId := id)
      ensures effects == old(effects)
    {
      joined := true;
      roomData := room;
      players := ps;
      localPlayerId := id;
    }

    /** The `state` case of `onMessage`. */
    method OnStateMsg(room: RoomData, ps: seq<Player>, id: int)
      modifies this
      ensures Snapshot() == LobbySession.OnStateMsg(old(Snapshot()), room, ps, id).s
      ensures effects == old(effects)
    {
      var ourRoomData := roomData;
      AdoptState(room, ps, id);
      var local := GetPlayerById(players, localPlayerId);
      if local.Some? {
        isLeader := local.value.isLeader;
        if isLeader {
          roomData := roomData.(region := ourRoomData.region, autoFill := ourRoomData.autoFill);
        }
      }
    }

    method OnMessage(msg: ServerMsg)
      requires Valid() && active
      modifies this
      ensures Valid()
      ensures Snapshot() == LobbySession.OnMessage(EnvOf(), old(Snapshot()), msg).s
      ensures effects == old(effects) + LobbySession.OnMessage(EnvOf(), old(Snapshot()), msg).out
    {
      ghost var before := Snapshot();
      match msg {
        case State(room, ps, id) =>
          OnStateMsg(room, ps, id);
        case JoinGame(m) =>
          joiningGame := true;
          effects := effects + [JoinGameCb(m)];
        case KeepAliveAck =>
        case Kicked =>
          Leave("kicked");
        case Error(t) =>
          Leave(t.GetOr(""));
        case Unhandled(_) =>
      }
      LobbyRuns.MessagePreservesInv(EnvOf(), before, msg);
    }

    /** The socket's `message` handler. */
    method OnSocketMessage(msg: ServerMsg)
      requires Valid()
      modifies this
      ensures Valid()
      ensures Snapshot() == LobbySession.OnSocketMessage(EnvOf(), old(Snapshot()), msg).s
      ensures effects == old(effects) + LobbySession.OnSocketMessage(EnvOf(), old(Snapshot()), msg).out
    {
      if active {
        OnMessage(msg);
      }
    }

    method OnGameComplete()
      requires Valid()
      modifies this
      ensures Valid()
      ensures Snapshot() == LobbySession.OnGameComplete(old(Snapshot())).s
      ensures effects == old(effects) + LobbySession.OnGameComplete(old(Snapshot())).out
    {
      LobbyRuns.GameCompletePreservesInv(Snapshot());
      if active {
        joiningGame := false;
        SendMessage(GameComplete);
      }
    }

    method Update(dt: real)
      requires Valid()
      modifies this
      ensures Valid()
      ensures Snapshot() == LobbySession.Update(old(Snapshot()), dt).s
      ensures effects == old(effects) + LobbySession.Update(old(Snapshot()), dt).out
    {
      LobbyRuns.UpdatePreservesInv(Snapshot(), dt);
      if joined {
        keepAliveTimeout := keepAliveTimeout - dt;
        if keepAliveTimeout < 0.0 {
          keepAliveTimeout := KeepAliveInterval;
          SendMessage(KeepAlive);
        }
      }
    }

    /** The name editor's submit handler. */
    method SubmitName(name: string)
      requires Valid()
      modifies this
      ensures Valid()
      ensures Snapshot() == LobbySession.SubmitName(old(Snapshot()), name).s
      ensures effects == old(effects) + LobbySession.SubmitName(old(Snapshot()), name).out
    {
      LobbyRuns.SubmitNamePreservesInv(Snapshot(), name);
      config := config.(playerName := name);
      SendMessage(ChangeName(name));
    }

    method SetRoomProperty(edit: RoomEdit)
      requires Valid()
      modifies this
      ensures Valid()
      ensures Snapshot() == LobbySession.SetRoomProperty(old(Snapshot()), edit).s
      ensures effects == old(effects) + LobbySession.SetRoomProperty(old(Snapshot()), edit).out
    {
      LobbyRuns.SetRoomPropertyPreservesInv(Snapshot(), edit);
      if isLeader && Differs(roomData, edit) {
        roomData := ApplyEdit(roomData, edit);
        SendMessage(SetRoomProps(roomData));
      }
    }

    /** The match request `tryStartGame` assembles from the room, the query parameters and
        the ping test's zones. */
    method BuildMatchArgs(paramRegion: Option<string>, paramZone: Option<string>, getZones: string -> seq<string>)
      returns (matchArgs: PlayGameArgs)
      ensures matchArgs == MatchArgs(Snapshot(), EnvOf(), paramRegion, paramZone, getZones)
    {
      var region := roomData.region;
      if paramRegion.Some? && |paramRegion.value| > 0 {
        region := paramRegion.value;
      }
      var zones := getZones(region);
      if paramZone.Some? && |paramZone.value| > 0 {
        zones := [paramZone.value];
      }
      matchArgs := PlayGameArgs(protocolVersion, region, zones, None);
    }

    /** The turnstile check `tryStartGame` starts: a fresh callback, holding the match
        request and the session it belongs to, is registered and handed to the turnstile. */
    method RequestTurnstile(args: PlayGameArgs)
      modifies this
      ensures Snapshot() == old(Snapshot()).(pending := old(pending)[old(nextCallback) := PendingPlay(args, old(generation))],
                                             nextCallback := old(nextCallback) + 1)
      ensures effects == old(effects) + [VerifyTurnstile(old(roomData).captchaEnabled, old(nextCallback))]
    {
      pending := pending[nextCallback := PendingPlay(args, generation)];
      effects := effects + [VerifyTurnstile(roomData.captchaEnabled, nextCallback)];
      nextCallback := nextCallback + 1;
    }

    method TryStartGame(paramRegion: Option<string>, paramZone: Option<string>, getZones: string -> seq<string>)
      requires Valid()
      modifies this
      ensures Valid()
      ensures Snapshot() == LobbySession.TryStartGame(EnvOf(), old(Snapshot()), paramRegion, paramZone, getZones).s
      ensures effects == old(effects) + LobbySession.TryStartGame(EnvOf(), old(Snapshot()), paramRegion, paramZone, getZones).out
    {
      ghost var before := Snapshot();
      if isLeader && !roomData.findingGame {
        var matchArgs := BuildMatchArgs(paramRegion, paramZone, getZones);
        RequestTurnstile(matchArgs);
        roomData := roomData.(findingGame := true);
      }
      assert Snapshot() == LobbySession.TryStartGame(EnvOf(), before, paramRegion, paramZone, getZones).s;
      LobbyRuns.TryStartPreservesInv(EnvOf(), before, paramRegion, paramZone, getZones);
    }

    /** The turnstile callback as the source writes it. */
    method OnTokenAsWritten(cb: nat, token: string)
      requires Valid()
      modifies this
      ensures Valid()
      ensures Snapshot() == LobbySession.OnTokenAsWritten(old(Snapshot()), cb, token).s
      ensures effects == old(effects) + LobbySession.OnTokenAsWritten(old(Snapshot()), cb, token).out
    {
      if cb in pending {
        var matchArgs := pending[cb].args.(turnstileToken := Some(token));
        pending := pending - {cb};
        SendMessage(PlayGame(matchArgs));
      }
    }

    /** The turnstile callback, dropping a callback left over from an earlier session. */
    method OnToken(cb: nat, token: string)
      requires Valid()
      modifies this
      ensures Valid()
      ensures Snapshot() == LobbySession.OnToken(old(Snapshot()), cb, token).s
      ensures effects == old(effects) + LobbySession.OnToken(old(Snapshot()), cb, token).out
    {
      ghost var before := Snapshot();
      if cb in pending {
        if pending[cb].generation == generation {
          OnTokenAsWritten(cb, token);
        } else {
          pending := pending - {cb};
        }
      }
      assert Snapshot() == LobbySession.OnToken(before, cb, token).s;
      LobbyRuns.TokenPreservesInv(before, cb, token);
    }
  }
}
