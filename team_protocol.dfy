/** The records and frames of the team-lobby protocol. Frames are tagged values: the JSON
    text encoding of the `{type, data}` envelope is not part of this model. */
module TeamProtocol {
  import opened Wrappers

  /** The room record. The last three fields are only ever filled in by the server:
      the record the client seeds on connect leaves them undefined (`None`). */
  datatype RoomData = RoomData(
    roomUrl: string,
    region: string,
    gameModeIdx: int,
    autoFill: bool,
    findingGame: bool,
    lastError: string,
    maxPlayers: Option<int>,
    enabledGameModeIdxs: Option<seq<int>>,
    captchaEnabled: Option<bool>)

  datatype Player = Player(playerId: int, inGame: bool, name: string, isLeader: bool)

  /** The match descriptor forwarded to the game-join callback; its contents are opaque here. */
  datatype MatchData = MatchData(descriptor: string)

  datatype PlayGameArgs = PlayGameArgs(
    version: int, region: string, zones: seq<string>, turnstileToken: Option<string>)

  /** Client-to-server frames. */
  datatype ClientMsg =
    | Create(roomData: RoomData, playerName: string)
    | Join(roomUrl: string, playerName: string)
    | SetRoomProps(room: RoomData)
    | ChangeName(name: string)
    | Kick(playerId: int)
    | GameComplete
    | KeepAlive
    | PlayGame(args: PlayGameArgs)

  /** Server-to-client frames; a frame whose type the lobby does not handle is `Unhandled`.
      An `error` frame without a `type` field carries `None`. */
  datatype ServerMsg =
    | State(room: RoomData, players: seq<Player>, localPlayerId: int)
    | JoinGame(matchData: MatchData)
    | KeepAliveAck
    | Kicked
    | Error(errType: Option<string>)
    | Unhandled(msgType: string)

  /** A leader's edit of one room property: the three keys the lobby's controls set. */
  datatype RoomEdit = SetRegion(region: string) | SetGameModeIdx(gameModeIdx: int) | SetAutoFill(autoFill: bool)

  /** Whether the edit would change the room. */
  predicate Differs(room: RoomData, e: RoomEdit) {
    match e
    case SetRegion(v) => room.region != v
    case SetGameModeIdx(v) => room.gameModeIdx != v
    case SetAutoFill(v) => room.autoFill != v
  }

  /** An edit applied to the room: the edited field takes the new value and no other field changes. */
  function ApplyEdit(room: RoomData, e: RoomEdit): (r: RoomData)
    ensures e.SetRegion? ==> r.region == e.region && r == room.(region := r.region)
    ensures e.SetGameModeIdx? ==> r.gameModeIdx == e.gameModeIdx && r == room.(gameModeIdx := r.gameModeIdx)
    ensures e.SetAutoFill? ==> r.autoFill == e.autoFill && r == room.(autoFill := r.autoFill)
    ensures Differs(room, e) <==> r != room
  {
    match e
    case SetRegion(v) => room.(region := v)
    case SetGameModeIdx(v) => room.(gameModeIdx := v)
    case SetAutoFill(v) => room.(autoFill := v)
  }

  /** `getPlayerById`: the first player of the roster with that id, if any. */
  function GetPlayerById(players: seq<Player>, playerId: int): (r: Option<Player>)
    ensures r.None? <==> forall i :: 0 <= i < |players| ==> players[i].playerId != playerId
    ensures r.Some? ==> exists i ::
      0 <= i < |players| && players[i] == r.value && r.value.playerId == playerId &&
      forall j :: 0 <= j < i ==> players[j].playerId != playerId
  {
    if players == [] then None
    else if players[0].playerId == playerId then Some(players[0])
    else
      var r := GetPlayerById(players[1..], playerId);
      assert r.Some? ==> exists i ::
        0 <= i < |players| && players[i] == r.value && r.value.playerId == playerId &&
        forall j :: 0 <= j < i ==> players[j].playerId != playerId
      by {
        if r.Some? {
          var k :| 0 <= k < |players[1..]| && players[1..][k] == r.value && r.value.playerId == playerId &&
            forall j :: 0 <= j < k ==> players[1..][j].playerId != playerId;
          assert players[k + 1] == r.value;
          forall j | 0 <= j < k + 1 ensures players[j].playerId != playerId {
            if j > 0 { assert players[j] == players[1..][j - 1]; }
          }
        }
      }
      r
  }

  /** In a roster with unique ids, the lookup returns exactly the player holding that id. */
  lemma GetPlayerByIdUnique(players: seq<Player>, i: nat)
    requires i < |players|
    requires forall a, b :: 0 <= a < b < |players| ==> players[a].playerId != players[b].playerId
    ensures GetPlayerById(players, players[i].playerId) == Some(players[i])
  {
  }
}
