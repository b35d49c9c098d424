# Team lobby controller

A Dafny model of `LobbyMenu`, the browser client's team-lobby controller, with proofs about
it. The controller joins or creates a team room over one WebSocket per session. It sends
`create` or `join` once the socket opens and keeps the connection alive with `keepAlive`
frames. It reconciles every `state` snapshot from the server with the leader's own edits.
It hands off to matchmaking on `joinGame`, and on `leave` it reports a localised error
text to its owner.

The model has three layers:

- `ErrorText` and `TeamProtocol` hold the pure parts:
  - `errorTypeToString` and its thirteen-row table;
  - the frames of the team protocol;
  - the room record and the edits `setRoomProperty` makes;
  - `getPlayerById`.
- `LobbySession` has one step function per method and socket handler of the class. Each maps
  the controller's fields before the call (a `Session`) to the fields after it, plus the list
  of `Effect`s, in order. An effect is a socket created, silenced, closed or sent on; a
  callback run; or a turnstile check started.
- `Lobby.LobbyMenu` is the class itself. It has the source's fields, and its methods update
  them step by step as the source does. Each public method and handler is proved to leave
  the fields exactly as its step function says. It also appends that function's effects to
  the ghost log `effects`. The constructor and every public method and socket handler keep
  the invariant `Valid()`; `SendMessage`, which the others also call between their own field
  updates, keeps it whenever it holds on entry. The helper methods the handlers are built
  from, such as `Restart` and `OnStateMsg`, promise only the step they perform.

`LobbyRuns` folds the step functions over sequences of events: calls, socket events and
turnstile callbacks firing. It proves the properties that span several calls. Examples are
idempotent `leave`, how a close is classified after what came before, and what a turnstile
callback does once its session is gone. `Step` and `Run` take a flag `checked`. Without it a
turnstile callback runs as the source writes it; with it, the callback runs with the session
check of the corrected version (see "## Findings"). The run-level properties hold for both
unless their statement fixes the flag.

WebSocket objects are numbered in creation order. The handlers that `connect` installs are
closures over the controller, so an event from an older socket still acts on the current
fields. The only exception is a close handler that `connect` replaced with a no-op. The
model records those sockets in `silenced`.

The model follows the code as written, also where it may not do what its authors meant:

- `connect` does not reset `isLeader`, `keepAliveTimeout` or `players`. Each keeps its value
  from the previous session until the first snapshot arrives.
- A pending turnstile callback is not tied to the session that requested it, so it acts on
  whatever session is current when the token arrives; see "## Findings". The field
  `generation`, which counts sessions, is not in the source's class: only the corrected
  callback reads it.

## Model

| member | source | states |
|---|---|---|
| ErrorText.ErrorTypeToString | client/src/ui/lobbyMenu.ts:22-39 | an unknown code gets the `lost_conn` text, and the result is empty only if that text is |
| ErrorText.Lookup | client/src/ui/lobbyMenu.ts:38 | nothing exactly when no row has the code; otherwise the entry of a row with that code |
| ErrorText.TableCodesDistinct | client/src/ui/lobbyMenu.ts:23-37 | the table has the source's thirteen codes, pairwise distinct |
| ErrorText.LookupFindsRow | client/src/ui/lobbyMenu.ts:38 | in a table without repeated codes, looking up row i's code finds row i's entry |
| ErrorText.KnownCodeText | client/src/ui/lobbyMenu.ts:22-39 | each listed code gets its own entry's text, or the `lost_conn` text when that translation is empty |
| ErrorText.UnknownCodeText | client/src/ui/lobbyMenu.ts:38 | any code outside the table gets the `lost_conn` text |
| ErrorText.BehindProxyIsLiteral | client/src/ui/lobbyMenu.ts:36 | `behind_proxy` maps to the literal `"behind_proxy"`, whatever the localisation |
| ErrorText.KickedText | client/src/ui/lobbyMenu.ts:34 | `kicked` maps to the translation of `index-team-kicked` when that is non-empty |
| TeamProtocol.ApplyEdit | client/src/ui/lobbyMenu.ts:348-350 | only the edited property takes the new value; the room changes if and only if the value differs |
| TeamProtocol.GetPlayerById | client/src/ui/lobbyMenu.ts:167-171 | none exactly when no player has the id; otherwise a player with the id that no earlier player shares |
| TeamProtocol.GetPlayerByIdUnique | client/src/ui/lobbyMenu.ts:167-171 | with unique ids the lookup returns the player holding the id |
| LobbySession.SeedRoom | client/src/ui/lobbyMenu.ts:199-206 | the seeded room has the given url, no search under way, no error, and the stored region, mode and auto-fill |
| LobbySession.SendMessage | client/src/ui/lobbyMenu.ts:334-346 | a frame goes out exactly when there is a socket and it is open; a socket that is not open is closed instead; only the socket changes |
| LobbySession.SavedConfig | client/src/ui/lobbyMenu.ts:267-272 | mode and auto-fill are saved, the region only if this client leads, the name untouched |
| LobbySession.Leave | client/src/ui/lobbyMenu.ts:258-281 | inactive: no change and no effect; active: idle with no socket, the socket closed first, the leave callback last |
| LobbySession.Restart | client/src/ui/lobbyMenu.ts:189-215 | session flags set, name and room seeded from config, the old socket silenced then closed and dropped; leadership, roster, countdown, config and callbacks are kept |
| LobbySession.CreateSocket | client/src/ui/lobbyMenu.ts:217-255 | a new connecting socket; on failure, `leave` with `create_failed` or `join_failed` by the `create` flag |
| LobbySession.Connect | client/src/ui/lobbyMenu.ts:183-256 | a no-op when active in the same room; otherwise the old socket is silenced before it is closed, then a new socket opens or the lobby leaves |
| LobbySession.OnOpen | client/src/ui/lobbyMenu.ts:233-245 | once the current socket opens, exactly one `create` or `join` frame goes out on it |
| LobbySession.OnError | client/src/ui/lobbyMenu.ts:219-221 | the current socket, if any, is closed; no other field changes and nothing else happens |
| LobbySession.OnClose | client/src/ui/lobbyMenu.ts:222-232 | a silenced socket's close does nothing; any other close of an active lobby ends it with the close's error text as the last effect |
| LobbySession.OnStateMsg | client/src/ui/lobbyMenu.ts:295-319 | joined, and roster and local id from the frame; leadership taken from the roster; a leader keeps its own region and auto-fill; no effects |
| LobbySession.OnMessage | client/src/ui/lobbyMenu.ts:290-332 | `joinGame` marks the hand-off and forwards the payload; `kicked` and `error` leave with their codes; others change nothing |
| LobbySession.OnSocketMessage | client/src/ui/lobbyMenu.ts:246-251 | frames arriving while inactive are ignored |
| LobbySession.OnGameComplete | client/src/ui/lobbyMenu.ts:283-288 | while active, the hand-off marker is cleared and `gameComplete` sent |
| LobbySession.Update | client/src/ui/lobbyMenu.ts:173-181 | unjoined: no change; joined: the countdown loses dt, and below zero restarts at 45 with one `keepAlive`; never negative while joined |
| LobbySession.SubmitName | client/src/ui/lobbyMenu.ts:611-620 | the name goes to the configuration store and out in a `changeName` frame; the session's own name and every other field are kept |
| LobbySession.SetRoomProperty | client/src/ui/lobbyMenu.ts:348-353 | only a leader's edit that changes the value takes effect; it changes exactly that property and sends the whole new room |
| LobbySession.MatchArgs | client/src/ui/lobbyMenu.ts:357-372 | a non-empty region parameter overrides the room's region; a non-empty zone parameter replaces the zone list |
| LobbySession.TryStartGame | client/src/ui/lobbyMenu.ts:355-381 | no-op unless leader and not searching; otherwise `findingGame` is set at once and a turnstile check starts, with no frame sent yet |
| LobbySession.OnTokenAsWritten | client/src/ui/lobbyMenu.ts:374-377 | the callback as written: sends `playGame` with the token on whatever socket the lobby holds |
| LobbySession.OnToken | client/src/ui/lobbyMenu.ts:374-377 | the corrected callback: one from an earlier session is dropped without an effect |
| Lobby.LobbyMenu.constructor | client/src/ui/lobbyMenu.ts:56-74 | the fields' initial values, an empty effect log, and `Valid()` |
| Lobby.LobbyMenu.SendMessage | client/src/ui/lobbyMenu.ts:334-346 | fields and effect log change exactly as `LobbySession.SendMessage` says; `Valid()` is kept when it held |
| Lobby.LobbyMenu.Leave | client/src/ui/lobbyMenu.ts:258-281 | fields and effect log change exactly as `LobbySession.Leave` says; `Valid()` is kept |
| Lobby.LobbyMenu.Restart | client/src/ui/lobbyMenu.ts:189-215 | fields and effect log change exactly as `LobbySession.Restart` says |
| Lobby.LobbyMenu.CreateSocket | client/src/ui/lobbyMenu.ts:217-255 | fields and effect log change exactly as `LobbySession.CreateSocket` says; `Valid()` is kept |
| Lobby.LobbyMenu.Connect | client/src/ui/lobbyMenu.ts:183-256 | fields and effect log change exactly as `LobbySession.Connect` says; `Valid()` is kept |
| Lobby.LobbyMenu.OnOpen | client/src/ui/lobbyMenu.ts:233-245 | fields and effect log change exactly as `LobbySession.OnOpen` says; `Valid()` is kept |
| Lobby.LobbyMenu.OnError | client/src/ui/lobbyMenu.ts:219-221 | fields and effect log change exactly as `LobbySession.OnError` says; `Valid()` is kept |
| Lobby.LobbyMenu.OnClose | client/src/ui/lobbyMenu.ts:222-232 | fields and effect log change exactly as `LobbySession.OnClose` says; `Valid()` is kept |
| Lobby.LobbyMenu.OnStateMsg | client/src/ui/lobbyMenu.ts:295-319 | fields change exactly as `LobbySession.OnStateMsg` says, with no effect |
| Lobby.LobbyMenu.OnMessage | client/src/ui/lobbyMenu.ts:290-332 | fields and effect log change exactly as `LobbySession.OnMessage` says; `Valid()` is kept |
| Lobby.LobbyMenu.OnSocketMessage | client/src/ui/lobbyMenu.ts:246-251 | fields and effect log change exactly as `LobbySession.OnSocketMessage` says; `Valid()` is kept |
| Lobby.LobbyMenu.OnGameComplete | client/src/ui/lobbyMenu.ts:283-288 | fields and effect log change exactly as `LobbySession.OnGameComplete` says; `Valid()` is kept |
| Lobby.LobbyMenu.Update | client/src/ui/lobbyMenu.ts:173-181 | fields and effect log change exactly as `LobbySession.Update` says; `Valid()` is kept |
| Lobby.LobbyMenu.SubmitName | client/src/ui/lobbyMenu.ts:611-620 | fields and effect log change exactly as `LobbySession.SubmitName` says; `Valid()` is kept |
| Lobby.LobbyMenu.SetRoomProperty | client/src/ui/lobbyMenu.ts:348-353 | fields and effect log change exactly as `LobbySession.SetRoomProperty` says; `Valid()` is kept |
| Lobby.LobbyMenu.BuildMatchArgs | client/src/ui/lobbyMenu.ts:357-372 | the request built equals `LobbySession.MatchArgs` of the current fields |
| Lobby.LobbyMenu.TryStartGame | client/src/ui/lobbyMenu.ts:355-381 | fields and effect log change exactly as `LobbySession.TryStartGame` says; `Valid()` is kept |
| Lobby.LobbyMenu.OnTokenAsWritten | client/src/ui/lobbyMenu.ts:374-377 | fields and effect log change exactly as `LobbySession.OnTokenAsWritten` says; `Valid()` is kept |
| Lobby.LobbyMenu.OnToken | client/src/ui/lobbyMenu.ts:374-377 | fields and effect log change exactly as `LobbySession.OnToken` says; `Valid()` is kept |
| LobbyRuns.InitialInv | client/src/ui/lobbyMenu.ts:56-74 | the initial fields are idle and satisfy the invariant |
| LobbyRuns.StepPreservesInv | client/src/ui/lobbyMenu.ts:173-381 | every call, socket event and callback, as written or corrected, keeps the invariant |
| LobbyRuns.RunPreservesInv | client/src/ui/lobbyMenu.ts:173-381 | every run from a valid state, as written or corrected, ends in a valid state |
| LobbyRuns.RunAppend | client/src/ui/lobbyMenu.ts:173-381 | running two event sequences one after the other is running their concatenation |
| LobbyRuns.LeaveEndsIdle | client/src/ui/lobbyMenu.ts:258-264 | after `leave` there is no session, no socket, no joined flag and no hand-off |
| LobbyRuns.LeaveTextEmptyIff | client/src/ui/lobbyMenu.ts:273-276 | the leave callback gets the empty text if and only if no error was given, when the fallback text is non-empty |
| LobbyRuns.ConnectLeaveRunEndsIdle | client/src/ui/lobbyMenu.ts:183-281 | any sequence of `connect` and `leave` calls ending with `leave` ends idle |
| LobbyRuns.LeaveCbCountAppend | client/src/ui/lobbyMenu.ts:277 | leave-callback counts add up over concatenated effect lists |
| LobbyRuns.RepeatedLeaveCallsBackOnce | client/src/ui/lobbyMenu.ts:258-281 | repeated `leave` calls act like the first one alone, and call the leave callback once if the lobby was active and never otherwise |
| LobbyRuns.StaysUnjoined | client/src/ui/lobbyMenu.ts:222-232 | with no `connect`, snapshot or hand-off, an unjoined session stays unjoined and keeps its `create` flag |
| LobbyRuns.StaysJoined | client/src/ui/lobbyMenu.ts:295-297 | with no `connect` or hand-off, an active joined session stays joined while active |
| LobbyRuns.StaysHandingOff | client/src/ui/lobbyMenu.ts:320-322 | with no `connect` or `onGameComplete`, a session handing off stays so while active |
| LobbyRuns.CloseBeforeSnapshot | client/src/ui/lobbyMenu.ts:222-232 | a close before the first snapshot reports `create_failed` to the creator and `join_failed` to a joiner |
| LobbyRuns.CloseAfterSnapshot | client/src/ui/lobbyMenu.ts:222-232 | a close after a snapshot, with no hand-off since, reports `lost_conn` |
| LobbyRuns.CloseAfterHandOff | client/src/ui/lobbyMenu.ts:222-232 | a close during a hand-off reports no error |
| LobbyRuns.SilencedCloseIsHarmless | client/src/ui/lobbyMenu.ts:211-215 | the close of the socket that `connect` replaced changes nothing and has no effect |
| LobbyRuns.IdleUntilConnect | client/src/ui/lobbyMenu.ts:258-381 | between `leave` and the next `connect` the lobby stays idle, sends nothing, closes nothing and runs no callback |
| LobbyRuns.StepKeepsStale | client/src/ui/lobbyMenu.ts:173-381 | no event makes a callback from an earlier session current again |
| LobbyRuns.StaleCallbackNeverSends | client/src/ui/lobbyMenu.ts:374-377 | in the corrected lobby a callback from an earlier session stays stale through any run, and firing it adds no effect |
| LobbyRuns.StaleScenarioState | client/src/ui/lobbyMenu.ts:183-381 | after create, search, leave and create again, the lobby is in the new room with its socket connecting and the first search pending |
| LobbyRuns.StaleCallbackSendsAsWritten | client/src/ui/lobbyMenu.ts:374-377 | as written, the first session's token, once the new socket is open, adds exactly one effect: its `playGame` sent on the new socket; corrected, it adds none |
| LobbyRuns.LateTokenWhileConnecting | client/src/ui/lobbyMenu.ts:342-344 | as written, a token firing while a created room's socket connects closes it, and its close ends the room with `create_failed` |
| LobbyRuns.StaleTokenClosesConnectingSocket | client/src/ui/lobbyMenu.ts:342-344 | as written, the first session's token arriving before the new socket opens closes it, and the new room ends with `create_failed` |
| LobbyRuns.StaleTokenSparesNextSession | client/src/ui/lobbyMenu.ts:374-377 | corrected, the same token leaves the new room and its connecting socket as they were, with no effect |
| LobbyRuns.LateCloseEndsNextSession | client/src/ui/lobbyMenu.ts:222-261 | the close of a socket `leave` dropped, arriving after the next `connect`, ends the new session with `create_failed` |
| LobbyRuns.SubmittedNameSeedsNextConnect | client/src/ui/lobbyMenu.ts:611-620 | a submitted name, then `leave` and `connect`, makes the new session's name the submitted one |
| LobbyRuns.TokenAfterLeaveSendsNothing | client/src/ui/lobbyMenu.ts:260-261 | as written, a callback firing right after `leave` has no socket and sends nothing |
| LobbyRuns.ConnectRetiresCallbacks | client/src/ui/lobbyMenu.ts:183-215 | starting a session makes every pending callback stale |
| LobbyRuns.LeaderOpensRoom | client/src/ui/lobbyMenu.ts:183-245 | creating a room leads to one `create` frame on the opened socket, carrying the seeded room |
| LobbyRuns.LeaderEditsAfterSnapshot | client/src/ui/lobbyMenu.ts:295-353 | a snapshot naming this client leader, then an auto-fill edit, sends exactly one frame |
| LobbyRuns.LeaderAutoFillScenario | client/src/ui/lobbyMenu.ts:183-353 | create, open, a one-player snapshot and auto-fill off send exactly `create` and one `setRoomProps` with the leader's region and auto-fill off |
| LobbyRuns.LeaderEditSurvivesEcho | client/src/ui/lobbyMenu.ts:295-314 | a leader's region or auto-fill edit survives a snapshot that echoes the older value |
| LobbyRuns.SnapshotOverridesGameMode | client/src/ui/lobbyMenu.ts:295-314 | a leader's game-mode edit is overwritten by a snapshot carrying another value |

## Left out

- `refreshUi` and everything else that touches the page are not modelled. That covers the
  jQuery handlers, the copy toast, the invite button, audio and the URL-hiding toggle. So are
  the UI-only fields `editingName`, `displayedInvalidProtocolModal`, `prevPlayerCount` and
  `hideUrl`. All of it is presentation.
- The kick handler inside `refreshUi` only calls `sendMessage`; a run reaches it through the
  `SendMessageCall` event with a `kick` frame. The name editor's submit handler is
  `SubmitName`, without its UI part: clearing `editingName`, the copy of the name in the
  row being drawn, and `sanitizeNameInput`, whose result is the `name` parameter.
- The socket URL, the room-host lookup, the real browser socket, and JSON encoding and
  decoding are left out. A frame is a tagged record. A socket is a numbered value with a
  ready state. A failed socket construction is the `constructOk = false` parameter.
- The ad SDK, the ping test, query-parameter lookup and the turnstile service are
  collaborators. Zones are a function parameter, the query parameters are `Option` inputs,
  and the turnstile check is an effect. Its answer is a later `TokenReady` event.
- `localization.translate` is a function parameter. Translations are opaque strings.
- The configuration store is modelled as a record of the four keys the lobby uses, not as a
  general key-value store. The rest of the client shares that store, but its writes are not
  modelled: in the model only `leave` and `SubmitName` write it.
- `LobbySession.Update`: `dt` and the countdown are real numbers, not JavaScript
  floating-point values, so rounding is not modelled.
- `LobbySession.TryStartGame`: the turnstile collaborator may call back before
  `verifyTurnstile` returns. The source would then send `playGame` before setting
  `findingGame`. The model always delivers the token as a later event, and it delivers
  each callback at most once: a firing removes it from `pending`, so a second firing of the
  same callback sends nothing, where the source's closure would send `playGame` again.
- `LobbySession.OnStateMsg`: when the roster lacks the local player, the source's handler
  throws right after its first four assignments. The model leaves the fields as those
  assignments set them, with no leadership update and no override. It does not refuse the
  frame.
- `LobbySession.OnMessage`: an `error` frame without a `type` leaves with the empty code,
  as the source's default parameter does. Frames of other types change nothing.
- `BlankRoom`: before the first `connect` the source's room record is an empty object. The
  model uses empty strings, zeros and `false`.
- `ErrorText.ErrorTypeToString`: a code that names an inherited property of a JavaScript
  object, such as `constructor`, is treated like any other unknown code.

## Findings

| source | as written | input that shows it | evidently intended | confidence | as-written member | corrected member |
|---|---|---|---|---|---|---|
| client/src/ui/lobbyMenu.ts:374-377 | the turnstile callback sends `playGame` on whatever socket the lobby holds when the token arrives | leader creates `#a`, starts a search, leaves, creates `#b`; the socket of `#b` opens; then the token for `#a` arrives | a callback from a session that has ended sends nothing, since its request belongs to a room the lobby has left | medium, not executed | LobbyRuns.StaleCallbackSendsAsWritten | LobbyRuns.StaleCallbackNeverSends |
| client/src/ui/lobbyMenu.ts:342-344 | a late turnstile callback calls `sendMessage`, which closes any socket that is not open, including the new room's socket while it is still connecting; that close then ends the new room | leader creates `#a`, starts a search, leaves, creates `#b`; the token for `#a` arrives before the socket of `#b` opens | a callback from a session that has ended leaves the current session alone | medium, not executed | LobbyRuns.StaleTokenClosesConnectingSocket | LobbyRuns.StaleTokenSparesNextSession |
