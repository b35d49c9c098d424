/** Runs of the lobby: every call and socket event the environment can deliver, folded over
    the step functions, with the properties that hold across several of them. */
module LobbyRuns {
  import opened Wrappers
  import opened TeamProtocol
  import opened ErrorText
  import opened LobbySession

  /** A public call, a socket event (from the socket whose id is given, where that matters),
      or the firing of a turnstile callback. */
  datatype Event =
    | ConnectCall(create: bool, roomUrl: string, constructOk: bool)
    | LeaveCall(errType: string)
    | GameCompleteCall
    | UpdateCall(dt: real)
    | SetRoomPropertyCall(edit: RoomEdit)
    | TryStartGameCall(paramRegion: Option<string>, paramZone: Option<string>, getZones: string -> seq<string>)
    | SendMessageCall(frame: ClientMsg)
    | SubmitNameCall(name: string)
    | SocketOpen(src: nat)
    | SocketError
    | SocketClose(src: nat)
    | SocketMessage(inbound: ServerMsg)
    | TokenReady(callback: nat, token: string)

  /** One event. A turnstile callback runs as the source writes it, or, when `checked`, with
      the session check of the corrected callback. */
  function Step(env: Env, checked: bool, s: Session, e: Event): Next {
    match e
    case ConnectCall(c, url, ok) => Connect(env, s, c, url, ok)
    case LeaveCall(err) => Leave(env, s, err)
    case GameCompleteCall => OnGameComplete(s)
    case UpdateCall(dt) => Update(s, dt)
    case SetRoomPropertyCall(edit) => SetRoomProperty(s, edit)
    case TryStartGameCall(pr, pz, zones) => TryStartGame(env, s, pr, pz, zones)
    case SendMessageCall(msg) => SendMessage(s, msg)
    case SubmitNameCall(name) => SubmitName(s, name)
    case SocketOpen(src) => OnOpen(s, src)
    case SocketError => OnError(s)
    case SocketClose(src) => OnClose(env, s, src)
    case SocketMessage(msg) => OnSocketMessage(env, s, msg)
    case TokenReady(cb, token) => if checked then OnToken(s, cb, token) else OnTokenAsWritten(s, cb, token)
  }

  /** The session after `es`, and all effects of `es` in order. */
  function Run(env: Env, checked: bool, s: Session, es: seq<Event>): Next
    decreases |es|
  {
    if es == [] then Next(s, [])
    else
      var n := Step(env, checked, s, es[0]);
      var m := Run(env, checked, n.s, es[1..]);
      Next(m.s, n.out + m.out)
  }

  /** No live socket and no session. */
  ghost predicate Idle(s: Session) {
    !s.active && s.ws.None? && !s.joined && !s.joiningGame
  }

  /** What every reachable session satisfies: an inactive lobby holds no socket and is neither
      joined nor handing off to a game; the current socket was the last one created and its
      close handler is live; callback ids are allocated in order and belong to a session that
      has started; the keep-alive countdown is never negative. */
  ghost predicate Inv(s: Session) {
    (!s.active ==> Idle(s)) &&
    (s.ws.Some? ==> s.ws.value.id + 1 == s.nextSocket && s.ws.value.id !in s.silenced) &&
    (forall id :: id in s.silenced ==> id < s.nextSocket) &&
    (forall cb :: cb in s.pending ==> cb < s.nextCallback && s.pending[cb].generation <= s.generation) &&
    0.0 <= s.keepAliveTimeout
  }

  lemma InitialInv(config: Config)
    ensures Inv(Initial(config)) && Idle(Initial(config))
  {
  }

  lemma RestartPreservesInv(s: Session, create: bool, roomUrl: string)
    requires Inv(s)
    ensures Inv(Restart(s, create, roomUrl).s)
  {
  }

  lemma CreateSocketPreservesInv(env: Env, s: Session, ok: bool)
    requires Inv(s) && s.active && s.ws.None?
    ensures Inv(CreateSocket(env, s, ok).s)
  {
  }

  lemma ConnectPreservesInv(env: Env, s: Session, create: bool, roomUrl: string, ok: bool)
    requires Inv(s)
    ensures Inv(Connect(env, s, create, roomUrl, ok).s)
  {
  }

  lemma LeavePreservesInv(env: Env, s: Session, errType: string)
    requires Inv(s)
    ensures Inv(Leave(env, s, errType).s)
  {
  }

  lemma SendPreservesInv(s: Session, msg: ClientMsg)
    requires Inv(s)
    ensures Inv(SendMessage(s, msg).s)
  {
  }

  lemma MessagePreservesInv(env: Env, s: Session, msg: ServerMsg)
    requires Inv(s)
    ensures Inv(OnSocketMessage(env, s, msg).s)
  {
  }

  lemma SocketClosedPreservesInv(s: Session, src: nat)
    requires Inv(s)
    ensures Inv(SocketClosed(s, src))
  {
  }

  lemma ClosePreservesInv(env: Env, s: Session, src: nat)
    requires Inv(s)
    ensures Inv(OnClose(env, s, src).s)
  {
  }

  lemma TryStartPreservesInv(env: Env, s: Session, pr: Option<string>, pz: Option<string>, zones: string -> seq<string>)
    requires Inv(s)
    ensures Inv(TryStartGame(env, s, pr, pz, zones).s)
  {
  }

  lemma TokenPreservesInv(s: Session, cb: nat, token: string)
    requires Inv(s)
    ensures Inv(OnToken(s, cb, token).s)
  {
  }

  lemma TokenAsWrittenPreservesInv(s: Session, cb: nat, token: string)
    requires Inv(s)
    ensures Inv(OnTokenAsWritten(s, cb, token).s)
  {
  }

  lemma SubmitNamePreservesInv(s: Session, name: string)
    requires Inv(s)
    ensures Inv(SubmitName(s, name).s)
  {
  }

  lemma OpenPreservesInv(s: Session, src: nat)
    requires Inv(s)
    ensures Inv(OnOpen(s, src).s)
  {
  }

  lemma ErrorPreservesInv(s: Session)
    requires Inv(s)
    ensures Inv(OnError(s).s)
  {
  }

  lemma GameCompletePreservesInv(s: Session)
    requires Inv(s)
    ensures Inv(OnGameComplete(s).s)
  {
    SendPreservesInv(s.(joiningGame := false), GameComplete);
  }

  lemma UpdatePreservesInv(s: Session, dt: real)
    requires Inv(s)
    ensures Inv(Update(s, dt).s)
  {
    SendPreservesInv(s.(keepAliveTimeout := KeepAliveInterval), KeepAlive);
  }

  lemma SetRoomPropertyPreservesInv(s: Session, edit: RoomEdit)
    requires Inv(s)
    ensures Inv(SetRoomProperty(s, edit).s)
  {
    SendPreservesInv(s.(roomData := ApplyEdit(s.roomData, edit)), SetRoomProps(ApplyEdit(s.roomData, edit)));
  }

  /** Events that the lobby's owner or its page delivers by calling a method or handler. */
  predicate IsCall(e: Event) {
    e.ConnectCall? || e.LeaveCall? || e.GameCompleteCall? || e.UpdateCall? ||
    e.SetRoomPropertyCall? || e.TryStartGameCall? || e.SendMessageCall? || e.SubmitNameCall?
  }

  lemma CallPreservesInv(env: Env, checked: bool, s: Session, e: Event)
    requires Inv(s) && IsCall(e)
    ensures Inv(Step(env, checked, s, e).s)
  {
    match e
    case ConnectCall(c, url, ok) => ConnectPreservesInv(env, s, c, url, ok);
    case LeaveCall(err) => LeavePreservesInv(env, s, err);
    case GameCompleteCall => GameCompletePreservesInv(s);
    case UpdateCall(dt) => UpdatePreservesInv(s, dt);
    case SetRoomPropertyCall(edit) => SetRoomPropertyPreservesInv(s, edit);
    case TryStartGameCall(pr, pz, zones) => TryStartPreservesInv(env, s, pr, pz, zones);
    case SendMessageCall(msg) => SendPreservesInv(s, msg);
    case SubmitNameCall(name) => SubmitNamePreservesInv(s, name);
  }

  lemma SocketEventPreservesInv(env: Env, checked: bool, s: Session, e: Event)
    requires Inv(s) && !IsCall(e)
    ensures Inv(Step(env, checked, s, e).s)
  {
    match e
    case SocketOpen(src) => OpenPreservesInv(s, src);
    case SocketError => ErrorPreservesInv(s);
    case SocketClose(src) => ClosePreservesInv(env, s, src);
    case SocketMessage(msg) => MessagePreservesInv(env, s, msg);
    case TokenReady(cb, token) =>
      if checked {
        TokenPreservesInv(s, cb, token);
      } else {
        TokenAsWrittenPreservesInv(s, cb, token);
      }
  }

  lemma StepPreservesInv(env: Env, checked: bool, s: Session, e: Event)
    requires Inv(s)
    ensures Inv(Step(env, checked, s, e).s)
  {
    if IsCall(e) {
      CallPreservesInv(env, checked, s, e);
    } else {
      SocketEventPreservesInv(env, checked, s, e);
    }
  }

  /** Every run from a valid session ends in a valid session. */
  lemma {:induction false} RunPreservesInv(env: Env, checked: bool, s: Session, es: seq<Event>)
    requires Inv(s)
    ensures Inv(Run(env, checked, s, es).s)
    decreases |es|
  {
    if es != [] {
      StepPreservesInv(env, checked, s, es[0]);
      RunPreservesInv(env, checked, Step(env, checked, s, es[0]).s, es[1..]);
    }
  }

  /** Running `a` and then `b` is running `a + b`. */
  lemma {:induction false} RunAppend(env: Env, checked: bool, s: Session, a: seq<Event>, b: seq<Event>)
    ensures var m := Run(env, checked, s, a); var n := Run(env, checked, m.s, b);
      Run(env, checked, s, a + b) == Next(n.s, m.out + n.out)
    decreases |a|
  {
    if a == [] {
      assert a + b == b;
    } else {
      var n := Step(env, checked, s, a[0]);
      assert (a + b)[0] == a[0] && (a + b)[1..] == a[1..] + b;
      RunAppend(env, checked, n.s, a[1..], b);
      var m := Run(env, checked, n.s, a[1..]);
      var k := Run(env, checked, m.s, b);
      assert n.out + (m.out + k.out) == (n.out + m.out) + k.out;
    }
  }

  /** `leave` always ends in an idle lobby: no session, no socket. */
  lemma LeaveEndsIdle(env: Env, s: Session, errType: string)
    requires Inv(s)
    ensures Idle(Leave(env, s, errType).s)
  {
  }

  /** The leave callback gets the empty string exactly when `leave` was given no error,
      provided the localisation of the fallback entry is not itself empty. */
  lemma LeaveTextEmptyIff(env: Env, errType: string)
    requires env.translate(LostConnKey) != ""
    ensures LeaveText(env, errType) == "" <==> errType == ""
  {
  }

  /** Any sequence of `connect` and `leave` calls that ends with `leave` leaves the lobby idle. */
  lemma ConnectLeaveRunEndsIdle(env: Env, checked: bool, s: Session, es: seq<Event>, errType: string)
    requires Inv(s)
    requires forall i :: 0 <= i < |es| ==> es[i].ConnectCall? || es[i].LeaveCall?
    ensures Idle(Run(env, checked, s, es + [LeaveCall(errType)]).s)
  {
    RunAppend(env, checked, s, es, [LeaveCall(errType)]);
    RunPreservesInv(env, checked, s, es);
    LeaveEndsIdle(env, Run(env, checked, s, es).s, errType);
  }

  function LeaveCbCount(out: seq<Effect>): nat {
    if out == [] then 0 else (if out[0].LeaveCb? then 1 else 0) + LeaveCbCount(out[1..])
  }

  lemma {:induction false} LeaveCbCountAppend(a: seq<Effect>, b: seq<Effect>)
    ensures LeaveCbCount(a + b) == LeaveCbCount(a) + LeaveCbCount(b)
    decreases |a|
  {
    if a == [] {
      assert a + b == b;
    } else {
      assert (a + b)[0] == a[0] && (a + b)[1..] == a[1..] + b;
      LeaveCbCountAppend(a[1..], b);
    }
  }

  /** `leave` is idempotent: however many times it is called in a row, the leave callback runs
      once if the lobby was active and never if it was not, and only the first call changes
      the session. */
  lemma {:induction false} RepeatedLeaveCallsBackOnce(env: Env, checked: bool, s: Session, es: seq<Event>)
    requires |es| > 0
    requires forall i :: 0 <= i < |es| ==> es[i].LeaveCall?
    ensures Run(env, checked, s, es).s == Leave(env, s, es[0].errType).s
    ensures LeaveCbCount(Run(env, checked, s, es).out) == if s.active then 1 else 0
    decreases |es|
  {
    var n := Leave(env, s, es[0].errType);
    var tail := es[1..];
    assert LeaveCbCount(n.out) == if s.active then 1 else 0 by {
      if s.active {
        var closing := if s.ws.Some? then [CloseSocket(s.ws.value.id)] else [];
        LeaveCbCountAppend(closing, [LeaveCb(LeaveText(env, es[0].errType))]);
      }
    }
    if tail == [] {
      LeaveCbCountAppend(n.out, []);
    } else {
      assert !n.s.active;
      RepeatedLeaveCallsBackOnce(env, checked, n.s, tail);
      LeaveCbCountAppend(n.out, Run(env, checked, n.s, tail).out);
    }
  }

  /** `connect` really starts a new session. */
  ghost predicate Starts(s: Session, create: bool, roomUrl: string) {
    !s.active || roomUrl != s.roomData.roomUrl
  }

  predicate IsSnapshot(e: Event) {
    e.SocketMessage? && e.inbound.State?
  }

  predicate IsHandOff(e: Event) {
    e.SocketMessage? && e.inbound.JoinGame?
  }

  lemma StepStaysUnjoined(env: Env, checked: bool, s: Session, e: Event)
    requires !s.joined && !s.joiningGame
    requires !e.ConnectCall? && !IsSnapshot(e) && !IsHandOff(e)
    ensures var n := Step(env, checked, s, e).s; !n.joined && !n.joiningGame && n.create == s.create
  {
    match e
    case SocketMessage(msg) =>
    case _ =>
  }

  lemma StepStaysJoined(env: Env, checked: bool, s: Session, e: Event)
    requires s.active ==> s.joined && !s.joiningGame
    requires !e.ConnectCall? && !IsHandOff(e)
    ensures var n := Step(env, checked, s, e).s; n.active ==> n.joined && !n.joiningGame
  {
    match e
    case SocketMessage(msg) =>
    case _ =>
  }

  lemma StepStaysHandingOff(env: Env, checked: bool, s: Session, e: Event)
    requires s.active ==> s.joiningGame
    requires !e.ConnectCall? && !e.GameCompleteCall?
    ensures var n := Step(env, checked, s, e).s; n.active ==> n.joiningGame
  {
    match e
    case SocketMessage(msg) =>
    case _ =>
  }

  /** Until the next `connect`, a session that has received no snapshot and no hand-off stays
      unjoined, not handing off, and keeps its `create` flag. */
  lemma {:induction false} StaysUnjoined(env: Env, checked: bool, s: Session, es: seq<Event>)
    requires !s.joined && !s.joiningGame
    requires forall i :: 0 <= i < |es| ==> !es[i].ConnectCall? && !IsSnapshot(es[i]) && !IsHandOff(es[i])
    ensures var m := Run(env, checked, s, es).s; !m.joined && !m.joiningGame && m.create == s.create
    decreases |es|
  {
    if es != [] {
      StepStaysUnjoined(env, checked, s, es[0]);
      StaysUnjoined(env, checked, Step(env, checked, s, es[0]).s, es[1..]);
    }
  }

  /** Until the next `connect` or hand-off, an active joined session stays joined for as long
      as it stays active. */
  lemma {:induction false} StaysJoined(env: Env, checked: bool, s: Session, es: seq<Event>)
    requires s.active ==> s.joined && !s.joiningGame
    requires forall i :: 0 <= i < |es| ==> !es[i].ConnectCall? && !IsHandOff(es[i])
    ensures var m := Run(env, checked, s, es).s; m.active ==> m.joined && !m.joiningGame
    decreases |es|
  {
    if es != [] {
      StepStaysJoined(env, checked, s, es[0]);
      StaysJoined(env, checked, Step(env, checked, s, es[0]).s, es[1..]);
    }
  }

  /** Until the next `connect` or `onGameComplete`, an active session that is handing off to a
      game stays so for as long as it stays active. */
  lemma {:induction false} StaysHandingOff(env: Env, checked: bool, s: Session, es: seq<Event>)
    requires s.active ==> s.joiningGame
    requires forall i :: 0 <= i < |es| ==> !es[i].ConnectCall? && !es[i].GameCompleteCall?
    ensures var m := Run(env, checked, s, es).s; m.active ==> m.joiningGame
    decreases |es|
  {
    if es != [] {
      StepStaysHandingOff(env, checked, s, es[0]);
      StaysHandingOff(env, checked, Step(env, checked, s, es[0]).s, es[1..]);
    }
  }

  /** A close of a live socket before any snapshot arrived reports `create_failed` to the
      creator of the room and `join_failed` to a joiner. */
  lemma CloseBeforeSnapshot(env: Env, checked: bool, s: Session, create: bool, roomUrl: string, es: seq<Event>, src: nat)
    requires Starts(s, create, roomUrl)
    requires forall i :: 0 <= i < |es| ==> !es[i].ConnectCall? && !IsSnapshot(es[i]) && !IsHandOff(es[i])
    ensures var m := Run(env, checked, Connect(env, s, create, roomUrl, true).s, es).s;
      m.active && src !in m.silenced ==>
        var out := OnClose(env, m, src).out;
        out[|out| - 1] == LeaveCb(ErrorTypeToString(if create then "create_failed" else "join_failed", env.translate))
  {
    StaysUnjoined(env, checked, Connect(env, s, create, roomUrl, true).s, es);
  }

  /** A close after a snapshot, with no hand-off since, reports `lost_conn`. */
  lemma CloseAfterSnapshot(env: Env, checked: bool, s: Session, room: RoomData, players: seq<Player>, id: int, es: seq<Event>, src: nat)
    requires s.active && !s.joiningGame
    requires forall i :: 0 <= i < |es| ==> !es[i].ConnectCall? && !IsHandOff(es[i])
    ensures var m := Run(env, checked, Step(env, checked, s, SocketMessage(State(room, players, id))).s, es).s;
      m.active && src !in m.silenced ==>
        var out := OnClose(env, m, src).out;
        out[|out| - 1] == LeaveCb(ErrorTypeToString("lost_conn", env.translate))
  {
    StaysJoined(env, checked, Step(env, checked, s, SocketMessage(State(room, players, id))).s, es);
  }

  /** A close after a `joinGame` frame, with no `onGameComplete` since, reports no error: the
      hand-off owns the outcome. */
  lemma CloseAfterHandOff(env: Env, checked: bool, s: Session, md: MatchData, es: seq<Event>, src: nat)
    requires s.active
    requires forall i :: 0 <= i < |es| ==> !es[i].ConnectCall? && !es[i].GameCompleteCall?
    ensures var m := Run(env, checked, Step(env, checked, s, SocketMessage(JoinGame(md))).s, es).s;
      m.active && src !in m.silenced ==> OnClose(env, m, src).out[|OnClose(env, m, src).out| - 1] == LeaveCb("")
  {
    StaysHandingOff(env, checked, Step(env, checked, s, SocketMessage(JoinGame(md))).s, es);
  }

  /** The close handler of a socket replaced by `connect` never touches the new session. */
  lemma SilencedCloseIsHarmless(env: Env, s: Session, create: bool, roomUrl: string, ok: bool)
    requires Inv(s) && s.ws.Some? && Starts(s, create, roomUrl)
    ensures var n := Connect(env, s, create, roomUrl, ok).s;
      OnClose(env, n, s.ws.value.id) == Next(n, [])
  {
  }

  /** Between a `leave` and the next `connect` the lobby transmits nothing, closes nothing and
      calls no callback: the only effect any event can still have is to start a turnstile
      check; in particular no `playGame` frame goes out. */
  lemma {:induction false} IdleUntilConnect(env: Env, checked: bool, s: Session, es: seq<Event>)
    requires Inv(s) && !s.active
    requires forall i :: 0 <= i < |es| ==> !es[i].ConnectCall?
    ensures Idle(Run(env, checked, s, es).s)
    ensures forall i :: 0 <= i < |Run(env, checked, s, es).out| ==> Run(env, checked, s, es).out[i].VerifyTurnstile?
    decreases |es|
  {
    if es != [] {
      var n := Step(env, checked, s, es[0]);
      StepPreservesInv(env, checked, s, es[0]);
      IdleUntilConnect(env, checked, n.s, es[1..]);
      var m := Run(env, checked, n.s, es[1..]);
      assert Run(env, checked, s, es).out == n.out + m.out;
    }
  }

  /** Callback `cb` was requested in an earlier session than the current one. */
  ghost predicate Stale(s: Session, cb: nat) {
    cb < s.nextCallback && (cb in s.pending ==> s.pending[cb].generation < s.generation)
  }

  lemma LeaveKeepsStale(env: Env, s: Session, errType: string, cb: nat)
    requires Stale(s, cb)
    ensures Stale(Leave(env, s, errType).s, cb)
  {
  }

  lemma SendKeepsStale(s: Session, msg: ClientMsg, cb: nat)
    requires Stale(s, cb)
    ensures Stale(SendMessage(s, msg).s, cb)
  {
  }

  lemma ConnectKeepsStale(env: Env, s: Session, create: bool, roomUrl: string, ok: bool, cb: nat)
    requires Stale(s, cb)
    ensures Stale(Connect(env, s, create, roomUrl, ok).s, cb)
  {
  }

  lemma MessageKeepsStale(env: Env, s: Session, msg: ServerMsg, cb: nat)
    requires Stale(s, cb)
    ensures Stale(OnSocketMessage(env, s, msg).s, cb)
  {
  }

  lemma CloseKeepsStale(env: Env, s: Session, src: nat, cb: nat)
    requires Stale(s, cb)
    ensures Stale(OnClose(env, s, src).s, cb)
  {
  }

  lemma TryStartKeepsStale(env: Env, s: Session, pr: Option<string>, pz: Option<string>, zones: string -> seq<string>, cb: nat)
    requires Stale(s, cb)
    ensures Stale(TryStartGame(env, s, pr, pz, zones).s, cb)
  {
  }

  lemma TokenKeepsStale(s: Session, c: nat, token: string, cb: nat)
    requires Stale(s, cb)
    ensures Stale(OnToken(s, c, token).s, cb)
  {
  }

  lemma TokenAsWrittenKeepsStale(s: Session, c: nat, token: string, cb: nat)
    requires Stale(s, cb)
    ensures Stale(OnTokenAsWritten(s, c, token).s, cb)
  {
  }

  lemma OpenKeepsStale(s: Session, src: nat, cb: nat)
    requires Stale(s, cb)
    ensures Stale(OnOpen(s, src).s, cb)
  {
  }

  lemma ErrorKeepsStale(s: Session, cb: nat)
    requires Stale(s, cb)
    ensures Stale(OnError(s).s, cb)
  {
  }

  lemma CallKeepsStale(env: Env, checked: bool, s: Session, e: Event, cb: nat)
    requires Stale(s, cb) && IsCall(e)
    ensures Stale(Step(env, checked, s, e).s, cb)
  {
    match e
    case ConnectCall(c, url, ok) => ConnectKeepsStale(env, s, c, url, ok, cb);
    case LeaveCall(err) => LeaveKeepsStale(env, s, err, cb);
    case GameCompleteCall => SendKeepsStale(s.(joiningGame := false), GameComplete, cb);
    case UpdateCall(dt) => SendKeepsStale(s.(keepAliveTimeout := KeepAliveInterval), KeepAlive, cb);
    case SetRoomPropertyCall(edit) => SendKeepsStale(s.(roomData := ApplyEdit(s.roomData, edit)), SetRoomProps(ApplyEdit(s.roomData, edit)), cb);
    case TryStartGameCall(pr, pz, zones) => TryStartKeepsStale(env, s, pr, pz, zones, cb);
    case SendMessageCall(msg) => SendKeepsStale(s, msg, cb);
    case SubmitNameCall(name) => SendKeepsStale(s.(config := s.config.(playerName := name)), ChangeName(name), cb);
  }

  lemma SocketEventKeepsStale(env: Env, checked: bool, s: Session, e: Event, cb: nat)
    requires Stale(s, cb) && !IsCall(e)
    ensures Stale(Step(env, checked, s, e).s, cb)
  {
    match e
    case SocketOpen(src) => OpenKeepsStale(s, src, cb);
    case SocketError => ErrorKeepsStale(s, cb);
    case SocketClose(src) => CloseKeepsStale(env, s, src, cb);
    case SocketMessage(msg) => MessageKeepsStale(env, s, msg, cb);
    case TokenReady(c, token) =>
      if checked {
        TokenKeepsStale(s, c, token, cb);
      } else {
        TokenAsWrittenKeepsStale(s, c, token, cb);
      }
  }

  lemma StepKeepsStale(env: Env, checked: bool, s: Session, e: Event, cb: nat)
    requires Stale(s, cb)
    ensures Stale(Step(env, checked, s, e).s, cb)
  {
    if IsCall(e) {
      CallKeepsStale(env, checked, s, e, cb);
    } else {
      SocketEventKeepsStale(env, checked, s, e, cb);
    }
  }

  /** In the corrected lobby, whose turnstile callbacks all carry the session check, a callback
      requested in a session that has since been replaced by `connect` stays stale through any
      later events (callback ids are never reused), so it never transmits when it fires. */
  lemma {:induction false} StaleCallbackNeverSends(env: Env, s: Session, es: seq<Event>, cb: nat, token: string)
    requires Stale(s, cb)
    ensures Stale(Run(env, true, s, es).s, cb)
    ensures Run(env, true, s, es + [TokenReady(cb, token)]).out == Run(env, true, s, es).out
    decreases |es|
  {
    if es != [] {
      StepKeepsStale(env, true, s, es[0], cb);
      StaleCallbackNeverSends(env, Step(env, true, s, es[0]).s, es[1..], cb, token);
    }
    RunAppend(env, true, s, es, [TokenReady(cb, token)]);
  }

  /** The leader of room `#a` starts a search, leaves, and creates room `#b`. */
  function StaleScenario(zones: string -> seq<string>): seq<Event> {
    [ConnectCall(true, "#a", true), TryStartGameCall(None, None, zones), LeaveCall(""), ConnectCall(true, "#b", true)]
  }

  /** The request the search in room `#a` captured. */
  function StaleArgs(env: Env, config: Config, zones: string -> seq<string>): PlayGameArgs {
    PlayGameArgs(env.protocolVersion, config.region, zones(config.region), None)
  }

  /** After the scenario, either lobby is in room `#b`, whose socket is still connecting, and
      the search callback of room `#a` is still pending. */
  lemma StaleScenarioState(env: Env, checked: bool, config: Config, zones: string -> seq<string>)
    ensures var m := Run(env, checked, Initial(config), StaleScenario(zones)).s;
      m.active && m.create && !m.joined && !m.joiningGame && m.roomData.roomUrl == "#b" &&
      m.ws == Some(Socket(1, Connecting)) && m.silenced == {} && m.generation == 2 &&
      m.pending == map[0 := PendingPlay(StaleArgs(env, config, zones), 1)]
  {
    var es := StaleScenario(zones);
    var s0 := Initial(config);
    var s1 := Connect(env, s0, true, "#a", true).s;
    assert s1.active && s1.isLeader && !s1.roomData.findingGame && s1.roomData.region == config.region;
    assert s1.ws == Some(Socket(0, Connecting)) && s1.generation == 1 && s1.nextCallback == 0;
    var s2 := TryStartGame(env, s1, None, None, zones).s;
    assert s2.pending == map[0 := PendingPlay(StaleArgs(env, config, zones), 1)];
    var s3 := Leave(env, s2, "").s;
    assert !s3.active && s3.ws.None? && s3.pending == s2.pending && s3.nextSocket == 1 && s3.generation == 1;
    var s4 := Connect(env, s3, true, "#b", true).s;
    assert s4.ws == Some(Socket(1, Connecting)) && s4.generation == 2 && s4.pending == s2.pending;
    assert Run(env, checked, s3, es[3..]).s == s4;
    assert Run(env, checked, s2, es[2..]).s == s4;
    assert Run(env, checked, s1, es[1..]).s == s4;
  }

  /** The source's callback, fired late: once the socket of room `#b` has opened, the token for
      room `#a` makes the callback as written send that room's `playGame` request on the
      socket of room `#b`. The corrected callback sends nothing. */
  lemma StaleCallbackSendsAsWritten(env: Env, config: Config, zones: string -> seq<string>, token: string)
    ensures var es := StaleScenario(zones) + [SocketOpen(1)];
      Run(env, false, Initial(config), es + [TokenReady(0, token)]).out ==
        Run(env, false, Initial(config), es).out +
        [Send(1, PlayGame(StaleArgs(env, config, zones).(turnstileToken := Some(token))))] &&
      Run(env, true, Initial(config), es + [TokenReady(0, token)]).out == Run(env, true, Initial(config), es).out
  {
    var es := StaleScenario(zones) + [SocketOpen(1)];
    StaleScenarioState(env, false, config, zones);
    StaleScenarioState(env, true, config, zones);
    RunAppend(env, false, Initial(config), StaleScenario(zones), [SocketOpen(1)]);
    RunAppend(env, true, Initial(config), StaleScenario(zones), [SocketOpen(1)]);
    RunAppend(env, false, Initial(config), es, [TokenReady(0, token)]);
    RunAppend(env, true, Initial(config), es, [TokenReady(0, token)]);
  }

  /** A pending search callback firing while the current socket of an unjoined room that
      this client creates is still connecting, followed by that socket's close. */
  lemma LateTokenWhileConnecting(env: Env, m: Session, token: string)
    requires m.active && m.create && !m.joined && !m.joiningGame && 0 in m.pending
    requires m.ws == Some(Socket(1, Connecting)) && 1 !in m.silenced
    ensures var r := Run(env, false, m, [TokenReady(0, token), SocketClose(1)]);
      !r.s.active && r.s.ws.None? && r.out == [CloseSocket(1), CloseSocket(1), LeaveCb(LeaveText(env, "create_failed"))]
  {
    var n := OnTokenAsWritten(m, 0, token);
    assert n.out == [CloseSocket(1)] && n.s.ws == Some(Socket(1, Closing)) && n.s.active && !n.s.joined;
    var k := OnClose(env, n.s, 1);
    assert k.out == [CloseSocket(1), LeaveCb(LeaveText(env, "create_failed"))];
    var two := [TokenReady(0, token), SocketClose(1)];
    assert Step(env, false, m, two[0]) == n && two[1..] == [SocketClose(1)];
    assert Run(env, false, n.s, two[1..]) == Next(k.s, k.out + []);
  }

  /** As written, a late token that arrives while the socket of room `#b` is still connecting
      makes `sendMessage` close that socket, and its close handler then ends room `#b` with
      `create_failed` (the handler's `leave` asks the closed socket to close once more). */
  lemma StaleTokenClosesConnectingSocket(env: Env, config: Config, zones: string -> seq<string>, token: string)
    ensures var es := StaleScenario(zones);
      var m := Run(env, false, Initial(config), es + [TokenReady(0, token), SocketClose(1)]);
      !m.s.active && m.s.ws.None? &&
      m.out == Run(env, false, Initial(config), es).out +
               [CloseSocket(1), CloseSocket(1), LeaveCb(LeaveText(env, "create_failed"))]
  {
    StaleScenarioState(env, false, config, zones);
    RunAppend(env, false, Initial(config), StaleScenario(zones), [TokenReady(0, token), SocketClose(1)]);
    LateTokenWhileConnecting(env, Run(env, false, Initial(config), StaleScenario(zones)).s, token);
  }

  /** The corrected callback, given the same late token, leaves room `#b` and its connecting
      socket alone. */
  lemma StaleTokenSparesNextSession(env: Env, config: Config, zones: string -> seq<string>, token: string)
    ensures var m := Run(env, true, Initial(config), StaleScenario(zones) + [TokenReady(0, token)]);
      m.s.active && m.s.ws == Some(Socket(1, Connecting)) && m.s.roomData.roomUrl == "#b" &&
      m.out == Run(env, true, Initial(config), StaleScenario(zones)).out
  {
    StaleScenarioState(env, true, config, zones);
    RunAppend(env, true, Initial(config), StaleScenario(zones), [TokenReady(0, token)]);
  }

  /** `leave` closes its socket without neutralising the close handler, so when that close
      arrives only after the next `connect`, it ends the new session: here room `#b` is left
      with `create_failed` before its socket has even opened. */
  lemma LateCloseEndsNextSession(env: Env, checked: bool, config: Config)
    ensures var m := Run(env, checked, Initial(config),
              [ConnectCall(true, "#a", true), LeaveCall(""), ConnectCall(true, "#b", true), SocketClose(0)]);
      !m.s.active && m.s.ws.None? && m.out[|m.out| - 1] == LeaveCb(LeaveText(env, "create_failed"))
  {
    var es := [ConnectCall(true, "#a", true), LeaveCall(""), ConnectCall(true, "#b", true), SocketClose(0)];
    var s1 := Connect(env, Initial(config), true, "#a", true).s;
    assert s1.ws == Some(Socket(0, Connecting)) && s1.silenced == {};
    var s2 := Leave(env, s1, "").s;
    assert s2.ws.None? && !s2.active && s2.silenced == {} && s2.nextSocket == 1;
    var s3 := Connect(env, s2, true, "#b", true).s;
    assert s3.active && s3.create && !s3.joined && !s3.joiningGame && s3.ws == Some(Socket(1, Connecting)) && 0 !in s3.silenced;
    var n4 := OnClose(env, s3, 0);
    assert !n4.s.active && n4.s.ws.None? && n4.out == [CloseSocket(1), LeaveCb(LeaveText(env, "create_failed"))];
    assert Run(env, checked, s3, es[3..]) == n4;
    assert Run(env, checked, s2, es[2..]).s == n4.s;
    assert Run(env, checked, s1, es[1..]).s == n4.s;
    assert Run(env, checked, s1, es[1..]).out[|Run(env, checked, s1, es[1..]).out| - 1] == n4.out[1];
  }

  /** A name submitted in the name editor is the one the next session offers, whatever the
      lobby was doing when it was submitted. */
  lemma SubmittedNameSeedsNextConnect(env: Env, checked: bool, s: Session, name: string, errType: string,
                                      create: bool, roomUrl: string, ok: bool)
    ensures Run(env, checked, s, [SubmitNameCall(name), LeaveCall(errType), ConnectCall(create, roomUrl, ok)]).s.playerName == name
  {
    var es := [SubmitNameCall(name), LeaveCall(errType), ConnectCall(create, roomUrl, ok)];
    var s1 := SubmitName(s, name).s;
    var s2 := Leave(env, s1, errType).s;
    assert !s2.active && s2.config.playerName == name;
    var s3 := Connect(env, s2, create, roomUrl, ok).s;
    assert s3.playerName == name;
    assert Run(env, checked, s2, es[2..]).s == s3;
    assert Run(env, checked, s1, es[1..]).s == s3;
  }

  /** The source's own callback is harmless when it fires right after `leave`: `leave` drops
      the socket, so there is nothing to send the request on. */
  lemma TokenAfterLeaveSendsNothing(env: Env, s: Session, errType: string, cb: nat, token: string)
    requires Inv(s)
    ensures OnTokenAsWritten(Leave(env, s, errType).s, cb, token).out == []
  {
  }

  /** `connect` makes every outstanding turnstile callback stale. */
  lemma ConnectRetiresCallbacks(env: Env, s: Session, create: bool, roomUrl: string, ok: bool, cb: nat)
    requires Inv(s) && Starts(s, create, roomUrl) && cb in s.pending
    ensures var n := Connect(env, s, create, roomUrl, ok).s;
      cb in n.pending && Stale(n, cb)
  {
  }

  /** The first half of the scenario below: creating the room and the socket opening. */
  lemma LeaderOpensRoom(env: Env, checked: bool, config: Config)
    ensures var m := Run(env, checked, Initial(config), [ConnectCall(true, "#abcd", true), SocketOpen(0)]);
      m.out == [OpenSocket(0), Send(0, Create(SeedRoom(config, "#abcd"), config.playerName))] &&
      m.s.active && m.s.ws == Some(Socket(0, Open)) && m.s.roomData == SeedRoom(config, "#abcd")
  {
    var es := [ConnectCall(true, "#abcd", true), SocketOpen(0)];
    var n1 := Connect(env, Initial(config), true, "#abcd", true);
    assert n1.s.ws == Some(Socket(0, Connecting)) && n1.s.create && n1.out == [OpenSocket(0)];
    var n2 := OnOpen(n1.s, 0);
    assert n2.out == [Send(0, Create(SeedRoom(config, "#abcd"), config.playerName))];
    assert Run(env, checked, n1.s, es[1..]) == Next(n2.s, n2.out);
  }

  /** The second half: the snapshot naming this client the only player and leader, then the
      auto-fill edit. */
  lemma LeaderEditsAfterSnapshot(env: Env, checked: bool, s: Session, room: RoomData, p: Player)
    requires s.active && s.ws.Some? && s.ws.value.ready == Open && s.roomData.autoFill && p.isLeader
    ensures Run(env, checked, s, [SocketMessage(State(room, [p], p.playerId)), SetRoomPropertyCall(SetAutoFill(false))]).out ==
            [Send(s.ws.value.id, SetRoomProps(room.(region := s.roomData.region, autoFill := false)))]
  {
    var es := [SocketMessage(State(room, [p], p.playerId)), SetRoomPropertyCall(SetAutoFill(false))];
    assert GetPlayerById([p], p.playerId) == Some(p);
    var n3 := OnSocketMessage(env, s, State(room, [p], p.playerId));
    assert n3.out == [] && n3.s.isLeader && n3.s.ws == s.ws;
    assert n3.s.roomData == room.(region := s.roomData.region, autoFill := true);
    var n4 := SetRoomProperty(n3.s, SetAutoFill(false));
    assert Run(env, checked, n3.s, es[1..]).out == n4.out;
  }

  /** A leader opens room `#abcd`, the server answers with a snapshot whose roster is just this
      client as leader, and the leader turns auto-fill off: the only frames are the `create`
      request and one `setRoomProps` carrying the snapshot's room with the leader's own region
      and auto-fill off. */
  lemma LeaderAutoFillScenario(env: Env, checked: bool, config: Config, room: RoomData, p: Player)
    requires config.teamAutoFill && p.isLeader
    ensures Run(env, checked, Initial(config),
              [ConnectCall(true, "#abcd", true), SocketOpen(0), SocketMessage(State(room, [p], p.playerId)),
               SetRoomPropertyCall(SetAutoFill(false))]).out ==
            [OpenSocket(0), Send(0, Create(SeedRoom(config, "#abcd"), config.playerName)),
             Send(0, SetRoomProps(room.(region := config.region, autoFill := false)))]
  {
    var a := [ConnectCall(true, "#abcd", true), SocketOpen(0)];
    var b := [SocketMessage(State(room, [p], p.playerId)), SetRoomPropertyCall(SetAutoFill(false))];
    LeaderOpensRoom(env, checked, config);
    LeaderEditsAfterSnapshot(env, checked, Run(env, checked, Initial(config), a).s, room, p);
    RunAppend(env, checked, Initial(config), a, b);
    assert a + b == [ConnectCall(true, "#abcd", true), SocketOpen(0), SocketMessage(State(room, [p], p.playerId)),
                     SetRoomPropertyCall(SetAutoFill(false))];
  }

  /** The reconciler keeps a leader's own edit of `region` or `autoFill` when the server echoes
      a value from before that edit. */
  lemma LeaderEditSurvivesEcho(s: Session, e: RoomEdit, room: RoomData, players: seq<Player>, id: int)
    requires s.isLeader && (e.SetRegion? || e.SetAutoFill?)
    requires GetPlayerById(players, id).Some? && GetPlayerById(players, id).value.isLeader
    ensures var n := OnStateMsg(SetRoomProperty(s, e).s, room, players, id).s;
      n.roomData == room.(region := ApplyEdit(s.roomData, e).region, autoFill := ApplyEdit(s.roomData, e).autoFill) &&
      (e.SetRegion? ==> n.roomData.region == e.region) &&
      (e.SetAutoFill? ==> n.roomData.autoFill == e.autoFill)
  {
  }

  /** For every other room property the snapshot wins: a leader's `gameModeIdx` edit is
      overwritten by an echo of the previous value. */
  lemma SnapshotOverridesGameMode(s: Session, v: int, room: RoomData, players: seq<Player>, id: int)
    requires s.isLeader && s.roomData.gameModeIdx != v && room.gameModeIdx != v
    ensures OnStateMsg(SetRoomProperty(s, SetGameModeIdx(v)).s, room, players, id).s.roomData.gameModeIdx != v
  {
  }
}
