/**
 * The WebSocket side of the TREM client's `ExpTechApi`: a controller that opens a
 * socket to a random `lb-N` host, sends its subscription config, dispatches the
 * server's messages to events, and reconnects after an abnormal close unless it has
 * been destroyed. The socket, the timers and the event emitter are outside the model:
 * what the controller asks of them is a list of actions, and what they report back
 * is an input.
 */
module ScriptsSocket {
  import opened Js
  import ScriptsRoute

  /** `WebSocket.readyState`. */
  datatype ReadyState = Connecting | Open | Closing | Closed

  /** `WebSocketCloseCode`. */
  const NormalClosure: int := 1000
  const InsufficientPermission: int := 4000

  /** The delay, in milliseconds, of a config resend and of a reconnect. */
  const RetryDelay: int := 5000

  /**
   * What the controller keeps: its key, the key of the config it sends, whether it has
   * been destroyed, and the state of its current socket (absent before the first one).
   */
  datatype Controller = Controller(key: string, configKey: string, destroyed: bool, ws: Option<ReadyState>)

  /** The inner object of a `data` message: its own type and its own data. */
  datatype Envelope = Envelope(kind: string, data: string)

  /** A message from the server, after `JSON.parse`. */
  datatype Message =
    | Verify
    | Info(code: int, listLength: nat)
    | Data(envelope: Envelope)
    | Ntp(time: int, version: int)
    | OtherMessage   // null, or a type no case of the dispatch names
    | Unparseable    // `JSON.parse` threw: the error is logged and the message dropped

  /** What the controller emits to its listeners. */
  datatype Event =
    | Ready
    | RtsEvent(data: string)
    | EewEvent(envelope: Envelope)
    | ReportEvent(data: string)
    | NtpEvent(time: int, version: int)
    | CloseEvent(code: int)

  /** What the controller asks of the socket, the timers and the emitter. */
  datatype Action =
    | OpenSocket(url: string)
    | SendConfig(key: string)
    | CloseSocket(code: Option<int>)
    | Emit(event: Event)
    | ScheduleResend(delay: int)
    | ScheduleReconnect(delay: int)

  /** A controller's next state, what it asked for, and what it threw, if anything. */
  datatype Outcome = Outcome(state: Controller, actions: seq<Action>, thrown: Option<string>)

  /** The socket after `close()`: one that is connecting or open starts closing. */
  function AfterClose(ws: ReadyState): ReadyState {
    if ws == Connecting || ws == Open then Closing else ws
  }

  /** The current socket after `close()`, when there is one. */
  function CloseCurrent(ws: Option<ReadyState>): Option<ReadyState> {
    match ws
    case Some(state) => Some(AfterClose(state))
    case None => None
  }

  predicate IsOpen(ws: Option<ReadyState>) {
    ws == Some(Open)
  }

  /** An action that opens a socket. */
  predicate Opens(a: Action) {
    a.OpenSocket?
  }

  // ---------------------------------------------------------------------------
  // The handlers
  // ---------------------------------------------------------------------------

  /**
   * `#initWebSocket()` with r the draw of `Math.random()`: nothing once destroyed;
   * otherwise an open socket is closed and a new one opened to `route.websocket()`.
   */
  function Init(s: Controller, r: real): (o: Outcome)
    requires 0.0 <= r < 1.0
    ensures s.destroyed ==> o == Outcome(s, [], None)
    ensures !s.destroyed ==> o.state == s.(ws := Some(Connecting)) && o.thrown == None
                             && o.actions != [] && o.actions[|o.actions| - 1] == OpenSocket(ScriptsRoute.WebSocketUrl(r))
                             && (CloseSocket(None) in o.actions <==> IsOpen(s.ws))
                             && (forall a :: a in o.actions ==> a == CloseSocket(None) || Opens(a))
                             && |o.actions| == (if IsOpen(s.ws) then 2 else 1)
  {
    if s.destroyed then Outcome(s, [], None)
    else
      var closing := if IsOpen(s.ws) then [CloseSocket(None)] else [];
      Outcome(s.(ws := Some(Connecting)), closing + [OpenSocket(ScriptsRoute.WebSocketUrl(r))], None)
  }

  /** The `open` listener: the config is sent on the socket. */
  function HandleOpen(s: Controller): (o: Outcome)
    ensures o.state.ws == Some(Open) && o.actions == [SendConfig(s.configKey)]
    ensures o.state.(ws := s.ws) == s
  {
    Outcome(s.(ws := Some(Open)), [SendConfig(s.configKey)], None)
  }

  /** The `message` listener's dispatch on the message type. */
  function HandleMessage(s: Controller, m: Message): (o: Outcome)
    ensures o.thrown == None && |o.actions| <= 1
    ensures SendConfig(s.configKey) in o.actions <==> m.Verify?
    ensures Emit(Ready) in o.actions <==> m.Info? && m.code == 200 && m.listLength > 0
    ensures CloseSocket(Some(InsufficientPermission)) in o.actions <==> m.Info? && m.code == 200 && m.listLength == 0
    ensures ScheduleResend(RetryDelay) in o.actions <==> m.Info? && m.code == 503
    ensures m.Info? && m.code != 200 && m.code != 503 ==> o.actions == []
    ensures m.Data? && m.envelope.kind == "rts" ==> o.actions == [Emit(RtsEvent(m.envelope.data))]
    ensures m.Data? && m.envelope.kind == "eew" ==> o.actions == [Emit(EewEvent(m.envelope))]
    ensures m.Data? && m.envelope.kind == "report" ==> o.actions == [Emit(ReportEvent(m.envelope.data))]
    ensures m.Data? && m.envelope.kind !in {"rts", "eew", "report"} ==> o.actions == []
    ensures m.Ntp? ==> o.actions == [Emit(NtpEvent(m.time, m.version))]
    ensures m.OtherMessage? || m.Unparseable? ==> o.actions == []
    ensures forall a :: a in o.actions ==> !Opens(a)
    ensures o.state.(ws := s.ws) == s
    ensures o.state.ws != s.ws ==> m.Info? && m.code == 200 && m.listLength == 0
    ensures m.Info? && m.code == 200 && m.listLength == 0 ==> o.state.ws == CloseCurrent(s.ws)
  {
    match m
    case Verify => Outcome(s, [SendConfig(s.configKey)], None)
    case Info(code, n) =>
      if code == 200 then
        if n == 0 then Outcome(s.(ws := CloseCurrent(s.ws)), [CloseSocket(Some(InsufficientPermission))], None)
        else Outcome(s, [Emit(Ready)], None)
      else if code == 503 then Outcome(s, [ScheduleResend(RetryDelay)], None)
      else Outcome(s, [], None)
    case Data(env) =>
      if env.kind == "rts" then Outcome(s, [Emit(RtsEvent(env.data))], None)
      else if env.kind == "eew" then Outcome(s, [Emit(EewEvent(env))], None)
      else if env.kind == "report" then Outcome(s, [Emit(ReportEvent(env.data))], None)
      else Outcome(s, [], None)
    case Ntp(time, version) => Outcome(s, [Emit(NtpEvent(time, version))], None)
    case OtherMessage => Outcome(s, [], None)
    case Unparseable => Outcome(s, [], None)
  }

  /** The `close` listener: the close is always emitted, and a reconnect follows an abnormal one. */
  function HandleClose(s: Controller, code: int): (o: Outcome)
    ensures o.thrown == None && o.state == s.(ws := Some(Closed))
    ensures o.actions != [] && o.actions[0] == Emit(CloseEvent(code))
    ensures ScheduleReconnect(RetryDelay) in o.actions <==> code != NormalClosure && code != InsufficientPermission
    ensures |o.actions| == (if code == NormalClosure || code == InsufficientPermission then 1 else 2)
  {
    var reconnect := if code == NormalClosure || code == InsufficientPermission then [] else [ScheduleReconnect(RetryDelay)];
    Outcome(s.(ws := Some(Closed)), [Emit(CloseEvent(code))] + reconnect, None)
  }

  /** The resend timer set by a 503 fires: the config is sent on the current socket. */
  function ResendDue(s: Controller): (o: Outcome)
    ensures o.state == s && o.thrown == None
    ensures o.actions == [SendConfig(s.configKey)]
  {
    Outcome(s, [SendConfig(s.configKey)], None)
  }

  /** `setApiKey(k)`: both keys change; an open socket gets the new config, otherwise a socket is opened. */
  function SetApiKeyStep(s: Controller, k: string, r: real): (o: Outcome)
    requires 0.0 <= r < 1.0
    ensures o.state.key == k && o.state.configKey == k && o.state.destroyed == s.destroyed && o.thrown == None
    ensures IsOpen(s.ws) ==> o.actions == [SendConfig(k)] && o.state.ws == s.ws
    ensures !IsOpen(s.ws) ==> o == Init(s.(key := k, configKey := k), r)
  {
    var s' := s.(key := k, configKey := k);
    if IsOpen(s.ws) then Outcome(s', [SendConfig(k)], None) else Init(s', r)
  }

  /** The message V8 gives calling `close` on the socket before the first one exists. */
  const NoSocketError: string := "TypeError: Cannot read properties of undefined (reading 'close')"

  /** `destroy()`: the controller is marked destroyed first, then the socket closed normally. */
  function DestroyStep(s: Controller): (o: Outcome)
    ensures o.state.destroyed && o.state.key == s.key && o.state.configKey == s.configKey
    ensures s.ws.None? ==> o.actions == [] && o.thrown == Some(NoSocketError) && o.state.ws.None?
    ensures s.ws.Some? ==> o.actions == [CloseSocket(Some(NormalClosure))] && o.thrown == None
                           && o.state.ws == Some(AfterClose(s.ws.value))
  {
    var s' := s.(destroyed := true);
    if s.ws.None? then Outcome(s', [], Some(NoSocketError))
    else Outcome(s'.(ws := Some(AfterClose(s.ws.value))), [CloseSocket(Some(NormalClosure))], None)
  }

  /**
   * `new ExpTechApi(key)`: a socket is opened only for a non-empty key; `_destroyed`
   * is set afterwards, and reads as false inside the first `#initWebSocket` too.
   */
  function NewController(key: string, r: real): (o: Outcome)
    requires 0.0 <= r < 1.0
    ensures o.state.key == key && o.state.configKey == key && !o.state.destroyed && o.thrown == None
    ensures key == "" ==> o.actions == [] && o.state.ws.None?
    ensures key != "" ==> o.actions == [OpenSocket(ScriptsRoute.WebSocketUrl(r))] && o.state.ws == Some(Connecting)
  {
    var s := Controller(key, key, false, None);
    if key != "" then Init(s, r) else Outcome(s, [], None)
  }

  // ---------------------------------------------------------------------------
  // Runs of inputs
  // ---------------------------------------------------------------------------

  /** What can happen to a controller: a socket or timer event, or a call of its public methods. */
  datatype Input =
    | SocketOpened
    | Received(message: Message)
    | SocketClosed(code: int)
    | ResendTimer
    | ReconnectTimer(draw: real)
    | SetKey(newKey: string, draw: real)
    | DestroyCall

  predicate ValidInput(i: Input) {
    (i.ReconnectTimer? ==> 0.0 <= i.draw < 1.0) && (i.SetKey? ==> 0.0 <= i.draw < 1.0)
  }

  function Step(s: Controller, i: Input): Outcome
    requires ValidInput(i)
  {
    match i
    case SocketOpened => HandleOpen(s)
    case Received(m) => HandleMessage(s, m)
    case SocketClosed(code) => HandleClose(s, code)
    case ResendTimer => ResendDue(s)
    case ReconnectTimer(r) => Init(s, r)
    case SetKey(k, r) => SetApiKeyStep(s, k, r)
    case DestroyCall => DestroyStep(s)
  }

  /** The state after a run of inputs, and everything asked for along the way. */
  function Run(s: Controller, inputs: seq<Input>): (Controller, seq<Action>)
    requires forall k :: 0 <= k < |inputs| ==> ValidInput(inputs[k])
    decreases |inputs|
  {
    if inputs == [] then (s, [])
    else
      var o := Step(s, inputs[0]);
      var (t, rest) := Run(o.state, inputs[1..]);
      (t, o.actions + rest)
  }

  /** No input makes a destroyed controller live again or open a socket. */
  lemma StepWhenDestroyed(s: Controller, i: Input)
    requires ValidInput(i) && s.destroyed
    ensures Step(s, i).state.destroyed
    ensures forall a :: a in Step(s, i).actions ==> !Opens(a)
  {
  }

  /** Once destroyed, a controller never opens a new socket, whatever happens next. */
  lemma {:induction false} DestroyedNeverOpens(s: Controller, inputs: seq<Input>)
    requires forall k :: 0 <= k < |inputs| ==> ValidInput(inputs[k])
    requires s.destroyed
    ensures Run(s, inputs).0.destroyed
    ensures forall a :: a in Run(s, inputs).1 ==> !Opens(a)
    decreases |inputs|
  {
    if inputs != [] {
      var o := Step(s, inputs[0]);
      StepWhenDestroyed(s, inputs[0]);
      DestroyedNeverOpens(o.state, inputs[1..]);
    }
  }

  /** After `destroy()`, nothing that follows opens a socket. */
  lemma DestroyStopsReconnects(s: Controller, inputs: seq<Input>)
    requires forall k :: 0 <= k < |inputs| ==> ValidInput(inputs[k])
    ensures forall a :: a in Run(s, [DestroyCall] + inputs).1 ==> !Opens(a)
  {
    var o := DestroyStep(s);
    assert ([DestroyCall] + inputs)[1..] == inputs;
    DestroyedNeverOpens(o.state, inputs);
  }

  // ---------------------------------------------------------------------------
  // The controller object
  // ---------------------------------------------------------------------------

  /** `ExpTechApi`'s socket side: its fields, and the actions it has asked for so far. */
  class ExpTechApi {
    var key: string
    var configKey: string
    var destroyed: bool
    var ws: Option<ReadyState>
    var outbox: seq<Action>

    function State(): Controller
      reads this
    {
      Controller(key, configKey, destroyed, ws)
    }

    constructor (k: string, r: real)
      requires 0.0 <= r < 1.0
      ensures State() == NewController(k, r).state
      ensures outbox == NewController(k, r).actions
    {
      key := k;
      configKey := k;
      ws := None;
      outbox := [];
      destroyed := false;
      if k != "" {
        ws := Some(Connecting);
        outbox := [OpenSocket(ScriptsRoute.WebSocketUrl(r))];
      }
    }

    /** `#initWebSocket()`. */
    method InitWebSocket(r: real)
      requires 0.0 <= r < 1.0
      modifies this
      ensures State() == Init(old(State()), r).state
      ensures outbox == old(outbox) + Init(old(State()), r).actions
    {
      if destroyed {
        return;
      }
      if ws == Some(Open) {
        outbox := outbox + [CloseSocket(None)];
      }
      ws := Some(Connecting);
      outbox := outbox + [OpenSocket(ScriptsRoute.WebSocketUrl(r))];
    }

    method SetApiKey(k: string, r: real)
      requires 0.0 <= r < 1.0
      modifies this
      ensures State() == SetApiKeyStep(old(State()), k, r).state
      ensures outbox == old(outbox) + SetApiKeyStep(old(State()), k, r).actions
    {
      key := k;
      configKey := k;
      if ws == Some(Open) {
        outbox := outbox + [SendConfig(configKey)];
      } else {
        InitWebSocket(r);
      }
    }

    method Destroy() returns (thrown: Option<string>)
      modifies this
      ensures State() == DestroyStep(old(State())).state
      ensures outbox == old(outbox) + DestroyStep(old(State())).actions
      ensures thrown == DestroyStep(old(State())).thrown
    {
      destroyed := true;
      if ws.None? {
        return Some(NoSocketError);
      }
      ws := Some(AfterClose(ws.value));
      outbox := outbox + [CloseSocket(Some(NormalClosure))];
      return None;
    }

    /** The `open` listener. */
    method OnOpen()
      modifies this
      ensures State() == HandleOpen(old(State())).state
      ensures outbox == old(outbox) + HandleOpen(old(State())).actions
    {
      ws := Some(Open);
      outbox := outbox + [SendConfig(configKey)];
    }

    /** The `message` listener. */
    method OnMessage(m: Message)
      modifies this
      ensures State() == HandleMessage(old(State()), m).state
      ensures outbox == old(outbox) + HandleMessage(old(State()), m).actions
    {
      match m {
        case Verify =>
          outbox := outbox + [SendConfig(configKey)];
        case Info(code, n) =>
          if code == 200 {
            if n == 0 {
              ws := CloseCurrent(ws);
              outbox := outbox + [CloseSocket(Some(InsufficientPermission))];
            } else {
              outbox := outbox + [Emit(Ready)];
            }
          } else if code == 503 {
            outbox := outbox + [ScheduleResend(RetryDelay)];
          }
        case Data(env) =>
          if env.kind == "rts" {
            outbox := outbox + [Emit(RtsEvent(env.data))];
          } else if env.kind == "eew" {
            outbox := outbox + [Emit(EewEvent(env))];
          } else if env.kind == "report" {
            outbox := outbox + [Emit(ReportEvent(env.data))];
          }
        case Ntp(time, version) =>
          outbox := outbox + [Emit(NtpEvent(time, version))];
        case OtherMessage =>
        case Unparseable =>
      }
    }

    /** The resend timer set by a 503 fires. */
    method OnResendDue()
      modifies this
      ensures State() == ResendDue(old(State())).state
      ensures outbox == old(outbox) + ResendDue(old(State())).actions
    {
      outbox := outbox + [SendConfig(configKey)];
    }

    /** The `close` listener. */
    method OnClose(code: int)
      modifies this
      ensures State() == HandleClose(old(State()), code).state
      ensures outbox == old(outbox) + HandleClose(old(State()), code).actions
    {
      ws := Some(Closed);
      outbox := outbox + [Emit(CloseEvent(code))];
      if code != NormalClosure && code != InsufficientPermission {
        outbox := outbox + [ScheduleReconnect(RetryDelay)];
      }
    }
  }
}
