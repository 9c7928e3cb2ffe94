/**
 * The client's connection machine: two flags, four timers and the state of its socket, with the
 * slots of ChatClient as transitions. The socket follows Qt: abort() reports a disconnection only
 * when a connection existed, and disconnectFromHost() during the handshake is put off until it ends.
 */
module ClientSteps {
  /** Pending: connecting, with a disconnectFromHost() waiting for the handshake. */
  datatype Socket = Unconnected | Connecting | Pending | Connected | Closing

  /** What this connection has answered to LOGIN_MSG so far. */
  datatype Answer = NoAnswer | Accepted | Malformed

  datatype Client = Client(
    intentional: bool,      // m_intentionalDisconnect
    wantRelogin: bool,      // m_wantRelogin
    reconnect: bool,        // m_reconnectTimer runs
    login: bool,            // m_loginTimeoutTimer runs
    heartbeat: bool,        // m_heartbeatTimer runs
    heartbeatTimeout: bool, // m_heartbeatTimeout runs
    account: bool,          // m_myId > 0 and a password is set
    socket: Socket,
    answer: Answer          // history, of the present connection
  )

  datatype Action =
    // the user, through the dialogs and the main window
    | UserConnect                     // connectToServer, when not connected
    | UserLogin(valid: bool)          // login, when connected
    | UserLogout(flushed: bool)       // loginout
    | UserSwitch(flushed: bool)       // loginout, then resetLoginState
    | UserRelogin                     // relogin
    // the network
    | Established(dialogLogsIn: bool, valid: bool)
    | Refused                         // the handshake fails: onError
    | Broken(error: bool)             // the connection ends, with or without onError before it
    | LoginAccepted(valid: bool)
    | LoginMalformed
    | LoginRejected
    | HeartbeatReply
    | BadHeader
    // the timers
    | ReconnectTick
    | LoginTimeout
    | HeartbeatTick(idle: bool)
    | HeartbeatLate

  const START := Client(false, false, false, false, false, false, false, Unconnected, NoAnswer)

  predicate IsUser(a: Action) {
    a.UserConnect? || a.UserLogin? || a.UserLogout? || a.UserSwitch? || a.UserRelogin? || (a.Established? && a.dialogLogsIn)
  }

  predicate Linked(s: Socket) {
    s == Connected || s == Closing
  }

  predicate Shaking(s: Socket) {
    s == Connecting || s == Pending
  }

  predicate Enabled(c: Client, a: Action) {
    match a
    case UserConnect => c.socket != Connected
    case UserLogin(_) => c.socket == Connected
    case Established(_, _) => Shaking(c.socket)
    case Refused => Shaking(c.socket)
    case Broken(_) => Linked(c.socket)
    case LoginAccepted(_) => Linked(c.socket)
    case LoginMalformed => Linked(c.socket)
    case LoginRejected => Linked(c.socket)
    case HeartbeatReply => Linked(c.socket)
    case BadHeader => Linked(c.socket)
    case ReconnectTick => c.reconnect
    case LoginTimeout => c.login
    case HeartbeatTick(_) => c.heartbeat
    case HeartbeatLate => c.heartbeatTimeout
    case _ => true
  }

  // ---------- the slots ----------

  function AfterDisconnected(c: Client): Client {
    c.(heartbeat := false, heartbeatTimeout := false, reconnect := c.reconnect || !c.intentional, answer := NoAnswer)
  }

  function AfterError(c: Client): Client {
    c.(reconnect := c.reconnect || !c.intentional)
  }

  /** abort() is silent unless a connection existed. */
  function AfterAbort(c: Client): Client {
    if Linked(c.socket) then AfterDisconnected(c.(socket := Unconnected)) else c.(socket := Unconnected)
  }

  function AfterConnectToServer(c: Client): Client {
    AfterAbort(c.(intentional := false)).(socket := Connecting)
  }

  function AfterLogin(c: Client, valid: bool): Client {
    c.(intentional := false, account := valid, wantRelogin := true, login := true)
  }

  /** disconnectFromHost(): at once when all data is out, else through Closing; put off during the handshake. */
  function AfterHangUp(c: Client, flushed: bool): Client {
    match c.socket
    case Unconnected => c
    case Connecting => c.(socket := Pending)
    case Pending => c
    case Connected => if flushed then AfterDisconnected(c.(socket := Unconnected)) else c.(socket := Closing)
    case Closing => c
  }

  function AfterLoginout(c: Client, flushed: bool): Client {
    if c.intentional then c
    else AfterHangUp(c.(intentional := true, wantRelogin := false, reconnect := false, login := false,
                        heartbeat := false, heartbeatTimeout := false), flushed)
  }

  function AfterReset(c: Client): Client {
    c.(account := false, wantRelogin := false)
  }

  function AfterRelogin(c: Client): Client {
    if c.account then AfterConnectToServer(AfterAbort(c.(intentional := false, wantRelogin := true))) else c
  }

  /** onConnected; the dialog, if it waits for the connection, logs in from the connected signal. */
  function AfterConnected(c: Client, dialogLogsIn: bool, valid: bool): Client {
    var d := c.(reconnect := false, intentional := false);
    if d.wantRelogin then AfterLogin(d, d.account)
    else if dialogLogsIn then AfterLogin(d, valid)
    else d
  }

  /** The end of the handshake; a disconnectFromHost() put off by it comes due. */
  function AfterEstablished(c: Client, dialogLogsIn: bool, valid: bool): Client {
    AfterConnected(c.(socket := Connected, answer := NoAnswer), dialogLogsIn, valid)
      .(socket := if c.socket == Pending then Closing else Connected)
  }

  function AfterReconnectTick(c: Client): Client {
    if c.socket == Unconnected then c.(socket := Connecting) else c
  }

  function AfterHeartbeatLate(c: Client): Client {
    var d := AfterAbort(c.(heartbeatTimeout := false));
    if d.intentional then d else d.(reconnect := true)
  }

  function AfterHeartbeatTick(c: Client, idle: bool): Client {
    if c.socket == Connected && idle then c.(heartbeatTimeout := true) else c
  }

  function AfterAccepted(c: Client, valid: bool): Client {
    c.(login := false, heartbeat := true, answer := Accepted, account := valid)
  }

  function AfterRejected(c: Client): Client {
    AfterReset(c.(login := false, reconnect := false))
  }

  function Next(c: Client, a: Action): Client
    requires Enabled(c, a)
  {
    match a
    case UserConnect => AfterConnectToServer(c)
    case UserLogin(valid) => AfterLogin(c, valid)
    case UserLogout(flushed) => AfterLoginout(c, flushed)
    case UserSwitch(flushed) => AfterReset(AfterLoginout(c, flushed))
    case UserRelogin => AfterRelogin(c)
    case Established(dialogLogsIn, valid) => AfterEstablished(c, dialogLogsIn, valid)
    case Refused => AfterError(c.(socket := Unconnected))
    case Broken(error) => AfterDisconnected((if error then AfterError(c) else c).(socket := Unconnected))
    case LoginAccepted(valid) => AfterAccepted(c, valid)
    case LoginMalformed => c.(login := false, answer := Malformed)
    case LoginRejected => AfterRejected(c)
    case HeartbeatReply => c.(heartbeatTimeout := false)
    case BadHeader => AfterAbort(c)
    case ReconnectTick => AfterReconnectTick(c)
    case LoginTimeout => AfterAbort(c.(login := false))
    case HeartbeatTick(idle) => AfterHeartbeatTick(c, idle)
    case HeartbeatLate => AfterHeartbeatLate(c)
  }

  // ---------- the invariant ----------

  /** After a logout nothing may bring the client back. */
  predicate Quiet(c: Client) {
    c.intentional ==> !c.reconnect && !c.login && !c.wantRelogin
  }

  /** A client that wants to be logged in and has no connection retries. */
  predicate NotStuck(c: Client) {
    c.wantRelogin && c.socket == Unconnected ==> c.reconnect
  }

  /** What NotStuck rests on: the login timer may abort a handshake, silently. */
  predicate LoginTimerSafe(c: Client) {
    && (c.login ==> c.wantRelogin)
    && (c.login && !Linked(c.socket) ==> c.reconnect)
  }

  /** On a connection the login is pending under its timer, or answered. */
  predicate Watched(c: Client) {
    && (Linked(c.socket) && c.wantRelogin && c.answer == NoAnswer ==> c.login)
    && (c.answer == Accepted && (c.socket == Connected || c.wantRelogin) ==> c.heartbeat)
    && (c.heartbeat || c.heartbeatTimeout || c.answer != NoAnswer ==> Linked(c.socket))
    && (c.heartbeatTimeout ==> c.heartbeat) && (c.heartbeat ==> c.answer != NoAnswer)
  }

  /** A logout hangs up: what is left of the connection is closing, or will be once the handshake ends. */
  predicate HungUp(c: Client) {
    c.intentional ==> c.socket != Connected && c.socket != Connecting
  }

  predicate Inv(c: Client) {
    Quiet(c) && HungUp(c) && NotStuck(c) && LoginTimerSafe(c) && Watched(c)
  }

  predicate IsTimer(a: Action) {
    a.ReconnectTick? || a.LoginTimeout? || a.HeartbeatTick? || a.HeartbeatLate?
  }

  lemma {:induction false} UserKeeps(c: Client, a: Action)
    requires Inv(c) && Enabled(c, a) && IsUser(a) && !a.Established?
    ensures Inv(Next(c, a))
  {
  }

  lemma {:induction false} EstablishedKeeps(c: Client, dialogLogsIn: bool, valid: bool)
    requires Inv(c) && Shaking(c.socket)
    ensures Inv(AfterEstablished(c, dialogLogsIn, valid))
  {
  }

  lemma {:induction false} NetworkKeeps(c: Client, a: Action)
    requires Inv(c) && Enabled(c, a) && !IsUser(a) && !a.Established? && !IsTimer(a)
    ensures Inv(Next(c, a))
  {
  }

  lemma {:induction false} TimerKeeps(c: Client, a: Action)
    requires Inv(c) && Enabled(c, a) && IsTimer(a)
    ensures Inv(Next(c, a))
  {
  }

  /** Every slot, on every event, keeps the invariant. */
  lemma {:induction false} StepKeeps(c: Client, a: Action)
    requires Inv(c) && Enabled(c, a)
    ensures Inv(Next(c, a))
  {
    if a.Established? {
      EstablishedKeeps(c, a.dialogLogsIn, a.valid);
    } else if IsUser(a) {
      UserKeeps(c, a);
    } else if IsTimer(a) {
      TimerKeeps(c, a);
    } else {
      NetworkKeeps(c, a);
    }
  }

  // ---------- what becomes of each flag and timer ----------

  predicate IsLogout(a: Action) {
    a.UserLogout? || a.UserSwitch?
  }

  /** The connection is lost, dropped or replaced by this action. */
  predicate Ends(c: Client, a: Action) {
    && Linked(c.socket)
    && (a.UserConnect? || (a.UserRelogin? && c.account) || a.Broken? || a.BadHeader? || a.LoginTimeout? || a.HeartbeatLate?
        || (a.UserLogout? && !c.intentional && c.socket == Connected && a.flushed)
        || (a.UserSwitch? && !c.intentional && c.socket == Connected && a.flushed))
  }

  /** LOGIN_MSG is sent by this action. */
  predicate LogsIn(c: Client, a: Action) {
    a.UserLogin? || (a.Established? && (c.wantRelogin || a.dialogLogsIn))
  }

  /** A logout that is not a second one. */
  predicate LogsOut(c: Client, a: Action) {
    IsLogout(a) && !c.intentional
  }

  /** An intentional disconnect is a logout, until the client connects or logs in again. */
  predicate IntentionalAfter(c: Client, a: Action) {
    IsLogout(a) || (c.intentional && !a.UserConnect? && !a.UserLogin? && !a.Established? && !(a.UserRelogin? && c.account))
  }

  /** The client wants its login back from a login or relogin until a logout, a change of account or a rejection. */
  predicate WantAfter(c: Client, a: Action) {
    || LogsIn(c, a) || (a.UserRelogin? && c.account)
    || (c.wantRelogin && !a.LoginRejected? && !a.UserSwitch? && !LogsOut(c, a))
  }

  /** The retry timer starts when a connection or handshake is lost unintentionally, and runs until the next connection. */
  predicate RetryAfter(c: Client, a: Action) {
    && !a.Established? && !a.LoginRejected? && !LogsOut(c, a)
    && (c.reconnect
        || (Ends(c, a) && (!c.intentional || a.UserConnect? || a.UserRelogin?))
        || ((a.Refused? || a.HeartbeatLate?) && !c.intentional))
  }

  /** The login timer runs from LOGIN_MSG until the reply, the timeout or a logout. */
  predicate LoginTimerAfter(c: Client, a: Action) {
    || LogsIn(c, a)
    || (c.login && !a.LoginAccepted? && !a.LoginMalformed? && !a.LoginRejected? && !a.LoginTimeout? && !LogsOut(c, a))
  }

  /** The heartbeat runs from an accepted login until the connection ends or a logout. */
  predicate HeartbeatAfter(c: Client, a: Action) {
    a.LoginAccepted? || (c.heartbeat && !Ends(c, a) && !LogsOut(c, a))
  }

  /** The reply to a heartbeat is awaited from its sending until it comes, its time is over, the connection ends or a logout. */
  predicate ReplyAwaitedAfter(c: Client, a: Action) {
    || (a.HeartbeatTick? && a.idle && c.socket == Connected)
    || (c.heartbeatTimeout && !a.HeartbeatReply? && !a.HeartbeatLate? && !Ends(c, a) && !LogsOut(c, a))
  }

  /** The account is the one last logged in with, or that the reply named, until a change of account or a rejection. */
  predicate AccountAfter(c: Client, a: Action) {
    match a
    case UserLogin(valid) => valid
    case Established(dialogLogsIn, valid) => if !c.wantRelogin && dialogLogsIn then valid else c.account
    case LoginAccepted(valid) => valid
    case _ => c.account && !a.UserSwitch? && !a.LoginRejected?
  }

  /** A connection that ends leaves nothing, or the handshake that replaces it. */
  function SocketAfter(c: Client, a: Action): Socket {
    if a.UserConnect? || (a.UserRelogin? && c.account) || (a.ReconnectTick? && c.socket == Unconnected) then Connecting
    else if Ends(c, a) || a.Refused? || a.LoginTimeout? || a.HeartbeatLate? then Unconnected
    else if a.Established? then (if c.socket == Pending then Closing else Connected)
    else if LogsOut(c, a) && c.socket == Connected then Closing
    else if LogsOut(c, a) && c.socket == Connecting then Pending
    else c.socket
  }

  /** A new connection has had no answer. */
  function AnswerAfter(c: Client, a: Action): Answer {
    if a.LoginAccepted? then Accepted
    else if a.LoginMalformed? then Malformed
    else if a.Established? || Ends(c, a) then NoAnswer
    else c.answer
  }

  /** The machine told field by field instead of slot by slot. */
  function FieldsAfter(c: Client, a: Action): Client {
    Client(IntentionalAfter(c, a), WantAfter(c, a), RetryAfter(c, a), LoginTimerAfter(c, a), HeartbeatAfter(c, a),
           ReplyAwaitedAfter(c, a), AccountAfter(c, a), SocketAfter(c, a), AnswerAfter(c, a))
  }

  lemma {:induction false} LogoutFields(c: Client, a: Action)
    requires IsLogout(a)
    ensures Next(c, a) == FieldsAfter(c, a)
  {
  }

  lemma {:induction false} ReloginFields(c: Client)
    ensures Next(c, UserRelogin) == FieldsAfter(c, UserRelogin)
  {
  }

  lemma {:induction false} EstablishedFields(c: Client, dialogLogsIn: bool, valid: bool)
    requires Shaking(c.socket)
    ensures var a := Established(dialogLogsIn, valid); Next(c, a) == FieldsAfter(c, a)
  {
  }

  lemma {:induction false} LoginFields(c: Client, a: Action)
    requires Enabled(c, a) && (a.UserConnect? || a.UserLogin?)
    ensures Next(c, a) == FieldsAfter(c, a)
  {
  }

  lemma {:induction false} NetworkFields(c: Client, a: Action)
    requires Enabled(c, a) && !IsUser(a) && !a.Established? && !IsTimer(a)
    ensures Next(c, a) == FieldsAfter(c, a)
  {
  }

  lemma {:induction false} TimerFields(c: Client, a: Action)
    requires Enabled(c, a) && IsTimer(a)
    ensures Next(c, a) == FieldsAfter(c, a)
  {
  }

  /** Both tellings agree: each flag, timer and the socket change on exactly the actions their own rules name. */
  lemma {:induction false} SlotsAreFields(c: Client, a: Action)
    requires Enabled(c, a)
    ensures Next(c, a) == FieldsAfter(c, a)
  {
    if IsLogout(a) {
      LogoutFields(c, a);
    } else if a.UserRelogin? {
      ReloginFields(c);
    } else if a.Established? {
      EstablishedFields(c, a.dialogLogsIn, a.valid);
    } else if IsUser(a) {
      LoginFields(c, a);
    } else if IsTimer(a) {
      TimerFields(c, a);
    } else {
      NetworkFields(c, a);
    }
  }

  ghost predicate Run(c: Client, actions: seq<Action>, d: Client)
    decreases |actions|
  {
    if actions == [] then d == c else Enabled(c, actions[0]) && Run(Next(c, actions[0]), actions[1..], d)
  }

  lemma {:induction false} RunKeeps(c: Client, actions: seq<Action>, d: Client)
    requires Inv(c) && Run(c, actions, d)
    ensures Inv(d)
    decreases |actions|
  {
    if actions != [] {
      StepKeeps(c, actions[0]);
      RunKeeps(Next(c, actions[0]), actions[1..], d);
    }
  }

  /**
   * In every run: after an intentional disconnect no timer may bring the client back; a client that
   * wants its login back and has no connection is retrying, and the next tick starts a handshake; on a
   * connection its login is under the login timer until answered, and an accepted one is under the heartbeat;
   * the heartbeat runs on answered connections only; and a logout leaves no connection up or coming up.
   */
  lemma {:induction false} NeverStuck(actions: seq<Action>, c: Client)
    requires Run(START, actions, c)
    ensures c.intentional ==> !c.reconnect && !c.login && !c.wantRelogin
    ensures c.wantRelogin && c.socket == Unconnected ==>
              Enabled(c, ReconnectTick) && Next(c, ReconnectTick).socket == Connecting
    ensures c.wantRelogin && Linked(c.socket) ==> c.login || c.answer == Malformed || (c.answer == Accepted && c.heartbeat)
    ensures c.login && !Linked(c.socket) && c.wantRelogin ==> c.reconnect
    ensures c.heartbeat ==> Linked(c.socket) && c.answer != NoAnswer
    ensures c.intentional ==> c.socket != Connected && c.socket != Connecting
  {
    RunKeeps(START, actions, c);
  }

  // ---------- reconnecting unasked ----------

  ghost predicate NoUser(actions: seq<Action>) {
    forall i :: 0 <= i < |actions| ==> !IsUser(actions[i])
  }

  /** A logged-out client at rest: no timer that reconnects, and no handshake under way. */
  predicate AtRest(c: Client) {
    c.intentional && !c.reconnect && !c.login && !c.wantRelogin && !Shaking(c.socket)
  }

  lemma {:induction false} RestStep(c: Client, a: Action)
    requires AtRest(c) && Enabled(c, a) && !IsUser(a)
    ensures AtRest(Next(c, a))
  {
  }

  lemma {:induction false} RestRun(c: Client, actions: seq<Action>, d: Client)
    requires AtRest(c) && Run(c, actions, d) && NoUser(actions)
    ensures AtRest(d)
    decreases |actions|
  {
    if actions != [] {
      assert !IsUser(actions[0]);
      RestStep(c, actions[0]);
      assert NoUser(actions[1..]);
      RestRun(Next(c, actions[0]), actions[1..], d);
    }
  }

  /** Some run without the user starts the reconnect timer or a handshake. */
  ghost predicate ComesBack(c: Client) {
    exists actions, d :: Run(c, actions, d) && NoUser(actions) && d.reconnect
  }

  lemma {:induction false} HandshakeComesBack(d: Client)
    requires Shaking(d.socket) && d.intentional && !d.wantRelogin
    ensures ComesBack(d)
  {
    var up := Next(d, Established(false, false));
    var down := Next(up, Broken(false));
    assert Run(down, [], down);
    assert [Broken(false)][1..] == [];
    assert Run(up, [Broken(false)], down);
    var actions := [Established(false, false), Broken(false)];
    assert actions[1..] == [Broken(false)];
    assert Run(d, actions, down);
  }

  /**
   * After loginout the client comes back on its own if and only if a handshake was under way: then
   * onConnected takes m_intentionalDisconnect back before the postponed disconnect is reported.
   */
  lemma {:induction false} UnaskedReconnect(c: Client, flushed: bool)
    requires Inv(c)
    ensures ComesBack(AfterLoginout(c, flushed)) <==> Shaking(c.socket)
  {
    var d := AfterLoginout(c, flushed);
    if Shaking(c.socket) {
      HandshakeComesBack(d);
    } else {
      assert AtRest(d);
      forall actions, e | Run(d, actions, e) && NoUser(actions) ensures !e.reconnect {
        RestRun(d, actions, e);
      }
    }
  }
}
