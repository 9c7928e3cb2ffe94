/** The slots of the Qt client, each proved to be the transition of ClientSteps it stands for. */
module QtClient {
  import opened ClientSteps

  predicate Usable(id: int, pwd: string) {
    id > 0 && pwd != ""
  }

  class ChatClient {
    var intentional: bool
    var wantRelogin: bool
    var reconnectTimer: bool
    var loginTimeoutTimer: bool
    var heartbeatTimer: bool
    var heartbeatTimeout: bool
    var myId: int
    var password: string
    var socket: Socket
    var lastDataTime: int
    ghost var answer: Answer

    constructor (now: int)
      ensures View() == START && lastDataTime == now
    {
      intentional, wantRelogin := false, false;
      reconnectTimer, loginTimeoutTimer, heartbeatTimer, heartbeatTimeout := false, false, false, false;
      myId, password, socket, lastDataTime, answer := -1, "", Unconnected, now, NoAnswer;
    }

    ghost function View(): Client
      reads this
    {
      Client(intentional, wantRelogin, reconnectTimer, loginTimeoutTimer, heartbeatTimer, heartbeatTimeout,
             Usable(myId, password), socket, answer)
    }

    predicate SameAccount(id: int, pwd: string)
      reads this
    {
      myId == id && password == pwd
    }

    method OnDisconnected()
      modifies this
      ensures View() == AfterDisconnected(old(View()))
      ensures !heartbeatTimer && !heartbeatTimeout && (reconnectTimer <==> old(reconnectTimer) || !intentional)
      ensures SameAccount(old(myId), old(password)) && lastDataTime == old(lastDataTime)
    {
      heartbeatTimer, heartbeatTimeout, answer := false, false, NoAnswer;
      if !intentional && !reconnectTimer {
        reconnectTimer := true;
      }
    }

    /** QAbstractSocket::abort(), with the slot its disconnected signal runs. */
    method Abort()
      modifies this
      ensures View() == AfterAbort(old(View()))
      ensures socket == Unconnected
      ensures SameAccount(old(myId), old(password)) && lastDataTime == old(lastDataTime)
    {
      var linked := socket == Connected || socket == Closing;
      socket := Unconnected;
      if linked {
        OnDisconnected();
      }
    }

    method ConnectToServer()
      modifies this
      ensures View() == AfterConnectToServer(old(View()))
      ensures SameAccount(old(myId), old(password)) && lastDataTime == old(lastDataTime)
    {
      intentional := false;
      Abort();
      socket := Connecting;
    }

    method SendJson(now: int)
      modifies this`lastDataTime
      ensures lastDataTime == now
    {
      lastDataTime := now;
    }

    method Login(id: int, pwd: string, now: int)
      modifies this
      ensures View() == AfterLogin(old(View()), Usable(id, pwd))
      ensures wantRelogin && loginTimeoutTimer && !intentional && socket == old(socket)
      ensures SameAccount(id, pwd) && lastDataTime == now
    {
      intentional, myId, password, wantRelogin := false, id, pwd, true;
      SendJson(now);
      loginTimeoutTimer := true;
    }

    /** QAbstractSocket::disconnectFromHost(). */
    method DisconnectFromHost(flushed: bool)
      modifies this
      ensures View() == AfterHangUp(old(View()), flushed)
      ensures SameAccount(old(myId), old(password)) && lastDataTime == old(lastDataTime)
    {
      match socket {
        case Unconnected =>
        case Connecting => socket := Pending;
        case Pending =>
        case Connected =>
          if flushed {
            socket := Unconnected;
            OnDisconnected();
          } else {
            socket := Closing;
          }
        case Closing =>
      }
    }

    /** A second call does nothing. */
    method Loginout(flushed: bool, now: int)
      modifies this
      ensures View() == AfterLoginout(old(View()), flushed)
      ensures SameAccount(old(myId), old(password))
      ensures lastDataTime == if old(intentional) then old(lastDataTime) else now
    {
      if intentional {
        return;
      }
      intentional, wantRelogin := true, false;
      reconnectTimer, loginTimeoutTimer, heartbeatTimer, heartbeatTimeout := false, false, false, false;
      SendJson(now);
      DisconnectFromHost(flushed);
    }

    method ResetLoginState()
      modifies this
      ensures View() == AfterReset(old(View())) && lastDataTime == old(lastDataTime)
    {
      myId, password, wantRelogin := -1, "", false;
    }

    method Relogin()
      modifies this
      ensures View() == AfterRelogin(old(View()))
      ensures Usable(myId, password) ==> socket == Connecting && wantRelogin
      ensures SameAccount(old(myId), old(password)) && lastDataTime == old(lastDataTime)
    {
      if myId > 0 && password != "" {
        intentional, wantRelogin := false, true;
        Abort();
        ConnectToServer();
      }
    }

    /** Called with the socket connected; the dialog logs in from the connected signal if it waits for it. */
    method OnConnected(pending: bool, id: int, pwd: string, now: int)
      modifies this
      ensures View() == AfterConnected(old(View()), pending, Usable(id, pwd))
      ensures !reconnectTimer && !intentional && (wantRelogin <==> old(wantRelogin) || pending)
      ensures loginTimeoutTimer <==> old(loginTimeoutTimer) || wantRelogin
      ensures myId == if old(wantRelogin) || !pending then old(myId) else id
      ensures password == if old(wantRelogin) || !pending then old(password) else pwd
      ensures !old(wantRelogin) && !pending ==> lastDataTime == old(lastDataTime)
      ensures old(wantRelogin) || pending ==> lastDataTime == now
    {
      reconnectTimer, intentional := false, false;
      if wantRelogin {
        Login(myId, password, now);
      } else if pending {
        Login(id, pwd, now);
      }
    }

    method OnError()
      modifies this`reconnectTimer
      ensures View() == AfterError(old(View()))
      ensures reconnectTimer <==> old(reconnectTimer) || !intentional
    {
      if intentional {
        return;
      }
      if !reconnectTimer {
        reconnectTimer := true;
      }
    }

    method OnReconnectTimeout()
      modifies this
      ensures View() == AfterReconnectTick(old(View()))
      ensures socket == if old(socket) == Unconnected then Connecting else old(socket)
    {
      if socket == Connected {
        return;
      }
      if socket != Unconnected {
        return;
      }
      Abort();
      socket := Connecting;
    }

    /** The timer that ran out is stopped, and the connection or handshake given up. */
    method OnLoginTimeout()
      modifies this
      ensures View() == AfterAbort(old(View()).(login := false))
      ensures socket == Unconnected && !loginTimeoutTimer
    {
      loginTimeoutTimer := false;
      Abort();
    }

    /** The timer that runs out is a single-shot one. */
    method OnHeartbeatTimeout()
      modifies this
      ensures View() == AfterHeartbeatLate(old(View()))
    {
      heartbeatTimeout := false;
      Abort();
      if !intentional {
        reconnectTimer := true;
      }
    }

    /** A heartbeat goes out, and its reply is awaited, if nothing was sent or received for 15 seconds. */
    method SendHeartbeat(now: int) returns (sent: bool)
      modifies this`heartbeatTimeout
      ensures sent <==> socket == Connected && now - lastDataTime >= 15
      ensures View() == AfterHeartbeatTick(old(View()), now - lastDataTime >= 15)
      ensures heartbeatTimeout <==> old(heartbeatTimeout) || sent
    {
      sent := false;
      if socket != Connected {
        return;
      }
      if now - lastDataTime < 15 {
        return;
      }
      sent, heartbeatTimeout := true, true;
    }

    /** The LOGIN_MSG_ACK case: success with id and name, a reply without them, or an error. */
    method OnLoginAck(hasErrno: bool, errno: int, hasIdAndName: bool, id: int)
      modifies this
      ensures View() ==
        (var c := old(View());
         if hasErrno && errno == 0 && hasIdAndName then
           AfterAccepted(c, Usable(id, old(password)))
         else if hasErrno && errno != 0 then AfterRejected(c)
         else c.(login := false, answer := Malformed))
      ensures !loginTimeoutTimer
      ensures heartbeatTimer <==> old(heartbeatTimer) || (hasErrno && errno == 0 && hasIdAndName)
      ensures reconnectTimer <==> old(reconnectTimer) && !(hasErrno && errno != 0)
      ensures wantRelogin <==> old(wantRelogin) && !(hasErrno && errno != 0)
    {
      loginTimeoutTimer := false;
      if hasErrno && errno != 0 {
        reconnectTimer := false;
        ResetLoginState();
      } else if hasErrno && hasIdAndName {
        myId, heartbeatTimer, answer := id, true, Accepted;
      } else {
        answer := Malformed;
      }
    }

    method OnHeartbeatReply()
      modifies this`heartbeatTimeout
      ensures View() == old(View()).(heartbeatTimeout := false)
      ensures !heartbeatTimeout
    {
      heartbeatTimeout := false;
    }
  }
}
