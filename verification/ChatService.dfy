/**
 * The chat service of one server process. Each handler is proved to have exactly the
 * effect Routing.dfy describes, on the registrations of the process and on the backend.
 */
module ChatServer {
  import opened Protocol
  import opened Routing
  import Delivery

  /** MySQL, the Pub/Sub broker and the sockets, shared by every server process. */
  class Backend {
    var state: Back

    constructor (state: Back)
      ensures this.state == state
    {
      this.state := state;
    }
  }

  class ChatService {
    const server: nat
    const backend: Backend

    var userConnMap: map<int, Conn>
    var connectionLastTime: map<Conn, int>

    constructor (server: nat, backend: Backend)
      requires server < |backend.state.subs|
      ensures Valid() && this.server == server && this.backend == backend
      ensures View() == Local(Service(map[], map[]), backend.state)
    {
      this.server := server;
      this.backend := backend;
      userConnMap := map[];
      connectionLastTime := map[];
    }

    predicate Valid()
      reads this, backend
    {
      server < |backend.state.subs|
    }

    function View(): Local
      reads this, backend
    {
      Local(Service(userConnMap, connectionLastTime), backend.state)
    }

    method SendJson(conn: Conn, owner: int, packet: Packet)
      modifies backend
      ensures backend.state == Send(old(backend.state), server, conn, owner, packet)
    {
      backend.state := backend.state.(out := backend.state.out + [Sent(server, conn, owner, packet)]);
    }

    method UpdateConnTime(conn: Conn, now: int)
      modifies this
      ensures View() == Touch(old(View()), conn, now)
    {
      connectionLastTime := connectionLastTime[conn := now];
    }

    method SendToAll(ids: seq<int>, js: Json)
      requires forall k :: 0 <= k < |ids| ==> ids[k] in userConnMap
      modifies backend
      ensures backend.state == SendAll(old(backend.state), server, userConnMap, ids, js)
    {
      for i := 0 to |ids|
        invariant backend.state == SendAll(old(backend.state), server, userConnMap, ids[..i], js)
      {
        assert ids[..i+1][..i] == ids[..i];
        SendJson(userConnMap[ids[i]], ids[i], Chat(js));
      }
      assert ids[..|ids|] == ids;
    }

    method PublishToAll(ids: seq<int>, js: Json)
      modifies backend
      ensures backend.state == PublishAll(old(backend.state), ids, js)
    {
      for i := 0 to |ids|
        invariant backend.state == PublishAll(old(backend.state), ids[..i], js)
      {
        assert ids[..i+1][..i] == ids[..i];
        backend.state := Publish(backend.state, Parcel(ids[i], js));
      }
      assert ids[..|ids|] == ids;
    }

    /** Friends registered here get the notice directly, the others through their channels. */
    method NotifyFriendState(userid: int, online: bool)
      requires Valid()
      modifies backend
      ensures Valid()
      ensures View() == old(View()).(back := Notify(server, old(View()).sv, old(backend.state), userid, online))
    {
      var friends := Listed(backend.state.friends, userid);
      var notify := Presence(userid, online);
      var onlineIds: seq<int>, crossIds: seq<int> := [], [];
      for i := 0 to |friends|
        invariant onlineIds == Keep(friends[..i], userConnMap.Keys)
        invariant crossIds == Drop(friends[..i], userConnMap.Keys)
      {
        assert friends[..i+1][..i] == friends[..i];
        if friends[i] in userConnMap {
          onlineIds := onlineIds + [friends[i]];
        } else {
          crossIds := crossIds + [friends[i]];
        }
      }
      assert friends[..|friends|] == friends;
      KeepInside(friends, userConnMap.Keys);
      SendToAll(onlineIds, notify);
      Delivery.SendAllFrame(old(backend.state), server, userConnMap, onlineIds, notify);
      PublishToAll(crossIds, notify);
      Delivery.PublishAllFrame(SendAll(old(backend.state), server, userConnMap, onlineIds, notify), crossIds, notify);
    }

    method Login(conn: Conn, js: Json)
      requires Valid()
      modifies this, backend
      ensures Valid()
      ensures View() == Routing.Login(server, old(View()), conn, js)
    {
      if js.id == None || js.password == None {
        SendJson(conn, -1, LoginAck(1, []));
        return;
      }
      var id := js.id.value;
      var user := QueryUser(backend.state, id);
      if user.id != id || user.pwd != js.password.value {
        SendJson(conn, -1, LoginAck(1, []));
        return;
      }
      if user.online {
        if id in userConnMap {
          backend.state := backend.state.(shut := backend.state.shut + {(server, userConnMap[id])});
          userConnMap := userConnMap - {id};
        }
        userConnMap := userConnMap[id := conn];
        backend.state := Unsubscribe(backend.state, server, id);
        backend.state := Subscribe(backend.state, server, id);
      } else {
        userConnMap := userConnMap[id := conn];
      }
      if !user.online {
        backend.state := Subscribe(backend.state, server, id);
      }
      assert userConnMap == old(userConnMap)[id := conn];
      backend.state := SetState(backend.state, id, true);
      var mail := OfflineOf(backend.state.offline, id);
      SendJson(conn, id, LoginAck(0, mail));
      if mail != [] {
        backend.state := backend.state.(offline := OfflineWithout(backend.state.offline, id));
      }
      NotifyFriendState(id, true);
    }

    method Loginout(conn: Conn, js: Json)
      requires Valid()
      modifies this, backend
      ensures Valid()
      ensures View() == Logout(server, old(View()), conn, js)
    {
      if js.id == None {
        return;
      }
      var userid := js.id.value;
      if userid in userConnMap {
        userConnMap := userConnMap - {userid};
      }
      assert userConnMap == old(userConnMap) - {userid};
      backend.state := Unsubscribe(backend.state, server, userid);
      connectionLastTime := connectionLastTime - {conn};
      backend.state := SetState(backend.state, userid, false);
      NotifyFriendState(userid, false);
    }

    /** The map is searched in no particular order; the first registration found is the victim. */
    method FindRegistration(conn: Conn) returns (victim: Option<int>)
      ensures IsVictim(userConnMap, conn, victim)
    {
      victim := None;
      var rest := userConnMap.Items;
      while rest != {}
        invariant rest <= userConnMap.Items
        invariant victim == None && forall u :: u in userConnMap && (u, userConnMap[u]) !in rest ==> userConnMap[u] != conn
        decreases |rest|
      {
        var it :| it in rest;
        if it.1 == conn {
          victim := Some(it.0);
          break;
        }
        rest := rest - {it};
      }
    }

    /** A closed connection loses one registration; with none, channel -1 is unsubscribed. */
    method ClientCloseException(conn: Conn) returns (victim: Option<int>)
      requires Valid()
      modifies this, backend
      ensures Valid()
      ensures IsVictim(old(userConnMap), conn, victim)
      ensures View() == Close(server, old(View()), conn, victim)
    {
      victim := FindRegistration(conn);
      var userid := -1;
      if victim.Some? {
        userid := victim.value;
        userConnMap := userConnMap - {userid};
      }
      backend.state := Unsubscribe(backend.state, server, userid);
      connectionLastTime := connectionLastTime - {conn};
      if userid != -1 {
        backend.state := SetState(backend.state, userid, false);
        NotifyFriendState(userid, false);
      }
    }

    method OneChat(js: Json)
      requires Valid()
      modifies backend
      ensures Valid()
      ensures View() == Routing.OneChat(server, old(View()), js)
    {
      if js.id == None || js.toid == None {
        return;
      }
      var toid := js.toid.value;
      if toid in userConnMap {
        SendJson(userConnMap[toid], toid, Chat(js));
        return;
      }
      var user := QueryUser(backend.state, toid);
      if user.online {
        backend.state := Publish(backend.state, Parcel(toid, js));
        return;
      }
      backend.state := StoreOffline(backend.state, Parcel(toid, js));
    }

    /** First loop of a group message: write to members registered here, collect the others. */
    method ForwardLocally(ids: seq<int>, js: Json) returns (offlineIds: seq<int>)
      requires forall k :: 0 <= k < |Keep(ids, userConnMap.Keys)| ==> Keep(ids, userConnMap.Keys)[k] in userConnMap
      modifies backend
      ensures offlineIds == Drop(ids, userConnMap.Keys)
      ensures backend.state == SendAll(old(backend.state), server, userConnMap, Keep(ids, userConnMap.Keys), js)
    {
      offlineIds := [];
      KeepInside([], userConnMap.Keys);
      for i := 0 to |ids|
        invariant offlineIds == Drop(ids[..i], userConnMap.Keys)
        invariant forall k :: 0 <= k < |Keep(ids[..i], userConnMap.Keys)| ==> Keep(ids[..i], userConnMap.Keys)[k] in userConnMap
        invariant backend.state == SendAll(old(backend.state), server, userConnMap, Keep(ids[..i], userConnMap.Keys), js)
      {
        assert ids[..i+1][..i] == ids[..i];
        ghost var here := Keep(ids[..i], userConnMap.Keys);
        if ids[i] in userConnMap {
          assert Keep(ids[..i+1], userConnMap.Keys)[..|here|] == here;
          SendJson(userConnMap[ids[i]], ids[i], Chat(js));
        } else {
          assert Keep(ids[..i+1], userConnMap.Keys) == here;
          offlineIds := offlineIds + [ids[i]];
        }
      }
      assert ids[..|ids|] == ids;
    }

    /** Second loop: users the table calls online are collected for publishing, the others get a stored copy. */
    method StoreOrCollect(offlineIds: seq<int>, js: Json) returns (crossIds: seq<int>)
      modifies backend
      ensures crossIds == Keep(offlineIds, OnlineUsers(old(backend.state)))
      ensures backend.state == StoreAll(old(backend.state), Drop(offlineIds, OnlineUsers(old(backend.state))), js)
    {
      crossIds := [];
      ghost var before := backend.state;
      ghost var online := OnlineUsers(before);
      for i := 0 to |offlineIds|
        invariant crossIds == Keep(offlineIds[..i], online)
        invariant backend.state == StoreAll(before, Drop(offlineIds[..i], online), js)
      {
        assert offlineIds[..i+1][..i] == offlineIds[..i];
        ghost var stored := Drop(offlineIds[..i], online);
        Delivery.StoreAllFrame(before, stored, js);
        var user := QueryUser(backend.state, offlineIds[i]);
        if user.online {
          assert Drop(offlineIds[..i+1], online) == stored;
          crossIds := crossIds + [offlineIds[i]];
        } else {
          assert Drop(offlineIds[..i+1], online)[..|stored|] == stored;
          backend.state := StoreOffline(backend.state, Parcel(offlineIds[i], js));
        }
      }
      assert offlineIds[..|offlineIds|] == offlineIds;
    }

    method GroupChat(js: Json)
      requires Valid()
      modifies backend
      ensures Valid()
      ensures View() == Routing.GroupChat(server, old(View()), js)
    {
      if js.id == None || js.groupid == None {
        return;
      }
      ghost var before := backend.state;
      var ids := Audience(backend.state, js.id.value, js.groupid.value);
      KeepInside(ids, userConnMap.Keys);
      var offlineIds := ForwardLocally(ids, js);
      ghost var sent := backend.state;
      Delivery.SendAllFrame(before, server, userConnMap, Keep(ids, userConnMap.Keys), js);
      var crossIds := StoreOrCollect(offlineIds, js);
      Delivery.StoreAllFrame(sent, Drop(offlineIds, OnlineUsers(sent)), js);
      Delivery.PublishAllFrame(backend.state, crossIds, js);
      PublishToAll(crossIds, js);
    }

    method HandleRedisSubscribeMessage(userid: int, msg: Json)
      requires Valid()
      modifies backend
      ensures Valid()
      ensures View() == Redeliver(server, old(View()), Parcel(userid, msg))
    {
      if userid in userConnMap {
        SendJson(userConnMap[userid], userid, Chat(msg));
        return;
      }
      if msg.msgid == Some(FRIEND_STATE_CHANGE_MSG) {
        return;
      }
      backend.state := StoreOffline(backend.state, Parcel(userid, msg));
    }

    /** The part of the message callback that runs once a body has been parsed. */
    method OnBody(conn: Conn, js: Json, now: int)
      requires Valid()
      modifies this, backend
      ensures Valid()
      ensures View() == Dispatch(server, old(View()), conn, js, now)
    {
      UpdateConnTime(conn, now);
      if js.msgid == Some(LOGIN_MSG) {
        Login(conn, js);
      } else if js.msgid == Some(LOGINOUT_MSG) {
        Loginout(conn, js);
      } else if js.msgid == Some(ONE_CHAT_MSG) {
        OneChat(js);
      } else if js.msgid == Some(GROUP_CHAT_MSG) {
        GroupChat(js);
      } else if js.msgid == Some(HEARTBEAT_MSG) {
        UpdateConnTime(conn, now);
        assert View() == Touch(old(View()), conn, now);
        SendJson(conn, -1, Pong);
      }
    }

    /** Collect the connections silent for more than the limit, then shut each of them down. */
    method CheckHeartbeat(now: int) returns (toClose: seq<Conn>)
      modifies backend
      ensures View() == Routing.CheckHeartbeat(server, old(View()), now)
      ensures forall c :: c in toClose <==> c in Stale(connectionLastTime, now)
    {
      toClose := [];
      var rest := connectionLastTime.Keys;
      while rest != {}
        invariant rest <= connectionLastTime.Keys
        invariant forall c :: c in toClose <==> c in Stale(connectionLastTime, now) && c !in rest
        decreases |rest|
      {
        var c :| c in rest;
        if now - connectionLastTime[c] > HEARTBEAT_LIMIT {
          toClose := toClose + [c];
        }
        rest := rest - {c};
      }
      ghost var before := backend.state;
      for i := 0 to |toClose|
        invariant backend.state == before.(shut := before.shut + set c | c in toClose[..i] :: (server, c))
      {
        assert toClose[..i+1] == toClose[..i] + [toClose[i]];
        backend.state := backend.state.(shut := backend.state.shut + {(server, toClose[i])});
      }
      assert toClose[..|toClose|] == toClose;
      assert (set c | c in toClose :: (server, c)) == set c | c in Stale(connectionLastTime, now) :: (server, c);
    }
  }
}
