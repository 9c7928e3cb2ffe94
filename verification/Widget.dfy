/** The slots of the main window, each proved to do what ChatView says. */
module MainWindow {
  import opened Protocol
  import opened ChatView

  lemma {:induction false} FrontOfFront(batch: seq<Entry>, i: nat)
    requires i < |batch|
    ensures batch[..i + 1][..i] == batch[..i]
  {
  }

  lemma {:induction false} ReplayNext(shown: seq<Msg>, batch: seq<Entry>, i: nat, k: Key)
    requires i < |batch|
    ensures shown + Replay(batch[..i + 1], k) ==
            shown + Replay(batch[..i], k) + (if EntryKey(batch[i]) == k then [EntryMsg(batch[i])] else [])
  {
    assert batch[..i + 1][..i] == batch[..i];
  }

  class Widget {
    const myId: int

    var friendMsgHistory: map<int, seq<Msg>>
    var groupMsgHistory: map<int, seq<Msg>>
    var unreadFriend: map<int, int>
    var unreadGroup: map<int, int>
    var currentTargetId: int
    var currentIsGroup: bool
    var online: bool
    var chatLayout: seq<Msg>
    ghost var log: seq<Logged>

    ghost function State(): View
      reads this
    {
      View(friendMsgHistory, groupMsgHistory, unreadFriend, unreadGroup, currentTargetId, currentIsGroup,
                online, chatLayout, log)
    }

    /** The offline messages that came with the login go into the histories before the window opens. */
    constructor (myId: int, offlineMsgs: seq<Entry>)
      ensures this.myId == myId && State() == AppendBatch(EMPTY, offlineMsgs)
    {
      this.myId := myId;
      friendMsgHistory, groupMsgHistory, unreadFriend, unreadGroup := map[], map[], map[], map[];
      currentTargetId, currentIsGroup, online, chatLayout, log := NOBODY, false, true, [], [];
      new;
      MergeOffline(offlineMsgs);
    }

    method AddMessage(m: Msg)
      modifies this`chatLayout
      ensures chatLayout == old(chatLayout) + [m]
    {
      chatLayout := chatLayout + [m];
    }

    method AppendToHistory(targetId: int, isGroup: bool, cm: Msg)
      modifies this`friendMsgHistory, this`groupMsgHistory, this`log
      ensures State() == Append(old(State()), Key(targetId, isGroup), cm)
    {
      var hist := if isGroup then Get(groupMsgHistory, targetId, []) else Get(friendMsgHistory, targetId, []);
      hist := hist + [cm];
      if |hist| > LIMIT {
        hist := hist[1..];
      }
      if isGroup {
        groupMsgHistory := groupMsgHistory[targetId := hist];
      } else {
        friendMsgHistory := friendMsgHistory[targetId := hist];
      }
      log := log + [Logged(Key(targetId, isGroup), cm)];
    }

    /** Displays the history of a conversation; looking it up creates an empty one. */
    method RebuildChatFromHistory(targetId: int, isGroup: bool)
      modifies this`friendMsgHistory, this`groupMsgHistory, this`chatLayout
      ensures var v, k := old(State()), Key(targetId, isGroup);
              State() == WithHist(v, k, Hist(v, k)).(shown := v.shown + Hist(v, k))
    {
      var hist := if isGroup then Get(groupMsgHistory, targetId, []) else Get(friendMsgHistory, targetId, []);
      if isGroup {
        groupMsgHistory := groupMsgHistory[targetId := hist];
      } else {
        friendMsgHistory := friendMsgHistory[targetId := hist];
      }
      ghost var v := State();
      for i := 0 to |hist|
        invariant State() == v.(shown := v.shown + hist[..i])
      {
        assert v.shown + hist[..i] + [hist[i]] == v.shown + hist[..i + 1];
        AddMessage(hist[i]);
      }
      assert hist[..|hist|] == hist;
    }

    method SwitchToTarget(targetId: int, isGroup: bool)
      modifies this
      ensures State() == AfterSwitch(old(State()), Key(targetId, isGroup))
    {
      currentTargetId, currentIsGroup := targetId, isGroup;
      if isGroup {
        unreadGroup := unreadGroup - {targetId};
      } else {
        unreadFriend := unreadFriend - {targetId};
      }
      chatLayout := [];
      ghost var h := Hist(State(), Key(targetId, isGroup));
      assert [] + h == h;
      RebuildChatFromHistory(targetId, isGroup);
    }

    /** The text is the input line, trimmed; the result is what goes to the server. */
    method OnSendClicked(text: string, time: string) returns (sent: Outgoing)
      modifies this`friendMsgHistory, this`groupMsgHistory, this`log, this`chatLayout
      ensures State() == AfterSend(old(State()), text, time)
      ensures sent == Nothing <==> old(currentTargetId) == NOBODY || !old(online) || text == ""
      ensures sent.ToFriend? ==> !old(currentIsGroup) && sent == ToFriend(old(currentTargetId), text)
      ensures sent.ToGroup? ==> old(currentIsGroup) && sent == ToGroup(old(currentTargetId), text)
    {
      if currentTargetId == NOBODY || !online {
        return Nothing;
      }
      if text == "" {
        return Nothing;
      }
      sent := if currentIsGroup then ToGroup(currentTargetId, text) else ToFriend(currentTargetId, text);
      var m := Msg(true, "", time, text);
      AddMessage(m);
      AppendToHistory(currentTargetId, currentIsGroup, m);
    }

    method OnChatMsg(fromid: int, name: string, msg: string, time: string)
      modifies this
      ensures State() == AfterMessage(old(State()), Key(fromid, false), Msg(false, name, time, msg))
    {
      var m := Msg(false, name, time, msg);
      AppendToHistory(fromid, false, m);
      if fromid == currentTargetId && !currentIsGroup {
        AddMessage(m);
      } else {
        unreadFriend := unreadFriend[fromid := Get(unreadFriend, fromid, 0) + 1];
      }
    }

    method OnGroupMsg(groupid: int, fromid: int, name: string, msg: string, time: string)
      modifies this
      ensures State() == AfterGroupMsg(old(State()), myId, groupid, fromid, Msg(false, name, time, msg))
    {
      if fromid == myId {
        return;
      }
      var m := Msg(false, name, time, msg);
      AppendToHistory(groupid, true, m);
      if groupid == currentTargetId && currentIsGroup {
        AddMessage(m);
      } else {
        unreadGroup := unreadGroup[groupid := Get(unreadGroup, groupid, 0) + 1];
      }
    }

    /** The loop shared by the constructor and the relogin: chat entries are appended and counted as unread. */
    method MergeOffline(offlineMsgs: seq<Entry>)
      modifies this`friendMsgHistory, this`groupMsgHistory, this`unreadFriend, this`unreadGroup, this`log
      ensures State() == AppendBatch(old(State()), offlineMsgs)
    {
      for i := 0 to |offlineMsgs|
        invariant State() == AppendBatch(old(State()), offlineMsgs[..i])
      {
        var e := offlineMsgs[i];
        FrontOfFront(offlineMsgs, i);
        if e.msgid == ONE_CHAT_MSG {
          AppendToHistory(e.id, false, Msg(false, e.name, e.time, e.text));
          unreadFriend := unreadFriend[e.id := Get(unreadFriend, e.id, 0) + 1];
        } else if e.msgid == GROUP_CHAT_MSG {
          AppendToHistory(e.groupid, true, Msg(false, e.name, e.time, e.text));
          unreadGroup := unreadGroup[e.groupid := Get(unreadGroup, e.groupid, 0) + 1];
        }
      }
      assert offlineMsgs[..|offlineMsgs|] == offlineMsgs;
    }

    /** The loginSuccess slot: the whole batch is appended, then the part for the open conversation displayed. */
    method OnLoginSuccess(offlineMsgs: seq<Entry>)
      modifies this
      ensures State() == AfterRelogin(old(State()), offlineMsgs)
    {
      online := true;
      MergeOffline(offlineMsgs);
      if currentTargetId != NOBODY {
        ghost var v := State();
        assert v.shown + [] == v.shown;
        for i := 0 to |offlineMsgs|
          invariant State() == v.(shown := v.shown + Replay(offlineMsgs[..i], Current(v)))
        {
          var e := offlineMsgs[i];
          FrontOfFront(offlineMsgs, i);
          ReplayNext(v.shown, offlineMsgs, i, Current(v));
          var isGroup := e.msgid == GROUP_CHAT_MSG;
          var matchId := if isGroup then e.groupid else e.id;
          if isGroup == currentIsGroup && matchId == currentTargetId {
            AddMessage(Msg(false, e.name, e.time, e.text));
          }
        }
        assert offlineMsgs[..|offlineMsgs|] == offlineMsgs;
      }
    }

    method SetStatus(on: bool)
      modifies this`online
      ensures State() == old(State()).(online := on)
    {
      online := on;
    }
  }
}
