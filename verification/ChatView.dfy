/**
 * The histories and the open conversation of the main window, without its widgets: what is
 * appended to each conversation, capped at 500, against what the view displays incrementally.
 */
module ChatView {
  import opened Protocol

  const LIMIT := 500
  const NOBODY := -1

  datatype Msg = Msg(isRight: bool, name: string, time: string, text: string)

  /** A conversation: with a friend, or in a group. */
  datatype Key = Key(id: int, group: bool)

  /** The members of an offline entry that the window reads. */
  datatype Entry = Entry(msgid: int, id: int, groupid: int, name: string, time: string, text: string)

  datatype Logged = Logged(key: Key, msg: Msg)

  datatype View = View(
    friends: map<int, seq<Msg>>,       // m_friendMsgHistory
    groups: map<int, seq<Msg>>,        // m_groupMsgHistory
    unreadFriend: map<int, int>,
    unreadGroup: map<int, int>,
    target: int,                       // m_currentTargetId
    isGroup: bool,                     // m_currentIsGroup
    online: bool,
    shown: seq<Msg>,                   // the messages in m_chatLayout
    log: seq<Logged>                   // history: every append so far
  )

  const EMPTY := View(map[], map[], map[], map[], NOBODY, false, true, [], [])

  datatype Event =
    | Send(text: string, time: string)          // text as trimmed
    | Chat(from: int, name: string, time: string, text: string)
    | GroupChat(groupid: int, from: int, name: string, time: string, text: string)
    | Switch(id: int, group: bool)
    | Relogin(batch: seq<Entry>)
    | Status(on: bool)

  function Get<T>(m: map<int, T>, k: int, default: T): T {
    if k in m then m[k] else default
  }

  function Hist(v: View, k: Key): seq<Msg> {
    if k.group then Get(v.groups, k.id, []) else Get(v.friends, k.id, [])
  }

  function WithHist(v: View, k: Key, h: seq<Msg>): View {
    if k.group then v.(groups := v.groups[k.id := h]) else v.(friends := v.friends[k.id := h])
  }

  function Current(v: View): Key {
    Key(v.target, v.isGroup)
  }

  /** The oldest message goes when there are more than the limit. */
  function Cap(h: seq<Msg>): seq<Msg> {
    if |h| > LIMIT then h[1..] else h
  }

  function Append(v: View, k: Key, m: Msg): View {
    WithHist(v, k, Cap(Hist(v, k) + [m])).(log := v.log + [Logged(k, m)])
  }

  function Bump(v: View, k: Key): View {
    if k.group then v.(unreadGroup := v.unreadGroup[k.id := Get(v.unreadGroup, k.id, 0) + 1])
    else v.(unreadFriend := v.unreadFriend[k.id := Get(v.unreadFriend, k.id, 0) + 1])
  }

  function ClearUnread(v: View, k: Key): View {
    if k.group then v.(unreadGroup := v.unreadGroup - {k.id}) else v.(unreadFriend := v.unreadFriend - {k.id})
  }

  // ---------- the slots ----------

  /** What a send puts on the wire: a one-to-one or group message to the open conversation. */
  datatype Outgoing = Nothing | ToFriend(toid: int, text: string) | ToGroup(groupid: int, text: string)

  function AfterSend(v: View, text: string, time: string): View {
    if v.target == NOBODY || !v.online || text == "" then v
    else
      var m := Msg(true, "", time, text);
      Append(v.(shown := v.shown + [m]), Current(v), m)
  }

  /** A live message: appended, then displayed if its conversation is open, else counted as unread. */
  function AfterMessage(v: View, k: Key, m: Msg): View {
    var w := Append(v, k, m);
    if k == Current(v) then w.(shown := w.shown + [m]) else Bump(w, k)
  }

  function AfterGroupMsg(v: View, myId: int, groupid: int, from: int, m: Msg): View {
    if from == myId then v else AfterMessage(v, Key(groupid, true), m)
  }

  /** Clear the view and replay the history, which the lookup creates if it is missing. */
  function AfterSwitch(v: View, k: Key): View {
    var w := ClearUnread(v.(target := k.id, isGroup := k.group), k);
    WithHist(w, k, Hist(w, k)).(shown := Hist(w, k))
  }

  function EntryMsg(e: Entry): Msg {
    Msg(false, e.name, e.time, e.text)
  }

  predicate IsChatEntry(e: Entry) {
    e.msgid == ONE_CHAT_MSG || e.msgid == GROUP_CHAT_MSG
  }

  function EntryKey(e: Entry): Key {
    if e.msgid == GROUP_CHAT_MSG then Key(e.groupid, true) else Key(e.id, false)
  }

  /** The first pass over a batch of offline entries: only chat is appended, and counted as unread. */
  function AppendBatch(v: View, batch: seq<Entry>): View {
    if batch == [] then v
    else
      var e := batch[|batch| - 1];
      var w := AppendBatch(v, batch[..|batch| - 1]);
      if IsChatEntry(e) then Bump(Append(w, EntryKey(e), EntryMsg(e)), EntryKey(e)) else w
  }

  /** The second pass displays every entry whose key is the open conversation's, whatever its kind. */
  function Replay(batch: seq<Entry>, k: Key): seq<Msg> {
    if batch == [] then []
    else
      var e := batch[|batch| - 1];
      Replay(batch[..|batch| - 1], k) + (if EntryKey(e) == k then [EntryMsg(e)] else [])
  }

  function AfterRelogin(v: View, batch: seq<Entry>): View {
    var w := AppendBatch(v.(online := true), batch);
    if w.target == NOBODY then w else w.(shown := w.shown + Replay(batch, Current(w)))
  }

  function Next(v: View, myId: int, e: Event): View {
    match e
    case Send(text, time) => AfterSend(v, text, time)
    case Chat(from, name, time, text) => AfterMessage(v, Key(from, false), Msg(false, name, time, text))
    case GroupChat(groupid, from, name, time, text) => AfterGroupMsg(v, myId, groupid, from, Msg(false, name, time, text))
    case Switch(id, group) => AfterSwitch(v, Key(id, group))
    case Relogin(batch) => AfterRelogin(v, batch)
    case Status(on) => v.(online := on)
  }

  // ---------- the simple specification ----------

  /** Everything ever appended to one conversation, in order. */
  function Of(log: seq<Logged>, k: Key): seq<Msg> {
    if log == [] then []
    else Of(log[..|log| - 1], k) + (if log[|log| - 1].key == k then [log[|log| - 1].msg] else [])
  }

  function Last(h: seq<Msg>): seq<Msg> {
    if |h| <= 500 then h else h[|h| - 500..]
  }

  ghost predicate HistoriesAgree(v: View) {
    forall k :: Hist(v, k) == Last(Of(v.log, k))
  }

  predicate ViewAgrees(v: View) {
    v.target != NOBODY ==> Hist(v, Current(v)) == Last(v.shown)
  }

  ghost predicate Inv(v: View) {
    HistoriesAgree(v) && ViewAgrees(v)
  }

  lemma {:induction false} CapLast(h: seq<Msg>, m: Msg)
    ensures Cap(Last(h) + [m]) == Last(h + [m])
  {
  }

  /** Two lists with the same end keep it under a common extension. */
  lemma {:induction false} LastAppend(a: seq<Msg>, b: seq<Msg>, c: seq<Msg>)
    requires Last(a) == Last(b)
    ensures Last(a + c) == Last(b + c)
    decreases |c|
  {
    if c == [] {
      assert a + c == a && b + c == b;
    } else {
      var front, m := c[..|c| - 1], c[|c| - 1];
      LastAppend(a, b, front);
      CapLast(a + front, m);
      CapLast(b + front, m);
      assert a + c == a + front + [m] && b + c == b + front + [m];
    }
  }

  lemma {:induction false} OfAppend(log: seq<Logged>, e: Logged, k: Key)
    ensures Of(log + [e], k) == if e.key == k then Of(log, k) + [e.msg] else Of(log, k)
  {
    assert (log + [e])[..|log|] == log;
    assert Of(log, k) + [] == Of(log, k);
  }

  lemma {:induction false} HistWith(v: View, k: Key, h: seq<Msg>, other: Key)
    ensures Hist(WithHist(v, k, h), other) == if other == k then h else Hist(v, other)
  {
  }

  lemma {:induction false} AppendAgrees(v: View, k: Key, m: Msg)
    requires HistoriesAgree(v)
    ensures HistoriesAgree(Append(v, k, m))
  {
    forall other ensures Hist(Append(v, k, m), other) == Last(Of(v.log + [Logged(k, m)], other)) {
      HistWith(v, k, Cap(Hist(v, k) + [m]), other);
      OfAppend(v.log, Logged(k, m), other);
      CapLast(Of(v.log, other), m);
    }
  }

  lemma {:induction false} SameLog(v: View, w: View)
    requires HistoriesAgree(v) && w.log == v.log && forall k :: Hist(w, k) == Hist(v, k)
    ensures HistoriesAgree(w)
  {
  }

  /** An append to the open conversation that is also displayed. */
  lemma {:induction false} ShownAppend(v: View, m: Msg)
    requires HistoriesAgree(v)
    ensures var w := Append(v, Current(v), m).(shown := v.shown + [m]);
            HistoriesAgree(w) && (ViewAgrees(v) ==> ViewAgrees(w))
  {
    var k := Current(v);
    AppendAgrees(v, k, m);
    SameLog(Append(v, k, m), Append(v, k, m).(shown := v.shown + [m]));
    HistWith(v, k, Cap(Hist(v, k) + [m]), k);
    CapLast(v.shown, m);
  }

  lemma {:induction false} SendKeeps(v: View, text: string, time: string)
    requires HistoriesAgree(v)
    ensures HistoriesAgree(AfterSend(v, text, time)) && (ViewAgrees(v) ==> ViewAgrees(AfterSend(v, text, time)))
  {
    ShownAppend(v, Msg(true, "", time, text));
  }

  lemma {:induction false} MessageKeeps(v: View, k: Key, m: Msg)
    requires HistoriesAgree(v)
    ensures HistoriesAgree(AfterMessage(v, k, m)) && (ViewAgrees(v) ==> ViewAgrees(AfterMessage(v, k, m)))
  {
    if k == Current(v) {
      ShownAppend(v, m);
    } else {
      AppendAgrees(v, k, m);
      HistWith(v, k, Cap(Hist(v, k) + [m]), Current(v));
      SameLog(Append(v, k, m), Bump(Append(v, k, m), k));
    }
  }

  lemma {:induction false} SwitchKeeps(v: View, k: Key)
    requires HistoriesAgree(v)
    ensures Inv(AfterSwitch(v, k)) && AfterSwitch(v, k).shown == Last(Of(v.log, k))
  {
    var w := AfterSwitch(v, k);
    forall other ensures Hist(w, other) == Hist(v, other) {
      HistWith(v, k, Hist(v, k), other);
    }
    SameLog(v, w);
    assert Hist(v, k) == Last(Of(v.log, k));
  }

  // ---------- a relogin batch ----------

  /** An entry that is not chat but carries the open friend's id: displayed, though never appended. */
  predicate Stray(e: Entry, k: Key) {
    !IsChatEntry(e) && EntryKey(e) == k
  }

  predicate NoStray(batch: seq<Entry>, k: Key) {
    forall i :: 0 <= i < |batch| ==> !Stray(batch[i], k)
  }

  /** What a batch appends to one conversation. */
  function ChatOf(batch: seq<Entry>, k: Key): seq<Msg> {
    if batch == [] then []
    else
      var e := batch[|batch| - 1];
      ChatOf(batch[..|batch| - 1], k) + (if IsChatEntry(e) && EntryKey(e) == k then [EntryMsg(e)] else [])
  }

  lemma {:induction false} NoStrayLast(batch: seq<Entry>, k: Key)
    requires batch != []
    ensures NoStray(batch, k) <==> NoStray(batch[..|batch| - 1], k) && !Stray(batch[|batch| - 1], k)
  {
    var front := batch[..|batch| - 1];
    if NoStray(front, k) && !Stray(batch[|batch| - 1], k) {
      forall i | 0 <= i < |batch| ensures !Stray(batch[i], k) {
        assert i < |front| ==> batch[i] == front[i];
      }
    }
    if NoStray(batch, k) {
      forall i | 0 <= i < |front| ensures !Stray(front[i], k) {
        assert batch[i] == front[i];
      }
    }
  }

  /** The second pass displays exactly what the first one appended if and only if the batch holds no stray entry. */
  lemma {:induction false} ReplayIsChat(batch: seq<Entry>, k: Key)
    ensures |Replay(batch, k)| >= |ChatOf(batch, k)|
    ensures Replay(batch, k) == ChatOf(batch, k) <==> NoStray(batch, k)
    ensures |Replay(batch, k)| == |ChatOf(batch, k)| <==> NoStray(batch, k)
  {
    if batch != [] {
      var front, e := batch[..|batch| - 1], batch[|batch| - 1];
      ReplayIsChat(front, k);
      NoStrayLast(batch, k);
    }
  }

  lemma {:induction false} OneMore(a: seq<Msg>, b: seq<Msg>, m: Msg)
    ensures a + (b + [m]) == a + b + [m]
  {
  }

  lemma {:induction false} NoMore(a: seq<Msg>)
    ensures a + [] == a
  {
  }

  lemma {:induction false} BatchLast(w: View, e: Entry, before: seq<Msg>, chat: seq<Msg>, k: Key)
    requires HistoriesAgree(w) && Of(w.log, k) == before + chat
    ensures var u := if IsChatEntry(e) then Bump(Append(w, EntryKey(e), EntryMsg(e)), EntryKey(e)) else w;
            HistoriesAgree(u)
            && Of(u.log, k) == before + (chat + (if IsChatEntry(e) && EntryKey(e) == k then [EntryMsg(e)] else []))
  {
    NoMore(chat);
    if IsChatEntry(e) {
      var u := Append(w, EntryKey(e), EntryMsg(e));
      AppendAgrees(w, EntryKey(e), EntryMsg(e));
      SameLog(u, Bump(u, EntryKey(e)));
      OfAppend(w.log, Logged(EntryKey(e), EntryMsg(e)), k);
      OneMore(before, chat, EntryMsg(e));
    }
  }

  lemma {:induction false} BatchAgrees(v: View, batch: seq<Entry>, k: Key)
    requires HistoriesAgree(v)
    ensures var w := AppendBatch(v, batch);
            HistoriesAgree(w) && w.target == v.target && w.isGroup == v.isGroup && w.shown == v.shown
            && Of(w.log, k) == Of(v.log, k) + ChatOf(batch, k)
  {
    if batch == [] {
      assert Of(v.log, k) + [] == Of(v.log, k);
    } else {
      var front, e := batch[..|batch| - 1], batch[|batch| - 1];
      BatchAgrees(v, front, k);
      BatchLast(AppendBatch(v, front), e, Of(v.log, k), ChatOf(front, k), k);
    }
  }

  lemma {:induction false} ReloginHistories(v: View, batch: seq<Entry>)
    requires HistoriesAgree(v)
    ensures var w, k := AfterRelogin(v, batch), Current(v);
            && HistoriesAgree(w) && Current(w) == k && Of(w.log, k) == Of(v.log, k) + ChatOf(batch, k)
            && w.shown == if v.target == NOBODY then v.shown else v.shown + Replay(batch, k)
  {
    var on := v.(online := true);
    SameLog(v, on);
    BatchAgrees(on, batch, Current(v));
    SameLog(AppendBatch(on, batch), AfterRelogin(v, batch));
  }

  lemma {:induction false} ReloginKeeps(v: View, batch: seq<Entry>)
    requires Inv(v) && NoStray(batch, Current(v))
    ensures Inv(AfterRelogin(v, batch))
  {
    var k, w := Current(v), AfterRelogin(v, batch);
    ReloginHistories(v, batch);
    if v.target != NOBODY {
      ReplayIsChat(batch, k);
      LastAppend(v.shown, Of(v.log, k), ChatOf(batch, k));
      assert Hist(v, k) == Last(v.shown) && Hist(v, k) == Last(Of(v.log, k));
      assert Hist(w, k) == Last(Of(w.log, k));
    }
  }

  /**
   * After a relogin, unless so much is on display that a coincidence could hide it, view and history
   * agree if and only if the batch holds no stray entry for the open conversation.
   */
  lemma {:induction false} ReloginAgreesIff(v: View, batch: seq<Entry>)
    requires Inv(v) && v.target != NOBODY && |v.shown| + |Replay(batch, Current(v))| <= LIMIT
    ensures ViewAgrees(AfterRelogin(v, batch)) <==> NoStray(batch, Current(v))
  {
    var k, w := Current(v), AfterRelogin(v, batch);
    ReplayIsChat(batch, k);
    if NoStray(batch, k) {
      ReloginKeeps(v, batch);
    } else {
      ReloginHistories(v, batch);
      assert Last(v.shown) == v.shown && Hist(v, k) == Last(Of(v.log, k));
      assert |Of(v.log, k)| == |v.shown|;
      assert Hist(w, k) == Last(Of(w.log, k)) && |Hist(w, k)| < |w.shown| == |Last(w.shown)|;
    }
  }

  // ---------- which conversation a message belongs to ----------

  /** The messages of a batch sent in a group. */
  function InGroup(batch: seq<Entry>, groupid: int): seq<Msg> {
    if batch == [] then []
    else
      var e := batch[|batch| - 1];
      InGroup(batch[..|batch| - 1], groupid)
      + (if e.msgid == 10 && e.groupid == groupid then [Msg(false, e.name, e.time, e.text)] else [])
  }

  /** The messages of a batch a friend has sent to this user alone. */
  function FromFriend(batch: seq<Entry>, id: int): seq<Msg> {
    if batch == [] then []
    else
      var e := batch[|batch| - 1];
      FromFriend(batch[..|batch| - 1], id)
      + (if e.msgid == 6 && e.id == id then [Msg(false, e.name, e.time, e.text)] else [])
  }

  lemma {:induction false} ChatOfBatch(batch: seq<Entry>, id: int)
    ensures ChatOf(batch, Key(id, true)) == InGroup(batch, id)
    ensures ChatOf(batch, Key(id, false)) == FromFriend(batch, id)
  {
    if batch != [] {
      ChatOfBatch(batch[..|batch| - 1], id);
    }
  }

  /** What an event adds to the conversation in a group. */
  function AddedToGroup(v: View, myId: int, e: Event, id: int): seq<Msg> {
    match e
    case GroupChat(groupid, from, name, time, text) =>
      if groupid == id && from != myId then [Msg(false, name, time, text)] else []
    case Send(text, time) =>
      if v.isGroup && v.target == id && id != -1 && v.online && text != "" then [Msg(true, "", time, text)] else []
    case Relogin(batch) => InGroup(batch, id)
    case _ => []
  }

  /** What an event adds to the conversation with a friend. */
  function AddedToFriend(v: View, e: Event, id: int): seq<Msg> {
    match e
    case Chat(from, name, time, text) => if from == id then [Msg(false, name, time, text)] else []
    case Send(text, time) =>
      if !v.isGroup && v.target == id && id != -1 && v.online && text != "" then [Msg(true, "", time, text)] else []
    case Relogin(batch) => FromFriend(batch, id)
    case _ => []
  }

  lemma {:induction false} BatchLog(v: View, batch: seq<Entry>, k: Key)
    ensures Of(AppendBatch(v, batch).log, k) == Of(v.log, k) + ChatOf(batch, k)
  {
    NoMore(Of(v.log, k));
    if batch != [] {
      var front, e := batch[..|batch| - 1], batch[|batch| - 1];
      BatchLog(v, front, k);
      NoMore(ChatOf(front, k));
      if IsChatEntry(e) {
        OfAppend(AppendBatch(v, front).log, Logged(EntryKey(e), EntryMsg(e)), k);
        OneMore(Of(v.log, k), ChatOf(front, k), EntryMsg(e));
      }
    }
  }

  lemma {:induction false} MessageLog(v: View, to: Key, m: Msg, k: Key)
    ensures Of(AfterMessage(v, to, m).log, k) == Of(v.log, k) + if k == to then [m] else []
  {
    NoMore(Of(v.log, k));
    OfAppend(v.log, Logged(to, m), k);
  }

  lemma {:induction false} SendLog(v: View, text: string, time: string, k: Key)
    ensures Of(AfterSend(v, text, time).log, k) ==
            Of(v.log, k) + if k == Current(v) && v.target != -1 && v.online && text != "" then [Msg(true, "", time, text)] else []
  {
    NoMore(Of(v.log, k));
    OfAppend(v.log, Logged(Current(v), Msg(true, "", time, text)), k);
  }

  lemma {:induction false} ReloginLog(v: View, batch: seq<Entry>, k: Key)
    ensures Of(AfterRelogin(v, batch).log, k) == Of(v.log, k) + if k.group then InGroup(batch, k.id) else FromFriend(batch, k.id)
  {
    BatchLog(v.(online := true), batch, k);
    ChatOfBatch(batch, k.id);
  }

  /** What an event adds to a conversation. */
  function Added(v: View, myId: int, e: Event, k: Key): seq<Msg> {
    if k.group then AddedToGroup(v, myId, e, k.id) else AddedToFriend(v, e, k.id)
  }

  /** Every event adds to each conversation, with a friend or in a group, exactly the messages that belong there. */
  lemma {:induction false} EventLog(v: View, myId: int, e: Event, k: Key)
    ensures Of(Next(v, myId, e).log, k) == Of(v.log, k) + Added(v, myId, e, k)
  {
    match e
    case Send(text, time) => SendLog(v, text, time, k);
    case Chat(from, name, time, text) => MessageLog(v, Key(from, false), Msg(false, name, time, text), k);
    case GroupChat(groupid, from, name, time, text) =>
      NoMore(Of(v.log, k));
      MessageLog(v, Key(groupid, true), Msg(false, name, time, text), k);
    case Switch(_, _) => NoMore(Of(v.log, k));
    case Relogin(batch) => ReloginLog(v, batch, k);
    case Status(_) => NoMore(Of(v.log, k));
  }

  lemma {:induction false} BatchStays(v: View, batch: seq<Entry>)
    ensures Current(AppendBatch(v, batch)) == Current(v) && AppendBatch(v, batch).online == v.online
  {
    if batch != [] {
      BatchStays(v, batch[..|batch| - 1]);
    }
  }

  lemma {:induction false} ReloginStays(v: View, batch: seq<Entry>)
    ensures Current(AfterRelogin(v, batch)) == Current(v) && AfterRelogin(v, batch).online
  {
    BatchStays(v.(online := true), batch);
  }

  lemma {:induction false} MessageStays(v: View, k: Key, m: Msg)
    ensures Current(AfterMessage(v, k, m)) == Current(v) && AfterMessage(v, k, m).online == v.online
  {
  }

  /** Only opening a conversation changes which one is open; a login and the status signal set the online flag. */
  lemma {:induction false} EventStays(v: View, myId: int, e: Event)
    ensures Current(Next(v, myId, e)) == if e.Switch? then Key(e.id, e.group) else Current(v)
    ensures Next(v, myId, e).online == if e.Relogin? then true else if e.Status? then e.on else v.online
  {
    match e
    case Send(_, _) =>
    case Chat(from, name, time, text) => MessageStays(v, Key(from, false), Msg(false, name, time, text));
    case GroupChat(groupid, _, name, time, text) => MessageStays(v, Key(groupid, true), Msg(false, name, time, text));
    case Switch(_, _) =>
    case Relogin(batch) => ReloginStays(v, batch);
    case Status(_) =>
  }

  lemma {:induction false} MessageShown(v: View, to: Key, m: Msg)
    ensures AfterMessage(v, to, m).shown == v.shown + if to == Current(v) then [m] else []
  {
    NoMore(v.shown);
  }

  /** What is added to the open conversation by anything but a relogin is displayed below what was, and nothing else is. */
  lemma {:induction false} EventShown(v: View, myId: int, e: Event)
    requires !e.Switch? && !e.Relogin?
    ensures Next(v, myId, e).shown == v.shown + Added(v, myId, e, Current(v))
  {
    NoMore(v.shown);
    match e
    case Send(_, _) =>
    case Chat(from, name, time, text) => MessageShown(v, Key(from, false), Msg(false, name, time, text));
    case GroupChat(groupid, _, name, time, text) => MessageShown(v, Key(groupid, true), Msg(false, name, time, text));
    case Status(_) =>
  }

  // ---------- all event sequences ----------

  /** A relogin batch holds no stray entry for the conversation open at that moment. */
  predicate Clean(v: View, e: Event) {
    e.Relogin? ==> NoStray(e.batch, Current(v))
  }

  function Run(v: View, myId: int, events: seq<Event>): View
    decreases |events|
  {
    if events == [] then v else Run(Next(v, myId, events[0]), myId, events[1..])
  }

  /** No batch with a stray entry since the open conversation was opened; agreed says whether there was none before. */
  predicate CleanSinceOpened(v: View, agreed: bool, myId: int, events: seq<Event>)
    decreases |events|
  {
    if events == [] then agreed
    else CleanSinceOpened(Next(v, myId, events[0]), events[0].Switch? || (agreed && Clean(v, events[0])), myId, events[1..])
  }

  lemma {:induction false} StepKeeps(v: View, myId: int, e: Event)
    requires HistoriesAgree(v)
    ensures HistoriesAgree(Next(v, myId, e))
    ensures e.Switch? || (ViewAgrees(v) && Clean(v, e)) ==> ViewAgrees(Next(v, myId, e))
  {
    match e
    case Send(text, time) => SendKeeps(v, text, time);
    case Chat(from, name, time, text) => MessageKeeps(v, Key(from, false), Msg(false, name, time, text));
    case GroupChat(groupid, from, name, time, text) =>
      if from != myId {
        MessageKeeps(v, Key(groupid, true), Msg(false, name, time, text));
      }
    case Switch(id, group) => SwitchKeeps(v, Key(id, group));
    case Relogin(batch) =>
      ReloginHistories(v, batch);
      if ViewAgrees(v) && Clean(v, e) {
        ReloginKeeps(v, batch);
      }
    case Status(on) => SameLog(v, v.(online := on));
  }

  lemma {:induction false} RunKeeps(v: View, agreed: bool, myId: int, events: seq<Event>)
    requires HistoriesAgree(v) && (agreed ==> ViewAgrees(v))
    ensures HistoriesAgree(Run(v, myId, events))
    ensures CleanSinceOpened(v, agreed, myId, events) ==> ViewAgrees(Run(v, myId, events))
    decreases |events|
  {
    if events != [] {
      StepKeeps(v, myId, events[0]);
      RunKeeps(Next(v, myId, events[0]), events[0].Switch? || (agreed && Clean(v, events[0])), myId, events[1..]);
    }
  }

  /**
   * From the window's opening, with the offline messages of the login, through any events: every
   * history is the last 500 messages ever appended to it; and the open conversation's history is the
   * last 500 messages on display, unless a stray entry has come in since the conversation was opened.
   */
  lemma {:induction false} ViewIsReplay(offline: seq<Entry>, myId: int, events: seq<Event>)
    ensures var w := Run(AppendBatch(EMPTY, offline), myId, events);
            && (forall k :: Hist(w, k) == Last(Of(w.log, k)))
            && (CleanSinceOpened(AppendBatch(EMPTY, offline), true, myId, events) && w.target != NOBODY ==>
                  Hist(w, Current(w)) == Last(w.shown))
  {
    BatchAgrees(EMPTY, offline, Current(EMPTY));
    RunKeeps(AppendBatch(EMPTY, offline), true, myId, events);
  }

  // ---------- unread counts ----------

  function Unread(v: View, k: Key): int {
    if k.group then Get(v.unreadGroup, k.id, 0) else Get(v.unreadFriend, k.id, 0)
  }

  /** How many messages were ever appended to a conversation. */
  function Total(v: View, k: Key): nat {
    |Of(v.log, k)|
  }

  lemma {:induction false} AppendTotal(v: View, k: Key, m: Msg, other: Key)
    ensures Total(Append(v, k, m), other) == Total(v, other) + (if other == k then 1 else 0)
    ensures Unread(Append(v, k, m), other) == Unread(v, other)
    ensures Unread(Bump(v, k), other) == Unread(v, other) + (if other == k then 1 else 0)
  {
    OfAppend(v.log, Logged(k, m), other);
  }

  /** What a conversation has had beyond its unread messages. */
  function Seen(v: View, k: Key): int {
    Total(v, k) - Unread(v, k)
  }

  lemma {:induction false} BatchUnread(v: View, batch: seq<Entry>, k: Key)
    ensures Seen(AppendBatch(v, batch), k) == Seen(v, k)
  {
    if batch != [] {
      var front, e := batch[..|batch| - 1], batch[|batch| - 1];
      var w := AppendBatch(v, front);
      BatchUnread(v, front, k);
      if IsChatEntry(e) {
        AppendTotal(w, EntryKey(e), EntryMsg(e), k);
        AppendTotal(Append(w, EntryKey(e), EntryMsg(e)), EntryKey(e), EntryMsg(e), k);
      }
    }
  }

  lemma {:induction false} MessageUnread(v: View, k: Key, m: Msg, other: Key)
    requires other != Current(v)
    ensures Seen(AfterMessage(v, k, m), other) == Seen(v, other) && Current(AfterMessage(v, k, m)) == Current(v)
  {
    AppendTotal(v, k, m, other);
    AppendTotal(Append(v, k, m), k, m, other);
  }

  lemma {:induction false} ReloginUnread(v: View, batch: seq<Entry>, k: Key)
    ensures Seen(AfterRelogin(v, batch), k) == Seen(v, k) && Current(AfterRelogin(v, batch)) == Current(v)
  {
    BatchUnread(v.(online := true), batch, k);
    BatchStays(v.(online := true), batch);
  }

  lemma {:induction false} BatchCounts(v: View, batch: seq<Entry>, k: Key)
    ensures Unread(AppendBatch(v, batch), k) == Unread(v, k) + |ChatOf(batch, k)|
  {
    if batch != [] {
      BatchCounts(v, batch[..|batch| - 1], k);
    }
  }

  lemma {:induction false} MessageCounts(v: View, to: Key, m: Msg, k: Key)
    ensures Unread(AfterMessage(v, to, m), k) == Unread(v, k) + if k == to && k != Current(v) then 1 else 0
  {
  }

  /**
   * Every event but the opening of a conversation raises the unread count of each conversation by the messages it
   * adds there; only what is added live to the open conversation does not count.
   */
  lemma {:induction false} EventUnread(v: View, myId: int, e: Event, k: Key)
    requires !e.Switch?
    ensures Unread(Next(v, myId, e), k) == Unread(v, k) + if k == Current(v) && !e.Relogin? then 0 else |Added(v, myId, e, k)|
  {
    match e
    case Send(_, _) =>
    case Chat(from, name, time, text) => MessageCounts(v, Key(from, false), Msg(false, name, time, text), k);
    case GroupChat(groupid, _, name, time, text) => MessageCounts(v, Key(groupid, true), Msg(false, name, time, text), k);
    case Relogin(batch) =>
      BatchCounts(v.(online := true), batch, k);
      ChatOfBatch(batch, k.id);
    case Status(_) =>
  }

  /** Opening a conversation clears its count and no other. */
  lemma {:induction false} SwitchUnread(v: View, k: Key, other: Key)
    ensures Unread(AfterSwitch(v, k), other) == if other == k then 0 else Unread(v, other)
    ensures Total(AfterSwitch(v, k), other) == Total(v, other) && Current(AfterSwitch(v, k)) == k
  {
  }

  /** One event counts as unread exactly what it appends to a conversation that is not open. */
  lemma {:induction false} UnreadStep(v: View, myId: int, e: Event, k: Key)
    requires k != Current(v) && (e.Switch? ==> Key(e.id, e.group) != k)
    ensures Seen(Next(v, myId, e), k) == Seen(v, k) && k != Current(Next(v, myId, e))
  {
    match e
    case Send(text, time) => AppendTotal(v.(shown := v.shown + [Msg(true, "", time, text)]), Current(v), Msg(true, "", time, text), k);
    case Chat(from, name, time, text) => MessageUnread(v, Key(from, false), Msg(false, name, time, text), k);
    case GroupChat(groupid, from, name, time, text) =>
      MessageUnread(v, Key(groupid, true), Msg(false, name, time, text), k);
    case Switch(id, group) => SwitchUnread(v, Key(id, group), k);
    case Relogin(batch) => ReloginUnread(v, batch, k);
    case Status(on) =>
  }

  ghost predicate NeverOpened(events: seq<Event>, k: Key) {
    forall i :: 0 <= i < |events| ==> (events[i].Switch? ==> Key(events[i].id, events[i].group) != k)
  }

  /**
   * Over any run during which a conversation is not open, its unread count grows by exactly
   * the number of messages appended to it.
   */
  lemma {:induction false} UnreadCounts(v: View, myId: int, events: seq<Event>, k: Key)
    requires k != Current(v) && NeverOpened(events, k)
    ensures var w := Run(v, myId, events); Unread(w, k) - Unread(v, k) == Total(w, k) - Total(v, k)
    decreases |events|
  {
    if events != [] {
      UnreadStep(v, myId, events[0], k);
      assert NeverOpened(events[1..], k);
      UnreadCounts(Next(v, myId, events[0]), myId, events[1..], k);
    }
  }
}
