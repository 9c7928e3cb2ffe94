/** The wire protocol shared by server and client: message kinds and parsed bodies. */
module Protocol {

  datatype Option<+T> = None | Some(value: T)

  const LOGIN_MSG := 1
  const LOGINOUT_MSG := 3
  const ONE_CHAT_MSG := 6
  const GROUP_CHAT_MSG := 10
  const FRIEND_STATE_CHANGE_MSG := 11
  const HEARTBEAT_MSG := 13

  /** A parsed JSON body. Every field may be absent; text stands for all other content. */
  datatype Json = Json(
    msgid: Option<int>,
    id: Option<int>,
    toid: Option<int>,
    groupid: Option<int>,
    password: Option<string>,
    friendid: Option<int>,
    online: Option<bool>,
    text: string)

  predicate IsChat(js: Json) {
    js.msgid == Some(ONE_CHAT_MSG) || js.msgid == Some(GROUP_CHAT_MSG)
  }

  /** The transient notice that a friend went online or offline. */
  function Presence(userid: int, online: bool): Json {
    Json(Some(FRIEND_STATE_CHANGE_MSG), None, None, None, None, Some(userid), Some(online), "")
  }
}
