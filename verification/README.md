# A verified model of the clustered chat server and its client

The repository is a chat system: several server processes share a MySQL database and a Redis
Pub/Sub broker, and a Qt client talks to one of them over TCP. This project models the parts of
it that carry state from call to call, and proves what they guarantee over every run.

- **Routing and presence** (`Protocol`, `Routing`, `Delivery`, `Accounting`, `Sessions`, `Presences`,
  `Connections`, `CutOff`, `Replies`, `Effects`, `Witnesses`, `ChatService.dfy`). `Routing` gives each handler of one server as a
  function on its registrations, the shared tables and the broker; `ChatServer.ChatService` is the class whose
  methods are proved equal to those functions. `Delivery` lets any number of servers take steps in
  any order, with publishing and receiving a message as separate steps. `Accounting` counts copies of
  a message (written to a socket, queued at a subscribed server, stored offline) along a run,
  `Sessions` follows registrations and channels, `Presences` the user table and its notices, `Connections`
  registrations whose connection has closed or been shut down, `CutOff` the connections shut down for silence, and
  `Replies` a login reply on its way to the client. `Effects` says of each kind of step where everything it makes ends up
  (written, queued or stored, for whom, in which order), in terms of the tables alone.
  `Witnesses` holds runs from a fresh cluster in which the conditional properties fail.
- **Connection pool** (`PoolSteps`, `PoolRuns`, `DbPool.dfy`). What one hold of the pool mutex does,
  threads interleaved at the points where the mutex is taken, and the pool and handle classes.
- **Framing** (`Framing`). The four-byte length in network byte order (Appendix B of RFC 791), both
  incremental decoders, and arbitrary fragmentation.
- **Client connection** (`ClientSteps`, `ChatClient.dfy`, `KeepAlive`). The slots of the client over
  two flags, four timers and a socket, and the timing of the heartbeat against the server's cut-off.
- **Logger** (`LogSteps`, `AsyncLog.dfy`, `HexDump`). The queue, the writer thread with file rolling
  and partial writes, and the chunked hexadecimal printer in its character buffer.
- **Chat window** (`ChatView`, `Widget.dfy`). Bounded histories against the incrementally built view.
- **Configuration file** (`ConfigText`, `ConfigFileReader.dfy`). Parser, printer, in-place trimming.
- **Redis client** (`RedisClient`). The recorded channels against the broker's set.

In each pair a module of functions and lemmas specifies the behaviour, and a class with the
source's fields and loops is proved to implement it.

Several properties one would expect do not hold of the code in full. Each is given with the exact
condition under which it holds and, but for the open conversation, with a reachable run or an input for
which it fails:

- Exactly-once delivery: `Accounting.RunAccounting` (at-least-once always; exactly-once if and only if no
  accepted copy was published to several servers), `Witnesses.HeldTwice`.
- Channels equal registrations: `Sessions.ChannelsFollowRegistrations` (except when an unregistered
  connection closes while account -1 is registered), `Sessions.UnknownAccountLogsIn`.
- A kicked connection harms nobody: `Sessions.KickedCannotHarm` (right after the kick if and only if it carried
  no other account, later if and only if it carries no registration), `Witnesses.KickedHarms`.
- The user table says who is registered: `Presences.TruthStep` (until exactly the step that signs an account
  off on one server while another has it registered), `Witnesses.OfflineYetRegistered`.
- Registrations belong to usable connections: `Connections.GhostRun` (to open ones if and only if no closing
  connection carried two accounts) and `Connections.SoundRun` (to ones neither closed nor shut down by the server,
  with the exact steps that spoil it), `Witnesses.GhostStays`, `Witnesses.ShutYetRegistered`.
- Mail handed over at login reaches the client: `Replies.MailReachesClientIff` (if and only if the reply that
  carries it is at most 1 MiB long; the equivalence shows the loss for every longer one).
- No lost wake-up in the pool: `PoolRuns.WakeUpStep` (lost exactly by a notified waiter that reports timeout
  while its notification was needed), `PoolRuns.WakeUpLost`.
- No reconnect unasked: `ClientSteps.UnaskedReconnect` (after a logout, if and only if no handshake was under
  way; its proof gives the run).
- The heartbeat comes in time: `KeepAlive.InTimeIffCalm` (over a whole run, if and only if nothing was received
  between the first and the second tick after any send), `KeepAlive.TrafficSilences`; `CutOff.JointRun` says when
  the server acts on it, `CutOff.TrafficCutsOff` gives the run from login to shutdown.
- The exit flag reaches the log writer: `LogSteps.ExitMissedIff` (unless set exactly between the writer's check
  and its wait), `LogSteps.WindowReachable`.
- The log is complete on disk: `LogSteps.NothingLostIff` (if and only if no two files were opened within one
  second), `LogSteps.SameSecondLoses`.
- The open conversation shows its history: `ChatView.ReloginAgreesIff` (if and only if a relogin batch has no
  non-chat entry with the open friend's id). By `Sessions.OnlyChatIsStored` this server sends none.
- A configuration reads back: `ConfigText.RoundTripIff` (if and only if every pair is clean and fits its buffer,
  where the pair written last may do without its newline), `ConfigText.CommentLost`.
- The broker holds the recorded channels: `RedisClient.StepSettles` (a command or a new connection leaves a
  channel settled if and only if no command still to be recorded for it says otherwise; `RedisClient.SettledIff`
  says what settled means), `RedisClient.OvertakenSubscribe`.

Where code and documentation disagree the code is followed: `ChatServer/include/server/db/pooledmysql.hpp:177`
says waiters get null on shutdown, but acquire never looks at the flag, so in the model a woken waiter
scans again and may open a new connection.

## Model

| member | source | states |
|---|---|---|
| ChatServer.ChatService.Login | ChatServer/src/server/chatservice.cpp:69-194 | the login handler changes registrations, tables, broker and sockets exactly as the login function does: forced relogin, offline mail in the reply, drain, presence |
| ChatServer.ChatService.Loginout | ChatServer/src/server/chatservice.cpp:236-264 | logout removes the registration and the channel, sets the row offline and tells the friends; without an id nothing happens |
| ChatServer.ChatService.FindRegistration | ChatServer/src/server/chatservice.cpp:269-282 | finds some registration of the closing connection, or none exactly when there is none |
| ChatServer.ChatService.ClientCloseException | ChatServer/src/server/chatservice.cpp:267-300 | removes that one registration, and unsubscribes channel -1 when there was none |
| ChatServer.ChatService.OneChat | ChatServer/src/server/chatservice.cpp:303-337 | writes, publishes or stores, in this order of preference |
| ChatServer.ChatService.ForwardLocally | ChatServer/src/server/chatservice.cpp:447-463 | writes to the members registered here and collects exactly the others, in order |
| ChatServer.ChatService.StoreOrCollect | ChatServer/src/server/chatservice.cpp:466-477 | stores for the members the table calls offline and collects exactly the online ones |
| ChatServer.ChatService.GroupChat | ChatServer/src/server/chatservice.cpp:436-483 | each member but the sender is written to, published to or stored for |
| ChatServer.ChatService.HandleRedisSubscribeMessage | ChatServer/src/server/chatservice.cpp:486-521 | a delivered message goes to the registered connection, else to the offline table unless it is a presence notice |
| ChatServer.ChatService.NotifyFriendState | ChatServer/src/server/chatservice.cpp:524-559 | friends registered here are written to, the others published to |
| ChatServer.ChatService.OnBody | ChatServer/src/server/chatserver.cpp:62-68 | the last-message time is updated before the handler of the message id runs |
| ChatServer.ChatService.CheckHeartbeat | ChatServer/src/server/chatservice.cpp:596-615 | shuts down exactly the connections silent for more than 30 seconds |
| Delivery.LoginKeeps | ChatServer/src/server/chatservice.cpp:69-182 | a login keeps the cluster invariant and leaves other servers' channels alone |
| Delivery.LogoutKeeps | ChatServer/src/server/chatservice.cpp:236-264 | so does a logout |
| Delivery.CloseKeeps | ChatServer/src/server/chatservice.cpp:267-300 | so does a closing connection |
| Delivery.GroupChatKeeps | ChatServer/src/server/chatservice.cpp:436-483 | so does a group message |
| Delivery.RedeliverKeeps | ChatServer/src/server/chatservice.cpp:486-521 | so does a delayed delivery |
| Delivery.InvStep | ChatServer/src/server/chatservice.cpp:69-559 | every step of every server keeps: online users are subscribed somewhere, channels and registrations agree, only chat for existing users is stored |
| Accounting.FanoutCount | ChatServer/src/server/redis/redis.cpp:97-116 | a publish queues one copy per server subscribed at that moment |
| Accounting.OfflineSplit | ChatServer/src/server/chatservice.cpp:123-179 | the mail handed over plus the rows left are the rows there were |
| Accounting.HeldLogin | ChatServer/src/server/chatservice.cpp:122-179 | a login moves offline rows into its reply and loses none |
| Accounting.HeldDeliver | ChatServer/src/server/chatservice.cpp:486-521 | delivery keeps a queued message held even if the recipient logged out in between |
| Accounting.HeldGroupChat | ChatServer/src/server/chatservice.cpp:436-483 | a group message adds exactly the copies owed to each member |
| Accounting.StepAccounting | ChatServer/src/server/chatservice.cpp:303-521 | exact count of copies after any step: what was held, plus what was accepted times the copies made |
| Accounting.AtLeastOneCopy | ChatServer/src/server/chatservice.cpp:326-336 | an accepted message always gets at least one copy: no publish reaches nobody |
| Accounting.RunAccounting | ChatServer/src/server/chatservice.cpp:303-337 | at-least-once over every run of any number of servers, exactly-once if and only if nothing was copied twice |
| Accounting.Conservation | ChatServer/src/server/chatservice.cpp:69-182 | exact conservation per recipient and message when no user is registered on two servers at once |
| Accounting.WrittenToRegistered | ChatServer/src/server/chatservice.cpp:303-324 | every chat packet and mail-carrying login reply goes to the connection registered for its recipient |
| Connections.GhostStep | ChatServer/src/server/chatservice.cpp:269-282 | registrations keep belonging to open connections through a step if and only if it does not close one that carries two accounts |
| Connections.GhostRun | ChatServer/src/server/chatservice.cpp:267-300 | over every run they do throughout if and only if every closing connection carried one account at most |
| Connections.WrittenToOpen | ChatServer/src/server/chatservice.cpp:303-337 | as long as they do, whatever is written for a user goes to a connection that has not closed |
| Connections.SoundStep | ChatServer/src/server/chatservice.cpp:596-615 | registrations keep belonging to connections neither closed nor shut through a step if and only if it does not close one with two accounts, cut off a registered one, log in on a shut one, or kick one that keeps or gets a registration |
| Connections.SoundRun | ChatServer/src/server/chatservice.cpp:84-100 | over every run they do throughout if and only if no step is of that kind |
| Connections.WrittenToUsable | ChatServer/src/server/chatservice.cpp:303-337 | as long as they do, whatever is written for a user goes to a connection neither closed nor shut |
| Replies.BodyHeard | QtClient/Client/chatclient.cpp:256-287 | in whatever chunks a body comes, the client hears it if and only if it is at most 1 MiB long, and aborts on a longer one |
| Replies.MailReachesClientIff | ChatServer/src/server/chatservice.cpp:122-179 | the rows of an accepted login are gone whatever happens; their content reaches the client if and only if the reply is at most 1 MiB long |
| Witnesses.HeldTwice | ChatServer/src/server/chatservice.cpp:326-332 | a reachable run in which one accepted message is held twice |
| Witnesses.OfflineYetRegistered | ChatServer/src/server/chatservice.cpp:259-263 | a reachable run after which a user is offline in the table and registered on a server |
| Witnesses.KickedHarms | ChatServer/src/server/chatservice.cpp:269-282 | a reachable run after which the close of a kicked connection signs another account off |
| Witnesses.GhostStays | ChatServer/src/server/chatservice.cpp:269-282 | a run from the fresh cluster and no closed connection, after which a registration has outlived its connection |
| Witnesses.ShutYetRegistered | ChatServer/src/server/chatservice.cpp:610-614 | a run from the fresh cluster after which a connection cut off for silence is still registered |
| Delivery.FanoutFlights | ChatServer/src/server/redis/redis.cpp:97-116 | copies are queued only at servers subscribed to the channel when the message is published |
| Presences.NoticeCount | ChatServer/src/server/chatservice.cpp:524-559 | every friend gets the notice exactly as often as listed: at once if registered here, else through each subscribed server |
| Effects.ChatGoes | ChatServer/src/server/chatservice.cpp:303-337 | a chat message accepted anywhere is written if its recipient is registered on that server, else queued once per subscribed server if the row says online, else stored, in the number accepted; no other place changes |
| Effects.AddressedToOne | ChatServer/src/server/chatservice.cpp:303-310 | a one-to-one message is for its addressee, once, if there is such an account |
| Effects.AddressedToGroup | ChatServer/src/server/model/groupmodel.cpp:104-125 | a group message is for every member with an account as often as listed, except its sender |
| Effects.DeliverGoes | ChatServer/src/server/chatservice.cpp:486-521 | a delivered message leaves the queue and is written if its user is registered there, dropped if it is a notice, stored otherwise; nothing else moves |
| Effects.FriendsAreTold | ChatServer/src/server/chatservice.cpp:524-559 | at a login, a logout and a loss of connection every friend gets that notice, field by field, as often as listed: written if registered on that server afterwards, else queued for each subscribed server |
| Effects.LetIn | ChatServer/src/server/chatservice.cpp:80-84 | who is let in, in terms of the user table and the password; account -1 with an empty one too |
| Effects.RefusalAnswered | ChatServer/src/server/chatservice.cpp:184-194 | a refused login is answered with error 1 on its connection and changes nothing else |
| Effects.OtherBodies | ChatServer/src/server/chatservice.cpp:576-581 | a heartbeat is answered on its connection; like every body it renews the time, and nothing else changes |
| Effects.OneMarkChanges | ChatServer/src/server/chatservice.cpp:113-115 | of all server steps only an accepted login, a logout and a close change the user table: the mark of that account, never its password or another row |
| Effects.PublishedLast | ChatServer/src/server/redis/redis.cpp:97-116 | a published message goes to the end of what is queued for each server subscribed to its channel, and to no other server |
| Effects.DeliveredFirst | ChatServer/src/server/redis/redis.cpp:185-257 | a delivery takes the first message queued for its server and leaves every other queue as it was |
| Effects.MailInOrder | ChatServer/src/server/model/offlinemessagemodel.cpp:34-57 | mail is handed over in the order of its rows, whatever rows of others lie between |
| Effects.StoredLast | ChatServer/src/server/model/offlinemessagemodel.cpp:5-18 | a message stored for a user becomes the last of that user, and nobody else's mail changes |
| Presences.LoginOutcome | ChatServer/src/server/chatservice.cpp:84-182 | an accepted login sets the row online, shuts the user's previous connection here if the table said online, replies with all the offline mail and leaves none |
| Presences.DispatchUsers | ChatServer/src/server/chatservice.cpp:113-115 | only login and logout change the user table, one state of the account they name |
| Presences.CloseUsers | ChatServer/src/server/chatservice.cpp:292-299 | a close sets the one account found offline, and none when there was none |
| Presences.TruthStep | ChatServer/src/server/chatservice.cpp:236-300 | "online in the table" keeps meaning "registered on some server" if and only if the step does not sign an account off here that is registered elsewhere |
| Presences.TruthRun | ChatServer/src/server/chatservice.cpp:69-300 | over every run without such a step the two agree in every state |
| Sessions.FreshClusterInv | ChatServer/src/server/chatservice.cpp:43-47 | a cluster with everybody offline satisfies the invariant |
| Sessions.OnlineIsReachable | ChatServer/src/server/chatservice.cpp:84-115 | in every run an online user is registered and subscribed on one and the same server |
| Sessions.OnlyChatIsStored | ChatServer/src/server/chatservice.cpp:511-520 | in every run the offline table holds only one-to-one and group messages |
| Sessions.LoginSessions | ChatServer/src/server/chatservice.cpp:84-108 | a login registers exactly that user on that connection and subscribes exactly that channel |
| Sessions.ChannelsFollowRegistrations | ChatServer/src/server/chatservice.cpp:267-300 | channels equal registrations after a step if and only if it is not a close of an unregistered connection beside account -1 |
| Sessions.UnknownAccountLogsIn | ChatServer/src/server/chatservice.cpp:80-84 | account -1 with an empty password logs in without a row, and then the equality can break |
| Sessions.RunChannelsMatch | ChatServer/src/server/chatservice.cpp:236-300 | with no login as -1, channels equal registrations on every server in every run |
| Sessions.UnregisteredCloseHarmless | ChatServer/src/server/chatservice.cpp:267-300 | closing a connection changes no session if and only if it carries no registration |
| Sessions.KickedCannotHarm | ChatServer/src/server/chatservice.cpp:86-100 | right after the kick, the close of the kicked connection harms nobody if and only if it carried no other account; it then stays so through any run without its own login; at any time it is so if and only if the connection carries no registration |
| PoolSteps.ScanGives | ChatServer/src/server/db/dbpool.cpp:128-181 | however pings end, a hold of the mutex takes from the front of the queue, opens a replacement, leaves to create one below the maximum, or waits at it |
| PoolSteps.ScanFirstFit | ChatServer/src/server/db/dbpool.cpp:131-156 | the connection handed out is the first in the queue that is not lost: itself if used within 30 seconds or answering its ping, else its replacement, recorded at the moment it was looked at; all are lost when none is handed out |
| ConnectionPool.DbPool.Init | ChatServer/src/server/db/dbpool.cpp:36-72 | bad sizes change nothing; otherwise the connections opened join whatever the pool holds, a shutdown is taken back, and failure means the queue is empty |
| ConnectionPool.OpenedEntries | ChatServer/src/server/db/dbpool.cpp:55-62 | one idle entry for each successful opening, each a different new connection used just now |
| ConnectionPool.InitIsFresh | ChatServer/src/server/db/dbpool.cpp:36-72 | on a new pool init gives the state from which every interleaving is considered |
| ConnectionPool.DbPool.Scan | ChatServer/src/server/db/dbpool.cpp:128-181 | the acquire loop under the mutex, with at most one retry per idle connection |
| ConnectionPool.DbPool.AfterCreate | ChatServer/src/server/db/dbpool.cpp:161-172 | the mutex taken again after a creation attempt outside it |
| ConnectionPool.DbPool.ReturnConnection | ChatServer/src/server/db/dbpool.cpp:87-97 | a returned connection becomes idle and notifies one waiter, except after shutdown |
| ConnectionPool.DbPool.ShutDown | ChatServer/src/server/db/dbpool.cpp:75-84 | empties queue and records once and notifies everybody |
| ConnectionPool.PooledMySQL.Release | ChatServer/src/server/db/dbpool.cpp:185-205 | a handle returns its connection the first time only |
| ConnectionPool.ReleaseThenDestroy | ChatServer/src/server/db/dbpool.cpp:185-205 | explicit release followed by destruction returns the connection once |
| PoolRuns.InvStep | ChatServer/src/server/db/dbpool.cpp:75-205 | no two unreturned handles share a connection, none is idle, the queue has no duplicates, the count is borrowed plus creating, idle plus count stay within the maximum |
| PoolRuns.WakeUpStep | ChatServer/src/server/db/dbpool.cpp:87-97 | while someone sleeps un-notified the idle connections do not exceed the notified waiters; only a late timeout can break this, and exactly when |
| PoolRuns.WakeUpLost | ChatServer/src/server/db/dbpool.cpp:174-181 | a run from init in which a notified waiter times out and another sleeps beside an idle connection |
| PoolRuns.BlocksOnlyWhenFull | ChatServer/src/server/db/dbpool.cpp:158-181 | a thread sleeps only when exactly the maximum is in use or being opened |
| PoolRuns.RetriesAtMostMax | ChatServer/src/server/db/dbpool.cpp:138-151 | the ping-failure loop repeats at most maximum-size times per hold |
| PoolRuns.OnlyNewAfterShutdown | ChatServer/src/server/db/dbpool.cpp:87-92 | after shutdown only brand-new connections are ever handed out |
| PoolRuns.PoolTheorem | ChatServer/src/server/db/dbpool.cpp:36-205 | all of this in every interleaving from init, for any number of threads |
| Framing.HeaderRoundTrip | ChatServer/src/server/chatservice.cpp:561-568 | the four-byte header reads back as the body length |
| Framing.PeekFour | ChatServer/src/server/chatserver.cpp:45-62 | the length is read most significant byte first; zero and more than 1048576 are impossible, otherwise a body is taken as soon as it is whole |
| Framing.Resume | QtClient/Client/chatclient.cpp:256-287 | decoding may stop anywhere and resume with the leftover |
| Framing.ChunksDoNotMatter | ChatServer/src/server/chatserver.cpp:45-82 | up to the first impossible length the cut into chunks is irrelevant |
| Framing.DecodePrefix | ChatServer/src/server/chatserver.cpp:45-60 | a beginning of a stream gives its complete bodies and keeps a strict beginning of the next frame |
| Framing.FragmentedRoundTrip | ChatServer/src/server/chatserver.cpp:45-82 | every split of every stream gives exactly the bodies in order, with less than a frame kept after each chunk |
| Framing.ServerConnection.OnMessage | ChatServer/src/server/chatserver.cpp:45-82 | the server loop dispatches the decoded bodies that parse and keeps the rest; an impossible length empties the buffer |
| Framing.ClientReceiver.OnReadyRead | QtClient/Client/chatclient.cpp:256-287 | the client loop does the same, and aborts the socket on an impossible length |
| Framing.ServerReceives | ChatServer/src/server/chatserver.cpp:45-82 | a server fed any chunks dispatches exactly the messages sent; unparsable bodies do not desynchronise it |
| Framing.ClientReceives | QtClient/Client/chatclient.cpp:256-287 | so does the client, which never aborts on such a stream |
| ClientSteps.StepKeeps | QtClient/Client/chatclient.cpp:59-365 | every slot on every event keeps the invariant of flags, timers and socket |
| ClientSteps.SlotsAreFields | QtClient/Client/chatclient.cpp:59-365 | every slot agrees with the rules of each flag, each timer, the account and the socket told on their own: what starts it, what ends it, and that nothing else touches it |
| ClientSteps.NeverStuck | QtClient/Client/chatclient.cpp:289-333 | in every run: after an intentional disconnect no timer reconnects; a client that wants its login and has no connection is retrying; a login under way is timed |
| ClientSteps.UnaskedReconnect | QtClient/Client/chatclient.cpp:171-187 | after loginout, without the user, the reconnect timer starts in some run if and only if a handshake was under way |
| QtClient.ChatClient.Abort | QtClient/Client/chatclient.cpp:289-300 | abort runs the disconnected slot only if a connection existed |
| QtClient.ChatClient.ConnectToServer | QtClient/Client/chatclient.cpp:59-67 | clears the intentional flag, aborts, connects |
| QtClient.ChatClient.Login | QtClient/Client/chatclient.cpp:86-99 | remembers the account, wants it back, starts the login timer |
| QtClient.ChatClient.Loginout | QtClient/Client/chatclient.cpp:171-187 | stops all timers and hangs up; a second call does nothing |
| QtClient.ChatClient.Relogin | QtClient/Client/chatclient.cpp:228-237 | reconnects for a known account only |
| QtClient.ChatClient.OnConnected | QtClient/Client/chatclient.cpp:239-254 | stops retrying and logs in again if wanted |
| QtClient.ChatClient.OnDisconnected | QtClient/Client/chatclient.cpp:289-300 | stops the heartbeat timers and retries unless intentional |
| QtClient.ChatClient.OnError | QtClient/Client/chatclient.cpp:302-313 | retries unless intentional |
| QtClient.ChatClient.OnReconnectTimeout | QtClient/Client/chatclient.cpp:315-324 | starts a handshake only from the unconnected state |
| QtClient.ChatClient.OnLoginTimeout | QtClient/Client/chatclient.cpp:326-333 | aborts, which from a handshake is silent |
| QtClient.ChatClient.OnHeartbeatTimeout | QtClient/Client/chatclient.cpp:216-226 | aborts and retries unless intentional |
| QtClient.ChatClient.SendHeartbeat | QtClient/Client/chatclient.cpp:196-214 | a heartbeat goes out if and only if connected and idle for 15 seconds, and its reply is then awaited |
| QtClient.ChatClient.OnLoginAck | QtClient/Client/chatclient.cpp:341-366 | success starts the heartbeat, rejection forgets the account, a malformed reply only stops the login timer |
| KeepAlive.CalmRun | QtClient/Client/chatclient.cpp:196-214 | over every run with any traffic in which nothing is received between the first and the second tick after a send, the client is never silent for more than 30 seconds |
| KeepAlive.InTimeIffCalm | QtClient/Client/chatclient.cpp:200-201 | over every run from any login or later state, the next look always comes within 30 seconds of the last send if and only if the run is of that kind |
| KeepAlive.PromptClient | QtClient/Client/chatclient.cpp:196-214 | from a login answered within five seconds, a client whose replies are prompt makes only such runs |
| KeepAlive.TrafficSilences | QtClient/Client/chatclient.cpp:256-259 | a run in which incoming traffic alone makes a live client silent from second 15 to second 60 |
| CutOff.LoginInStep | QtClient/Client/chatclient.cpp:341-358 | a login answered within five seconds leaves the server knowing the time of the client's last send |
| CutOff.JointRun | ChatServer/src/server/chatservice.cpp:596-615 | however cluster, checks and any client interleave, the server knows the time of its last send, and its connection is shut if and only if some check comes more than 30 seconds after it or a login kicks it |
| CutOff.NeverCutOff | ChatServer/src/server/chatservice.cpp:596-615 | for a calm client no check ever comes too late, only a kick shuts its connection, and it is not stale before the next tick |
| CutOff.TrafficCutsOff | ChatServer/src/server/chatservice.cpp:602-614 | in any cluster a run from the login of a client that only receives, through the check at second 46, to the shutdown of its connection |
| CutOff.BodyTracks | ChatServer/src/server/chatservice.cpp:570-574 | a parsed body renews the time of its own connection only; a logout ends the tracking |
| CutOff.StepShut | ChatServer/src/server/chatservice.cpp:86-100 | a step shuts a connection if and only if it is a login that kicks it or a check that finds it stale, and nothing reopens it |
| CutOff.SilentRun | ChatServer/src/server/chatservice.cpp:570-615 | over every run of the whole cluster a silent connection keeps its time, and is shut if and only if a check of its server comes more than 30 seconds later or a login kicks it |
| CutOff.SilentIsShut | ChatServer/src/server/chatservice.cpp:584-615 | with checks 15 seconds apart, whatever else happens, the check that shuts it comes 31 to 45 seconds after its last message, and only a kick shuts it earlier |
| LogSteps.PiecesDoNotMatter | ChatServer/src/asynclog/AsyncLog.cpp:488-512 | two partial writes in a row are one |
| LogSteps.StepKeeps | ChatServer/src/asynclog/AsyncLog.cpp:520-588 | every step of producers, writer and exit keeps queue order, file contents, the size counter and the closed files |
| LogSteps.Faithful | ChatServer/src/asynclog/AsyncLog.cpp:520-588 | in every run the files together are the dequeued lines in lock order up to the unwritten part of one; closed files reach the roll size and without their last line do not |
| LogSteps.ExitsDrained | ChatServer/src/asynclog/AsyncLog.cpp:558-564 | the writer leaves through the exit flag only with every pushed line in the files |
| LogSteps.NoLostWakeUp | ChatServer/src/asynclog/AsyncLog.cpp:180-185 | in every run a sleeping writer has an empty queue |
| LogSteps.ExitMissedIff | ChatServer/src/asynclog/AsyncLog.cpp:100-107 | whatever follows, setting the flag may end with uninit joining a sleeping writer if and only if it is set between the check and the wait |
| LogSteps.WindowReachable | ChatServer/src/asynclog/AsyncLog.cpp:557-564 | that moment is reached from the start |
| LogSteps.NothingLostIff | ChatServer/src/asynclog/AsyncLog.cpp:476-486 | the disk holds exactly the dequeued lines if and only if no file name recurs |
| LogSteps.SameSecondLoses | ChatServer/src/asynclog/AsyncLog.cpp:534-550 | a run in which two files of one second lose a line |
| LogSteps.PushKeeps | ChatServer/src/asynclog/AsyncLog.cpp:180-185 | a push by any producer, whatever the writer is doing, keeps the lines in push order and wakes a sleeping writer |
| AsyncLogger.AsyncLog.Roll | ChatServer/src/asynclog/AsyncLog.cpp:526-553 | a new file when there is none or the current one is full |
| AsyncLogger.AsyncLog.Take | ChatServer/src/asynclog/AsyncLog.cpp:555-568 | the first line, if there is one |
| AsyncLogger.AsyncLog.WriteToFile | ChatServer/src/asynclog/AsyncLog.cpp:488-512 | the file grows by exactly the accepted prefix; true if and only if the data was not empty and all accepted |
| AsyncLogger.AsyncLog.WriteLine | ChatServer/src/asynclog/AsyncLog.cpp:578-584 | the line goes to the file and is counted, whatever the pieces |
| AsyncLogger.AsyncLog.Turn | ChatServer/src/asynclog/AsyncLog.cpp:524-585 | one turn of the loop keeps the invariant and takes exactly the first line, or finds the queue empty |
| AsyncLogger.AsyncLog.WriteThreadProc | ChatServer/src/asynclog/AsyncLog.cpp:520-588 | after the exit flag the writer drains the queue into the files, in order, and stops |
| HexDump.RoundTrip | ChatServer/src/asynclog/AsyncLog.cpp:388-422 | reading a dump back recovers the bytes, for every buffer and every first row |
| HexDump.PaddedValue | ChatServer/src/asynclog/AsyncLog.cpp:380-386 | the digits of a row number denote it, for every number |
| HexDump.RowsNumbered | ChatServer/src/asynclog/AsyncLog.cpp:388-422 | the numbers read off the lines of a dump count up from its first row, one for every 32 bytes begun |
| HexDump.DumpChunks | ChatServer/src/asynclog/AsyncLog.cpp:334-378 | dumping chunk by chunk with a running row number is dumping at once |
| HexDump.PrintedLast | ChatServer/src/asynclog/AsyncLog.cpp:396-418 | one byte appends its separator and its two digits, at every position in a row |
| HexDump.PrintedIsDump | ChatServer/src/asynclog/AsyncLog.cpp:419-421 | the text of the loop plus a newline is the specified dump |
| HexDump.ChunkFits | ChatServer/src/asynclog/AsyncLog.cpp:396 | with any row numbers a chunk writes at most 1250 of 1544 characters, so the guard never stops the loop |
| HexDump.FullChunk | ChatServer/src/asynclog/AsyncLog.cpp:388-422 | with six-digit row numbers a full chunk writes exactly 1185 characters |
| HexDump.PutSeparator | ChatServer/src/asynclog/AsyncLog.cpp:398-415 | newline, row number and spaces, with the length equal to the C string's |
| HexDump.FormLog | ChatServer/src/asynclog/AsyncLog.cpp:388-422 | the buffer holds exactly the dump of the chunk as a C string |
| HexDump.OutputBinary | ChatServer/src/asynclog/AsyncLog.cpp:334-378 | the stream is the header followed by the dump of the whole buffer, and reads back as the buffer |
| ChatView.LastAppend | QtClient/Client/widget.cpp:662-670 | lists with the same last 500 keep them under a common extension |
| ChatView.StepKeeps | QtClient/Client/widget.cpp:72-110 | every slot, with any batch, keeps histories equal to the last 500 appended, and the open one equal to the last 500 shown unless it is a relogin with a stray entry; opening a conversation restores that |
| ChatView.EventLog | QtClient/Client/widget.cpp:72-376 | every event appends to each conversation exactly what belongs there: live and offline group messages under their group, one-to-one messages under their sender, own ones under the open conversation, a group's echo nowhere |
| ChatView.EventStays | QtClient/Client/widget.cpp:479-484 | only opening a conversation changes which one is open; only a login and the status signal set the online flag |
| ChatView.EventShown | QtClient/Client/widget.cpp:321-376 | a live or own message is displayed, below what was, if and only if it belongs to the open conversation |
| ChatView.ReplayIsChat | QtClient/Client/widget.cpp:97-109 | the replay displays what the batch appended if and only if it has no stray entry |
| ChatView.ReloginAgreesIff | QtClient/Client/widget.cpp:72-110 | with at most 500 messages on display, a relogin leaves view and history in agreement if and only if its batch has no stray entry |
| ChatView.ViewIsReplay | QtClient/Client/widget.cpp:321-515 | for every sequence of events with any batches, every history is the last 500 appended, and the open one the last 500 shown unless a stray entry came in since it was opened |
| ChatView.UnreadStep | QtClient/Client/widget.cpp:343-376 | an event adds to the unread count exactly what it appends to a conversation that is not open |
| ChatView.EventUnread | QtClient/Client/widget.cpp:72-376 | every event but an opening raises each unread count by the messages it adds there, except what is added live to the open conversation; a relogin counts even the open one |
| ChatView.SwitchUnread | QtClient/Client/widget.cpp:485-495 | opening a conversation clears its count and no other |
| ChatView.UnreadCounts | QtClient/Client/widget.cpp:343-376 | over any run in which a conversation is not open its unread count grows by exactly the messages appended to it |
| MainWindow.Widget.constructor | QtClient/Client/widget.cpp:24-43 | the login's offline messages are in the histories when the window opens |
| MainWindow.Widget.AppendToHistory | QtClient/Client/widget.cpp:662-670 | one message appended, the oldest dropped beyond 500 |
| MainWindow.Widget.RebuildChatFromHistory | QtClient/Client/widget.cpp:672-679 | displays the whole history in order |
| MainWindow.Widget.SwitchToTarget | QtClient/Client/widget.cpp:479-515 | clears unread count and view, then replays |
| MainWindow.Widget.OnSendClicked | QtClient/Client/widget.cpp:321-341 | sends to exactly the open friend or group, shows and records, if and only if online with an open conversation and some text |
| MainWindow.Widget.OnChatMsg | QtClient/Client/widget.cpp:343-357 | shown when its conversation is open, else unread |
| MainWindow.Widget.OnGroupMsg | QtClient/Client/widget.cpp:359-376 | the same for groups, the own messages ignored |
| MainWindow.Widget.OnLoginSuccess | QtClient/Client/widget.cpp:72-110 | appends the whole batch, then displays the part for the open conversation |
| ConfigText.TrimFacts | ChatServer/src/config/ConfigFileReader.cpp:131-156 | what trimming leaves is trimmed and made of the string's characters |
| ConfigText.TrimExact | ChatServer/src/config/ConfigFileReader.cpp:131-156 | trimming takes exactly the spaces, tabs and carriage returns at both ends |
| ConfigText.FgetsStops | ChatServer/src/config/ConfigFileReader.cpp:58-63 | a read ends with the first newline, or after 255 characters, or with the text |
| ConfigText.FirstWins | ChatServer/src/config/ConfigFileReader.cpp:116-129 | of several pairs with one key the first counts |
| ConfigText.LoadedIsClean | ChatServer/src/config/ConfigFileReader.cpp:50-81 | from any text every loaded pair is clean |
| ConfigText.ReadWritten | ChatServer/src/config/ConfigFileReader.cpp:83-114 | clean pairs that fit are read back, in order |
| ConfigText.Swallowed | ChatServer/src/config/ConfigFileReader.cpp:103-105 | a line cut before its newline swallows the next one |
| ConfigText.WrittenLoads | ChatServer/src/config/ConfigFileReader.cpp:58-66 | whatever is written of C strings can be loaded |
| ConfigText.RoundTripIff | ChatServer/src/config/ConfigFileReader.cpp:50-129 | for every map in every order: loading the written file gives the map if and only if all pairs are clean and fit |
| ConfigText.CommentLost | ChatServer/src/config/ConfigFileReader.cpp:69-71 | a value with the comment sign does not survive |
| ConfigReader.TrimSpace | ChatServer/src/config/ConfigFileReader.cpp:131-156 | trims in place inside the string, NULL exactly when nothing is left |
| ConfigReader.Fgets | ChatServer/src/config/ConfigFileReader.cpp:58-63 | takes at most 255 characters, up to a newline, of any text; the buffer holds the C string of them |
| ConfigReader.ConfigFileReader.ReadChunk | ChatServer/src/config/ConfigFileReader.cpp:65-76 | newline and comment off, then the line |
| ConfigReader.ConfigFileReader.ParseLine | ChatServer/src/config/ConfigFileReader.cpp:116-129 | splits at the first equals sign, trims both sides, keeps the first value of a key |
| ConfigReader.ConfigFileReader.LoadFile | ChatServer/src/config/ConfigFileReader.cpp:50-81 | the map holds what the text specifies |
| ConfigReader.ConfigFileReader.WriteFile | ChatServer/src/config/ConfigFileReader.cpp:83-114 | one line per pair, cut at 127 characters; a failed open writes nothing, a failed write leaves the pairs before it |
| ConfigReader.ConfigFileReader.SetConfigValue | ChatServer/src/config/ConfigFileReader.cpp:33-49 | updates one key and rewrites the file, which can then be loaded; a fresh load has the updated map if and only if its pairs survive |
| RedisClient.Redis.BufferWrite | ChatServer/src/server/redis/redis.cpp:132-140 | the write loop ends true when all is out, and leaves the context broken otherwise |
| RedisClient.Redis.Subscribe | ChatServer/src/server/redis/redis.cpp:119-149 | on success the channel is recorded and subscribed, otherwise both sets stay and the context is unusable; no other channel changes in either |
| RedisClient.Redis.Unsubscribe | ChatServer/src/server/redis/redis.cpp:152-182 | on success the channel is neither recorded nor subscribed, otherwise both sets stay and the context is unusable; no other channel changes in either |
| RedisClient.Redis.Resubscribe | ChatServer/src/server/redis/redis.cpp:259-300 | true if and only if the new connection holds exactly the recorded channels |
| RedisClient.SettledIff | ChatServer/src/server/redis/redis.cpp:143-146 | a channel is settled if and only if broker and record will agree on it in whatever order its outstanding commands are recorded |
| RedisClient.StepSettles | ChatServer/src/server/redis/redis.cpp:119-300 | a command or a reconnect settles a channel, whatever was before, if and only if no command outstanding for it says otherwise; nothing else unsettles it on a usable connection |
| RedisClient.SettlesAgain | ChatServer/src/server/redis/redis.cpp:259-300 | after any past, one command or reconnect in accord with what is outstanding, and none later out of accord, settle the channel |
| RedisClient.BrokerMatches | ChatServer/src/server/redis/redis.cpp:119-300 | in every run of any number of threads without a command or reconnect out of accord, both sides agree on every channel once nothing is outstanding |
| RedisClient.AtomicMatches | ChatServer/src/server/redis/redis.cpp:119-300 | with atomic operations both sides agree on every channel of every usable connection |
| RedisClient.OvertakenSubscribe | ChatServer/src/server/redis/redis.cpp:143-146 | a reconnect between write and record leaves a channel recorded but not subscribed |
| RedisClient.CallIsRun | ChatServer/src/server/redis/redis.cpp:119-182 | a call of the class is a run of the thread model, whatever else is outstanding: command and record when it succeeds, the failed command when it does not |
| RedisClient.SubscriptionSurvives | ChatServer/src/server/redis/redis.cpp:185-300 | through any number of broken, freed and replaced connections a settled channel nobody touches stays recorded as it was, and the broker of every usable connection has it exactly when recorded |
| RedisClient.NothingWithoutConnection | ChatServer/src/server/redis/redis.cpp:185-257 | in every run the broker holds nothing for a client without a connection |

## Left out

- Atomicity of the server handlers: each is one step. The login's query, send and remove are not protected against an offline insert running inside it, so no-loss does not hold at a finer grain.
- Failing SQL statements and Redis commands, server crashes and `reset`: the delivery theorems assume commands succeed and processes stay up.
- The 2048-byte limit of the offline insert (`ChatServer/src/server/model/offlinemessagemodel.cpp:12-15`): messages are assumed to fit.
- Accounts with id -1 in the counting theorems: no row of the user table has that id.
- Registration, friend, group and name handlers: they wrap SQL statements; their effect on tables is an arbitrary Admin step that may add offline accounts and replace friends and groups.
- ChatServer.ChatService.OnBody: for those handlers it states the update of the time only; their replies are not modelled.
- ChatServer.ChatService.Login: the reply carries error code and offline mail only; name, friend list and group list are left out.
- Effects.OtherBodies: for the registration, friend, group and name handlers it states the update of the time only.
- The order of SELECT without ORDER BY: rows come in the order they were inserted.
- JSON text: bodies are opaque bytes with a parsed message or a parse failure; fields of the wrong type, which raise inside a handler, are not modelled.
- Framing after an impossible length: the server drops whatever happens to be buffered, so chunk independence is stated up to that point.
- The acquire deadline: waiting may time out at any moment; failed creation loops without testing the deadline.
- Ping, connection creation and their durations: their results are inputs. Connections are fresh identities rather than reusable addresses.
- A second init while threads use the pool: the method covers any state, the interleavings start from one init.
- Leak warnings of the pool (`ChatServer/src/server/db/dbpool.cpp:100-112`): they only log.
- Qt itself: abort, disconnectFromHost, single-shot timers and the order of signals follow Qt's documentation and are part of the model; QAbstractSocket's source is not part of this model.
- The receive buffer in the connection machine: it is in the framing model; an impossible length appears there as the event BadHeader.
- Network delay and clock differences in KeepAlive and CutOff: a sent message is taken to arrive in the same second.
- Detection of a silent server by the client: every idle tick restarts the single-shot timer, so no bound is claimed.
- The console mode of the logger, the FATAL path that writes synchronously and crashes, levels, prefixes and formatting of a line.
- AsyncLogger.AsyncLog.WriteThreadProc: models the loop after the exit flag with no further pushes; its interleaving with producers is in LogSteps.
- HexDump.OutputBinary: requires at most 64 GiB, beyond which the C int row number overflows, which is undefined; the header with the address is a parameter.
- ChatView.ReloginAgreesIff: beyond 500 messages on display equal messages could hide a stray entry, so the equivalence is stated up to there.
- Widgets, trees, badges, titles, dialogs, and the input line's trimming, which is a parameter.
- ConfigReader.ConfigFileReader.LoadFile: requires that no chunk read begins with a NUL byte, for which the loader reads before its buffer; other NUL bytes are modelled.
- ConfigReader.ConfigFileReader.ReadChunk: requires the same of its chunk.
- Path handling of the configuration file.
- Iteration orders of maps and sets: parameters that enumerate the keys.
- The observer's polling, stop flag and threads of the Redis client, and publishing errors.
- RedisClient.Redis.Subscribe: the unlocked context test, the write and the record are one call here; in the thread model write and record are separate steps, and the test is part of the write, since between the two the context may be freed and the write then dereferences null.
- RedisClient.Redis.Unsubscribe: the same.
- A connection to Redis that has broken without the client having noticed: the context counts as broken from the break on.
- The old console client, the platform layer, build files and log files.
