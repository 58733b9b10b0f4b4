# flat-chat relay: a Dafny model of the server state machine

flat-chat is a room-based chat relay served over websockets (`server.ts`).
This project models its in-memory state and its handlers:

- the identity counter `uId` and `userId()`;
- the user registry `userCache`, changed by `registerUser`, `joinRoom` and the `close` hook;
- the room registry `roomCache`, which starts as `[{name: "global"}]` and grows through `createRoom`;
- the `message` hook, which reads one frame, runs the registry operation its action names, and
  may send a direct reply or publish on a channel; the `open` hook and its welcome reply.

The JavaScript event loop runs one handler at a time, so every handler is a plain sequential
method. The transport is abstracted as explicit state:

- `ChatServer.Socket` holds one connection's user id, its set of subscribed channel names
  (`ws.subscribe` / `ws.unsubscribe`) and the log of envelopes sent to it (`ws.send`);
- `ChatServer.Server` holds `uId`, `roomCache`, `userCache` and the log of every
  `server.publish(topic, text)` call.

Files:

- `data.dfy`, module `ChatData`, holds the values. These are the envelope (`action`, `meta`, `msg`),
  frames, room and user records, and the JavaScript truthiness tests the guards use. It also holds
  the `filter` / `map` lookups as pure functions, and the decimal rendering of ids.
- `server.dfy`, module `ChatServer`, holds the two classes and the handlers as methods.
  `Server.Valid()` is the invariant every handler keeps. The counter stays above every identity
  handed out. The default room stays at index 0 of `roomCache`, which only ever grows. Every user's
  `room` is `"-"` or the name of a registered room.
- `scenarios.dfy`, module `ChatScenarios`, holds short runs on a fresh server. They are proved from
  the handlers' contracts alone.

Modelling choices, following the code:

- The casts `msg.meta as string` do nothing at run time. So a user's `name` and a room's `lock`
  hold the raw `meta` value, which may be a number (`Meta`).
- The action is the `WsActions` enum. `Unlisted` stands for any other decoded `action` value.
  `ParseAction` gives the `===` reading of a decoded string.
- Truthiness follows JavaScript: `""` and `0` are falsy, and every array is truthy.
  `rm.name === room` holds only when `room` is a string.
- `joinRoom` and `leaveRoom` take the first record that `filter` returns. Only that record's
  `room` changes.
- The topic of a publication is recorded as the `meta` value that was passed.

What the code does and does not do, as the model has it:

- there is no periodic sweep of offline users or empty rooms;
- there is no `fetchUsers` handler, so `fetchUsers` falls through to the unrecognised reply;
- `close` deletes the connection's records rather than marking them offline, and publishes nothing;
- `registerUser` sets `room` to `"-"`, not to an empty string;
- `join` publishes no occupant list;
- `chat` publishes the raw text on the channel named by `meta`. It checks neither that a room
  exists nor that the sender joined one;
- `register` and `chat` never send a reply. Their branches fill in `retMsg.msg`, but `returnMsg`
  stays false;
- `createRoom` accepts duplicate names, and the room lock is stored but never checked.

## Model

| member | source | states |
|---|---|---|
| ChatServer.Server.constructor | server.ts:42-44 | the process starts with the counter at 1, `roomCache == [{name: "global"}]`, no users and an empty publish log; the invariant holds |
| ChatServer.Server.NextId | server.ts:47-51 | returns the counter, then increments it; the id is at least 1, was never issued before and is larger than every earlier id, so ids are never reused |
| ChatServer.Server.Connect | server.ts:100-105 | a successful upgrade attaches a fresh identity from `userId()` to a new connection with no subscriptions and nothing sent |
| ChatServer.Server.RegisterUser | server.ts:53-61 | appends exactly `{id, name: meta, online: true, room: "-"}` and keeps every earlier record; a second register appends a second record with the same id |
| ChatServer.Server.CreateRoom | server.ts:63-70 | succeeds iff `msg` is a non-empty string; then appends exactly `{name: msg, lock: meta}`, with no duplicate check; otherwise the room registry is unchanged |
| ChatServer.Server.JoinRoom | server.ts:72-79 | succeeds iff a room with that name and a user with that id exist. On failure users and subscriptions are unchanged. On success only the first record with the id gets `room := name`, the channel is added to the subscriptions, and the room is registered |
| ChatServer.Server.SendMessage | server.ts:81-86 | succeeds iff `meta` is truthy and `msg` is a non-empty string; then appends exactly one `(meta, msg)` to the publish log; no registry changes |
| ChatServer.Server.LeaveRoom | server.ts:88-94 | succeeds iff the room and the user exist; then removes the channel from the subscriptions; `userCache`, and so the user's `room`, is never changed |
| ChatServer.Server.Open | server.ts:159-166 | sends exactly one `confirmation` reply reading `"Connected user <id>"` |
| ChatServer.Server.Close | server.ts:167-171 | the user registry becomes the records whose id differs from the connection's (see `WithoutUser`) |
| ChatServer.Server.Message | server.ts:111-158 | per frame: `register` and `chat` send nothing. Every other text frame sends one `confirmation` reply, except `fetchRooms`, whose reply carries the room names in cache order. Binary frames get one `unknown` reply. Each branch's effect on users, rooms, publications and subscriptions is exact, down to the `Success` / `Failed` / `failed` / unrecognised texts; the invariant is kept and `roomCache` only grows |
| ChatData.FindRoom | server.ts:73 | the position of the first room whose name `===` the target, or none exactly when no room matches |
| ChatData.FindUser | server.ts:74 | the position of the first record with the id, or none exactly when no record has it |
| ChatData.AssignRoom | server.ts:76 | `user.room = name` changes that record's `room` only and leaves every other record as it was |
| ChatData.RoomNames | server.ts:146 | the `fetchRooms` list has one name per room, in cache order |
| ChatData.WithoutUser | server.ts:170 | the kept records are exactly those whose id differs; if no record has the id the registry is unchanged |
| ChatData.WithoutUserAppend | server.ts:170 | the close filter distributes over concatenation, so the kept records stay in their original order |
| ChatData.CloseUndoesRegister | server.ts:53-61 | closing a connection removes the record its `register` appended |
| ChatData.CloseKeepsOthers | server.ts:170 | after a close, a lookup of any other connection's id finds a record exactly when it did before |
| ChatData.CreatedRoomIsFound | server.ts:67 | a room just created is found by its name, so the room lookup of a later `join` succeeds |
| ChatData.NamesNewRoom | server.ts:64 | the guard of `createRoom` (falsy `msg`, or `msg` not of type string) rejects exactly the envelopes whose `msg` is not a non-empty string |
| ChatData.Sendable | server.ts:82-83 | the guards of `sendMessage` pass exactly when `meta` is truthy and `msg` is a non-empty string |
| ChatData.ParseActionName | server.ts:20-32 | each action name reads back as its own enum value, so the `switch` tells every action apart |
| ChatData.NatToString | server.ts:164 | the id is rendered as a non-empty run of decimal digits with no leading zero |
| ChatData.NatStringRoundTrip | server.ts:164 | reading that rendering back gives the id |
| ChatData.WelcomeText | server.ts:164 | the welcome text is `"Connected user "` followed by digits that read back as the id |
| ChatData.WelcomeTextInjective | server.ts:162-165 | two connections with different ids are greeted with different texts |
| ChatScenarios.OpenThenRegister | server.ts:121-124 | the first connection is welcomed as user 1; its `register` adds its record and sends no reply |
| ChatScenarios.CreateThenList | server.ts:128-147 | `createRoom "lobby"` is confirmed with `Success`; `fetchRooms` then lists `["global", "lobby"]` |
| ChatScenarios.ChatWithoutJoining | server.ts:125-127 | a chat from a connection that joined nothing is still published, and nothing is sent back; an empty text or a zero channel is dropped silently |
| ChatScenarios.JoinThenLeave | server.ts:133-142 | join and leave are both confirmed; afterwards the connection has no subscriptions, and the user's record still names the room |
| ChatScenarios.FailuresAndUnknowns | server.ts:133-156 | joining a missing room replies `failed` and subscribes nothing; `fetchUsers` and a binary frame get the unrecognised reply |
| ChatScenarios.ReRegisterThenClose | server.ts:121-124 | registering twice leaves two records with one id; closing that connection drops both and keeps the other user's record |

## Left out

- The HTTP server setup, the port, the upgrade request, the 500 response to a failed upgrade, and
  host/port logging (server.ts:97-109, 175): transport plumbing. Only the successful upgrade's
  attachment of a fresh id is modelled, as `Server.Connect`.
- `JSON.parse` and `JSON.stringify`: envelopes are a datatype. A text frame that fails to parse, or
  parses to `null`, throws in the source; that exception is not modelled.
- The contents of binary frames: the handler only tests the frame's type, so a binary frame is a tag.
- `console.log` calls and the `Date.now()` `connectionStart` field: I/O and the clock.
- Socket delivery: subscriptions and publications are abstract sets and logs. Who actually receives a
  publication is not modelled, and neither is Bun's handling of a numeric topic.
- Closed sockets' subscriptions: the transport drops them, and the model leaves the `Socket` as it was.
- JavaScript numbers are modelled as unbounded integers. Fractional numbers, `NaN` and the
  2^53 safe-integer limit of the id counter are not modelled.
- `msg` values other than the declared string, string array and number array (booleans, objects,
  `null`) are not modelled. The handlers treat them exactly as they treat an array, because each
  guard compares against a string.
- Concurrency: handlers run one at a time on the event loop, so no interleaving is modelled.
