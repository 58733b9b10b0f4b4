/**
 * The in-memory state machine of the flat-chat relay: the identity counter,
 * the user and room registries, and the handlers the websocket transport
 * calls, one at a time, when a connection opens, sends a frame or closes.
 * The transport is abstracted as state: each `Socket` keeps the set of
 * channels it is subscribed to and the log of replies sent to it, and the
 * `Server` keeps the log of every broadcast it published.
 */
module ChatServer {
  import opened ChatData

  /** One websocket connection, with the user id its upgrade attached to it. */
  class Socket {
    const userId: nat
    var subscriptions: set<string>
    var sent: seq<Envelope>

    constructor (userId: nat)
      ensures this.userId == userId && subscriptions == {} && sent == []
    {
      this.userId := userId;
      subscriptions := {};
      sent := [];
    }
  }

  class Server {
    var uId: nat
    var roomCache: seq<Room>
    var userCache: seq<User>
    var published: seq<Publication>
    /** Every identity handed out so far. */
    ghost var issued: set<nat>

    /** The invariant every handler keeps: the counter is above every issued
        identity, the default room stays first, and every user's room is
        "-" or the name of a room in the registry. */
    ghost predicate Valid()
      reads this
    {
      && 1 <= uId
      && (forall i :: i in issued ==> 1 <= i < uId)
      && |roomCache| >= 1 && roomCache[0] == GLOBAL_ROOM
      && (forall u :: u in userCache ==> u.room == NO_ROOM || RoomKnown(roomCache, u.room))
    }

    /** The process start: counter at 1, only the default room, no users. */
    constructor ()
      ensures Valid()
      ensures uId == 1 && issued == {}
      ensures roomCache == [GLOBAL_ROOM] && userCache == [] && published == []
    {
      uId := 1;
      roomCache := [GLOBAL_ROOM];
      userCache := [];
      published := [];
      issued := {};
    }

    /** `userId()`: hands out the counter, then increments it. */
    method NextId() returns (id: nat)
      requires Valid()
      modifies this`uId, this`issued
      ensures Valid()
      ensures id == old(uId) && uId == old(uId) + 1
      ensures id >= 1 && id !in old(issued) && issued == old(issued) + {id}
      ensures forall i :: i in old(issued) ==> i < id
    {
      id := uId;
      uId := uId + 1;
      issued := issued + {id};
    }

    /** A successful upgrade: a fresh connection carrying a fresh identity. */
    method Connect() returns (ws: Socket)
      requires Valid()
      modifies this`uId, this`issued
      ensures Valid()
      ensures fresh(ws) && ws.subscriptions == {} && ws.sent == []
      ensures ws.userId == old(uId) && uId == old(uId) + 1
      ensures ws.userId !in old(issued) && issued == old(issued) + {ws.userId}
    {
      var id := NextId();
      ws := new Socket(id);
    }

    /** `registerUser`: appends a new online record with no room. */
    method RegisterUser(userId: nat, msg: Envelope)
      requires Valid()
      modifies this`userCache
      ensures Valid()
      ensures userCache == old(userCache) + [User(userId, msg.meta, true, NO_ROOM)]
    {
      userCache := userCache + [User(userId, msg.meta, true, NO_ROOM)];
    }

    /** `createRoom`: appends a room named by a non-empty string `msg`. */
    method CreateRoom(msg: Envelope) returns (ok: bool)
      requires Valid()
      modifies this`roomCache
      ensures Valid()
      ensures ok <==> msg.msg.MsgText? && |msg.msg.text| > 0
      ensures roomCache == if ok then old(roomCache) + [Room(msg.msg.text, msg.meta)] else old(roomCache)
    {
      if !NamesNewRoom(msg) {
        return false;
      }
      var name := msg.msg.text;
      var lock := msg.meta;
      roomCache := roomCache + [Room(name, lock)];
      forall u | u in userCache && u.room != NO_ROOM
        ensures RoomKnown(roomCache, u.room)
      {
        var k :| 0 <= k < |old(roomCache)| && old(roomCache)[k].name == u.room;
        assert roomCache[k] == old(roomCache)[k];
      }
      return true;
    }

    /** `joinRoom`: when the room and the user exist, sets the first record
        with that id to the room and subscribes the connection. */
    method JoinRoom(ws: Socket, userId: nat, room: Payload) returns (ok: bool)
      requires Valid()
      modifies this`userCache, ws`subscriptions
      ensures Valid()
      ensures ok <==> (exists i :: 0 <= i < |roomCache| && NameIs(roomCache[i], room))
                      && (exists j :: 0 <= j < |old(userCache)| && old(userCache)[j].id == userId)
      ensures ok == CanEnter(roomCache, old(userCache), userId, room)
      ensures !ok ==> userCache == old(userCache) && ws.subscriptions == old(ws.subscriptions)
      ensures ok ==> room.MsgText?
      ensures ok ==> userCache == AssignRoom(old(userCache), FindUser(old(userCache), userId).value, room.text)
      ensures ok ==> ws.subscriptions == old(ws.subscriptions) + {room.text}
      ensures ok ==> RoomKnown(roomCache, room.text)
    {
      var existingRoom := FindRoom(roomCache, room);
      var user := FindUser(userCache, userId);
      if existingRoom.None? || user.None? {
        return false;
      }
      var name := roomCache[existingRoom.value].name;
      ghost var before := userCache;
      userCache := AssignRoom(userCache, user.value, name);
      forall u | u in userCache && u.room != NO_ROOM
        ensures RoomKnown(roomCache, u.room)
      {
        var j :| 0 <= j < |userCache| && userCache[j] == u;
        if j != user.value {
          assert u in before;
        }
      }
      ws.subscriptions := ws.subscriptions + {room.text};
      return true;
    }

    /** `sendMessage`: publishes the text `msg` on the channel named by `meta`. */
    method SendMessage(msg: Envelope) returns (ok: bool)
      requires Valid()
      modifies this`published
      ensures Valid()
      ensures ok <==> MetaTruthy(msg.meta) && msg.msg.MsgText? && |msg.msg.text| > 0
      ensures published == if ok then old(published) + [Publication(msg.meta, msg.msg.text)] else old(published)
      ensures userCache == old(userCache) && roomCache == old(roomCache)
    {
      if !MetaTruthy(msg.meta) || !MsgTruthy(msg.msg) {
        return false;
      }
      if !msg.msg.MsgText? {
        return false;
      }
      published := published + [Publication(msg.meta, msg.msg.text)];
      return true;
    }

    /** `leaveRoom`: when the room and the user exist, unsubscribes the
        connection; the user's `room` field is left as it was. */
    method LeaveRoom(ws: Socket, userId: nat, room: Payload) returns (ok: bool)
      requires Valid()
      modifies ws`subscriptions
      ensures Valid()
      ensures ok <==> (exists i :: 0 <= i < |roomCache| && NameIs(roomCache[i], room))
                      && (exists j :: 0 <= j < |userCache| && userCache[j].id == userId)
      ensures ok == CanEnter(roomCache, userCache, userId, room)
      ensures ok ==> room.MsgText?
      ensures ws.subscriptions == if ok then old(ws.subscriptions) - {room.text} else old(ws.subscriptions)
      ensures userCache == old(userCache)
    {
      var existingRoom := FindRoom(roomCache, room);
      var user := FindUser(userCache, userId);
      if existingRoom.None? || user.None? {
        return false;
      }
      ws.subscriptions := ws.subscriptions - {room.text};
      return true;
    }

    /** The `open` hook: greets the connection with its identity. */
    method Open(ws: Socket)
      modifies ws`sent
      ensures ws.sent == old(ws.sent) + [Envelope(Confirmation, NoMeta, MsgText(WelcomeText(ws.userId)))]
    {
      ws.sent := ws.sent + [Envelope(Confirmation, NoMeta, MsgText(CONNECTED_PREFIX + NatToString(ws.userId)))];
    }

    /** The `close` hook: drops every record with the connection's id. */
    method Close(ws: Socket)
      requires Valid()
      modifies this`userCache
      ensures Valid()
      ensures userCache == WithoutUser(old(userCache), ws.userId)
    {
      userCache := WithoutUser(userCache, ws.userId);
    }

    /** The `message` hook: dispatches one frame on its action, then sends
        the reply it built when the branch asked for one. */
    method Message(ws: Socket, frame: Frame)
      requires Valid()
      modifies this`userCache, this`roomCache, this`published, ws`subscriptions, ws`sent
      ensures Valid()
      ensures old(roomCache) <= roomCache
      // Exactly one reply is appended except for `register` and `chat`; its
      // action is `unknown` for binary frames, `fetchRooms` for `fetchRooms`
      // and `confirmation` otherwise.
      ensures match frame
        case BinaryFrame =>
          && ws.sent == old(ws.sent) + [Envelope(Unknown, NoMeta, MsgText(UNRECOGNIZED))]
          && userCache == old(userCache) && roomCache == old(roomCache) && published == old(published)
          && ws.subscriptions == old(ws.subscriptions)
        case TextFrame(env) =>
          match env.action
          case Register =>
            && ws.sent == old(ws.sent)
            && userCache == old(userCache) + [User(ws.userId, env.meta, true, NO_ROOM)]
            && roomCache == old(roomCache) && published == old(published)
            && ws.subscriptions == old(ws.subscriptions)
          case Chat =>
            && ws.sent == old(ws.sent)
            && published == (if Sendable(env) then old(published) + [Publication(env.meta, env.msg.text)]
                             else old(published))
            && userCache == old(userCache) && roomCache == old(roomCache)
            && ws.subscriptions == old(ws.subscriptions)
          case CreateRoom =>
            var ok := NamesNewRoom(env);
            && ws.sent == old(ws.sent) + [Envelope(Confirmation, NoMeta, MsgText(if ok then SUCCESS else CREATE_FAILED))]
            && roomCache == (if ok then old(roomCache) + [Room(env.msg.text, env.meta)] else old(roomCache))
            && userCache == old(userCache) && published == old(published)
            && ws.subscriptions == old(ws.subscriptions)
          case Join =>
            var ok := CanEnter(roomCache, old(userCache), ws.userId, env.msg);
            && ws.sent == old(ws.sent) + [Envelope(Confirmation, NoMeta, MsgText(if ok then SUCCESS else ROOM_FAILED))]
            && userCache == (if ok then AssignRoom(old(userCache), FindUser(old(userCache), ws.userId).value, env.msg.text)
                             else old(userCache))
            && ws.subscriptions == (if ok then old(ws.subscriptions) + {env.msg.text} else old(ws.subscriptions))
            && roomCache == old(roomCache) && published == old(published)
          case Leave =>
            var ok := CanEnter(roomCache, userCache, ws.userId, env.msg);
            && ws.sent == old(ws.sent) + [Envelope(Confirmation, NoMeta, MsgText(if ok then SUCCESS else ROOM_FAILED))]
            && ws.subscriptions == (if ok then old(ws.subscriptions) - {env.msg.text} else old(ws.subscriptions))
            && userCache == old(userCache) && roomCache == old(roomCache) && published == old(published)
          case FetchRooms =>
            && ws.sent == old(ws.sent) + [Envelope(FetchRooms, NoMeta, MsgTexts(RoomNames(roomCache)))]
            && userCache == old(userCache) && roomCache == old(roomCache) && published == old(published)
            && ws.subscriptions == old(ws.subscriptions)
          case _ =>
            && ws.sent == old(ws.sent) + [Envelope(Confirmation, NoMeta, MsgText(UNRECOGNIZED))]
            && userCache == old(userCache) && roomCache == old(roomCache) && published == old(published)
            && ws.subscriptions == old(ws.subscriptions)
    {
      var returnMsg := false;
      var retMsg := Envelope(Unknown, NoMeta, NoMsg);
      if frame.TextFrame? {
        retMsg := retMsg.(action := Confirmation);
        var wsMsg := frame.envelope;
        if wsMsg.action == Register {
          RegisterUser(ws.userId, wsMsg);
          retMsg := retMsg.(msg := MsgText(REGISTERED));
        } else if wsMsg.action == Chat {
          var sentOk := SendMessage(wsMsg);
          if !sentOk {
            retMsg := retMsg.(msg := MsgText(SEND_FAILED));
          }
        } else if wsMsg.action == Action.CreateRoom {
          returnMsg := true;
          var created := CreateRoom(wsMsg);
          if created {
            retMsg := retMsg.(msg := MsgText(SUCCESS));
          } else {
            retMsg := retMsg.(msg := MsgText(CREATE_FAILED));
          }
        } else if wsMsg.action == Join {
          returnMsg := true;
          var joined := JoinRoom(ws, ws.userId, wsMsg.msg);
          if joined {
            retMsg := retMsg.(msg := MsgText(SUCCESS));
          } else {
            retMsg := retMsg.(msg := MsgText(ROOM_FAILED));
          }
        } else if wsMsg.action == Leave {
          returnMsg := true;
          var left := LeaveRoom(ws, ws.userId, wsMsg.msg);
          if left {
            retMsg := retMsg.(msg := MsgText(SUCCESS));
          } else {
            retMsg := retMsg.(msg := MsgText(ROOM_FAILED));
          }
        } else if wsMsg.action == FetchRooms {
          returnMsg := true;
          retMsg := retMsg.(action := FetchRooms);
          retMsg := retMsg.(msg := MsgTexts(RoomNames(roomCache)));
        } else {
          returnMsg := true;
          retMsg := retMsg.(msg := MsgText(UNRECOGNIZED));
        }
      } else {
        returnMsg := true;
        retMsg := retMsg.(msg := MsgText(UNRECOGNIZED));
      }
      if returnMsg {
        ws.sent := ws.sent + [retMsg];
      }
    }
  }
}
