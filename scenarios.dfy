/**
 * Short runs of the relay on a freshly started server, proved from the
 * handlers' contracts alone.
 */
module ChatScenarios {
  import opened ChatData
  import opened ChatServer

  /** A text frame whose envelope carries a string `msg`. */
  function Say(action: Action, meta: Meta, text: string): Frame {
    TextFrame(Envelope(action, meta, MsgText(text)))
  }

  /** A `register` frame, naming the user in `meta`. */
  function Hello(name: string): Frame {
    TextFrame(Envelope(Register, MetaText(name), NoMsg))
  }

  /** The first connection is greeted as user 1; registering it adds its
      record and sends nothing back. */
  method OpenThenRegister() returns (replies: seq<Envelope>, users: seq<User>)
    ensures replies == [Envelope(Confirmation, NoMeta, MsgText(WelcomeText(1)))]
    ensures users == [User(1, MetaText("Alice"), true, NO_ROOM)]
  {
    var server := new Server();
    var ws := server.Connect();
    server.Open(ws);
    server.Message(ws, Hello("Alice"));
    replies := ws.sent;
    users := server.userCache;
  }

  /** A created room is confirmed and listed after the default room. */
  method CreateThenList() returns (replies: seq<Envelope>)
    ensures replies == [
      Envelope(Confirmation, NoMeta, MsgText(SUCCESS)),
      Envelope(FetchRooms, NoMeta, MsgTexts([GLOBAL_ROOM_NAME, "lobby"]))]
  {
    var server := new Server();
    var ws := server.Connect();
    server.Message(ws, Say(CreateRoom, NoMeta, "lobby"));
    var listed := RoomNames(server.roomCache);
    assert listed[1] == "lobby";
    assert listed == [GLOBAL_ROOM_NAME, "lobby"];
    server.Message(ws, TextFrame(Envelope(FetchRooms, NoMeta, NoMsg)));
    replies := ws.sent;
  }

  /** A connection that joined nothing can still chat on any channel: the
      text is published and nothing is sent back; an empty text or a zero
      channel is dropped silently. */
  method ChatWithoutJoining() returns (log: seq<Publication>, replies: seq<Envelope>)
    ensures log == [Publication(MetaText("lobby"), "hi")]
    ensures replies == []
  {
    var server := new Server();
    var ws := server.Connect();
    server.Message(ws, Say(Chat, MetaText("lobby"), "hi"));
    server.Message(ws, Say(Chat, MetaText("lobby"), ""));
    server.Message(ws, Say(Chat, MetaNumber(0), "hi"));
    log := server.published;
    replies := ws.sent;
  }

  /** Joining subscribes and sets the room; leaving unsubscribes but keeps
      the room in the user's record. */
  method JoinThenLeave() returns (room: string, subscribed: set<string>, replies: seq<Envelope>)
    ensures room == "lobby"
    ensures subscribed == {}
    ensures replies == [
      Envelope(Confirmation, NoMeta, MsgText(SUCCESS)),
      Envelope(Confirmation, NoMeta, MsgText(SUCCESS))]
  {
    var server := new Server();
    var ws := server.Connect();
    server.RegisterUser(ws.userId, Envelope(Register, MetaText("Alice"), NoMsg));
    var created := server.CreateRoom(Envelope(CreateRoom, NoMeta, MsgText("lobby")));
    assert FindUser(server.userCache, ws.userId) == Some(0);
    assert NameIs(server.roomCache[1], MsgText("lobby"));
    server.Message(ws, Say(Join, NoMeta, "lobby"));
    assert server.userCache == [User(1, MetaText("Alice"), true, "lobby")];
    server.Message(ws, Say(Leave, NoMeta, "lobby"));
    room := server.userCache[0].room;
    subscribed := ws.subscriptions;
    replies := ws.sent;
  }

  /** Joining a room that does not exist fails and subscribes nothing;
      `fetchUsers` and binary frames are answered as unrecognised. */
  method FailuresAndUnknowns() returns (replies: seq<Envelope>, subscribed: set<string>)
    ensures replies == [
      Envelope(Confirmation, NoMeta, MsgText(ROOM_FAILED)),
      Envelope(Confirmation, NoMeta, MsgText(UNRECOGNIZED)),
      Envelope(Unknown, NoMeta, MsgText(UNRECOGNIZED))]
    ensures subscribed == {}
  {
    var server := new Server();
    var ws := server.Connect();
    server.Message(ws, Say(Join, NoMeta, "nowhere"));
    server.Message(ws, Say(FetchUsers, NoMeta, GLOBAL_ROOM_NAME));
    server.Message(ws, BinaryFrame);
    replies := ws.sent;
    subscribed := ws.subscriptions;
  }

  /** Registering twice makes two records with one id; closing that
      connection drops both and keeps the other connection's record. */
  method ReRegisterThenClose() returns (before: nat, after: seq<User>)
    ensures before == 3
    ensures after == [User(2, MetaText("Bob"), true, NO_ROOM)]
  {
    var server := new Server();
    var a := server.Connect();
    var b := server.Connect();
    server.Message(a, Hello("Alice"));
    server.Message(b, Hello("Bob"));
    server.Message(a, Hello("Alice"));
    before := |server.userCache|;
    var alice := User(1, MetaText("Alice"), true, NO_ROOM);
    var bob := User(2, MetaText("Bob"), true, NO_ROOM);
    assert server.userCache == [alice] + [bob] + [alice];
    WithoutUserAppend([alice] + [bob], [alice], 1);
    WithoutUserAppend([alice], [bob], 1);
    server.Close(a);
    after := server.userCache;
  }
}
