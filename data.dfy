/**
 * Values of the flat-chat relay: the envelopes exchanged over a connection,
 * the room and user records the server keeps, the JavaScript truthiness tests
 * the handlers apply to envelope fields, and the pure lookups (`filter`,
 * `map`) the handlers run over the two registries.
 */
module ChatData {

  datatype Option<T> = None | Some(value: T)

  /** The action vocabulary (the `WsActions` enum); `Unlisted` stands for any
      `action` value outside it (another string, a number, or none at all). */
  datatype Action =
    | Unknown | Confirmation
    | Register | Chat | CreateRoom | Join | Leave | FetchRooms | FetchUsers
    | Unlisted

  /** The string each action is spelled with on the wire. */
  function ActionName(a: Action): string
    requires !a.Unlisted?
  {
    match a
    case Unknown => "unknown"
    case Confirmation => "confirmation"
    case Register => "register"
    case Chat => "chat"
    case CreateRoom => "createRoom"
    case Join => "join"
    case Leave => "leave"
    case FetchRooms => "fetchRooms"
    case FetchUsers => "fetchUsers"
  }

  /** How a decoded `action` string is read: `===` against each enum value. */
  function ParseAction(s: string): Action {
    if s == "unknown" then Unknown
    else if s == "confirmation" then Confirmation
    else if s == "register" then Register
    else if s == "chat" then Chat
    else if s == "createRoom" then CreateRoom
    else if s == "join" then Join
    else if s == "leave" then Leave
    else if s == "fetchRooms" then FetchRooms
    else if s == "fetchUsers" then FetchUsers
    else Unlisted
  }

  /** Every enum value reads back as itself, so no two share a spelling. */
  lemma ParseActionName(a: Action)
    requires !a.Unlisted?
    ensures ParseAction(ActionName(a)) == a
  {
  }

  // Fixed texts carried in replies and records.
  const UNRECOGNIZED := "Unrecognized message from user"
  const REGISTERED := "Registered"
  const SEND_FAILED := "Failed to send message"
  const SUCCESS := "Success"
  const CREATE_FAILED := "Failed"
  const ROOM_FAILED := "failed"
  const CONNECTED_PREFIX := "Connected user "
  const NO_ROOM := "-"
  const GLOBAL_ROOM_NAME := "global"

  /** The optional `meta` field of an envelope: a string or a number. */
  datatype Meta = NoMeta | MetaText(text: string) | MetaNumber(number: int)

  /** The optional `msg` field of an envelope (`MessageData`). */
  datatype Payload =
    | NoMsg
    | MsgText(text: string)
    | MsgTexts(texts: seq<string>)
    | MsgNumbers(numbers: seq<int>)

  /** `{action, meta?, msg?}`, inbound after decoding and outbound before encoding. */
  datatype Envelope = Envelope(action: Action, meta: Meta, msg: Payload)

  /** What the transport hands to the message handler: a text frame holding a
      decoded envelope, or a binary frame whose contents play no part. */
  datatype Frame = TextFrame(envelope: Envelope) | BinaryFrame

  /** A room record; `lock` is whatever `meta` the creating envelope carried. */
  datatype Room = Room(name: string, lock: Meta)

  /** A user record; `name` is whatever `meta` the registering envelope carried. */
  datatype User = User(id: nat, name: Meta, online: bool, room: string)

  /** One call of the broadcast primitive: a topic and the text sent on it. */
  datatype Publication = Publication(topic: Meta, data: string)

  const GLOBAL_ROOM := Room(GLOBAL_ROOM_NAME, NoMeta)

  /** JavaScript truthiness of a `meta` value: "" and 0 are falsy. */
  predicate MetaTruthy(m: Meta) {
    match m
    case NoMeta => false
    case MetaText(t) => t != ""
    case MetaNumber(n) => n != 0
  }

  /** JavaScript truthiness of a `msg` value: "" is falsy, every array is truthy. */
  predicate MsgTruthy(p: Payload) {
    match p
    case NoMsg => false
    case MsgText(t) => t != ""
    case MsgTexts(_) => true
    case MsgNumbers(_) => true
  }

  /** The guard of `createRoom`: a truthy `msg` whose type is string. */
  function NamesNewRoom(env: Envelope): (b: bool)
    ensures b <==> env.msg.MsgText? && |env.msg.text| > 0
  {
    MsgTruthy(env.msg) && env.msg.MsgText?
  }

  /** The guards of `sendMessage`: truthy `meta` and `msg`, and `msg` a string. */
  function Sendable(env: Envelope): (b: bool)
    ensures b <==> MetaTruthy(env.meta) && env.msg.MsgText? && |env.msg.text| > 0
    ensures b ==> env.meta != NoMeta
  {
    MetaTruthy(env.meta) && MsgTruthy(env.msg) && env.msg.MsgText?
  }

  /** `rm.name === room`: strict equality holds only against a string. */
  predicate NameIs(rm: Room, target: Payload) {
    target.MsgText? && target.text == rm.name
  }

  /** Position of the room `roomCache.filter(...)` destructures first. */
  function FindRoom(rooms: seq<Room>, target: Payload): (r: Option<nat>)
    ensures r.Some? ==> r.value < |rooms| && NameIs(rooms[r.value], target)
    ensures r.Some? ==> forall j :: 0 <= j < r.value ==> !NameIs(rooms[j], target)
    ensures r.None? <==> forall j :: 0 <= j < |rooms| ==> !NameIs(rooms[j], target)
  {
    if |rooms| == 0 then None
    else if NameIs(rooms[0], target) then Some(0)
    else match FindRoom(rooms[1..], target)
      case None => None
      case Some(k) => Some(k + 1)
  }

  /** Position of the user `userCache.filter(...)` destructures first. */
  function FindUser(users: seq<User>, id: nat): (r: Option<nat>)
    ensures r.Some? ==> r.value < |users| && users[r.value].id == id
    ensures r.Some? ==> forall j :: 0 <= j < r.value ==> users[j].id != id
    ensures r.None? <==> forall j :: 0 <= j < |users| ==> users[j].id != id
  {
    if |users| == 0 then None
    else if users[0].id == id then Some(0)
    else match FindUser(users[1..], id)
      case None => None
      case Some(k) => Some(k + 1)
  }

  /** The `join` and `leave` handlers succeed exactly when both lookups find a record. */
  predicate CanEnter(rooms: seq<Room>, users: seq<User>, id: nat, target: Payload) {
    FindRoom(rooms, target).Some? && FindUser(users, id).Some?
  }

  /** Some room in `rooms` carries this name. */
  ghost predicate RoomKnown(rooms: seq<Room>, name: string) {
    exists k :: 0 <= k < |rooms| && rooms[k].name == name
  }

  /** `user.room = name` on the record at `k`: nothing else in the registry changes. */
  function AssignRoom(users: seq<User>, k: nat, name: string): (r: seq<User>)
    requires k < |users|
    ensures |r| == |users| && r[k].room == name
    ensures r[k].id == users[k].id && r[k].name == users[k].name && r[k].online == users[k].online
    ensures forall j :: 0 <= j < |users| && j != k ==> r[j] == users[j]
  {
    users[k := users[k].(room := name)]
  }

  /** `roomCache.map(room => room.name)`. */
  function RoomNames(rooms: seq<Room>): (r: seq<string>)
    ensures |r| == |rooms|
    ensures forall i :: 0 <= i < |rooms| ==> r[i] == rooms[i].name
  {
    if |rooms| == 0 then [] else [rooms[0].name] + RoomNames(rooms[1..])
  }

  /** `userCache.filter(usr => usr.id !== id)`. */
  function WithoutUser(users: seq<User>, id: nat): (r: seq<User>)
    ensures |r| <= |users|
    ensures forall u :: u in r <==> u in users && u.id != id
    ensures (forall j :: 0 <= j < |users| ==> users[j].id != id) ==> r == users
  {
    if |users| == 0 then []
    else if users[0].id == id then WithoutUser(users[1..], id)
    else [users[0]] + WithoutUser(users[1..], id)
  }

  /** Filtering distributes over concatenation, so the kept records stay in order. */
  lemma {:induction false} WithoutUserAppend(a: seq<User>, b: seq<User>, id: nat)
    ensures WithoutUser(a + b, id) == WithoutUser(a, id) + WithoutUser(b, id)
  {
    if |a| == 0 {
      assert a + b == b;
    } else {
      assert (a + b)[1..] == a[1..] + b;
      WithoutUserAppend(a[1..], b, id);
    }
  }

  /** Closing a connection removes what registering it added. */
  lemma CloseUndoesRegister(users: seq<User>, id: nat, name: Meta)
    ensures WithoutUser(users + [User(id, name, true, NO_ROOM)], id) == WithoutUser(users, id)
  {
    WithoutUserAppend(users, [User(id, name, true, NO_ROOM)], id);
    assert WithoutUser([User(id, name, true, NO_ROOM)], id) == [];
  }

  /** Closing one connection keeps the records of every other connection. */
  lemma CloseKeepsOthers(users: seq<User>, id: nat, other: nat)
    requires other != id
    ensures FindUser(WithoutUser(users, id), other).Some? <==> FindUser(users, other).Some?
  {
  }

  /** A room just created is found by name, so a `join` naming it can succeed. */
  lemma CreatedRoomIsFound(rooms: seq<Room>, name: string, lock: Meta)
    ensures FindRoom(rooms + [Room(name, lock)], MsgText(name)).Some?
  {
    var grown := rooms + [Room(name, lock)];
    assert NameIs(grown[|rooms|], MsgText(name));
  }

  /** The decimal digit `d`. */
  function DigitChar(d: nat): (c: char)
    requires d < 10
  {
    ('0' as int + d) as char
  }

  predicate IsDigit(c: char) {
    '0' <= c <= '9'
  }

  /** JavaScript's decimal rendering of a non-negative integer. */
  function NatToString(n: nat): (s: string)
    ensures |s| > 0
    ensures forall i :: 0 <= i < |s| ==> IsDigit(s[i])
    ensures s[0] == '0' ==> n == 0
  {
    if n < 10 then [DigitChar(n)] else NatToString(n / 10) + [DigitChar(n % 10)]
  }

  /** Reads a string of decimal digits back as a number. */
  function ParseNat(s: string): nat
    requires forall i :: 0 <= i < |s| ==> IsDigit(s[i])
  {
    if |s| == 0 then 0
    else
      assert IsDigit(s[|s| - 1]);
      ParseNat(s[..|s| - 1]) * 10 + (s[|s| - 1] as int - '0' as int)
  }

  /** The rendering loses nothing: reading it back gives the number. */
  lemma {:induction false} NatStringRoundTrip(n: nat)
    ensures ParseNat(NatToString(n)) == n
  {
    if n >= 10 {
      var s := NatToString(n);
      assert s[..|s| - 1] == NatToString(n / 10);
      NatStringRoundTrip(n / 10);
    }
  }

  /** The text of the welcome reply sent when a connection opens. */
  function WelcomeText(id: nat): (s: string)
    ensures |s| > |CONNECTED_PREFIX| && s[..|CONNECTED_PREFIX|] == CONNECTED_PREFIX
    ensures forall i :: |CONNECTED_PREFIX| <= i < |s| ==> IsDigit(s[i])
    ensures ParseNat(s[|CONNECTED_PREFIX|..]) == id
  {
    var digits := NatToString(id);
    var s := CONNECTED_PREFIX + digits;
    assert s[|CONNECTED_PREFIX|..] == digits;
    NatStringRoundTrip(id);
    s
  }

  /** Distinct connections are greeted with distinct texts. */
  lemma WelcomeTextInjective(a: nat, b: nat)
    requires WelcomeText(a) == WelcomeText(b)
    ensures a == b
  {
  }
}
