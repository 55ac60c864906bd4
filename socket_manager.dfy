/**
 * The server's real-time hub (`server/services/socketManager.js`): the registry
 * of connected users, the fixed-window rate limiter and the message dispatch
 * pipeline. Socket emits are appended to an outbox; the document store is a
 * `Db`; the handshake has already authenticated each socket.
 */
module SocketManager {
  import opened Wrappers
  import opened Strings
  import opened Json
  import OrderedMap
  import opened UserModel
  import opened MessageModel
  import opened Database

  const RATE_WINDOW: int := 60000
  const MAX_CONTENT_LENGTH: int := 1000

  // ---------------------------------------------------------------- rate limiter

  datatype RateData = RateData(count: nat, resetTime: int)

  /** The counter key `${userId}_${action}`. */
  function RateKey(userId: string, action: string): string {
    userId + "_" + action
  }

  /** 10 per window for `"message"`, 30 for any other action. */
  function RateLimit(action: string): (n: nat)
    ensures action == "message" ==> n == 10
    ensures action != "message" ==> n == 30
  {
    if action == "message" then 10 else 30
  }

  datatype RateDecision = RateDecision(allowed: bool, table: map<string, RateData>)

  /** One `checkRateLimit` call for `key` at time `now`: the verdict and the new table. */
  function RateCheck(table: map<string, RateData>, key: string, limit: nat, now: int): (d: RateDecision)
    ensures key in d.table
    ensures forall k :: k != key ==> (k in d.table <==> k in table)
    ensures forall k :: k != key && k in table ==> d.table[k] == table[k]
    ensures d.allowed <==> key !in table || now > table[key].resetTime || table[key].count < limit
    ensures !d.allowed ==> d.table == table
  {
    if key !in table then
      RateDecision(true, table[key := RateData(1, now + RATE_WINDOW)])
    else
      var r := table[key];
      if now > r.resetTime then RateDecision(true, table[key := RateData(1, now + RATE_WINDOW)])
      else if r.count >= limit then RateDecision(false, table)
      else RateDecision(true, table[key := RateData(r.count + 1, r.resetTime)])
  }

  /** The first call for a key opens a window of one minute holding one use. */
  lemma FirstCallOpensWindow(table: map<string, RateData>, key: string, limit: nat, now: int)
    requires key !in table
    ensures RateCheck(table, key, limit, now) == RateDecision(true, table[key := RateData(1, now + 60000)])
  {
  }

  /**
   * Strictly after the window's end a call starts a new window; at the end
   * instant itself the old window still applies.
   */
  lemma WindowBoundary(table: map<string, RateData>, key: string, limit: nat, now: int)
    requires key in table
    ensures now > table[key].resetTime ==>
      RateCheck(table, key, limit, now) == RateDecision(true, table[key := RateData(1, now + 60000)])
    ensures now == table[key].resetTime ==>
      RateCheck(table, key, limit, now).allowed == (table[key].count < limit)
      && (table[key].count < limit ==>
            RateCheck(table, key, limit, now).table[key] == RateData(table[key].count + 1, table[key].resetTime))
  {
  }

  /** A counter never goes beyond its limit. */
  lemma CountStaysWithinLimit(table: map<string, RateData>, key: string, limit: nat, now: int)
    requires limit >= 1
    requires key in table ==> table[key].count <= limit
    ensures RateCheck(table, key, limit, now).table[key].count <= limit
  {
  }

  /** The verdicts of successive calls for one key at the given times. */
  function RunChecks(table: map<string, RateData>, key: string, limit: nat, times: seq<int>): (verdicts: seq<bool>)
    ensures |verdicts| == |times|
    decreases |times|
  {
    if times == [] then []
    else
      var d := RateCheck(table, key, limit, times[0]);
      [d.allowed] + RunChecks(d.table, key, limit, times[1..])
  }

  /** Inside one window holding `count` uses, the `i`-th further call passes iff `count + i < limit`. */
  lemma {:induction false} CallsWithinWindow(table: map<string, RateData>, key: string, limit: nat, times: seq<int>)
    requires key in table
    requires forall i :: 0 <= i < |times| ==> times[i] <= table[key].resetTime
    ensures forall i :: 0 <= i < |times| ==>
      RunChecks(table, key, limit, times)[i] == (table[key].count + i < limit)
  {
    if times != [] {
      var d := RateCheck(table, key, limit, times[0]);
      assert d.table[key].resetTime == table[key].resetTime;
      assert d.table[key].count == if d.allowed then table[key].count + 1 else table[key].count;
      assert d.allowed == (table[key].count < limit);
      CallsWithinWindow(d.table, key, limit, times[1..]);
      var rest := RunChecks(d.table, key, limit, times[1..]);
      var v := RunChecks(table, key, limit, times);
      assert v == [d.allowed] + rest;
      forall i | 0 <= i < |times| ensures v[i] == (table[key].count + i < limit) {
        if i > 0 {
          assert v[i] == rest[i - 1];
          assert rest[i - 1] == (d.table[key].count + (i - 1) < limit);
          if !d.allowed {
            assert table[key].count >= limit;
          }
        }
      }
    }
  }

  /**
   * Starting from no counter, of a burst of messages all sent within a minute of
   * the first, exactly the first ten are accepted: the eleventh fails.
   */
  lemma {:induction false} TenMessagesPerWindow(table: map<string, RateData>, userId: string, times: seq<int>)
    requires RateKey(userId, "message") !in table
    requires |times| >= 1
    requires forall i :: 0 <= i < |times| ==> times[i] <= times[0] + 60000
    ensures forall i :: 0 <= i < |times| ==>
      RunChecks(table, RateKey(userId, "message"), RateLimit("message"), times)[i] == (i < 10)
  {
    var key := RateKey(userId, "message");
    var d := RateCheck(table, key, 10, times[0]);
    assert d.table[key] == RateData(1, times[0] + 60000);
    CallsWithinWindow(d.table, key, 10, times[1..]);
    var rest := RunChecks(d.table, key, 10, times[1..]);
    var v := RunChecks(table, key, 10, times);
    assert v == [true] + rest;
    forall i | 0 <= i < |times| ensures v[i] == (i < 10) {
      if i > 0 {
        assert v[i] == rest[i - 1];
      }
    }
  }

  /** Counter keys of user ids without `_` identify the user and the action. */
  lemma RateKeyInjective(u1: string, a1: string, u2: string, a2: string)
    requires '_' !in u1 && '_' !in u2
    requires RateKey(u1, a1) == RateKey(u2, a2)
    ensures u1 == u2 && a1 == a2
  {
    IndexOfAfter(u1, a1, '_');
    IndexOfAfter(u2, a2, '_');
    var k := RateKey(u1, a1);
    assert u1 == k[..|u1|] && u2 == k[..|u2|];
    assert a1 == k[|u1| + 1..] && a2 == k[|u2| + 1..];
  }

  lemma IndexOfAfter(u: string, rest: string, c: char)
    requires c !in u
    ensures IndexOf(u + [c] + rest, c) == |u|
  {
    var k := u + [c] + rest;
    assert k[|u|] == c;
    assert forall j :: 0 <= j < |u| ==> k[j] == u[j];
  }

  // ---------------------------------------------------------------- events

  /** A registry entry: the user's latest socket and its session key. */
  datatype Session = Session(socketId: string, user: User, sessionKey: string)

  /** An authenticated connection: the handshake resolved the token to `user`. */
  datatype Socket = Socket(id: string, userId: UserId, user: User)

  predicate Authenticated(s: Socket) {
    s.user.id == s.userId
  }

  datatype DispatchError =
    | MissingFields | EmptyContent | ContentTooLong | RateLimited
    | SenderNotFound | ReceiverNotFound | InternalError

  datatype OnlineUserInfo = OnlineUserInfo(id: UserId, username: string, publicKey: string)

  datatype ServerEvent =
    | ErrorEvent(error: DispatchError, tempId: Json)
    | MessageSent(messageId: string, receiverId: string, tempId: Json, timestamp: int)
    | NewMessage(messageId: string, senderId: UserId, senderUsername: string, senderPublicKey: string,
                 content: string, encryptedContent: string, signature: string, messageHash: string,
                 timestamp: int)
    | UserTyping(userId: UserId, username: string)
    | UserStoppedTyping(userId: UserId)
    | UserOnline(userId: UserId, username: string)
    | UserOffline(userId: UserId)
    | OnlineUsers(users: seq<OnlineUserInfo>)

  /** `socket.emit`/`io.to(id).emit` reach one socket; `socket.broadcast.emit` every socket but one. */
  datatype Target = ToSocket(socketId: string) | AllExcept(socketId: string)

  datatype Emit = Emit(target: Target, event: ServerEvent)

  /** The `sendMessage` payload; an absent field is `JUndefined`. */
  datatype SendData = SendData(receiverId: Json, content: Json, tempId: Json)

  /** The server's cryptographic primitives (AES with the session key, SHA-256, RSA signature). */
  datatype Crypto = Crypto(encrypt: (string, string) -> string, hash: string -> string, sign: (string, string) -> string)

  /** The `tempId` an error carries: `data?.tempId`. */
  function ErrorTempId(data: Option<SendData>): Json {
    if data.Some? then data.value.tempId else JUndefined
  }

  /**
   * The three content checks, in order; `content.length` counts UTF-16 units.
   * A payload that is not an object, and
   * content that is truthy but not a string (it has no `trim`), end in the
   * catch-all internal error.
   */
  function ValidateSend(data: Option<SendData>): (r: Option<DispatchError>)
    ensures data.None? ==> r == Some(InternalError)
    ensures data.Some? ==>
      var d := data.value;
      && (r == Some(MissingFields) <==> !(Truthy(d.receiverId) && Truthy(d.content) && Truthy(d.tempId)))
      && (r == Some(EmptyContent) <==>
            Truthy(d.receiverId) && Truthy(d.tempId) && d.content.JString? && d.content.s != []
            && AllWhitespace(d.content.s))
      && (r.None? <==>
            Truthy(d.receiverId) && Truthy(d.tempId) && d.content.JString?
            && !AllWhitespace(d.content.s) && Utf16Length(d.content.s) <= 1000)
      && (r == Some(ContentTooLong) <==>
            Truthy(d.receiverId) && Truthy(d.tempId) && d.content.JString?
            && !AllWhitespace(d.content.s) && Utf16Length(d.content.s) > 1000)
      && (r == Some(InternalError) <==>
            Truthy(d.receiverId) && Truthy(d.content) && Truthy(d.tempId) && !d.content.JString?)
  {
    if data.None? then Some(InternalError)
    else
      var d := data.value;
      if !(Truthy(d.receiverId) && Truthy(d.content) && Truthy(d.tempId)) then Some(MissingFields)
      else if !d.content.JString? then Some(InternalError)
      else if |Trim(d.content.s)| == 0 then Some(EmptyContent)
      else if Utf16Length(d.content.s) > MAX_CONTENT_LENGTH then Some(ContentTooLong)
      else None
  }

  /** `getOnlineUsers`: one entry per registry entry, in registry order. */
  function OnlineSnapshot(registry: OrderedMap.Assoc<UserId, Session>): (r: seq<OnlineUserInfo>)
    ensures |r| == |registry|
    ensures forall i :: 0 <= i < |r| ==>
      r[i] == OnlineUserInfo(registry[i].1.user.id, registry[i].1.user.username, registry[i].1.user.publicKey)
  {
    seq(|registry|, i requires 0 <= i < |registry| =>
      OnlineUserInfo(registry[i].1.user.id, registry[i].1.user.username, registry[i].1.user.publicKey))
  }

  function SessionUserId(s: Session): UserId {
    s.user.id
  }

  /** In a well-formed registry the snapshot lists each connected user exactly once. */
  lemma SnapshotListsEachUserOnce(registry: OrderedMap.Assoc<UserId, Session>)
    requires OrderedMap.DistinctKeys(registry) && OrderedMap.KeyedBy(registry, SessionUserId)
    ensures var r := OnlineSnapshot(registry);
      && (forall i :: 0 <= i < |r| ==> r[i].id == registry[i].0)
      && (forall i, j :: 0 <= i < j < |r| ==> r[i].id != r[j].id)
  {
  }

  /** The stored message for an accepted payload. */
  function StoredMessage(id: string, socket: Socket, receiverId: string, content: string,
                         sessionKey: string, crypto: Crypto, now: int): (m: Message)
    ensures m.sender == socket.userId && m.receiver == receiverId && m.content == content
    ensures m.encryptedContent == crypto.encrypt(content, sessionKey)
    ensures m.messageHash == crypto.hash(content)
    ensures m.signature == crypto.sign(content, socket.user.privateKey)
    ensures !m.isDelivered && !m.isRead && m.timestamp == now && m.id == id
  {
    MessageModel.NewMessage(id, socket.userId, receiverId, content, crypto.encrypt(content, sessionKey),
      crypto.sign(content, socket.user.privateKey), crypto.hash(content), now)
  }

  /** The push to the receiver for a stored message. */
  function PushEvent(m: Message, socket: Socket): ServerEvent {
    NewMessage(m.id, socket.userId, socket.user.username, socket.user.publicKey,
      m.content, m.encryptedContent, m.signature, m.messageHash, m.timestamp)
  }

  class SocketManager {
    /** `connectedUsers`, keyed by user id, in first-connection order. */
    var connectedUsers: OrderedMap.Assoc<UserId, Session>
    /** `messageRateLimit`, keyed by `${userId}_${action}`. */
    var messageRateLimit: map<string, RateData>
    /** Every event emitted so far, in order. */
    var outbox: seq<Emit>
    const db: Db

    ghost predicate Valid()
      reads this
    {
      OrderedMap.DistinctKeys(connectedUsers) && OrderedMap.KeyedBy(connectedUsers, SessionUserId)
    }

    constructor (db: Db)
      ensures Valid()
      ensures this.db == db && connectedUsers == [] && messageRateLimit == map[] && outbox == []
    {
      this.db := db;
      connectedUsers := [];
      messageRateLimit := map[];
      outbox := [];
    }

    /** `checkRateLimit(userId, action)` */
    method CheckRateLimit(userId: UserId, action: string, now: int) returns (allowed: bool)
      modifies this`messageRateLimit
      ensures RateDecision(allowed, messageRateLimit)
           == RateCheck(old(messageRateLimit), RateKey(userId, action), RateLimit(action), now)
    {
      var key := RateKey(userId, action);
      var limit := RateLimit(action);
      if key !in messageRateLimit {
        messageRateLimit := messageRateLimit[key := RateData(1, now + RATE_WINDOW)];
        return true;
      }
      var rateData := messageRateLimit[key];
      if now > rateData.resetTime {
        messageRateLimit := messageRateLimit[key := RateData(1, now + RATE_WINDOW)];
        return true;
      }
      if rateData.count >= limit {
        return false;
      }
      messageRateLimit := messageRateLimit[key := rateData.(count := rateData.count + 1)];
      return true;
    }

    /**
     * `handleMessage(socket, data)`. `newId` is the id the store gives the new
     * document and `saveFails` says whether saving it throws.
     */
    method HandleMessage(socket: Socket, data: Option<SendData>, now: int, newId: string,
                         crypto: Crypto, saveFails: bool) returns (error: Option<DispatchError>)
      requires Valid()
      modifies this`messageRateLimit, this`outbox, db`messages
      ensures Valid()
      // every failure: one error event to the sender, carrying the tempId, and nothing stored
      ensures error.Some? ==>
        && db.messages == old(db.messages)
        && outbox == old(outbox) + [Emit(ToSocket(socket.id), ErrorEvent(error.value, ErrorTempId(data)))]
      // content checks come first and spend no quota
      ensures ValidateSend(data).Some? ==>
        error == ValidateSend(data) && messageRateLimit == old(messageRateLimit)
      ensures ValidateSend(data).None? ==>
        var d := RateCheck(old(messageRateLimit), RateKey(socket.userId, "message"), 10, now);
        var rid := data.value.receiverId;
        && messageRateLimit == d.table
        && (!d.allowed ==> error == Some(RateLimited))
        && (d.allowed && socket.userId !in OrderedMap.Keys(connectedUsers) ==> error == Some(SenderNotFound))
        && (d.allowed && socket.userId in OrderedMap.Keys(connectedUsers) ==>
              && (!(rid.JString? && IsObjectIdString(rid.s)) ==> error == Some(InternalError))
              && (rid.JString? && IsObjectIdString(rid.s) && ObjectIdOf(rid.s) !in db.users ==> error == Some(ReceiverNotFound))
              && (rid.JString? && IsObjectIdString(rid.s) && ObjectIdOf(rid.s) in db.users && saveFails ==> error == Some(InternalError)))
        && (error.None? <==>
              d.allowed && socket.userId in OrderedMap.Keys(connectedUsers)
              && rid.JString? && IsObjectIdString(rid.s) && ObjectIdOf(rid.s) in db.users && !saveFails)
      // success: stored once under the receiver's ObjectId, acknowledged to the sender with the id as sent,
      // then pushed at most once to the registry entry under that same string
      ensures error.None? ==>
        var d := data.value;
        var session := OrderedMap.Get(connectedUsers, socket.userId).value;
        var m := StoredMessage(newId, socket, ObjectIdOf(d.receiverId.s), d.content.s, session.sessionKey, crypto, now);
        var ack := Emit(ToSocket(socket.id), MessageSent(newId, d.receiverId.s, d.tempId, now));
        && db.messages == old(db.messages) + [m]
        && outbox == old(outbox) + [ack]
             + (match OrderedMap.Get(connectedUsers, d.receiverId.s)
                case Some(r) => [Emit(ToSocket(r.socketId), PushEvent(m, socket))]
                case None => [])
    {
      var check := ValidateSend(data);
      if check.Some? {
        error := check;
        outbox := outbox + [Emit(ToSocket(socket.id), ErrorEvent(error.value, ErrorTempId(data)))];
        return;
      }
      var d := data.value;
      var allowed := CheckRateLimit(socket.userId, "message", now);
      if !allowed {
        error := Some(RateLimited);
        outbox := outbox + [Emit(ToSocket(socket.id), ErrorEvent(RateLimited, d.tempId))];
        return;
      }
      var sender := OrderedMap.Get(connectedUsers, socket.userId);
      if sender.None? {
        error := Some(SenderNotFound);
        outbox := outbox + [Emit(ToSocket(socket.id), ErrorEvent(SenderNotFound, d.tempId))];
        return;
      }
      // a receiver id that is not an ObjectId string is treated as a failed cast
      if !(d.receiverId.JString? && IsObjectIdString(d.receiverId.s)) {
        error := Some(InternalError);
        outbox := outbox + [Emit(ToSocket(socket.id), ErrorEvent(InternalError, d.tempId))];
        return;
      }
      var receiverId := d.receiverId.s;
      // `findById` and the stored `receiver` cast the string to its ObjectId
      if ObjectIdOf(receiverId) !in db.users {
        error := Some(ReceiverNotFound);
        outbox := outbox + [Emit(ToSocket(socket.id), ErrorEvent(ReceiverNotFound, d.tempId))];
        return;
      }
      var content := d.content.s;
      var message := StoredMessage(newId, socket, ObjectIdOf(receiverId), content, sender.value.sessionKey, crypto, now);
      if saveFails {
        error := Some(InternalError);
        outbox := outbox + [Emit(ToSocket(socket.id), ErrorEvent(InternalError, d.tempId))];
        return;
      }
      db.messages := db.messages + [message];
      outbox := outbox + [Emit(ToSocket(socket.id), MessageSent(newId, receiverId, d.tempId, now))];
      var receiver := OrderedMap.Get(connectedUsers, receiverId);
      if receiver.Some? {
        outbox := outbox + [Emit(ToSocket(receiver.value.socketId), PushEvent(message, socket))];
      }
      error := None;
    }

    /** `handleConnection(socket)`: the latest connection of a user replaces the earlier entry. */
    method HandleConnection(socket: Socket, now: int, sessionKey: string)
      requires Valid() && Authenticated(socket)
      modifies this, db
      ensures Valid()
      ensures connectedUsers == OrderedMap.Set(old(connectedUsers), socket.userId, Session(socket.id, socket.user, sessionKey))
      ensures OrderedMap.Get(connectedUsers, socket.userId) == Some(Session(socket.id, socket.user, sessionKey))
      ensures db.users == if socket.userId in old(db.users)
                          then old(db.users)[socket.userId := old(db.users)[socket.userId].(isOnline := true, lastSeen := now)]
                          else old(db.users)
      ensures db.messages == old(db.messages) && messageRateLimit == old(messageRateLimit)
      ensures outbox == old(outbox) + [
        Emit(AllExcept(socket.id), UserOnline(socket.userId, socket.user.username)),
        Emit(ToSocket(socket.id), OnlineUsers(OnlineSnapshot(connectedUsers)))]
    {
      if socket.userId in db.users {
        db.users := db.users[socket.userId := db.users[socket.userId].(isOnline := true, lastSeen := now)];
      }
      OrderedMap.SetKeyedBy(connectedUsers, socket.userId, Session(socket.id, socket.user, sessionKey), SessionUserId);
      connectedUsers := OrderedMap.Set(connectedUsers, socket.userId, Session(socket.id, socket.user, sessionKey));
      outbox := outbox + [Emit(AllExcept(socket.id), UserOnline(socket.userId, socket.user.username))];
      outbox := outbox + [Emit(ToSocket(socket.id), OnlineUsers(OnlineSnapshot(connectedUsers)))];
    }

    /** `handleDisconnect(socket)`: removes the user's entry whichever socket it holds. */
    method HandleDisconnect(socket: Socket, now: int)
      requires Valid()
      modifies this, db
      ensures Valid()
      ensures connectedUsers == OrderedMap.Delete(old(connectedUsers), socket.userId)
      ensures OrderedMap.Get(connectedUsers, socket.userId) == None
      ensures db.users == if socket.userId in old(db.users)
                          then old(db.users)[socket.userId := old(db.users)[socket.userId].(isOnline := false, lastSeen := now)]
                          else old(db.users)
      ensures db.messages == old(db.messages) && messageRateLimit == old(messageRateLimit)
      ensures outbox == old(outbox) + [Emit(AllExcept(socket.id), UserOffline(socket.userId))]
    {
      OrderedMap.DeleteKeyedBy(connectedUsers, socket.userId, SessionUserId);
      connectedUsers := OrderedMap.Delete(connectedUsers, socket.userId);
      if socket.userId in db.users {
        db.users := db.users[socket.userId := db.users[socket.userId].(isOnline := false, lastSeen := now)];
      }
      outbox := outbox + [Emit(AllExcept(socket.id), UserOffline(socket.userId))];
    }

    /** The registry entry for a `receiverId` payload field (only a string can be a key). */
    function ReceiverSession(receiverId: Json): Option<Session>
      reads this
    {
      if receiverId.JString? then OrderedMap.Get(connectedUsers, receiverId.s) else None
    }

    /** `handleTyping(socket, { receiverId })`: relayed only to a connected receiver. */
    method HandleTyping(socket: Socket, receiverId: Json)
      modifies this`outbox
      ensures outbox == old(outbox) + match ReceiverSession(receiverId)
        case Some(r) => [Emit(ToSocket(r.socketId), UserTyping(socket.userId, socket.user.username))]
        case None => []
    {
      var receiver := ReceiverSession(receiverId);
      if receiver.Some? {
        outbox := outbox + [Emit(ToSocket(receiver.value.socketId), UserTyping(socket.userId, socket.user.username))];
      }
    }

    /** `handleStopTyping(socket, { receiverId })` */
    method HandleStopTyping(socket: Socket, receiverId: Json)
      modifies this`outbox
      ensures outbox == old(outbox) + match ReceiverSession(receiverId)
        case Some(r) => [Emit(ToSocket(r.socketId), UserStoppedTyping(socket.userId))]
        case None => []
    {
      var receiver := ReceiverSession(receiverId);
      if receiver.Some? {
        outbox := outbox + [Emit(ToSocket(receiver.value.socketId), UserStoppedTyping(socket.userId))];
      }
    }

    /** `getOnlineUsers()` */
    function GetOnlineUsers(): (r: seq<OnlineUserInfo>)
      reads this
      requires Valid()
      ensures |r| == |connectedUsers|
      ensures forall i :: 0 <= i < |r| ==> r[i].id == connectedUsers[i].0
    {
      OnlineSnapshot(connectedUsers)
    }
  }

  /**
   * A user connects on two sockets and the first one closes: the registry no
   * longer lists the user and the store marks them offline, although the
   * second socket is still open.
   */
  method StaleDisconnectRace(u: User, firstSocket: string, secondSocket: string, now: int)
    returns (stillListed: bool, onlineInStore: bool, secondWasListed: bool)
    requires firstSocket != secondSocket
    ensures secondWasListed
    ensures !stillListed && !onlineInStore
  {
    var db := new Db(map[u.id := u], []);
    var manager := new SocketManager(db);
    var s1 := Socket(firstSocket, u.id, u);
    var s2 := Socket(secondSocket, u.id, u);
    manager.HandleConnection(s1, now, "k1");
    manager.HandleConnection(s2, now + 1, "k2");
    secondWasListed := OrderedMap.Get(manager.connectedUsers, u.id) == Some(Session(secondSocket, u, "k2"));
    manager.HandleDisconnect(s1, now + 2);
    stillListed := u.id in OrderedMap.Keys(manager.connectedUsers);
    onlineInStore := db.users[u.id].isOnline;
  }
}
