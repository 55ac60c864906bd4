/**
 * The client's conversation state (`client/src/store/chatStore.js`): the
 * message log of each conversation, the online-user list, the set of users
 * typing, the unread counters and a time-limited cache.
 */
module ChatStore {
  import opened Wrappers
  import opened Json
  import opened Sorting
  import opened Seqs

  const CACHE_TTL: int := 300000

  /** The `type` of a message in the log. */
  datatype Kind = Sending | Sent | Received | FailedKind
  datatype Status = Pending | Delivered | Failed

  /**
   * A message in a conversation log. Every field but the timestamp may be absent
   * (`undefined`); the timestamp is in milliseconds.
   */
  datatype ChatMessage = ChatMessage(
    id: Option<string>,
    tempId: Option<string>,
    senderId: Option<string>,
    senderUsername: Option<string>,
    content: Option<string>,
    timestamp: int,
    kind: Option<Kind>,
    status: Option<Status>,
    verified: Option<bool>,
    error: Option<string>)

  /** Field-wise override: a present field of `b` wins (`{...a, ...b}`). */
  function Override<T>(a: Option<T>, b: Option<T>): Option<T> {
    if b.Some? then b else a
  }

  function Merge(a: ChatMessage, b: ChatMessage): (m: ChatMessage)
    ensures m.timestamp == b.timestamp
    ensures b.id.Some? ==> m.id == b.id
    ensures b.tempId.Some? ==> m.tempId == b.tempId
  {
    ChatMessage(Override(a.id, b.id), Override(a.tempId, b.tempId), Override(a.senderId, b.senderId),
      Override(a.senderUsername, b.senderUsername), Override(a.content, b.content), b.timestamp,
      Override(a.kind, b.kind), Override(a.status, b.status), Override(a.verified, b.verified),
      Override(a.error, b.error))
  }

  /** The fields an `updateMessage` call sets. */
  datatype Patch = Patch(id: Option<string>, kind: Option<Kind>, timestamp: Option<int>,
                         status: Option<Status>, error: Option<string>)

  function ApplyPatch(m: ChatMessage, p: Patch): ChatMessage {
    m.(id := Override(m.id, p.id), kind := Override(m.kind, p.kind),
       timestamp := if p.timestamp.Some? then p.timestamp.value else m.timestamp,
       status := Override(m.status, p.status), error := Override(m.error, p.error))
  }

  predicate Truthy(s: Option<string>) {
    s.Some? && s.value != ""
  }

  /** The `addMessage` match: a truthy equal `id` or a truthy equal `tempId`. */
  predicate SameMessage(m: ChatMessage, incoming: ChatMessage) {
    (Truthy(m.id) && m.id == incoming.id) || (Truthy(m.tempId) && m.tempId == incoming.tempId)
  }

  function Timestamp(m: ChatMessage): int {
    m.timestamp
  }

  /** The log after merging or appending `incoming`, before sorting. */
  function Upserted(log: seq<ChatMessage>, incoming: ChatMessage): (r: seq<ChatMessage>)
    ensures var i := FirstIndex(log, (m: ChatMessage) => SameMessage(m, incoming));
      && (i < |log| ==> r == log[i := Merge(log[i], incoming)])
      && (i == |log| ==> r == log + [incoming])
    ensures (exists j :: 0 <= j < |log| && SameMessage(log[j], incoming)) ==> |r| == |log|
    ensures (forall j :: 0 <= j < |log| ==> !SameMessage(log[j], incoming)) ==> r == log + [incoming]
  {
    var i := FirstIndex(log, (m: ChatMessage) => SameMessage(m, incoming));
    if i < |log| then log[i := Merge(log[i], incoming)] else log + [incoming]
  }

  /**
   * `addMessage` on one log: the first entry matching `incoming` absorbs it, or
   * it is appended; the log is then stably sorted by timestamp.
   */
  function UpsertMessage(log: seq<ChatMessage>, incoming: ChatMessage): (r: seq<ChatMessage>)
    ensures SortedBy(r, Timestamp)
    ensures multiset(r) == multiset(Upserted(log, incoming))
    ensures (exists j :: 0 <= j < |log| && SameMessage(log[j], incoming)) ==> |r| == |log|
    ensures (forall j :: 0 <= j < |log| ==> !SameMessage(log[j], incoming)) ==> |r| == |log| + 1 && incoming in r
  {
    var u := Upserted(log, incoming);
    var r := SortBy(u, Timestamp);
    assert (forall j :: 0 <= j < |log| ==> !SameMessage(log[j], incoming)) ==> u[|log|] == incoming && incoming in multiset(r);
    r
  }

  /** A message that carries a truthy `id` or `tempId` matches what it was merged into. */
  lemma MergedStillMatches(a: ChatMessage, incoming: ChatMessage)
    requires Truthy(incoming.id) || Truthy(incoming.tempId)
    ensures SameMessage(Merge(a, incoming), incoming)
  {
  }

  /**
   * Adding the same identified message twice leaves one entry for it: the second
   * addition merges and the log does not grow.
   */
  lemma UpsertTwiceKeepsLength(log: seq<ChatMessage>, incoming: ChatMessage)
    requires Truthy(incoming.id) || Truthy(incoming.tempId)
    ensures |UpsertMessage(UpsertMessage(log, incoming), incoming)| == |UpsertMessage(log, incoming)|
  {
    var u := Upserted(log, incoming);
    var r := UpsertMessage(log, incoming);
    var i := FirstIndex(log, (m: ChatMessage) => SameMessage(m, incoming));
    var e := if i < |log| then Merge(log[i], incoming) else incoming;
    assert u[i] == e;
    assert SameMessage(e, incoming);
    assert e in multiset(r);
    var k :| 0 <= k < |r| && r[k] == e;
    assert SameMessage(r[k], incoming);
  }

  /**
   * `updateMessage` on one log: the first entry whose `tempId` equals `tempId`
   * (absent equals absent) takes the patch; nothing else changes and the log is
   * not re-sorted.
   */
  function PatchByTempId(log: seq<ChatMessage>, tempId: Option<string>, p: Patch): (r: seq<ChatMessage>)
    ensures |r| == |log|
    ensures var i := FirstIndex(log, (m: ChatMessage) => m.tempId == tempId);
      && (forall j :: 0 <= j < |log| && j != i ==> r[j] == log[j])
      && (i < |log| ==> r[i] == ApplyPatch(log[i], p))
    ensures (forall j :: 0 <= j < |log| ==> log[j].tempId != tempId) ==> r == log
  {
    var i := FirstIndex(log, (m: ChatMessage) => m.tempId == tempId);
    if i < |log| then log[i := ApplyPatch(log[i], p)] else log
  }

  /** An entry of the online-user list, as received from the server. */
  datatype OnlineUser = OnlineUser(id: Option<string>, userId: Option<string>,
                                   username: Option<string>, publicKey: Option<string>)

  /** No two entries share an `id` (absent counts as a value). */
  predicate DistinctIds(users: seq<OnlineUser>) {
    forall i, j :: 0 <= i < j < |users| ==> users[i].id != users[j].id
  }

  /** `addOnlineUser`: appended unless an entry with the same `id` exists. */
  function AddOnlineUser(users: seq<OnlineUser>, user: OnlineUser): (r: seq<OnlineUser>)
    ensures (exists i :: 0 <= i < |users| && users[i].id == user.id) ==> r == users
    ensures (forall i :: 0 <= i < |users| ==> users[i].id != user.id) ==> r == users + [user]
    ensures exists i :: 0 <= i < |r| && r[i].id == user.id
  {
    if exists i :: 0 <= i < |users| && users[i].id == user.id then users
    else
      var r := users + [user];
      assert r[|users|].id == user.id;
      r
  }

  /** The test `removeOnlineUser` filters by. */
  function OtherId(id: Option<string>): OnlineUser -> bool {
    (u: OnlineUser) => u.id != id
  }

  /** `removeOnlineUser`: the entries whose `id` differs, in their order. */
  function RemoveOnlineUser(users: seq<OnlineUser>, id: Option<string>): (r: seq<OnlineUser>)
    ensures forall u :: u in r <==> u in users && u.id != id
    ensures (forall i :: 0 <= i < |users| ==> users[i].id != id) ==> r == users
  {
    Filter(users, OtherId(id))
  }

  /**
   * Removal works entry by entry: a single entry stays exactly when its `id`
   * differs, and the result for a concatenation is the concatenation of the
   * results, so the remaining entries keep their relative order.
   */
  lemma RemoveOnlineUserPiecewise(a: seq<OnlineUser>, b: seq<OnlineUser>, id: Option<string>)
    ensures RemoveOnlineUser(a + b, id) == RemoveOnlineUser(a, id) + RemoveOnlineUser(b, id)
    ensures |a| == 1 ==> RemoveOnlineUser(a, id) == if a[0].id != id then a else []
  {
    FilterAppend(a, b, OtherId(id));
    if |a| == 1 {
      assert a[1..] == [];
    }
  }

  /** The online list never holds two entries with the same `id`. */
  lemma AddOnlineUserKeepsIdsDistinct(users: seq<OnlineUser>, user: OnlineUser)
    requires DistinctIds(users)
    ensures DistinctIds(AddOnlineUser(users, user))
  {
  }

  lemma {:induction false} FilterKeepsIdsDistinct(users: seq<OnlineUser>, p: OnlineUser -> bool)
    requires DistinctIds(users)
    ensures DistinctIds(Filter(users, p))
  {
    if users != [] {
      FilterKeepsIdsDistinct(users[1..], p);
      var f := Filter(users[1..], p);
      if p(users[0]) {
        var r := [users[0]] + f;
        forall i, j | 0 <= i < j < |r| ensures r[i].id != r[j].id {
          assert r[j] == f[j - 1] && f[j - 1] in users[1..];
          if i > 0 {
            assert r[i] == f[i - 1];
          }
        }
      }
    }
  }

  lemma RemoveOnlineUserKeepsIdsDistinct(users: seq<OnlineUser>, id: Option<string>)
    requires DistinctIds(users)
    ensures DistinctIds(RemoveOnlineUser(users, id))
  {
    FilterKeepsIdsDistinct(users, OtherId(id));
  }

  /** Removing after adding leaves no entry with that `id`. */
  lemma RemoveAfterAdd(users: seq<OnlineUser>, user: OnlineUser)
    ensures forall u :: u in RemoveOnlineUser(AddOnlineUser(users, user), user.id) ==> u.id != user.id
  {
  }

  datatype TypingUser = TypingUser(userId: Option<string>, username: Option<string>)

  predicate OnePerUser(typing: seq<TypingUser>) {
    forall i, j :: 0 <= i < j < |typing| ==> typing[i].userId != typing[j].userId
  }

  /** `setTyping`: the user's earlier entries go and a fresh one is added last. */
  function SetTyping(typing: seq<TypingUser>, userId: Option<string>, username: Option<string>): (r: seq<TypingUser>)
    ensures |r| >= 1 && r[|r| - 1] == TypingUser(userId, username)
    ensures forall t :: t in r[..|r| - 1] <==> t in typing && t.userId != userId
    ensures forall i :: 0 <= i < |r| - 1 ==> r[i].userId != userId
  {
    Filter(typing, (t: TypingUser) => t.userId != userId) + [TypingUser(userId, username)]
  }

  /** `removeTyping`: exactly the user's entries go. */
  function RemoveTyping(typing: seq<TypingUser>, userId: Option<string>): (r: seq<TypingUser>)
    ensures forall t :: t in r <==> t in typing && t.userId != userId
  {
    Filter(typing, (t: TypingUser) => t.userId != userId)
  }

  lemma {:induction false} FilterKeepsOnePerUser(typing: seq<TypingUser>, p: TypingUser -> bool)
    requires OnePerUser(typing)
    ensures OnePerUser(Filter(typing, p))
  {
    if typing != [] {
      FilterKeepsOnePerUser(typing[1..], p);
      var f := Filter(typing[1..], p);
      if p(typing[0]) {
        var r := [typing[0]] + f;
        forall i, j | 0 <= i < j < |r| ensures r[i].userId != r[j].userId {
          assert r[j] == f[j - 1] && f[j - 1] in typing[1..];
          if i > 0 {
            assert r[i] == f[i - 1];
          }
        }
      }
    }
  }

  /** After `setTyping` the user has exactly one entry, holding the latest username. */
  lemma SetTypingOnePerUser(typing: seq<TypingUser>, userId: Option<string>, username: Option<string>)
    requires OnePerUser(typing)
    ensures OnePerUser(SetTyping(typing, userId, username))
    ensures forall t :: t in SetTyping(typing, userId, username) && t.userId == userId ==> t.username == username
  {
    var f := Filter(typing, (t: TypingUser) => t.userId != userId);
    FilterKeepsOnePerUser(typing, (t: TypingUser) => t.userId != userId);
    var r := SetTyping(typing, userId, username);
    assert r[..|r| - 1] == f;
    forall t | t in r && t.userId == userId ensures t.username == username {
      var k :| 0 <= k < |r| && r[k] == t;
    }
  }

  lemma RemoveTypingOnePerUser(typing: seq<TypingUser>, userId: Option<string>)
    requires OnePerUser(typing)
    ensures OnePerUser(RemoveTyping(typing, userId))
  {
    FilterKeepsOnePerUser(typing, (t: TypingUser) => t.userId != userId);
  }

  /** `incrementUnreadCount`: the sender's counter grows by one, starting from zero. */
  function IncrementUnread(counts: map<string, nat>, userId: string): (r: map<string, nat>)
    ensures userId in r && r[userId] == (if userId in counts then counts[userId] else 0) + 1
    ensures forall k :: k != userId ==> (k in r <==> k in counts) && (k in counts ==> r[k] == counts[k])
  {
    counts[userId := (if userId in counts then counts[userId] else 0) + 1]
  }

  /** `clearUnreadCount` */
  function ClearUnread(counts: map<string, nat>, userId: string): (r: map<string, nat>)
    ensures userId !in r
    ensures forall k :: k != userId ==> (k in r <==> k in counts) && (k in counts ==> r[k] == counts[k])
  {
    counts - {userId}
  }

  /** The counter after `n` messages from one sender read nothing counts them all. */
  function IncrementTimes(counts: map<string, nat>, userId: string, n: nat): map<string, nat> {
    if n == 0 then counts else IncrementUnread(IncrementTimes(counts, userId, n - 1), userId)
  }

  lemma {:induction false} UnreadCountsMessages(counts: map<string, nat>, userId: string, n: nat)
    requires n >= 1
    ensures var r := IncrementTimes(ClearUnread(counts, userId), userId, n);
      userId in r && r[userId] == n
  {
    if n > 1 {
      UnreadCountsMessages(counts, userId, n - 1);
    }
  }

  /** The merge of a fetched page into the log: page 1 replaces, later pages go in front. */
  function MergeLoaded(page: int, fetched: seq<ChatMessage>, existing: seq<ChatMessage>): (r: seq<ChatMessage>)
    ensures page == 1 ==> r == fetched
    ensures page != 1 ==> |r| == |fetched| + |existing| && r[..|fetched|] == fetched && r[|fetched|..] == existing
  {
    if page == 1 then fetched else fetched + existing
  }

  datatype CacheEntry<D> = CacheEntry(data: D, timestamp: int)

  /** `getCachedData`: the data while younger than five minutes, else nothing. */
  function GetCachedData<D>(cache: map<string, CacheEntry<D>>, key: string, now: int): (r: Option<D>)
    ensures r.Some? <==> key in cache && now - cache[key].timestamp < 300000
    ensures r.Some? ==> r.value == cache[key].data
  {
    if key in cache && now - cache[key].timestamp < CACHE_TTL then Some(cache[key].data) else None
  }

  /** `setCachedData` */
  function SetCachedData<D>(cache: map<string, CacheEntry<D>>, key: string, data: D, now: int): map<string, CacheEntry<D>> {
    cache[key := CacheEntry(data, now)]
  }

  /** What was cached at `t` is returned exactly until five minutes have passed. */
  lemma CacheRoundTrip<D>(cache: map<string, CacheEntry<D>>, key: string, data: D, t: int, now: int)
    ensures GetCachedData(SetCachedData(cache, key, data, t), key, now) == if now - t < 300000 then Some(data) else None
    ensures forall k :: k != key ==> GetCachedData(SetCachedData(cache, key, data, t), k, now) == GetCachedData(cache, k, now)
  {
  }

  /** The conversation logs after `addMessage(conversationId, message)`. */
  function AddedMessages(messages: map<string, seq<ChatMessage>>, conversationId: string, message: ChatMessage)
    : (r: map<string, seq<ChatMessage>>)
    ensures conversationId in r && r[conversationId] ==
      UpsertMessage(if conversationId in messages then messages[conversationId] else [], message)
    ensures forall c :: c != conversationId ==> (c in r <==> c in messages) && (c in r ==> r[c] == messages[c])
  {
    messages[conversationId := UpsertMessage(if conversationId in messages then messages[conversationId] else [], message)]
  }

  /** The conversation logs after `updateMessage(conversationId, tempId, updates)`. */
  function UpdatedMessages(messages: map<string, seq<ChatMessage>>, conversationId: string, tempId: Option<string>,
                           updates: Patch): (r: map<string, seq<ChatMessage>>)
    ensures conversationId !in messages ==> r == messages
    ensures conversationId in messages ==> r == messages[conversationId := PatchByTempId(messages[conversationId], tempId, updates)]
  {
    if conversationId in messages then messages[conversationId := PatchByTempId(messages[conversationId], tempId, updates)]
    else messages
  }

  class ChatStore {
    /** The message log of each conversation, by conversation id. */
    var messages: map<string, seq<ChatMessage>>
    var onlineUsers: seq<OnlineUser>
    /** The id of the selected user, if one is selected. */
    var selectedUser: Option<string>
    var typingUsers: seq<TypingUser>
    var isConnected: bool
    var unreadCounts: map<string, nat>
    var cache: map<string, CacheEntry<Json>>

    ghost predicate Valid()
      reads this
    {
      OnePerUser(typingUsers)
    }

    constructor ()
      ensures Valid()
      ensures messages == map[] && onlineUsers == [] && selectedUser == None && typingUsers == []
      ensures !isConnected && unreadCounts == map[] && cache == map[]
    {
      messages := map[];
      onlineUsers := [];
      selectedUser := None;
      typingUsers := [];
      isConnected := false;
      unreadCounts := map[];
      cache := map[];
    }

    /** `getConversationMessages` */
    function Conversation(conversationId: string): seq<ChatMessage>
      reads this
    {
      if conversationId in messages then messages[conversationId] else []
    }

    method SetConnectionStatus(connected: bool)
      modifies this`isConnected
      ensures isConnected == connected
    {
      isConnected := connected;
    }

    method SetOnlineUsers(users: seq<OnlineUser>)
      modifies this`onlineUsers
      ensures onlineUsers == users
    {
      onlineUsers := users;
    }

    method AddOnlineUserEntry(user: OnlineUser)
      modifies this`onlineUsers
      ensures onlineUsers == AddOnlineUser(old(onlineUsers), user)
    {
      onlineUsers := AddOnlineUser(onlineUsers, user);
    }

    method RemoveOnlineUserEntry(id: Option<string>)
      modifies this`onlineUsers
      ensures onlineUsers == RemoveOnlineUser(old(onlineUsers), id)
    {
      onlineUsers := RemoveOnlineUser(onlineUsers, id);
    }

    /**
     * `addMessage(conversationId, message)`: the conversation's log is updated in
     * place (assignment or push, then sort); other conversations are untouched.
     */
    method AddMessage(conversationId: string, message: ChatMessage)
      modifies this`messages
      ensures messages == AddedMessages(old(messages), conversationId, message)
    {
      var log := Conversation(conversationId);
      var existing := FirstIndex(log, (m: ChatMessage) => SameMessage(m, message));
      if existing < |log| {
        log := log[existing := Merge(log[existing], message)];
      } else {
        log := log + [message];
      }
      assert log == Upserted(Conversation(conversationId), message);
      log := SortBy(log, Timestamp);
      messages := messages[conversationId := log];
    }

    /** `updateMessage(conversationId, tempId, updates)`: a missing conversation stays missing. */
    method UpdateMessage(conversationId: string, tempId: Option<string>, updates: Patch)
      modifies this`messages
      ensures messages == UpdatedMessages(old(messages), conversationId, tempId, updates)
    {
      var log := Conversation(conversationId);
      var index := FirstIndex(log, (m: ChatMessage) => m.tempId == tempId);
      if index < |log| {
        log := log[index := ApplyPatch(log[index], updates)];
        messages := messages[conversationId := log];
      }
    }

    method SetTypingEntry(userId: Option<string>, username: Option<string>)
      requires Valid()
      modifies this`typingUsers
      ensures Valid()
      ensures typingUsers == SetTyping(old(typingUsers), userId, username)
    {
      SetTypingOnePerUser(typingUsers, userId, username);
      typingUsers := SetTyping(typingUsers, userId, username);
    }

    method RemoveTypingEntry(userId: Option<string>)
      requires Valid()
      modifies this`typingUsers
      ensures Valid()
      ensures typingUsers == RemoveTyping(old(typingUsers), userId)
    {
      RemoveTypingOnePerUser(typingUsers, userId);
      typingUsers := RemoveTyping(typingUsers, userId);
    }

    method IncrementUnreadCount(userId: string)
      modifies this`unreadCounts
      ensures unreadCounts == IncrementUnread(old(unreadCounts), userId)
    {
      unreadCounts := IncrementUnread(unreadCounts, userId);
    }

    method ClearUnreadCount(userId: string)
      modifies this`unreadCounts
      ensures unreadCounts == ClearUnread(old(unreadCounts), userId)
    {
      unreadCounts := ClearUnread(unreadCounts, userId);
    }

    /** The state update of `loadMessages` once the page has arrived; a failed request changes nothing. */
    method LoadMessages(conversationId: string, page: int, fetched: Option<seq<ChatMessage>>)
      modifies this`messages
      ensures fetched.None? ==> messages == old(messages)
      ensures fetched.Some? ==>
        messages == old(messages)[conversationId := MergeLoaded(page, fetched.value, old(Conversation(conversationId)))]
    {
      if fetched.Some? {
        messages := messages[conversationId := MergeLoaded(page, fetched.value, Conversation(conversationId))];
      }
    }

    function GetCached(key: string, now: int): Option<Json>
      reads this
    {
      GetCachedData(cache, key, now)
    }

    method SetCached(key: string, data: Json, now: int)
      modifies this`cache
      ensures cache == SetCachedData(old(cache), key, data, now)
    {
      cache := SetCachedData(cache, key, data, now);
    }
  }
}
