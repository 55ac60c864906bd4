/**
 * The message history controller (`server/controllers/messageController.js`):
 * conversation listing, paginated history with read marking, user and message
 * search, and delivery marking, over the in-memory `Db`.
 */
module MessageController {
  import opened Wrappers
  import opened Strings
  import opened Sorting
  import opened Seqs
  import opened UserModel
  import opened MessageModel
  import opened Database

  // ---------------------------------------------------------------- ids

  /** `/^[a-f\d]{24}_[a-f\d]{24}$/`: with no `i` flag, upper-case hex digits are refused. */
  predicate ConversationIdFormat(s: string) {
    && |s| == 49 && s[24] == '_'
    && (forall i :: 0 <= i < 24 ==> IsLowerHexDigit(s[i]))
    && (forall i :: 25 <= i < 49 ==> IsLowerHexDigit(s[i]))
  }

  lemma LowerHexCanonical(s: string)
    requires forall i :: 0 <= i < |s| ==> IsLowerHexDigit(s[i])
    ensures ObjectIdOf(s) == s && IsObjectIdString(s) == (|s| == 24) && '_' !in s
  {
  }

  /** An id of the accepted format splits at its one `_` into two ObjectId strings. */
  lemma FormatSplits(s: string)
    requires ConversationIdFormat(s)
    ensures Split(s, '_') == [s[..24], s[25..]]
    ensures IsObjectIdString(s[..24]) && IsObjectIdString(s[25..])
    ensures ObjectIdOf(s[..24]) == s[..24] && ObjectIdOf(s[25..]) == s[25..]
    ensures s[..24] != [] && Trim(s[..24]) != [] && s[25..] != [] && Trim(s[25..]) != []
  {
    LowerHexCanonical(s[..24]);
    LowerHexCanonical(s[25..]);
    assert s == s[..24] + ['_'] + s[25..];
    SplitJoin(s[..24], s[25..], '_');
    assert !IsJsWhitespace(s[0]) && !IsJsWhitespace(s[25]);
    assert !AllWhitespace(s[..24]) && !AllWhitespace(s[25..]);
  }

  /**
   * The participants of `conversationId` after every check `getMessages` makes on
   * it: the pattern, the split into two parts, no empty part, and ObjectId validity,
   * each refusal answering 400. Only the pattern can refuse.
   */
  function ValidatedParticipants(conversationId: string): (r: Result<seq<UserId>, int>)
    ensures r.Ok? <==> ConversationIdFormat(conversationId)
    ensures r.Ok? ==> r.value == [conversationId[..24], conversationId[25..]]
    ensures r.Err? ==> r.error == 400
  {
    if !ConversationIdFormat(conversationId) then Err(400)
    else
      FormatSplits(conversationId);
      var parts := Split(conversationId, '_');
      if |parts| != 2 then Err(400)
      else if parts[0] == [] || Trim(parts[0]) == [] || parts[1] == [] || Trim(parts[1]) == [] then Err(400)
      else if !IsObjectIdString(parts[0]) || !IsObjectIdString(parts[1]) then Err(400)
      else Ok([ObjectIdOf(parts[0]), ObjectIdOf(parts[1])])
  }

  /**
   * The loop that turns the id strings into ObjectIds, giving up at the first
   * string that is not one.
   */
  method ParticipantIds(parts: seq<string>) returns (ids: Option<seq<UserId>>)
    ensures ids.Some? <==> forall i :: 0 <= i < |parts| ==> IsObjectIdString(parts[i])
    ensures ids.Some? ==> |ids.value| == |parts| && forall i :: 0 <= i < |parts| ==> ids.value[i] == ObjectIdOf(parts[i])
  {
    var participantIds: seq<UserId> := [];
    for i := 0 to |parts|
      invariant forall j :: 0 <= j < i ==> IsObjectIdString(parts[j])
      invariant |participantIds| == i
      invariant forall j :: 0 <= j < i ==> participantIds[j] == ObjectIdOf(parts[j])
    {
      if !IsObjectIdString(parts[i]) {
        return None;
      }
      participantIds := participantIds + [ObjectIdOf(parts[i])];
    }
    return Some(participantIds);
  }

  /** The checks of `getMessages` on the conversation id, in the order it makes them. */
  method CheckConversationId(conversationId: string) returns (r: Result<seq<UserId>, int>)
    ensures r.Ok? <==> ConversationIdFormat(conversationId)
    ensures r.Ok? ==> r.value == [conversationId[..24], conversationId[25..]]
    ensures r.Err? ==> r.error == 400
  {
    if !ConversationIdFormat(conversationId) {
      return Err(400);
    }
    FormatSplits(conversationId);
    var participantIdStrings := Split(conversationId, '_');
    if |participantIdStrings| != 2 {
      return Err(400);
    }
    if participantIdStrings[0] == [] || Trim(participantIdStrings[0]) == [] || participantIdStrings[1] == [] || Trim(participantIdStrings[1]) == [] {
      return Err(400);
    }
    var ids := ParticipantIds(participantIdStrings);
    if ids.None? {
      return Err(400);
    }
    return Ok(ids.value);
  }

  // ---------------------------------------------------------------- history

  const DEFAULT_PAGE: int := 1
  const DEFAULT_LIMIT: int := 50
  const MAX_LIMIT: int := 100

  /** `pageNum`: the page clamped to at least 1. The query never uses it. */
  function PageNum(page: int): (n: int)
    ensures n >= 1 && n >= page
    ensures page >= 1 ==> n == page
  {
    if page < 1 then 1 else page
  }

  /** `limitNum`: the limit clamped to [1, 100]. The query never uses it. */
  function LimitNum(limit: int): (n: int)
    ensures 1 <= n <= MAX_LIMIT
    ensures 1 <= limit <= MAX_LIMIT ==> n == limit
  {
    if limit < 1 then 1 else if limit > MAX_LIMIT then MAX_LIMIT else limit
  }

  function Abs(x: int): nat {
    if x < 0 then -x else x
  }

  /**
   * `.limit(limit).skip(skip)` on a query: the skip is applied first, a limit of
   * 0 means no limit and a negative one is read as its absolute value.
   */
  function Window<T>(s: seq<T>, skip: nat, limit: int): (r: seq<T>)
    ensures skip >= |s| ==> r == []
    ensures skip < |s| ==> skip + |r| <= |s| && r == s[skip..skip + |r|]
    ensures skip < |s| && (limit == 0 || Abs(limit) >= |s| - skip) ==> |r| == |s| - skip
    ensures skip < |s| && limit != 0 && Abs(limit) < |s| - skip ==> |r| == Abs(limit)
  {
    if skip >= |s| then []
    else if limit == 0 || Abs(limit) >= |s| - skip then s[skip..]
    else s[skip..skip + Abs(limit)]
  }

  /** The `$or` of the history query: a message from either participant to the other. */
  predicate Between(m: Message, a: UserId, b: UserId) {
    (m.sender == a && m.receiver == b) || (m.sender == b && m.receiver == a)
  }

  /** Sort key of `{ timestamp: -1 }`: newer first. */
  function Newer(m: Message): int {
    -m.timestamp
  }

  function ConversationOf(ms: seq<Message>, a: UserId, b: UserId): (r: seq<Message>)
    ensures forall m :: m in r <==> m in ms && Between(m, a, b)
  {
    Filter(ms, (m: Message) => Between(m, a, b))
  }

  /**
   * The `find` of `getMessages` with the raw `page` and `limit`: newest first,
   * skipping `(page - 1) * limit`. A negative skip is refused by the database
   * and surfaces as a 500.
   */
  function HistoryQuery(ms: seq<Message>, a: UserId, b: UserId, page: int, limit: int): (r: Result<seq<Message>, int>)
    ensures r.Err? <==> (page - 1) * limit < 0
    ensures r.Err? ==> r.error == 500
    ensures r.Ok? ==> SortedBy(r.value, Newer)
    ensures r.Ok? ==> forall m :: m in r.value ==> m in ms && Between(m, a, b)
    ensures r.Ok? && limit != 0 ==> |r.value| <= Abs(limit)
    ensures r.Ok? ==> multiset(r.value) <= multiset(ConversationOf(ms, a, b))
    ensures r.Ok? ==> r.value == Window(SortBy(ConversationOf(ms, a, b), Newer), (page - 1) * limit, limit)
  {
    var skip := (page - 1) * limit;
    if skip < 0 then Err(500)
    else
      var conversation := ConversationOf(ms, a, b);
      var sorted := SortBy(conversation, Newer);
      var found := Window(sorted, skip, limit);
      SortByMembers(conversation, Newer);
      WindowSubmultiset(sorted, skip, limit);
      assert forall m :: m in found ==> m in sorted;
      Ok(found)
  }

  /** A window never repeats an element more often than the sequence it is cut from. */
  lemma WindowSubmultiset<T>(s: seq<T>, skip: nat, limit: int)
    ensures multiset(Window(s, skip, limit)) <= multiset(s)
  {
    var r := Window(s, skip, limit);
    if skip < |s| {
      assert s == s[..skip] + r + s[skip + |r|..];
    }
  }

  /** How many of `n` messages `.skip(skip).limit(limit)` returns. */
  function PageSize(n: nat, skip: nat, limit: int): nat {
    if skip >= n then 0 else if limit == 0 || Abs(limit) >= n - skip then n - skip else Abs(limit)
  }

  /** The newest `skip` messages of a newest-first conversation, which `.skip(skip)` passes over. */
  function Skipped(sorted: seq<Message>, skip: nat): (r: seq<Message>)
    ensures |r| == if skip < |sorted| then skip else |sorted|
  {
    sorted[..if skip < |sorted| then skip else |sorted|]
  }

  /**
   * A window of a newest-first sequence holds `PageSize` elements, every
   * skipped element is at least as new as each of them, and an element neither
   * skipped nor returned means the window is full and that element is no newer
   * than its last entry.
   */
  lemma WindowComplete(sorted: seq<Message>, skip: nat, limit: int)
    requires SortedBy(sorted, Newer)
    ensures var r := Window(sorted, skip, limit);
      && |r| == PageSize(|sorted|, skip, limit)
      && (forall m, s :: m in r && s in Skipped(sorted, skip) ==> m.timestamp <= s.timestamp)
      && (forall m :: m in sorted && m !in Skipped(sorted, skip) && m !in r ==>
            limit != 0 && |r| == Abs(limit) && m.timestamp <= r[|r| - 1].timestamp)
  {
    SkippedAreNewer(sorted, skip, limit);
    WindowLeavesOlder(sorted, skip, limit);
  }

  lemma SkippedAreNewer(sorted: seq<Message>, skip: nat, limit: int)
    requires SortedBy(sorted, Newer)
    ensures forall m, s :: m in Window(sorted, skip, limit) && s in Skipped(sorted, skip) ==> m.timestamp <= s.timestamp
  {
    var r := Window(sorted, skip, limit);
    var skipped := Skipped(sorted, skip);
    forall m, s | m in r && s in skipped
      ensures m.timestamp <= s.timestamp
    {
      var i :| 0 <= i < |r| && r[i] == m;
      var j :| 0 <= j < |skipped| && skipped[j] == s;
      assert r[i] == sorted[skip + i] && skipped[j] == sorted[j];
      assert Newer(sorted[j]) <= Newer(sorted[skip + i]);
    }
  }

  lemma WindowLeavesOlder(sorted: seq<Message>, skip: nat, limit: int)
    requires SortedBy(sorted, Newer)
    ensures var r := Window(sorted, skip, limit);
      forall m :: m in sorted && m !in Skipped(sorted, skip) && m !in r ==>
        limit != 0 && |r| == Abs(limit) && m.timestamp <= r[|r| - 1].timestamp
  {
    var r := Window(sorted, skip, limit);
    var skipped := Skipped(sorted, skip);
    forall m | m in sorted && m !in skipped && m !in r
      ensures limit != 0 && |r| == Abs(limit) && m.timestamp <= r[|r| - 1].timestamp
    {
      var k :| 0 <= k < |sorted| && sorted[k] == m;
      LeftOutIndex(sorted, skip, limit, k);
    }
  }

  /** Where an element neither skipped nor returned sits: after a full window. */
  lemma LeftOutIndex(sorted: seq<Message>, skip: nat, limit: int, k: nat)
    requires SortedBy(sorted, Newer) && k < |sorted|
    requires sorted[k] !in Skipped(sorted, skip) && sorted[k] !in Window(sorted, skip, limit)
    ensures var r := Window(sorted, skip, limit);
      limit != 0 && |r| == Abs(limit) && sorted[k].timestamp <= r[|r| - 1].timestamp
  {
    var r := Window(sorted, skip, limit);
    assert forall i :: 0 <= i < |Skipped(sorted, skip)| ==> Skipped(sorted, skip)[i] == sorted[i];
    assert skip <= k < |sorted|;
    assert forall i :: skip <= i < skip + |r| ==> r[i - skip] == sorted[i];
    assert skip + |r| <= k;
    assert r[|r| - 1] == sorted[skip + |r| - 1];
    assert Newer(sorted[skip + |r| - 1]) <= Newer(sorted[k]);
  }

  /**
   * The page is the one `(page - 1) * limit` messages into the newest-first
   * conversation, with `WindowComplete`'s guarantees.
   */
  lemma HistoryPageComplete(ms: seq<Message>, a: UserId, b: UserId, page: int, limit: int)
    ensures var r := HistoryQuery(ms, a, b, page, limit);
      r.Ok? ==>
        var conversation := ConversationOf(ms, a, b);
        var skipped := Skipped(SortBy(conversation, Newer), (page - 1) * limit);
        && |r.value| == PageSize(|conversation|, (page - 1) * limit, limit)
        && (forall m, s :: m in r.value && s in skipped ==> m.timestamp <= s.timestamp)
        && (forall m :: m in conversation && m !in skipped && m !in r.value ==>
              limit != 0 && |r.value| == Abs(limit) && m.timestamp <= r.value[|r.value| - 1].timestamp)
  {
    var r := HistoryQuery(ms, a, b, page, limit);
    if r.Ok? {
      var conversation := ConversationOf(ms, a, b);
      var sorted := SortBy(conversation, Newer);
      SortByMembers(conversation, Newer);
      WindowComplete(sorted, (page - 1) * limit, limit);
    }
  }

  /** A history entry as `getMessages` formats it, with its sender populated. */
  datatype FormattedMessage = FormattedMessage(
    id: string, senderId: UserId, senderUsername: string, senderPublicKey: string,
    content: string, timestamp: int, isDelivered: bool, isRead: bool,
    messageHash: string, signature: string)

  function Format(m: Message, sender: User): FormattedMessage {
    FormattedMessage(m.id, sender.id, sender.username, sender.publicKey, m.content, m.timestamp,
      m.isDelivered, m.isRead, m.messageHash, m.signature)
  }

  /**
   * Population and formatting: a message whose sender has no user document
   * populates to `null`, and reading its `_id` throws.
   */
  function FormatAll(ms: seq<Message>, users: map<UserId, User>): (r: Option<seq<FormattedMessage>>)
    ensures r.Some? <==> forall i :: 0 <= i < |ms| ==> ms[i].sender in users
    ensures r.Some? ==> |r.value| == |ms|
    ensures r.Some? ==> forall i :: 0 <= i < |ms| ==> r.value[i] == Format(ms[i], users[ms[i].sender])
  {
    if forall i :: 0 <= i < |ms| ==> ms[i].sender in users then
      Some(seq(|ms|, i requires 0 <= i < |ms| && ms[i].sender in users => Format(ms[i], users[ms[i].sender])))
    else None
  }

  /** The `updateMany` of `getMessages`: unread messages to `reader` from any of `senders` become read. */
  function MarkRead(ms: seq<Message>, reader: UserId, senders: seq<UserId>): (r: seq<Message>)
    ensures |r| == |ms|
    ensures forall i :: 0 <= i < |ms| ==> r[i].(isRead := ms[i].isRead) == ms[i]
    ensures forall i :: 0 <= i < |ms| ==> (r[i].isRead <==> ms[i].isRead || (ms[i].receiver == reader && ms[i].sender in senders))
  {
    seq(|ms|, i requires 0 <= i < |ms| =>
      if ms[i].receiver == reader && ms[i].sender in senders && !ms[i].isRead then ms[i].(isRead := true) else ms[i])
  }

  /** `participantIds.filter((id) => !id.equals(userIdObj))` */
  function Others(ids: seq<UserId>, userId: UserId): seq<UserId> {
    Filter(ids, (id: UserId) => id != userId)
  }

  datatype Pagination = Pagination(page: int, limit: int, hasMore: bool)

  datatype HistoryResponse =
    | History(messages: seq<FormattedMessage>, pagination: Pagination)
    | Failure(status: int)

  /** The query succeeds: a well-formed id naming the caller, and a skip that is not negative. */
  predicate HistoryReached(userId: UserId, conversationId: string, page: int, limit: int) {
    && ConversationIdFormat(conversationId)
    && (userId == conversationId[..24] || userId == conversationId[25..])
    && (page - 1) * limit >= 0
  }

  /** What `getMessages` answers. */
  function GetMessagesResponse(users: map<UserId, User>, ms: seq<Message>, userId: UserId,
                               conversationId: string, page: Option<int>, limit: Option<int>): HistoryResponse
  {
    var p := page.GetOr(DEFAULT_PAGE);
    var l := limit.GetOr(DEFAULT_LIMIT);
    var v := ValidatedParticipants(conversationId);
    if v.Err? then Failure(v.error)
    else if userId !in v.value then Failure(403)
    else
      match HistoryQuery(ms, v.value[0], v.value[1], p, l)
      case Err(e) => Failure(e)
      case Ok(found) =>
        match FormatAll(Reverse(found), users)
        case None => Failure(500)
        case Some(formatted) => History(formatted, Pagination(p, l, |found| == l))
  }

  /**
   * The `messages` collection `getMessages` leaves behind. Read marking comes
   * after the query and before formatting, so it also happens when a missing
   * sender then answers 500.
   */
  function GetMessagesStore(ms: seq<Message>, userId: UserId, conversationId: string,
                            page: Option<int>, limit: Option<int>): seq<Message>
  {
    if HistoryReached(userId, conversationId, page.GetOr(DEFAULT_PAGE), limit.GetOr(DEFAULT_LIMIT)) then
      MarkRead(ms, userId, Others([conversationId[..24], conversationId[25..]], userId))
    else ms
  }

  /** `getMessages(req, res)` */
  method GetMessages(db: Db, userId: UserId, conversationId: string, page: Option<int>, limit: Option<int>)
    returns (res: HistoryResponse)
    modifies db`messages
    ensures res == GetMessagesResponse(db.users, old(db.messages), userId, conversationId, page, limit)
    ensures db.messages == GetMessagesStore(old(db.messages), userId, conversationId, page, limit)
  {
    var p := page.GetOr(DEFAULT_PAGE);
    var l := limit.GetOr(DEFAULT_LIMIT);
    var validated := CheckConversationId(conversationId);
    assert validated == ValidatedParticipants(conversationId);
    if validated.Err? {
      return Failure(validated.error);
    }
    var participantIds := validated.value;
    if userId !in participantIds {
      return Failure(403);
    }
    var query := HistoryQuery(db.messages, participantIds[0], participantIds[1], p, l);
    if query.Err? {
      return Failure(query.error);
    }
    var found := query.value;
    assert HistoryReached(userId, conversationId, p, l);
    db.messages := MarkRead(db.messages, userId, Others(participantIds, userId));
    var formatted := FormatAll(Reverse(found), db.users);
    if formatted.None? {
      return Failure(500);
    }
    return History(formatted.value, Pagination(p, l, |found| == l));
  }

  /**
   * Only a participant reads a conversation: a well-formed id that does not name
   * the caller answers 403 and changes nothing, and every other answer to a
   * well-formed id comes from one of its participants.
   */
  lemma NonParticipantRefused(users: map<UserId, User>, ms: seq<Message>, userId: UserId,
                              conversationId: string, page: Option<int>, limit: Option<int>)
    ensures var res := GetMessagesResponse(users, ms, userId, conversationId, page, limit);
      && (res == Failure(403) <==>
           ConversationIdFormat(conversationId) && userId != conversationId[..24] && userId != conversationId[25..])
      && (res == Failure(403) ==> GetMessagesStore(ms, userId, conversationId, page, limit) == ms)
      && (res == Failure(400) <==> !ConversationIdFormat(conversationId))
      && (res.History? ==> userId == conversationId[..24] || userId == conversationId[25..])
  {
    var res := GetMessagesResponse(users, ms, userId, conversationId, page, limit);
    var v := ValidatedParticipants(conversationId);
    if !ConversationIdFormat(conversationId) {
      assert res == Failure(400);
    } else {
      var ps := [conversationId[..24], conversationId[25..]];
      assert v == Ok(ps);
      if userId != ps[0] && userId != ps[1] {
        assert res == Failure(403);
      } else {
        assert userId in ps;
        assert res.History? || res == Failure(500);
      }
    }
  }

  /**
   * A page of history is oldest first, holds only messages between the two
   * participants, at most `|limit|` of them, and `hasMore` says whether it is full.
   */
  lemma HistoryIsOldestFirst(users: map<UserId, User>, ms: seq<Message>, userId: UserId,
                             conversationId: string, page: Option<int>, limit: Option<int>)
    ensures var res := GetMessagesResponse(users, ms, userId, conversationId, page, limit);
      var l := limit.GetOr(DEFAULT_LIMIT);
      res.History? ==>
        && ConversationIdFormat(conversationId)
        && (forall i, j :: 0 <= i < j < |res.messages| ==> res.messages[i].timestamp <= res.messages[j].timestamp)
        && (forall f :: f in res.messages ==>
              (exists m :: m in ms && Between(m, conversationId[..24], conversationId[25..])
                 && m.sender in users && f == Format(m, users[m.sender])))
        && (l != 0 ==> |res.messages| <= Abs(l))
        && (res.pagination.hasMore <==> |res.messages| == l)
  {
    var res := GetMessagesResponse(users, ms, userId, conversationId, page, limit);
    if res.History? {
      HistoryAnswered(users, ms, userId, conversationId, page, limit);
      PageFacts(ms, conversationId[..24], conversationId[25..], page.GetOr(DEFAULT_PAGE), limit.GetOr(DEFAULT_LIMIT), users, res.messages);
    }
  }

  /**
   * The page shown is the one `(page - 1) * limit` messages into the
   * newest-first conversation, reversed: it holds `PageSize` messages, the
   * skipped newer messages are at least as new as every entry, and a
   * conversation message neither skipped nor shown means the page is full and
   * that message is no newer than its first (oldest) entry.
   */
  lemma HistoryPageIsNewestSlice(users: map<UserId, User>, ms: seq<Message>, userId: UserId,
                                 conversationId: string, page: Option<int>, limit: Option<int>)
    ensures var res := GetMessagesResponse(users, ms, userId, conversationId, page, limit);
      var p, l := page.GetOr(DEFAULT_PAGE), limit.GetOr(DEFAULT_LIMIT);
      res.History? ==>
        && SkipOf(p, l) >= 0
        && ShowsNewestSlice(res.messages, ConversationOf(ms, conversationId[..24], conversationId[25..]), SkipOf(p, l), l, users)
  {
    var res := GetMessagesResponse(users, ms, userId, conversationId, page, limit);
    var p, l := page.GetOr(DEFAULT_PAGE), limit.GetOr(DEFAULT_LIMIT);
    if res.History? {
      HistoryAnswered(users, ms, userId, conversationId, page, limit);
      ShownSlice(ms, conversationId[..24], conversationId[25..], p, l, users, res.messages);
    }
  }

  /**
   * `fs` shows, oldest first, the page `skip` messages into the newest-first
   * `conversation`: `PageSize` entries, every skipped message at least as new as
   * each of them, and a message neither skipped nor shown only when the page is
   * full and that message is no newer than the oldest entry.
   */
  predicate ShowsNewestSlice(fs: seq<FormattedMessage>, conversation: seq<Message>, skip: nat, limit: int,
                             users: map<UserId, User>)
  {
    var skipped := Skipped(SortBy(conversation, Newer), skip);
    && |fs| == PageSize(|conversation|, skip, limit)
    && SkippedNoOlder(fs, skipped)
    && LeftOutMeansFull(fs, conversation, skipped, limit, users)
  }

  /** Every skipped message is at least as new as each shown entry. */
  predicate SkippedNoOlder(fs: seq<FormattedMessage>, skipped: seq<Message>) {
    forall f, s :: f in fs && s in skipped ==> f.timestamp <= s.timestamp
  }

  /** A conversation message neither skipped nor shown means a full page, whose oldest entry is no older than it. */
  predicate LeftOutMeansFull(fs: seq<FormattedMessage>, conversation: seq<Message>, skipped: seq<Message>, limit: int,
                             users: map<UserId, User>)
  {
    forall m :: m in conversation && m !in skipped && (m.sender in users ==> Format(m, users[m.sender]) !in fs) ==>
      limit != 0 && |fs| == Abs(limit) && m.timestamp <= fs[0].timestamp
  }

  /** The facts of `HistoryIsOldestFirst` about a successful query and its formatted, reversed page. */
  lemma PageFacts(ms: seq<Message>, a: UserId, b: UserId, p: int, l: int, users: map<UserId, User>,
                  fs: seq<FormattedMessage>)
    requires HistoryQuery(ms, a, b, p, l).Ok? && FormatAll(Reverse(HistoryQuery(ms, a, b, p, l).value), users) == Some(fs)
    ensures forall i, j :: 0 <= i < j < |fs| ==> fs[i].timestamp <= fs[j].timestamp
    ensures forall f :: f in fs ==> exists m :: m in ms && Between(m, a, b) && m.sender in users && f == Format(m, users[m.sender])
    ensures l != 0 ==> |fs| <= Abs(l)
    ensures |fs| == |HistoryQuery(ms, a, b, p, l).value|
  {
    var found := HistoryQuery(ms, a, b, p, l).value;
    FormattedPage(found, users);
    forall i, j | 0 <= i < j < |fs|
      ensures fs[i].timestamp <= fs[j].timestamp
    {
      assert Newer(found[|found| - 1 - j]) <= Newer(found[|found| - 1 - i]);
    }
    forall f | f in fs
      ensures exists m :: m in ms && Between(m, a, b) && m.sender in users && f == Format(m, users[m.sender])
    {
      var m :| m in found && m.sender in users && f == Format(m, users[m.sender]);
      assert m in ms && Between(m, a, b);
    }
  }

  /** The formatted, reversed page of a successful query shows the slice `HistoryPageComplete` describes. */
  lemma ShownSlice(ms: seq<Message>, a: UserId, b: UserId, p: int, l: int, users: map<UserId, User>,
                   fs: seq<FormattedMessage>)
    requires HistoryQuery(ms, a, b, p, l).Ok? && FormatAll(Reverse(HistoryQuery(ms, a, b, p, l).value), users) == Some(fs)
    ensures SkipOf(p, l) >= 0
    ensures ShowsNewestSlice(fs, ConversationOf(ms, a, b), SkipOf(p, l), l, users)
  {
    var found := HistoryQuery(ms, a, b, p, l).value;
    FormattedPage(found, users);
    HistoryPageComplete(ms, a, b, p, l);
    var conversation := ConversationOf(ms, a, b);
    var skipped := Skipped(SortBy(conversation, Newer), SkipOf(p, l));
    forall m | m in conversation && m !in skipped && (m.sender in users ==> Format(m, users[m.sender]) !in fs)
      ensures l != 0 && |fs| == Abs(l) && m.timestamp <= fs[0].timestamp
    {
      assert m !in found;
    }
  }

  /** `(page - 1) * limit`, the number of messages `.skip` passes over. */
  function SkipOf(page: int, limit: int): int {
    (page - 1) * limit
  }

  /** A history answer comes from a successful query on the id's two halves, formatted oldest first. */
  lemma HistoryAnswered(users: map<UserId, User>, ms: seq<Message>, userId: UserId,
                        conversationId: string, page: Option<int>, limit: Option<int>)
    ensures var res := GetMessagesResponse(users, ms, userId, conversationId, page, limit);
      var p, l := page.GetOr(DEFAULT_PAGE), limit.GetOr(DEFAULT_LIMIT);
      res.History? ==>
        && ConversationIdFormat(conversationId)
        && var r := HistoryQuery(ms, conversationId[..24], conversationId[25..], p, l);
           && r.Ok?
           && FormatAll(Reverse(r.value), users) == Some(res.messages)
           && (res.pagination.hasMore <==> |r.value| == l)
  {
    var res := GetMessagesResponse(users, ms, userId, conversationId, page, limit);
    if res.History? {
      var v := ValidatedParticipants(conversationId);
      assert v == Ok([conversationId[..24], conversationId[25..]]);
    }
  }

  /** Formatting the reversed page keeps one entry per message, oldest first. */
  lemma FormattedPage(found: seq<Message>, users: map<UserId, User>)
    requires FormatAll(Reverse(found), users).Some?
    ensures var fs := FormatAll(Reverse(found), users).value;
      && |fs| == |found|
      && (forall m :: m in found ==> m.sender in users && Format(m, users[m.sender]) in fs)
      && (forall f :: f in fs ==> exists m :: m in found && m.sender in users && f == Format(m, users[m.sender]))
      && (forall i :: 0 <= i < |fs| ==> fs[i].timestamp == found[|found| - 1 - i].timestamp)
  {
    var back := Reverse(found);
    var fs := FormatAll(back, users).value;
    forall m | m in found
      ensures m.sender in users && Format(m, users[m.sender]) in fs
    {
      var k :| 0 <= k < |found| && found[k] == m;
      assert back[|found| - 1 - k] == m;
      assert fs[|found| - 1 - k] == Format(m, users[m.sender]);
    }
    forall f | f in fs
      ensures exists m :: m in found && m.sender in users && f == Format(m, users[m.sender])
    {
      var i :| 0 <= i < |fs| && fs[i] == f;
      assert back[i] in found;
    }
  }

  /**
   * Read marking covers the whole conversation, not just the page: after the
   * query succeeds for `a_b`, exactly the unread messages to the caller from the
   * other participant become read, and nothing else changes.
   */
  lemma ReadMarkingScope(ms: seq<Message>, userId: UserId, conversationId: string, page: Option<int>, limit: Option<int>)
    ensures var after := GetMessagesStore(ms, userId, conversationId, page, limit);
      && |after| == |ms|
      && (!HistoryReached(userId, conversationId, page.GetOr(DEFAULT_PAGE), limit.GetOr(DEFAULT_LIMIT)) ==> after == ms)
      && (HistoryReached(userId, conversationId, page.GetOr(DEFAULT_PAGE), limit.GetOr(DEFAULT_LIMIT)) ==>
           var other := if userId == conversationId[..24] then conversationId[25..] else conversationId[..24];
           forall i :: 0 <= i < |ms| ==>
             && after[i].(isRead := ms[i].isRead) == ms[i]
             && (after[i].isRead <==> ms[i].isRead || (ms[i].receiver == userId && ms[i].sender == other && other != userId)))
  {
    if HistoryReached(userId, conversationId, page.GetOr(DEFAULT_PAGE), limit.GetOr(DEFAULT_LIMIT)) {
      var a := conversationId[..24];
      var b := conversationId[25..];
      var others := Others([a, b], userId);
      var other := if userId == a then b else a;
      assert forall x :: x in others <==> x == other && other != userId;
    }
  }

  /** The clamped limit is never applied: a limit above 100 returns that many messages when there are enough. */
  lemma RawLimitUsed(ms: seq<Message>, a: UserId, b: UserId, limit: int)
    requires limit > MAX_LIMIT && |ConversationOf(ms, a, b)| >= limit
    ensures HistoryQuery(ms, a, b, DEFAULT_PAGE, limit).Ok?
    ensures |HistoryQuery(ms, a, b, DEFAULT_PAGE, limit).value| == limit > LimitNum(limit)
  {
  }

  // ---------------------------------------------------------------- conversations

  datatype LastMessage = LastMessage(content: string, timestamp: int, isRead: bool)

  datatype ConversationSummary = ConversationSummary(
    participantId: UserId, participantUsername: string, participantPublicKey: string,
    lastMessage: LastMessage, unreadCount: nat)

  /** `$match`: the caller's messages, sent or received. */
  function Involving(ms: seq<Message>, u: UserId): seq<Message> {
    Filter(ms, (m: Message) => Involves(m, u))
  }

  /** The `$group` key of each message. */
  function CounterpartsOf(ms: seq<Message>, u: UserId): (cs: seq<UserId>)
    ensures |cs| == |ms| && forall i :: 0 <= i < |ms| ==> cs[i] == Counterpart(ms[i], u)
  {
    seq(|ms|, i requires 0 <= i < |ms| => Counterpart(ms[i], u))
  }

  /** Counted by `unreadCount`: received by `u` and not read. */
  predicate UnreadBy(m: Message, u: UserId) {
    m.receiver == u && !m.isRead
  }

  /** `$group` membership: `m` belongs to the caller's conversation with `c`. */
  function InGroup(u: UserId, c: UserId): Message -> bool {
    (m: Message) => Counterpart(m, u) == c
  }

  /** What the group of `c` adds to `unreadCount`. */
  function UnreadIn(u: UserId, c: UserId): Message -> bool {
    (m: Message) => Counterpart(m, u) == c && UnreadBy(m, u)
  }

  /** `$match` and `$sort`: the caller's messages, sent or received, newest first. */
  function CallerMessages(ms: seq<Message>, u: UserId): (r: seq<Message>)
    ensures SortedBy(r, Newer)
    ensures multiset(r) == multiset(Involving(ms, u))
    ensures forall m :: m in r <==> m in ms && Involves(m, u)
  {
    SortByMembers(Involving(ms, u), Newer);
    SortBy(Involving(ms, u), Newer)
  }

  /** One group after `$lookup` and `$project`; `sorted` is newest first, so `$first` is the newest. */
  function Summary(sorted: seq<Message>, u: UserId, c: UserId, participant: User): (s: ConversationSummary)
    requires c in CounterpartsOf(sorted, u)
    ensures s.participantId == c
  {
    var i := FirstIndex(sorted, InGroup(u, c));
    ConversationSummary(c, participant.username, participant.publicKey,
      LastMessage(sorted[i].content, sorted[i].timestamp, sorted[i].isRead),
      CountWhere(sorted, UnreadIn(u, c)))
  }

  function LastNewer(s: ConversationSummary): int {
    -s.lastMessage.timestamp
  }

  /** The group keys, first occurrence first, that have a user document. */
  function KnownCounterparts(users: map<UserId, User>, sorted: seq<Message>, u: UserId): (found: seq<UserId>)
    ensures forall c :: c in found <==> c in users && c in CounterpartsOf(sorted, u)
    ensures forall i, j :: 0 <= i < j < |found| ==> found[i] != found[j]
  {
    var keys := Distinct(CounterpartsOf(sorted, u));
    var known := (c: UserId) => c in users;
    FilterDistinct(keys, known);
    Filter(keys, known)
  }

  /** The groups in order of their newest message; `$unwind` drops those whose counterpart has no user document. */
  function Buckets(users: map<UserId, User>, ms: seq<Message>, u: UserId): (bs: seq<ConversationSummary>)
  {
    var sorted := CallerMessages(ms, u);
    var found := KnownCounterparts(users, sorted, u);
    seq(|found|, i requires 0 <= i < |found| => Summary(sorted, u, found[i], users[found[i]]))
  }

  /** `getConversations(req, res)`: the pipeline's result, newest conversation first. */
  function GetConversations(users: map<UserId, User>, ms: seq<Message>, u: UserId): seq<ConversationSummary> {
    SortBy(Buckets(users, ms, u), LastNewer)
  }

  function Participants(cs: seq<ConversationSummary>): (ps: seq<UserId>)
    ensures |ps| == |cs| && forall i :: 0 <= i < |cs| ==> ps[i] == cs[i].participantId
  {
    seq(|cs|, i requires 0 <= i < |cs| => cs[i].participantId)
  }

  /** The caller has a conversation with `c`. */
  predicate Talked(ms: seq<Message>, u: UserId, c: UserId) {
    exists m :: m in ms && Involves(m, u) && Counterpart(m, u) == c
  }

  /**
   * A group's summary against the stored messages: its participant's profile,
   * the fields of the newest message exchanged with them, and how many of the
   * caller's messages are theirs and unread by the caller.
   */
  ghost predicate BucketFacts(b: ConversationSummary, users: map<UserId, User>, ms: seq<Message>, u: UserId) {
    && b.participantId in users
    && b.participantUsername == users[b.participantId].username
    && b.participantPublicKey == users[b.participantId].publicKey
    && (exists m :: m in ms && Involves(m, u) && Counterpart(m, u) == b.participantId
          && b.lastMessage == LastMessage(m.content, m.timestamp, m.isRead))
    && (forall m :: m in ms && Involves(m, u) && Counterpart(m, u) == b.participantId ==> m.timestamp <= b.lastMessage.timestamp)
    && b.unreadCount == CountWhere(Involving(ms, u), UnreadIn(u, b.participantId))
  }

  lemma TalkedIsGroupKey(ms: seq<Message>, u: UserId, c: UserId)
    ensures Talked(ms, u, c) <==> c in CounterpartsOf(CallerMessages(ms, u), u)
  {
    var sorted := CallerMessages(ms, u);
    if Talked(ms, u, c) {
      var m :| m in ms && Involves(m, u) && Counterpart(m, u) == c;
      var k :| 0 <= k < |sorted| && sorted[k] == m;
      assert CounterpartsOf(sorted, u)[k] == c;
    }
    if c in CounterpartsOf(sorted, u) {
      var k :| 0 <= k < |sorted| && CounterpartsOf(sorted, u)[k] == c;
      assert sorted[k] in sorted;
    }
  }

  /** `$first` in a newest-first sequence is the newest of the group. */
  lemma NewestInGroup(sorted: seq<Message>, u: UserId, c: UserId, j: nat)
    requires SortedBy(sorted, Newer) && j < |sorted| && Counterpart(sorted[j], u) == c
    ensures var i := FirstIndex(sorted, InGroup(u, c));
      i <= j && Counterpart(sorted[i], u) == c && sorted[j].timestamp <= sorted[i].timestamp
  {
    var i := FirstIndex(sorted, InGroup(u, c));
    assert InGroup(u, c)(sorted[j]);
    assert i <= j;
    assert InGroup(u, c)(sorted[i]);
    if i < j {
      assert Newer(sorted[i]) <= Newer(sorted[j]);
    }
  }

  lemma SummaryFacts(ms: seq<Message>, u: UserId, c: UserId, users: map<UserId, User>)
    requires c in users && c in CounterpartsOf(CallerMessages(ms, u), u)
    ensures BucketFacts(Summary(CallerMessages(ms, u), u, c, users[c]), users, ms, u)
  {
    var sorted := CallerMessages(ms, u);
    var k :| 0 <= k < |sorted| && CounterpartsOf(sorted, u)[k] == c;
    NewestInGroup(sorted, u, c, k);
    var i := FirstIndex(sorted, InGroup(u, c));
    assert sorted[i] in sorted;
    forall m | m in ms && Involves(m, u) && Counterpart(m, u) == c
      ensures m.timestamp <= sorted[i].timestamp
    {
      var j :| 0 <= j < |sorted| && sorted[j] == m;
      NewestInGroup(sorted, u, c, j);
    }
    CountWherePermutation(sorted, Involving(ms, u), UnreadIn(u, c));
  }

  /** What the groups hold, stated against the stored messages. */
  lemma BucketContents(users: map<UserId, User>, ms: seq<Message>, u: UserId)
    ensures var bs := Buckets(users, ms, u);
      && (forall c :: c in Participants(bs) <==> c in users && Talked(ms, u, c))
      && (forall i, j :: 0 <= i < j < |bs| ==> bs[i].participantId != bs[j].participantId)
      && (forall i :: 0 <= i < |bs| ==> BucketFacts(bs[i], users, ms, u))
  {
    var sorted := CallerMessages(ms, u);
    var found := KnownCounterparts(users, sorted, u);
    var bs := Buckets(users, ms, u);
    assert Participants(bs) == found;
    forall c ensures c in found <==> c in users && Talked(ms, u, c) {
      TalkedIsGroupKey(ms, u, c);
    }
    forall i | 0 <= i < |bs| ensures BucketFacts(bs[i], users, ms, u) {
      assert found[i] in found;
      SummaryFacts(ms, u, found[i], users);
    }
  }

  /**
   * `getConversations` lists each counterpart that has a user document exactly
   * once, newest conversation first, with the newest message and the caller's
   * unread count of each.
   */
  lemma ConversationsListed(users: map<UserId, User>, ms: seq<Message>, u: UserId)
    ensures var cs := GetConversations(users, ms, u);
      && SortedBy(cs, LastNewer)
      && (forall c :: c in Participants(cs) <==> c in users && Talked(ms, u, c))
      && (forall i, j :: 0 <= i < j < |cs| ==> cs[i].participantId != cs[j].participantId)
      && (forall i :: 0 <= i < |cs| ==> BucketFacts(cs[i], users, ms, u))
  {
    var bs := Buckets(users, ms, u);
    var cs := GetConversations(users, ms, u);
    BucketContents(users, ms, u);
    ReorderedBuckets(bs, cs);
    ReorderedFacts(bs, cs, users, ms, u);
  }

  lemma ReorderedFacts(bs: seq<ConversationSummary>, cs: seq<ConversationSummary>,
                       users: map<UserId, User>, ms: seq<Message>, u: UserId)
    requires multiset(bs) == multiset(cs)
    requires forall i :: 0 <= i < |bs| ==> BucketFacts(bs[i], users, ms, u)
    ensures forall i :: 0 <= i < |cs| ==> BucketFacts(cs[i], users, ms, u)
  {
    forall i | 0 <= i < |cs| ensures BucketFacts(cs[i], users, ms, u) {
      assert cs[i] in multiset(bs);
      var p :| 0 <= p < |bs| && bs[p] == cs[i];
    }
  }

  /** Reordering groups keeps their participants, and keeps them distinct. */
  lemma ReorderedBuckets(bs: seq<ConversationSummary>, cs: seq<ConversationSummary>)
    requires multiset(bs) == multiset(cs)
    requires forall p, q :: 0 <= p < q < |bs| ==> bs[p].participantId != bs[q].participantId
    ensures forall c :: c in Participants(cs) <==> c in Participants(bs)
    ensures forall i, j :: 0 <= i < j < |cs| ==> cs[i].participantId != cs[j].participantId
  {
    forall i, j | 0 <= i < j < |cs| ensures cs[i].participantId != cs[j].participantId {
      assert cs[i] in multiset(bs) && cs[j] in multiset(bs);
      var p :| 0 <= p < |bs| && bs[p] == cs[i];
      var q :| 0 <= q < |bs| && bs[q] == cs[j];
      if p == q {
        PermutationDistinct(bs, cs);
      } else if p < q {
        assert bs[p].participantId != bs[q].participantId;
      } else {
        assert bs[q].participantId != bs[p].participantId;
      }
    }
    forall c ensures c in Participants(cs) <==> c in Participants(bs) {
      if c in Participants(cs) {
        var i :| 0 <= i < |cs| && Participants(cs)[i] == c;
        assert cs[i] in multiset(bs);
        var p :| 0 <= p < |bs| && bs[p] == cs[i];
        assert Participants(bs)[p] == c;
      }
      if c in Participants(bs) {
        var i :| 0 <= i < |bs| && Participants(bs)[i] == c;
        assert bs[i] in multiset(cs);
        var p :| 0 <= p < |cs| && cs[p] == bs[i];
        assert Participants(cs)[p] == c;
      }
    }
  }

  // ---------------------------------------------------------------- search

  const MIN_QUERY_LENGTH: nat := 2
  const USER_SEARCH_LIMIT: nat := 10
  const MESSAGE_SEARCH_LIMIT: nat := 20

  /** `!query || query.length < 2`, the length counted in UTF-16 units. */
  predicate QueryRefused(query: Option<string>) {
    query.None? || Utf16Length(query.value) < MIN_QUERY_LENGTH
  }

  /** A user as `searchUsers` selects it: no password and no private key. */
  datatype UserProfile = UserProfile(id: UserId, username: string, email: string, publicKey: string,
                                     isOnline: bool, lastSeen: int)

  function Profile(u: User): UserProfile {
    UserProfile(u.id, u.username, u.email, u.publicKey, u.isOnline, u.lastSeen)
  }

  /** The users `searchUsers` selects: others whose username or email the pattern matches. */
  function UserHit(caller: UserId, query: string, matches: (string, string) -> bool): User -> bool {
    (u: User) => u.id != caller && (matches(u.username, query) || matches(u.email, query))
  }

  function Profiles(us: seq<User>): (ps: seq<UserProfile>)
    ensures |ps| == |us|
    ensures forall i :: 0 <= i < |us| ==> ps[i] == Profile(us[i])
  {
    seq(|us|, i requires 0 <= i < |us| => Profile(us[i]))
  }

  /**
   * `searchUsers`: the first ten other users, in collection order, whose username
   * or email the pattern matches. `matches(text, pattern)` is the case-insensitive
   * regular-expression test the database performs, and `validPattern(pattern)`
   * says whether the database can compile the query as a pattern at all; one it
   * cannot makes `find` throw, which the handler answers with 500.
   */
  function SearchUsers(collection: seq<User>, caller: UserId, query: Option<string>,
                       matches: (string, string) -> bool, validPattern: string -> bool): (r: Result<seq<UserProfile>, int>)
    ensures QueryRefused(query) ==> r == Err(400)
    ensures !QueryRefused(query) ==> (r.Err? <==> !validPattern(query.value)) && (r.Err? ==> r.error == 500)
    ensures r.Ok? ==> |r.value| <= USER_SEARCH_LIMIT
    ensures r.Ok? ==> forall p :: p in r.value ==>
      (exists u :: u in collection && u.id != caller && p == Profile(u)
         && (matches(u.username, query.value) || matches(u.email, query.value)))
    ensures r.Ok? ==> forall u :: u in collection && UserHit(caller, query.value, matches)(u) && Profile(u) !in r.value ==>
      |r.value| == USER_SEARCH_LIMIT
    ensures r.Ok? ==> r.value <= Profiles(Filter(collection, UserHit(caller, query.value, matches)))
  {
    if QueryRefused(query) then Err(400)
    else if !validPattern(query.value) then Err(500)
    else
      var hits := Filter(collection, UserHit(caller, query.value, matches));
      var first := if |hits| <= USER_SEARCH_LIMIT then hits else hits[..USER_SEARCH_LIMIT];
      var profiles := Profiles(first);
      assert profiles == Profiles(hits)[..|profiles|];
      forall p | p in profiles
        ensures (exists u :: u in collection && u.id != caller && p == Profile(u)
                   && (matches(u.username, query.value) || matches(u.email, query.value)))
      {
        var i :| 0 <= i < |profiles| && profiles[i] == p;
        assert first[i] in hits;
      }
      forall u | u in collection && UserHit(caller, query.value, matches)(u) && |profiles| < USER_SEARCH_LIMIT
        ensures Profile(u) in profiles
      {
        var i :| 0 <= i < |hits| && hits[i] == u;
        assert profiles[i] == Profile(u);
      }
      Ok(profiles)
  }

  /** Which messages a message search may return. */
  datatype Scope =
    | Own(user: UserId)
    | Pair(a: UserId, b: UserId)
    | OwnPair(user: UserId, a: UserId, b: UserId)

  predicate InScope(m: Message, s: Scope) {
    match s
    case Own(user) => Involves(m, user)
    case Pair(a, b) => Between(m, a, b)
    case OwnPair(user, a, b) => Involves(m, user) && Between(m, a, b)
  }

  /** The participants a `conversationId` names, or 400 when it does not split into two ObjectId strings. */
  function SearchParticipants(conversationId: string): (r: Result<(UserId, UserId), int>)
    ensures r.Err? ==> r.error == 400
    ensures r.Ok? <==> (|Split(conversationId, '_')| == 2
      && IsObjectIdString(Split(conversationId, '_')[0]) && IsObjectIdString(Split(conversationId, '_')[1]))
  {
    var parts := Split(conversationId, '_');
    if |parts| != 2 then Err(400)
    else if !IsObjectIdString(parts[0]) || !IsObjectIdString(parts[1]) then Err(400)
    else Ok((ObjectIdOf(parts[0]), ObjectIdOf(parts[1])))
  }

  /**
   * The `searchMessages` filter as written: the spread keeps the caller's `$or`
   * only until the conversation's `$or` replaces it.
   */
  function ScopeAsWritten(caller: UserId, conversationId: Option<string>): Result<Scope, int> {
    if conversationId.None? || conversationId.value == "" then Ok(Own(caller))
    else
      match SearchParticipants(conversationId.value)
      case Err(e) => Err(e)
      case Ok((a, b)) => Ok(Pair(a, b))
  }

  /** The filter as intended: the caller's messages, narrowed to the named conversation. */
  function SearchScope(caller: UserId, conversationId: Option<string>): (r: Result<Scope, int>)
    ensures r.Ok? ==> forall m :: InScope(m, r.value) ==> Involves(m, caller)
  {
    if conversationId.None? || conversationId.value == "" then Ok(Own(caller))
    else
      match SearchParticipants(conversationId.value)
      case Err(e) => Err(e)
      case Ok((a, b)) => Ok(OwnPair(caller, a, b))
  }

  /** The messages a search keeps: in scope, with content the pattern matches. */
  function SearchHit(scope: Scope, query: string, matches: (string, string) -> bool): Message -> bool {
    (m: Message) => InScope(m, scope) && matches(m.content, query)
  }

  /** A prefix holds at most the copies the whole sequence has. */
  lemma PrefixSubmultiset<T>(s: seq<T>, k: nat)
    requires k <= |s|
    ensures multiset(s[..k]) <= multiset(s)
  {
    assert s == s[..k] + s[k..];
  }

  /**
   * `sort({ timestamp: -1 }).limit(n)`: at most `n` of `hits`, newest first; one
   * left out means `n` were taken, none of them older than it.
   */
  function Newest(hits: seq<Message>, n: nat): (r: seq<Message>)
    requires 0 < n
    ensures |r| <= n && SortedBy(r, Newer)
    ensures forall m :: m in r ==> m in hits
    ensures multiset(r) <= multiset(hits)
    ensures forall m :: m in hits && m !in r ==> |r| == n && m.timestamp <= r[|r| - 1].timestamp
  {
    var sorted := SortBy(hits, Newer);
    SortByMembers(hits, Newer);
    if |sorted| <= n then sorted
    else
      PrefixSubmultiset(sorted, n);
      SortedPrefixLeavesOlder(sorted, n);
      sorted[..n]
  }

  /** What a prefix of a newest-first sequence leaves out is no newer than the prefix's last element. */
  lemma SortedPrefixLeavesOlder(sorted: seq<Message>, n: nat)
    requires SortedBy(sorted, Newer) && 0 < n < |sorted|
    ensures forall m :: m in sorted && m !in sorted[..n] ==> m.timestamp <= sorted[n - 1].timestamp
  {
    forall m | m in sorted && m !in sorted[..n] ensures m.timestamp <= sorted[n - 1].timestamp {
      var k :| 0 <= k < |sorted| && sorted[k] == m;
      assert n <= k;
      assert Newer(sorted[n - 1]) <= Newer(sorted[k]);
    }
  }

  /**
   * The search itself: at most twenty in-scope matches, newest first, none
   * repeated more often than in `ms`; a match left out means twenty were found,
   * none of them older than it.
   */
  function RunSearch(ms: seq<Message>, scope: Scope, query: string, matches: (string, string) -> bool): (r: seq<Message>)
    ensures |r| <= MESSAGE_SEARCH_LIMIT && SortedBy(r, Newer)
    ensures forall m :: m in r ==> m in ms && InScope(m, scope) && matches(m.content, query)
    ensures multiset(r) <= multiset(ms)
    ensures forall m :: m in ms && InScope(m, scope) && matches(m.content, query) && m !in r ==>
      |r| == MESSAGE_SEARCH_LIMIT && m.timestamp <= r[|r| - 1].timestamp
  {
    var hits := Filter(ms, SearchHit(scope, query, matches));
    FilterSubmultiset(ms, SearchHit(scope, query, matches));
    Newest(hits, MESSAGE_SEARCH_LIMIT)
  }

  /** A non-empty conversation id is given. */
  predicate NamesConversation(conversationId: Option<string>) {
    conversationId.Some? && conversationId.value != ""
  }

  /**
   * `searchMessages(req, res)`: a refused query and a conversation id that does
   * not name two ObjectIds are 400s, and a query the database cannot compile as a
   * pattern is a 500. Without a conversation id the caller's messages are
   * searched; with one, the conversation's `$or` replaces the caller's, so the
   * named pair's messages are searched whoever asks.
   */
  function SearchMessages(ms: seq<Message>, caller: UserId, query: Option<string>, conversationId: Option<string>,
                          matches: (string, string) -> bool, validPattern: string -> bool): (r: Result<seq<Message>, int>)
    ensures QueryRefused(query) ==> r == Err(400)
    ensures r.Ok? ==> |r.value| <= MESSAGE_SEARCH_LIMIT && SortedBy(r.value, Newer)
    ensures r.Ok? ==> forall m :: m in r.value ==> m in ms && matches(m.content, query.value)
    ensures r.Ok? && !NamesConversation(conversationId) ==> forall m :: m in r.value ==> Involves(m, caller)
    ensures r.Ok? && NamesConversation(conversationId) ==>
      && SearchParticipants(conversationId.value).Ok?
      && var (a, b) := SearchParticipants(conversationId.value).value;
         forall m :: m in r.value ==> Between(m, a, b)
    ensures r.Ok? ==> multiset(r.value) <= multiset(ms)
    ensures r.Ok? && !NamesConversation(conversationId) ==>
      forall m :: m in ms && Involves(m, caller) && matches(m.content, query.value) && m !in r.value ==>
        |r.value| == MESSAGE_SEARCH_LIMIT && m.timestamp <= r.value[|r.value| - 1].timestamp
    ensures r.Ok? && NamesConversation(conversationId) ==>
      var (a, b) := SearchParticipants(conversationId.value).value;
      forall m :: m in ms && Between(m, a, b) && matches(m.content, query.value) && m !in r.value ==>
        |r.value| == MESSAGE_SEARCH_LIMIT && m.timestamp <= r.value[|r.value| - 1].timestamp
  {
    if QueryRefused(query) then Err(400)
    else
      match ScopeAsWritten(caller, conversationId)
      case Err(e) => Err(e)
      case Ok(scope) =>
        if !validPattern(query.value) then Err(500) else Ok(RunSearch(ms, scope, query.value, matches))
  }

  /** `searchMessages` with the caller's own messages kept in the filter. */
  function SearchMessagesIntended(ms: seq<Message>, caller: UserId, query: Option<string>, conversationId: Option<string>,
                                  matches: (string, string) -> bool, validPattern: string -> bool): (r: Result<seq<Message>, int>)
    ensures QueryRefused(query) ==> r == Err(400)
    ensures r.Ok? ==> forall m :: m in r.value ==> m in ms && Involves(m, caller) && matches(m.content, query.value)
  {
    if QueryRefused(query) then Err(400)
    else
      match SearchScope(caller, conversationId)
      case Err(e) => Err(e)
      case Ok(scope) =>
        if !validPattern(query.value) then Err(500) else Ok(RunSearch(ms, scope, query.value, matches))
  }

  /**
   * The errors of `searchMessages`: 400 for a short query or a conversation id
   * that is not two ObjectIds, then 500 for a pattern the database refuses, and
   * no other.
   */
  lemma SearchMessagesGuards(ms: seq<Message>, caller: UserId, query: Option<string>, conversationId: Option<string>,
                             matches: (string, string) -> bool, validPattern: string -> bool)
    ensures var r := SearchMessages(ms, caller, query, conversationId, matches, validPattern);
      var badRequest := QueryRefused(query) ||
        (NamesConversation(conversationId) && SearchParticipants(conversationId.value).Err?);
      && (r == Err(400) <==> badRequest)
      && (r == Err(500) <==> !badRequest && !validPattern(query.value))
      && (r.Err? ==> r == Err(400) || r == Err(500))
  {
  }

  /**
   * As written, naming another pair's conversation searches it: a caller who
   * is neither sender nor receiver gets the message back.
   */
  lemma SearchReachesOthersConversations(a: UserId, b: UserId, caller: UserId, m: Message, query: string,
                                         matches: (string, string) -> bool, validPattern: string -> bool)
    requires forall i :: 0 <= i < |a| ==> IsLowerHexDigit(a[i])
    requires forall i :: 0 <= i < |b| ==> IsLowerHexDigit(b[i])
    requires |a| == 24 && |b| == 24
    requires m.sender == a && m.receiver == b && caller != a && caller != b
    requires !QueryRefused(Some(query)) && validPattern(query) && matches(m.content, query)
    ensures SearchMessages([m], caller, Some(query), Some(a + "_" + b), matches, validPattern) == Ok([m])
    ensures !Involves(m, caller)
  {
    LowerHexCanonical(a);
    LowerHexCanonical(b);
    SplitJoin(a, b, '_');
    assert a + "_" + b == a + ['_'] + b;
    assert SearchParticipants(a + "_" + b) == Ok((a, b));
    var hits := Filter([m], (x: Message) => InScope(x, Pair(a, b)) && matches(x.content, query));
    assert hits == [m];
    assert SortBy([m], Newer) == [m];
  }

  /** With the caller kept in the filter, the same request returns nothing. */
  lemma SearchStaysWithinOwnMessages(a: UserId, b: UserId, caller: UserId, m: Message, query: string,
                                     matches: (string, string) -> bool, validPattern: string -> bool)
    requires m.sender == a && m.receiver == b && caller != a && caller != b
    ensures forall cid :: SearchMessagesIntended([m], caller, Some(query), cid, matches, validPattern).Ok? ==>
      SearchMessagesIntended([m], caller, Some(query), cid, matches, validPattern).value == []
  {
    forall cid | SearchMessagesIntended([m], caller, Some(query), cid, matches, validPattern).Ok?
      ensures SearchMessagesIntended([m], caller, Some(query), cid, matches, validPattern).value == []
    {
      var r := SearchMessagesIntended([m], caller, Some(query), cid, matches, validPattern).value;
      assert forall x :: x in r ==> x == m;
    }
  }

  // ---------------------------------------------------------------- delivery

  /** `$in` casts each listed string to an ObjectId, so an id is listed when some listed string denotes it. */
  predicate Listed(id: string, messageIds: seq<string>) {
    exists j :: 0 <= j < |messageIds| && ObjectIdOf(messageIds[j]) == id
  }

  /** The `updateMany` of `markAsDelivered`: listed messages whose receiver is the caller become delivered. */
  function MarkDelivered(ms: seq<Message>, messageIds: seq<string>, userId: UserId): (r: seq<Message>)
    ensures |r| == |ms|
    ensures forall i :: 0 <= i < |ms| ==> r[i].(isDelivered := ms[i].isDelivered) == ms[i]
    ensures forall i :: 0 <= i < |ms| ==>
      (r[i].isDelivered <==> ms[i].isDelivered || (Listed(ms[i].id, messageIds) && ms[i].receiver == userId))
  {
    seq(|ms|, i requires 0 <= i < |ms| =>
      if Listed(ms[i].id, messageIds) && ms[i].receiver == userId then ms[i].(isDelivered := true) else ms[i])
  }

  /** An id listed in upper case still marks the message stored under its lower-case form. */
  lemma UpperCaseIdMarks(m: Message)
    requires m.id == seq(24, _ => 'a')
    ensures MarkDelivered([m], [seq(24, _ => 'A')], m.receiver)[0].isDelivered
  {
    var listed := seq(24, _ => 'A');
    assert ObjectIdOf([listed][0]) == m.id;
  }

  /** Marking twice is marking once. */
  lemma MarkDeliveredIdempotent(ms: seq<Message>, messageIds: seq<string>, userId: UserId)
    ensures MarkDelivered(MarkDelivered(ms, messageIds, userId), messageIds, userId) == MarkDelivered(ms, messageIds, userId)
  {
    var once := MarkDelivered(ms, messageIds, userId);
    var twice := MarkDelivered(once, messageIds, userId);
    forall i | 0 <= i < |ms| ensures twice[i] == once[i] {
      assert once[i].(isDelivered := ms[i].isDelivered) == ms[i];
    }
  }

  datatype Ack = Marked | MarkFailed(status: int)

  /**
   * `markAsDelivered(req, res)`: an id that cannot be cast to an ObjectId fails
   * the whole update with 500.
   */
  method MarkAsDelivered(db: Db, messageIds: seq<string>, userId: UserId) returns (res: Ack)
    modifies db`messages
    ensures (forall i :: 0 <= i < |messageIds| ==> IsObjectIdString(messageIds[i])) ==>
      res == Marked && db.messages == MarkDelivered(old(db.messages), messageIds, userId)
    ensures !(forall i :: 0 <= i < |messageIds| ==> IsObjectIdString(messageIds[i])) ==>
      res == MarkFailed(500) && db.messages == old(db.messages)
  {
    if exists i :: 0 <= i < |messageIds| && !IsObjectIdString(messageIds[i]) {
      return MarkFailed(500);
    }
    db.messages := MarkDelivered(db.messages, messageIds, userId);
    return Marked;
  }
}
