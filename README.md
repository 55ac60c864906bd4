# chat-umn, modelled in Dafny

chat-umn is a one-to-one chat application: an Express/Socket.IO server with a
MongoDB store, and a React client with a Zustand store. This project models the
parts of it that decide what happens to a message and to a request:

- the server's socket layer: the session registry, the fixed-window rate limiter,
  and the `sendMessage` pipeline (validate, rate-limit, look up, persist, acknowledge,
  push), plus the presence and typing relays;
- the client's socket service: pending messages keyed by a temporary id, the
  attempt timeout and the bounded retry chain, replay on reconnect, the reconnection
  back-off, the conversation id, and the integrity gate on incoming messages;
- the client's chat store: the per-conversation log with upsert and timestamp
  order, the online list, typing entries, unread counters and the 5-minute cache;
- the client's integrity check and message-shape check;
- the server's request hygiene: key-injection detection, string scrubbing,
  recursive sanitising of bodies, parameters and queries, the critical-route
  payload check and the security headers;
- the message controller: conversation-id validation, participant checks,
  pagination, read marking, conversation grouping, the two search routes and
  delivery marking;
- registration and login validation, and the user schema with its lower-casing
  and password rehash rule;
- the typing hook, a flag plus a single stop timer.

Everything outside the process is a parameter. Socket emits are appended to an
`outbox`. The database is a `Db` object holding a map of users and a sequence of
messages. Hashing, encryption, signing and bcrypt are function-valued parameters.
`JSON.stringify`, the e-mail validator and the database's regular-expression
match are parameters too. Clocks are integer arguments. The
browser's timers are explicit maps from handle to task, with handles taken from a
counter; a timer "fires" when a method is called with its handle. A JavaScript
`Map` whose iteration order is observable is an association list
(`OrderedMap.Assoc`).

One module per source file:

| module | source |
|---|---|
| `SocketManager` | `server/services/socketManager.js` |
| `SocketService` | `client/src/services/socketService.js` |
| `ChatStore` | `client/src/store/chatStore.js` |
| `ClientCrypto` | `client/src/utils/cryptoService.js` |
| `SecurityMiddleware` | `server/middleware/securityMiddleware.js` |
| `MessageController` | `server/controllers/messageController.js` |
| `AuthRoutes` | `server/routes/authRoutes.js` |
| `UserModel` | `server/models/User.js` |
| `MessageModel` | `server/models/Message.js` |
| `UseTyping` | `client/src/hooks/useTyping.js` |
| `Protocol` | what the client and the server agree on |

Shared helpers: `Wrappers` (Option, Result), `Strings` (trim, `\s`, ASCII case
folding, `split`, and lengths in UTF-16 units and as validator's `isLength` counts them), `Seqs`, `Sorting` (a stable insertion sort), `OrderedMap`,
`Json` (request values), `Database`.

Where state changes in place, the model is a class: `SocketManager.SocketManager`,
`SocketService.Service`, `ChatStore.ChatStore`, `UseTyping.TypingHook`,
`UserModel.UserDocument`, the request and response objects, and `Database.Db`.
Each method's `ensures` ties the new state to a pure step function of the old one.
The properties are lemmas about those functions.

## Model

| member | source | states |
|---|---|---|
| SocketManager.RateLimit | server/services/socketManager.js:17 | the limit is 10 per window for `message` and 30 for any other action |
| SocketManager.RateCheck | server/services/socketManager.js:14-39 | a call is accepted iff the key is new, the window has strictly passed, or the count is below the limit; a rejected call leaves the table unchanged; only the caller's key changes |
| SocketManager.FirstCallOpensWindow | server/services/socketManager.js:20-23 | the first call for a key stores count 1 with a reset time 60000 ms later, and is accepted |
| SocketManager.WindowBoundary | server/services/socketManager.js:27-35 | after the reset time the count restarts at 1 with a fresh window; at exactly the reset time the old window still applies |
| SocketManager.CountStaysWithinLimit | server/services/socketManager.js:33-38 | a stored count never exceeds the limit |
| SocketManager.CallsWithinWindow | server/services/socketManager.js:25-38 | within one window, a call is accepted iff fewer than `limit` calls were accepted before it |
| SocketManager.TenMessagesPerWindow | server/services/socketManager.js:14-38 | from a fresh key, within 60 s of the first message exactly the first ten are accepted and the eleventh and later are refused |
| SocketManager.RateKeyInjective | server/services/socketManager.js:16 | for user ids without `_`, distinct (user, action) pairs get distinct counters |
| SocketManager.ValidateSend | server/services/socketManager.js:47-69 | a missing payload or truthy content that is not a string is the internal error; otherwise missing fields, blank content and content over 1000 UTF-16 units are refused in that order, each with its own error, and the payload passes iff none applies |
| SocketManager.SnapshotListsEachUserOnce | server/services/socketManager.js:258-264 | in a registry keyed by user id, the online list names each user once (the registry is filled at lines 195-199) |
| SocketManager.StoredMessage | server/services/socketManager.js:99-121 | the stored message has the sender, receiver and content, the encrypted content under the session key, the hash and signature of the plain text, and both flags false |
| SocketManager.SocketManager.constructor | server/services/socketManager.js:7-12 | the registry and the rate table start empty |
| SocketManager.SocketManager.CheckRateLimit | server/services/socketManager.js:14-39 | the verdict and the new table are `RateCheck` on the `userId_action` key with that action's limit |
| SocketManager.SocketManager.HandleMessage | server/services/socketManager.js:41-159 | each failure emits one error carrying the tempId and stores nothing; a content failure leaves the rate table untouched; the receiver is looked up by the ObjectId its hex denotes, in either case; on success the message is stored once with that ObjectId as receiver, `messageSent` echoes the id as sent and goes to the sender before the push, and `newMessage` is pushed only to a receiver registered under that string |
| SocketManager.SocketManager.HandleConnection | server/services/socketManager.js:185-215 | the user's registry entry is replaced by the new socket (last connect wins), the user is marked online, `userOnline` is broadcast to the others, and the new socket gets the online list |
| SocketManager.SocketManager.HandleDisconnect | server/services/socketManager.js:240-256 | the user's entry is deleted by user id without checking the socket, the user is marked offline, and `userOffline` is broadcast |
| SocketManager.SocketManager.HandleTyping | server/services/socketManager.js:217-227 | `userTyping` is relayed to the receiver's socket only when the receiver is registered |
| SocketManager.SocketManager.HandleStopTyping | server/services/socketManager.js:229-238 | `userStoppedTyping` is relayed only when the receiver is registered |
| SocketManager.SocketManager.GetOnlineUsers | server/services/socketManager.js:258-264 | one entry per connected user, in registry order |
| SocketManager.StaleDisconnectRace | server/services/socketManager.js:195-250 | two sockets for one user, then the first disconnects: the user leaves the registry and is offline in the store although the second socket is open |
| UserModel.CreateUser | server/models/User.js:3-54 | a user is created iff the trimmed lower-cased username and email and the password fit the schema, whose length bounds count UTF-16 units, and both keys are present; it starts offline with `lastSeen` = now |
| UserModel.NormalizeIdempotent | server/models/User.js:9-24 | trimming and lower-casing twice is doing it once |
| UserModel.StoredUsernameIsCanonical | server/models/User.js:5-18 | a stored username has no upper-case ASCII letter and no whitespace |
| UserModel.EmailPatternOfParts | server/models/User.js:26 | `a@b.c` matches the e-mail pattern whenever the three parts are non-empty and free of whitespace and `@` |
| UserModel.EmailPatternHasParts | server/models/User.js:26 | every string the pattern matches has that shape |
| UserModel.UserDocument.constructor | server/models/User.js:61-62 | a new document's password counts as modified |
| UserModel.UserDocument.SetPassword | server/models/User.js:62 | assigning the password marks it modified |
| UserModel.UserDocument.Save | server/models/User.js:61-70 | saving hashes the password only when it was modified, and clears the mark |
| UserModel.SaveTwice | server/models/User.js:61-70 | saving twice hashes once |
| AuthRoutes.RegisterAccepts | server/routes/authRoutes.js:9-69 | registration passes iff the username is 3-30 characters of letters, digits and `_` and not all digits, the email passes with at most 100 characters as validator's isLength counts them, and the password meets the 8-128 isLength bounds and the class and forbidden-character rules |
| AuthRoutes.LoginErrors | server/routes/authRoutes.js:72-78 | login passes iff the e-mail passes and the password is non-empty |
| AuthRoutes.Escape | server/routes/authRoutes.js:25 | escaping never shortens a string (the same `escape` runs at lines 38 and 78) |
| AuthRoutes.EscapeChar | server/routes/authRoutes.js:25 | a character is replaced by a longer entity iff it is one of the escaped characters; any other stands for itself |
| AuthRoutes.EscapeIdentity | server/routes/authRoutes.js:25 | escaping leaves a string unchanged iff it has none of the escaped characters |
| AuthRoutes.EscapeLength | server/routes/authRoutes.js:25 | escaping keeps the length iff the string has none of the escaped characters |
| AuthRoutes.AcceptedUsernameUnchangedBySanitizers | server/routes/authRoutes.js:10-25 | an accepted username is unchanged by `trim` and `escape` |
| AuthRoutes.AcceptedUsernameFitsSchema | server/routes/authRoutes.js:10-23 | an accepted username still satisfies the user schema after lower-casing |
| AuthRoutes.AcceptedPasswordFitsSchema | server/routes/authRoutes.js:55-57 | an accepted password fits the schema's length bounds iff it is at most 128 UTF-16 units long, which always holds without code points above U+FFFF or U+FE0E/U+FE0F |
| AuthRoutes.AcceptedPasswordFailsSchema | server/routes/authRoutes.js:55-57 | `Aa1!` followed by 100 U+1F600 passes the route (isLength 104) and fails the schema's `maxlength` 128 (204 UTF-16 units; server/models/User.js:30-35) |
| AuthRoutes.LoginEscapeBreaksAcceptedPassword | server/routes/authRoutes.js:78 | `Abcdefg1&` is accepted at registration, but login's escaped value differs from it |
| AuthRoutes.LoginSeesRegisteredPassword | server/routes/authRoutes.js:55-78 | with the password left unescaped, every accepted password hashes at login to what registration stored |
| SecurityMiddleware.IsNoSqlInjectionAttempt | server/middleware/securityMiddleware.js:75-104 | a non-string key is never an attempt; a string key is one iff it starts with `$`, contains `.`, or contains `$` followed case-insensitively by a listed operator |
| SecurityMiddleware.PlainKeysPass | server/middleware/securityMiddleware.js:75-104 | a key with neither `$` nor `.` passes |
| SecurityMiddleware.OperatorCaseIgnored | server/middleware/securityMiddleware.js:84-103 | `a$NE` is caught, since the operator test ignores case; `price` passes |
| SecurityMiddleware.RemoveControls | server/middleware/securityMiddleware.js:112 | exactly the listed control characters are removed |
| SecurityMiddleware.RemoveAllIgnoreCase | server/middleware/securityMiddleware.js:113-115 | removing a pattern never adds a character or lengthens the text |
| SecurityMiddleware.RemoveAbsent | server/middleware/securityMiddleware.js:113-115 | removing a pattern that does not occur changes nothing |
| SecurityMiddleware.SanitizeText | server/middleware/securityMiddleware.js:107-116 | the output is no longer than the input and neither starts nor ends with whitespace |
| SecurityMiddleware.SanitizeString | server/middleware/securityMiddleware.js:107-108 | non-strings pass unchanged; a string is scrubbed |
| SecurityMiddleware.SanitizedTextChars | server/middleware/securityMiddleware.js:111-116 | every output character comes from the input and is not a stripped control character |
| SecurityMiddleware.CleanTextUnchanged | server/middleware/securityMiddleware.js:111-116 | text that is trimmed and has no controls and no scheme pattern is unchanged |
| SecurityMiddleware.NestedPatternSurvivesOnePass | server/middleware/securityMiddleware.js:113 | for any pattern whose first code point differs, ignoring case, from its second and third, one removal pass over the pattern written into itself after its first two code points leaves the pattern whole |
| SecurityMiddleware.NestedProtocolSurvives | server/middleware/securityMiddleware.js:111-116 | the whole scrub (control removal, the three scheme removals and trimming) turns `jajavascript:vascript:` into `javascript:` |
| SecurityMiddleware.PrintableKept | server/middleware/securityMiddleware.js:112 | printable ASCII survives control removal unchanged |
| SecurityMiddleware.TrimmedKeyMayStartWithDollar | server/middleware/securityMiddleware.js:54-65 | the key ` $x` passes the injection check and is stored as `$x` |
| SecurityMiddleware.AssignMember | server/middleware/securityMiddleware.js:68 | storing a data property overwrites the member with that key or appends one, keeping keys distinct; the member under the key holds the value and the others are unchanged |
| SecurityMiddleware.Assign | server/middleware/securityMiddleware.js:68 | on an object built from `{}`, assigning `__proto__` with no own member of that name while the prototype chain reaches the accessor of `Object.prototype` adds no member (and a value that is not an object or null changes nothing); any other assignment stores a member and keeps the chain; keys stay distinct |
| SecurityMiddleware.BuildObject | server/middleware/securityMiddleware.js:50-71 | the object rebuilt from `{}` has distinct keys and no more members than the original |
| SecurityMiddleware.KeepMember | server/middleware/securityMiddleware.js:54-68 | one key of the loop keeps the keys distinct and adds at most one member; a refused key changes nothing |
| SecurityMiddleware.RebuildObject | server/middleware/securityMiddleware.js:50-71 | the loop over the keys computes `BuildObject` over all of them |
| SecurityMiddleware.BuildObjectKeys | server/middleware/securityMiddleware.js:52-68 | a name other than `__proto__` is a key of the rebuilt object iff it is the scrubbed form of an original key that was not refused; `__proto__` is one iff such a key was assigned after the prototype chain stopped reaching the accessor |
| SecurityMiddleware.BuildObjectPrototype | server/middleware/securityMiddleware.js:50-68 | without an unrefused key that scrubs to `__proto__` the prototype stays `Object.prototype` |
| SecurityMiddleware.BuildObjectValues | server/middleware/securityMiddleware.js:52-68 | assignment overwrites: the value under each rebuilt key is the value of the last unrefused original key renamed to it |
| SecurityMiddleware.SanitizeObject | server/middleware/securityMiddleware.js:31-72 | primitives and null pass, strings are scrubbed, arrays keep their length, objects keep at most their members as own members with distinct keys (keys, values and prototype in the rows below) |
| SecurityMiddleware.RebuiltObject | server/middleware/securityMiddleware.js:50-71 | the rebuilt object has distinct own members, no more than the original, and keeps `Object.prototype` unless an unrefused key scrubs to `__proto__` |
| SecurityMiddleware.SanitizeArrayElementwise | server/middleware/securityMiddleware.js:44-48 | arrays are sanitised element by element in order |
| SecurityMiddleware.SanitizeObjectKeys | server/middleware/securityMiddleware.js:52-69 | the keys of a sanitised object other than `__proto__` are exactly the scrubbed forms of its keys that are not injection attempts; it owns `__proto__` only when such a key was assigned after the chain stopped reaching the accessor, and never without an unrefused key scrubbing to it |
| SecurityMiddleware.PlainTextScrubbed | server/middleware/securityMiddleware.js:75-116 | printable ASCII without `$`, `.` or `:` passes the injection check and is only trimmed |
| SecurityMiddleware.PlainKeyKept | server/middleware/securityMiddleware.js:54-65 | such a key without spaces passes and keeps its name |
| SecurityMiddleware.SpacedPlainKeyKept | server/middleware/securityMiddleware.js:54-65 | the same key after a space passes and is stored without it |
| SecurityMiddleware.OneProtoMember | server/middleware/securityMiddleware.js:50-68 | a one-member object whose key passes and scrubs to `__proto__` has no own member; null, an object or an array becomes its prototype and anything else leaves `Object.prototype` |
| SecurityMiddleware.OnePlainMember | server/middleware/securityMiddleware.js:50-68 | a one-member object whose key passes and keeps a name other than `__proto__` keeps that member with its value sanitised |
| SecurityMiddleware.NullThenOwnProtoMember | server/middleware/securityMiddleware.js:50-68 | after a first `__proto__` assignment of null, a second key scrubbing to `__proto__` becomes an own member |
| SecurityMiddleware.InstalledObjectInherited | server/middleware/securityMiddleware.js:50-68 | an object assigned to `__proto__` becomes the prototype, and its member is read through it |
| SecurityMiddleware.ProtoKeySetsPrototype | server/middleware/securityMiddleware.js:50-68 | `{"__proto__": {"isAdmin": true}}` sanitises to an object with no own member that inherits `isAdmin` |
| SecurityMiddleware.ProtoKeyPrimitiveIgnored | server/middleware/securityMiddleware.js:50-68 | `{"__proto__": 1}` sanitises to `{}` with `Object.prototype` |
| SecurityMiddleware.NullPrototypeThenOwnProtoKey | server/middleware/securityMiddleware.js:50-68 | `{"__proto__": null, " __proto__": 1}` gives a null prototype and an own `__proto__` member holding 1 |
| SecurityMiddleware.SanitizeObjectValues | server/middleware/securityMiddleware.js:52-69 | each member of a sanitised object holds the sanitised value of the last original member that passes the injection check and whose key scrubs to that member's key |
| SecurityMiddleware.SanitizeMembers | server/middleware/securityMiddleware.js:50-71 | the loop over an object's members computes its own members and prototype, `RebuiltObject`, and so `SanitizeObject` of that object |
| SecurityMiddleware.NoSqlSanitizer | server/middleware/securityMiddleware.js:4-28 | body and params are replaced by their sanitised form when they are objects; the query is left alone and its sanitised form is kept separately |
| SecurityMiddleware.CriticalRouteVerdict | server/middleware/securityMiddleware.js:176-214 | a request is refused iff the path is critical, the body is truthy and its serialisation is suspicious; non-critical paths always pass |
| SecurityMiddleware.PlainPayloadPasses | server/middleware/securityMiddleware.js:185-197 | a serialised body without `(`, `<`, `:` or `=` always passes |
| SecurityMiddleware.SecurityHeaders | server/middleware/securityMiddleware.js:132-162 | the five base headers are always set, with their values; on a path containing `/api/` the three cache headers are set, with their values |
| SecurityMiddleware.SecurityHeadersKeys | server/middleware/securityMiddleware.js:132-162 | each cache header is set iff the path contains `/api/`, and no other header is ever set |
| SecurityMiddleware.AdditionalSecurityHeaders | server/middleware/securityMiddleware.js:132-162 | the response gains exactly those headers and nothing else changes |
| SecurityMiddleware.CriticalRouteValidator | server/middleware/securityMiddleware.js:176-214 | `next` runs iff the verdict passes; otherwise the response is 400 |
| ChatStore.Merge | client/src/store/chatStore.js:66-69 | the incoming message's timestamp wins, and so do its id and tempId when present |
| ChatStore.Upserted | client/src/store/chatStore.js:58-73 | a message matching an entry by truthy id or tempId is merged into the first match and the length is kept; otherwise it is appended |
| ChatStore.UpsertMessage | client/src/store/chatStore.js:52-80 | the log is sorted by timestamp, is a permutation of the upserted log, and grows by one exactly when nothing matched |
| ChatStore.MergedStillMatches | client/src/store/chatStore.js:58-69 | a merged entry still matches the message merged into it |
| ChatStore.UpsertTwiceKeepsLength | client/src/store/chatStore.js:58-78 | adding the same message again does not grow the log |
| ChatStore.PatchByTempId | client/src/store/chatStore.js:100-117 | only the first entry with the tempId is patched; no match, no change |
| ChatStore.AddOnlineUser | client/src/store/chatStore.js:38-43 | unchanged when a user with that id is listed, otherwise appended |
| ChatStore.RemoveOnlineUser | client/src/store/chatStore.js:45-48 | exactly the entries with that id are removed, and a list without that id is unchanged |
| ChatStore.RemoveOnlineUserPiecewise | client/src/store/chatStore.js:45-48 | removal distributes over concatenation and keeps a single entry iff its id differs, so the remaining entries keep their order |
| ChatStore.AddOnlineUserKeepsIdsDistinct | client/src/store/chatStore.js:38-43 | adding keeps ids distinct |
| ChatStore.RemoveOnlineUserKeepsIdsDistinct | client/src/store/chatStore.js:45-48 | removing keeps ids distinct |
| ChatStore.RemoveAfterAdd | client/src/store/chatStore.js:38-48 | after adding then removing a user's id, no entry has that id |
| ChatStore.SetTyping | client/src/store/chatStore.js:124-134 | the user's earlier entries go and one entry with the latest username is appended |
| ChatStore.RemoveTyping | client/src/store/chatStore.js:136-145 | exactly the user's entries are removed |
| ChatStore.SetTypingOnePerUser | client/src/store/chatStore.js:124-134 | at most one entry per user is kept, carrying the latest username |
| ChatStore.RemoveTypingOnePerUser | client/src/store/chatStore.js:136-145 | removal keeps at most one entry per user |
| ChatStore.IncrementUnread | client/src/store/chatStore.js:262-271 | the user's count becomes its old value, 0 if absent, plus one; other counts are unchanged |
| ChatStore.ClearUnread | client/src/store/chatStore.js:274-280 | the user's count is deleted; other counts are unchanged |
| ChatStore.UnreadCountsMessages | client/src/store/chatStore.js:262-280 | after clearing, n increments give a count of exactly n |
| ChatStore.MergeLoaded | client/src/store/chatStore.js:244-245 | page 1 replaces the log; later pages put the fetched messages before the existing ones |
| ChatStore.GetCachedData | client/src/store/chatStore.js:291-297 | cached data is returned iff it is younger than 300000 ms (the age bound is the constant at line 8) |
| ChatStore.CacheRoundTrip | client/src/store/chatStore.js:291-308 | reading back a stored entry gives it while fresh and nothing after; other keys are unaffected |
| ChatStore.AddedMessages | client/src/store/chatStore.js:52-91 | only the named conversation changes, to its upserted log |
| ChatStore.UpdatedMessages | client/src/store/chatStore.js:100-117 | only the named conversation changes, by the tempId patch; an unknown conversation is left alone |
| ChatStore.ChatStore.constructor | client/src/store/chatStore.js:10-23 | every field starts empty, disconnected, with no selection |
| ChatStore.ChatStore.SetConnectionStatus | client/src/store/chatStore.js:50 | sets the connection flag |
| ChatStore.ChatStore.SetOnlineUsers | client/src/store/chatStore.js:36 | replaces the online list |
| ChatStore.ChatStore.AddOnlineUserEntry | client/src/store/chatStore.js:38-43 | the online list becomes `AddOnlineUser` of the old one |
| ChatStore.ChatStore.RemoveOnlineUserEntry | client/src/store/chatStore.js:45-48 | the online list becomes `RemoveOnlineUser` of the old one |
| ChatStore.ChatStore.AddMessage | client/src/store/chatStore.js:52-91 | the conversations become `AddedMessages` of the old ones |
| ChatStore.ChatStore.UpdateMessage | client/src/store/chatStore.js:100-117 | the conversations become `UpdatedMessages` of the old ones |
| ChatStore.ChatStore.SetTypingEntry | client/src/store/chatStore.js:124-134 | the typing list becomes `SetTyping` of the old one, one entry per user |
| ChatStore.ChatStore.RemoveTypingEntry | client/src/store/chatStore.js:136-145 | the typing list becomes `RemoveTyping` of the old one |
| ChatStore.ChatStore.IncrementUnreadCount | client/src/store/chatStore.js:262-271 | the counts become `IncrementUnread` of the old ones |
| ChatStore.ChatStore.ClearUnreadCount | client/src/store/chatStore.js:274-280 | the counts become `ClearUnread` of the old ones |
| ChatStore.ChatStore.LoadMessages | client/src/store/chatStore.js:231-259 | a failed fetch changes nothing; a page merges into that conversation only |
| ChatStore.ChatStore.SetCached | client/src/store/chatStore.js:299-308 | the cache stores the data stamped with now |
| ClientCrypto.VerifyMessageIntegrity | client/src/utils/cryptoService.js:10-32 | false whenever the hash does not match; with a matching hash, true iff the signature and the public key are both present and non-empty |
| ClientCrypto.SignatureIsNotChecked | client/src/utils/cryptoService.js:19-27 | any two non-empty signatures are equally accepted |
| ClientCrypto.ValidateMessageData | client/src/utils/cryptoService.js:35-48 | true iff all six fields are present and not null |
| ClientCrypto.UndefinedFieldPasses | client/src/utils/cryptoService.js:44-47 | a field set to `undefined` still passes, since only `null` is refused |
| SocketService.Pow2 | client/src/services/socketService.js:146 | powers of two are at least 1 |
| SocketService.ReconnectDelay | client/src/services/socketService.js:145-148 | the delay is 1000·2^n capped at 30000 |
| SocketService.ReconnectStep | client/src/services/socketService.js:134-148 | no-op while reconnecting or at 5 attempts; otherwise one more attempt, the flag set, and the delay for the incremented count |
| SocketService.ReconnectStepBounded | client/src/services/socketService.js:135-143 | the attempt count never exceeds 5 |
| SocketService.ReconnectLadder | client/src/services/socketService.js:142-148 | from zero, the delays are 2000, 4000, 8000, 16000, 30000, then none: the count is bumped before the delay is computed |
| SocketService.AtMostFiveReconnections | client/src/services/socketService.js:134-148 | however many reconnections are requested, at most 5 minus the attempts so far are scheduled |
| SocketService.LexTotal | client/src/services/socketService.js:413 | the string order is total; it compares code points, which orders ObjectId hex strings exactly as `sort()` compares UTF-16 units |
| SocketService.LexAsymmetric | client/src/services/socketService.js:413 | that order is asymmetric |
| SocketService.ConversationId | client/src/services/socketService.js:381-416 | an id is formed iff both ids are usable (present, non-empty, not `"undefined"`), and it is the two joined in sorted order |
| SocketService.ConversationIdSymmetric | client/src/services/socketService.js:413 | the id does not depend on which user asks |
| SocketService.ConversationIdSplits | client/src/services/socketService.js:413 | for ids without `_`, splitting the conversation id gives back the two ids, in order |
| SocketService.AttemptStep | client/src/services/socketService.js:284-355 | an unknown tempId changes nothing; otherwise a 5000 ms timeout is recorded, and when connected the message is emitted and an ack listener registered; the pending map never changes |
| SocketService.TimeoutStep | client/src/services/socketService.js:295-325 | under the bound the retry count grows by one and a retry is scheduled after 2000·(count+1); at the bound the entry and its handle are dropped |
| SocketService.FireStep | client/src/services/socketService.js:295-309 | an unknown handle changes nothing; a fired timer is gone afterwards; the model's invariant is kept |
| SocketService.AckStep | client/src/services/socketService.js:162-172 | the acknowledged entry, its recorded timeout, its listeners and the timeouts they cancel are removed; everything else is unchanged (and the attempt's own listener, lines 344-350) |
| SocketService.ReplayAll | client/src/services/socketService.js:358-367 | replay never changes the pending map |
| SocketService.ReplayResends | client/src/services/socketService.js:358-367 | on a live connection, replay emits each entry under its retry bound once, in insertion order |
| SocketService.RetryRound | client/src/services/socketService.js:296-309 | one timeout then its retry: the count grows by one, the message is emitted again and a fresh timeout is armed |
| SocketService.FinalTimeout | client/src/services/socketService.js:310-319 | at the bound the timeout drops the entry and its handle |
| SocketService.UnacknowledgedSendRetries | client/src/services/socketService.js:295-309 | a fresh message with no ack gets an attempt timeout, then retries armed after 2000, 4000 and 6000 ms |
| SocketService.UnacknowledgedSendFails | client/src/services/socketService.js:295-325 | the same message is emitted four times in all, then its entry and its timeout handle are dropped |
| SocketService.DisconnectStepAsWritten | client/src/services/socketService.js:418-430 | both maps are emptied, but only the timeouts whose handles are recorded are cleared |
| SocketService.DisconnectStep | client/src/services/socketService.js:418-430 | the corrected `disconnect()`, which the service does not run: both maps are emptied and every send-related timer is cleared |
| SocketService.FireAll | client/src/services/socketService.js:295-309 | firing timers one after another keeps the model's invariant |
| SocketService.StaleTimeoutRevivesPending | client/src/services/socketService.js:418-422 | a send, a replay, then `disconnect()`: a stale timeout still fires and puts the message back in the emptied map, and the next replay re-sends it (the timeout is at lines 300-308, the replay at 358-366) |
| SocketService.QuietStays | client/src/services/socketService.js:295-309 | once no timer can send or revive a message, firing timers never re-fills the pending map |
| SocketService.QuietAfterDisconnect | client/src/services/socketService.js:418-422 | after the corrected disconnect, no timer re-fills the pending map |
| SocketService.OnlineEntryAsWritten | client/src/services/socketService.js:118-121 | the `userOnline` payload gives an entry without `id` |
| SocketService.OnlineEntry | client/src/services/socketService.js:118-121 | the corrected entry, which the service does not add, is keyed by `id` |
| SocketService.SecondOnlineUserIgnored | client/src/services/socketService.js:118-126 | as written, a second user coming online is not listed, and the first going offline is not removed |
| SocketService.OnlineUsersTracked | client/src/store/chatStore.js:38-48 | with entries keyed by `id`, both users are listed in order and going offline removes exactly that user |
| SocketService.ReceivedEntry | client/src/services/socketService.js:208-217 | a verified push is logged as received, delivered and verified, under the server's id |
| SocketService.SendingEntry | client/src/services/socketService.js:255-262 | an outgoing message is logged as sending and pending under its tempId |
| SocketService.ArmReconnect | client/src/services/socketService.js:134-158 | the reconnection step, with its timer armed exactly when a delay results |
| SocketService.Service.constructor | client/src/services/socketService.js:8-16 | no socket, no attempts, empty maps and no timers |
| SocketService.Service.AttemptSendMessage | client/src/services/socketService.js:284-355 | the new state and outcome are `AttemptStep` under the current connection |
| SocketService.Service.RetryPendingMessages | client/src/services/socketService.js:358-367 | the loop over the pending entries computes `ReplayAll` |
| SocketService.Service.HandleReconnection | client/src/services/socketService.js:134-159 | the state becomes `ArmReconnect` of the old one |
| SocketService.Service.OnConnect | client/src/services/socketService.js:51-59 | counters reset, connected, store told, and each entry under its bound re-sent once in order |
| SocketService.Service.OnDisconnect | client/src/services/socketService.js:61-68 | the store is told; only `io server disconnect` starts the service's own reconnection |
| SocketService.Service.OnConnectError | client/src/services/socketService.js:70-73 | the state becomes `ArmReconnect` of the old one |
| SocketService.Service.FireTimer | client/src/services/socketService.js:295-325 | a dead handle does nothing; a reconnection timer asks a disconnected socket to connect; a send timer runs `FireStep`, and a final timeout marks the message failed in the store (the reconnection timer is at lines 134-158) |
| SocketService.Service.OnAttemptTimeout | client/src/services/socketService.js:295-325 | the state becomes `TimeoutStep`, and at the bound the message is marked failed |
| SocketService.Service.ScheduleRetry | client/src/services/socketService.js:298-309 | under the bound the state becomes `TimeoutStep`: the count grows and a retry timer is armed |
| SocketService.Service.GiveUp | client/src/services/socketService.js:310-319 | at the bound the state becomes `TimeoutStep` and the message is marked failed in the store |
| SocketService.Service.OnMessageSent | client/src/services/socketService.js:162-184 | the state becomes `AckStep`, and the sending entry is patched to delivered with the server's id (and the attempt's own listener, lines 344-350) |
| SocketService.Service.ClearAcknowledged | client/src/services/socketService.js:162-172 | the state becomes `AckStep` of the old one (and the attempt's own listener, lines 344-350) |
| SocketService.Service.OnNewMessage | client/src/services/socketService.js:186-240 | a push failing the integrity gate, or with no conversation id, changes nothing; otherwise it is logged, and counted unread unless its sender is selected |
| SocketService.Service.QueueAndAttempt | client/src/services/socketService.js:267-276 | recording the descriptor and making the first attempt is `AttemptStep` on the map with that entry set |
| SocketService.Service.SendMessage | client/src/services/socketService.js:243-281 | no conversation id, no effect; otherwise a sending entry is logged, a descriptor with 0 of 3 retries recorded, and the first attempt made |
| SocketService.Service.StartTyping | client/src/services/socketService.js:369-373 | `typing` is emitted only on a live connection |
| SocketService.Service.StopTyping | client/src/services/socketService.js:375-379 | `stopTyping` is emitted only on a live connection |
| SocketService.Service.OnUserTyping | client/src/services/socketService.js:102-105 | the store's typing list becomes `SetTyping` of the old one |
| SocketService.Service.OnUserStoppedTyping | client/src/services/socketService.js:107-110 | the store's typing list becomes `RemoveTyping` of the old one |
| SocketService.Service.OnOnlineUsers | client/src/services/socketService.js:113-116 | the store's online list is replaced |
| SocketService.Service.OnUserOnline | client/src/services/socketService.js:118-121 | the payload `{userId, username}` is added to the online list as it is, an entry without `id` (`OnlineEntryAsWritten`) |
| SocketService.Service.OnUserOffline | client/src/services/socketService.js:123-126 | the user's entries are removed from the online list |
| SocketService.Service.Disconnect | client/src/services/socketService.js:418-430 | the state becomes `DisconnectStepAsWritten`: both maps emptied and only the recorded timeouts cleared; the socket is gone and the store is told |
| MessageController.FormatSplits | server/controllers/messageController.js:94-111 | a well-formed id splits into two 24-digit lower-case hex ids that cast to themselves |
| MessageController.ValidatedParticipants | server/controllers/messageController.js:94-133 | an id is accepted iff it is two 24-digit lower-case hex strings joined by `_`, giving those two ids; otherwise 400 |
| MessageController.CheckConversationId | server/controllers/messageController.js:94-133 | the validation steps compute `ValidatedParticipants` |
| MessageController.ParticipantIds | server/controllers/messageController.js:125-133 | the parts cast iff each is an ObjectId string, giving one id per part |
| MessageController.PageNum | server/controllers/messageController.js:90 | the clamped page is at least 1 and keeps any page that already is |
| MessageController.LimitNum | server/controllers/messageController.js:91 | the clamped limit lies in 1..100 and keeps any limit that already does |
| MessageController.Window | server/controllers/messageController.js:152-153 | skip then limit, as the database applies them, including limit 0 (no limit) and a negative limit (its absolute value) |
| MessageController.HistoryQuery | server/controllers/messageController.js:143-154 | a negative skip is a 500; otherwise the page is exactly the window `(page - 1) * limit` messages into the participants' conversation sorted newest first, so it is newest first, between the two participants, at most the absolute value of the limit long, and repeats no message more often than the conversation holds it |
| MessageController.WindowComplete | server/controllers/messageController.js:151-153 | on a newest-first sequence, skip-then-limit returns `PageSize` elements; every skipped element is at least as new as each returned one; an element neither skipped nor returned means the limit is set, the window is full, and that element is no newer than the window's last entry |
| MessageController.HistoryPageComplete | server/controllers/messageController.js:143-154 | a successful query returns `PageSize` messages of the conversation; the newest `(page - 1) * limit` are skipped and no older than any returned; a conversation message neither skipped nor returned means the page is full and that message is no newer than the page's oldest |
| MessageController.FormatAll | server/controllers/messageController.js:166-177 | formatting succeeds iff every sender has a user document, one entry per message |
| MessageController.MarkRead | server/controllers/messageController.js:157-164 | only the read flag changes, and it is set exactly on messages to the reader from the listed senders |
| MessageController.GetMessages | server/controllers/messageController.js:83-194 | the steps compute the modelled answer and leave the modelled collection |
| MessageController.NonParticipantRefused | server/controllers/messageController.js:94-141 | a well-formed id not naming the caller gets 403 and changes nothing; a malformed one gets 400; any history goes to a participant |
| MessageController.HistoryIsOldestFirst | server/controllers/messageController.js:151-184 | history is oldest first, formatted from messages between the two participants, at most the absolute value of the limit long, and `hasMore` holds iff the page is full |
| MessageController.HistoryPageIsNewestSlice | server/controllers/messageController.js:143-166 | the history shown is the page `(page - 1) * limit` messages into the newest-first conversation, reversed: it has `PageSize` entries, the skipped messages are no older than any entry, and a conversation message neither skipped nor shown means the page is full and that message is no newer than the first (oldest) entry |
| MessageController.ShownSlice | server/controllers/messageController.js:151-166 | the formatted, reversed page of a successful query satisfies `ShowsNewestSlice` for the skip `(page - 1) * limit` |
| MessageController.HistoryAnswered | server/controllers/messageController.js:94-184 | a history answer means a well-formed id whose two halves gave a successful query, formatted oldest first, with `hasMore` iff the query filled the limit |
| MessageController.ReadMarkingScope | server/controllers/messageController.js:157-164 | once the query succeeds, exactly the caller's unread messages from the other participant become read, across the whole conversation; otherwise nothing changes |
| MessageController.RawLimitUsed | server/controllers/messageController.js:152-153 | a limit above 100 returns that many messages: the clamped value is not used (the clamp is at lines 90-91) |
| MessageController.CallerMessages | server/controllers/messageController.js:12-20 | the caller's messages, newest first, none lost or added |
| MessageController.KnownCounterparts | server/controllers/messageController.js:21-53 | each counterpart with a user document, once |
| MessageController.NewestInGroup | server/controllers/messageController.js:18-26 | the first message of a group in newest-first order is its newest |
| MessageController.SummaryFacts | server/controllers/messageController.js:21-41 | a summary has the newest message of its counterpart and counts the caller's unread messages from that counterpart |
| MessageController.BucketContents | server/controllers/messageController.js:12-68 | one group per counterpart with a user document that the caller has talked to, each with its facts |
| MessageController.ConversationsListed | server/controllers/messageController.js:7-80 | newest conversation first, each counterpart with a user document exactly once, with its newest message and unread count |
| MessageController.ReorderedBuckets | server/controllers/messageController.js:67-69 | sorting the groups keeps the participants and their distinctness |
| MessageController.ReorderedFacts | server/controllers/messageController.js:67-69 | sorting the groups keeps each group's facts |
| MessageController.SearchUsers | server/controllers/messageController.js:197-233 | a missing query or one shorter than two UTF-16 units is a 400; a pattern the database cannot compile is a 500; otherwise the profiles are a prefix, in collection order, of the profiles of the other users whose username or email matches, at most ten, and a matching user is left out only when ten are listed |
| MessageController.SearchParticipants | server/controllers/messageController.js:252-260 | a conversation id is accepted iff it splits into exactly two ObjectId strings |
| MessageController.SearchScope | server/controllers/messageController.js:247-279 | the corrected search filter, used only by `SearchMessagesIntended`, admits only the caller's own messages |
| MessageController.Newest | server/controllers/messageController.js:285-286 | at most `n` of the hits, newest first, no copy more often than among the hits; a hit left out means `n` were taken and it is no newer than the last |
| MessageController.RunSearch | server/controllers/messageController.js:282-286 | at most 20 messages, newest first, in scope and matching, none repeated beyond the collection; an in-scope match is left out only when 20 are returned and it is no newer than the last of them |
| MessageController.SearchMessages | server/controllers/messageController.js:236-293 | as written: a refused query is a 400; at most twenty results, newest first, each in the collection and matching; without a conversation id each result is the caller's own message, and with one each is between the two named users, whoever the caller; a message of that scope that matches is left out only when twenty are returned and it is no newer than the last |
| MessageController.SearchMessagesIntended | server/controllers/messageController.js:247-279 | the corrected search, with the caller's condition kept: every result is the caller's own message and matches |
| MessageController.SearchMessagesGuards | server/controllers/messageController.js:241-260 | the search answers 400 iff the query is refused or a non-empty conversation id does not name two ObjectIds, 500 iff neither holds and the database cannot compile the pattern, and no other error |
| MessageController.SearchReachesOthersConversations | server/controllers/messageController.js:247-279 | as written, naming another pair's conversation returns their message to a caller who is neither sender nor receiver |
| MessageController.SearchStaysWithinOwnMessages | server/controllers/messageController.js:247-279 | with the caller's condition kept, that request returns nothing, whatever conversation id is given |
| MessageController.MarkDelivered | server/controllers/messageController.js:301-307 | only the delivered flag changes, and it is set exactly on messages whose id some listed string denotes, in either case of hex, and whose receiver is the caller |
| MessageController.MarkDeliveredIdempotent | server/controllers/messageController.js:301-307 | marking twice is marking once |
| MessageController.UpperCaseIdMarks | server/controllers/messageController.js:301-307 | an id listed in upper-case hex marks the message stored under the lower-case form |
| MessageController.MarkAsDelivered | server/controllers/messageController.js:296-314 | with every id castable, the collection is marked by the ObjectIds the ids denote and the answer is success; otherwise 500 and nothing changes |
| MessageModel.NewMessage | server/models/Message.js:3-47 | a new message is neither delivered nor read |
| UseTyping.StartStep | client/src/hooks/useTyping.js:9-23 | `startTyping` is emitted only on a false-to-true change with a truthy receiver; the old timer is cleared and one 1000 ms timer armed |
| UseTyping.StopStep | client/src/hooks/useTyping.js:25-35 | `stopTyping` is emitted only when typing with a truthy receiver, which clears the flag; the timer is cleared |
| UseTyping.FireStep | client/src/hooks/useTyping.js:20-22 | a cleared handle does nothing; a live one runs the stop handler |
| UseTyping.StepKeepsInv | client/src/hooks/useTyping.js:9-35 | every event keeps the invariant: emits alternate start/stop, the flag says whether the last was a start, and the one live timer is the ref's |
| UseTyping.RunKeepsInv | client/src/hooks/useTyping.js:9-35 | the invariant holds after any sequence of events |
| UseTyping.RepeatedStartsEmitOnce | client/src/hooks/useTyping.js:10-13 | any burst of starts emits one `startTyping` |
| UseTyping.StopWhenIdleIsSilent | client/src/hooks/useTyping.js:26-34 | stopping while idle emits nothing and still clears the timer |
| UseTyping.ClearedTimerNeverFires | client/src/hooks/useTyping.js:16-22 | a timer replaced by a later keystroke never runs |
| UseTyping.TypingHook.constructor | client/src/hooks/useTyping.js:6-7 | the refs start idle with no timer |
| UseTyping.TypingHook.ClearTimer | client/src/hooks/useTyping.js:16-33 | the ref's timer is cleared when there is one |
| UseTyping.TypingHook.HandleStartTyping | client/src/hooks/useTyping.js:9-23 | the state becomes `StartStep` of the old one, keeping the invariant |
| UseTyping.TypingHook.HandleStopTyping | client/src/hooks/useTyping.js:25-35 | the state becomes `StopStep` of the old one, keeping the invariant |
| UseTyping.TypingHook.FireTimer | client/src/hooks/useTyping.js:20-22 | the state becomes `FireStep` of the old one, keeping the invariant |
| Protocol.ClientConversationIdAccepted | client/src/services/socketService.js:413 | for any two ObjectIds, the client's conversation id is accepted by the history route, which reads back exactly those two users |
| Protocol.Delivered | client/src/services/socketService.js:337-341 | the server receives the three fields as strings |
| Protocol.ClientSendValidated | server/services/socketManager.js:47-69 | a client message passes the server's content checks iff both ids are non-empty, the text is not blank and is at most 1000 UTF-16 units long |
| Protocol.Received | server/services/socketManager.js:136-146 | the client reads the push's id, sender, content, hash, signature and key |
| Protocol.PushPassesIntegrityGate | server/services/socketManager.js:106-146 | a stored and pushed message passes the client's integrity gate iff its signature and the sender's public key are non-empty |
| Protocol.AckOf | server/services/socketManager.js:126-131 | the client matches an ack iff its tempId is a string |
| Protocol.AcknowledgedSendIsFinal | client/src/services/socketService.js:162-172 | a fresh message emitted once and acknowledged leaves no entry, timeout, listener or timer behind, and no further timer re-sends it (the attempt's own listener is at lines 344-350) |

## Left out

- Socket.IO transport: connecting, rooms, listener registration and the library's own reconnection with its jitter. Emits are appended to an `outbox`, and the duplicate `error` listeners are a single handler.
- JWT verification of the socket handshake: a socket is authenticated by a precondition that its user is set.
- MongoDB and Mongoose I/O. Collections are in memory. A failing save is a parameter. A failed cast to ObjectId is modelled as the 500 the handler answers.
- Cryptography: SHA-256, AES, RSA signing and bcrypt are function-valued parameters. No property of the real algorithms is used.
- Real time: delays are recorded on the timers and do not elapse. Any order of firing can be explored.
- Concurrency between connections: events are sequential. The disconnect race is a two-connection scenario.
- The express-validator library: `isEmail` is a parameter, and `normalizeEmail` is not modelled. `escape` is modelled.
- `hpp`, `helmet` and the brute-force limiter: these are library configuration.
- Case folding is ASCII-only, in `toLowerCase` and in case-insensitive regular expressions. `toLowerCase` folds full Unicode in JavaScript, so usernames and e-mails with non-ASCII capitals differ.
- UserModel.CreateUser: uniqueness of username and email is enforced by a database index and is not modelled.
- Query values that are arrays or non-integers: `page` and `limit` are integers, and `parseInt` returning `NaN` is not modelled.
- A `messageIds` value that is not an array.
- The database's stored ObjectIds are modelled as their 24-digit string form. A 12-byte string id is not modelled.
- Regular-expression search is the `matches` parameter, and whether the database can compile the query as a pattern is the `validPattern` parameter.
- The natural order of the users collection is the order of a sequence; tie order among equal timestamps follows the stable sort.
- `$group` output order before the final sort, and ties in the final sort: the model uses the stable sort of the grouped list.
- `loadConversations`, `searchUsers`, `searchMessages` and `updateMessageStatus` in the store are HTTP wrappers, and `forceUpdate` and `setSelectedUser` are bare setters. They are not modelled beyond what the store methods above cover.
- Browser notifications and sounds in `handleNewMessage`, and its error logging.
- UseTyping.TypingHook: a `receiverId` that changes between renders is not modelled. Each hook object serves one receiver.
- The typing logic duplicated in the chat window component, and all other UI components.
- SecurityMiddleware.SanitizeObject: the returned value holds the own members of each rebuilt object. The prototype a `__proto__` key installs is given by `RebuiltObject` and `SanitizedPrototype` and is not part of the value, so a nested object's inherited members are not carried in the tree. Reads through a prototype (`PropertyOf`) see only members of installed objects, not the built-in properties of `Object.prototype` or `Array.prototype`, nor the elements of an installed array.
- SecurityMiddleware.NoSqlSanitizer: the request's body and params are the sanitised values, which hold own members only. A prototype installed on the body itself is not stored on the request.
- SecurityMiddleware.SanitizeObject: object members are visited in the order of the member sequence. JavaScript visits integer-like keys first, in ascending order, so when two kept keys scrub to the same name the winning value may differ.
- SocketService.ConversationId: the two ids are ordered by code point, while `sort()` compares UTF-16 units. The orders differ only between a code point above U+FFFF and one in U+E000-U+FFFF, and ObjectId strings contain neither.
- SocketManager.SocketManager.HandleMessage: the sender is stored as the socket's user id as given, without the cast to an ObjectId. That id comes from the verified token.
- SocketManager.SocketManager.HandleMessage: a receiver id that is not an ObjectId string is always answered as a failed cast (500, nothing stored). Mongoose also casts an object whose `_id` is an ObjectId string: it would find the receiver, store and acknowledge the message, and then skip the push, because the connected-users map is keyed by strings and the object finds no entry. That path is not modelled.
- ChatStore.Merge: an incoming field explicitly set to `undefined` is modelled as an absent field, so the old value stays. The spread `{...existing, ...message}` would overwrite it with `undefined`.

## Findings

| source | as written | input that shows it | evidently intended | confidence | as-written member | corrected member |
|---|---|---|---|---|---|---|
| client/src/services/socketService.js:118-121 | `userOnline` adds `{userId, username}`, but the store's online list adds and removes by `id` | two users come online one after the other | entries keyed by `id`, so each user is listed and removed | not executed | SocketService.SecondOnlineUserIgnored | SocketService.OnlineUsersTracked |
| server/controllers/messageController.js:273-279 | the conversation's `$or` replaces the caller's `$or` in the search filter | a caller who is in neither `a` nor `b` searches with conversation id `a_b` | only the caller's own messages are searched | not executed | MessageController.SearchReachesOthersConversations | MessageController.SearchStaysWithinOwnMessages |
| server/routes/authRoutes.js:78 | login escapes the password that registration stored unescaped | register with `Abcdefg1&`, then log in with it | the password is compared as registered | not executed | AuthRoutes.LoginEscapeBreaksAcceptedPassword | AuthRoutes.LoginSeesRegisteredPassword |
| client/src/services/socketService.js:418-422 | `disconnect()` clears only the latest timeout per message and never the retry timers | send, reconnect (a second attempt overwrites the handle), `disconnect()`, then let the first timeout fire | no send timer survives `disconnect()` | not executed | SocketService.StaleTimeoutRevivesPending | SocketService.QuietAfterDisconnect |
