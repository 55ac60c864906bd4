/**
 * The client's connection manager (`client/src/services/socketService.js`):
 * the reconnection ladder, the conversation id, the outgoing-message machinery
 * (pending messages, per-attempt timeouts, retries, acknowledgements, replay
 * after reconnection) and the handlers that feed the chat store.
 *
 * Timers are explicit: arming one adds it to `timers` under a fresh handle,
 * `clearTimeout` removes it, and the environment fires a live one by calling
 * `FireTimer`. Socket listeners registered per attempt are `listeners`;
 * messages sent to the server are appended to `outbox`.
 */
module SocketService {
  import opened Wrappers
  import opened Strings
  import opened OrderedMap
  import opened ChatStore
  import opened ClientCrypto
  import opened Seqs

  const MAX_RECONNECT_ATTEMPTS: nat := 5
  const RECONNECT_DELAY: nat := 1000
  const MAX_RECONNECT_DELAY: nat := 30000
  const MAX_RETRIES: nat := 3
  const ATTEMPT_TIMEOUT: nat := 5000
  const RETRY_DELAY: nat := 2000
  const FAILURE_TEXT: string := "Falha ao enviar mensagem"

  // ---------------------------------------------------------------- reconnection

  function Pow2(n: nat): (r: nat)
    ensures r >= 1
  {
    if n == 0 then 1 else 2 * Pow2(n - 1)
  }

  /** `Math.min(reconnectDelay * 2 ** attempts, 30000)` */
  function ReconnectDelay(attempts: nat): (d: nat)
    ensures d <= MAX_RECONNECT_DELAY
    ensures d == MAX_RECONNECT_DELAY || d == RECONNECT_DELAY * Pow2(attempts)
    ensures d < MAX_RECONNECT_DELAY ==> d == RECONNECT_DELAY * Pow2(attempts)
  {
    if RECONNECT_DELAY * Pow2(attempts) < MAX_RECONNECT_DELAY then RECONNECT_DELAY * Pow2(attempts)
    else MAX_RECONNECT_DELAY
  }

  datatype Reconnect = Reconnect(attempts: nat, reconnecting: bool)

  /**
   * `handleReconnection`: nothing while a reconnection is scheduled or once five
   * attempts were made; otherwise the attempt is counted first and a timer is
   * armed with the delay for the new count.
   */
  function ReconnectStep(r: Reconnect): (res: (Reconnect, Option<nat>))
    ensures r.reconnecting || r.attempts >= MAX_RECONNECT_ATTEMPTS ==> res == (r, None)
    ensures !r.reconnecting && r.attempts < MAX_RECONNECT_ATTEMPTS ==>
      res.0 == Reconnect(r.attempts + 1, true) && res.1 == Some(ReconnectDelay(r.attempts + 1))
  {
    if r.reconnecting || r.attempts >= MAX_RECONNECT_ATTEMPTS then (r, None)
    else (Reconnect(r.attempts + 1, true), Some(ReconnectDelay(r.attempts + 1)))
  }

  /** The attempt count never passes the maximum. */
  lemma ReconnectStepBounded(r: Reconnect)
    requires r.attempts <= MAX_RECONNECT_ATTEMPTS
    ensures ReconnectStep(r).0.attempts <= MAX_RECONNECT_ATTEMPTS
  {
  }

  /**
   * The delays scheduled by `n` connection failures in a row, each one's timer
   * firing (and clearing the flag) before the next failure.
   */
  function Ladder(r: Reconnect, n: nat): seq<Option<nat>>
    decreases n
  {
    if n == 0 then []
    else
      var (r1, d) := ReconnectStep(r);
      [d] + Ladder(r1.(reconnecting := false), n - 1)
  }

  function CountSome(ds: seq<Option<nat>>): nat {
    if ds == [] then 0 else (if ds[0].Some? then 1 else 0) + CountSome(ds[1..])
  }

  /** From a fresh state the delays are 2, 4, 8, 16 and 30 seconds, and then nothing. */
  lemma ReconnectLadder()
    ensures Ladder(Reconnect(0, false), 6) == [Some(2000), Some(4000), Some(8000), Some(16000), Some(30000), None]
  {
    assert Pow2(1) == 2 && Pow2(2) == 4 && Pow2(3) == 8 && Pow2(4) == 16 && Pow2(5) == 32;
  }

  /** However many failures follow, at most five reconnections are scheduled until a connection resets the count. */
  lemma {:induction false} AtMostFiveReconnections(r: Reconnect, n: nat)
    requires r.attempts <= MAX_RECONNECT_ATTEMPTS && !r.reconnecting
    ensures CountSome(Ladder(r, n)) <= MAX_RECONNECT_ATTEMPTS - r.attempts
    decreases n
  {
    if n > 0 {
      var (r1, d) := ReconnectStep(r);
      AtMostFiveReconnections(r1.(reconnecting := false), n - 1);
      assert Ladder(r, n) == [d] + Ladder(r1.(reconnecting := false), n - 1);
      assert Ladder(r, n)[1..] == Ladder(r1.(reconnecting := false), n - 1);
    }
  }

  // ---------------------------------------------------------------- conversation id

  /** `<` on strings: lexicographic order of code points. */
  predicate LexLess(a: string, b: string)
    decreases |a|
  {
    if a == [] then b != []
    else if b == [] then false
    else if a[0] != b[0] then a[0] < b[0]
    else LexLess(a[1..], b[1..])
  }

  lemma {:induction false} LexTotal(a: string, b: string)
    ensures a == b || LexLess(a, b) || LexLess(b, a)
    decreases |a|
  {
    if a != [] && b != [] && a[0] == b[0] {
      LexTotal(a[1..], b[1..]);
      assert a == [a[0]] + a[1..] && b == [b[0]] + b[1..];
    }
  }

  lemma {:induction false} LexAsymmetric(a: string, b: string)
    ensures !(LexLess(a, b) && LexLess(b, a))
    decreases |a|
  {
    if a != [] && b != [] && a[0] == b[0] {
      LexAsymmetric(a[1..], b[1..]);
    }
  }

  /** A user id that `getConversationId` accepts: present, non-empty and not the text `undefined`. */
  predicate UsableId(x: Option<string>) {
    x.Some? && x.value != "" && x.value != "undefined"
  }

  /** `[a, b].sort().join("_")` */
  function JoinSorted(a: string, b: string): string {
    if LexLess(b, a) then b + "_" + a else a + "_" + b
  }

  /** `getConversationId(userId)` for the signed-in user `current`. */
  function ConversationId(current: Option<string>, other: Option<string>): (r: Option<string>)
    ensures r.Some? <==> UsableId(current) && UsableId(other)
    ensures r.Some? ==> r.value == JoinSorted(current.value, other.value)
  {
    if UsableId(current) && UsableId(other) then Some(JoinSorted(current.value, other.value)) else None
  }

  /** Both participants compute the same id. */
  lemma ConversationIdSymmetric(a: Option<string>, b: Option<string>)
    ensures ConversationId(a, b) == ConversationId(b, a)
  {
    if UsableId(a) && UsableId(b) {
      LexTotal(a.value, b.value);
      LexAsymmetric(a.value, b.value);
    }
  }

  /** For ids without `_`, splitting the conversation id gives back the two ids, smaller first. */
  lemma ConversationIdSplits(a: string, b: string)
    requires '_' !in a && '_' !in b
    ensures var parts := Split(JoinSorted(a, b), '_');
      && |parts| == 2 && multiset(parts) == multiset{a, b}
      && (parts[0] == parts[1] || LexLess(parts[0], parts[1]))
  {
    var lo := if LexLess(b, a) then b else a;
    var hi := if LexLess(b, a) then a else b;
    assert JoinSorted(a, b) == lo + ['_'] + hi;
    SplitJoin(lo, hi, '_');
    LexTotal(a, b);
  }

  // ---------------------------------------------------------------- outgoing messages

  /** An entry of `pendingMessages`. */
  datatype PendingMessage = PendingMessage(receiverId: string, content: string, tempId: string,
                                           conversationId: string, retryCount: nat, maxRetries: nat)

  /** What a JavaScript timer does when it fires; an attempt timeout keeps the entry it was armed for. */
  datatype TimerTask = AttemptTimeout(tempId: string, attempt: PendingMessage) | RetryDelay(tempId: string) | ReconnectTimer

  datatype Timer = Timer(task: TimerTask, delay: nat)

  /** The `messageSent` listener an attempt registers, with the handle of that attempt's timeout. */
  datatype AckListener = AckListener(tempId: string, timer: nat)

  /** What the client sends to the server. */
  datatype ClientEmit =
    | SendMessageEmit(receiverId: string, content: string, tempId: string)
    | TypingEmit(receiverId: string)
    | StopTypingEmit(receiverId: string)
    | ConnectRequest

  /** The state the sending machinery works on. */
  datatype Outbound = Outbound(
    pending: Assoc<string, PendingMessage>,
    timeouts: map<string, nat>,
    timers: map<nat, Timer>,
    nextTimer: nat,
    listeners: seq<AckListener>,
    outbox: seq<ClientEmit>)

  datatype AttemptOutcome = NotFound | NotConnected | Emitted

  predicate RetriesWithinBound(p: PendingMessage) {
    p.retryCount <= p.maxRetries
  }

  /**
   * The invariant of the sending state: one entry per temporary id, no entry
   * (and no snapshot held by a timer) past its retry bound, and every live timer
   * handle already handed out.
   */
  ghost predicate WellFormed(o: Outbound) {
    && DistinctKeys(o.pending)
    && (forall i :: 0 <= i < |o.pending| ==> RetriesWithinBound(o.pending[i].1))
    && (forall t :: t in o.timers ==> t < o.nextTimer)
    && (forall t :: t in o.timers && o.timers[t].task.AttemptTimeout? ==> RetriesWithinBound(o.timers[t].task.attempt))
  }

  /**
   * `attemptSendMessage(tempId)`: an unknown id fails without effect. Otherwise
   * a 5-second timeout is armed and its handle recorded; without a connection it
   * is cleared at once, and with one the message is emitted and an
   * acknowledgement listener registered.
   */
  function AttemptStep(o: Outbound, tempId: string, connected: bool): (res: (Outbound, AttemptOutcome))
    ensures res.0.pending == o.pending
    ensures res.1 == NotFound <==> tempId !in Keys(o.pending)
    ensures res.1 == NotFound ==> res.0 == o
    ensures res.1 != NotFound ==>
      && res.0.timeouts == o.timeouts[tempId := o.nextTimer] && res.0.nextTimer == o.nextTimer + 1
      && (res.1 == Emitted <==> connected)
    ensures res.1 == NotConnected ==> res.0.timers == o.timers && res.0.listeners == o.listeners && res.0.outbox == o.outbox
    ensures res.1 == Emitted ==>
      var m := Get(o.pending, tempId).value;
      && res.0.timers == o.timers[o.nextTimer := Timer(AttemptTimeout(tempId, m), ATTEMPT_TIMEOUT)]
      && res.0.listeners == o.listeners + [AckListener(tempId, o.nextTimer)]
      && res.0.outbox == o.outbox + [SendMessageEmit(m.receiverId, m.content, tempId)]
    ensures WellFormed(o) ==> WellFormed(res.0)
  {
    match Get(o.pending, tempId)
    case None => (o, NotFound)
    case Some(m) =>
      var t := o.nextTimer;
      var armed := o.(timeouts := o.timeouts[tempId := t], nextTimer := t + 1);
      if !connected then (armed, NotConnected)
      else
        (armed.(timers := o.timers[t := Timer(AttemptTimeout(tempId, m), ATTEMPT_TIMEOUT)],
                listeners := o.listeners + [AckListener(tempId, t)],
                outbox := o.outbox + [SendMessageEmit(m.receiverId, m.content, tempId)]), Emitted)
  }

  /** The delay before retry number `retryCount + 1`. */
  function RetryDelayFor(retryCount: nat): nat {
    RETRY_DELAY * (retryCount + 1)
  }

  /**
   * An attempt's timeout firing: below the bound, the entry is written back with
   * the attempt's count plus one and a retry is scheduled; at the bound, the entry
   * and its timeout handle are dropped (the message is marked failed in the store).
   */
  function TimeoutStep(o: Outbound, tempId: string, attempt: PendingMessage): (r: Outbound)
    requires DistinctKeys(o.pending)
    ensures attempt.retryCount < attempt.maxRetries ==>
      && Get(r.pending, tempId) == Some(attempt.(retryCount := attempt.retryCount + 1))
      && (forall k :: k != tempId ==> Get(r.pending, k) == Get(o.pending, k))
      && r.timers == o.timers[o.nextTimer := Timer(RetryDelay(tempId), RetryDelayFor(attempt.retryCount))]
      && r.nextTimer == o.nextTimer + 1 && r.timeouts == o.timeouts
    ensures attempt.retryCount >= attempt.maxRetries ==>
      && Get(r.pending, tempId) == None
      && (forall k :: k != tempId ==> Get(r.pending, k) == Get(o.pending, k))
      && r.timers == o.timers && r.timeouts == o.timeouts - {tempId} && r.nextTimer == o.nextTimer
    ensures r.listeners == o.listeners && r.outbox == o.outbox
    ensures DistinctKeys(r.pending)
    ensures WellFormed(o) && RetriesWithinBound(attempt) ==> WellFormed(r)
  {
    if attempt.retryCount < attempt.maxRetries then
      var t := o.nextTimer;
      var r := o.(pending := Set(o.pending, tempId, attempt.(retryCount := attempt.retryCount + 1)),
                  timers := o.timers[t := Timer(RetryDelay(tempId), RetryDelayFor(attempt.retryCount))],
                  nextTimer := t + 1);
      assert WellFormed(o) ==> forall i :: 0 <= i < |r.pending| ==> RetriesWithinBound(r.pending[i].1) by {
        if WellFormed(o) {
          forall i | 0 <= i < |r.pending| ensures RetriesWithinBound(r.pending[i].1) {
            var k := r.pending[i].0;
            assert Get(r.pending, k) == Some(r.pending[i].1);
            if k != tempId {
              assert Get(o.pending, k) == Some(r.pending[i].1);
            }
          }
        }
      }
      r
    else
      o.(pending := Delete(o.pending, tempId), timeouts := o.timeouts - {tempId})
  }

  /** A firing timer: it is removed and its task runs; only the sending tasks act on this state. */
  function FireStep(o: Outbound, t: nat, connected: bool): (r: Outbound)
    requires DistinctKeys(o.pending)
    ensures t !in o.timers ==> r == o
    ensures t in o.timers && o.timers[t].task.ReconnectTimer? ==> r == o.(timers := o.timers - {t})
    ensures DistinctKeys(r.pending)
    ensures WellFormed(o) ==> WellFormed(r)
    ensures WellFormed(o) && t in o.timers ==> t !in r.timers
  {
    if t !in o.timers then o
    else
      var cleared := o.(timers := o.timers - {t});
      assert WellFormed(o) ==> WellFormed(cleared);
      match o.timers[t].task
      case AttemptTimeout(k, m) => TimeoutStep(cleared, k, m)
      case RetryDelay(k) => AttemptStep(cleared, k, connected).0
      case ReconnectTimer => cleared
  }

  /** `clearTimeout` on each handle in `cancelled`. */
  function ClearTimers(timers: map<nat, Timer>, cancelled: set<nat>): (r: map<nat, Timer>)
    ensures forall t :: t in r <==> t in timers && t !in cancelled
    ensures forall t :: t in r ==> r[t] == timers[t]
  {
    map t | t in timers && t !in cancelled :: timers[t]
  }

  /** The reconnection timers among `timers`. */
  function ReconnectTimersOnly(timers: map<nat, Timer>): (r: map<nat, Timer>)
    ensures forall t :: t in r <==> t in timers && timers[t].task.ReconnectTimer?
    ensures forall t :: t in r ==> r[t] == timers[t]
  {
    map t | t in timers && timers[t].task.ReconnectTimer? :: timers[t]
  }

  /** The listeners not registered for `tempId`. */
  function ListenersExcept(listeners: seq<AckListener>, tempId: string): (r: seq<AckListener>)
    ensures forall l :: l in r <==> l in listeners && l.tempId != tempId
  {
    Filter(listeners, (l: AckListener) => l.tempId != tempId)
  }

  /** The handles an acknowledgement for `tempId` cancels: its recorded timeout and each listener's own. */
  function AckCancelled(o: Outbound, tempId: string): set<nat> {
    (if tempId in o.timeouts then {o.timeouts[tempId]} else {})
    + set l | l in o.listeners && l.tempId == tempId :: l.timer
  }

  /**
   * A `messageSent` acknowledgement: the service's handler and every listener for
   * that id run; the timeouts they know of are cleared and the entry is dropped.
   */
  function AckStep(o: Outbound, tempId: string): (r: Outbound)
    requires DistinctKeys(o.pending)
    ensures tempId !in Keys(r.pending) && tempId !in r.timeouts
    ensures forall k :: k != tempId ==> Get(r.pending, k) == Get(o.pending, k)
    ensures forall k :: k != tempId ==> (k in r.timeouts <==> k in o.timeouts) && (k in r.timeouts ==> r.timeouts[k] == o.timeouts[k])
    ensures forall t :: t in r.timers <==> t in o.timers && t !in AckCancelled(o, tempId)
    ensures forall l :: l in r.listeners <==> l in o.listeners && l.tempId != tempId
    ensures r.outbox == o.outbox && r.nextTimer == o.nextTimer
    ensures WellFormed(o) ==> WellFormed(r)
  {
    o.(timers := ClearTimers(o.timers, AckCancelled(o, tempId)),
       timeouts := o.timeouts - {tempId},
       pending := Delete(o.pending, tempId),
       listeners := ListenersExcept(o.listeners, tempId))
  }

  /** Whether `retryPendingMessages` replays an entry. */
  predicate Replayable(e: (string, PendingMessage)) {
    e.1.retryCount < e.1.maxRetries
  }

  /** `retryPendingMessages` over the first `|entries|` entries, in map order. */
  function ReplayAll(o: Outbound, entries: seq<(string, PendingMessage)>, connected: bool): (r: Outbound)
    ensures r.pending == o.pending
    ensures WellFormed(o) ==> WellFormed(r)
    decreases |entries|
  {
    if entries == [] then o
    else
      var prior := ReplayAll(o, entries[..|entries| - 1], connected);
      var e := entries[|entries| - 1];
      if Replayable(e) then AttemptStep(prior, e.0, connected).0 else prior
  }

  /** Replaying one more entry. */
  lemma ReplayAllNext(o: Outbound, entries: seq<(string, PendingMessage)>, i: nat, connected: bool)
    requires i < |entries|
    ensures ReplayAll(o, entries[..i + 1], connected) ==
      if Replayable(entries[i]) then AttemptStep(ReplayAll(o, entries[..i], connected), entries[i].0, connected).0
      else ReplayAll(o, entries[..i], connected)
  {
    assert entries[..i + 1][..i] == entries[..i];
  }

  /** Replaying a single entry. */
  lemma ReplayOne(o: Outbound, e: (string, PendingMessage), connected: bool)
    ensures ReplayAll(o, [e], connected) == if Replayable(e) then AttemptStep(o, e.0, connected).0 else o
  {
    assert [e][..0] == [];
  }

  /** The messages a replay emits: one per replayable entry, in order. */
  function ReplayEmits(entries: seq<(string, PendingMessage)>): seq<ClientEmit>
  {
    if entries == [] then []
    else
      var e := entries[|entries| - 1];
      ReplayEmits(entries[..|entries| - 1])
        + (if Replayable(e) then [SendMessageEmit(e.1.receiverId, e.1.content, e.0)] else [])
  }

  /**
   * On a live connection, replaying the pending messages re-sends each entry
   * still under its retry bound, once, in insertion order.
   */
  lemma {:induction false} ReplayResends(o: Outbound, n: nat)
    requires DistinctKeys(o.pending) && n <= |o.pending|
    ensures ReplayAll(o, o.pending[..n], true).outbox == o.outbox + ReplayEmits(o.pending[..n])
  {
    if n > 0 {
      var entries := o.pending[..n];
      assert entries[..n - 1] == o.pending[..n - 1];
      ReplayResends(o, n - 1);
      var e := entries[n - 1];
      assert e == o.pending[n - 1];
      assert Get(o.pending, e.0) == Some(e.1);
    }
  }

  /** Recording an entry within its retry bound keeps the sending state well formed. */
  lemma QueueKeepsWellFormed(o: Outbound, k: string, p: PendingMessage)
    requires WellFormed(o) && RetriesWithinBound(p)
    ensures WellFormed(o.(pending := Set(o.pending, k, p)))
  {
    var r := Set(o.pending, k, p);
    forall i | 0 <= i < |r| ensures RetriesWithinBound(r[i].1) {
      var key := r[i].0;
      assert Get(r, key) == Some(r[i].1);
      if key != k {
        assert Get(o.pending, key) == Some(r[i].1);
      }
    }
  }

  /** The initial state for a single message sent on a quiet connection. */
  function FreshSend(p: PendingMessage): Outbound {
    Outbound([(p.tempId, p)], map[], map[], 0, [], [])
  }

  /**
   * An unacknowledged send retries after 2, 4 and 6 seconds: the first three
   * timeouts each write back the next count and schedule the next attempt.
   */
  lemma RetryRound(o: Outbound, k: string, m: PendingMessage, t: nat)
    requires DistinctKeys(o.pending) && Get(o.pending, k) == Some(m) && m.tempId == k
    requires t in o.timers && o.timers[t].task == AttemptTimeout(k, m) && m.retryCount < m.maxRetries
    ensures var o1 := FireStep(o, t, true);
      && o.nextTimer in o1.timers
      && o1.timers[o.nextTimer] == Timer(RetryDelay(k), RetryDelayFor(m.retryCount))
      && Get(o1.pending, k) == Some(m.(retryCount := m.retryCount + 1))
      && var o2 := FireStep(o1, o.nextTimer, true);
      && o.nextTimer + 1 in o2.timers
      && o2.timers[o.nextTimer + 1] == Timer(AttemptTimeout(k, m.(retryCount := m.retryCount + 1)), ATTEMPT_TIMEOUT)
      && o2.outbox == o.outbox + [SendMessageEmit(m.receiverId, m.content, k)]
      && Get(o2.pending, k) == Some(m.(retryCount := m.retryCount + 1))
      && o2.nextTimer == o.nextTimer + 2 && DistinctKeys(o2.pending)
  {
    var m1 := m.(retryCount := m.retryCount + 1);
    var cleared := o.(timers := o.timers - {t});
    var o1 := TimeoutStep(cleared, k, m);
    assert FireStep(o, t, true) == o1;
    assert o1.timers == cleared.timers[o.nextTimer := Timer(RetryDelay(k), RetryDelayFor(m.retryCount))];
    assert Get(o1.pending, k) == Some(m1) && o1.nextTimer == o.nextTimer + 1;
    var cleared1 := o1.(timers := o1.timers - {o.nextTimer});
    var o2 := AttemptStep(cleared1, k, true).0;
    assert FireStep(o1, o.nextTimer, true) == o2;
    assert o2.timers == cleared1.timers[o1.nextTimer := Timer(AttemptTimeout(k, m1), ATTEMPT_TIMEOUT)];
  }

  /** At the bound, the timeout drops the entry and its handle. */
  lemma FinalTimeout(o: Outbound, k: string, m: PendingMessage, t: nat)
    requires DistinctKeys(o.pending) && t in o.timers && o.timers[t].task == AttemptTimeout(k, m)
    requires m.retryCount == m.maxRetries
    ensures var r := FireStep(o, t, true);
      Get(r.pending, k) == None && k !in r.timeouts && r.timers == o.timers - {t} && r.outbox == o.outbox
  {
  }

  /** A fresh message that is never acknowledged is retried after 2000, 4000 and 6000 ms. */
  lemma UnacknowledgedSendRetries(p: PendingMessage)
    requires p.retryCount == 0 && p.maxRetries == MAX_RETRIES
    ensures var (a0, _) := AttemptStep(FreshSend(p), p.tempId, true);
      var a1 := FireStep(FireStep(a0, 0, true), 1, true);
      var a2 := FireStep(FireStep(a1, 2, true), 3, true);
      && 0 in a0.timers && a0.timers[0].task == AttemptTimeout(p.tempId, p)
      && 1 in FireStep(a0, 0, true).timers && FireStep(a0, 0, true).timers[1].delay == 2000
      && 3 in FireStep(a1, 2, true).timers && FireStep(a1, 2, true).timers[3].delay == 4000
      && 5 in FireStep(a2, 4, true).timers && FireStep(a2, 4, true).timers[5].delay == 6000
  {
    var k := p.tempId;
    FreshSendEmits(p);
    var a0 := AttemptStep(FreshSend(p), k, true).0;
    SingleRound(a0, k, p, 0);
    var a1 := NextRound(a0, k, p, 0);
    SingleRound(a1, k, p.(retryCount := 1), 2);
    var a2 := NextRound(a1, k, p.(retryCount := 1), 2);
    SingleRound(a2, k, p.(retryCount := 2), 4);
  }

  /** The whole chain for a fresh message with no acknowledgement: four emits, then the entry is gone. */
  lemma UnacknowledgedSendFails(p: PendingMessage)
    requires p.retryCount == 0 && p.maxRetries == MAX_RETRIES
    ensures var (a0, _) := AttemptStep(FreshSend(p), p.tempId, true);
      var a1 := FireStep(FireStep(a0, 0, true), 1, true);
      var a2 := FireStep(FireStep(a1, 2, true), 3, true);
      var a3 := FireStep(FireStep(a2, 4, true), 5, true);
      var done := FireStep(a3, 6, true);
      && |done.outbox| == 4
      && done.pending == [] && p.tempId !in done.timeouts
  {
    var k := p.tempId;
    FreshSendEmits(p);
    var a0 := AttemptStep(FreshSend(p), k, true).0;
    SingleRound(a0, k, p, 0);
    var a1 := NextRound(a0, k, p, 0);
    SingleRound(a1, k, p.(retryCount := 1), 2);
    var a2 := NextRound(a1, k, p.(retryCount := 1), 2);
    SingleRound(a2, k, p.(retryCount := 2), 4);
    var a3 := NextRound(a2, k, p.(retryCount := 2), 4);
    assert |a0.outbox| == 1 && |a3.outbox| == 4;
    assert a3.pending == [(k, p.(retryCount := 3))];
    FinalTimeout(a3, k, p.(retryCount := 3), 6);
  }

  /** The state after a timeout and its retry for the only pending message `(k, m)`, whose timeout is `t`. */
  function NextRound(o: Outbound, k: string, m: PendingMessage, t: nat): Outbound {
    var m1 := m.(retryCount := m.retryCount + 1);
    Outbound([(k, m1)], map[k := t + 2], map[t + 2 := Timer(AttemptTimeout(k, m1), ATTEMPT_TIMEOUT)], t + 3,
             o.listeners + [AckListener(k, t + 2)], o.outbox + [SendMessageEmit(m.receiverId, m.content, k)])
  }

  /** One timeout and its retry for the only pending message. */
  lemma SingleRound(o: Outbound, k: string, m: PendingMessage, t: nat)
    requires m.retryCount < m.maxRetries
    requires o.pending == [(k, m)] && o.timeouts == map[k := t]
    requires o.timers == map[t := Timer(AttemptTimeout(k, m), ATTEMPT_TIMEOUT)] && o.nextTimer == t + 1
    ensures t + 1 in FireStep(o, t, true).timers
    ensures FireStep(o, t, true).timers[t + 1].delay == RetryDelayFor(m.retryCount)
    ensures FireStep(FireStep(o, t, true), t + 1, true) == NextRound(o, k, m, t)
  {
    var m1 := m.(retryCount := m.retryCount + 1);
    var o1 := Outbound([(k, m1)], map[k := t], map[t + 1 := Timer(RetryDelay(k), RetryDelayFor(m.retryCount))], t + 2,
                       o.listeners, o.outbox);
    TimeoutSchedulesRetry(o, k, m, t, o1);
    RetrySends(o1, k, m1, t + 1, RetryDelayFor(m.retryCount), NextRound(o, k, m, t));
  }

  lemma TimeoutSchedulesRetry(o: Outbound, k: string, m: PendingMessage, t: nat, o1: Outbound)
    requires m.retryCount < m.maxRetries
    requires o.pending == [(k, m)] && o.timers == map[t := Timer(AttemptTimeout(k, m), ATTEMPT_TIMEOUT)]
    requires o.nextTimer == t + 1
    requires o1 == o.(pending := [(k, m.(retryCount := m.retryCount + 1))],
                      timers := map[t + 1 := Timer(RetryDelay(k), RetryDelayFor(m.retryCount))], nextTimer := t + 2)
    ensures FireStep(o, t, true) == o1
  {
    assert o.timers - {t} == map[];
    assert Set(o.pending, k, m.(retryCount := m.retryCount + 1)) == [(k, m.(retryCount := m.retryCount + 1))];
  }

  lemma RetrySends(o1: Outbound, k: string, m1: PendingMessage, t: nat, delay: nat, o2: Outbound)
    requires o1.pending == [(k, m1)] && o1.timers == map[t := Timer(RetryDelay(k), delay)]
    requires o1.nextTimer == t + 1 && o1.timeouts.Keys == {k}
    requires o2 == o1.(timeouts := map[k := t + 1], timers := map[t + 1 := Timer(AttemptTimeout(k, m1), ATTEMPT_TIMEOUT)],
                       nextTimer := t + 2, listeners := o1.listeners + [AckListener(k, t + 1)],
                       outbox := o1.outbox + [SendMessageEmit(m1.receiverId, m1.content, k)])
    ensures FireStep(o1, t, true) == o2
  {
    assert o1.timers - {t} == map[];
    assert Get(o1.pending, k) == Some(m1);
    assert o1.timeouts[k := t + 1] == map[k := t + 1];
  }


  // ---------------------------------------------------------------- disconnect

  /**
   * `disconnect()` as written: the timeouts whose handles are recorded are
   * cleared and both maps emptied; the listeners go with the socket. Timeouts
   * of earlier attempts whose handle was overwritten, and scheduled retries,
   * stay armed.
   */
  function DisconnectStepAsWritten(o: Outbound, hadSocket: bool): (r: Outbound)
    ensures r.pending == [] && r.timeouts == map[]
    ensures forall t :: t in r.timers <==> t in o.timers && t !in o.timeouts.Values
    ensures hadSocket ==> r.listeners == []
    ensures WellFormed(o) ==> WellFormed(r)
  {
    o.(timers := ClearTimers(o.timers, o.timeouts.Values),
       timeouts := map[], pending := [],
       listeners := if hadSocket then [] else o.listeners)
  }

  /** `disconnect()` with every send-related timer cleared, which is what emptying the pending messages needs. */
  function DisconnectStep(o: Outbound, hadSocket: bool): (r: Outbound)
    ensures r.pending == [] && r.timeouts == map[]
    ensures forall t :: t in r.timers <==> t in o.timers && o.timers[t].task.ReconnectTimer?
    ensures hadSocket ==> r.listeners == []
    ensures WellFormed(o) ==> WellFormed(r)
  {
    o.(timers := ReconnectTimersOnly(o.timers),
       timeouts := map[], pending := [],
       listeners := if hadSocket then [] else o.listeners)
  }

  /** Timers firing one after another. */
  function FireAll(o: Outbound, ts: seq<nat>, connected: bool): (r: Outbound)
    requires WellFormed(o)
    ensures WellFormed(r)
    decreases |ts|
  {
    if ts == [] then o else FireAll(FireStep(o, ts[0], connected), ts[1..], connected)
  }

  /**
   * A message re-sent on reconnection has two live timeouts; `disconnect()`
   * clears only the recorded one, and when the other fires the message returns
   * to the emptied pending map, to be sent again on the next connection.
   */
  lemma StaleTimeoutRevivesPending(p: PendingMessage)
    requires p.retryCount == 0 && p.maxRetries == MAX_RETRIES
    ensures var (sent, _) := AttemptStep(FreshSend(p), p.tempId, true);
      var replayed := ReplayAll(sent, sent.pending, true);
      var closed := DisconnectStepAsWritten(replayed, true);
      var revived := FireStep(FireStep(closed, 0, false), 2, false);
      && closed.pending == []
      && revived.pending == [(p.tempId, p.(retryCount := 1))]
      && ReplayAll(revived, revived.pending, true).outbox
           == revived.outbox + [SendMessageEmit(p.receiverId, p.content, p.tempId)]
  {
    var k := p.tempId;
    var emit := SendMessageEmit(p.receiverId, p.content, k);
    var first := Timer(AttemptTimeout(k, p), ATTEMPT_TIMEOUT);
    var sent := Outbound([(k, p)], map[k := 0], map[0 := first], 1, [AckListener(k, 0)], [emit]);
    FreshSendEmits(p);
    var replayed := Outbound([(k, p)], map[k := 1], map[0 := first, 1 := first], 2,
                             [AckListener(k, 0), AckListener(k, 1)], [emit, emit]);
    ReplayOfSingle(sent, replayed, k, p);
    var closed := Outbound([], map[], map[0 := first], 2, [], [emit, emit]);
    StaleTimerSurvives(replayed, closed, first);
    var retry := Outbound([(k, p.(retryCount := 1))], map[], map[2 := Timer(RetryDelay(k), RetryDelayFor(0))], 3,
                          [], [emit, emit]);
    StaleTimeoutFires(closed, k, p, retry);
    var revived := retry.(timers := map[], timeouts := map[k := 3], nextTimer := 4);
    RetryWhileOffline(retry, k, p.(retryCount := 1), revived);
    RevivedResent(revived, k, p.(retryCount := 1));
  }

  lemma RetryWhileOffline(retry: Outbound, k: string, q: PendingMessage, revived: Outbound)
    requires retry.pending == [(k, q)] && retry.timers == map[2 := Timer(RetryDelay(k), RetryDelayFor(0))]
    requires retry.nextTimer == 3 && retry.timeouts == map[]
    requires revived == retry.(timers := map[], timeouts := map[k := 3], nextTimer := 4)
    ensures FireStep(retry, 2, false) == revived
  {
    assert Get(retry.pending, k) == Some(q);
    assert retry.timers - {2} == map[];
  }

  lemma RevivedResent(revived: Outbound, k: string, q: PendingMessage)
    requires revived.pending == [(k, q)] && Replayable((k, q))
    ensures ReplayAll(revived, revived.pending, true).outbox == revived.outbox + [SendMessageEmit(q.receiverId, q.content, k)]
  {
    ReplayResends(revived, 1);
    assert revived.pending[..1] == revived.pending;
    assert revived.pending[..0] == [];
  }

  lemma FreshSendEmits(p: PendingMessage)
    ensures AttemptStep(FreshSend(p), p.tempId, true) ==
      (Outbound([(p.tempId, p)], map[p.tempId := 0], map[0 := Timer(AttemptTimeout(p.tempId, p), ATTEMPT_TIMEOUT)], 1,
                [AckListener(p.tempId, 0)], [SendMessageEmit(p.receiverId, p.content, p.tempId)]), Emitted)
  {
    var o := FreshSend(p);
    assert Get(o.pending, p.tempId) == Some(p);
    var r := AttemptStep(o, p.tempId, true);
    assert r.1 == Emitted;
    assert r.0.listeners == [AckListener(p.tempId, 0)];
    assert r.0.outbox == [SendMessageEmit(p.receiverId, p.content, p.tempId)];
  }

  lemma ReplayOfSingle(sent: Outbound, replayed: Outbound, k: string, p: PendingMessage)
    requires sent.pending == [(k, p)] && Replayable((k, p))
    requires replayed == sent.(timeouts := sent.timeouts[k := sent.nextTimer], nextTimer := sent.nextTimer + 1,
                               timers := sent.timers[sent.nextTimer := Timer(AttemptTimeout(k, p), ATTEMPT_TIMEOUT)],
                               listeners := sent.listeners + [AckListener(k, sent.nextTimer)],
                               outbox := sent.outbox + [SendMessageEmit(p.receiverId, p.content, k)])
    ensures ReplayAll(sent, sent.pending, true) == replayed
  {
    ReplayOne(sent, (k, p), true);
    assert Get(sent.pending, k) == Some(p);
    var (r, outcome) := AttemptStep(sent, k, true);
    assert outcome == Emitted;
    assert r == replayed;
  }

  lemma StaleTimerSurvives(replayed: Outbound, closed: Outbound, first: Timer)
    requires |replayed.pending| == 1 && replayed.timeouts == map[replayed.pending[0].0 := 1]
    requires replayed.timers == map[0 := first, 1 := first]
    requires closed == Outbound([], map[], map[0 := first], replayed.nextTimer, [], replayed.outbox)
    ensures DisconnectStepAsWritten(replayed, true) == closed
  {
    assert replayed.timeouts.Values == {1} by {
      assert replayed.timeouts[replayed.pending[0].0] == 1;
    }
    assert DisconnectStepAsWritten(replayed, true).timers == closed.timers;
  }

  lemma StaleTimeoutFires(closed: Outbound, k: string, p: PendingMessage, retry: Outbound)
    requires closed.pending == [] && closed.timers == map[0 := Timer(AttemptTimeout(k, p), ATTEMPT_TIMEOUT)]
    requires p.retryCount == 0 && p.maxRetries == MAX_RETRIES
    requires retry == closed.(pending := [(k, p.(retryCount := 1))],
                              timers := map[closed.nextTimer := Timer(RetryDelay(k), RetryDelayFor(0))],
                              nextTimer := closed.nextTimer + 1)
    ensures FireStep(closed, 0, false) == retry
  {
    assert closed.timers - {0} == map[];
  }

  /** No timer that can send or revive a message. */
  ghost predicate Quiet(o: Outbound) {
    o.pending == [] && forall t :: t in o.timers ==> o.timers[t].task.ReconnectTimer?
  }

  lemma {:induction false} QuietStays(o: Outbound, ts: seq<nat>, connected: bool)
    requires WellFormed(o) && Quiet(o)
    ensures Quiet(FireAll(o, ts, connected))
    decreases |ts|
  {
    if ts != [] {
      QuietStays(FireStep(o, ts[0], connected), ts[1..], connected);
    }
  }

  /** After the corrected `disconnect()`, nothing brings a message back, whatever timers fire. */
  lemma QuietAfterDisconnect(o: Outbound, hadSocket: bool, ts: seq<nat>, connected: bool)
    requires WellFormed(o)
    ensures FireAll(DisconnectStep(o, hadSocket), ts, connected).pending == []
  {
    QuietStays(DisconnectStep(o, hadSocket), ts, connected);
  }

  // ---------------------------------------------------------------- presence

  /** The entry `userOnline` hands to `addOnlineUser` as written: the payload `{userId, username}` has no `id`. */
  function OnlineEntryAsWritten(userId: string, username: string): (u: OnlineUser)
    ensures u.id.None? && u.userId == Some(userId)
  {
    OnlineUser(None, Some(userId), Some(username), None)
  }

  /** The entry keyed the way the online list is keyed: by `id`. */
  function OnlineEntry(userId: string, username: string): (u: OnlineUser)
    ensures u.id == Some(userId) && u.userId == Some(userId) && u.username == Some(username)
  {
    OnlineUser(Some(userId), Some(userId), Some(username), None)
  }

  /**
   * As written, a second user coming online is never listed (an entry without
   * `id` is already there), and the first one going offline stays listed.
   */
  lemma SecondOnlineUserIgnored(a: string, b: string, na: string, nb: string)
    ensures var users := AddOnlineUser(AddOnlineUser([], OnlineEntryAsWritten(a, na)), OnlineEntryAsWritten(b, nb));
      && users == [OnlineEntryAsWritten(a, na)]
      && RemoveOnlineUser(users, Some(a)) == users
  {
    var users := [OnlineEntryAsWritten(a, na)];
    assert AddOnlineUser([], OnlineEntryAsWritten(a, na)) == users;
    assert users[0].id == OnlineEntryAsWritten(b, nb).id;
    FilterAll(users, OtherId(Some(a)));
  }

  lemma FilterAll(users: seq<OnlineUser>, p: OnlineUser -> bool)
    requires forall i :: 0 <= i < |users| ==> p(users[i])
    ensures Filter(users, p) == users
  {
  }

  /** With entries keyed by `id`, both users are listed and going offline removes exactly that user. */
  lemma OnlineUsersTracked(users: seq<OnlineUser>, a: string, b: string, na: string, nb: string)
    requires a != b
    requires forall i :: 0 <= i < |users| ==> users[i].id != Some(a) && users[i].id != Some(b)
    ensures var listed := AddOnlineUser(AddOnlineUser(users, OnlineEntry(a, na)), OnlineEntry(b, nb));
      && listed == users + [OnlineEntry(a, na), OnlineEntry(b, nb)]
      && forall u :: u in RemoveOnlineUser(listed, Some(a)) <==> u in users + [OnlineEntry(b, nb)]
  {
    var first := AddOnlineUser(users, OnlineEntry(a, na));
    assert first == users + [OnlineEntry(a, na)];
    assert forall i :: 0 <= i < |first| ==> first[i].id != Some(b);
    var listed := first + [OnlineEntry(b, nb)];
    assert listed == users + [OnlineEntry(a, na), OnlineEntry(b, nb)];
    forall u ensures u in RemoveOnlineUser(listed, Some(a)) <==> u in users + [OnlineEntry(b, nb)] {
      if u in users {
        var i :| 0 <= i < |users| && users[i] == u;
      }
    }
  }

  // ---------------------------------------------------------------- the service

  datatype SocketState = NoSocket | Live(connected: bool)

  /** A `newMessage` push as the client reads it. */
  datatype IncomingMessage = IncomingMessage(
    messageId: Option<string>, senderId: Option<string>, senderUsername: Option<string>,
    content: string, timestamp: int, messageHash: Option<string>, signature: Option<string>,
    senderPublicKey: Option<string>)

  /** A `messageSent` acknowledgement. */
  datatype Ack = Ack(tempId: string, messageId: string, receiverId: string, timestamp: int)

  datatype SendResult = NoConversation | Attempted(outcome: AttemptOutcome)

  /** The log entry for a verified incoming message. */
  function ReceivedEntry(m: IncomingMessage): (e: ChatMessage)
    ensures e.kind == Some(Received) && e.status == Some(Delivered) && e.verified == Some(true)
    ensures e.id == m.messageId && e.senderId == m.senderId && e.content == Some(m.content) && e.tempId.None?
  {
    ChatMessage(m.messageId, None, m.senderId, m.senderUsername, Some(m.content), m.timestamp,
      Some(Received), Some(Delivered), Some(true), None)
  }

  /** The log entry shown while a message is being sent. */
  function SendingEntry(tempId: string, content: string, senderId: Option<string>, now: int): (e: ChatMessage)
    ensures e.tempId == Some(tempId) && e.id.None? && e.kind == Some(Sending) && e.status == Some(Pending)
  {
    ChatMessage(None, Some(tempId), senderId, None, Some(content), now, Some(Sending), Some(Pending), None, None)
  }

  function DeliveredPatch(ack: Ack): Patch {
    Patch(Some(ack.messageId), Some(Sent), Some(ack.timestamp), Some(Delivered), None)
  }

  function FailedPatch(): Patch {
    Patch(None, Some(FailedKind), None, Some(Failed), Some(FAILURE_TEXT))
  }

  /** `handleReconnection` on the service state: the step, and its timer when it arms one. */
  function ArmReconnect(o: Outbound, r: Reconnect): (res: (Outbound, Reconnect))
    ensures res.1 == ReconnectStep(r).0
    ensures ReconnectStep(r).1.None? ==> res.0 == o
    ensures ReconnectStep(r).1.Some? ==>
      res.0 == o.(timers := o.timers[o.nextTimer := Timer(ReconnectTimer, ReconnectStep(r).1.value)], nextTimer := o.nextTimer + 1)
    ensures WellFormed(o) ==> WellFormed(res.0)
  {
    var (r1, delay) := ReconnectStep(r);
    if delay.Some? then
      (o.(timers := o.timers[o.nextTimer := Timer(ReconnectTimer, delay.value)], nextTimer := o.nextTimer + 1), r1)
    else (o, r1)
  }

  class Service {
    var socket: SocketState
    var reconnectAttempts: nat
    var isReconnecting: bool
    /** `pendingMessages`, by temporary id, in insertion order. */
    var pendingMessages: Assoc<string, PendingMessage>
    /** `messageTimeouts`: the handle of the latest attempt's timeout for each temporary id. */
    var messageTimeouts: map<string, nat>
    var timers: map<nat, Timer>
    var nextTimer: nat
    var listeners: seq<AckListener>
    var outbox: seq<ClientEmit>
    /** The signed-in user's id, as the authentication store holds it. */
    var currentUserId: Option<string>
    const store: ChatStore

    function Outgoing(): Outbound
      reads this
    {
      Outbound(pendingMessages, messageTimeouts, timers, nextTimer, listeners, outbox)
    }

    function ReconnectState(): Reconnect
      reads this
    {
      Reconnect(reconnectAttempts, isReconnecting)
    }

    /** `this.socket?.connected` */
    predicate Connected()
      reads this
    {
      socket.Live? && socket.connected
    }

    ghost predicate Valid()
      reads this, store
    {
      WellFormed(Outgoing()) && reconnectAttempts <= MAX_RECONNECT_ATTEMPTS && store.Valid()
    }

    constructor (store: ChatStore, currentUserId: Option<string>)
      requires store.Valid()
      ensures Valid()
      ensures this.store == store && this.currentUserId == currentUserId
      ensures socket == NoSocket && reconnectAttempts == 0 && !isReconnecting
      ensures Outgoing() == Outbound([], map[], map[], 0, [], [])
    {
      this.store := store;
      this.currentUserId := currentUserId;
      socket := NoSocket;
      reconnectAttempts := 0;
      isReconnecting := false;
      pendingMessages := [];
      messageTimeouts := map[];
      timers := map[];
      nextTimer := 0;
      listeners := [];
      outbox := [];
    }

    /** `attemptSendMessage(tempId)` */
    method AttemptSendMessage(tempId: string) returns (outcome: AttemptOutcome)
      requires Valid()
      modifies this`messageTimeouts, this`timers, this`nextTimer, this`listeners, this`outbox
      ensures Valid()
      ensures (Outgoing(), outcome) == AttemptStep(old(Outgoing()), tempId, Connected())
    {
      var connected := Connected();
      var entry := Get(pendingMessages, tempId);
      if entry.None? {
        return NotFound;
      }
      var messageData := entry.value;
      var timeout := nextTimer;
      nextTimer := nextTimer + 1;
      timers := timers[timeout := Timer(AttemptTimeout(tempId, messageData), ATTEMPT_TIMEOUT)];
      messageTimeouts := messageTimeouts[tempId := timeout];
      if !connected {
        timers := timers - {timeout};
        assert timers == old(timers);
        return NotConnected;
      }
      outbox := outbox + [SendMessageEmit(messageData.receiverId, messageData.content, tempId)];
      listeners := listeners + [AckListener(tempId, timeout)];
      return Emitted;
    }

    /** `retryPendingMessages()`: every entry under its retry bound is attempted again, in map order. */
    method RetryPendingMessages()
      requires Valid()
      modifies this`messageTimeouts, this`timers, this`nextTimer, this`listeners, this`outbox
      ensures Valid()
      ensures Outgoing() == ReplayAll(old(Outgoing()), old(pendingMessages), Connected())
    {
      var entries := pendingMessages;
      for i := 0 to |entries|
        invariant Valid()
        invariant Outgoing() == ReplayAll(old(Outgoing()), entries[..i], Connected())
      {
        ReplayAllNext(old(Outgoing()), entries, i, Connected());
        if entries[i].1.retryCount < entries[i].1.maxRetries {
          var outcome := AttemptSendMessage(entries[i].0);
        }
      }
      assert entries[..|entries|] == entries;
    }

    /** `handleReconnection()` */
    method HandleReconnection()
      requires Valid()
      modifies this`reconnectAttempts, this`isReconnecting, this`timers, this`nextTimer
      ensures Valid()
      ensures (Outgoing(), ReconnectState()) == ArmReconnect(old(Outgoing()), old(ReconnectState()))
    {
      if isReconnecting || reconnectAttempts >= MAX_RECONNECT_ATTEMPTS {
        return;
      }
      isReconnecting := true;
      reconnectAttempts := reconnectAttempts + 1;
      var delay := ReconnectDelay(reconnectAttempts);
      timers := timers[nextTimer := Timer(ReconnectTimer, delay)];
      nextTimer := nextTimer + 1;
    }

    /** The `connect` event: counters reset, the store told, pending messages replayed. */
    method OnConnect()
      requires Valid()
      modifies this`socket, this`reconnectAttempts, this`isReconnecting, this`messageTimeouts, this`timers,
               this`nextTimer, this`listeners, this`outbox, store`isConnected
      ensures Valid()
      ensures socket == Live(true) && reconnectAttempts == 0 && !isReconnecting && store.isConnected
      ensures Outgoing() == ReplayAll(old(Outgoing()), old(pendingMessages), true)
      ensures Outgoing().outbox == old(outbox) + ReplayEmits(old(pendingMessages))
    {
      reconnectAttempts := 0;
      isReconnecting := false;
      socket := Live(true);
      store.SetConnectionStatus(true);
      RetryPendingMessages();
      ReplayResends(old(Outgoing()), |old(pendingMessages)|);
      assert old(pendingMessages)[..|old(pendingMessages)|] == old(pendingMessages);
    }

    /** The `disconnect` event: only a server-side disconnect starts the service's own reconnection. */
    method OnDisconnect(reason: string)
      requires Valid()
      modifies this`socket, this`reconnectAttempts, this`isReconnecting, this`timers, this`nextTimer, store`isConnected
      ensures Valid()
      ensures !store.isConnected
      ensures socket == if old(socket).Live? then Live(false) else old(socket)
      ensures reason == "io server disconnect" ==>
        (Outgoing(), ReconnectState()) == ArmReconnect(old(Outgoing()), old(ReconnectState()))
      ensures reason != "io server disconnect" ==> Outgoing() == old(Outgoing()) && ReconnectState() == old(ReconnectState())
    {
      if socket.Live? {
        socket := Live(false);
      }
      store.SetConnectionStatus(false);
      if reason == "io server disconnect" {
        HandleReconnection();
      }
    }

    /** The `connect_error` event. */
    method OnConnectError()
      requires Valid()
      modifies this`reconnectAttempts, this`isReconnecting, this`timers, this`nextTimer
      ensures Valid()
      ensures (Outgoing(), ReconnectState()) == ArmReconnect(old(Outgoing()), old(ReconnectState()))
    {
      HandleReconnection();
    }

    /**
     * A live timer firing. A reconnection timer asks a disconnected socket to
     * connect and clears the flag; an attempt timeout and a retry delay run the
     * sending steps, and a final timeout marks the message failed in the store.
     */
    method FireTimer(t: nat)
      requires Valid()
      modifies this`pendingMessages, this`messageTimeouts, this`timers, this`nextTimer, this`listeners,
               this`outbox, this`isReconnecting, store`messages
      ensures Valid()
      ensures t !in old(timers) ==>
        Outgoing() == old(Outgoing()) && isReconnecting == old(isReconnecting) && store.messages == old(store.messages)
      ensures t in old(timers) && old(timers[t]).task.ReconnectTimer? ==>
        && Outgoing() == old(Outgoing()).(timers := old(timers) - {t},
             outbox := old(outbox) + if socket == Live(false) then [ConnectRequest] else [])
        && !isReconnecting && store.messages == old(store.messages)
      ensures t in old(timers) && !old(timers[t]).task.ReconnectTimer? ==>
        Outgoing() == FireStep(old(Outgoing()), t, Connected()) && isReconnecting == old(isReconnecting)
      ensures t in old(timers) && old(timers[t]).task.RetryDelay? ==> store.messages == old(store.messages)
      ensures t in old(timers) && old(timers[t]).task.AttemptTimeout? ==>
        var m := old(timers[t]).task.attempt;
        store.messages == if m.retryCount < m.maxRetries then old(store.messages)
          else UpdatedMessages(old(store.messages), m.conversationId, Some(old(timers[t]).task.tempId), FailedPatch())
    {
      if t !in timers {
        return;
      }
      var task := timers[t].task;
      ghost var o := Outgoing();
      timers := timers - {t};
      assert Outgoing() == o.(timers := o.timers - {t});
      assert Valid();
      match task {
        case ReconnectTimer =>
          if socket == Live(false) {
            outbox := outbox + [ConnectRequest];
          }
          isReconnecting := false;
        case RetryDelay(tempId) =>
          var outcome := AttemptSendMessage(tempId);
          assert Outgoing() == FireStep(o, t, Connected());
        case AttemptTimeout(tempId, messageData) =>
          assert RetriesWithinBound(messageData);
          OnAttemptTimeout(tempId, messageData);
          assert Outgoing() == FireStep(o, t, Connected());
      }
    }

    /** The body of an attempt's timeout: retry later while under the bound, otherwise give up and mark it failed. */
    method OnAttemptTimeout(tempId: string, messageData: PendingMessage)
      requires Valid() && RetriesWithinBound(messageData)
      modifies this`pendingMessages, this`messageTimeouts, this`timers, this`nextTimer, store`messages
      ensures Valid()
      ensures Outgoing() == TimeoutStep(old(Outgoing()), tempId, messageData)
      ensures store.messages == if messageData.retryCount < messageData.maxRetries then old(store.messages)
        else UpdatedMessages(old(store.messages), messageData.conversationId, Some(tempId), FailedPatch())
    {
      if messageData.retryCount < messageData.maxRetries {
        ScheduleRetry(tempId, messageData);
      } else {
        GiveUp(tempId, messageData);
      }
    }

    /** An attempt under the bound timed out: count it and arm the retry timer. */
    method ScheduleRetry(tempId: string, messageData: PendingMessage)
      requires Valid() && RetriesWithinBound(messageData) && messageData.retryCount < messageData.maxRetries
      modifies this`pendingMessages, this`timers, this`nextTimer
      ensures Valid()
      ensures Outgoing() == TimeoutStep(old(Outgoing()), tempId, messageData)
    {
      ghost var expected := TimeoutStep(Outgoing(), tempId, messageData);
      assert WellFormed(expected);
      pendingMessages := Set(pendingMessages, tempId, messageData.(retryCount := messageData.retryCount + 1));
      var retry := nextTimer;
      nextTimer := nextTimer + 1;
      timers := timers[retry := Timer(RetryDelay(tempId), RetryDelayFor(messageData.retryCount))];
      assert Outgoing() == expected;
    }

    /** The last attempt timed out: drop the entry and its timeout, and mark the message failed. */
    method GiveUp(tempId: string, messageData: PendingMessage)
      requires Valid() && RetriesWithinBound(messageData) && messageData.retryCount >= messageData.maxRetries
      modifies this`pendingMessages, this`messageTimeouts, store`messages
      ensures Valid()
      ensures Outgoing() == TimeoutStep(old(Outgoing()), tempId, messageData)
      ensures store.messages == UpdatedMessages(old(store.messages), messageData.conversationId, Some(tempId), FailedPatch())
    {
      ghost var expected := TimeoutStep(Outgoing(), tempId, messageData);
      assert WellFormed(expected);
      pendingMessages := Delete(pendingMessages, tempId);
      messageTimeouts := messageTimeouts - {tempId};
      assert Outgoing() == expected;
      store.UpdateMessage(messageData.conversationId, Some(tempId), FailedPatch());
      assert Outgoing() == expected && store.typingUsers == old(store.typingUsers);
    }

    /** The `messageSent` event: the service's handler and the attempt listeners for that id. */
    method OnMessageSent(ack: Ack)
      requires Valid()
      modifies this`pendingMessages, this`messageTimeouts, this`timers, this`listeners, store`messages
      ensures Valid()
      ensures Outgoing() == AckStep(old(Outgoing()), ack.tempId)
      ensures var cid := ConversationId(currentUserId, Some(ack.receiverId));
        store.messages == if cid.Some? then UpdatedMessages(old(store.messages), cid.value, Some(ack.tempId), DeliveredPatch(ack))
          else old(store.messages)
    {
      ClearAcknowledged(ack.tempId);
      var conversationId := ConversationId(currentUserId, Some(ack.receiverId));
      if conversationId.Some? {
        store.UpdateMessage(conversationId.value, Some(ack.tempId), DeliveredPatch(ack));
      }
    }

    /** What every handler of an acknowledgement for `tempId` clears. */
    method ClearAcknowledged(tempId: string)
      requires Valid()
      modifies this`pendingMessages, this`messageTimeouts, this`timers, this`listeners
      ensures Valid()
      ensures Outgoing() == AckStep(old(Outgoing()), tempId)
    {
      var cancelled := AckCancelled(Outgoing(), tempId);
      timers := ClearTimers(timers, cancelled);
      messageTimeouts := messageTimeouts - {tempId};
      pendingMessages := Delete(pendingMessages, tempId);
      listeners := ListenersExcept(listeners, tempId);
    }

    /**
     * The `newMessage` event: a message failing the integrity gate, or from a
     * sender no conversation id can be formed with, is dropped; otherwise it is
     * logged as received and counted unread unless its sender is selected.
     */
    method OnNewMessage(sha256: string -> string, m: IncomingMessage)
      requires Valid()
      modifies store`messages, store`unreadCounts
      ensures Valid()
      ensures var accepted := VerifyMessageIntegrity(sha256, m.content, m.messageHash, m.signature, m.senderPublicKey);
        var cid := ConversationId(currentUserId, m.senderId);
        && (!accepted || cid.None? ==> store.messages == old(store.messages) && store.unreadCounts == old(store.unreadCounts))
        && (accepted && cid.Some? ==>
             && store.messages == AddedMessages(old(store.messages), cid.value, ReceivedEntry(m))
             && store.unreadCounts == if store.selectedUser == m.senderId then old(store.unreadCounts)
                  else IncrementUnread(old(store.unreadCounts), m.senderId.value))
    {
      var isValid := VerifyMessageIntegrity(sha256, m.content, m.messageHash, m.signature, m.senderPublicKey);
      if !isValid {
        return;
      }
      var conversationId := ConversationId(currentUserId, m.senderId);
      if conversationId.None? {
        return;
      }
      ghost var o := Outgoing();
      store.AddMessage(conversationId.value, ReceivedEntry(m));
      if store.selectedUser != m.senderId {
        store.IncrementUnreadCount(m.senderId.value);
      }
      assert Outgoing() == o && store.typingUsers == old(store.typingUsers);
    }

    /**
     * `sendMessage(receiverId, content)` with its generated temporary id and
     * clock: no conversation id, no effect; otherwise the message is logged as
     * sending, recorded as pending with no retries, and attempted.
     */
    method SendMessage(receiverId: Option<string>, content: string, tempId: string, now: int) returns (result: SendResult)
      requires Valid()
      modifies this`pendingMessages, this`messageTimeouts, this`timers, this`nextTimer, this`listeners, this`outbox,
               store`messages
      ensures Valid()
      ensures var cid := ConversationId(currentUserId, receiverId);
        && (cid.None? ==> result == NoConversation && Outgoing() == old(Outgoing()) && store.messages == old(store.messages))
        && (cid.Some? ==>
             && store.messages == AddedMessages(old(store.messages), cid.value, SendingEntry(tempId, content, currentUserId, now))
             && result.Attempted?
             && (Outgoing(), result.outcome) == AttemptStep(old(Outgoing()).(pending :=
                  Set(old(pendingMessages), tempId, PendingMessage(receiverId.value, content, tempId, cid.value, 0, MAX_RETRIES))),
                  tempId, Connected()))
    {
      var conversationId := ConversationId(currentUserId, receiverId);
      if conversationId.None? {
        return NoConversation;
      }
      store.AddMessage(conversationId.value, SendingEntry(tempId, content, currentUserId, now));
      var outcome := QueueAndAttempt(PendingMessage(receiverId.value, content, tempId, conversationId.value, 0, MAX_RETRIES));
      return Attempted(outcome);
    }

    /** The descriptor is recorded under its temporary id, then the first attempt is made. */
    method QueueAndAttempt(queued: PendingMessage) returns (outcome: AttemptOutcome)
      requires Valid() && RetriesWithinBound(queued)
      modifies this`pendingMessages, this`messageTimeouts, this`timers, this`nextTimer, this`listeners, this`outbox
      ensures Valid()
      ensures (Outgoing(), outcome) ==
        AttemptStep(old(Outgoing()).(pending := Set(old(pendingMessages), queued.tempId, queued)), queued.tempId, Connected())
    {
      QueueKeepsWellFormed(Outgoing(), queued.tempId, queued);
      pendingMessages := Set(pendingMessages, queued.tempId, queued);
      outcome := AttemptSendMessage(queued.tempId);
    }

    /** `startTyping(receiverId)`: emitted only on a live connection. */
    method StartTyping(receiverId: string)
      modifies this`outbox
      ensures outbox == old(outbox) + if Connected() then [TypingEmit(receiverId)] else []
    {
      if Connected() {
        outbox := outbox + [TypingEmit(receiverId)];
      }
    }

    /** `stopTyping(receiverId)` */
    method StopTyping(receiverId: string)
      modifies this`outbox
      ensures outbox == old(outbox) + if Connected() then [StopTypingEmit(receiverId)] else []
    {
      if Connected() {
        outbox := outbox + [StopTypingEmit(receiverId)];
      }
    }

    method OnUserTyping(userId: Option<string>, username: Option<string>)
      requires Valid()
      modifies store`typingUsers
      ensures Valid()
      ensures store.typingUsers == SetTyping(old(store.typingUsers), userId, username)
    {
      store.SetTypingEntry(userId, username);
    }

    method OnUserStoppedTyping(userId: Option<string>)
      requires Valid()
      modifies store`typingUsers
      ensures Valid()
      ensures store.typingUsers == RemoveTyping(old(store.typingUsers), userId)
    {
      store.RemoveTypingEntry(userId);
    }

    method OnOnlineUsers(users: seq<OnlineUser>)
      requires Valid()
      modifies store`onlineUsers
      ensures Valid()
      ensures store.onlineUsers == users
    {
      store.SetOnlineUsers(users);
    }

    /** The `userOnline` event: the payload `{userId, username}` is added to the online list as it is. */
    method OnUserOnline(userId: string, username: string)
      requires Valid()
      modifies store`onlineUsers
      ensures Valid()
      ensures store.onlineUsers == AddOnlineUser(old(store.onlineUsers), OnlineEntryAsWritten(userId, username))
    {
      store.AddOnlineUserEntry(OnlineEntryAsWritten(userId, username));
    }

    method OnUserOffline(userId: string)
      requires Valid()
      modifies store`onlineUsers
      ensures Valid()
      ensures store.onlineUsers == RemoveOnlineUser(old(store.onlineUsers), Some(userId))
    {
      store.RemoveOnlineUserEntry(Some(userId));
    }

    /**
     * `disconnect()`: the timeouts recorded in `messageTimeouts` are cleared, both
     * maps emptied, and a live socket loses its listeners and is dropped.
     */
    method Disconnect()
      requires Valid()
      modifies this`socket, this`pendingMessages, this`messageTimeouts, this`timers, this`listeners, store`isConnected
      ensures Valid()
      ensures Outgoing() == DisconnectStepAsWritten(old(Outgoing()), old(socket).Live?)
      ensures socket == NoSocket
      ensures store.isConnected == if old(socket).Live? then false else old(store.isConnected)
    {
      timers := ClearTimers(timers, messageTimeouts.Values);
      messageTimeouts := map[];
      pendingMessages := [];
      if socket.Live? {
        listeners := [];
        socket := NoSocket;
        store.SetConnectionStatus(false);
      }
    }
  }
}
