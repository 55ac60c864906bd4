/**
 * The typing hook (`client/src/hooks/useTyping.js`): a flag that gates the
 * `startTyping`/`stopTyping` emits for one conversation partner, and a single
 * stop timer that a new keystroke re-arms.
 */
module UseTyping {
  import opened Wrappers

  /** Delay of the automatic stop after the last keystroke, in milliseconds. */
  const STOP_DELAY: nat := 1000

  datatype Signal = StartTyping(receiverId: string) | StopTyping(receiverId: string)

  /** JavaScript truthiness of the `receiverId` argument. */
  predicate Truthy(receiverId: Option<string>) {
    receiverId.Some? && receiverId.value != ""
  }

  /**
   * The hook's refs and what it has emitted: `isTypingRef.current`,
   * `typingTimeoutRef.current` (a timer handle or `null`), the live timers by
   * handle with their delays, and the next handle the browser gives out
   * (handles are positive, so a live one is truthy).
   */
  datatype Typing = Typing(isTyping: bool, timeout: Option<nat>, pending: map<nat, nat>, nextTimer: nat,
                           emitted: seq<Signal>)

  function Initial(): Typing {
    Typing(false, None, map[], 1, [])
  }

  /** `clearTimeout(typingTimeoutRef.current)` when the ref holds a handle. */
  function ClearPending(s: Typing): map<nat, nat> {
    if s.timeout.Some? then s.pending - {s.timeout.value} else s.pending
  }

  /** `handleStartTyping()` */
  function StartStep(s: Typing, receiverId: Option<string>): (r: Typing)
    ensures r.isTyping == (s.isTyping || Truthy(receiverId))
    ensures r.emitted == s.emitted + if !s.isTyping && Truthy(receiverId) then [StartTyping(receiverId.value)] else []
    ensures r.timeout == Some(s.nextTimer) && r.nextTimer == s.nextTimer + 1
    ensures r.pending == ClearPending(s)[s.nextTimer := STOP_DELAY]
  {
    var emit := !s.isTyping && Truthy(receiverId);
    var cleared := ClearPending(s);
    Typing(s.isTyping || emit, Some(s.nextTimer), cleared[s.nextTimer := STOP_DELAY], s.nextTimer + 1,
      if emit then s.emitted + [StartTyping(receiverId.value)] else s.emitted)
  }

  /** `handleStopTyping()` */
  function StopStep(s: Typing, receiverId: Option<string>): (r: Typing)
    ensures r.isTyping == (s.isTyping && !Truthy(receiverId))
    ensures r.emitted == s.emitted + if s.isTyping && Truthy(receiverId) then [StopTyping(receiverId.value)] else []
    ensures r.timeout.None? && r.pending == ClearPending(s) && r.nextTimer == s.nextTimer
  {
    var emit := s.isTyping && Truthy(receiverId);
    Typing(s.isTyping && !emit, None, ClearPending(s), s.nextTimer,
      if emit then s.emitted + [StopTyping(receiverId.value)] else s.emitted)
  }

  /** The browser running the live timer `t`: its callback is `handleStopTyping()`. */
  function FireStep(s: Typing, t: nat, receiverId: Option<string>): (r: Typing)
    ensures t !in s.pending ==> r == s
    ensures t in s.pending ==> r == StopStep(s.(pending := s.pending - {t}), receiverId)
  {
    if t !in s.pending then s else StopStep(s.(pending := s.pending - {t}), receiverId)
  }

  datatype Event = Start | Stop | Fire(timer: nat)

  function Step(s: Typing, e: Event, receiverId: Option<string>): Typing {
    match e
    case Start => StartStep(s, receiverId)
    case Stop => StopStep(s, receiverId)
    case Fire(t) => FireStep(s, t, receiverId)
  }

  /** The state after `events`, in order, from `s`. */
  function Run(s: Typing, events: seq<Event>, receiverId: Option<string>): Typing
    decreases |events|
  {
    if events == [] then s else Step(Run(s, events[..|events| - 1], receiverId), events[|events| - 1], receiverId)
  }

  /** Emits alternate between start and stop, starting with start; a falsy receiver gets none. */
  predicate Alternates(signals: seq<Signal>, receiverId: Option<string>) {
    && (!Truthy(receiverId) ==> signals == [])
    && (Truthy(receiverId) ==> forall i :: 0 <= i < |signals| ==>
          signals[i] == if i % 2 == 0 then StartTyping(receiverId.value) else StopTyping(receiverId.value))
  }

  /**
   * What the hook keeps true: the emits alternate, the flag says whether the last
   * one was a start, and at most one stop timer is live, the one the ref holds,
   * armed for 1000 ms.
   */
  predicate Inv(s: Typing, receiverId: Option<string>) {
    && Alternates(s.emitted, receiverId)
    && (s.isTyping <==> |s.emitted| % 2 == 1)
    && s.pending == (if s.timeout.Some? then map[s.timeout.value := STOP_DELAY] else map[])
    && (s.timeout.Some? ==> 0 < s.timeout.value < s.nextTimer)
    && s.nextTimer > 0
  }

  lemma StepKeepsInv(s: Typing, e: Event, receiverId: Option<string>)
    requires Inv(s, receiverId)
    ensures Inv(Step(s, e, receiverId), receiverId)
  {
    var r := Step(s, e, receiverId);
    assert ClearPending(s) == map[];
    if Truthy(receiverId) {
      forall i | 0 <= i < |r.emitted|
        ensures r.emitted[i] == if i % 2 == 0 then StartTyping(receiverId.value) else StopTyping(receiverId.value)
      {
        if i < |s.emitted| {
          assert r.emitted[i] == s.emitted[i];
        }
      }
    }
    match e {
      case Fire(t) =>
        if t in s.pending {
          assert s.pending - {t} == map[];
        }
      case _ =>
    }
  }

  /** Whatever the hook is asked to do, the invariant holds. */
  lemma {:induction false} RunKeepsInv(events: seq<Event>, receiverId: Option<string>)
    ensures Inv(Run(Initial(), events, receiverId), receiverId)
    decreases |events|
  {
    if events != [] {
      RunKeepsInv(events[..|events| - 1], receiverId);
      StepKeepsInv(Run(Initial(), events[..|events| - 1], receiverId), events[|events| - 1], receiverId);
    }
  }

  /** Only the false-to-true transition emits: a burst of keystrokes sends one `startTyping`. */
  lemma RepeatedStartsEmitOnce(receiverId: string, n: nat)
    requires receiverId != ""
    ensures Run(Initial(), seq(n + 1, _ => Start), Some(receiverId)).emitted == [StartTyping(receiverId)]
  {
    StartsEmitOnce(Some(receiverId), n);
  }

  lemma {:induction false} StartsEmitOnce(receiverId: Option<string>, n: nat)
    requires Truthy(receiverId)
    ensures var s := Run(Initial(), seq(n + 1, _ => Start), receiverId);
      s.emitted == [StartTyping(receiverId.value)] && s.isTyping
  {
    var events := seq(n + 1, _ => Start);
    if n > 0 {
      assert events[..n] == seq(n, _ => Start);
      StartsEmitOnce(receiverId, n - 1);
    } else {
      assert events[..0] == [];
    }
  }

  /** Stopping when not typing emits nothing; it still clears the timer. */
  lemma StopWhenIdleIsSilent(s: Typing, receiverId: Option<string>)
    requires !s.isTyping
    ensures StopStep(s, receiverId).emitted == s.emitted && StopStep(s, receiverId).timeout.None?
  {
  }

  /** A stale handle, cleared by a later keystroke, never runs. */
  lemma ClearedTimerNeverFires(s: Typing, receiverId: Option<string>)
    requires Inv(s, receiverId) && s.timeout.Some?
    ensures var r := StartStep(s, receiverId);
      FireStep(r, s.timeout.value, receiverId) == r
  {
  }

  /** The hook's refs, for one render's `receiverId`. */
  class TypingHook {
    const receiverId: Option<string>
    var isTyping: bool
    var timeout: Option<nat>
    var pending: map<nat, nat>
    var nextTimer: nat
    var emitted: seq<Signal>

    function State(): Typing
      reads this
    {
      Typing(isTyping, timeout, pending, nextTimer, emitted)
    }

    ghost predicate Valid()
      reads this
    {
      Inv(State(), receiverId)
    }

    constructor (receiverId: Option<string>)
      ensures Valid() && this.receiverId == receiverId && State() == Initial()
    {
      this.receiverId := receiverId;
      isTyping := false;
      timeout := None;
      pending := map[];
      nextTimer := 1;
      emitted := [];
    }

    /** `clearTimeout(typingTimeoutRef.current)` when it holds a handle. */
    method ClearTimer()
      modifies this`pending
      ensures pending == ClearPending(old(State()))
    {
      if timeout.Some? {
        pending := pending - {timeout.value};
      }
    }

    method HandleStartTyping()
      requires Valid()
      modifies this`isTyping, this`timeout, this`pending, this`nextTimer, this`emitted
      ensures Valid()
      ensures State() == StartStep(old(State()), receiverId)
    {
      if !isTyping && Truthy(receiverId) {
        isTyping := true;
        emitted := emitted + [StartTyping(receiverId.value)];
      }
      ClearTimer();
      pending := pending[nextTimer := STOP_DELAY];
      timeout := Some(nextTimer);
      nextTimer := nextTimer + 1;
      StepKeepsInv(old(State()), Start, receiverId);
    }

    method HandleStopTyping()
      requires Valid()
      modifies this`isTyping, this`timeout, this`pending, this`emitted
      ensures Valid()
      ensures State() == StopStep(old(State()), receiverId)
    {
      if isTyping && Truthy(receiverId) {
        isTyping := false;
        emitted := emitted + [StopTyping(receiverId.value)];
      }
      ClearTimer();
      timeout := None;
      StepKeepsInv(old(State()), Stop, receiverId);
    }

    /** The browser running timer `t`, if it is still live. */
    method FireTimer(t: nat)
      requires Valid()
      modifies this`isTyping, this`timeout, this`pending, this`emitted
      ensures Valid()
      ensures State() == FireStep(old(State()), t, receiverId)
    {
      if t !in pending {
        return;
      }
      pending := pending - {t};
      assert State() == old(State()).(pending := old(pending) - {t});
      if isTyping && Truthy(receiverId) {
        isTyping := false;
        emitted := emitted + [StopTyping(receiverId.value)];
      }
      ClearTimer();
      timeout := None;
      StepKeepsInv(old(State()), Fire(t), receiverId);
    }
  }
}
