/** Circuit breaker and retry loop around a downstream call. */
module Resilience {
  import opened Base

  datatype ClientError = ErrConflict | ErrBadRequest | ErrCircuitOpen | ErrUnavailable | ErrCanceled

  datatype Breaker = Breaker(failures: int, open: bool, halfOpen: bool, openedAt: Time)

  const CLOSED := Breaker(0, false, false, 0)

  predicate Permits(b: Breaker, resetTimeout: Time, now: Time) {
    b.open ==> now - b.openedAt >= resetTimeout
  }

  function AfterAllow(b: Breaker, resetTimeout: Time, now: Time): Breaker {
    if b.open && Permits(b, resetTimeout, now) then b.(halfOpen := true) else b
  }

  function AfterSuccess(b: Breaker): Breaker {
    b.(failures := 0, open := false, halfOpen := false)
  }

  function AfterFailure(b: Breaker, failThreshold: int, now: Time): Breaker {
    if b.halfOpen then b.(open := true, openedAt := now, halfOpen := false)
    else if b.failures + 1 >= failThreshold then b.(failures := b.failures + 1, open := true, openedAt := now)
    else b.(failures := b.failures + 1)
  }

  // --- Calls of the breaker ---

  datatype Event = Asked(at: Time) | Succeeded | Failed(at: Time)

  function After(b: Breaker, failThreshold: int, resetTimeout: Time, e: Event): Breaker {
    match e
    case Asked(at) => AfterAllow(b, resetTimeout, at)
    case Succeeded => AfterSuccess(b)
    case Failed(at) => AfterFailure(b, failThreshold, at)
  }

  function Replay(failThreshold: int, resetTimeout: Time, h: seq<Event>): Breaker {
    if h == [] then CLOSED
    else After(Replay(failThreshold, resetTimeout, h[..|h| - 1]), failThreshold, resetTimeout, h[|h| - 1])
  }

  lemma ReplayStep(failThreshold: int, resetTimeout: Time, h: seq<Event>, e: Event)
    ensures Replay(failThreshold, resetTimeout, h + [e])
         == After(Replay(failThreshold, resetTimeout, h), failThreshold, resetTimeout, e)
  {
    assert (h + [e])[..|h|] == h;
  }

  /** Failures recorded since the last success. */
  function Streak(h: seq<Event>): nat {
    if h == [] then 0
    else
      match h[|h| - 1]
      case Asked(_) => Streak(h[..|h| - 1])
      case Succeeded => 0
      case Failed(_) => Streak(h[..|h| - 1]) + 1
  }

  function LastFailure(h: seq<Event>): Time {
    if h == [] then 0
    else if h[|h| - 1].Failed? then h[|h| - 1].at
    else LastFailure(h[..|h| - 1])
  }

  class CircuitBreaker {
    const failThreshold: int
    const resetTimeout: Time
    var failures: int
    var openedAt: Time
    var open: bool
    var halfOpen: bool
    ghost var history: seq<Event>

    function View(): Breaker reads this {
      Breaker(failures, open, halfOpen, openedAt)
    }

    /** The state is the one its calls so far lead to, whoever made them. */
    ghost predicate Valid() reads this {
      View() == Replay(failThreshold, resetTimeout, history)
    }

    constructor (failThreshold: int, resetTimeout: Time)
      ensures Valid() && history == [] && this.failThreshold == failThreshold && this.resetTimeout == resetTimeout
    {
      this.failThreshold, this.resetTimeout := failThreshold, resetTimeout;
      failures, openedAt, open, halfOpen, history := 0, 0, false, false, [];
    }

    method Allow(now: Time) returns (permitted: bool)
      requires Valid()
      modifies this
      ensures Valid() && permitted == Permits(old(View()), resetTimeout, now)
      ensures history == old(history) + [Asked(now)] && View() == AfterAllow(old(View()), resetTimeout, now)
    {
      hide Replay;
      ReplayStep(failThreshold, resetTimeout, history, Asked(now));
      history := history + [Asked(now)];
      if !open {
        return true;
      }
      if now - openedAt >= resetTimeout {
        halfOpen := true;
        return true;
      }
      return false;
    }

    method RecordSuccess()
      requires Valid()
      modifies this
      ensures Valid() && history == old(history) + [Succeeded] && View() == AfterSuccess(old(View()))
    {
      hide Replay;
      ReplayStep(failThreshold, resetTimeout, history, Succeeded);
      history := history + [Succeeded];
      failures, open, halfOpen := 0, false, false;
    }

    method RecordFailure(now: Time)
      requires Valid()
      modifies this
      ensures Valid() && history == old(history) + [Failed(now)]
      ensures View() == AfterFailure(old(View()), failThreshold, now)
    {
      hide Replay;
      ReplayStep(failThreshold, resetTimeout, history, Failed(now));
      history := history + [Failed(now)];
      if halfOpen {
        open, openedAt, halfOpen := true, now, false;
        return;
      }
      failures := failures + 1;
      if failures >= failThreshold {
        open, openedAt := true, now;
      }
    }
  }

  // --- The breaker against its history ---

  /** The breaker is open exactly while the failures since the last success reach the threshold. */
  lemma {:induction false} BreakerMatchesHistory(failThreshold: int, resetTimeout: Time, h: seq<Event>)
    ensures var b := Replay(failThreshold, resetTimeout, h);
            && (b.open <==> Streak(h) >= Max(1, failThreshold))
            && (b.halfOpen ==> b.open)
            && (b.open ==> b.openedAt == LastFailure(h))
            && (!b.open ==> b.failures == Streak(h))
            && (b.open ==> b.failures >= Max(1, failThreshold))
  {
    if h != [] {
      BreakerMatchesHistory(failThreshold, resetTimeout, h[..|h| - 1]);
    }
  }

  /** A call is let through exactly below the threshold or a reset timeout after the last failure. */
  lemma PermitsByHistory(failThreshold: int, resetTimeout: Time, h: seq<Event>, now: Time)
    ensures Permits(Replay(failThreshold, resetTimeout, h), resetTimeout, now)
       <==> Streak(h) < Max(1, failThreshold) || now - LastFailure(h) >= resetTimeout
  {
    BreakerMatchesHistory(failThreshold, resetTimeout, h);
  }

  // --- Do ---

  predicate ClientFault(e: ClientError) {
    e == ErrConflict || e == ErrBadRequest
  }

  /** How the attempts go: each reply, whether the context ends in the backoff after it, its time, and what other
      callers do to the shared breaker meanwhile. */
  datatype World<T> = World(
    reply: nat -> Result<T, ClientError>, canceled: nat -> bool, at: nat -> Time, others: nat -> seq<Event>)
  {
    function Reply(i: nat): Result<T, ClientError> { reply(i) }

    function Canceled(i: nat): bool { canceled(i) }

    function At(i: nat): Time { at(i) }

    function Others(i: nat): seq<Event> { others(i) }
  }

  /** What other callers did during the first n attempts. */
  function Meanwhile<T>(w: World<T>, n: nat): seq<Event> {
    if n == 0 then [] else Meanwhile(w, n - 1) + w.Others(n - 1)
  }

  /** Attempt i ends the loop before the attempts run out. */
  predicate Final<T>(w: World<T>, guarded: bool, i: nat) {
    var r := w.Reply(i);
    r.Ok? || ClientFault(r.error) || (guarded && r.error == ErrCircuitOpen)
  }

  /** Attempt k is the last one made out of n. */
  ghost predicate LastAttempt<T>(w: World<T>, guarded: bool, n: nat, k: nat) {
    && k < n
    && (forall j: nat :: j < k ==> !Final(w, guarded, j) && !w.Canceled(j))
    && (k == n - 1 || Final(w, guarded, k) || w.Canceled(k))
  }

  /** None of the first i attempts ended the loop. */
  ghost predicate Ongoing<T>(w: World<T>, guarded: bool, n: nat, i: nat) {
    forall j: nat :: j < i ==> !Final(w, guarded, j) && (j < n - 1 ==> !w.Canceled(j))
  }

  lemma NothingYet<T>(w: World<T>, guarded: bool, n: nat)
    ensures Ongoing(w, guarded, n, 0) && Meanwhile(w, 0) == []
  {
  }

  lemma MeanwhileStep<T>(w: World<T>, i: nat)
    ensures Meanwhile(w, i + 1) == Meanwhile(w, i) + w.Others(i)
  {
  }

  /** The next attempt is the last one, or the loop goes on. */
  lemma OngoingStep<T>(w: World<T>, guarded: bool, n: nat, i: nat)
    requires Ongoing(w, guarded, n, i) && i < n
    ensures Final(w, guarded, i) || (i < n - 1 && w.Canceled(i)) ==> LastAttempt(w, guarded, n, i)
    ensures !Final(w, guarded, i) && !(i < n - 1 && w.Canceled(i)) ==> Ongoing(w, guarded, n, i + 1)
  {
  }

  lemma EveryAttemptMade<T>(w: World<T>, guarded: bool, n: nat)
    requires Ongoing(w, guarded, n, n) && n > 0
    ensures LastAttempt(w, guarded, n, n - 1) && !Final(w, guarded, n - 1)
  {
  }

  function Outcome<T>(w: World<T>, guarded: bool, n: nat, k: nat): Result<T, ClientError> {
    if Final(w, guarded, k) || k == n - 1 then w.Reply(k) else Err(ErrCanceled)
  }

  /** The one recording a call makes, if any: a success, a client fault or running out of attempts. */
  function Recorded<T>(w: World<T>, n: nat, k: nat): (h: seq<Event>)
    ensures |h| <= 1
  {
    match w.Reply(k)
    case Ok(_) => [Succeeded]
    case Err(e) => if ClientFault(e) || (k == n - 1 && e != ErrCircuitOpen) then [Failed(w.At(k))] else []
  }

  /** What each reply means for the loop, its result and its recording. */
  lemma AttemptEnds<T>(w: World<T>, guarded: bool, n: nat, i: nat)
    ensures var r := w.Reply(i);
            && (Final(w, guarded, i) <==>
                  r.Ok? || r.error in {ErrConflict, ErrBadRequest} || (guarded && r.error == ErrCircuitOpen))
            && Outcome(w, guarded, n, i) == (if Final(w, guarded, i) || i == n - 1 then r else Err(ErrCanceled))
            && Recorded(w, n, i)
               == (if r.Ok? then [Succeeded]
                   else if r.error in {ErrConflict, ErrBadRequest} || (i == n - 1 && r.error != ErrCircuitOpen)
                   then [Failed(w.At(i))] else [])
  {
  }

  /** Other goroutines use the breaker while a downstream call is under way. */
  method Elsewhere(cb: CircuitBreaker, events: seq<Event>)
    requires cb.Valid()
    modifies cb
    ensures cb.Valid() && cb.history == old(cb.history) + events
  {
    hide Replay, AfterAllow, AfterSuccess, AfterFailure;
    for i := 0 to |events|
      invariant cb.Valid() && cb.history == old(cb.history) + events[..i]
    {
      match events[i] {
        case Asked(at) => var _ := cb.Allow(at);
        case Succeeded => cb.RecordSuccess();
        case Failed(at) => cb.RecordFailure(at);
      }
      assert events[..i + 1] == events[..i] + [events[i]];
    }
    assert events[..|events|] == events;
  }

  /** One call adds to the breaker's history its question, what others do meanwhile, and at most one outcome. */
  method Do<T>(maxAttempts: int, cb: CircuitBreaker?, w: World<T>, now: Time)
    returns (r: Result<T, ClientError>, calls: nat)
    requires cb != null ==> cb.Valid()
    modifies if cb == null then {} else {cb}
    ensures cb != null ==> cb.Valid()
    ensures cb != null && !Permits(old(cb.View()), cb.resetTimeout, now) ==>
      && calls == 0 && r == Err(ErrCircuitOpen)
      && cb.View() == old(cb.View()) && cb.history == old(cb.history) + [Asked(now)]
    ensures cb == null || Permits(old(cb.View()), cb.resetTimeout, now) ==>
      && 1 <= calls <= Max(1, maxAttempts)
      && LastAttempt(w, cb != null, Max(1, maxAttempts), calls - 1)
      && r == Outcome(w, cb != null, Max(1, maxAttempts), calls - 1)
    ensures cb != null && Permits(old(cb.View()), cb.resetTimeout, now) ==>
      cb.history == old(cb.history) + [Asked(now)] + Meanwhile(w, calls) + Recorded(w, Max(1, maxAttempts), calls - 1)
  {
    hide Replay, AfterSuccess, AfterFailure, Ongoing, LastAttempt, Meanwhile, Final, Outcome, Recorded;
    calls := 0;
    ghost var guarded := cb != null;
    NothingYet(w, guarded, Max(1, maxAttempts));
    if cb != null {
      var permitted := cb.Allow(now);
      if !permitted {
        return Err(ErrCircuitOpen), 0;
      }
    }
    var attempts := if maxAttempts < 1 then 1 else maxAttempts;
    var lastErr := ErrUnavailable;
    for i := 0 to attempts
      invariant calls == i
      invariant cb != null ==> cb.Valid() && cb.history == old(cb.history) + [Asked(now)] + Meanwhile(w, i)
      invariant Ongoing(w, guarded, attempts, i)
      invariant i > 0 ==> w.Reply(i - 1) == Err(lastErr)
    {
      calls := i + 1;
      OngoingStep(w, guarded, attempts, i);
      MeanwhileStep(w, i);
      AttemptEnds(w, guarded, attempts, i);
      if cb != null {
        Elsewhere(cb, w.Others(i));
      }
      match w.Reply(i) {
        case Ok(v) =>
          if cb != null {
            cb.RecordSuccess();
          }
          return Ok(v), calls;
        case Err(e) =>
          lastErr := e;
          if ClientFault(e) {
            if cb != null {
              cb.RecordFailure(w.At(i));
            }
            return Err(e), calls;
          }
          if cb != null && e == ErrCircuitOpen {
            return Err(e), calls;
          }
          if i < attempts - 1 && w.Canceled(i) {
            return Err(ErrCanceled), calls;
          }
      }
    }
    EveryAttemptMade(w, guarded, attempts);
    AttemptEnds(w, guarded, attempts, attempts - 1);
    if cb != null {
      cb.RecordFailure(w.At(attempts - 1));
    }
    return Err(lastErr), calls;
  }

  /** SubmitAggregate and SubmitExposure: the captured result is set exactly when no error is returned. */
  method Submit<T>(maxAttempts: int, cb: CircuitBreaker, w: World<T>, now: Time)
    returns (out: Option<T>, err: Option<ClientError>, calls: nat)
    requires cb.Valid()
    modifies cb
    ensures cb.Valid()
    ensures out.Some? <==> err.None?
    ensures calls == 0 <==> !Permits(old(cb.View()), cb.resetTimeout, now)
    ensures calls <= Max(1, maxAttempts)
    ensures out.Some? ==> calls > 0 && w.Reply(calls - 1) == Ok(out.value)
    ensures forall j: nat :: j + 1 < calls ==>
      w.Reply(j).Err? && w.Reply(j).error in {ErrUnavailable, ErrCanceled}
  {
    var r: Result<T, ClientError>;
    r, calls := Do(maxAttempts, cb, w, now);
    forall j: nat | j + 1 < calls
      ensures w.Reply(j).Err? && w.Reply(j).error in {ErrUnavailable, ErrCanceled}
    {
      assert !Final(w, true, j);
    }
    match r {
      case Ok(v) => return Some(v), None, calls;
      case Err(e) => return None, Some(e), calls;
    }
  }
}
