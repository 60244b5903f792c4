/**
 The request loop of the HTTP client: redirects and retries share one deadline, redirects are
 never reset, and every sleep must end before the deadline.
 */
module HttpRetry {

  /** Instants and durations in seconds; `Retry-After` is section 10.2.3 of RFC 9110. */
  type Seconds = real

  const MAX_RETRY_DELAY: Seconds := 60.0
  const REDIRECT_LIMIT: nat := 5

  datatype Option<+T> = None | Some(value: T)

  /** `runDeadline` says that the client belongs to a run with a deadline of its own. */
  datatype Policy = Policy(retryAttempts: int, backoff: Seconds, jitterCap: Seconds, runDeadline: bool)

  /** What a `Retry-After` value says: seconds, a date, or neither. */
  datatype RetryAfter = After(seconds: Seconds) | At(instant: Seconds) | Unparsable

  /** What one send brings back. */
  datatype Answer =
    | Redirect(allowed: bool)
    | Status(retryable: bool, retryAfter: Option<RetryAfter>, accepted: bool)
    | TransportError

  datatype Refusal = DeadlineExceeded | Rejected | TransportUnavailable

  datatype Verdict = Response(attempts: nat) | Refused(refusal: Refusal)

  /** The outside: the clock at each reading, the answer of each send, the jitter of each attempt. */
  datatype World = World(clock: nat -> Seconds, answer: nat -> Answer, jitter: nat -> Seconds)

  datatype Sleep = Sleep(at: Seconds, delay: Seconds, retryAfter: bool)

  /** What one call did. */
  datatype Trace = Trace(verdict: Verdict, sends: nat, redirects: nat, sleeps: seq<Sleep>)

  // ---- Delays ----

  function Min(a: Seconds, b: Seconds): Seconds {
    if a <= b then a else b
  }

  function Max(a: Seconds, b: Seconds): Seconds {
    if a >= b then a else b
  }

  function Power2(n: nat): real {
    if n == 0 then 1.0 else 2.0 * Power2(n - 1)
  }

  /** `retry_delay` */
  function RetryDelay(attempt: nat, base: Seconds, cap: Seconds, jitter: Seconds): Seconds
    requires attempt >= 1
  {
    Min(base * Power2(attempt - 1), cap) + jitter
  }

  function BoundedJitter(p: Policy, w: World, attempt: nat): Seconds {
    Min(Max(0.0, w.jitter(attempt)), p.jitterCap)
  }

  /** `_retry_after`; a date is compared with the clock's next reading. */
  function RetryAfterDelay(p: Policy, w: World, header: Option<RetryAfter>, attempt: nat, reading: nat): Seconds
    requires attempt >= 1
  {
    match header
    case None => RetryDelay(attempt, p.backoff, MAX_RETRY_DELAY, BoundedJitter(p, w, attempt))
    case Some(After(seconds)) => Min(Max(0.0, seconds), MAX_RETRY_DELAY)
    case Some(At(instant)) => Min(Max(0.0, instant - w.clock(reading)), MAX_RETRY_DELAY)
    case Some(Unparsable) => Min(0.0, MAX_RETRY_DELAY)
  }

  function MaxAttempts(p: Policy): nat {
    if p.retryAttempts + 1 >= 1 then p.retryAttempts + 1 else 1
  }

  // ---- The loop ----

  /** The specification of the loop from one of its heads. */
  function Exchange(p: Policy, w: World, deadline: Seconds, attempt: nat, redirects: nat, sends: nat, reading: nat,
                    sleeps: seq<Sleep>): Trace
    requires attempt >= 1 && redirects <= REDIRECT_LIMIT
    decreases 2 * ((if attempt <= MaxAttempts(p) then MaxAttempts(p) + 1 - attempt else 0) + REDIRECT_LIMIT - redirects)
  {
    if attempt > MaxAttempts(p) then Trace(Refused(Rejected), sends, redirects, sleeps)
    else if deadline - w.clock(reading) <= 0.0 then Trace(Refused(DeadlineExceeded), sends, redirects, sleeps)
    else
      var answer := w.answer(sends);
      match answer
      case Redirect(allowed) =>
        if redirects + 1 > REDIRECT_LIMIT || !allowed then Trace(Refused(Rejected), sends + 1, redirects + 1, sleeps)
        else Exchange(p, w, deadline, attempt, redirects + 1, sends + 1, reading + 1, sleeps)
      case Status(retryable, header, accepted) =>
        if retryable && attempt < MaxAttempts(p) then
          Retry(p, w, deadline, attempt, redirects, sends + 1, reading + 2,
                RetryAfterDelay(p, w, header, attempt, reading + 1), header.Some?, sleeps)
        else
          Trace(Final(p, w, deadline, attempt, accepted, reading + 1), sends + 1, redirects, sleeps)
      case TransportError =>
        if p.runDeadline && w.clock(reading + 1) >= deadline then
          Trace(Refused(DeadlineExceeded), sends + 1, redirects, sleeps)
        else if attempt >= MaxAttempts(p) then Trace(Refused(TransportUnavailable), sends + 1, redirects, sleeps)
        else
          Retry(p, w, deadline, attempt, redirects, sends + 1, reading + 2,
                RetryDelay(attempt, p.backoff, MAX_RETRY_DELAY, BoundedJitter(p, w, attempt)), false, sleeps)
  }

  /** The answer that is not retried: its body must have arrived before a run's deadline. */
  function Final(p: Policy, w: World, deadline: Seconds, attempt: nat, accepted: bool, reading: nat): Verdict {
    if !accepted then Refused(Rejected)
    else if p.runDeadline && w.clock(reading) >= deadline then Refused(DeadlineExceeded)
    else Response(attempt)
  }

  /** `_sleep_before_retry`, then the next attempt. */
  function Retry(p: Policy, w: World, deadline: Seconds, attempt: nat, redirects: nat, sends: nat, reading: nat,
                 delay: Seconds, retryAfter: bool, sleeps: seq<Sleep>): Trace
    requires 1 <= attempt < MaxAttempts(p) && redirects <= REDIRECT_LIMIT
    decreases 2 * (MaxAttempts(p) - attempt + REDIRECT_LIMIT - redirects) + 1
  {
    var now := w.clock(reading);
    if now + delay >= deadline then Trace(Refused(DeadlineExceeded), sends, redirects, sleeps)
    else
      Exchange(p, w, deadline, attempt + 1, redirects, sends, reading + 1, sleeps + [Sleep(now, delay, retryAfter)])
  }

  /** `_request_with_observer`, from its loop on. */
  method Request(p: Policy, w: World, deadline: Seconds) returns (t: Trace)
    ensures t == Exchange(p, w, deadline, 1, 0, 0, 0, [])
  {
    var attempt, redirects, sends, reading := 1, 0, 0, 0;
    var sleeps: seq<Sleep> := [];
    while attempt <= MaxAttempts(p)
      invariant 1 <= attempt && redirects <= REDIRECT_LIMIT
      invariant Exchange(p, w, deadline, attempt, redirects, sends, reading, sleeps)
                == Exchange(p, w, deadline, 1, 0, 0, 0, [])
      decreases (if attempt <= MaxAttempts(p) then MaxAttempts(p) + 1 - attempt else 0) + REDIRECT_LIMIT - redirects
    {
      if deadline - w.clock(reading) <= 0.0 {
        return Trace(Refused(DeadlineExceeded), sends, redirects, sleeps);
      }
      reading := reading + 1;
      var answer := w.answer(sends);
      sends := sends + 1;
      var delay: Seconds;
      match answer {
        case Redirect(allowed) =>
          redirects := redirects + 1;
          if redirects > REDIRECT_LIMIT || !allowed {
            return Trace(Refused(Rejected), sends, redirects, sleeps);
          }
          continue;
        case Status(retryable, header, accepted) =>
          if !retryable || attempt >= MaxAttempts(p) {
            return Trace(Final(p, w, deadline, attempt, accepted, reading), sends, redirects, sleeps);
          }
          delay := RetryAfterDelay(p, w, header, attempt, reading);
        case TransportError =>
          if p.runDeadline && w.clock(reading) >= deadline {
            return Trace(Refused(DeadlineExceeded), sends, redirects, sleeps);
          }
          if attempt >= MaxAttempts(p) {
            return Trace(Refused(TransportUnavailable), sends, redirects, sleeps);
          }
          delay := RetryDelay(attempt, p.backoff, MAX_RETRY_DELAY, BoundedJitter(p, w, attempt));
      }
      reading := reading + 1;
      var now := w.clock(reading);
      if now + delay >= deadline {
        return Trace(Refused(DeadlineExceeded), sends, redirects, sleeps);
      }
      sleeps := sleeps + [Sleep(now, delay, answer.Status? && answer.retryAfter.Some?)];
      reading := reading + 1;
      attempt := attempt + 1;
    }
    t := Trace(Refused(Rejected), sends, redirects, sleeps);
  }

  // ---- Bounds over every sequence of answers ----

  /** A sleep ends before the deadline and is at most a minute, plus jitter for a backoff. */
  ghost predicate Bounded(p: Policy, deadline: Seconds, s: Sleep) {
    && s.at + s.delay < deadline
    && s.delay <= MAX_RETRY_DELAY + (if s.retryAfter then 0.0 else Max(0.0, p.jitterCap))
    && (p.backoff >= 0.0 && p.jitterCap >= 0.0 ==> s.delay >= 0.0)
  }

  lemma {:induction false} PowerIsPositive(n: nat)
    ensures Power2(n) > 0.0
  {
    if n > 0 { PowerIsPositive(n - 1); }
  }

  lemma BackoffIsBounded(p: Policy, w: World, attempt: nat)
    requires attempt >= 1
    ensures var delay := RetryDelay(attempt, p.backoff, MAX_RETRY_DELAY, BoundedJitter(p, w, attempt));
            && delay <= MAX_RETRY_DELAY + Max(0.0, p.jitterCap)
            && (p.backoff >= 0.0 && p.jitterCap >= 0.0 ==> delay >= 0.0)
  {
    PowerIsPositive(attempt - 1);
    if p.backoff >= 0.0 { NonNegative(p.backoff, Power2(attempt - 1)); }
  }

  lemma NonNegative(a: real, b: real)
    requires a >= 0.0 && b >= 0.0
    ensures a * b >= 0.0
  {
  }

  lemma HeaderIsBounded(p: Policy, w: World, header: Option<RetryAfter>, attempt: nat, reading: nat)
    requires attempt >= 1 && header.Some?
    ensures 0.0 <= RetryAfterDelay(p, w, header, attempt, reading) <= MAX_RETRY_DELAY
  {
  }

  ghost predicate Accounts(p: Policy, deadline: Seconds, t: Trace) {
    && t.redirects <= REDIRECT_LIMIT + 1
    && |t.sleeps| < MaxAttempts(p)
    && (forall i :: 0 <= i < |t.sleeps| ==> Bounded(p, deadline, t.sleeps[i]))
    && |t.sleeps| + t.redirects <= t.sends <= |t.sleeps| + t.redirects + 1
    && t.sends <= MaxAttempts(p) + REDIRECT_LIMIT
    && (t.verdict.Response? ==> t.redirects <= REDIRECT_LIMIT && t.verdict.attempts == |t.sleeps| + 1
                                && t.sends == t.verdict.attempts + t.redirects)
  }

  lemma {:induction false} ExchangeIsBounded(p: Policy, w: World, deadline: Seconds, attempt: nat, redirects: nat,
                                             sends: nat, reading: nat, sleeps: seq<Sleep>)
    requires 1 <= attempt <= MaxAttempts(p) && redirects <= REDIRECT_LIMIT
    requires |sleeps| == attempt - 1 && sends == attempt - 1 + redirects
    requires forall i :: 0 <= i < |sleeps| ==> Bounded(p, deadline, sleeps[i])
    ensures Accounts(p, deadline, Exchange(p, w, deadline, attempt, redirects, sends, reading, sleeps))
    decreases MaxAttempts(p) - attempt + REDIRECT_LIMIT - redirects
  {
    hide Bounded, RetryAfterDelay, RetryDelay, Accounts;
    if deadline - w.clock(reading) > 0.0 {
      match w.answer(sends)
      case Redirect(allowed) =>
        if redirects < REDIRECT_LIMIT && allowed {
          ExchangeIsBounded(p, w, deadline, attempt, redirects + 1, sends + 1, reading + 1, sleeps);
        }
      case Status(retryable, header, accepted) =>
        if retryable && attempt < MaxAttempts(p) {
          var delay := RetryAfterDelay(p, w, header, attempt, reading + 1);
          DelayIsBounded(p, w, deadline, header, attempt, reading + 1, w.clock(reading + 2));
          if w.clock(reading + 2) + delay < deadline {
            ExchangeIsBounded(p, w, deadline, attempt + 1, redirects, sends + 1, reading + 3,
                              sleeps + [Sleep(w.clock(reading + 2), delay, header.Some?)]);
          }
        }
      case TransportError =>
        if attempt < MaxAttempts(p) {
          var delay := RetryDelay(attempt, p.backoff, MAX_RETRY_DELAY, BoundedJitter(p, w, attempt));
          DelayIsBounded(p, w, deadline, None, attempt, reading + 1, w.clock(reading + 2));
          if w.clock(reading + 2) + delay < deadline {
            ExchangeIsBounded(p, w, deadline, attempt + 1, redirects, sends + 1, reading + 3,
                              sleeps + [Sleep(w.clock(reading + 2), delay, false)]);
          }
        }
    }
    EndsHere(p, w, deadline, attempt, redirects, sends, reading, sleeps);
  }

  /** The traces that end at this head of the loop. */
  lemma EndsHere(p: Policy, w: World, deadline: Seconds, attempt: nat, redirects: nat, sends: nat, reading: nat,
                 sleeps: seq<Sleep>)
    requires 1 <= attempt <= MaxAttempts(p) && redirects <= REDIRECT_LIMIT
    requires |sleeps| == attempt - 1 && sends == attempt - 1 + redirects
    requires forall i :: 0 <= i < |sleeps| ==> Bounded(p, deadline, sleeps[i])
    ensures forall verdict: Refusal, redirected: nat, sent: nat ::
              redirects <= redirected <= redirects + 1 && sends <= sent <= sends + 1
              && (redirected > redirects ==> sent > sends) ==>
                Accounts(p, deadline, Trace(Refused(verdict), sent, redirected, sleeps))
    ensures Accounts(p, deadline, Trace(Response(attempt), sends + 1, redirects, sleeps))
  {
    hide Bounded;
  }

  lemma DelayIsBounded(p: Policy, w: World, deadline: Seconds, header: Option<RetryAfter>, attempt: nat, reading: nat,
                       now: Seconds)
    requires attempt >= 1
    ensures var delay := RetryAfterDelay(p, w, header, attempt, reading);
            now + delay < deadline ==> Bounded(p, deadline, Sleep(now, delay, header.Some?))
    ensures header.None? ==> RetryAfterDelay(p, w, header, attempt, reading)
                             == RetryDelay(attempt, p.backoff, MAX_RETRY_DELAY, BoundedJitter(p, w, attempt))
  {
    hide RetryDelay;
    BackoffIsBounded(p, w, attempt);
    if header.Some? { HeaderIsBounded(p, w, header, attempt, reading); }
  }

  /**
   For every sequence of answers, clock readings and jitters: at most `MaxAttempts + 5` sends,
   no sleep that would end at or after the deadline, and no delay above a minute plus jitter.
   */
  lemma RequestIsBounded(p: Policy, w: World, deadline: Seconds)
    ensures Accounts(p, deadline, Exchange(p, w, deadline, 1, 0, 0, 0, []))
  {
    ExchangeIsBounded(p, w, deadline, 1, 0, 0, 0, []);
  }

  // ---- What a trace says about the answers ----

  /** The answers among the first `k` that were not redirects: each used up an attempt. */
  function Tries(w: World, k: nat): (n: nat)
    ensures n <= k
  {
    if k == 0 then 0 else Tries(w, k - 1) + (if w.answer(k - 1).Redirect? then 0 else 1)
  }

  /** The attempt that send `k` belongs to. */
  function AttemptOf(w: World, k: nat): nat {
    Tries(w, k) + 1
  }

  function RedirectsBefore(w: World, k: nat): nat {
    k - Tries(w, k)
  }

  /** The clock reading before send `k`: a redirect takes one reading, a retry three. */
  function ReadingOf(w: World, k: nat): nat {
    RedirectsBefore(w, k) + 3 * Tries(w, k)
  }

  predicate OnTime(w: World, deadline: Seconds, k: nat) {
    w.clock(ReadingOf(w, k)) < deadline
  }

  predicate LastAttempt(p: Policy, w: World, k: nat) {
    AttemptOf(w, k) == MaxAttempts(p)
  }

  /** A run's own deadline had passed once answer `k` was there. */
  predicate PastRunDeadline(p: Policy, w: World, deadline: Seconds, k: nat) {
    p.runDeadline && w.clock(ReadingOf(w, k) + 1) >= deadline
  }

  /** A sixth redirect, or one the policy does not allow. */
  predicate BadRedirect(w: World, k: nat) {
    w.answer(k).Redirect? && (!w.answer(k).allowed || RedirectsBefore(w, k) == REDIRECT_LIMIT)
  }

  /** A status that is not retried: not retryable, or no attempt is left. */
  predicate FinalStatus(p: Policy, w: World, k: nat) {
    w.answer(k).Status? && (!w.answer(k).retryable || LastAttempt(p, w, k))
  }

  /** A status or an error for which another attempt is made, if its sleep fits. */
  predicate WantsRetry(p: Policy, w: World, deadline: Seconds, k: nat) {
    && !LastAttempt(p, w, k)
    && match w.answer(k)
       case Redirect(_) => false
       case Status(retryable, _, _) => retryable
       case TransportError => !PastRunDeadline(p, w, deadline, k)
  }

  function HeaderOf(a: Answer): Option<RetryAfter> {
    if a.Status? then a.retryAfter else None
  }

  /** At most `cap`. */
  function Clipped(x: Seconds, cap: Seconds): Seconds {
    if x > cap then cap else x
  }

  function Positive(x: Seconds): Seconds {
    if x < 0.0 then 0.0 else x
  }

  /** The backoff doubles with every attempt. */
  function Exponential(base: Seconds, doublings: nat): Seconds {
    base * Power2(doublings)
  }

  /** What answer `k` asks to wait: its header's value within a minute, or else its attempt's backoff. */
  predicate Asks(p: Policy, w: World, k: nat, delay: Seconds) {
    match HeaderOf(w.answer(k))
    case Some(After(seconds)) => delay == Clipped(Positive(seconds), 60.0)
    case Some(At(instant)) => delay == Clipped(Positive(instant - w.clock(ReadingOf(w, k) + 1)), 60.0)
    case Some(Unparsable) => delay == 0.0
    case None =>
      delay == Clipped(Exponential(p.backoff, Tries(w, k)), 60.0) + Clipped(Positive(w.jitter(AttemptOf(w, k))), p.jitterCap)
  }

  /** The sleep after answer `k`, from the reading that checks it. */
  predicate SleepsAfter(p: Policy, w: World, k: nat, s: Sleep) {
    s.at == w.clock(ReadingOf(w, k) + 2) && Asks(p, w, k, s.delay) && (s.retryAfter <==> HeaderOf(w.answer(k)).Some?)
  }

  /** Answer `k` let the loop go on: a followed redirect, or a retry after sleep number `Tries(w, k)`. */
  predicate GoesOn(p: Policy, w: World, deadline: Seconds, sleeps: seq<Sleep>, k: nat) {
    && OnTime(w, deadline, k)
    && if w.answer(k).Redirect? then !BadRedirect(w, k)
       else
         && WantsRetry(p, w, deadline, k)
         && Tries(w, k) < |sleeps|
         && SleepsAfter(p, w, k, sleeps[Tries(w, k)])
         && sleeps[Tries(w, k)].at + sleeps[Tries(w, k)].delay < deadline
  }

  /** All of the first `n` answers let the loop go on, with just these sleeps. */
  predicate Continued(p: Policy, w: World, deadline: Seconds, n: nat, sleeps: seq<Sleep>) {
    |sleeps| == Tries(w, n) && forall k :: 0 <= k < n ==> GoesOn(p, w, deadline, sleeps, k)
  }

  /** The sleep answer `k` asks for would end at or after the deadline. */
  ghost predicate SleepsTooLong(p: Policy, w: World, deadline: Seconds, k: nat) {
    WantsRetry(p, w, deadline, k) && forall s :: SleepsAfter(p, w, k, s) ==> s.at + s.delay >= deadline
  }

  /** What answer `k` makes of the request, if it does not let the loop go on. */
  ghost predicate Decides(p: Policy, w: World, deadline: Seconds, k: nat, v: Verdict) {
    match v
    case Response(attempts) =>
      FinalStatus(p, w, k) && w.answer(k).accepted && !PastRunDeadline(p, w, deadline, k) && attempts == AttemptOf(w, k)
    case Refused(TransportUnavailable) =>
      w.answer(k).TransportError? && LastAttempt(p, w, k) && !PastRunDeadline(p, w, deadline, k)
    case Refused(Rejected) => BadRedirect(w, k) || (FinalStatus(p, w, k) && !w.answer(k).accepted)
    case Refused(DeadlineExceeded) =>
      || (PastRunDeadline(p, w, deadline, k)
          && (w.answer(k).TransportError? || (FinalStatus(p, w, k) && w.answer(k).accepted)))
      || SleepsTooLong(p, w, deadline, k)
  }

  /** Answer `k` makes this of the request and nothing else. */
  ghost predicate Only(p: Policy, w: World, deadline: Seconds, k: nat, v: Verdict) {
    Decides(p, w, deadline, k, v) && forall u :: Decides(p, w, deadline, k, u) ==> u == v
  }

  /** The trace tells what happened: the answers that let the loop go on, and what ended it. */
  ghost predicate Tells(p: Policy, w: World, deadline: Seconds, t: Trace) {
    if t.sends == 0 || GoesOn(p, w, deadline, t.sleeps, t.sends - 1) then
      && Continued(p, w, deadline, t.sends, t.sleeps)
      && t.redirects == RedirectsBefore(w, t.sends)
      && !OnTime(w, deadline, t.sends) && t.verdict == Refused(DeadlineExceeded)
    else
      && Continued(p, w, deadline, t.sends - 1, t.sleeps)
      && t.redirects == RedirectsBefore(w, t.sends - 1) + (if BadRedirect(w, t.sends - 1) then 1 else 0)
      && OnTime(w, deadline, t.sends - 1)
      && Only(p, w, deadline, t.sends - 1, t.verdict)
  }

  /** The head of the loop before send `k`, reached by the first `k` answers. */
  ghost predicate AtHead(p: Policy, w: World, deadline: Seconds, attempt: nat, redirects: nat, k: nat, reading: nat,
                         sleeps: seq<Sleep>)
  {
    && Continued(p, w, deadline, k, sleeps)
    && attempt == AttemptOf(w, k) <= MaxAttempts(p)
    && redirects == RedirectsBefore(w, k) <= REDIRECT_LIMIT
    && reading == ReadingOf(w, k)
  }

  /** The delay the loop computes is the one its answer asks for. */
  lemma DelayIsAsked(p: Policy, w: World, k: nat)
    requires !w.answer(k).Redirect?
    ensures Asks(p, w, k, RetryAfterDelay(p, w, HeaderOf(w.answer(k)), AttemptOf(w, k), ReadingOf(w, k) + 1))
    ensures forall delay :: Asks(p, w, k, delay) ==>
              delay == RetryAfterDelay(p, w, HeaderOf(w.answer(k)), AttemptOf(w, k), ReadingOf(w, k) + 1)
  {
    if HeaderOf(w.answer(k)).None? {
      BackoffIsAsked(p, w, k, ReadingOf(w, k) + 1);
      hide Exponential, RetryAfterDelay, Tries;
    }
  }

  lemma BackoffIsAsked(p: Policy, w: World, k: nat, reading: nat)
    ensures RetryAfterDelay(p, w, None, AttemptOf(w, k), reading)
            == Clipped(Exponential(p.backoff, Tries(w, k)), 60.0) + Clipped(Positive(w.jitter(AttemptOf(w, k))), p.jitterCap)
  {
    BackoffOf(p, w, AttemptOf(w, k), reading);
    RetryDelayIs(AttemptOf(w, k), p.backoff, MAX_RETRY_DELAY, Min(Max(0.0, w.jitter(AttemptOf(w, k))), p.jitterCap));
    hide RetryDelay, RetryAfterDelay, Exponential, Tries;
  }

  lemma BackoffOf(p: Policy, w: World, attempt: nat, reading: nat)
    requires attempt >= 1
    ensures RetryAfterDelay(p, w, None, attempt, reading)
            == RetryDelay(attempt, p.backoff, MAX_RETRY_DELAY, Min(Max(0.0, w.jitter(attempt)), p.jitterCap))
  {
    hide RetryDelay;
  }

  lemma RetryDelayIs(attempt: nat, base: Seconds, cap: Seconds, jitter: Seconds)
    requires attempt >= 1
    ensures RetryDelay(attempt, base, cap, jitter) == Clipped(Exponential(base, attempt - 1), cap) + jitter
  {
    hide Power2;
  }

  lemma OneMoreSleep(p: Policy, w: World, deadline: Seconds, k: nat, sleeps: seq<Sleep>, s: Sleep)
    requires Continued(p, w, deadline, k, sleeps) && !w.answer(k).Redirect?
    requires OnTime(w, deadline, k) && WantsRetry(p, w, deadline, k)
    requires SleepsAfter(p, w, k, s) && s.at + s.delay < deadline
    ensures Continued(p, w, deadline, k + 1, sleeps + [s])
  {
    hide WantsRetry, SleepsAfter, OnTime, BadRedirect;
    forall i | 0 <= i < k ensures GoesOn(p, w, deadline, sleeps + [s], i) {
      assert GoesOn(p, w, deadline, sleeps, i);
    }
  }

  lemma OneMoreRedirect(p: Policy, w: World, deadline: Seconds, k: nat, sleeps: seq<Sleep>)
    requires Continued(p, w, deadline, k, sleeps) && w.answer(k).Redirect?
    requires OnTime(w, deadline, k) && !BadRedirect(w, k)
    ensures Continued(p, w, deadline, k + 1, sleeps)
  {
    hide WantsRetry, SleepsAfter, OnTime, BadRedirect;
  }

  /** The request ends at answer `k`, in this way. */
  lemma EndsAtAnswer(p: Policy, w: World, deadline: Seconds, k: nat, sleeps: seq<Sleep>, redirects: nat, v: Verdict)
    requires Continued(p, w, deadline, k, sleeps) && OnTime(w, deadline, k)
    requires redirects == RedirectsBefore(w, k) + (if BadRedirect(w, k) then 1 else 0)
    requires w.answer(k).Redirect? ==> BadRedirect(w, k)
    requires Only(p, w, deadline, k, v)
    ensures Tells(p, w, deadline, Trace(v, k + 1, redirects, sleeps))
  {
    hide Only, WantsRetry, SleepsAfter, BadRedirect, OnTime, PastRunDeadline;
  }

  lemma HeadIsLate(p: Policy, w: World, deadline: Seconds, k: nat, sleeps: seq<Sleep>)
    requires Continued(p, w, deadline, k, sleeps) && !OnTime(w, deadline, k)
    ensures Tells(p, w, deadline, Trace(Refused(DeadlineExceeded), k, RedirectsBefore(w, k), sleeps))
  {
    hide WantsRetry, SleepsAfter, BadRedirect, OnTime;
  }

  /** A retry whose sleep would end too late decides for the deadline, and only for it. */
  lemma TooLongDecides(p: Policy, w: World, deadline: Seconds, k: nat)
    requires !w.answer(k).Redirect? && WantsRetry(p, w, deadline, k)
    requires w.clock(ReadingOf(w, k) + 2)
             + RetryAfterDelay(p, w, HeaderOf(w.answer(k)), AttemptOf(w, k), ReadingOf(w, k) + 1) >= deadline
    ensures Only(p, w, deadline, k, Refused(DeadlineExceeded))
  {
    DelayIsAsked(p, w, k);
    hide Asks, RetryAfterDelay;
  }

  lemma StatusDecides(p: Policy, w: World, deadline: Seconds, k: nat)
    requires FinalStatus(p, w, k)
    ensures Only(p, w, deadline, k, Final(p, w, deadline, AttemptOf(w, k), w.answer(k).accepted, ReadingOf(w, k) + 1))
  {
    hide Asks;
  }

  lemma RedirectDecides(p: Policy, w: World, deadline: Seconds, k: nat)
    requires BadRedirect(w, k)
    ensures Only(p, w, deadline, k, Refused(Rejected))
  {
    hide Asks;
  }

  lemma ErrorDecides(p: Policy, w: World, deadline: Seconds, k: nat)
    requires w.answer(k).TransportError?
    ensures PastRunDeadline(p, w, deadline, k) ==> Only(p, w, deadline, k, Refused(DeadlineExceeded))
    ensures !PastRunDeadline(p, w, deadline, k) && LastAttempt(p, w, k) ==>
              Only(p, w, deadline, k, Refused(TransportUnavailable))
  {
    hide Asks;
  }

  lemma {:induction false} ExchangeTells(p: Policy, w: World, deadline: Seconds, attempt: nat, redirects: nat, k: nat,
                                         reading: nat, sleeps: seq<Sleep>)
    requires AtHead(p, w, deadline, attempt, redirects, k, reading, sleeps)
    ensures Tells(p, w, deadline, Exchange(p, w, deadline, attempt, redirects, k, reading, sleeps))
    decreases MaxAttempts(p) - attempt + REDIRECT_LIMIT - redirects
  {
    hide Tells, Only, Continued, Asks, RetryAfterDelay, RetryDelay, Final;
    if !OnTime(w, deadline, k) {
      HeadIsLate(p, w, deadline, k, sleeps);
    } else {
      match w.answer(k)
      case Redirect(allowed) =>
        if BadRedirect(w, k) {
          RedirectDecides(p, w, deadline, k);
          EndsAtAnswer(p, w, deadline, k, sleeps, redirects + 1, Refused(Rejected));
        } else {
          OneMoreRedirect(p, w, deadline, k, sleeps);
          ExchangeTells(p, w, deadline, attempt, redirects + 1, k + 1, reading + 1, sleeps);
        }
      case Status(retryable, header, accepted) =>
        if FinalStatus(p, w, k) {
          StatusDecides(p, w, deadline, k);
          EndsAtAnswer(p, w, deadline, k, sleeps, redirects, Final(p, w, deadline, attempt, accepted, reading + 1));
        } else {
          RetryTells(p, w, deadline, attempt, redirects, k, reading, sleeps);
        }
      case TransportError =>
        ErrorDecides(p, w, deadline, k);
        BackoffOf(p, w, attempt, reading + 1);
        if PastRunDeadline(p, w, deadline, k) {
          EndsAtAnswer(p, w, deadline, k, sleeps, redirects, Refused(DeadlineExceeded));
        } else if LastAttempt(p, w, k) {
          EndsAtAnswer(p, w, deadline, k, sleeps, redirects, Refused(TransportUnavailable));
        } else {
          RetryTells(p, w, deadline, attempt, redirects, k, reading, sleeps);
        }
    }
  }

  /** The step of a retry: it sleeps and goes on, or it would sleep too long. */
  lemma {:induction false} RetryTells(p: Policy, w: World, deadline: Seconds, attempt: nat, redirects: nat, k: nat,
                                      reading: nat, sleeps: seq<Sleep>)
    requires AtHead(p, w, deadline, attempt, redirects, k, reading, sleeps)
    requires !w.answer(k).Redirect? && OnTime(w, deadline, k) && WantsRetry(p, w, deadline, k)
    ensures attempt < MaxAttempts(p)
    ensures var header := HeaderOf(w.answer(k));
            Tells(p, w, deadline, Retry(p, w, deadline, attempt, redirects, k + 1, reading + 2,
                                        RetryAfterDelay(p, w, header, attempt, reading + 1), header.Some?, sleeps))
    decreases MaxAttempts(p) - attempt + REDIRECT_LIMIT - redirects, 0
  {
    hide Tells, Only, Continued, Asks, RetryAfterDelay;
    var header := HeaderOf(w.answer(k));
    var s := Sleep(w.clock(reading + 2), RetryAfterDelay(p, w, header, attempt, reading + 1), header.Some?);
    DelayIsAsked(p, w, k);
    if s.at + s.delay >= deadline {
      TooLongDecides(p, w, deadline, k);
      EndsAtAnswer(p, w, deadline, k, sleeps, redirects, Refused(DeadlineExceeded));
    } else {
      OneMoreSleep(p, w, deadline, k, sleeps, s);
      ExchangeTells(p, w, deadline, attempt + 1, redirects, k + 1, reading + 3, sleeps + [s]);
    }
  }

  /**
   For every sequence of answers, clock readings and jitters: a response is returned exactly for
   an accepted final status in time, the transport is unavailable exactly after an error on the
   last attempt, a request is rejected exactly for a redirect too many or not allowed and for an
   unaccepted final status; all else is the deadline, and every sleep is the one asked for.
   */
  lemma RequestTells(p: Policy, w: World, deadline: Seconds)
    ensures Tells(p, w, deadline, Exchange(p, w, deadline, 1, 0, 0, 0, []))
  {
    ExchangeTells(p, w, deadline, 1, 0, 0, 0, []);
  }
}
