/**
 * The circuit breaker of app/core/resilience/recovery.py.
 *
 * `call` holds the lock only while it decides to admit and while it records an outcome; the
 * protected function runs between the two, so the calls of one breaker overlap freely.
 */
module CircuitBreaker {
  datatype Mode = Closed | Open | HalfOpen

  datatype Config = Config(failureThreshold: int, recoveryTimeout: real)

  datatype Breaker = Breaker(mode: Mode, failures: nat, lastFailure: real, openUntil: real)

  const NEW := Breaker(Closed, 0, 0.0, 0.0)

  // The locked prologue of `call`: whether the function may run, and the state after.
  function Admit(b: Breaker, now: real): (bool, Breaker) {
    if b.mode.Open? then
      if now >= b.openUntil then (true, b.(mode := HalfOpen)) else (false, b)
    else (true, b)
  }

  // `_record_failure`; the clock is read once for the failure and again for the reopening.
  function RecordFailure(cfg: Config, b: Breaker, at: real, tripAt: real): Breaker {
    var counted := b.(failures := b.failures + 1, lastFailure := at);
    if b.mode.HalfOpen? || (b.mode.Closed? && counted.failures >= cfg.failureThreshold)
    then counted.(mode := Open, openUntil := tripAt + cfg.recoveryTimeout)
    else counted
  }

  function RecordSuccess(b: Breaker): Breaker {
    b.(mode := Closed, failures := 0)
  }

  // How the protected function ended; a cancellation is not an `Exception`, so it records nothing.
  datatype Outcome = Returned | Raised(at: real, tripAt: real) | Cancelled

  class Circuit {
    const cfg: Config
    var mode: Mode
    var failures: nat
    var lastFailure: real
    var openUntil: real

    function Contents(): Breaker
      reads this
    {
      Breaker(mode, failures, lastFailure, openUntil)
    }

    constructor (cfg: Config)
      ensures this.cfg == cfg && Contents() == NEW
    {
      this.cfg := cfg;
      mode, failures, lastFailure, openUntil := Closed, 0, 0.0, 0.0;
    }

    method Enter(now: real) returns (admitted: bool)
      modifies this
      ensures (admitted, Contents()) == Admit(old(Contents()), now)
    {
      if mode.Open? {
        if now >= openUntil {
          mode := HalfOpen;
        } else {
          return false;
        }
      }
      return true;
    }

    method Fail(at: real, tripAt: real)
      modifies this
      ensures Contents() == RecordFailure(cfg, old(Contents()), at, tripAt)
    {
      failures := failures + 1;
      lastFailure := at;
      if mode.HalfOpen? || (mode.Closed? && failures >= cfg.failureThreshold) {
        mode := Open;
        openUntil := tripAt + cfg.recoveryTimeout;
      }
    }

    method Succeed()
      modifies this
      ensures Contents() == RecordSuccess(old(Contents()))
    {
      mode := Closed;
      failures := 0;
    }

    // A call that no other call overlaps.
    method Call(now: real, outcome: Outcome) returns (invoked: bool)
      modifies this
      ensures var (admitted, entered) := Admit(old(Contents()), now);
              && invoked == admitted
              && Contents() == if !admitted then entered
                               else match outcome
                                    case Returned => RecordSuccess(entered)
                                    case Raised(at, tripAt) => RecordFailure(cfg, entered, at, tripAt)
                                    case Cancelled => entered
    {
      invoked := Enter(now);
      if invoked {
        match outcome
        case Returned => Succeed();
        case Raised(at, tripAt) => Fail(at, tripAt);
        case Cancelled =>
      }
    }
  }

  // ------------------------------------------------------------------
  // Overlapping calls
  // ------------------------------------------------------------------

  // The critical sections of any number of calls, in the order the lock admits them.
  datatype Event = Enter(now: real) | Finish(outcome: Outcome)

  // The breaker together with the number of calls now inside the protected function.
  datatype State = State(breaker: Breaker, running: nat)

  function Next(cfg: Config, s: State, e: Event): State {
    match e
    case Enter(now) =>
      var (admitted, b) := Admit(s.breaker, now);
      State(b, if admitted then s.running + 1 else s.running)
    case Finish(outcome) =>
      var b := match outcome
               case Returned => RecordSuccess(s.breaker)
               case Raised(at, tripAt) => RecordFailure(cfg, s.breaker, at, tripAt)
               case Cancelled => s.breaker;
      State(b, if s.running == 0 then 0 else s.running - 1)
  }

  function After(cfg: Config, run: seq<Event>): State {
    if run == [] then State(NEW, 0) else Next(cfg, After(cfg, run[..|run| - 1]), run[|run| - 1])
  }

  // Only a call that was admitted can finish.
  predicate Legal(cfg: Config, run: seq<Event>) {
    run == [] || (
      && Legal(cfg, run[..|run| - 1])
      && (run[|run| - 1].Finish? ==> 0 < After(cfg, run[..|run| - 1]).running))
  }

  // The reference: read off the history alone, with no breaker in sight.
  function FailuresSinceSuccess(run: seq<Event>): nat {
    if run == [] then 0
    else match run[|run| - 1]
      case Finish(Returned) => 0
      case Finish(Raised(_, _)) => FailuresSinceSuccess(run[..|run| - 1]) + 1
      case _ => FailuresSinceSuccess(run[..|run| - 1])
  }

  ghost predicate ClosedMeansFewFailures(cfg: Config, run: seq<Event>) {
    After(cfg, run).breaker.mode.Closed? <==> FailuresSinceSuccess(run) < cfg.failureThreshold
  }

  // Under any overlap the circuit is closed exactly while the history shows fewer failures
  // since the last success than the threshold, and the counter is that number.
  lemma {:induction false} HistoryEquivalence(cfg: Config, run: seq<Event>)
    requires 1 <= cfg.failureThreshold
    ensures ClosedMeansFewFailures(cfg, run)
    ensures After(cfg, run).breaker.failures == FailuresSinceSuccess(run)
  {
    if run != [] {
      HistoryEquivalence(cfg, run[..|run| - 1]);
    }
  }

  // A positive threshold is exactly what the equivalence needs.
  lemma EquivalenceNeedsPositiveThreshold(cfg: Config)
    ensures (forall run :: Legal(cfg, run) ==> ClosedMeansFewFailures(cfg, run)) <==> 1 <= cfg.failureThreshold
  {
    if 1 <= cfg.failureThreshold {
      forall run | Legal(cfg, run) ensures ClosedMeansFewFailures(cfg, run) {
        HistoryEquivalence(cfg, run);
      }
    } else {
      assert Legal(cfg, []) && !ClosedMeansFewFailures(cfg, []);
    }
  }

  // ------------------------------------------------------------------
  // One caller, every call failing
  // ------------------------------------------------------------------

  // One attempt: when `call` was entered and, were it admitted, when its failure is recorded.
  datatype Attempt = Attempt(start: real, at: real, tripAt: real)

  predicate Sequential(attempts: seq<Attempt>) {
    && (forall i | 0 <= i < |attempts| :: attempts[i].start <= attempts[i].at <= attempts[i].tripAt)
    && (forall i | 0 < i < |attempts| :: attempts[i - 1].tripAt <= attempts[i].start)
  }

  function Try(cfg: Config, b: Breaker, a: Attempt): Breaker {
    var (admitted, entered) := Admit(b, a.start);
    if admitted then RecordFailure(cfg, entered, a.at, a.tripAt) else entered
  }

  function AfterAttempts(cfg: Config, attempts: seq<Attempt>): Breaker {
    if attempts == [] then NEW
    else Try(cfg, AfterAttempts(cfg, attempts[..|attempts| - 1]), attempts[|attempts| - 1])
  }

  // The start times of the attempts that reached the protected function.
  function Invocations(cfg: Config, attempts: seq<Attempt>): seq<real> {
    if attempts == [] then []
    else
      var front, last := attempts[..|attempts| - 1], attempts[|attempts| - 1];
      Invocations(cfg, front) + if Admit(AfterAttempts(cfg, front), last.start).0 then [last.start] else []
  }

  function Trips(cfg: Config): nat {
    if cfg.failureThreshold < 1 then 1 else cfg.failureThreshold
  }

  // Every invocation from the tripping one on waits out a full recovery timeout.
  predicate Spaced(cfg: Config, starts: seq<real>) {
    && (forall i | 0 < i < |starts| :: starts[i - 1] <= starts[i])
    && (forall i | Trips(cfg) <= i < |starts| :: starts[i - 1] + cfg.recoveryTimeout <= starts[i])
  }

  // The breaker after failing invocations at `starts`, the last one recorded by `latest`.
  predicate Tracks(cfg: Config, b: Breaker, starts: seq<real>, latest: real) {
    && Spaced(cfg, starts) && b.failures == |starts| && !b.mode.HalfOpen?
    && (b.mode.Open? <==> Trips(cfg) <= |starts|)
    && (b.mode.Open? ==> starts[|starts| - 1] + cfg.recoveryTimeout <= b.openUntil)
    && (starts != [] ==> starts[|starts| - 1] <= latest)
  }

  lemma AttemptTracked(cfg: Config, b: Breaker, starts: seq<real>, latest: real, a: Attempt)
    requires 0.0 <= cfg.recoveryTimeout && Tracks(cfg, b, starts, latest)
    requires latest <= a.start <= a.at <= a.tripAt
    ensures Tracks(cfg, Try(cfg, b, a), starts + if Admit(b, a.start).0 then [a.start] else [], a.tripAt)
  {
  }

  lemma {:induction false} InvocationsAreSpaced(cfg: Config, attempts: seq<Attempt>, latest: real)
    requires 0.0 <= cfg.recoveryTimeout && Sequential(attempts)
    requires attempts != [] ==> attempts[|attempts| - 1].tripAt <= latest
    ensures Tracks(cfg, AfterAttempts(cfg, attempts), Invocations(cfg, attempts), latest)
  {
    if attempts != [] {
      var front, last := attempts[..|attempts| - 1], attempts[|attempts| - 1];
      assert Sequential(front);
      InvocationsAreSpaced(cfg, front, last.start);
      AttemptTracked(cfg, AfterAttempts(cfg, front), Invocations(cfg, front), last.start, last);
    }
  }

  lemma {:induction false} SpacedGap(cfg: Config, starts: seq<real>, k: nat)
    requires Spaced(cfg, starts) && Trips(cfg) - 1 <= k < |starts|
    ensures starts[0] + (k - (Trips(cfg) - 1)) as real * cfg.recoveryTimeout <= starts[k]
  {
    if k == Trips(cfg) - 1 {
      FirstIsEarliest(cfg, starts, k);
    } else {
      SpacedGap(cfg, starts, k - 1);
      var n := k - Trips(cfg);
      assert (n + 1) as real * cfg.recoveryTimeout == n as real * cfg.recoveryTimeout + cfg.recoveryTimeout;
    }
  }

  lemma {:induction false} FirstIsEarliest(cfg: Config, starts: seq<real>, k: nat)
    requires Spaced(cfg, starts) && k < |starts|
    ensures starts[0] <= starts[k]
  {
    if k != 0 {
      FirstIsEarliest(cfg, starts, k - 1);
    }
  }

  /**
   * The call bound: when every invocation fails and none overlaps, at most
   * threshold + floor(T / timeout) of them start within T seconds of the first.
   */
  lemma InvocationBound(cfg: Config, attempts: seq<Attempt>, seconds: real, count: nat)
    requires 0.0 < cfg.recoveryTimeout && Sequential(attempts) && 0.0 <= seconds
    requires var starts := Invocations(cfg, attempts);
             0 < count <= |starts| && starts[count - 1] - starts[0] <= seconds
    ensures count <= Trips(cfg) + (seconds / cfg.recoveryTimeout).Floor
  {
    InvocationsAreSpaced(cfg, attempts, attempts[|attempts| - 1].tripAt);
    SpacedBound(cfg, Invocations(cfg, attempts), seconds, count);
  }

  lemma SpacedBound(cfg: Config, starts: seq<real>, seconds: real, count: nat)
    requires 0.0 < cfg.recoveryTimeout && Spaced(cfg, starts) && 0.0 <= seconds
    requires 0 < count <= |starts| && starts[count - 1] - starts[0] <= seconds
    ensures count <= Trips(cfg) + (seconds / cfg.recoveryTimeout).Floor
  {
    var extra := if Trips(cfg) < count then count - Trips(cfg) else 0;
    if 0 < extra {
      SpacedGap(cfg, starts, count - 1);
    }
    DivideBound(extra, cfg.recoveryTimeout, seconds);
  }

  lemma DivideBound(n: nat, step: real, total: real)
    requires 0.0 < step && n as real * step <= total
    ensures n <= (total / step).Floor
  {
    var q := total / step;
    assert q * step == total;
    assert n as real <= q;
  }

  // ------------------------------------------------------------------
  // When a call gets through
  // ------------------------------------------------------------------

  // The failing attempts that reach the function, by their recorded times alone: the first
  // ones up to the threshold, and then one after each recovery timeout.
  function Reached(cfg: Config, attempts: seq<Attempt>): seq<Attempt> {
    if attempts == [] then []
    else
      var before, last := Reached(cfg, attempts[..|attempts| - 1]), attempts[|attempts| - 1];
      if MayTry(cfg, before, last.start) then before + [last] else before
  }

  predicate MayTry(cfg: Config, before: seq<Attempt>, start: real) {
    |before| < Trips(cfg) || before[|before| - 1].tripAt + cfg.recoveryTimeout <= start
  }

  lemma {:induction false} FailingCallerState(cfg: Config, attempts: seq<Attempt>)
    ensures var b, before := AfterAttempts(cfg, attempts), Reached(cfg, attempts);
            && b.failures == |before| && !b.mode.HalfOpen?
            && (b.mode.Open? <==> Trips(cfg) <= |before|)
            && (b.mode.Open? ==> b.openUntil == before[|before| - 1].tripAt + cfg.recoveryTimeout)
  {
    if attempts != [] {
      FailingCallerState(cfg, attempts[..|attempts| - 1]);
    }
  }

  /** A caller that always fails reaches the function exactly at those attempts. */
  lemma FailingCallerReaches(cfg: Config, attempts: seq<Attempt>, i: nat)
    requires i < |attempts|
    ensures Admit(AfterAttempts(cfg, attempts[..i]), attempts[i].start).0
            <==> MayTry(cfg, Reached(cfg, attempts[..i]), attempts[i].start)
    ensures Invocations(cfg, attempts) == Starts(Reached(cfg, attempts))
  {
    FailingCallerState(cfg, attempts[..i]);
    InvocationsAreReached(cfg, attempts);
  }

  function Starts(attempts: seq<Attempt>): seq<real> {
    seq(|attempts|, i requires 0 <= i < |attempts| => attempts[i].start)
  }

  lemma {:induction false} InvocationsAreReached(cfg: Config, attempts: seq<Attempt>)
    ensures Invocations(cfg, attempts) == Starts(Reached(cfg, attempts))
  {
    if attempts != [] {
      InvocationsAreReached(cfg, attempts[..|attempts| - 1]);
      FailingCallerState(cfg, attempts[..|attempts| - 1]);
    }
  }

  // A call that no other overlaps, and what its function would do.
  datatype Visit = Visit(start: real, outcome: Outcome)

  function Visited(cfg: Config, b: Breaker, v: Visit): Breaker {
    var (admitted, entered) := Admit(b, v.start);
    if !admitted then entered
    else match v.outcome
      case Returned => RecordSuccess(entered)
      case Raised(at, tripAt) => RecordFailure(cfg, entered, at, tripAt)
      case Cancelled => entered
  }

  function AfterVisits(cfg: Config, visits: seq<Visit>): Breaker {
    if visits == [] then NEW
    else Visited(cfg, AfterVisits(cfg, visits[..|visits| - 1]), visits[|visits| - 1])
  }

  function FailuresAtEnd(visits: seq<Visit>): nat {
    if visits == [] then 0
    else match visits[|visits| - 1].outcome
      case Returned => 0
      case Raised(_, _) => FailuresAtEnd(visits[..|visits| - 1]) + 1
      case Cancelled => FailuresAtEnd(visits[..|visits| - 1])
  }

  // The last call to get through failed, was one failure too many since the last success,
  // and its recovery timeout is not over.
  predicate Recovering(cfg: Config, through: seq<Visit>, now: real) {
    && through != [] && through[|through| - 1].outcome.Raised?
    && Trips(cfg) <= FailuresAtEnd(through)
    && now < through[|through| - 1].outcome.tripAt + cfg.recoveryTimeout
  }

  // The calls that get through, by their recorded times and outcomes alone.
  function Through(cfg: Config, visits: seq<Visit>): seq<Visit> {
    if visits == [] then []
    else
      var before, last := Through(cfg, visits[..|visits| - 1]), visits[|visits| - 1];
      if Recovering(cfg, before, last.start) then before else before + [last]
  }

  lemma {:induction false} SequentialState(cfg: Config, visits: seq<Visit>)
    ensures var b, through := AfterVisits(cfg, visits), Through(cfg, visits);
            var failed := through != [] && through[|through| - 1].outcome.Raised?;
            && b.failures == FailuresAtEnd(through)
            && (b.mode.Closed? <==> FailuresAtEnd(through) < Trips(cfg))
            && (b.mode.Open? <==> Trips(cfg) <= FailuresAtEnd(through) && failed)
            && (b.mode.Open? ==> b.openUntil == through[|through| - 1].outcome.tripAt + cfg.recoveryTimeout)
  {
    if visits != [] {
      var front, last := visits[..|visits| - 1], visits[|visits| - 1];
      SequentialState(cfg, front);
      var before := Through(cfg, front);
      assert (before + [last])[..|before|] == before;
    }
  }

  /** Without overlap a call is refused exactly while the circuit recovers. */
  lemma RefusedWhileRecovering(cfg: Config, visits: seq<Visit>, now: real)
    ensures Admit(AfterVisits(cfg, visits), now).0 <==> !Recovering(cfg, Through(cfg, visits), now)
  {
    SequentialState(cfg, visits);
  }

  // ------------------------------------------------------------------
  // When overlapping calls get through
  // ------------------------------------------------------------------

  // A failure after which nothing succeeded, whose recovery timeout is not over.
  predicate Keeps(cfg: Config, run: seq<Event>, i: nat, now: real) {
    && i < |run| && run[i].Finish? && run[i].outcome.Raised? && now < run[i].outcome.tripAt + cfg.recoveryTimeout
    && forall k | i < k < |run| :: run[k] != Finish(Returned)
  }

  lemma {:induction false} OpenedByFailure(cfg: Config, run: seq<Event>)
    requires After(cfg, run).breaker.mode.Open?
    ensures exists i :: 0 <= i < |run| && run[i].Finish? && run[i].outcome.Raised?
                        && After(cfg, run).breaker.openUntil == run[i].outcome.tripAt + cfg.recoveryTimeout
                        && forall k | i < k < |run| :: run[k] != Finish(Returned)
  {
    var front, last := run[..|run| - 1], run[|run| - 1];
    var b := After(cfg, front).breaker;
    if b.mode.Open? {
      OpenedByFailure(cfg, front);
      var i :| 0 <= i < |front| && front[i].Finish? && front[i].outcome.Raised?
               && b.openUntil == front[i].outcome.tripAt + cfg.recoveryTimeout
               && forall k | i < k < |front| :: front[k] != Finish(Returned);
      assert run[i] == front[i];
      assert forall k | i < k < |front| :: run[k] == front[k];
    } else {
      assert last.Finish? && last.outcome.Raised?;
    }
  }

  /**
   * Under any overlap a call is refused only if a recorded failure, with no success since,
   * is less than a recovery timeout old; so it gets through once every failure is older.
   */
  lemma RefusedSoonAfterFailure(cfg: Config, run: seq<Event>, now: real)
    requires !Admit(After(cfg, run).breaker, now).0
    ensures exists i :: 0 <= i < |run| && Keeps(cfg, run, i, now)
  {
    OpenedByFailure(cfg, run);
    var i :| 0 <= i < |run| && run[i].Finish? && run[i].outcome.Raised?
             && After(cfg, run).breaker.openUntil == run[i].outcome.tripAt + cfg.recoveryTimeout
             && forall k | i < k < |run| :: run[k] != Finish(Returned);
    assert Keeps(cfg, run, i, now);
  }

  // And one success among overlapping calls, however late, closes the circuit: it admits
  // every call until as many failures as the threshold are recorded after it.
  lemma SuccessRecovers(cfg: Config, run: seq<Event>, later: seq<Event>, now: real)
    requires 1 <= cfg.failureThreshold && FailuresIn(later) < cfg.failureThreshold
    ensures Admit(After(cfg, run + [Finish(Returned)] + later).breaker, now).0
  {
    var whole := run + [Finish(Returned)] + later;
    FailuresAfterSuccess(run + [Finish(Returned)], later);
    HistoryEquivalence(cfg, whole);
  }

  function FailuresIn(run: seq<Event>): nat {
    if run == [] then 0
    else FailuresIn(run[..|run| - 1]) + if run[|run| - 1].Finish? && run[|run| - 1].outcome.Raised? then 1 else 0
  }

  lemma {:induction false} FailuresAfterSuccess(run: seq<Event>, later: seq<Event>)
    requires run != [] && run[|run| - 1] == Finish(Returned)
    ensures FailuresSinceSuccess(run + later) <= FailuresIn(later)
    decreases |later|
  {
    if later == [] {
      assert run + later == run;
    } else {
      FailuresAfterSuccess(run, later[..|later| - 1]);
      assert (run + later)[..|run + later| - 1] == run + later[..|later| - 1];
    }
  }
}
