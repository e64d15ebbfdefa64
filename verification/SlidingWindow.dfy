/**
 * The Redis sliding-window limiter (app/core/ratelimit/sliding_window.py).
 *
 * One key holds a sorted set of request entries and a time to live. A check is one
 * MULTI/EXEC pipeline (trim, add, count, expire); a refused request later removes its
 * own entry in a separate command, which may race with other requests or never happen.
 * Request timestamps come from the application servers, expiry from the Redis clock.
 */
module SlidingWindow {
  import opened Wrappers
  import opened Sets

  // Sorted-set members are `timestamp:uuid` strings, so every request has its own.
  type Member = nat

  datatype Limit = Limit(requests: int, window: real)

  datatype Log = Log(entries: map<Member, real>, expireAt: Option<real>)

  const EMPTY := Log(map[], None)

  // A key is gone for every command after the instant its time to live runs out.
  function Live(log: Log, clock: real): Log {
    if log.expireAt.Some? && log.expireAt.value < clock then EMPTY else log
  }

  // ZREMRANGEBYSCORE key 0 windowStart
  function Trim(log: Log, windowStart: real): Log {
    log.(entries := map m | m in log.entries && !(0.0 <= log.entries[m] <= windowStart) :: log.entries[m])
  }

  // The MULTI/EXEC pipeline of `is_allowed`; the count is what ZCARD returns.
  function Admit(limit: Limit, log: Log, clock: real, now: real, member: Member): (r: (Log, nat)) {
    var trimmed := Trim(Live(log, clock), now - limit.window);
    var added := trimmed.entries[member := now];
    (Log(added, Some(clock + limit.window)), |added|)
  }

  // ZREM key member
  function Remove(log: Log, clock: real, member: Member): Log {
    var live := Live(log, clock);
    live.(entries := live.entries - {member})
  }

  function Remaining(limit: Limit, log: Log): nat {
    if limit.requests <= |log.entries| then 0 else limit.requests - |log.entries|
  }

  // ------------------------------------------------------------------
  // The limiter object
  // ------------------------------------------------------------------

  class RedisKey {
    var entries: map<Member, real>
    var expireAt: Option<real>

    function Contents(): Log
      reads this
    {
      Log(entries, expireAt)
    }

    constructor ()
      ensures Contents() == EMPTY
    {
      entries, expireAt := map[], None;
    }

    method Expire(clock: real)
      modifies this
      ensures Contents() == Live(old(Contents()), clock)
    {
      if expireAt.Some? && expireAt.value < clock {
        entries, expireAt := map[], None;
      }
    }

    method ZRemRangeByScore(windowStart: real)
      modifies `entries
      ensures Contents() == Trim(old(Contents()), windowStart)
    {
      entries := map m | m in entries && !(0.0 <= entries[m] <= windowStart) :: entries[m];
    }
  }

  // Where a Redis error strikes during one `is_allowed` call.
  datatype Fault = NoFault | PipelineFails | UndoFails

  class RedisSlidingWindowLimiter {
    const limit: Limit

    constructor (requests: int, windowSeconds: real)
      ensures limit == Limit(requests, windowSeconds)
    {
      limit := Limit(requests, windowSeconds);
    }

    /**
     * `clock` is the Redis clock when the pipeline runs, `undoClock` when the undo does.
     * An error raised by the undo is caught by the same handler as every other one, so a
     * request over the limit is then let through.
     */
    method IsAllowed(key: RedisKey, clock: real, now: real, member: Member, undoClock: real, fault: Fault)
      returns (allowed: bool)
      modifies key
      ensures fault.PipelineFails? ==> allowed && key.Contents() == old(key.Contents())
      ensures !fault.PipelineFails? ==>
                var (after, count) := Admit(limit, old(key.Contents()), clock, now, member);
                if count <= limit.requests then allowed && key.Contents() == after
                else if fault.UndoFails? then allowed && key.Contents() == after
                else !allowed && key.Contents() == Remove(after, undoClock, member)
    {
      if fault.PipelineFails? {
        return true;
      }
      key.Expire(clock);
      key.ZRemRangeByScore(now - limit.window);
      key.entries := key.entries[member := now];
      var count := |key.entries|;
      key.expireAt := Some(clock + limit.window);
      if count > limit.requests {
        if fault.UndoFails? {
          return true;
        }
        key.Expire(undoClock);
        key.entries := key.entries - {member};
        return false;
      }
      return true;
    }

    method GetRemaining(key: RedisKey, clock: real, now: real, countClock: real, fails: bool) returns (remaining: int)
      modifies key
      ensures fails ==> remaining == limit.requests && key.Contents() == old(key.Contents())
      ensures !fails ==>
                && key.Contents() == Live(Trim(Live(old(key.Contents()), clock), now - limit.window), countClock)
                && remaining == Remaining(limit, key.Contents())
    {
      if fails {
        return limit.requests;
      }
      key.Expire(clock);
      key.ZRemRangeByScore(now - limit.window);
      key.Expire(countClock);
      var count := |key.entries|;
      remaining := if limit.requests - count < 0 then 0 else limit.requests - count;
    }
  }

  // ------------------------------------------------------------------
  // Concurrent runs
  // ------------------------------------------------------------------

  /**
   * What Redis executes, in its own order. `Ask` is a pipeline whose reply was returned to
   * the caller; `Lost` one whose reply was lost, so the caller failed open; `Undo` the
   * removal of a refused request's entry, at any later time or never; `Peek` the trim of
   * `get_remaining`.
   */
  datatype Event =
    | Ask(clock: real, now: real, member: Member)
    | Lost(clock: real, now: real, member: Member)
    | Undo(clock: real, member: Member)
    | Peek(clock: real, now: real)

  // `allowed` maps each request let through by the count to its timestamp.
  datatype State = State(clock: real, log: Log, allowed: map<Member, real>, refused: set<Member>, lost: set<Member>)

  const START := State(0.0, EMPTY, map[], {}, {})

  // The request's timestamp lags the Redis clock by at most `lag`.
  predicate Timely(lag: real, clock: real, now: real) {
    0.0 <= now <= clock <= now + lag
  }

  predicate Enabled(lag: real, s: State, e: Event) {
    && s.clock <= e.clock
    && match e
       case Ask(clock, now, m) => Timely(lag, clock, now) && m !in s.allowed.Keys + s.refused + s.lost
       case Lost(clock, now, m) => Timely(lag, clock, now) && m !in s.allowed.Keys + s.refused + s.lost
       case Undo(_, m) => m in s.refused
       case Peek(clock, now) => Timely(lag, clock, now)
  }

  function Next(limit: Limit, s: State, e: Event): State {
    match e
    case Ask(clock, now, m) =>
      var (after, count) := Admit(limit, s.log, clock, now, m);
      if count <= limit.requests
      then s.(clock := clock, log := after, allowed := s.allowed[m := now])
      else s.(clock := clock, log := after, refused := s.refused + {m})
    case Lost(clock, now, m) =>
      s.(clock := clock, log := Admit(limit, s.log, clock, now, m).0, lost := s.lost + {m})
    case Undo(clock, m) =>
      s.(clock := clock, log := Remove(s.log, clock, m))
    case Peek(clock, now) =>
      s.(clock := clock, log := Trim(Live(s.log, clock), now - limit.window))
  }

  function After(limit: Limit, run: seq<Event>): State {
    if run == [] then START else Next(limit, After(limit, run[..|run| - 1]), run[|run| - 1])
  }

  predicate Legal(limit: Limit, lag: real, run: seq<Event>) {
    run == [] || (
      && Legal(limit, lag, run[..|run| - 1])
      && Enabled(lag, After(limit, run[..|run| - 1]), run[|run| - 1]))
  }

  // A counted request either still has its entry, safe from expiry for a full window, or
  // its timestamp is at least one window behind the Redis clock.
  predicate Remembered(limit: Limit, s: State) {
    && s.allowed.Keys !! s.refused
    && forall m | m in s.allowed ::
         || s.allowed[m] <= s.clock - limit.window
         || (&& m in s.log.entries && s.log.entries[m] == s.allowed[m]
             && s.log.expireAt.Some? && s.allowed[m] + limit.window <= s.log.expireAt.value
             && s.allowed[m] <= s.clock)
  }

  lemma StepRemembers(limit: Limit, lag: real, s: State, e: Event)
    requires Remembered(limit, s) && Enabled(lag, s, e)
    ensures Remembered(limit, Next(limit, s, e))
  {
  }

  lemma {:induction false} AllowedAreRemembered(limit: Limit, lag: real, run: seq<Event>)
    requires Legal(limit, lag, run)
    ensures Remembered(limit, After(limit, run))
  {
    if run != [] {
      AllowedAreRemembered(limit, lag, run[..|run| - 1]);
      StepRemembers(limit, lag, After(limit, run[..|run| - 1]), run[|run| - 1]);
    }
  }

  // The requests of `batch` carry timestamps that are pairwise less than `span` apart.
  predicate Within(times: map<Member, real>, batch: set<Member>, span: real) {
    forall a, b | a in batch && b in batch && a in times && b in times :: times[a] - times[b] < span
  }

  /**
   * The sliding-window bound: however requests, undos and expiries interleave, counted
   * requests whose timestamps span less than the window minus the lag number at most N.
   */
  lemma {:induction false} WindowBound(limit: Limit, lag: real, run: seq<Event>, batch: set<Member>)
    requires Legal(limit, lag, run)
    requires batch <= After(limit, run).allowed.Keys
    requires Within(After(limit, run).allowed, batch, limit.window - lag)
    ensures batch == {} || |batch| <= limit.requests
  {
    if run != [] {
      var before, e := After(limit, run[..|run| - 1]), run[|run| - 1];
      if e.Ask? && e.member in batch {
        AllowedAreRemembered(limit, lag, run[..|run| - 1]);
        var (after, count) := Admit(limit, before.log, e.clock, e.now, e.member);
        forall m | m in batch ensures m in after.entries {
          var times := After(limit, run).allowed;
          assert m == e.member || times[e.member] - times[m] < limit.window - lag;
        }
        SubsetSize(batch, after.entries.Keys);
        assert |after.entries.Keys| == |after.entries|;
      } else {
        WindowBound(limit, lag, run[..|run| - 1], batch);
      }
    }
  }

  // The timestamps of the requests that reached Redis, and the requests undone since.
  function Submitted(run: seq<Event>): map<Member, real> {
    if run == [] then map[]
    else
      var before, e := Submitted(run[..|run| - 1]), run[|run| - 1];
      if e.Ask? || e.Lost? then before[e.member := e.now] else before
  }

  function Undone(run: seq<Event>): set<Member> {
    if run == [] then {}
    else Undone(run[..|run| - 1]) + if run[|run| - 1].Undo? then {run[|run| - 1].member} else {}
  }

  // The sorted set holds nothing but such requests, at their own timestamps.
  predicate HoldsSubmitted(s: State, submitted: map<Member, real>, undone: set<Member>) {
    && (forall m | m in submitted :: m in s.allowed || m in s.refused || m in s.lost)
    && (forall m | m in s.refused :: m in submitted)
    && (forall m | m in undone :: m in s.refused)
    && (forall m | m in s.log.entries :: HoldsEntry(s.log.entries[m], submitted, undone, m))
  }

  predicate HoldsEntry(at: real, submitted: map<Member, real>, undone: set<Member>, m: Member) {
    m in submitted && at == submitted[m] && m !in undone && 0.0 <= at
  }

  // No event puts an entry into the sorted set but its own.
  lemma EntriesStep(limit: Limit, s: State, e: Event, m: Member)
    requires m in Next(limit, s, e).log.entries
    ensures var at := Next(limit, s, e).log.entries[m];
            if (e.Ask? || e.Lost?) && m == e.member then at == e.now
            else m in s.log.entries && at == s.log.entries[m] && (e.Undo? ==> m != e.member)
  {
  }

  lemma StepHoldsSubmitted(limit: Limit, lag: real, s: State, e: Event, submitted: map<Member, real>, undone: set<Member>)
    requires HoldsSubmitted(s, submitted, undone) && Enabled(lag, s, e)
    ensures HoldsSubmitted(Next(limit, s, e), if e.Ask? || e.Lost? then submitted[e.member := e.now] else submitted,
                           undone + if e.Undo? then {e.member} else {})
  {
    var t := Next(limit, s, e);
    forall m | m in t.log.entries
      ensures HoldsEntry(t.log.entries[m], if e.Ask? || e.Lost? then submitted[e.member := e.now] else submitted,
                         undone + if e.Undo? then {e.member} else {}, m)
    {
      EntriesStep(limit, s, e, m);
    }
  }

  lemma {:induction false} EntriesWereSubmitted(limit: Limit, lag: real, run: seq<Event>)
    requires Legal(limit, lag, run)
    ensures HoldsSubmitted(After(limit, run), Submitted(run), Undone(run))
  {
    if run != [] {
      var front := run[..|run| - 1];
      EntriesWereSubmitted(limit, lag, front);
      StepHoldsSubmitted(limit, lag, After(limit, front), run[|run| - 1], Submitted(front), Undone(front));
    }
  }

  // A refusal counts at least the limit besides the request itself.
  lemma RefusalCounts(limit: Limit, log: Log, clock: real, now: real, member: Member)
    requires limit.requests < Admit(limit, log, clock, now, member).1
    ensures limit.requests <= |Trim(Live(log, clock), now - limit.window).entries.Keys - {member}|
  {
    var trimmed := Trim(Live(log, clock), now - limit.window).entries;
    var added := trimmed[member := now];
    assert added.Keys == (trimmed.Keys - {member}) + {member};
    assert |added.Keys| == |added|;
  }

  // Requests of less than a window ago that nobody took back.
  ghost predicate IsCrowd(submitted: map<Member, real>, undone: set<Member>, since: real, crowd: set<Member>) {
    forall m | m in crowd :: m in submitted && m !in undone && since < submitted[m]
  }

  lemma EntriesAreACrowd(s: State, submitted: map<Member, real>, undone: set<Member>, clock: real, since: real, member: Member)
    requires HoldsSubmitted(s, submitted, undone)
    ensures IsCrowd(submitted, undone, since, Trim(Live(s.log, clock), since).entries.Keys - {member})
  {
  }

  lemma CrowdAt(limit: Limit, s: State, submitted: map<Member, real>, undone: set<Member>, clock: real, now: real,
                member: Member) returns (crowd: set<Member>)
    requires HoldsSubmitted(s, submitted, undone)
    requires member !in Next(limit, s, Ask(clock, now, member)).allowed
    ensures limit.requests <= |crowd| && member !in crowd
    ensures IsCrowd(submitted, undone, now - limit.window, crowd)
  {
    crowd := Trim(Live(s.log, clock), now - limit.window).entries.Keys - {member};
    RefusalCounts(limit, s.log, clock, now, member);
    EntriesAreACrowd(s, submitted, undone, clock, now - limit.window, member);
  }

  /**
   * Under any overlap a request is refused only in a crowd: as many others as the limit
   * allows reached Redis less than a window before it and were not undone.
   */
  lemma RefusedInACrowd(limit: Limit, lag: real, run: seq<Event>, clock: real, now: real, member: Member)
    returns (crowd: set<Member>)
    requires Legal(limit, lag, run) && member !in Next(limit, After(limit, run), Ask(clock, now, member)).allowed
    ensures limit.requests <= |crowd| && member !in crowd
    ensures IsCrowd(Submitted(run), Undone(run), now - limit.window, crowd)
  {
    EntriesWereSubmitted(limit, lag, run);
    crowd := CrowdAt(limit, After(limit, run), Submitted(run), Undone(run), clock, now, member);
  }

  // Some run of a limiter of one request lets two requests through whose timestamps lie
  // exactly `span` apart.
  ghost predicate TwoFit(window: real, lag: real, span: real) {
    exists run, a, b :: AreTwo(window, lag, span, run, a, b)
  }

  ghost predicate AreTwo(window: real, lag: real, span: real, run: seq<Event>, a: Member, b: Member) {
    && Legal(Limit(1, window), lag, run) && a != b
    && var allowed := After(Limit(1, window), run).allowed;
       a in allowed && b in allowed && allowed[b] - allowed[a] == span
  }

  lemma OneMoreEvent(limit: Limit, lag: real, run: seq<Event>, e: Event)
    requires Legal(limit, lag, run) && Enabled(lag, After(limit, run), e)
    ensures Legal(limit, lag, run + [e]) && After(limit, run + [e]) == Next(limit, After(limit, run), e)
  {
    assert (run + [e])[..|run + [e]| - 1] == run;
  }

  // At or beyond the window minus the lag two requests do fit: a look at the remaining count
  // by a server whose clock does not lag trims the first.
  lemma WideSpanFits(window: real, lag: real, span: real) returns (run: seq<Event>)
    requires 0.0 < window && 0.0 <= lag && 0.0 <= span && window - lag <= span
    ensures AreTwo(window, lag, span, run, 0, 1)
  {
    var limit := Limit(1, window);
    run := [] + [Ask(0.0, 0.0, 0)];
    OneMoreEvent(limit, lag, [], Ask(0.0, 0.0, 0));
    var s1 := State(0.0, Log(map[0 := 0.0], Some(window)), map[0 := 0.0], {}, {});
    assert After(limit, run) == s1 by {
      assert Trim(Live(EMPTY, 0.0), 0.0 - window).entries[0 := 0.0] == map[0 := 0.0];
    }
    var peek := Peek(span + lag, span + lag);
    OneMoreEvent(limit, lag, run, peek);
    run := run + [peek];
    var s2 := Next(limit, s1, peek);
    assert s2.log.entries == map[] && s2.allowed == map[0 := 0.0];
    SecondFits(window, lag, span, s2);
    OneMoreEvent(limit, lag, run, Ask(span + lag, span, 1));
    run := run + [Ask(span + lag, span, 1)];
  }

  lemma SecondFits(window: real, lag: real, span: real, s: State)
    requires 0.0 <= lag && 0.0 <= span && s.log.entries == map[] && s.clock == span + lag
    requires s.allowed == map[0 := 0.0] && s.refused == {} && s.lost == {}
    ensures var e := Ask(span + lag, span, 1);
            Enabled(lag, s, e) && Next(Limit(1, window), s, e).allowed == map[0 := 0.0, 1 := span]
  {
    assert Trim(Live(s.log, span + lag), span - window).entries == map[];
  }

  lemma PairSize(a: Member, b: Member)
    ensures |{a, b}| <= 1 ==> a == b
  {
  }

  lemma NarrowSpanFails(window: real, lag: real, span: real, run: seq<Event>, a: Member, b: Member)
    requires 0.0 < window && 0.0 <= lag && 0.0 <= span < window - lag
    ensures !AreTwo(window, lag, span, run, a, b)
  {
    PairSize(a, b);
    if Legal(Limit(1, window), lag, run) {
      var allowed := After(Limit(1, window), run).allowed;
      if a in allowed && b in allowed && allowed[b] - allowed[a] == span {
        WindowBound(Limit(1, window), lag, run, {a, b});
      }
    }
  }

  /** So the window minus the lag is exactly the span below which the bound holds. */
  lemma WindowBoundIsTight(window: real, lag: real, span: real)
    requires 0.0 < window && 0.0 <= lag && 0.0 <= span
    ensures TwoFit(window, lag, span) <==> window - lag <= span
  {
    if window - lag <= span {
      var run := WideSpanFits(window, lag, span);
    } else {
      forall run, a, b ensures !AreTwo(window, lag, span, run, a, b) {
        NarrowSpanFails(window, lag, span, run, a, b);
      }
    }
  }

  // ------------------------------------------------------------------
  // Serial runs: each undo lands before the next request
  // ------------------------------------------------------------------

  // One request: when Redis ran its pipeline, the timestamp it carried, and when Redis ran
  // its undo, had it one.
  datatype Visit = Visit(clock: real, now: real, done: real)

  // The limiter's own answer when nothing overlaps.
  function Verdict(limit: Limit, log: Log, v: Visit, member: Member): (bool, Log) {
    var (after, count) := Admit(limit, log, v.clock, v.now, member);
    if count <= limit.requests then (true, after) else (false, Remove(after, v.done, member))
  }

  function SerialLog(limit: Limit, visits: seq<Visit>): Log {
    if visits == [] then EMPTY
    else Verdict(limit, SerialLog(limit, visits[..|visits| - 1]), visits[|visits| - 1], |visits| - 1).1
  }

  function Answer(limit: Limit, visits: seq<Visit>, v: Visit): bool {
    Verdict(limit, SerialLog(limit, visits), v, |visits|).0
  }

  // The positions of the requests that were answered yes.
  function Allowed(limit: Limit, visits: seq<Visit>): set<nat> {
    if visits == [] then {}
    else
      var front, last := visits[..|visits| - 1], visits[|visits| - 1];
      Allowed(limit, front) + if Answer(limit, front, last) then {|front|} else {}
  }

  // Those among them less than a window before `now`: the textbook's count.
  function Recent(limit: Limit, visits: seq<Visit>, now: real): set<nat> {
    set i | i in Allowed(limit, visits) && i < |visits| && now - limit.window < visits[i].now <= now
  }

  // The request comes after the earlier ones, on Redis's clock and by its own timestamp. The
  // two clocks need not agree.
  predicate Comes(visits: seq<Visit>, v: Visit) {
    && 0.0 <= v.now && v.clock <= v.done
    && (visits != [] ==> visits[|visits| - 1].done <= v.clock && visits[|visits| - 1].now <= v.now)
  }

  predicate Serial(visits: seq<Visit>) {
    visits == [] || (Serial(visits[..|visits| - 1]) && Comes(visits[..|visits| - 1], visits[|visits| - 1]))
  }

  lemma {:induction false} EarlierIsEarlier(visits: seq<Visit>, v: Visit)
    requires Serial(visits) && Comes(visits, v)
    ensures forall i | 0 <= i < |visits| :: 0.0 <= visits[i].now <= v.now
  {
    if visits != [] {
      EarlierIsEarlier(visits[..|visits| - 1], visits[|visits| - 1]);
    }
  }

  // The key of the earlier request is gone when the later one arrives.
  predicate Gap(window: real, a: Visit, b: Visit) {
    a.clock + window < b.clock
  }

  // Where the requests begin that the key still remembers when `v` arrives.
  function Since(window: real, visits: seq<Visit>, v: Visit): (n: nat)
    ensures n <= |visits|
  {
    if visits == [] || Gap(window, visits[|visits| - 1], v) then |visits|
    else Since(window, visits[..|visits| - 1], visits[|visits| - 1])
  }

  // The recent ones the key remembers.
  function Known(limit: Limit, visits: seq<Visit>, v: Visit): set<nat> {
    set i | i in Recent(limit, visits, v.now) && Since(limit.window, visits, v) <= i
  }

  function Kept(limit: Limit, log: Log, v: Visit): map<Member, real> {
    Trim(Live(log, v.clock), v.now - limit.window).entries
  }

  // An undisturbed request is let through by what is kept when it arrives.
  lemma VerdictCounts(limit: Limit, log: Log, v: Visit, m: Member)
    requires m !in Kept(limit, log, v)
    ensures Verdict(limit, log, v, m).0 <==> |Kept(limit, log, v)| < limit.requests
  {
    var kept := Kept(limit, log, v);
    assert kept[m := v.now].Keys == kept.Keys + {m};
    assert |kept[m := v.now]| == |kept[m := v.now].Keys| && |kept| == |kept.Keys|;
  }

  // And so is the remaining count.
  lemma PeekCounts(limit: Limit, log: Log, v: Visit)
    ensures var remaining := Remaining(limit, Live(Trim(Live(log, v.clock), v.now - limit.window), v.clock));
            && (0 < remaining <==> |Kept(limit, log, v)| < limit.requests)
            && (0 < remaining ==> |Kept(limit, log, v)| + remaining == limit.requests)
  {
    assert Live(Trim(Live(log, v.clock), v.now - limit.window), v.clock).entries == Kept(limit, log, v);
  }

  lemma {:induction false} AllowedArePositions(limit: Limit, visits: seq<Visit>)
    ensures forall i | i in Allowed(limit, visits) :: i < |visits|
  {
    if visits != [] {
      AllowedArePositions(limit, visits[..|visits| - 1]);
    }
  }

  // What a later request finds of an entry: nothing past a gap, else what is in its window.
  lemma LaterEntry(limit: Limit, log: Log, last: Visit, m: Member, ok: bool, next: Log, v: Visit, i: Member)
    requires 0.0 < limit.window && last.clock <= last.done <= v.clock && 0.0 <= last.now
    requires (ok, next) == Verdict(limit, log, last, m) && m !in Kept(limit, log, last)
    requires i in Kept(limit, log, last) ==> 0.0 <= Kept(limit, log, last)[i]
    ensures i in Kept(limit, next, v) <==>
              && !Gap(limit.window, last, v)
              && (|| (i in Kept(limit, log, last) && v.now - limit.window < Kept(limit, log, last)[i])
                  || (i == m && ok && v.now - limit.window < last.now))
    ensures i in Kept(limit, next, v) ==>
              Kept(limit, next, v)[i] == if i == m then last.now else Kept(limit, log, last)[i]
  {
  }

  lemma KnownEarlier(limit: Limit, visits: seq<Visit>, front: seq<Visit>, last: Visit, v: Visit, i: nat)
    requires visits != [] && front == visits[..|visits| - 1] && last == visits[|visits| - 1] && last.now <= v.now
    requires i in Allowed(limit, front) ==> i < |front|
    requires i < |front| ==> front[i].now <= last.now
    ensures i in Known(limit, visits, v) <==>
              && !Gap(limit.window, last, v)
              && (|| (i in Known(limit, front, last) && v.now - limit.window < front[i].now)
                  || (i == |front| && Answer(limit, front, last) && v.now - limit.window < last.now))
  {
    assert i < |front| ==> front[i] == visits[i];
    assert i in Recent(limit, visits, v.now) <==>
      i in Allowed(limit, visits) && i < |visits| && v.now - limit.window < visits[i].now <= v.now;
    assert i in Recent(limit, front, last.now) <==>
      i in Allowed(limit, front) && i < |front| && last.now - limit.window < front[i].now <= last.now;
  }

  // The key holds the entry of a request exactly when it is known.
  lemma {:induction false} EntryIsKnown(limit: Limit, visits: seq<Visit>, v: Visit, i: nat)
    requires 0.0 < limit.window && Serial(visits) && Comes(visits, v)
    ensures i in Kept(limit, SerialLog(limit, visits), v) <==> i in Known(limit, visits, v)
    ensures i in Kept(limit, SerialLog(limit, visits), v) ==>
              i < |visits| && Kept(limit, SerialLog(limit, visits), v)[i] == visits[i].now
  {
    if visits != [] {
      var front, last := visits[..|visits| - 1], visits[|visits| - 1];
      EntryIsKnown(limit, front, last, i);
      EntryIsKnown(limit, front, last, |front|);
      EarlierIsEarlier(front, last);
      AllowedArePositions(limit, front);
      KnownEarlier(limit, visits, front, last, v, i);
      LaterEntry(limit, SerialLog(limit, front), last, |front|, Answer(limit, front, last), SerialLog(limit, visits), v, i);
    }
  }

  lemma KnownAreKept(limit: Limit, visits: seq<Visit>, v: Visit)
    requires 0.0 < limit.window && Serial(visits) && Comes(visits, v)
    ensures Kept(limit, SerialLog(limit, visits), v).Keys == Known(limit, visits, v)
    ensures |Kept(limit, SerialLog(limit, visits), v)| == |Known(limit, visits, v)|
    ensures |visits| !in Kept(limit, SerialLog(limit, visits), v)
  {
    var kept := Kept(limit, SerialLog(limit, visits), v);
    forall i ensures i in kept.Keys <==> i in Known(limit, visits, v) {
      EntryIsKnown(limit, visits, v, i);
    }
    EntryIsKnown(limit, visits, v, |visits|);
    assert |kept| == |kept.Keys|;
  }

  /**
   * What the limiter answers, whatever the two clocks do: a request is allowed exactly when
   * fewer than N earlier requests were allowed in the half-open window (now - W, now] since
   * the last time the key expired between two requests.
   */
  lemma SerialAnswer(limit: Limit, visits: seq<Visit>, v: Visit)
    requires 0.0 < limit.window && Serial(visits) && Comes(visits, v)
    ensures Answer(limit, visits, v) <==> |Known(limit, visits, v)| < limit.requests
  {
    KnownAreKept(limit, visits, v);
    VerdictCounts(limit, SerialLog(limit, visits), v, |visits|);
  }

  // The clocks agree enough: when a window has passed on Redis's clock between one request
  // and the next, one has passed between their timestamps.
  predicate Follows(window: real, a: Visit, b: Visit) {
    Gap(window, a, b) ==> a.now + window <= b.now
  }

  predicate Paced(window: real, visits: seq<Visit>, v: Visit) {
    visits != [] ==>
      && Follows(window, visits[|visits| - 1], v)
      && Paced(window, visits[..|visits| - 1], visits[|visits| - 1])
  }

  // Then what the key has forgotten has left the window too.
  lemma {:induction false} PacedForgetsNothing(limit: Limit, visits: seq<Visit>, v: Visit)
    requires 0.0 < limit.window && Serial(visits) && Comes(visits, v) && Paced(limit.window, visits, v)
    ensures forall i | 0 <= i < Since(limit.window, visits, v) :: visits[i].now <= v.now - limit.window
  {
    EarlierIsEarlier(visits, v);
    if visits != [] {
      var front, last := visits[..|visits| - 1], visits[|visits| - 1];
      PacedForgetsNothing(limit, front, last);
      EarlierIsEarlier(front, last);
    }
  }

  /**
   * Refinement of the textbook sliding window: while the clocks agree that much, a request
   * is allowed exactly when fewer than N earlier requests were allowed in (now - W, now].
   */
  lemma SerialRefinement(limit: Limit, visits: seq<Visit>, v: Visit)
    requires 0.0 < limit.window && Serial(visits) && Comes(visits, v) && Paced(limit.window, visits, v)
    ensures Answer(limit, visits, v) <==> |Recent(limit, visits, v.now)| < limit.requests
  {
    SerialAnswer(limit, visits, v);
    PacedForgetsNothing(limit, visits, v);
    assert Known(limit, visits, v) == Recent(limit, visits, v.now);
  }

  predicate Textbook(limit: Limit, visits: seq<Visit>, v: Visit) {
    Answer(limit, visits, v) <==> |Recent(limit, visits, v.now)| < limit.requests
  }

  // So many requests at one instant, just before `a`.
  function Crowd(a: Visit, n: nat): seq<Visit> {
    if n == 0 then [] else Crowd(a, n - 1) + [Visit(a.clock, a.now, a.clock)]
  }

  lemma {:induction false} CrowdIsPaced(window: real, a: Visit, n: nat, v: Visit)
    requires 0.0 < window && 0.0 <= a.now && v.clock == a.clock && v.now == a.now && v.clock <= v.done
    ensures |Crowd(a, n)| == n && Serial(Crowd(a, n)) && Comes(Crowd(a, n), v) && Paced(window, Crowd(a, n), v)
    ensures forall i | 0 <= i < n :: Crowd(a, n)[i].now == a.now
  {
    if n != 0 {
      CrowdIsPaced(window, a, n - 1, Visit(a.clock, a.now, a.clock));
      assert Crowd(a, n)[..n - 1] == Crowd(a, n - 1);
    }
  }

  function Below(n: nat): set<nat> {
    if n == 0 then {} else Below(n - 1) + {n - 1}
  }

  lemma {:induction false} BelowCounts(n: nat)
    ensures |Below(n)| == n && forall i: nat :: i in Below(n) <==> i < n
  {
    if n != 0 {
      BelowCounts(n - 1);
    }
  }

  // A request after fewer than the limit's number is let through.
  lemma RoomIsLeft(limit: Limit, visits: seq<Visit>, v: Visit)
    requires 0.0 < limit.window && Serial(visits) && Comes(visits, v) && |visits| < limit.requests
    ensures Answer(limit, visits, v)
  {
    SerialAnswer(limit, visits, v);
    BelowCounts(|visits|);
    SubsetSize(Known(limit, visits, v), Below(|visits|));
  }

  lemma AllowedStep(limit: Limit, front: seq<Visit>, last: Visit)
    requires Answer(limit, front, last)
    ensures Allowed(limit, front + [last]) == Allowed(limit, front) + {|front|}
  {
    assert (front + [last])[..|front|] == front;
  }

  lemma {:induction false} CrowdAllowed(limit: Limit, a: Visit, n: nat)
    requires 0.0 < limit.window && 0.0 <= a.now && n <= limit.requests
    ensures Allowed(limit, Crowd(a, n)) == Below(n)
  {
    if n != 0 {
      var copy := Visit(a.clock, a.now, a.clock);
      CrowdAllowed(limit, a, n - 1);
      CrowdIsPaced(limit.window, a, n - 1, copy);
      CrowdFills(limit, Crowd(a, n - 1), copy);
    }
  }

  // All of them let through and in the window, but the key forgotten: the limit is lost.
  lemma FullButForgotten(limit: Limit, visits: seq<Visit>, b: Visit)
    requires 0.0 < limit.window && Serial(visits) && Comes(visits, b) && 1 <= |visits| == limit.requests
    requires Allowed(limit, visits) == Below(|visits|) && Gap(limit.window, visits[|visits| - 1], b)
    requires forall i | 0 <= i < |visits| :: b.now - limit.window < visits[i].now <= b.now
    ensures !Textbook(limit, visits, b)
  {
    BelowCounts(|visits|);
    assert Recent(limit, visits, b.now) == Below(|visits|);
    SerialAnswer(limit, visits, b);
    assert Known(limit, visits, b) == {} by {
      assert Since(limit.window, visits, b) == |visits|;
    }
  }

  lemma ForgottenCrowd(limit: Limit, crowd: seq<Visit>, a: Visit, b: Visit)
    requires 0.0 < limit.window && |crowd| + 1 == limit.requests && Serial(crowd + [a]) && Comes([a], b)
    requires Allowed(limit, crowd + [a]) == Below(|crowd + [a]|) && forall i | 0 <= i < |crowd| :: crowd[i].now == a.now
    requires !Follows(limit.window, a, b)
    ensures !Textbook(limit, crowd + [a], b)
  {
    FullButForgotten(limit, crowd + [a], b);
  }

  lemma CrowdGathers(limit: Limit, a: Visit) returns (crowd: seq<Visit>)
    requires 0.0 < limit.window && 1 <= limit.requests && 0.0 <= a.now && a.clock <= a.done
    ensures crowd == Crowd(a, limit.requests - 1) && |crowd| == limit.requests - 1
    ensures Serial(crowd) && Comes(crowd, a) && Allowed(limit, crowd) == Below(|crowd|)
    ensures forall i | 0 <= i < |crowd| :: crowd[i].now == a.now
  {
    crowd := Crowd(a, limit.requests - 1);
    CrowdIsPaced(limit.window, a, limit.requests - 1, a);
    CrowdAllowed(limit, a, limit.requests - 1);
  }

  // A full crowd ending in `a` is let through, and forgotten when `b` comes past the gap.
  lemma CrowdIsForgotten(limit: Limit, a: Visit, b: Visit)
    requires 0.0 < limit.window && 1 <= limit.requests && 0.0 <= a.now && a.clock <= a.done && Comes([a], b)
    requires !Follows(limit.window, a, b)
    ensures !Textbook(limit, Crowd(a, limit.requests - 1) + [a], b)
  {
    var crowd := CrowdGathers(limit, a);
    CrowdFills(limit, crowd, a);
    ForgottenCrowd(limit, crowd, a, b);
  }

  lemma CrowdFills(limit: Limit, crowd: seq<Visit>, a: Visit)
    requires 0.0 < limit.window && Serial(crowd) && Comes(crowd, a) && |crowd| < limit.requests
    requires Allowed(limit, crowd) == Below(|crowd|)
    ensures Serial(crowd + [a]) && Allowed(limit, crowd + [a]) == Below(|crowd + [a]|)
  {
    RoomIsLeft(limit, crowd, a);
    AllowedStep(limit, crowd, a);
    assert (crowd + [a])[..|crowd|] == crowd && |crowd + [a]| == |crowd| + 1;
  }

  /**
   * And exactly then: whatever the limit, a request is answered as the textbook does after
   * every paced history that ends in a given earlier request if and only if the clocks agree
   * that much about the two.
   */
  lemma TextbookNeedsPace(limit: Limit, a: Visit, b: Visit)
    requires 0.0 < limit.window && 1 <= limit.requests && 0.0 <= a.now && a.clock <= a.done && Comes([a], b)
    ensures (forall visits | Serial(visits) && Comes(visits, a) && Paced(limit.window, visits, a) ::
               Textbook(limit, visits + [a], b))
            <==> Follows(limit.window, a, b)
  {
    if Follows(limit.window, a, b) {
      forall visits | Serial(visits) && Comes(visits, a) && Paced(limit.window, visits, a)
        ensures Textbook(limit, visits + [a], b)
      {
        assert (visits + [a])[..|visits|] == visits;
        SerialRefinement(limit, visits + [a], b);
      }
    } else {
      CrowdIsPaced(limit.window, a, limit.requests - 1, a);
      CrowdIsForgotten(limit, a, b);
    }
  }

  // The failing case: Redis's clock runs a whole window, and more, while the second request's
  // timestamp lags, so both pass although the first is in the second's window.
  lemma ClockSkewLosesTheTextbook(window: real, lag: real)
    requires 0.0 < lag < window
    ensures var a, b := Visit(0.0, 0.0, 0.0), Visit(window + lag / 2.0, window - lag / 2.0, window + lag / 2.0);
            && Serial([a]) && Comes([a], b) && b.clock - b.now <= lag
            && Answer(Limit(1, window), [], a) && Answer(Limit(1, window), [a], b)
            && |Recent(Limit(1, window), [a], b.now)| == 1
  {
    var a, b := Visit(0.0, 0.0, 0.0), Visit(window + lag / 2.0, window - lag / 2.0, window + lag / 2.0);
    var limit := Limit(1, window);
    assert [a][..0] == [];
    SerialAnswer(limit, [], a);
    SerialAnswer(limit, [a], b);
    assert Known(limit, [], a) == {} && Known(limit, [a], b) == {};
    assert Recent(limit, [a], b.now) == {0};
  }

  // `get_remaining` is positive exactly when a request at the same instant would pass, and
  // with the requests the key knows it makes up the limit, however the clocks run.
  lemma RemainingPredictsAnswer(limit: Limit, visits: seq<Visit>, v: Visit)
    requires 0.0 < limit.window && Serial(visits) && Comes(visits, v)
    ensures var remaining := Remaining(limit, Live(Trim(Live(SerialLog(limit, visits), v.clock), v.now - limit.window), v.clock));
            && (0 < remaining <==> Answer(limit, visits, v))
            && (Answer(limit, visits, v) ==> |Known(limit, visits, v)| + remaining == limit.requests)
            && (Paced(limit.window, visits, v) ==> Known(limit, visits, v) == Recent(limit, visits, v.now))
  {
    SerialAnswer(limit, visits, v);
    KnownAreKept(limit, visits, v);
    PeekCounts(limit, SerialLog(limit, visits), v);
    if Paced(limit.window, visits, v) {
      PacedForgetsNothing(limit, visits, v);
    }
  }
}
