/**
 * The refresh handler (app/services/auth/actions/refresh.py) as the steps it really is: it
 * looks the token up, revokes it, and issues the successor, and other handlers run in
 * between. Any number of them, of any number of clients, run here.
 */
module RefreshHandlers {
  import opened Wrappers
  import opened Sets
  import opened RefreshTokens

  // ------------------------------------------------------------------
  // One handler
  // ------------------------------------------------------------------

  datatype Stage = Arrived | Admitted(user: UserId) | Revoked(user: UserId) | Replied(reply: Option<Token>)

  datatype Handler = Handler(token: Token, stage: Stage)

  // The row `get_by_token` finds, and what the handler does about it at once.
  function LookUp(rows: Table, token: Token, now: int): (Table, Stage) {
    if token !in rows then (rows, Replied(None))
    else if rows[token].revoked then (WithoutUser(rows, rows[token].user), Replied(None))
    else if rows[token].expiresAt < now then (rows - {token}, Replied(None))
    else (rows, Admitted(rows[token].user))
  }

  // Updating a row that was deleted meanwhile raises.
  function RevokeRow(rows: Table, token: Token, user: UserId): (Table, Stage) {
    if token in rows then (WithRevoked(rows, token), Revoked(user)) else (rows, Replied(None))
  }

  function IssueRow(rows: Table, user: UserId, mint: Mint, successor: Token, expiresAt: int): (Table, Stage) {
    if mint.Minted? then (rows[successor := Row(user, expiresAt, false)], Replied(Some(successor)))
    else (rows, Replied(None))
  }

  // Undisturbed, the three steps are the refresh of module RefreshTokens.
  lemma StepsMakeOneRefresh(rows: Table, token: Token, now: int, mint: Mint, successor: Token, expiresAt: int)
    requires successor !in rows
    ensures var (whole, outcome) := Exchanged(rows, token, now, mint, successor, expiresAt);
            var (looked, stage) := LookUp(rows, token, now);
            if stage.Replied? then whole == looked && !outcome.Rotated?
            else
              var (revoked, next) := RevokeRow(looked, token, stage.user);
              && next.Revoked?
              && var (issued, last) := IssueRow(revoked, next.user, mint, successor, expiresAt);
              && whole == issued
              && last == Replied(if outcome.Rotated? then Some(outcome.minted) else None)
  {
  }

  // ------------------------------------------------------------------
  // Any number of handlers
  // ------------------------------------------------------------------

  type HandlerId = nat

  // `rotated` counts, for each token, how often a successor was issued for it.
  datatype Server = Server(
    rows: Table,
    handlers: map<HandlerId, Handler>,
    issued: set<Token>,
    rotated: multiset<Token>)

  const QUIET := Server(map[], map[], {}, multiset{})

  datatype Step =
    | SignIn(user: UserId, successor: Token, expiresAt: int)
    | Arrive(h: HandlerId, token: Token)
    | Look(h: HandlerId, now: int)
    | Spend(h: HandlerId)
    | Issue(h: HandlerId, mint: Mint, successor: Token, expiresAt: int)
    | SignOut(token: Token)
    | Sweep(now: int)

  predicate Ready(s: Server, e: Step) {
    match e
    case SignIn(_, t, _) => t !in s.issued
    case Arrive(h, _) => h !in s.handlers
    case Look(h, _) => h in s.handlers && s.handlers[h].stage.Arrived?
    case Spend(h) => h in s.handlers && s.handlers[h].stage.Admitted?
    case Issue(h, _, t, _) => h in s.handlers && s.handlers[h].stage.Revoked? && t !in s.issued
    case _ => true
  }

  function Moved(s: Server, h: HandlerId, step: (Table, Stage)): Server
    requires h in s.handlers
  {
    s.(rows := step.0, handlers := s.handlers[h := s.handlers[h].(stage := step.1)])
  }

  function Do(s: Server, e: Step): Server
    requires Ready(s, e)
  {
    match e
    case SignIn(u, t, expiresAt) => s.(rows := s.rows[t := Row(u, expiresAt, false)], issued := s.issued + {t})
    case Arrive(h, token) => s.(handlers := s.handlers[h := Handler(token, Arrived)])
    case Look(h, now) => Moved(s, h, LookUp(s.rows, s.handlers[h].token, now))
    case Spend(h) => Moved(s, h, RevokeRow(s.rows, s.handlers[h].token, s.handlers[h].stage.user))
    case Issue(h, mint, t, expiresAt) =>
      Moved(s, h, IssueRow(s.rows, s.handlers[h].stage.user, mint, t, expiresAt)).(
        issued := s.issued + {t},
        rotated := if mint.Minted? then s.rotated + multiset{s.handlers[h].token} else s.rotated)
    case SignOut(token) => s.(rows := s.rows - {token})
    case Sweep(now) => s.(rows := Cleanup(s.rows, now))
  }

  ghost predicate Runs(states: seq<Server>, run: seq<Step>) {
    && |states| == |run| + 1
    && forall i | 0 <= i < |run| :: Ready(states[i], run[i]) && states[i + 1] == Do(states[i], run[i])
  }

  // ------------------------------------------------------------------
  // One rotation, unless look-ups overlap
  // ------------------------------------------------------------------

  // A handler that can still issue a successor for the token.
  predicate CanRotate(s: Server, t: Token, h: HandlerId) {
    && h in s.handlers && s.handlers[h].token == t
    && (s.handlers[h].stage.Revoked? || (s.handlers[h].stage.Admitted? && t in s.rows))
  }

  function Contenders(s: Server, t: Token): set<HandlerId> {
    set h | h in s.handlers && CanRotate(s, t, h)
  }

  // How often the token was rotated, and how often more it could be without another look-up.
  function Potential(s: Server, t: Token): nat {
    s.rotated[t] + |Contenders(s, t)|
  }

  // The step looks the token up between another handler's look-up and its revocation.
  predicate Overlaps(s: Server, t: Token, e: Step) {
    && e.Look? && e.h in s.handlers && s.handlers[e.h].token == t
    && exists h :: h in s.handlers && h != e.h && s.handlers[h].token == t && s.handlers[h].stage.Admitted?
  }

  // Whoever revoked the token, or already rotated it, left its row revoked or gone for good.
  ghost predicate Consistent(s: Server, t: Token) {
    && (forall r | r in s.rows :: r in s.issued)
    && (s.rotated[t] > 0 || (exists h :: h in s.handlers && s.handlers[h].token == t && s.handlers[h].stage.Revoked?) ==>
          t in s.issued && (t in s.rows ==> s.rows[t].revoked))
    && (forall h | h in s.handlers && s.handlers[h].token == t && s.handlers[h].stage.Admitted? :: t in s.issued)
  }

  lemma StepIsConsistent(s: Server, t: Token, e: Step)
    requires Consistent(s, t) && Ready(s, e)
    ensures Consistent(Do(s, e), t)
  {
  }

  // Short of a look-up no step makes a new contender; issuing turns one into a rotation.
  lemma OtherStepsSpend(s: Server, t: Token, e: Step)
    requires Consistent(s, t) && Ready(s, e) && !(e.Look? && s.handlers[e.h].token == t)
    ensures Potential(Do(s, e), t) <= Potential(s, t)
  {
    var a, b := Contenders(s, t), Contenders(Do(s, e), t);
    if e.Issue? && s.handlers[e.h].token == t {
      assert e.h in a && b <= a - {e.h};
      SubsetSize(b, a - {e.h});
    } else {
      assert b <= a;
      SubsetSize(b, a);
    }
  }

  // The look-up finds the token good while another handler is about to revoke it.
  predicate FindsContested(s: Server, t: Token, e: Step) {
    Overlaps(s, t, e) && t in s.rows && !s.rows[t].revoked && e.now <= s.rows[t].expiresAt
  }

  // A look-up makes a second rotation possible exactly when it does that.
  lemma LookUpDecides(s: Server, t: Token, e: Step)
    requires Consistent(s, t) && Ready(s, e) && e.Look? && s.handlers[e.h].token == t && Potential(s, t) <= 1
    ensures Potential(Do(s, e), t) <= 1 <==> !FindsContested(s, t, e)
  {
    var a, b := Contenders(s, t), Contenders(Do(s, e), t);
    if e.h !in b {
      assert b <= a;
      SubsetSize(b, a);
    } else if Overlaps(s, t, e) {
      var h :| h in s.handlers && h != e.h && s.handlers[h].token == t && s.handlers[h].stage.Admitted?;
      assert CanRotate(Do(s, e), t, h);
      SubsetSize({e.h, h}, b);
    } else {
      assert Do(s, e).handlers[e.h].stage.Admitted?;
      forall h | h in b ensures h == e.h {
        assert h != e.h ==> CanRotate(s, t, h);
      }
      assert b == {e.h};
    }
  }

  lemma StepDecides(s: Server, t: Token, e: Step)
    requires Consistent(s, t) && Ready(s, e) && Potential(s, t) <= 1
    ensures Potential(Do(s, e), t) <= 1 <==> !FindsContested(s, t, e)
  {
    if e.Look? && s.handlers[e.h].token == t {
      LookUpDecides(s, t, e);
    } else {
      OtherStepsSpend(s, t, e);
    }
  }

  lemma {:induction false} AlwaysConsistent(states: seq<Server>, run: seq<Step>, n: nat, t: Token)
    requires Runs(states, run) && states[0] == QUIET && n <= |run|
    ensures Consistent(states[n], t)
  {
    if n != 0 {
      AlwaysConsistent(states, run, n - 1, t);
      StepIsConsistent(states[n - 1], t, run[n - 1]);
    }
  }

  /**
   * Exactly when a token cannot be rotated twice: throughout a run of any number of
   * handlers, a token's rotations and possible further rotations number at most one if and
   * only if no look-up finds it good between another handler's look-up and its revocation.
   */
  lemma {:induction false} OneRotationExactly(states: seq<Server>, run: seq<Step>, n: nat, t: Token)
    requires Runs(states, run) && states[0] == QUIET && n <= |run|
    ensures (forall i | 0 <= i <= n :: Potential(states[i], t) <= 1)
            <==> forall k | 0 <= k < n :: !FindsContested(states[k], t, run[k])
  {
    if n == 0 {
      NothingAtFirst(t);
    } else {
      OneRotationExactly(states, run, n - 1, t);
      StepOfRunDecides(states, run, n - 1, t);
    }
  }

  lemma NothingAtFirst(t: Token)
    ensures Potential(QUIET, t) == 0
  {
    assert Contenders(QUIET, t) == {};
  }

  lemma StepOfRunDecides(states: seq<Server>, run: seq<Step>, k: nat, t: Token)
    requires Runs(states, run) && states[0] == QUIET && k < |run|
    ensures Potential(states[k], t) <= 1 ==>
              (Potential(states[k + 1], t) <= 1 <==> !FindsContested(states[k], t, run[k]))
  {
    AlwaysConsistent(states, run, k, t);
    assert Ready(states[k], run[k]) && states[k + 1] == Do(states[k], run[k]);
    if Potential(states[k], t) <= 1 {
      StepDecides(states[k], t, run[k]);
    }
  }

  // So where look-ups of one token never overlap, each token is rotated at most once.
  lemma SeparateLookUpsRotateOnce(states: seq<Server>, run: seq<Step>, t: Token)
    requires Runs(states, run) && states[0] == QUIET && forall k | 0 <= k < |run| :: !Overlaps(states[k], t, run[k])
    ensures states[|run|].rotated[t] <= 1
  {
    OneRotationExactly(states, run, |run|, t);
  }

  // ------------------------------------------------------------------
  // Two rotations, once look-ups have overlapped
  // ------------------------------------------------------------------

  ghost predicate Continues(s: Server, states: seq<Server>, run: seq<Step>, end: Server) {
    Runs(states, run) && states[0] == s && states[|run|] == end && forall e | e in run :: !e.Look?
  }

  // A contender revokes, if it has yet to, and issues; the others stay contenders.
  lemma Finish(s: Server, t: Token, h: HandlerId, successor: Token, expiresAt: int)
    returns (states: seq<Server>, run: seq<Step>, end: Server)
    requires Consistent(s, t) && CanRotate(s, t, h) && successor !in s.issued
    ensures Continues(s, states, run, end) && Consistent(end, t)
    ensures end.rotated == s.rotated + multiset{t} && end.issued == s.issued + {successor}
    ensures forall g | g != h && CanRotate(s, t, g) :: CanRotate(end, t, g)
    ensures successor in end.rows && !end.rows[successor].revoked
    ensures forall r | r in s.rows && r != t :: r in end.rows && end.rows[r] == s.rows[r]
  {
    var issue := Issue(h, Minted, successor, expiresAt);
    var m, before := s, [];
    if s.handlers[h].stage.Admitted? {
      m, before := Do(s, Spend(h)), [Spend(h)];
      StepIsConsistent(s, t, Spend(h));
    }
    end := Do(m, issue);
    StepIsConsistent(m, t, issue);
    run := before + [issue];
    states := if before == [] then [s, end] else [s, m, end];
  }

  lemma Append(s: Server, a: seq<Server>, r1: seq<Step>, m: Server, b: seq<Server>, r2: seq<Step>, end: Server)
    returns (states: seq<Server>, run: seq<Step>)
    requires Continues(s, a, r1, m) && Continues(m, b, r2, end)
    ensures Continues(s, states, run, end)
  {
    states, run := a + b[1..], r1 + r2;
    AppendRuns(a, r1, b, r2);
  }

  lemma Another(a: set<HandlerId>, h: HandlerId) returns (g: HandlerId)
    requires h in a && 2 <= |a|
    ensures g in a && g != h
  {
    var rest := a - {h};
    assert |rest| == |a| - 1;
    g :| g in rest;
  }

  /**
   * And once they have, it really can be: from any state with two rotations possible, the
   * handlers under way can finish, without another look-up, with two successors issued for
   * the one token; if neither was issued before, both are live.
   */
  lemma ContestedTokenRotatesTwice(s: Server, t: Token, first: Token, second: Token, expiresAt: int)
    returns (states: seq<Server>, run: seq<Step>, end: Server)
    requires Consistent(s, t) && 2 <= Potential(s, t) && first != second && first !in s.issued && second !in s.issued
    ensures Continues(s, states, run, end) && 2 <= end.rotated[t]
    ensures s.rotated[t] == 0 ==> forall x | x in {first, second} :: x in end.rows && !end.rows[x].revoked
  {
    if 2 <= s.rotated[t] {
      states, run, end := [s], [], s;
    } else {
      var h :| h in Contenders(s, t);
      states, run, end := Finish(s, t, h, first, expiresAt);
      if s.rotated[t] == 0 {
        var g := Another(Contenders(s, t), h);
        var m, b, r2 := end, [], [];
        b, r2, end := Finish(m, t, g, second, expiresAt);
        states, run := Append(s, states, run, m, b, r2, end);
      }
    }
  }

  // Two handlers look one token up before either revokes it.
  lemma TwoLookUps(user: UserId, t: Token, expiresAt: int, now: int) returns (states: seq<Server>, run: seq<Step>)
    requires now <= expiresAt
    ensures Runs(states, run) && states[0] == QUIET
    ensures var s := states[|run|];
            s.issued == {t} && s.rotated == multiset{} && Contenders(s, t) == {0, 1} && Potential(s, t) == 2
  {
    var s1 := Do(QUIET, SignIn(user, t, expiresAt));
    var s2 := Do(s1, Arrive(0, t));
    var s3 := Do(s2, Arrive(1, t));
    var s4 := Do(s3, Look(0, now));
    var s5 := Do(s4, Look(1, now));
    states := [QUIET, s1, s2, s3, s4, s5];
    run := [SignIn(user, t, expiresAt), Arrive(0, t), Arrive(1, t), Look(0, now), Look(1, now)];
    assert Contenders(s5, t) == {0, 1};
  }

  /**
   * So from nothing a run reaches it: one sign-in, two handlers on its token, and at the end
   * two live successors.
   */
  lemma OneSignInTwoSessions(user: UserId, t: Token, first: Token, second: Token, expiresAt: int, now: int, later: int)
    returns (states: seq<Server>, run: seq<Step>)
    requires now <= expiresAt && t != first && t != second && first != second
    ensures Runs(states, run) && states[0] == QUIET
    ensures var end := states[|run|];
            2 <= end.rotated[t] && forall x | x in {first, second} :: x in end.rows && !end.rows[x].revoked
  {
    var a, r1 := TwoLookUps(user, t, expiresAt, now);
    AlwaysConsistent(a, r1, |r1|, t);
    var b, r2, end := ContestedTokenRotatesTwice(a[|r1|], t, first, second, later);
    states, run := a + b[1..], r1 + r2;
    AppendRuns(a, r1, b, r2);
  }

  lemma AppendRuns(a: seq<Server>, r1: seq<Step>, b: seq<Server>, r2: seq<Step>)
    requires Runs(a, r1) && Runs(b, r2) && a[|r1|] == b[0]
    ensures Runs(a + b[1..], r1 + r2) && (a + b[1..])[0] == a[0] && (a + b[1..])[|r1 + r2|] == b[|r2|]
  {
    var states, run := a + b[1..], r1 + r2;
    forall i | 0 <= i < |run| ensures Ready(states[i], run[i]) && states[i + 1] == Do(states[i], run[i]) {
      if |r1| <= i {
        assert b[i - |r1| + 1] == Do(b[i - |r1|], r2[i - |r1|]);
      }
    }
  }

  // Without another look-up, no more than that.
  lemma {:induction false} NoMoreThanPotential(s: Server, states: seq<Server>, run: seq<Step>, end: Server, n: nat, t: Token)
    requires Continues(s, states, run, end) && n <= |run| && Consistent(s, t)
    ensures Consistent(states[n], t) && states[n].rotated[t] <= Potential(states[n], t) <= Potential(s, t)
  {
    if n != 0 {
      NoMoreThanPotential(s, states, run, end, n - 1, t);
      assert run[n - 1] in run;
      StepIsConsistent(states[n - 1], t, run[n - 1]);
      OtherStepsSpend(states[n - 1], t, run[n - 1]);
    }
  }
}
