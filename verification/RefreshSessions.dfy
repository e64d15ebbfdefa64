/**
 * Sessions over whole runs of the refresh scheme: how long a token lives, and that no user's
 * sessions depend on what other users do.
 */
module RefreshSessions {
  import opened RefreshTokens

  // ------------------------------------------------------------------
  // How long a token lives
  // ------------------------------------------------------------------

  // The event hands `token` to `user`.
  predicate Issues(s: State, e: Event, token: Token, user: UserId, expiresAt: int) {
    match e
    case Login(u, t, until) => u == user && t == token && until == expiresAt
    case Exchange(spent, now, mint, t, until) =>
      && t == token && until == expiresAt && Exchanged(s.rows, spent, now, mint, t, until).1.Rotated?
      && spent in s.issued && s.issued[spent] == user
    case _ => false
  }

  // The event spends or deletes the token, is a breach of its user's, or sweeps it.
  predicate Ends(s: State, e: Event, token: Token, user: UserId, expiresAt: int) {
    match e
    case Login(_, _, _) => false
    case Exchange(t, now, mint, successor, newExpiry) =>
      || t == token
      || (&& Exchanged(s.rows, t, now, mint, successor, newExpiry).1.Breach?
          && t in s.issued && s.issued[t] == user)
    case Logout(t) => t == token
    case Clean(now) => expiresAt < now
  }

  predicate IsLive(s: State, token: Token, user: UserId, expiresAt: int) {
    token in s.rows && s.rows[token] == Row(user, expiresAt, false)
  }

  // The token was handed to the user, and a live row of it is the one it was given.
  predicate Handed(s: State, token: Token, user: UserId, expiresAt: int) {
    && token in s.issued && s.issued[token] == user
    && (token in s.rows && !s.rows[token].revoked ==> s.rows[token] == Row(user, expiresAt, false))
  }

  lemma LiveStep(s: State, e: Event, token: Token, user: UserId, expiresAt: int)
    requires RowsWereIssued(s) && Enabled(s, e) && Handed(s, token, user, expiresAt)
    ensures Handed(Next(s, e), token, user, expiresAt)
    ensures IsLive(Next(s, e), token, user, expiresAt) <==>
              IsLive(s, token, user, expiresAt) && !Ends(s, e, token, user, expiresAt)
  {
  }

  lemma IssuedIsLive(s: State, e: Event, token: Token, user: UserId, expiresAt: int)
    requires RowsWereIssued(s) && Enabled(s, e) && Issues(s, e, token, user, expiresAt)
    ensures Handed(Next(s, e), token, user, expiresAt) && IsLive(Next(s, e), token, user, expiresAt)
  {
  }

  // The states a run goes through.
  ghost predicate GoesThrough(states: seq<State>, run: seq<Event>) {
    |states| == |run| + 1 && forall i | 0 <= i < |run| :: Moves(states, run, i)
  }

  ghost predicate Moves(states: seq<State>, run: seq<Event>, i: nat)
    requires i < |run| && |states| == |run| + 1
  {
    RowsWereIssued(states[i]) && Enabled(states[i], run[i]) && states[i + 1] == Next(states[i], run[i])
  }

  lemma LegalGoesThrough(run: seq<Event>, states: seq<State>)
    requires Legal(run) && |states| == |run| + 1 && forall i | 0 <= i <= |run| :: states[i] == After(run[..i])
    ensures GoesThrough(states, run)
  {
    forall i | 0 <= i < |run| ensures Moves(states, run, i) {
      PrefixStep(run, i);
      IssuedInvariant(run[..i]);
    }
  }

  lemma IssuedAt(states: seq<State>, run: seq<Event>, i: nat, token: Token, user: UserId, expiresAt: int)
    requires GoesThrough(states, run) && i < |run| && Issues(states[i], run[i], token, user, expiresAt)
    ensures Handed(states[i + 1], token, user, expiresAt) && IsLive(states[i + 1], token, user, expiresAt)
  {
    assert Moves(states, run, i);
    IssuedIsLive(states[i], run[i], token, user, expiresAt);
  }

  lemma LiveAt(states: seq<State>, run: seq<Event>, i: nat, token: Token, user: UserId, expiresAt: int)
    requires GoesThrough(states, run) && i < |run| && Handed(states[i], token, user, expiresAt)
    ensures Handed(states[i + 1], token, user, expiresAt)
    ensures IsLive(states[i + 1], token, user, expiresAt) <==>
              IsLive(states[i], token, user, expiresAt) && !Ends(states[i], run[i], token, user, expiresAt)
  {
    assert Moves(states, run, i);
    LiveStep(states[i], run[i], token, user, expiresAt);
  }

  lemma {:induction false} LivesUntil(states: seq<State>, run: seq<Event>, i: nat, j: nat, token: Token, user: UserId,
                                      expiresAt: int)
    requires GoesThrough(states, run) && i < j <= |run| && Issues(states[i], run[i], token, user, expiresAt)
    ensures Handed(states[j], token, user, expiresAt)
    ensures IsLive(states[j], token, user, expiresAt) <==>
              forall k | i < k < j :: !Ends(states[k], run[k], token, user, expiresAt)
  {
    if j == i + 1 {
      IssuedAt(states, run, i, token, user, expiresAt);
    } else {
      LivesUntil(states, run, i, j - 1, token, user, expiresAt);
      LiveAt(states, run, j - 1, token, user, expiresAt);
    }
  }

  // What becomes of an exchange whose token is good.
  function AnswerOf(mint: Mint, successor: Token): Outcome {
    match mint
    case Minted => Rotated(successor)
    case UserMissing => UserNotFound
    case Denied => Refused
  }

  lemma LiveAnswers(s: State, e: Event, user: UserId, expiresAt: int)
    requires e.Exchange? && Handed(s, e.token, user, expiresAt)
    ensures Exchanged(s.rows, e.token, e.now, e.mint, e.successor, e.expiresAt).1 == AnswerOf(e.mint, e.successor)
            <==> IsLive(s, e.token, user, expiresAt) && e.now <= expiresAt
  {
  }

  /**
   * A token handed out can be rotated, if its user may still sign in, exactly while it has not expired and nothing has ended
   * it: it was not exchanged, logged out or swept, and no spent token of its user came back.
   */
  lemma RotatesExactly(run: seq<Event>, i: nat, j: nat, user: UserId, expiresAt: int)
    requires Legal(run) && i < j < |run| && run[j].Exchange?
    requires Issues(After(run[..i]), run[i], run[j].token, user, expiresAt)
    ensures OutcomeAt(run, j) == AnswerOf(run[j].mint, run[j].successor) <==>
              && run[j].now <= expiresAt
              && forall k | i < k < j :: !Ends(After(run[..k]), run[k], run[j].token, user, expiresAt)
  {
    var states := seq(|run| + 1, k requires 0 <= k <= |run| => After(run[..k]));
    LegalGoesThrough(run, states);
    LivesUntil(states, run, i, j, run[j].token, user, expiresAt);
    LiveAnswers(states[j], run[j], user, expiresAt);
    assert forall k | i < k < j :: states[k] == After(run[..k]);
  }

  // ------------------------------------------------------------------
  // Users do not disturb each other
  // ------------------------------------------------------------------

  // A login of the user, or an exchange or logout of a token handed to them. Clean-up is nobody's.
  predicate OfUser(s: State, e: Event, user: UserId) {
    match e
    case Login(u, _, _) => u == user
    case Exchange(t, _, _, _, _) => t in s.issued && s.issued[t] == user
    case Logout(t) => t in s.issued && s.issued[t] == user
    case Clean(_) => true
  }

  function Only(run: seq<Event>, user: UserId): seq<Event> {
    if run == [] then []
    else
      var front, e := run[..|run| - 1], run[|run| - 1];
      if OfUser(After(front), e, user) then Only(front, user) + [e] else Only(front, user)
  }

  // `own` is `s` as far as the user can tell.
  ghost predicate OwnPart(s: State, own: State, user: UserId) {
    && (forall t :: t in own.rows <==> t in s.rows && s.rows[t].user == user)
    && (forall t | t in own.rows :: own.rows[t] == s.rows[t])
    && (forall t :: t in own.issued <==> t in s.issued && s.issued[t] == user)
    && (forall t | t in own.issued :: own.issued[t] == user)
    && own.logins[user] == s.logins[user]
  }

  lemma OwnStep(s: State, own: State, e: Event, user: UserId)
    requires RowsWereIssued(s) && Enabled(s, e) && OwnPart(s, own, user) && OfUser(s, e, user)
    ensures Enabled(own, e) && OwnPart(Next(s, e), Next(own, e), user)
    ensures e.Exchange? ==> Exchanged(own.rows, e.token, e.now, e.mint, e.successor, e.expiresAt).1
                            == Exchanged(s.rows, e.token, e.now, e.mint, e.successor, e.expiresAt).1
  {
    match e
    case Exchange(token, now, mint, successor, expiresAt) =>
      OwnExchange(s.rows, own.rows, token, now, mint, successor, expiresAt, user);
      OwnExchangeStep(s, own, e, user);
    case _ =>
  }

  predicate OwnRows(rows: Table, own: Table, user: UserId) {
    && (forall t | t in own :: t in rows && rows[t] == own[t] && rows[t].user == user)
    && (forall t | t in rows && rows[t].user == user :: t in own)
  }

  lemma OwnExchange(rows: Table, own: Table, token: Token, now: int, mint: Mint, successor: Token, expiresAt: int, user: UserId)
    requires OwnRows(rows, own, user) && successor !in rows && (token in rows ==> rows[token].user == user)
    ensures Exchanged(own, token, now, mint, successor, expiresAt).1 == Exchanged(rows, token, now, mint, successor, expiresAt).1
    ensures OwnRows(Exchanged(rows, token, now, mint, successor, expiresAt).0,
                    Exchanged(own, token, now, mint, successor, expiresAt).0, user)
  {
  }

  lemma OwnExchangeStep(s: State, own: State, e: Event, user: UserId)
    requires e.Exchange? && OwnPart(s, own, user) && OfUser(s, e, user) && RowsWereIssued(s) && Enabled(s, e)
    requires Exchanged(own.rows, e.token, e.now, e.mint, e.successor, e.expiresAt).1
             == Exchanged(s.rows, e.token, e.now, e.mint, e.successor, e.expiresAt).1
    requires OwnRows(Next(s, e).rows, Next(own, e).rows, user)
    ensures OwnPart(Next(s, e), Next(own, e), user)
  {
  }

  lemma OthersStep(s: State, own: State, e: Event, user: UserId)
    requires RowsWereIssued(s) && Enabled(s, e) && OwnPart(s, own, user) && !OfUser(s, e, user)
    ensures OwnPart(Next(s, e), own, user)
  {
  }

  /**
   * What a user's sessions are after a run, and what each of their exchanges answers, is what
   * it would be had nobody else logged in, refreshed, been breached or logged out.
   */
  lemma {:induction false} UsersAreSeparate(run: seq<Event>, user: UserId)
    requires Legal(run)
    ensures Legal(Only(run, user)) && OwnPart(After(run), After(Only(run, user)), user)
  {
    if run != [] {
      var front, e := run[..|run| - 1], run[|run| - 1];
      UsersAreSeparate(front, user);
      IssuedInvariant(front);
      var own := Only(front, user);
      if OfUser(After(front), e, user) {
        OwnStep(After(front), After(own), e, user);
        assert (own + [e])[..|own + [e]| - 1] == own;
      } else {
        OthersStep(After(front), After(own), e, user);
      }
    }
  }

  lemma AnswersAreSeparate(run: seq<Event>, i: nat, user: UserId)
    requires Legal(run) && i < |run| && run[i].Exchange? && OfUser(After(run[..i]), run[i], user)
    ensures var e := run[i];
            OutcomeAt(run, i) == Exchanged(After(Only(run[..i], user)).rows, e.token, e.now, e.mint, e.successor, e.expiresAt).1
  {
    PrefixStep(run, i);
    UsersAreSeparate(run[..i], user);
    IssuedInvariant(run[..i]);
    OwnStep(After(run[..i]), After(Only(run[..i], user)), run[i], user);
  }

  // ------------------------------------------------------------------
  // Clean-up
  // ------------------------------------------------------------------

  /**
   * A clean-up changes the answer to an exchange only for rows it sweeps, and then to
   * Invalid: no exchange that would have rotated at or after it is lost, and what is lost is
   * that a spent token's return is a breach.
   */
  lemma CleanUpLosesNoRotation(rows: Table, swept: int, token: Token, now: int, mint: Mint, successor: Token, expiresAt: int)
    requires swept <= now && successor !in rows
    ensures var (before, answer) := Exchanged(rows, token, now, mint, successor, expiresAt);
            var (after, answered) := Exchanged(Cleanup(rows, swept), token, now, mint, successor, expiresAt);
            && (answered == match answer
                            case Breach => Invalid
                            case Expired => if rows[token].expiresAt < swept then Invalid else Expired
                            case _ => answer)
            && (answer.Rotated? ==> after == Cleanup(rows - {token}, swept)[token := before[token]][successor := before[successor]])
  {
  }
}
