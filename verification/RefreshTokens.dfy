/**
 * Server-side refresh-token rotation (app/services/auth/actions/refresh.py over
 * app/repositories/auth/token.py), with login, logout and the clean-up job
 * (app/queue/task.py). The scheme is that of section 4.14.2 of RFC 9700: every refresh
 * revokes the token it was given, and a revoked token that comes back ends all sessions.
 *
 * A refresh token carries a random `jti`, so it is modelled as an identifier never issued before.
 */
module RefreshTokens {
  import opened Sets

  type Token = nat
  type UserId = nat

  datatype Row = Row(user: UserId, expiresAt: int, revoked: bool)
  type Table = map<Token, Row>

  // What `get_by_id_with_grants` and `mint_access_token` make of the token's user.
  datatype Mint = Minted | UserMissing | Denied

  datatype Outcome = Rotated(minted: Token) | Invalid | Breach | Expired | UserNotFound | Refused

  function WithoutUser(rows: Table, user: UserId): Table {
    map t | t in rows && rows[t].user != user :: rows[t]
  }

  function WithRevoked(rows: Table, token: Token): Table
    requires token in rows
  {
    rows[token := rows[token].(revoked := true)]
  }

  // One whole refresh; `successor` is the token it would issue.
  function Exchanged(rows: Table, token: Token, now: int, mint: Mint, successor: Token, expiresAt: int): (Table, Outcome) {
    if token !in rows then (rows, Invalid)
    else if rows[token].revoked then (WithoutUser(rows, rows[token].user), Breach)
    else if rows[token].expiresAt < now then (rows - {token}, Expired)
    else
      var spent := WithRevoked(rows, token);
      match mint
      case UserMissing => (spent, UserNotFound)
      case Denied => (spent, Refused)
      case Minted => (spent[successor := Row(rows[token].user, expiresAt, false)], Rotated(successor))
  }

  function Cleanup(rows: Table, now: int): Table {
    map t | t in rows && !(rows[t].expiresAt < now || rows[t].revoked) :: rows[t]
  }

  // ------------------------------------------------------------------
  // The repository and the service
  // ------------------------------------------------------------------

  class RefreshTokenRepository {
    var rows: Table

    constructor ()
      ensures rows == map[]
    {
      rows := map[];
    }

    // The token is the primary key, so a second row for it is refused.
    method Create(token: Token, user: UserId, expiresAt: int) returns (ok: bool)
      modifies this
      ensures ok <==> token !in old(rows)
      ensures rows == if ok then old(rows)[token := Row(user, expiresAt, false)] else old(rows)
    {
      ok := token !in rows;
      if ok {
        rows := rows[token := Row(user, expiresAt, false)];
      }
    }

    method DeleteByToken(token: Token)
      modifies this
      ensures rows == old(rows) - {token}
    {
      rows := map t | t in rows && t != token :: rows[t];
    }

    method DeleteAllForUser(user: UserId)
      modifies this
      ensures rows == WithoutUser(old(rows), user)
    {
      rows := map t | t in rows && rows[t].user != user :: rows[t];
    }

    method Revoke(token: Token)
      requires token in rows
      modifies this
      ensures rows == WithRevoked(old(rows), token)
    {
      rows := rows[token := rows[token].(revoked := true)];
    }

    method CleanupExpiredTokens(now: int)
      modifies this
      ensures rows == Cleanup(old(rows), now)
    {
      rows := map t | t in rows && !(rows[t].expiresAt < now || rows[t].revoked) :: rows[t];
    }
  }

  class RefreshService {
    const repo: RefreshTokenRepository

    constructor (repo: RefreshTokenRepository)
      ensures this.repo == repo
    {
      this.repo := repo;
    }

    method Refresh(token: Token, now: int, mint: Mint, successor: Token, expiresAt: int) returns (outcome: Outcome)
      requires successor !in repo.rows
      modifies repo
      ensures (repo.rows, outcome) == Exchanged(old(repo.rows), token, now, mint, successor, expiresAt)
    {
      if token !in repo.rows {
        return Invalid;
      }
      var row := repo.rows[token];
      if row.revoked {
        repo.DeleteAllForUser(row.user);
        return Breach;
      }
      if row.expiresAt < now {
        repo.DeleteByToken(token);
        return Expired;
      }
      repo.Revoke(token);
      if mint.UserMissing? {
        return UserNotFound;
      }
      if mint.Denied? {
        return Refused;
      }
      var ok := repo.Create(successor, row.user, expiresAt);
      return Rotated(successor);
    }
  }

  // ------------------------------------------------------------------
  // Runs: whole operations in any order
  // ------------------------------------------------------------------

  datatype Event =
    | Login(user: UserId, successor: Token, expiresAt: int)
    | Exchange(token: Token, now: int, mint: Mint, successor: Token, expiresAt: int)
    | Logout(token: Token)
    | Clean(now: int)

  // `issued` remembers every token ever handed to a user, `logins` counts their logins.
  datatype State = State(rows: Table, issued: map<Token, UserId>, logins: multiset<UserId>)

  function Next(s: State, e: Event): State {
    match e
    case Login(u, successor, expiresAt) =>
      State(s.rows[successor := Row(u, expiresAt, false)], s.issued[successor := u], s.logins + multiset{u})
    case Exchange(token, now, mint, successor, expiresAt) =>
      var (rows, outcome) := Exchanged(s.rows, token, now, mint, successor, expiresAt);
      s.(rows := rows, issued := if outcome.Rotated? then s.issued[successor := rows[successor].user] else s.issued)
    case Logout(token) => s.(rows := s.rows - {token})
    case Clean(now) => s.(rows := Cleanup(s.rows, now))
  }

  function After(run: seq<Event>): State {
    if run == [] then State(map[], map[], multiset{}) else Next(After(run[..|run| - 1]), run[|run| - 1])
  }

  // Every token issued is new.
  predicate Enabled(s: State, e: Event) {
    e.Login? || e.Exchange? ==> e.successor !in s.issued
  }

  predicate Legal(run: seq<Event>) {
    run == [] || (Legal(run[..|run| - 1]) && Enabled(After(run[..|run| - 1]), run[|run| - 1]))
  }

  function OutcomeAt(run: seq<Event>, i: nat): Outcome
    requires i < |run| && run[i].Exchange?
  {
    Exchanged(After(run[..i]).rows, run[i].token, run[i].now, run[i].mint, run[i].successor, run[i].expiresAt).1
  }

  predicate Succeeds(run: seq<Event>, i: nat) {
    i < |run| && run[i].Exchange? && OutcomeAt(run, i).Rotated?
  }

  function Live(rows: Table, user: UserId): set<Token> {
    set t | t in rows && rows[t].user == user && !rows[t].revoked
  }

  ghost predicate RowsWereIssued(s: State) {
    forall t | t in s.rows :: t in s.issued && s.rows[t].user == s.issued[t]
  }

  lemma IssuedStep(s: State, e: Event)
    requires RowsWereIssued(s) && Enabled(s, e)
    ensures RowsWereIssued(Next(s, e))
  {
  }

  lemma {:induction false} IssuedInvariant(run: seq<Event>)
    requires Legal(run)
    ensures RowsWereIssued(After(run))
  {
    if run != [] {
      IssuedInvariant(run[..|run| - 1]);
      IssuedStep(After(run[..|run| - 1]), run[|run| - 1]);
    }
  }

  lemma {:induction false} PrefixLegal(run: seq<Event>, i: nat)
    requires Legal(run) && i <= |run|
    ensures Legal(run[..i])
    decreases |run|
  {
    if i < |run| {
      PrefixLegal(run[..|run| - 1], i);
      assert run[..|run| - 1][..i] == run[..i];
    } else {
      assert run[..i] == run;
    }
  }

  lemma PrefixStep(run: seq<Event>, i: nat)
    requires Legal(run) && i < |run|
    ensures Legal(run[..i]) && Legal(run[..i + 1]) && After(run[..i + 1]) == Next(After(run[..i]), run[i])
    ensures Enabled(After(run[..i]), run[i])
  {
    PrefixLegal(run, i);
    PrefixLegal(run, i + 1);
    assert run[..i + 1][..i] == run[..i];
  }

  ghost predicate Spent(s: State, token: Token) {
    token in s.issued && (token in s.rows ==> s.rows[token].revoked)
  }

  ghost predicate Wiped(s: State, token: Token) {
    token in s.issued && token !in s.rows
  }

  lemma SpentStep(s: State, e: Event, token: Token)
    requires RowsWereIssued(s) && Enabled(s, e)
    ensures Spent(s, token) ==> Spent(Next(s, e), token)
    ensures Wiped(s, token) ==> Wiped(Next(s, e), token)
    ensures e.Exchange? && Exchanged(s.rows, e.token, e.now, e.mint, e.successor, e.expiresAt).1.Rotated? ==>
              Spent(Next(s, e), e.token)
  {
  }

  // A spent token's row is revoked or gone, for good.
  lemma {:induction false} SpentStaysSpent(run: seq<Event>, i: nat, j: nat)
    requires Legal(run) && Succeeds(run, i) && i < j <= |run|
    ensures Spent(After(run[..j]), run[i].token)
    decreases j
  {
    PrefixStep(run, j - 1);
    IssuedInvariant(run[..j - 1]);
    SpentStep(After(run[..j - 1]), run[j - 1], run[i].token);
    if i < j - 1 {
      SpentStaysSpent(run, i, j - 1);
    }
  }

  // Each refresh token succeeds at most once.
  lemma RotatesAtMostOnce(run: seq<Event>, i: nat, j: nat)
    requires Legal(run) && i < j && Succeeds(run, i) && Succeeds(run, j)
    ensures run[i].token != run[j].token
  {
    SpentStaysSpent(run, i, j);
  }

  // A spent token that comes back is told apart from an unknown one exactly while its
  // revoked row has not been cleaned up, logged out or wiped.
  lemma ReplayIsDetected(run: seq<Event>, i: nat, j: nat)
    requires Legal(run) && Succeeds(run, i) && i < j < |run|
    requires run[j].Exchange? && run[j].token == run[i].token
    ensures OutcomeAt(run, j) == if run[i].token in After(run[..j]).rows then Breach else Invalid
  {
    SpentStaysSpent(run, i, j);
  }

  lemma OneInOneOut(a: set<Token>, b: set<Token>, gone: Token, successor: Token)
    requires gone in a && successor !in a && b == a - {gone} + {successor}
    ensures |b| == |a|
  {
  }

  // Apart from logins and rotations, unrevoked rows only disappear.
  lemma LiveShrinks(s: State, e: Event, user: UserId)
    requires RowsWereIssued(s) && Enabled(s, e)
    requires e.Login? ==> e.user != user
    requires e.Exchange? && e.token in s.rows && s.rows[e.token].user == user ==>
               !Exchanged(s.rows, e.token, e.now, e.mint, e.successor, e.expiresAt).1.Rotated?
    ensures Live(Next(s, e).rows, user) <= Live(s.rows, user)
  {
  }

  lemma LiveStep(s: State, e: Event, user: UserId)
    requires RowsWereIssued(s) && Enabled(s, e) && |Live(s.rows, user)| <= s.logins[user]
    ensures |Live(Next(s, e).rows, user)| <= Next(s, e).logins[user]
  {
    var a, b := Live(s.rows, user), Live(Next(s, e).rows, user);
    if e.Login? && e.user == user {
      assert b == a + {e.successor};
    } else if e.Exchange? && Exchanged(s.rows, e.token, e.now, e.mint, e.successor, e.expiresAt).1.Rotated?
              && s.rows[e.token].user == user {
      OneInOneOut(a, b, e.token, e.successor);
    } else {
      LiveShrinks(s, e, user);
      SubsetSize(b, a);
    }
  }

  // A user never has more unrevoked rows than logins: refreshing opens no extra session.
  lemma {:induction false} LiveRowsBoundedByLogins(run: seq<Event>, user: UserId)
    requires Legal(run)
    ensures |Live(After(run).rows, user)| <= After(run).logins[user]
  {
    if run != [] {
      LiveRowsBoundedByLogins(run[..|run| - 1], user);
      IssuedInvariant(run[..|run| - 1]);
      LiveStep(After(run[..|run| - 1]), run[|run| - 1], user);
    } else {
      assert Live(map[], user) == {};
    }
  }

  lemma BreachStep(s: State, e: Event, earlier: Token)
    requires RowsWereIssued(s) && e.Exchange? && earlier in s.issued
    requires Exchanged(s.rows, e.token, e.now, e.mint, e.successor, e.expiresAt).1 == Breach
    requires s.issued[earlier] == s.rows[e.token].user
    ensures Wiped(Next(s, e), earlier)
  {
  }

  // What is wiped stays wiped.
  lemma {:induction false} WipedPersists(run: seq<Event>, k: nat, token: Token)
    requires Legal(run) && k <= |run| && Wiped(After(run[..k]), token)
    ensures Wiped(After(run), token)
    decreases |run|
  {
    if k == |run| {
      assert run[..k] == run;
    } else {
      var front := run[..|run| - 1];
      assert front[..k] == run[..k];
      WipedPersists(front, k, token);
      IssuedInvariant(front);
      SpentStep(After(front), run[|run| - 1], token);
    }
  }

  // After a replayed revoked token, nothing the user held before it is in the table again.
  lemma BreachWipes(run: seq<Event>, i: nat, j: nat, earlier: Token)
    requires Legal(run) && i < j <= |run| && run[i].Exchange? && OutcomeAt(run, i) == Breach
    requires earlier in After(run[..i]).issued
    requires After(run[..i]).issued[earlier] == After(run[..i]).rows[run[i].token].user
    ensures Wiped(After(run[..j]), earlier)
  {
    PrefixStep(run, i);
    IssuedInvariant(run[..i]);
    BreachStep(After(run[..i]), run[i], earlier);
    PrefixLegal(run, j);
    assert run[..j][..i + 1] == run[..i + 1];
    WipedPersists(run[..j], i + 1, earlier);
  }

  // So no token of that user issued before the replay ever succeeds after it.
  lemma NoSuccessAfterBreach(run: seq<Event>, i: nat, j: nat)
    requires Legal(run) && i < j && Succeeds(run, j) && run[i].Exchange? && OutcomeAt(run, i) == Breach
    requires After(run[..j]).rows[run[j].token].user == After(run[..i]).rows[run[i].token].user
    ensures run[j].token !in After(run[..i]).issued
  {
    if run[j].token in After(run[..i]).issued {
      PrefixLegal(run, j);
      assert run[..j][..i] == run[..i];
      IssuedPersists(run[..j], i, run[j].token);
      IssuedInvariant(run[..j]);
      BreachWipes(run, i, j, run[j].token);
    }
  }

  lemma IssuedKept(s: State, e: Event, token: Token)
    requires Enabled(s, e) && token in s.issued
    ensures token in Next(s, e).issued && Next(s, e).issued[token] == s.issued[token]
  {
  }

  lemma {:induction false} IssuedPersists(run: seq<Event>, k: nat, token: Token)
    requires Legal(run) && k <= |run| && token in After(run[..k]).issued
    ensures token in After(run).issued && After(run).issued[token] == After(run[..k]).issued[token]
    decreases |run|
  {
    if k == |run| {
      assert run[..k] == run;
    } else {
      var front := run[..|run| - 1];
      assert front[..k] == run[..k];
      IssuedPersists(front, k, token);
      IssuedKept(After(front), run[|run| - 1], token);
    }
  }
}
