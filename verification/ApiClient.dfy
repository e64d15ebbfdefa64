/**
 * The browser client's single-flight refresh (frontend/src/lib/api.ts) composed with the
 * server's refresh handler in its three steps: look up, revoke, issue.
 */
module ApiClient {
  import opened Wrappers
  import opened RefreshTokens
  import opened RefreshHandlers

  type RequestId = nat
  type FlightId = nat

  // ------------------------------------------------------------------
  // The client
  // ------------------------------------------------------------------

  datatype Phase = InTransit | Waiting(flight: FlightId) | Done

  // `retried` is the `_retry` flag on the request's configuration.
  datatype Request = Request(sends: nat, retried: bool, phase: Phase)

  /**
   * `promise` is the module variable `refreshPromise`. A flight is one call of
   * `refreshAccessToken`: its HTTP post may be outstanding (`posts`), its result known
   * (`results`), and its `finally` callback run (`finished`).
   */
  datatype Client = Client(
    stored: Option<Token>,
    promise: Option<FlightId>,
    flights: nat,
    posts: map<FlightId, Token>,
    results: map<FlightId, bool>,
    finished: set<FlightId>,
    requests: map<RequestId, Request>)

  const FRESH_PAGE := Client(None, None, 0, map[], map[], {}, map[])

  function Send(c: Client, id: RequestId): Client {
    c.(requests := c.requests[id := Request(1, false, InTransit)])
  }

  function Complete(c: Client, id: RequestId): Client
    requires id in c.requests
  {
    c.(requests := c.requests[id := c.requests[id].(phase := Done)])
  }

  // Calls `refreshAccessToken`, which gives up at once when no refresh token is stored.
  function StartFlight(c: Client): Client {
    var n := c.flights;
    var started := c.(flights := n + 1, promise := Some(n));
    match c.stored
    case None => started.(results := c.results[n := false])
    case Some(token) => started.(posts := c.posts[n := token])
  }

  function JoinFlight(c: Client): Client {
    if c.promise.Some? then c else StartFlight(c)
  }

  // The response interceptor on a 401.
  function Unauthorized(c: Client, id: RequestId, authEndpoint: bool): Client
    requires id in c.requests
  {
    if c.requests[id].retried || authEndpoint then Complete(c, id)
    else
      var joined := JoinFlight(c);
      joined.(requests := c.requests[id := c.requests[id].(retried := true, phase := Waiting(joined.promise.value))])
  }

  // `setTokens` or `clear`, as the post ends.
  function PostEnds(c: Client, n: FlightId, reply: Option<Token>): Client {
    c.(posts := c.posts - {n}, stored := reply, results := c.results[n := reply.Some?])
  }

  function RunFinally(c: Client, n: FlightId): Client {
    c.(promise := None, finished := c.finished + {n})
  }

  // A request that awaited the flight is sent again or rejected.
  function Resume(c: Client, id: RequestId): Client
    requires id in c.requests && c.requests[id].phase.Waiting? && c.requests[id].phase.flight in c.results
  {
    var r := c.requests[id];
    if c.results[r.phase.flight]
    then c.(requests := c.requests[id := r.(sends := r.sends + 1, phase := InTransit)])
    else Complete(c, id)
  }

  class Api {
    var stored: Option<Token>
    var promise: Option<FlightId>
    var flights: nat
    var posts: map<FlightId, Token>
    var results: map<FlightId, bool>
    var finished: set<FlightId>
    var requests: map<RequestId, Request>

    function Contents(): Client
      reads this
    {
      Client(stored, promise, flights, posts, results, finished, requests)
    }

    constructor ()
      ensures Contents() == FRESH_PAGE
    {
      stored, promise, flights := None, None, 0;
      posts, results, finished, requests := map[], map[], {}, map[];
    }

    method RefreshAccessToken()
      modifies this
      ensures Contents() == StartFlight(old(Contents()))
    {
      var n := flights;
      flights := flights + 1;
      promise := Some(n);
      if stored.None? {
        results := results[n := false];
      } else {
        posts := posts[n := stored.value];
      }
    }

    method OnUnauthorized(id: RequestId, authEndpoint: bool)
      requires id in requests
      modifies this
      ensures Contents() == Unauthorized(old(Contents()), id, authEndpoint)
    {
      var original := requests[id];
      if !original.retried && !authEndpoint {
        if promise.None? {
          RefreshAccessToken();
        }
        requests := requests[id := original.(retried := true, phase := Waiting(promise.value))];
      } else {
        requests := requests[id := original.(phase := Done)];
      }
    }

    method OnRefreshReply(n: FlightId, reply: Option<Token>)
      modifies this
      ensures Contents() == PostEnds(old(Contents()), n, reply)
    {
      posts := map m | m in posts && m != n :: posts[m];
      stored := reply;
      results := results[n := reply.Some?];
    }

    method OnFinally(n: FlightId)
      modifies this
      ensures Contents() == RunFinally(old(Contents()), n)
    {
      promise := None;
      finished := finished + {n};
    }

    method OnAwaited(id: RequestId)
      requires id in requests && requests[id].phase.Waiting? && requests[id].phase.flight in results
      modifies this
      ensures Contents() == Resume(old(Contents()), id)
    {
      var original := requests[id];
      if results[original.phase.flight] {
        requests := requests[id := original.(sends := original.sends + 1, phase := InTransit)];
      } else {
        requests := requests[id := original.(phase := Done)];
      }
    }
  }

  // ------------------------------------------------------------------
  // The two together
  // ------------------------------------------------------------------

  /**
   * `mail` holds login responses on their way to the client. `submissions` lists every
   * refresh token the client ever posted and `breaches` counts entries of the server's
   * revoked-token branch.
   */
  datatype World = World(
    client: Client,
    rows: Table,
    handlers: map<FlightId, Handler>,
    mail: set<Token>,
    issued: set<Token>,
    submissions: seq<Token>,
    breaches: nat)

  datatype Event =
    | NewRequest(id: RequestId)
    | Got401(id: RequestId, authEndpoint: bool)
    | GotOther(id: RequestId)
    | Looked(n: FlightId, now: int)
    | DidRevoke(n: FlightId)
    | DidIssue(n: FlightId, mint: Mint, successor: Token, expiresAt: int)
    | GotReply(n: FlightId)
    | LostReply(n: FlightId)
    | FinallyRan(n: FlightId)
    | Awaited(id: RequestId)
    | LoginServed(user: UserId, successor: Token, expiresAt: int)
    | LoginArrived(token: Token)
    | Cleared
    | RowDeleted(token: Token)
    | CleanedUp(now: int)

  const BEGIN := World(FRESH_PAGE, map[], map[], {}, {}, [], 0)

  predicate Enabled(w: World, e: Event) {
    match e
    case NewRequest(id) => id !in w.client.requests
    case Got401(id, _) => id in w.client.requests && w.client.requests[id].phase.InTransit?
    case GotOther(id) => id in w.client.requests && w.client.requests[id].phase.InTransit?
    case Looked(n, _) => n in w.handlers && w.handlers[n].stage.Arrived?
    case DidRevoke(n) => n in w.handlers && w.handlers[n].stage.Admitted?
    case DidIssue(n, _, t, _) => n in w.handlers && w.handlers[n].stage.Revoked? && t !in w.issued
    case GotReply(n) => n in w.client.posts && n in w.handlers && w.handlers[n].stage.Replied?
    case LostReply(n) => n in w.client.posts
    case FinallyRan(n) => n in w.client.results && n !in w.client.finished
    case Awaited(id) =>
      id in w.client.requests && w.client.requests[id].phase.Waiting?
      && w.client.requests[id].phase.flight in w.client.finished
      && w.client.requests[id].phase.flight in w.client.results
    case LoginServed(_, t, _) => t !in w.issued
    case LoginArrived(t) => t in w.mail
    case _ => true
  }

  function Next(w: World, e: Event): World
    requires Enabled(w, e)
  {
    match e
    case NewRequest(id) => w.(client := Send(w.client, id))
    case Got401(id, auth) =>
      var c := Unauthorized(w.client, id, auth);
      // A post made by the interceptor reaches the server as one new handler.
      if c.posts == w.client.posts then w.(client := c)
      else w.(client := c, handlers := w.handlers[w.client.flights := Handler(w.client.stored.value, Arrived)],
              submissions := w.submissions + [w.client.stored.value])
    case GotOther(id) => w.(client := Complete(w.client, id))
    case Looked(n, now) =>
      var token := w.handlers[n].token;
      var (rows, stage) := LookUp(w.rows, token, now);
      w.(rows := rows, handlers := w.handlers[n := Handler(token, stage)],
         breaches := if token in w.rows && w.rows[token].revoked then w.breaches + 1 else w.breaches)
    case DidRevoke(n) =>
      var (rows, stage) := RevokeRow(w.rows, w.handlers[n].token, w.handlers[n].stage.user);
      w.(rows := rows, handlers := w.handlers[n := Handler(w.handlers[n].token, stage)])
    case DidIssue(n, mint, t, expiresAt) =>
      var (rows, stage) := IssueRow(w.rows, w.handlers[n].stage.user, mint, t, expiresAt);
      w.(rows := rows, handlers := w.handlers[n := Handler(w.handlers[n].token, stage)], issued := w.issued + {t})
    case GotReply(n) => w.(client := PostEnds(w.client, n, w.handlers[n].stage.reply))
    case LostReply(n) => w.(client := PostEnds(w.client, n, None))
    case FinallyRan(n) => w.(client := RunFinally(w.client, n))
    case Awaited(id) => w.(client := Resume(w.client, id))
    case LoginServed(u, t, expiresAt) =>
      w.(rows := w.rows[t := Row(u, expiresAt, false)], mail := w.mail + {t}, issued := w.issued + {t})
    case LoginArrived(t) => w.(client := w.client.(stored := Some(t)), mail := w.mail - {t})
    case Cleared => w.(client := w.client.(stored := None))
    case RowDeleted(t) => w.(rows := w.rows - {t})
    case CleanedUp(now) => w.(rows := Cleanup(w.rows, now))
  }

  predicate Legal(run: seq<Event>)
    decreases |run|, 0
  {
    run == [] || (Legal(run[..|run| - 1]) && Enabled(After(run[..|run| - 1]), run[|run| - 1]))
  }

  function After(run: seq<Event>): World
    requires Legal(run)
    decreases |run|, 1
  {
    if run == [] then BEGIN else Next(After(run[..|run| - 1]), run[|run| - 1])
  }

  ghost predicate NoRepeats(s: seq<Token>) {
    forall i, j | 0 <= i < j < |s| :: s[i] != s[j]
  }

  // At most one post is out, and it belongs to the promise the interceptor shares.
  ghost predicate SingleFlight(c: Client) {
    && (forall n | n in c.posts :: c.promise == Some(n) && n !in c.results)
    && (forall n | n in c.posts || n in c.results :: n < c.flights)
    && (c.promise.Some? ==> c.promise.value in c.posts || c.promise.value in c.results)
    && (forall n | n in c.results && n !in c.finished :: c.promise == Some(n))
  }

  ghost predicate SentAtMostTwice(c: Client) {
    forall id | id in c.requests ::
      var r := c.requests[id];
      && 1 <= r.sends <= 2
      && (!r.retried || r.phase.Waiting? ==> r.sends == 1)
      && (r.phase.Waiting? ==> r.retried)
  }

  ghost predicate OnItsWay(w: World, t: Token) {
    t in w.mail || exists n :: n in w.client.posts && n in w.handlers && w.handlers[n].stage == Replied(Some(t))
  }

  // What the client may still post has not been posted, and sits in one place only.
  ghost predicate Unspent(w: World) {
    && NoRepeats(w.submissions)
    && (forall t | t in w.submissions :: t in w.issued)
    && (w.client.stored.Some? ==>
          var t := w.client.stored.value;
          t in w.issued && !OnItsWay(w, t) && (t in w.submissions ==> t in w.client.posts.Values))
    && (forall t | t in w.mail :: t in w.issued && t !in w.submissions)
    && (forall n | n in w.client.posts && n in w.handlers && w.handlers[n].stage.Replied? && w.handlers[n].stage.reply.Some? ::
          var t := w.handlers[n].stage.reply.value; t in w.issued && t !in w.submissions && t !in w.mail)
  }

  // A row is revoked only by the one handler its token was posted to, after its look-up.
  ghost predicate RevokedByItsHandler(w: World) {
    && w.breaches == 0
    && (forall n | n in w.handlers :: n < w.client.flights && w.handlers[n].token in w.submissions)
    && (forall m, n | m in w.handlers && n in w.handlers && w.handlers[m].token == w.handlers[n].token :: m == n)
    && (forall t | t in w.rows && w.rows[t].revoked :: t in w.submissions)
    && (forall n | n in w.handlers && w.handlers[n].stage.Arrived? && w.handlers[n].token in w.rows ::
          !w.rows[w.handlers[n].token].revoked)
    && (forall t | t in w.rows :: t in w.issued)
  }

  ghost predicate Inv(w: World) {
    SingleFlight(w.client) && SentAtMostTwice(w.client) && Unspent(w) && RevokedByItsHandler(w)
  }

  lemma UnauthorizedKeeps(c: Client, id: RequestId, auth: bool)
    requires SingleFlight(c) && SentAtMostTwice(c) && id in c.requests && c.requests[id].phase.InTransit?
    ensures SingleFlight(Unauthorized(c, id, auth)) && SentAtMostTwice(Unauthorized(c, id, auth))
    ensures var d := Unauthorized(c, id, auth);
            || d.posts == c.posts
            || (&& c.posts == map[] && c.stored.Some? && d.posts == map[c.flights := c.stored.value]
                && d.flights == c.flights + 1)
    ensures Unauthorized(c, id, auth).stored == c.stored && c.flights <= Unauthorized(c, id, auth).flights
  {
  }

  lemma PostEndsKeeps(c: Client, n: FlightId, reply: Option<Token>)
    requires SingleFlight(c) && SentAtMostTwice(c) && n in c.posts
    ensures SingleFlight(PostEnds(c, n, reply)) && SentAtMostTwice(PostEnds(c, n, reply))
    ensures PostEnds(c, n, reply).posts == map[]
  {
  }

  lemma FinallyKeeps(c: Client, n: FlightId)
    requires SingleFlight(c) && SentAtMostTwice(c) && n in c.results && n !in c.finished
    ensures SingleFlight(RunFinally(c, n)) && SentAtMostTwice(RunFinally(c, n))
  {
  }

  lemma RequestKeeps(c: Client, d: Client, id: RequestId, r: Request)
    requires SingleFlight(c) && SentAtMostTwice(c) && d == c.(requests := c.requests[id := r])
    requires 1 <= r.sends <= 2 && (!r.retried ==> r.sends == 1) && !r.phase.Waiting?
    ensures SingleFlight(d) && SentAtMostTwice(d)
  {
  }

  lemma ClientStep(w: World, e: Event)
    requires Inv(w) && Enabled(w, e)
    ensures SingleFlight(Next(w, e).client) && SentAtMostTwice(Next(w, e).client)
  {
    var c, d := w.client, Next(w, e).client;
    match e
    case NewRequest(id) => RequestKeeps(c, d, id, Request(1, false, InTransit));
    case Got401(id, auth) => UnauthorizedKeeps(c, id, auth);
    case GotOther(id) => RequestKeeps(c, d, id, c.requests[id].(phase := Done));
    case Awaited(id) => RequestKeeps(c, d, id, d.requests[id]);
    case GotReply(n) => PostEndsKeeps(c, n, w.handlers[n].stage.reply);
    case LostReply(n) => PostEndsKeeps(c, n, None);
    case FinallyRan(n) => FinallyKeeps(c, n);
    case _ =>
  }

  // A flight starts: the stored token, never posted before, is posted.
  lemma SubmissionKeeps(w: World, v: World)
    requires Inv(w) && w.client.posts == map[] && w.client.stored.Some?
    requires v.rows == w.rows && v.mail == w.mail && v.issued == w.issued && v.breaches == w.breaches
    requires v.submissions == w.submissions + [w.client.stored.value] && v.client.stored == w.client.stored
    requires v.handlers == w.handlers[w.client.flights := Handler(w.client.stored.value, Arrived)]
    requires v.client.posts == map[w.client.flights := w.client.stored.value]
    requires v.client.flights == w.client.flights + 1
    ensures Unspent(v) && RevokedByItsHandler(v)
  {
    var t := w.client.stored.value;
    assert t !in w.submissions;
    assert v.client.posts[w.client.flights] in v.client.posts.Values;
    assert v.submissions[|w.submissions|] == t;
    assert forall i | 0 <= i < |w.submissions| :: v.submissions[i] == w.submissions[i];
  }

  // The client moved without posting, and what it stores is as before or unspent.
  lemma QuietClientKeeps(w: World, v: World)
    requires Inv(w) && v == w.(client := v.client) && w.client.flights <= v.client.flights
    requires v.client.posts == w.client.posts && (v.client.stored == w.client.stored || v.client.stored.None?)
    ensures Unspent(v) && RevokedByItsHandler(v)
  {
  }

  lemma ReplyKeeps(w: World, n: FlightId, reply: Option<Token>)
    requires Inv(w) && n in w.client.posts
    requires reply.Some? ==> n in w.handlers && w.handlers[n].stage == Replied(reply)
    ensures var v := w.(client := PostEnds(w.client, n, reply)); Unspent(v) && RevokedByItsHandler(v)
  {
  }

  lemma LookUpKeeps(w: World, n: FlightId, now: int)
    requires Inv(w) && Enabled(w, Looked(n, now))
    ensures Unspent(Next(w, Looked(n, now))) && RevokedByItsHandler(Next(w, Looked(n, now)))
  {
  }

  lemma RevokeKeeps(w: World, n: FlightId)
    requires Inv(w) && Enabled(w, DidRevoke(n))
    ensures Unspent(Next(w, DidRevoke(n))) && RevokedByItsHandler(Next(w, DidRevoke(n)))
  {
  }

  lemma IssueKeeps(w: World, n: FlightId, mint: Mint, t: Token, expiresAt: int)
    requires Inv(w) && Enabled(w, DidIssue(n, mint, t, expiresAt))
    ensures var v := Next(w, DidIssue(n, mint, t, expiresAt)); Unspent(v) && RevokedByItsHandler(v)
  {
  }

  // Rows only disappear, or one unrevoked row appears for a token nobody has.
  lemma RowsKeep(w: World, v: World)
    requires Inv(w) && v == w.(rows := v.rows)
    requires forall t | t in v.rows :: t in w.rows && v.rows[t] == w.rows[t]
    ensures Unspent(v) && RevokedByItsHandler(v)
  {
  }

  lemma LoginKeeps(w: World, e: Event)
    requires Inv(w) && Enabled(w, e) && (e.LoginServed? || e.LoginArrived?)
    ensures Unspent(Next(w, e)) && RevokedByItsHandler(Next(w, e))
  {
  }

  lemma ServerStep(w: World, e: Event)
    requires Inv(w) && Enabled(w, e)
    ensures Unspent(Next(w, e)) && RevokedByItsHandler(Next(w, e))
  {
    var v := Next(w, e);
    match e
    case Got401(id, auth) =>
      UnauthorizedKeeps(w.client, id, auth);
      if v.client.posts == w.client.posts { QuietClientKeeps(w, v); } else { SubmissionKeeps(w, v); }
    case GotReply(n) => ReplyKeeps(w, n, w.handlers[n].stage.reply);
    case LostReply(n) => ReplyKeeps(w, n, None);
    case Looked(n, now) => LookUpKeeps(w, n, now);
    case DidRevoke(n) => RevokeKeeps(w, n);
    case DidIssue(n, mint, t, expiresAt) => IssueKeeps(w, n, mint, t, expiresAt);
    case LoginServed(_, _, _) => LoginKeeps(w, e);
    case LoginArrived(_) => LoginKeeps(w, e);
    case RowDeleted(_) => RowsKeep(w, v);
    case CleanedUp(_) => RowsKeep(w, v);
    case _ => QuietClientKeeps(w, v);
  }

  lemma {:induction false} InvariantHolds(run: seq<Event>)
    requires Legal(run)
    ensures Inv(After(run))
  {
    if run != [] {
      var w, e := After(run[..|run| - 1]), run[|run| - 1];
      InvariantHolds(run[..|run| - 1]);
      ClientStep(w, e);
      ServerStep(w, e);
    }
  }

  /**
   * The composition: however replies are delayed or lost, rows expire or are deleted, and
   * logins come and go, one client has at most one refresh post out, posts each token at
   * most once, sends each request at most twice, and never trips the server's breach branch.
   */
  lemma SingleFlightNeverBreaches(run: seq<Event>)
    requires Legal(run)
    ensures |After(run).client.posts| <= 1
    ensures NoRepeats(After(run).submissions)
    ensures forall id | id in After(run).client.requests :: After(run).client.requests[id].sends <= 2
    ensures After(run).breaches == 0
  {
    InvariantHolds(run);
    var posts := After(run).client.posts;
    if posts != map[] {
      var n :| n in posts;
      assert posts.Keys == {n};
      assert |posts| == |posts.Keys|;
    }
  }
}
