/**
 * What the client's refresh achieves (frontend/src/lib/api.ts): which token it stores, read
 * off the run alone, and what a round of rejected requests comes to when nothing disturbs it.
 */
module ClientRounds {
  import opened Wrappers
  import opened RefreshTokens
  import opened RefreshHandlers
  import opened ApiClient

  // ------------------------------------------------------------------
  // The stored token
  // ------------------------------------------------------------------

  // The successor issued for a flight, if one was.
  function IssuedFor(run: seq<ApiClient.Event>, n: FlightId): Option<Token> {
    if run == [] then None
    else
      var front, last := run[..|run| - 1], run[|run| - 1];
      if last.DidIssue? && last.n == n && last.mint.Minted? then Some(last.successor) else IssuedFor(front, n)
  }

  // The last word on the stored token: a reply's, a login's, or that there is none.
  function LastStored(run: seq<ApiClient.Event>): Option<Token> {
    if run == [] then None
    else
      var front := run[..|run| - 1];
      match run[|run| - 1]
      case GotReply(n) => IssuedFor(front, n)
      case LostReply(_) => None
      case LoginArrived(t) => Some(t)
      case Cleared => None
      case _ => LastStored(front)
  }

  // Until a handler has replied nothing was issued for its flight.
  ghost predicate RepliesWithIssued(run: seq<ApiClient.Event>)
    requires ApiClient.Legal(run)
  {
    var handlers := ApiClient.After(run).handlers;
    forall n: FlightId ::
      IssuedFor(run, n) == if n in handlers && handlers[n].stage.Replied? then handlers[n].stage.reply else None
  }

  lemma ReplyStep(w: World, e: ApiClient.Event, n: FlightId)
    requires RevokedByItsHandler(w) && ApiClient.Enabled(w, e)
    ensures var before := if n in w.handlers && w.handlers[n].stage.Replied? then w.handlers[n].stage.reply else None;
            var handlers := ApiClient.Next(w, e).handlers;
            var after := if n in handlers && handlers[n].stage.Replied? then handlers[n].stage.reply else None;
            after == if e.DidIssue? && e.n == n && e.mint.Minted? then Some(e.successor) else before
  {
  }

  lemma {:induction false} RepliesAreIssued(run: seq<ApiClient.Event>)
    requires ApiClient.Legal(run)
    ensures RepliesWithIssued(run)
  {
    if run != [] {
      var front, e := run[..|run| - 1], run[|run| - 1];
      RepliesAreIssued(front);
      InvariantHolds(front);
      forall n: FlightId
        ensures var handlers := ApiClient.After(run).handlers;
                IssuedFor(run, n) == if n in handlers && handlers[n].stage.Replied? then handlers[n].stage.reply else None
      {
        ReplyStep(ApiClient.After(front), e, n);
      }
    }
  }

  /** In every run the stored token is what the last reply or login brought, unless cleared since. */
  lemma {:induction false} StoredIsLastStored(run: seq<ApiClient.Event>)
    requires ApiClient.Legal(run)
    ensures ApiClient.After(run).client.stored == LastStored(run)
  {
    if run != [] {
      var front := run[..|run| - 1];
      StoredIsLastStored(front);
      RepliesAreIssued(front);
      StoredStep(ApiClient.After(front), run[|run| - 1]);
    }
  }

  lemma StoredStep(w: World, e: ApiClient.Event)
    requires ApiClient.Enabled(w, e)
    ensures ApiClient.Next(w, e).client.stored
            == match e
               case GotReply(n) => w.handlers[n].stage.reply
               case LostReply(_) => None
               case LoginArrived(t) => Some(t)
               case Cleared => None
               case _ => w.client.stored
  {
  }

  // ------------------------------------------------------------------
  // Playing events on from a world
  // ------------------------------------------------------------------

  predicate Plays(w: World, events: seq<ApiClient.Event>)
    decreases |events|
  {
    events == [] || (ApiClient.Enabled(w, events[0]) && Plays(ApiClient.Next(w, events[0]), events[1..]))
  }

  function Played(w: World, events: seq<ApiClient.Event>): World
    requires Plays(w, events)
    decreases |events|
  {
    if events == [] then w else Played(ApiClient.Next(w, events[0]), events[1..])
  }

  lemma {:induction false} PlaysAreLegal(run: seq<ApiClient.Event>, events: seq<ApiClient.Event>)
    requires ApiClient.Legal(run) && Plays(ApiClient.After(run), events)
    ensures ApiClient.Legal(run + events) && ApiClient.After(run + events) == Played(ApiClient.After(run), events)
    decreases |events|
  {
    if events == [] {
      assert run + events == run;
    } else {
      var longer := run + [events[0]];
      assert longer[..|longer| - 1] == run;
      PlaysAreLegal(longer, events[1..]);
      assert run + events == longer + events[1..];
    }
  }

  lemma {:induction false} PlaysInTurn(w: World, a: seq<ApiClient.Event>, b: seq<ApiClient.Event>)
    requires Plays(w, a) && Plays(Played(w, a), b)
    ensures Plays(w, a + b) && Played(w, a + b) == Played(Played(w, a), b)
    decreases |a|
  {
    if a == [] {
      assert a + b == b;
    } else {
      PlaysInTurn(ApiClient.Next(w, a[0]), a[1..], b);
      assert (a + b)[1..] == a[1..] + b;
    }
  }

  // ------------------------------------------------------------------
  // A round: requests rejected, one refresh, requests sent again
  // ------------------------------------------------------------------

  function Rejections(ids: seq<RequestId>): seq<ApiClient.Event> {
    if ids == [] then [] else [Got401(ids[0], false)] + Rejections(ids[1..])
  }

  function Returns(ids: seq<RequestId>): seq<ApiClient.Event> {
    if ids == [] then [] else [Awaited(ids[0])] + Returns(ids[1..])
  }

  function Parked(requests: map<RequestId, Request>, ids: seq<RequestId>, n: FlightId): map<RequestId, Request> {
    map id | id in requests ::
      if id in ids then requests[id].(retried := true, phase := Waiting(n)) else requests[id]
  }

  // Sent again with the new token, or given up.
  function Returned(requests: map<RequestId, Request>, ids: seq<RequestId>, again: bool): map<RequestId, Request> {
    map id | id in requests ::
      if id !in ids then requests[id]
      else if again then requests[id].(sends := requests[id].sends + 1, phase := InTransit)
      else requests[id].(phase := Done)
  }

  predicate Distinct(ids: seq<RequestId>) {
    forall i, j | 0 <= i < j < |ids| :: ids[i] != ids[j]
  }

  // Requests that can be rejected for the first time.
  predicate Out(w: World, ids: seq<RequestId>) {
    Distinct(ids) && forall id | id in ids ::
      id in w.client.requests && w.client.requests[id].phase.InTransit? && !w.client.requests[id].retried
  }

  lemma ParkedFirst(requests: map<RequestId, Request>, ids: seq<RequestId>, n: FlightId)
    requires ids != [] && Distinct(ids) && ids[0] in requests
    ensures Parked(requests[ids[0] := requests[ids[0]].(retried := true, phase := Waiting(n))], ids[1..], n)
            == Parked(requests, ids, n)
  {
    assert forall id :: id in ids <==> id == ids[0] || id in ids[1..];
    assert ids[0] !in ids[1..];
  }

  lemma RestAreOut(w: World, next: World, ids: seq<RequestId>)
    requires Out(w, ids) && ids != []
    requires forall id | id in w.client.requests && id != ids[0] ::
               id in next.client.requests && next.client.requests[id] == w.client.requests[id]
    ensures Out(next, ids[1..])
  {
    assert forall id | id in ids[1..] :: id in ids && id != ids[0];
  }

  lemma ReturnedFirst(requests: map<RequestId, Request>, ids: seq<RequestId>, again: bool)
    requires ids != [] && Distinct(ids) && ids[0] in requests
    ensures Returned(requests[ids[0] := Returned(requests, [ids[0]], again)[ids[0]]], ids[1..], again)
            == Returned(requests, ids, again)
  {
    assert forall id :: id in ids <==> id == ids[0] || id in ids[1..];
    assert ids[0] !in ids[1..];
  }

  lemma {:induction false} AllJoin(w: World, ids: seq<RequestId>, n: FlightId)
    requires Out(w, ids) && w.client.promise == Some(n)
    ensures Plays(w, Rejections(ids))
    ensures Played(w, Rejections(ids)) == w.(client := w.client.(requests := Parked(w.client.requests, ids, n)))
    decreases |ids|
  {
    if ids == [] {
      assert Parked(w.client.requests, ids, n) == w.client.requests;
    } else {
      var next := ApiClient.Next(w, Got401(ids[0], false));
      RestAreOut(w, next, ids);
      AllJoin(next, ids[1..], n);
      ParkedFirst(w.client.requests, ids, n);
    }
  }

  lemma OneReturns(w: World, ids: seq<RequestId>, n: FlightId)
    requires ids != [] && Distinct(ids) && n in w.client.results && n in w.client.finished
    requires forall id | id in ids :: id in w.client.requests && w.client.requests[id].phase == Waiting(n)
    ensures ApiClient.Enabled(w, Awaited(ids[0])) && Distinct(ids[1..])
    ensures var next := ApiClient.Next(w, Awaited(ids[0]));
            && (forall id | id in ids[1..] :: id in next.client.requests && next.client.requests[id].phase == Waiting(n))
            && next == w.(client := w.client.(requests :=
                 w.client.requests[ids[0] := Returned(w.client.requests, [ids[0]], w.client.results[n])[ids[0]]]))
  {
    assert ids[0] in ids && ids[0] in [ids[0]];
    assert forall id | id in ids[1..] :: id in ids && id != ids[0];
  }

  lemma {:induction false} AllReturn(w: World, ids: seq<RequestId>, n: FlightId)
    requires Distinct(ids) && n in w.client.results && n in w.client.finished
    requires forall id | id in ids :: id in w.client.requests && w.client.requests[id].phase == Waiting(n)
    ensures Plays(w, Returns(ids))
    ensures Played(w, Returns(ids))
            == w.(client := w.client.(requests := Returned(w.client.requests, ids, w.client.results[n])))
    decreases |ids|
  {
    if ids == [] {
      assert Returned(w.client.requests, ids, w.client.results[n]) == w.client.requests;
    } else {
      var next := ApiClient.Next(w, Awaited(ids[0]));
      OneReturns(w, ids, n);
      AllReturn(next, ids[1..], n);
      ReturnedFirst(w.client.requests, ids, w.client.results[n]);
    }
  }

  // The stored token is one the server would rotate at `now`.
  predicate HoldsLiveToken(w: World, now: int) {
    && w.client.stored.Some? && w.client.stored.value in w.rows
    && !w.rows[w.client.stored.value].revoked && now <= w.rows[w.client.stored.value].expiresAt
  }

  // What the server and the client do in between, for flight `n`.
  function Middle(n: FlightId, now: int, successor: Token, expiresAt: int): seq<ApiClient.Event> {
    [Looked(n, now), DidRevoke(n), DidIssue(n, Minted, successor, expiresAt), GotReply(n), FinallyRan(n)]
  }

  function Round(ids: seq<RequestId>, n: FlightId, now: int, successor: Token, expiresAt: int): seq<ApiClient.Event> {
    Rejections(ids) + Middle(n, now, successor, expiresAt) + Returns(ids)
  }

  // The flight the first rejection starts: posted, or failed at once without a token.
  function Launched(w: World, requests: map<RequestId, Request>): World {
    var n := w.client.flights;
    var c := w.client.(flights := n + 1, promise := Some(n), requests := requests);
    match w.client.stored
    case None => w.(client := c.(results := c.results[n := false]))
    case Some(t) =>
      w.(client := c.(posts := c.posts[n := t]), handlers := w.handlers[n := Handler(t, Arrived)],
         submissions := w.submissions + [t])
  }

  lemma FirstLaunches(w: World, id: RequestId)
    requires SingleFlight(w.client) && w.client.promise.None? && Out(w, [id])
    ensures ApiClient.Enabled(w, Got401(id, false))
    ensures ApiClient.Next(w, Got401(id, false))
            == Launched(w, w.client.requests[id := w.client.requests[id].(retried := true, phase := Waiting(w.client.flights))])
  {
    assert id in [id];
    assert w.client.flights !in w.client.posts;
  }

  lemma AllRejected(w: World, ids: seq<RequestId>)
    requires SingleFlight(w.client) && w.client.promise.None? && Out(w, ids) && ids != []
    ensures Plays(w, Rejections(ids))
    ensures Played(w, Rejections(ids)) == Launched(w, Parked(w.client.requests, ids, w.client.flights))
  {
    FirstLaunches(w, ids[0]);
    var next := ApiClient.Next(w, Got401(ids[0], false));
    RestAreOut(w, next, ids);
    AllJoin(next, ids[1..], w.client.flights);
    ParkedFirst(w.client.requests, ids, w.client.flights);
  }

  lemma MiddlePlays(w: World, n: FlightId, t: Token, now: int, successor: Token, expiresAt: int)
    requires n in w.handlers && w.handlers[n] == Handler(t, Arrived) && n in w.client.posts
    requires n !in w.client.finished && successor !in w.issued
    requires t in w.rows && !w.rows[t].revoked && now <= w.rows[t].expiresAt
    ensures Plays(w, Middle(n, now, successor, expiresAt))
    ensures var v := Played(w, Middle(n, now, successor, expiresAt));
            && v.client == w.client.(posts := w.client.posts - {n}, stored := Some(successor),
                                     results := w.client.results[n := true], promise := None,
                                     finished := w.client.finished + {n})
            && v.rows == WithRevoked(w.rows, t)[successor := Row(w.rows[t].user, expiresAt, false)]
            && v.submissions == w.submissions && v.breaches == w.breaches
  {
    var w1 := ApiClient.Next(w, Looked(n, now));
    var w2 := ApiClient.Next(w1, DidRevoke(n));
    var w3 := ApiClient.Next(w2, DidIssue(n, Minted, successor, expiresAt));
    var w4 := ApiClient.Next(w3, GotReply(n));
    FivePlay(w, Looked(n, now), w1, DidRevoke(n), w2, DidIssue(n, Minted, successor, expiresAt), w3, GotReply(n), w4,
             FinallyRan(n));
  }

  lemma FivePlay(w: World, e1: ApiClient.Event, w1: World, e2: ApiClient.Event, w2: World, e3: ApiClient.Event, w3: World,
                 e4: ApiClient.Event, w4: World, e5: ApiClient.Event)
    requires ApiClient.Enabled(w, e1) && w1 == ApiClient.Next(w, e1) && ApiClient.Enabled(w1, e2) && w2 == ApiClient.Next(w1, e2)
    requires ApiClient.Enabled(w2, e3) && w3 == ApiClient.Next(w2, e3) && ApiClient.Enabled(w3, e4) && w4 == ApiClient.Next(w3, e4)
    requires ApiClient.Enabled(w4, e5)
    ensures Plays(w, [e1, e2, e3, e4, e5]) && Played(w, [e1, e2, e3, e4, e5]) == ApiClient.Next(w4, e5)
  {
    OnePlays(w, e1, [e2, e3, e4, e5]);
    OnePlays(w1, e2, [e3, e4, e5]);
    OnePlays(w2, e3, [e4, e5]);
    OnePlays(w3, e4, [e5]);
    OnePlays(w4, e5, []);
  }

  lemma OnePlays(w: World, e: ApiClient.Event, rest: seq<ApiClient.Event>)
    requires ApiClient.Enabled(w, e)
    ensures Plays(w, [e] + rest) <==> Plays(ApiClient.Next(w, e), rest)
    ensures Plays(w, [e] + rest) ==> Played(w, [e] + rest) == Played(ApiClient.Next(w, e), rest)
  {
    assert ([e] + rest)[1..] == rest;
  }

  lemma RoundPlays(w: World, ids: seq<RequestId>, now: int, successor: Token, expiresAt: int)
    requires SingleFlight(w.client) && w.client.promise.None? && w.client.flights !in w.client.finished
    requires Out(w, ids) && ids != [] && HoldsLiveToken(w, now) && successor !in w.issued
    ensures Plays(w, Round(ids, w.client.flights, now, successor, expiresAt))
    ensures var v, n, t := Played(w, Round(ids, w.client.flights, now, successor, expiresAt)), w.client.flights, w.client.stored.value;
            && v.client.requests == Returned(Parked(w.client.requests, ids, n), ids, true)
            && v.client.stored == Some(successor) && v.client.promise.None?
            && v.rows == WithRevoked(w.rows, t)[successor := Row(w.rows[t].user, expiresAt, false)]
            && v.submissions == w.submissions + [t] && v.breaches == w.breaches
  {
    var n, t := w.client.flights, w.client.stored.value;
    AllRejected(w, ids);
    var launched := Played(w, Rejections(ids));
    MiddlePlays(launched, n, t, now, successor, expiresAt);
    PlaysInTurn(w, Rejections(ids), Middle(n, now, successor, expiresAt));
    var replied := Played(launched, Middle(n, now, successor, expiresAt));
    AllReturn(replied, ids, n);
    PlaysInTurn(w, Rejections(ids) + Middle(n, now, successor, expiresAt), Returns(ids));
  }

  /**
   * Progress: from any reachable world whose stored token the server would rotate, however
   * many requests are rejected for the first time, one undisturbed refresh sends each of them
   * a second time, touches no other request, and leaves the client with the one successor:
   * a live row of the same user.
   */
  lemma OneRefreshServesAll(run: seq<ApiClient.Event>, ids: seq<RequestId>, now: int, successor: Token, expiresAt: int)
    requires ApiClient.Legal(run) && ids != []
    requires var w := ApiClient.After(run);
             w.client.promise.None? && Out(w, ids) && HoldsLiveToken(w, now) && successor !in w.issued
    ensures var w := ApiClient.After(run);
            var longer := run + Round(ids, w.client.flights, now, successor, expiresAt);
            ApiClient.Legal(longer) &&
            var v, t := ApiClient.After(longer), w.client.stored.value;
            && (forall id | id in ids :: id in v.client.requests && v.client.requests[id] == Request(2, true, InTransit))
            && (forall id | id in w.client.requests && id !in ids ::
                  id in v.client.requests && v.client.requests[id] == w.client.requests[id])
            && v.client.stored == Some(successor) && v.client.promise.None?
            && v.rows == WithRevoked(w.rows, t)[successor := Row(w.rows[t].user, expiresAt, false)]
            && v.submissions == w.submissions + [t] && v.breaches == 0
  {
    var w := ApiClient.After(run);
    InvariantHolds(run);
    FinishedAreOld(run);
    RoundPlays(w, ids, now, successor, expiresAt);
    PlaysAreLegal(run, Round(ids, w.client.flights, now, successor, expiresAt));
    SentTwice(w.client.requests, ids, w.client.flights);
  }

  lemma SentTwice(requests: map<RequestId, Request>, ids: seq<RequestId>, n: FlightId)
    requires forall id | id in ids :: id in requests && requests[id].sends == 1
    ensures var after := Returned(Parked(requests, ids, n), ids, true);
            && (forall id | id in ids :: id in after && after[id] == Request(2, true, InTransit))
            && (forall id | id in requests && id !in ids :: id in after && after[id] == requests[id])
  {
  }

  lemma {:induction false} FinishedAreOld(run: seq<ApiClient.Event>)
    requires ApiClient.Legal(run)
    ensures forall n | n in ApiClient.After(run).client.finished :: n < ApiClient.After(run).client.flights
  {
    if run != [] {
      var front := run[..|run| - 1];
      FinishedAreOld(front);
      InvariantHolds(front);
      FinishedStep(ApiClient.After(front), run[|run| - 1]);
    }
  }

  lemma FinishedStep(w: World, e: ApiClient.Event)
    requires SingleFlight(w.client) && ApiClient.Enabled(w, e)
    requires forall n | n in w.client.finished :: n < w.client.flights
    ensures forall n | n in ApiClient.Next(w, e).client.finished :: n < ApiClient.Next(w, e).client.flights
  {
  }

  // A second 401, or one from the login or refresh endpoint itself, starts and awaits nothing.
  lemma FinalRejection(run: seq<ApiClient.Event>, id: RequestId, auth: bool)
    requires ApiClient.Legal(run) && ApiClient.Enabled(ApiClient.After(run), Got401(id, auth))
    requires auth || ApiClient.After(run).client.requests[id].retried
    ensures var w, longer := ApiClient.After(run), run + [Got401(id, auth)];
            && ApiClient.Legal(longer)
            && ApiClient.After(longer) == w.(client := Complete(w.client, id))
  {
    var longer := run + [Got401(id, auth)];
    assert longer[..|longer| - 1] == run;
  }

  // ------------------------------------------------------------------
  // Rounds that end the session
  // ------------------------------------------------------------------

  // The reply is lost or refused on the way; without a token nothing is sent at all.
  function Ending(w: World): seq<ApiClient.Event> {
    var n := w.client.flights;
    if w.client.stored.Some? then [LostReply(n), FinallyRan(n)] else [FinallyRan(n)]
  }

  /** Otherwise every rejected request is given up after its one send, and nothing stays stored. */
  lemma FailedRefreshEndsAll(run: seq<ApiClient.Event>, ids: seq<RequestId>)
    requires ApiClient.Legal(run) && ids != []
    requires var w := ApiClient.After(run); w.client.promise.None? && Out(w, ids)
    ensures var w := ApiClient.After(run);
            var longer := run + (Rejections(ids) + Ending(w) + Returns(ids));
            ApiClient.Legal(longer) &&
            var v := ApiClient.After(longer);
            && (forall id | id in ids :: id in v.client.requests && v.client.requests[id] == Request(1, true, Done))
            && (forall id | id in w.client.requests && id !in ids ::
                  id in v.client.requests && v.client.requests[id] == w.client.requests[id])
            && v.client.stored.None? && v.client.promise.None? && v.rows == w.rows
  {
    var w := ApiClient.After(run);
    InvariantHolds(run);
    FinishedAreOld(run);
    EndingPlays(w, ids);
    PlaysAreLegal(run, Rejections(ids) + Ending(w) + Returns(ids));
    GivenUp(w.client.requests, ids, w.client.flights);
  }

  lemma GivenUp(requests: map<RequestId, Request>, ids: seq<RequestId>, n: FlightId)
    requires forall id | id in ids :: id in requests && requests[id].sends == 1
    ensures var after := Returned(Parked(requests, ids, n), ids, false);
            && (forall id | id in ids :: id in after && after[id] == Request(1, true, Done))
            && (forall id | id in requests && id !in ids :: id in after && after[id] == requests[id])
  {
  }

  lemma EndingPlays(w: World, ids: seq<RequestId>)
    requires SingleFlight(w.client) && w.client.promise.None? && w.client.flights !in w.client.finished
    requires Out(w, ids) && ids != []
    ensures Plays(w, Rejections(ids) + Ending(w) + Returns(ids))
    ensures var v := Played(w, Rejections(ids) + Ending(w) + Returns(ids));
            && v.client.requests == Returned(Parked(w.client.requests, ids, w.client.flights), ids, false)
            && v.client.stored.None? && v.client.promise.None? && v.rows == w.rows
  {
    var n := w.client.flights;
    AllRejected(w, ids);
    var launched := Played(w, Rejections(ids));
    FlightFails(w, launched);
    PlaysInTurn(w, Rejections(ids), Ending(w));
    var ended := Played(launched, Ending(w));
    AllReturn(ended, ids, n);
    PlaysInTurn(w, Rejections(ids) + Ending(w), Returns(ids));
  }

  lemma FlightFails(w: World, launched: World)
    requires launched == Launched(w, launched.client.requests) && w.client.flights !in w.client.finished
    ensures Plays(launched, Ending(w))
    ensures var v, n := Played(launched, Ending(w)), w.client.flights;
            && v.client.requests == launched.client.requests && v.rows == w.rows
            && v.client.stored.None? && v.client.promise.None?
            && n in v.client.results && !v.client.results[n] && n in v.client.finished
  {
    var n := w.client.flights;
    if w.client.stored.Some? {
      var lost := ApiClient.Next(launched, LostReply(n));
      OnePlays(launched, LostReply(n), [FinallyRan(n)]);
      OnePlays(lost, FinallyRan(n), []);
    } else {
      OnePlays(launched, FinallyRan(n), []);
    }
  }
}
