/**
 * The bad-gateway retry machine of makeApiRequest, as a recursive function
 * over an abstract server. The k-th request of a call is answered by
 * `server(k)`; the answer is Go's `(resp, err)` pair from the HTTP client.
 * A 502 bumps the process-wide retry counter and, while the counter is within
 * RETRY_ATTEMPTS, sleeps RETRY_DELAY seconds and asks again.
 */
module Fetcher {
  import opened Wrappers
  import opened Api
  import Decimal

  datatype Response = Response(status: int, body: seq<byte>)

  /** What one HTTP GET yields: a transport error, a response, or (after a failed redirect) both. */
  datatype HttpReply = HttpReply(err: Option<string>, resp: Option<Response>)

  /** What makeApiRequest hands back: the body of a 200, nil, or a nil-pointer panic. */
  datatype FetchResult = Body(bytes: seq<byte>) | Nil | Panic

  /**
   * The observable effect of one call: its result, the retry counter after it,
   * how many requests it issued, how many RETRY_DELAY sleeps it took, and the
   * diagnostics it passed to the log writer, in order.
   */
  datatype Run = Run(result: FetchResult, count: nat, requests: nat, sleeps: nat, messages: seq<Diagnostic>)

  /** A reply carrying no transport error and the given status. */
  function Plain(status: int, body: seq<byte>): HttpReply {
    HttpReply(None, Some(Response(status, body)))
  }

  predicate IsBadGateway(reply: HttpReply) {
    reply.resp.Some? && reply.resp.value.status == 502
  }

  /** A 502 with no transport error beside it. */
  predicate IsPlainBadGateway(reply: HttpReply) {
    reply.err.None? && IsBadGateway(reply)
  }

  /** How many more 502s the process will sleep through, given the counter. */
  function RetriesLeft(count: nat): nat {
    if count < RETRY_ATTEMPTS then RETRY_ATTEMPTS - count else 0
  }

  /** The diagnostics makeApiRequest writes to the log. */
  datatype Diagnostic = RequestFailed(err: string) | ErrorStatus(status: int)

  /** The prefixes of the two diagnostic log texts. */
  const REQUEST_FAILED := "ERROR OCCURRED DURING HTTP REQUEST: "
  const ERROR_STATUS := "ERROR STATUS RETURNED: "

  /** The log text of a diagnostic: its prefix, then the error or status, then a newline. */
  function DiagnosticText(d: Diagnostic): (t: string)
    ensures |t| >= 2 && t[|t| - 1] == '\n'
    ensures d.RequestFailed? ==> |t| == |REQUEST_FAILED| + |d.err| + 1
    ensures d.RequestFailed? ==> t[..|REQUEST_FAILED|] == REQUEST_FAILED && t[|REQUEST_FAILED|..|t| - 1] == d.err
    ensures d.ErrorStatus? ==> |t| > |ERROR_STATUS| && t[..|ERROR_STATUS|] == ERROR_STATUS
    ensures d.ErrorStatus? ==> t[|ERROR_STATUS|..|t| - 1] == Decimal.IntToString(d.status)
  {
    match d
    case RequestFailed(err) => REQUEST_FAILED + err + "\n"
    case ErrorStatus(status) => ERROR_STATUS + Decimal.IntToString(status) + "\n"
  }

  /** The status log line names the status: different statuses give different lines. */
  lemma ErrorStatusTextInjective(s1: int, s2: int)
    requires DiagnosticText(ErrorStatus(s1)) == DiagnosticText(ErrorStatus(s2))
    ensures s1 == s2
  {
    var t1, t2 := DiagnosticText(ErrorStatus(s1)), DiagnosticText(ErrorStatus(s2));
    assert t1[|ERROR_STATUS|..|t1| - 1] == Decimal.IntToString(s1);
    assert t2[|ERROR_STATUS|..|t2| - 1] == Decimal.IntToString(s2);
    Decimal.IntToStringInjective(s1, s2);
  }

  /** A run preceded by `n` requests answered 502 and the sleeps after them. */
  function AfterRetries(n: nat, r: Run): Run {
    r.(requests := r.requests + n, sleeps := r.sleeps + n)
  }

  /**
   * What one request decides: stop with a result, the counter after it and the
   * diagnostics logged, or retry after logging some. A `Stop` carries the
   * call's result: `Body` for a 200, `Nil` for a status the call gives up on,
   * `Panic` for a missing response.
   */
  datatype Attempt = Stop(result: FetchResult, count: nat, logged: seq<Diagnostic>) | Retry(logged: seq<Diagnostic>)

  /** The transport error a reply carries, as a diagnostic, if any. */
  function TransportLog(reply: HttpReply): seq<Diagnostic> {
    if reply.err.Some? then [RequestFailed(reply.err.value)] else []
  }

  /** One request of makeApiRequest, answered by `reply`, with the counter at `count`. */
  function Classify(count: nat, reply: HttpReply): Attempt {
    var logged := TransportLog(reply);
    match reply.resp
    case None => Stop(Panic, count, logged)
    case Some(resp) =>
      if resp.status != 200 then
        if resp.status == 502 then
          if count + 1 > RETRY_ATTEMPTS then Stop(Nil, count + 1, logged)
          else Retry(logged)
        else Stop(Nil, count, logged + [ErrorStatus(resp.status)])
      else Stop(Body(resp.body), count, logged)
  }

  /**
   * The transitions of one request: retry exactly on a 502 while the counter,
   * once bumped, stays within RETRY_ATTEMPTS; a body exactly on a 200; a panic
   * exactly when there is no response; the counter moves only on a 502; and a
   * transport error and a terminal status other than 502 are each logged once.
   */
  lemma ClassifyTransitions(count: nat, reply: HttpReply)
    ensures var a := Classify(count, reply);
      && (a.Retry? <==> IsBadGateway(reply) && count < RETRY_ATTEMPTS)
      && (a.Stop? && a.result.Body? <==> reply.resp.Some? && reply.resp.value.status == 200)
      && (a.Stop? && a.result.Panic? <==> reply.resp.None?)
      && (a.Stop? ==> a.count == if IsBadGateway(reply) then count + 1 else count)
      && |a.logged| == (if reply.err.Some? then 1 else 0) + (if a.Stop? && a.result.Nil? && !IsBadGateway(reply) then 1 else 0)
      && (reply.err.Some? ==> a.logged[0] == RequestFailed(reply.err.value))
      && (a.Stop? && a.result.Nil? && !IsBadGateway(reply) ==> a.logged[|a.logged| - 1] == ErrorStatus(reply.resp.value.status))
  {
  }

  /**
   * makeApiRequest started with retry counter `count`, its first request
   * answered by `server(k)`.
   */
  function Fetch(count: nat, server: nat -> HttpReply, k: nat): Run
    decreases RetriesLeft(count)
  {
    match Classify(count, server(k))
    case Stop(result, after, logged) => Run(result, after, 1, 0, logged)
    case Retry(logged) =>
      var rest := Fetch(count + 1, server, k + 1);
      rest.(requests := rest.requests + 1, sleeps := rest.sleeps + 1, messages := logged + rest.messages)
  }

  /** No response at all: the nil dereference panics, after logging the transport error. */
  lemma FetchPanics(count: nat, server: nat -> HttpReply, k: nat)
    requires server(k).resp.None?
    ensures Fetch(count, server, k) == Run(Panic, count, 1, 0, TransportLog(server(k)))
  {
  }

  /** A 200 hands back its body at once. */
  lemma FetchSucceeds(count: nat, server: nat -> HttpReply, k: nat)
    requires server(k).resp.Some? && server(k).resp.value.status == 200
    ensures Fetch(count, server, k) == Run(Body(server(k).resp.value.body), count, 1, 0, TransportLog(server(k)))
  {
  }

  /** Any status but 200 and 502 is logged and yields nil, with no retry. */
  lemma FetchRejects(count: nat, server: nat -> HttpReply, k: nat)
    requires server(k).resp.Some? && server(k).resp.value.status != 200 && !IsBadGateway(server(k))
    ensures Fetch(count, server, k)
      == Run(Nil, count, 1, 0, TransportLog(server(k)) + [ErrorStatus(server(k).resp.value.status)])
  {
  }

  /** A 502 that pushes the counter past RETRY_ATTEMPTS yields nil without a sleep. */
  lemma FetchGivesUp(count: nat, server: nat -> HttpReply, k: nat)
    requires IsBadGateway(server(k)) && count >= RETRY_ATTEMPTS
    ensures Fetch(count, server, k) == Run(Nil, count + 1, 1, 0, TransportLog(server(k)))
  {
  }

  /** A 502 within the budget: a sleep, then the same call with the counter bumped, one request later. */
  lemma FetchRetries(count: nat, server: nat -> HttpReply, k: nat)
    requires IsBadGateway(server(k)) && count < RETRY_ATTEMPTS
    ensures var rest := Fetch(count + 1, server, k + 1);
      Fetch(count, server, k)
      == rest.(requests := rest.requests + 1, sleeps := rest.sleeps + 1, messages := TransportLog(server(k)) + rest.messages)
  {
  }

  /**
   * Every call ends: it sleeps at most the retries the counter has left, issues
   * one request per sleep plus the last one, every request before the last was
   * answered 502, and the counter grows by one per 502 seen, so it never
   * decreases; the extra step past the sleeps happens only when the last reply
   * is a 502 past the budget, which yields nil.
   */
  lemma {:induction false} FetchBounds(count: nat, server: nat -> HttpReply, k: nat)
    ensures var r := Fetch(count, server, k);
      && r.requests == r.sleeps + 1
      && r.sleeps <= RetriesLeft(count)
      && (forall i :: k <= i < k + r.sleeps ==> IsBadGateway(server(i)))
      && r.count == count + r.sleeps + (if IsBadGateway(server(k + r.sleeps)) then 1 else 0)
      && (r.count == count + r.sleeps + 1 ==> r.result == Nil && r.count > RETRY_ATTEMPTS)
    decreases RetriesLeft(count)
  {
    if Classify(count, server(k)).Retry? {
      FetchBounds(count + 1, server, k + 1);
    }
  }

  /**
   * How the last reply of a call decides its result: a panic exactly when it
   * has no response, its body exactly when it is a 200, and nil exactly when
   * it is any other status, which for a 502 means the budget was used up.
   */
  predicate DecidedBy(result: FetchResult, count: nat, last: HttpReply) {
    && (result.Panic? <==> last.resp.None?)
    && (result.Body? <==> last.resp.Some? && last.resp.value.status == 200)
    && (result.Body? ==> result.bytes == last.resp.value.body)
    && (result.Nil? <==> last.resp.Some? && last.resp.value.status != 200)
    && (result.Nil? && IsBadGateway(last) ==> count > RETRY_ATTEMPTS)
  }

  /** The reply to the last request of a call, after its sleeps, decides the call's result. */
  lemma {:induction false} FetchResultFromLastReply(count: nat, server: nat -> HttpReply, k: nat)
    ensures var r := Fetch(count, server, k); DecidedBy(r.result, r.count, server(k + r.sleeps))
    decreases RetriesLeft(count)
  {
    var reply := server(k);
    if reply.resp.None? {
      FetchPanics(count, server, k);
    } else if reply.resp.value.status == 200 {
      FetchSucceeds(count, server, k);
    } else if !IsBadGateway(reply) {
      FetchRejects(count, server, k);
    } else if count >= RETRY_ATTEMPTS {
      FetchGivesUp(count, server, k);
    } else {
      var r, rest := Fetch(count, server, k), Fetch(count + 1, server, k + 1);
      FetchRetries(count, server, k);
      FetchResultFromLastReply(count + 1, server, k + 1);
      assert r.result == rest.result && r.count == rest.count && k + r.sleeps == k + 1 + rest.sleeps;
    }
  }

  /** One plain 502 within the budget: a sleep, and the same call one request later. */
  lemma BadGatewayStep(count: nat, server: nat -> HttpReply, k: nat)
    requires count < RETRY_ATTEMPTS && IsPlainBadGateway(server(k))
    ensures Fetch(count, server, k) == AfterRetries(1, Fetch(count + 1, server, k + 1))
  {
    assert Classify(count, server(k)) == Retry([]);
    assert [] + Fetch(count + 1, server, k + 1).messages == Fetch(count + 1, server, k + 1).messages;
  }

  /** A 200 reached after `n` 502s within the budget yields its body, with no further request. */
  lemma {:induction false} OkAfterBadGateways(count: nat, server: nat -> HttpReply, k: nat, n: nat, body: seq<byte>)
    requires n <= RetriesLeft(count)
    requires forall i :: k <= i < k + n ==> IsPlainBadGateway(server(i))
    requires server(k + n) == Plain(200, body)
    ensures Fetch(count, server, k) == Run(Body(body), count + n, n + 1, n, [])
    decreases n
  {
    if n > 0 {
      BadGatewayStep(count, server, k);
      OkAfterBadGateways(count + 1, server, k + 1, n - 1, body);
    } else {
      FetchSucceeds(count, server, k);
    }
  }

  /**
   * Any status other than 200 and 502, reached after `n` 502s within the
   * budget, ends the call with nil and exactly one diagnostic, and no retry.
   */
  lemma {:induction false} ErrorStatusAfterBadGateways(count: nat, server: nat -> HttpReply, k: nat, n: nat, status: int, body: seq<byte>)
    requires n <= RetriesLeft(count)
    requires forall i :: k <= i < k + n ==> IsPlainBadGateway(server(i))
    requires server(k + n) == Plain(status, body) && status != 200 && status != 502
    ensures Fetch(count, server, k) == Run(Nil, count + n, n + 1, n, [ErrorStatus(status)])
    decreases n
  {
    if n > 0 {
      BadGatewayStep(count, server, k);
      ErrorStatusAfterBadGateways(count + 1, server, k + 1, n - 1, status, body);
    } else {
      FetchRejects(count, server, k);
      assert TransportLog(server(k)) + [ErrorStatus(status)] == [ErrorStatus(status)];
    }
  }

  /**
   * A server that answers 502 forever: the call gives up with nil, silently,
   * after RetriesLeft(count) + 1 requests and RetriesLeft(count) sleeps.
   */
  lemma {:induction false} EndlessBadGateway(count: nat, server: nat -> HttpReply, k: nat)
    requires forall i :: k <= i ==> IsPlainBadGateway(server(i))
    ensures var n := RetriesLeft(count);
      Fetch(count, server, k) == Run(Nil, count + n + 1, n + 1, n, [])
    decreases RetriesLeft(count)
  {
    if count < RETRY_ATTEMPTS {
      BadGatewayStep(count, server, k);
      EndlessBadGateway(count + 1, server, k + 1);
    } else {
      assert IsPlainBadGateway(server(k));
      FetchGivesUp(count, server, k);
    }
  }

  /** From a fresh process, endless 502s cost exactly 6 requests and 5 sleeps. */
  lemma FreshEndlessBadGateway(server: nat -> HttpReply)
    requires forall i :: IsPlainBadGateway(server(i))
    ensures var r := Fetch(0, server, 0);
      r.result == Nil && r.requests == 6 && r.sleeps == 5 && r.messages == [] && r.count == 6
  {
    EndlessBadGateway(0, server, 0);
  }

  /**
   * Conversely, a body is returned only for a 200 that follows an unbroken run
   * of 502s, one per sleep.
   */
  lemma BodyComesFromOk(count: nat, server: nat -> HttpReply, k: nat)
    ensures var r := Fetch(count, server, k);
      r.result.Body? ==>
        && (forall i :: k <= i < k + r.sleeps ==> IsBadGateway(server(i)))
        && server(k + r.sleeps).resp == Some(Response(200, r.result.bytes))
  {
    FetchBounds(count, server, k);
    FetchResultFromLastReply(count, server, k);
  }

  /**
   * The counter is never reset: whatever a call used is gone for the next
   * call, so two calls together never sleep more than the first one could.
   */
  lemma LaterCallsHaveFewerRetries(count: nat, first: nat -> HttpReply, second: nat -> HttpReply)
    ensures var r1 := Fetch(count, first, 0);
      var r2 := Fetch(r1.count, second, 0);
      && r1.count >= count
      && RetriesLeft(r1.count) + r1.sleeps <= RetriesLeft(count)
      && r1.sleeps + r2.sleeps <= RetriesLeft(count)
  {
    var r1 := Fetch(count, first, 0);
    FetchBounds(count, first, 0);
    FetchBounds(r1.count, second, 0);
  }
}
