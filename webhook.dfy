/** The request handler of src/server.ts: routing, JSON parsing, the
    charge.succeeded filter, the post to the chat channel and the
    processed-event counter it keeps next to the server's start time. */
module Webhook {
  import opened Js
  import opened StripeSummary

  const WebhookPath := "/webhook/stripe"

  /** The outcome of `JSON.parse(body)`: a syntax error, the value `null`, or a
      value whose `type` and `data.object` can be read (any other JSON value reads
      as an event whose `type` is undefined). */
  datatype Parsed = Malformed | JsonNull | Json(event: Event)

  /** An inbound request: the URL's path, the method (`verb`), and what its body parses to. */
  datatype Request = Request(path: string, verb: string, body: Parsed)

  /** A response body: the status page (start time and counter, shown as HTML) or plain text. */
  datatype Page = StatusPage(since: int, eventsProcessed: nat) | Plain(text: string)

  /** How the handler ends: with a response, or with an exception it does not catch. */
  datatype Outcome = Response(status: int, page: Page) | Rejected(reason: Thrown)

  /** One handled request: its outcome, the message handed to the chat client (if any)
      and the counter afterwards. */
  datatype Step = Step(outcome: Outcome, posted: Option<string>, eventsProcessed: nat)

  /** Whether a request reaches the post: a POST to the webhook whose body is a
      charge.succeeded event that can be summarised. */
  predicate ReachesPost(req: Request, amountText: int -> string) {
    && req.path == WebhookPath
    && req.verb == "POST"
    && req.body.Json?
    && req.body.event.eventType == Str(ChargeSucceeded)
    && SummarizeStripeEvent(req.body.event, amountText).Normal?
  }

  /** The handler as a function of the request, the counter, the start time and
      whether the chat client accepts the post. A message is posted exactly when the
      request reaches the post, and the counter grows by one exactly when that post
      succeeds; every other outcome leaves it as it was. */
  function Dispatch(req: Request, eventsProcessed: nat, startTimestamp: int,
                    postSucceeds: bool, amountText: int -> string): (s: Step)
    ensures s.posted.Some? <==> ReachesPost(req, amountText)
    ensures s.posted.Some? ==> Normal(s.posted.value) == SummarizeStripeEvent(req.body.event, amountText)
    ensures s.eventsProcessed == if s.posted.Some? && postSucceeds then eventsProcessed + 1 else eventsProcessed
    ensures s.outcome == Response(200, Plain("ok")) <==> ReachesPost(req, amountText) && postSucceeds
  {
    if req.path == "/" && req.verb == "GET" then
      Step(Response(200, StatusPage(startTimestamp, eventsProcessed)), None, eventsProcessed)
    else if req.path != WebhookPath then
      Step(Response(404, Plain("Not Found")), None, eventsProcessed)
    else if req.verb != "POST" then
      Step(Response(405, Plain("Only POST allowed")), None, eventsProcessed)
    else
      match req.body
      case Malformed => Step(Response(400, Plain("Invalid JSON")), None, eventsProcessed)
      case JsonNull => Step(Rejected(TypeError), None, eventsProcessed)
      case Json(event) =>
        if event.eventType != Str(ChargeSucceeded) then
          Step(Response(200, Plain("Not a charge.succeeded event")), None, eventsProcessed)
        else
          match SummarizeStripeEvent(event, amountText)
          case Throw(e) => Step(Rejected(e), None, eventsProcessed)
          case Normal(summary) =>
            if postSucceeds then Step(Response(200, Plain("ok")), Some(summary), eventsProcessed + 1)
            else Step(Rejected(ChannelError), Some(summary), eventsProcessed)
  }

  /** Only GET / serves the status page, and it reports the start time and the current count. */
  lemma StatusPageOnlyForGetRoot(req: Request, n: nat, start: int, postSucceeds: bool, amountText: int -> string)
    ensures var s := Dispatch(req, n, start, postSucceeds, amountText);
            (s.outcome.Response? && s.outcome.page.StatusPage?) <==> req.path == "/" && req.verb == "GET"
    ensures req.path == "/" && req.verb == "GET" ==>
            Dispatch(req, n, start, postSucceeds, amountText).outcome == Response(200, StatusPage(start, n))
  {
  }

  /** Every path other than "/" and the webhook is not found, whatever the method;
      so is "/" with any method but GET. */
  lemma UnknownRouteIsNotFound(req: Request, n: nat, start: int, postSucceeds: bool, amountText: int -> string)
    requires req.path != WebhookPath
    requires req.path != "/" || req.verb != "GET"
    ensures Dispatch(req, n, start, postSucceeds, amountText) == Step(Response(404, Plain("Not Found")), None, n)
  {
  }

  /** The webhook answers any method but POST with 405. */
  lemma WebhookNeedsPost(req: Request, n: nat, start: int, postSucceeds: bool, amountText: int -> string)
    requires req.path == WebhookPath && req.verb != "POST"
    ensures Dispatch(req, n, start, postSucceeds, amountText) == Step(Response(405, Plain("Only POST allowed")), None, n)
  {
  }

  /** A POST to the webhook whose body is not JSON gets 400. */
  lemma MalformedBodyIsBadRequest(req: Request, n: nat, start: int, postSucceeds: bool, amountText: int -> string)
    requires req.path == WebhookPath && req.verb == "POST" && req.body.Malformed?
    ensures Dispatch(req, n, start, postSucceeds, amountText) == Step(Response(400, Plain("Invalid JSON")), None, n)
  {
  }

  /** An event of any other type is acknowledged with 200 and nothing else happens. */
  lemma OtherEventIsIgnored(req: Request, n: nat, start: int, postSucceeds: bool, amountText: int -> string)
    requires req.path == WebhookPath && req.verb == "POST"
    requires req.body.Json? && req.body.event.eventType != Str(ChargeSucceeded)
    ensures Dispatch(req, n, start, postSucceeds, amountText)
            == Step(Response(200, Plain("Not a charge.succeeded event")), None, n)
  {
  }

  /** The exceptions the handler does not catch: a `null` body, a charge.succeeded event
      the summary cannot read, and a post the chat client rejects. None of them counts. */
  lemma UncaughtExceptions(req: Request, n: nat, start: int, postSucceeds: bool, amountText: int -> string)
    requires req.path == WebhookPath && req.verb == "POST"
    ensures req.body.JsonNull? ==>
            Dispatch(req, n, start, postSucceeds, amountText) == Step(Rejected(TypeError), None, n)
    ensures req.body.Json? && req.body.event.eventType == Str(ChargeSucceeded) && !Summarizable(req.body.event) ==>
            Dispatch(req, n, start, postSucceeds, amountText) == Step(Rejected(TypeError), None, n)
    ensures ReachesPost(req, amountText) && !postSucceeds ==>
            Dispatch(req, n, start, postSucceeds, amountText)
            == Step(Rejected(ChannelError), Some(SummarizeStripeEvent(req.body.event, amountText).value), n)
  {
  }

  /** The two request shapes of the repository's tests that this handler answers as they expect. */
  lemma HandlerTestCases(body: Parsed, n: nat, start: int, postSucceeds: bool, amountText: int -> string)
    ensures Dispatch(Request("/invalid", "GET", body), n, start, postSucceeds, amountText).outcome.status == 404
    ensures Dispatch(Request(WebhookPath, "GET", body), n, start, postSucceeds, amountText).outcome.status == 405
  {
  }

  /** The counter after handling `reqs` in turn, each paired with whether its post succeeds. */
  function Replay(reqs: seq<(Request, bool)>, n: nat, start: int, amountText: int -> string): nat
    decreases |reqs|
  {
    if reqs == [] then n
    else Replay(reqs[1..], Dispatch(reqs[0].0, n, start, reqs[0].1, amountText).eventsProcessed, start, amountText)
  }

  /** How many of `reqs` reach the post and have it accepted. */
  function SuccessfulPosts(reqs: seq<(Request, bool)>, amountText: int -> string): nat
    decreases |reqs|
  {
    if reqs == [] then 0
    else (if ReachesPost(reqs[0].0, amountText) && reqs[0].1 then 1 else 0) + SuccessfulPosts(reqs[1..], amountText)
  }

  /** Over any run of requests, the counter grows by exactly the number of accepted posts. */
  lemma {:induction false} ReplayCountsSuccessfulPosts(reqs: seq<(Request, bool)>, n: nat, start: int, amountText: int -> string)
    ensures Replay(reqs, n, start, amountText) == n + SuccessfulPosts(reqs, amountText)
    decreases |reqs|
  {
    if reqs != [] {
      var next := Dispatch(reqs[0].0, n, start, reqs[0].1, amountText).eventsProcessed;
      ReplayCountsSuccessfulPosts(reqs[1..], next, start, amountText);
    }
  }

  /** The server's state: the processed-event counter and the start time. `delivered`
      is the history of messages the chat client accepted, which the counter counts. */
  class WebhookServer {
    var eventsProcessed: nat
    const startTimestamp: int
    ghost var delivered: seq<string>

    ghost predicate Valid()
      reads this
    {
      eventsProcessed == |delivered|
    }

    /** The server starts at time `now` with nothing processed. */
    constructor (now: int)
      ensures Valid()
      ensures startTimestamp == now && eventsProcessed == 0 && delivered == []
    {
      startTimestamp := now;
      eventsProcessed := 0;
      delivered := [];
    }

    /** handler: each check in the source's order; the post comes before the increment,
        so a post the chat client rejects leaves the counter as it was. */
    method Handle(req: Request, postSucceeds: bool, amountText: int -> string)
      returns (res: Outcome, posted: Option<string>)
      requires Valid()
      modifies this
      ensures Valid()
      ensures var s := Dispatch(req, old(eventsProcessed), startTimestamp, postSucceeds, amountText);
              res == s.outcome && posted == s.posted && eventsProcessed == s.eventsProcessed
      ensures delivered == if posted.Some? && postSucceeds then old(delivered) + [posted.value] else old(delivered)
    {
      if req.path == "/" && req.verb == "GET" {
        return Response(200, StatusPage(startTimestamp, eventsProcessed)), None;
      }
      if req.path != WebhookPath {
        return Response(404, Plain("Not Found")), None;
      }
      if req.verb != "POST" {
        return Response(405, Plain("Only POST allowed")), None;
      }
      var event: Event;
      match req.body {
        case Malformed =>
          return Response(400, Plain("Invalid JSON")), None;
        case JsonNull =>
          return Rejected(TypeError), None;
        case Json(e) =>
          event := e;
      }
      if event.eventType != Str(ChargeSucceeded) {
        return Response(200, Plain("Not a charge.succeeded event")), None;
      }
      var summary: string;
      match SummarizeStripeEvent(event, amountText) {
        case Throw(e) =>
          return Rejected(e), None;
        case Normal(m) =>
          summary := m;
      }
      posted := Some(summary);
      if !postSucceeds {
        return Rejected(ChannelError), posted;
      }
      delivered := delivered + [summary];
      eventsProcessed := eventsProcessed + 1;
      res := Response(200, Plain("ok"));
    }
  }
}
