/**
 * `POST api/v1/line/webhook` (line.controller.ts): two shape checks on the
 * request, then the service call, whose failures are re-thrown as bad requests.
 */
module LineController {
  import opened Wrappers
  import opened HttpErrors
  import opened LineService

  /** The world after the request and what the handler returns (`{status}`) or throws. */
  datatype Reply = Reply(world: World, result: Result<string, Thrown>)

  /**
   * The guards before the call: a missing or empty `x-line-signature` header
   * first, then a missing or non-array `body.events`.
   */
  function Guard(signature: Option<string>, body: WebhookBody): (r: Outcome<Thrown>)
    ensures r.Pass? <==> signature.Some? && signature.value != "" && body.events.Items?
    ensures (signature.None? || signature.value == "") ==> r == Fail(BadRequest("Missing x-line-signature header"))
    ensures signature.Some? && signature.value != "" && !body.events.Items? ==> r == Fail(BadRequest("Invalid webhook body format"))
  {
    if signature.None? || signature.value == "" then Fail(BadRequest("Missing x-line-signature header"))
    else if !body.events.Items? then Fail(BadRequest("Invalid webhook body format"))
    else Pass
  }

  /** The `try`/`catch` around the call: success answers 'ok', a bad request passes through, anything else is replaced. */
  function Remap(o: Outcome<Thrown>): (r: Result<string, Thrown>)
    ensures r.Success? <==> o.Pass?
    ensures r.Success? ==> r.value == "ok"
    ensures r.Failure? ==> IsBadRequest(r.error)
    ensures o.Fail? && IsBadRequest(o.error) ==> r == Failure(o.error)
    ensures o.Fail? && !IsBadRequest(o.error) ==> r == Failure(BadRequest("Failed to process webhook"))
  {
    match o
    case Pass => Success("ok")
    case Fail(e) => if IsBadRequest(e) then Failure(e) else Failure(BadRequest("Failed to process webhook"))
  }

  /** The whole handler: the service runs only when both guards pass. */
  function WebhookReply(w: World, env: Env, sg: Signer, secret: string, body: WebhookBody, signature: Option<string>): Reply {
    var g := Guard(signature, body);
    if g.Fail? then Reply(w, Failure(g.error))
    else
      var e := WebhookEffect(w, env, sg, secret, body, signature.value);
      Reply(e.world, Remap(e.outcome))
  }

  /** Without a signature the request is refused before the body is looked at, and nothing changes. */
  lemma MissingSignature(w: World, env: Env, sg: Signer, secret: string, body: WebhookBody, signature: Option<string>)
    requires signature.None? || signature == Some("")
    ensures WebhookReply(w, env, sg, secret, body, signature) == Reply(w, Failure(BadRequest("Missing x-line-signature header")))
  {
  }

  /** With a signature but no event array, the request is refused and nothing changes. */
  lemma MalformedBody(w: World, env: Env, sg: Signer, secret: string, body: WebhookBody, signature: string)
    requires signature != "" && !body.events.Items?
    ensures WebhookReply(w, env, sg, secret, body, Some(signature)) == Reply(w, Failure(BadRequest("Invalid webhook body format")))
  {
  }

  /** Everything the handler throws is a bad request. */
  lemma OnlyBadRequests(w: World, env: Env, sg: Signer, secret: string, body: WebhookBody, signature: Option<string>)
    ensures var r := WebhookReply(w, env, sg, secret, body, signature).result;
      r.Failure? ==> IsBadRequest(r.error)
  {
  }

  /**
   * Once the guards pass, the service either handles every event, answering
   * 'ok', or reports a secret or signature problem that is passed on unchanged
   * with nothing written: so 'Failed to process webhook' never reaches the caller.
   */
  lemma GuardedOutcomes(w: World, env: Env, sg: Signer, secret: string, body: WebhookBody, events: seq<Event>, signature: string)
    requires signature != "" && body.events == Items(events)
    ensures var r := WebhookReply(w, env, sg, secret, body, Some(signature));
      && (r.result.Success? <==> secret != "" && signature == sg.base64(sg.hmac(secret, sg.stringify(body))))
      && (r.result.Success? ==> r == Reply(Replay(w, env, events), Success("ok")))
      && (r.result.Failure? ==> r.world == w)
      && r.result != Failure(BadRequest("Failed to process webhook"))
  {
    var e := WebhookEffect(w, env, sg, secret, body, signature);
    if secret != "" && signature == sg.base64(sg.hmac(secret, sg.stringify(body))) {
      WebhookAccepts(w, env, sg, secret, body, events, signature);
    } else {
      WebhookRejects(w, env, sg, secret, body, signature);
      assert e.outcome.Fail? && IsBadRequest(e.outcome.error);
      assert e.outcome.error != BadRequest("Failed to process webhook");
    }
  }

  /** The controller in front of the LINE service. */
  class LineController {
    const service: LineService

    constructor (service: LineService)
      ensures this.service == service
    {
      this.service := service;
    }

    /** `webhook(body, signature)`: guards, then the service call inside the remapping `try`. */
    method Webhook(body: WebhookBody, signature: Option<string>, now: int) returns (r: Result<string, Thrown>)
      modifies service.db, service.api
      ensures service.Current() == WebhookReply(old(service.Current()), service.EnvAt(now), service.signer, service.channelSecret, body, signature).world
      ensures r == WebhookReply(old(service.Current()), service.EnvAt(now), service.signer, service.channelSecret, body, signature).result
    {
      var g := Guard(signature, body);
      if g.Fail? {
        return Failure(g.error);
      }
      var o := service.HandleWebhook(body, signature.value, now);
      r := Remap(o);
    }
  }
}
