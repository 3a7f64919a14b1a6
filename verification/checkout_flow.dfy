/**
 How the two halves of the server meet: the session parameters built by
 `/create-checkout-session` come back, once the customer pays, as the
 `checkout.session.completed` event the webhook handles.

 The provider's side of this round trip is an assumption of the model, stated
 by `CompletedSession`: the completed session echoes the `customer_email`
 passed at creation when it was a string, and the metadata entries whose
 values were strings.
 */
module CheckoutFlow {
  import opened JsValues
  import Server
  import Webhook

  /** The session object the provider reports for a session created with `params`. */
  function CompletedSession(params: Server.SessionParams): (s: Webhook.Session)
    ensures params.customerEmail.Str? ==> s.customerEmail == Some(params.customerEmail.s)
    ensures s.metadata.Some?
    ensures forall k :: k in params.metadata && params.metadata[k].Str? ==>
      k in s.metadata.value && s.metadata.value[k] == params.metadata[k].s
  {
    var email := if params.customerEmail.Str? then Some(params.customerEmail.s) else None;
    var metadata := map k | k in params.metadata && params.metadata[k].Str? :: params.metadata[k].s;
    Webhook.Session(email, Some(metadata))
  }

  /** A paid checkout started by the front end ends, once its completion event
      is verified and stored, with every profile carrying the buyer's email on
      the plan the buyer chose, which is one of the two paid plans. */
  lemma CheckoutRoundTrip(env: Server.Env, req: Server.CheckoutRequest, profiles: seq<Webhook.Profile>)
    requires Server.CreateCheckoutSession(env, req).Create?
    requires req.email.Str? && req.email.s != ""
    ensures var event := Webhook.Event(Webhook.CheckoutCompleted,
                                       CompletedSession(Server.CreateCheckoutSession(env, req).params));
      var r := Webhook.HandleWebhook(Webhook.Verified(event), Webhook.StoreOk, profiles);
      && r.reply.status == 200
      && req.plan.Str? && req.plan.s in {"print", "pro"}
      && forall i :: 0 <= i < |profiles| && profiles[i].email == Some(req.email.s) ==>
           r.profiles[i].plan == Some(req.plan.s)
  {
    var params := Server.CreateCheckoutSession(env, req).params;
    Server.AcceptedPlansArePaid(env, req);
    var session := CompletedSession(params);
    assert session.metadata.value["plan"] == req.plan.s;
    assert Webhook.PlanFromMetadata(session.metadata) == req.plan.s;
  }

  /** The plan the webhook falls back to when the metadata names none is not
      a plan checkout ever accepts, whatever the configuration. */
  lemma FallbackPlanIsNeverSold(env: Server.Env, userId: JsValue, email: JsValue)
    ensures Webhook.PlanFromMetadata(None) == Webhook.FallbackPlan
    ensures Server.CreateCheckoutSession(env, Server.CheckoutRequest(Str(Webhook.FallbackPlan), userId, email)).Rejected?
  {
  }
}
