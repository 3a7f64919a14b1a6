/**
 The `/stripe-webhook` POST handler of stripe_webhook.js as a total function
 from (outcome of signature verification, store outcome, profile table) to
 (reply, new profile table).

 The signature check inside the provider library is not modelled: its outcome
 is an input, either the parsed event or the error message it threw. The
 profile store is a sequence of rows; the one statement the handler issues,
 `update({ plan }).eq('email', email)`, is modelled by `SetPlanByEmail`, and
 the store's possible refusal of it is an input too.
 */
module Webhook {
  import opened JsValues

  /** A row of the `profiles` table: the columns the handler filters on and
      writes, and every other column kept opaque in `extra`. */
  datatype Profile = Profile(
    userId: string,
    email: Option<string>,
    plan: Option<string>,
    extra: map<string, string>
  )

  /** The fields of a checkout session object the handler reads. Metadata
      values are strings, as the provider stores them. */
  datatype Session = Session(customerEmail: Option<string>, metadata: Option<map<string, string>>)

  /** A parsed event: its `type` and its `data.object`. */
  datatype Event = Event(eventType: string, session: Session)

  /** What `constructEvent` produces: the event, or the message of the error it throws. */
  datatype Verification = Verified(event: Event) | SignatureFailed(message: string)

  /** How the store answers the update statement. */
  datatype StoreOutcome = StoreOk | StoreError(message: string)

  datatype Reply = Reply(status: nat, body: string)

  datatype Outcome = Outcome(reply: Reply, profiles: seq<Profile>)

  const CheckoutCompleted := "checkout.session.completed"
  const PaymentSucceeded := "invoice.payment_succeeded"
  const SubscriptionDeleted := "customer.subscription.deleted"

  /** The plan written when the session carries no usable `metadata.plan`. */
  const FallbackPlan := "basic"

  /** The arms of the handler's `switch (event.type)`. */
  datatype Handling = UpdatePlan | AcknowledgePayment | AcknowledgeCancellation | Unhandled

  function Classify(eventType: string): (h: Handling)
    ensures h == UpdatePlan <==> eventType == CheckoutCompleted
  {
    if eventType == CheckoutCompleted then UpdatePlan
    else if eventType == PaymentSucceeded then AcknowledgePayment
    else if eventType == SubscriptionDeleted then AcknowledgeCancellation
    else Unhandled
  }

  /** `session.metadata?.plan || 'basic'`: the metadata plan when it is present
      and non-empty, the fallback otherwise. */
  function PlanFromMetadata(metadata: Option<map<string, string>>): (plan: string)
    ensures plan != ""
    ensures metadata.Some? && "plan" in metadata.value && metadata.value["plan"] != "" ==>
      plan == metadata.value["plan"]
    ensures plan != FallbackPlan ==>
      metadata.Some? && "plan" in metadata.value && metadata.value["plan"] == plan
  {
    if metadata.Some? && "plan" in metadata.value && metadata.value["plan"] != "" then
      metadata.value["plan"]
    else
      FallbackPlan
  }

  /** The email the handler acts on: `customer_email` when it is truthy. */
  predicate HasEmail(s: Session) {
    s.customerEmail.Some? && s.customerEmail.value != ""
  }

  /** `.eq('email', email)`: a row whose email column is null never matches. */
  predicate Matches(p: Profile, email: string) {
    p.email == Some(email)
  }

  /** `update({ plan }).eq('email', email)`: every row whose email equals
      `email` gets `plan`; every other row, and every other column, stays. */
  function SetPlanByEmail(profiles: seq<Profile>, email: string, plan: string): (r: seq<Profile>)
    ensures |r| == |profiles|
    ensures forall i :: 0 <= i < |profiles| && Matches(profiles[i], email) ==>
      r[i] == profiles[i].(plan := Some(plan))
    ensures forall i :: 0 <= i < |profiles| && !Matches(profiles[i], email) ==>
      r[i] == profiles[i]
  {
    if profiles == [] then []
    else
      var p := profiles[0];
      var p' := if Matches(p, email) then p.(plan := Some(plan)) else p;
      [p'] + SetPlanByEmail(profiles[1..], email, plan)
  }

  /** The effect of the `checkout.session.completed` arm on the table. */
  function ApplyCheckout(session: Session, store: StoreOutcome, profiles: seq<Profile>): seq<Profile> {
    if HasEmail(session) && store.StoreOk? then
      SetPlanByEmail(profiles, session.customerEmail.value, PlanFromMetadata(session.metadata))
    else
      profiles
  }

  /** True when the handler, given this verification outcome and store
      answer, writes the plan of the rows matching the session's email. */
  predicate Writes(v: Verification, store: StoreOutcome) {
    && v.Verified?
    && v.event.eventType == CheckoutCompleted
    && HasEmail(v.event.session)
    && store.StoreOk?
  }

  /** The handler. A failed signature check is answered 400 with the error
      message; a verified event is always acknowledged with an empty 200,
      whatever its type and whatever the store answers. Only a verified
      checkout-completed event with an email changes the table, and then only
      the `plan` column of the rows with that email. */
  function HandleWebhook(v: Verification, store: StoreOutcome, profiles: seq<Profile>): (r: Outcome)
    ensures v.SignatureFailed? ==>
      r.reply == Reply(400, "Webhook Error: " + v.message) && r.profiles == profiles
    ensures v.Verified? ==> r.reply == Reply(200, "")
    ensures !Writes(v, store) ==> r.profiles == profiles
    ensures |r.profiles| == |profiles|
    ensures forall i :: 0 <= i < |profiles| ==>
      r.profiles[i] == profiles[i].(plan := r.profiles[i].plan)
    ensures forall i :: 0 <= i < |profiles| && r.profiles[i] != profiles[i] ==>
      Writes(v, store) && profiles[i].email == v.event.session.customerEmail
    ensures Writes(v, store) ==>
      forall i :: 0 <= i < |profiles| && profiles[i].email == v.event.session.customerEmail ==>
        r.profiles[i].plan == Some(PlanFromMetadata(v.event.session.metadata))
  {
    match v
    case SignatureFailed(message) =>
      Outcome(Reply(400, "Webhook Error: " + message), profiles)
    case Verified(event) =>
      var profiles' :=
        match Classify(event.eventType)
        case UpdatePlan => ApplyCheckout(event.session, store, profiles)
        case _ => profiles;
      Outcome(Reply(200, ""), profiles')
  }

  /** Writing the same plan for the same email twice is writing it once. */
  lemma {:induction false} SetPlanByEmailIdempotent(profiles: seq<Profile>, email: string, plan: string)
    ensures SetPlanByEmail(SetPlanByEmail(profiles, email, plan), email, plan)
         == SetPlanByEmail(profiles, email, plan)
  {
    var once := SetPlanByEmail(profiles, email, plan);
    var twice := SetPlanByEmail(once, email, plan);
    forall i | 0 <= i < |profiles|
      ensures twice[i] == once[i]
    {
      assert Matches(once[i], email) <==> Matches(profiles[i], email);
    }
  }

  /** Of two plan writes for the same email, the later one wins. */
  lemma {:induction false} SetPlanByEmailLastWriteWins(profiles: seq<Profile>, email: string, first: string, second: string)
    ensures SetPlanByEmail(SetPlanByEmail(profiles, email, first), email, second)
         == SetPlanByEmail(profiles, email, second)
  {
    var once := SetPlanByEmail(profiles, email, first);
    forall i | 0 <= i < |profiles|
      ensures SetPlanByEmail(once, email, second)[i] == SetPlanByEmail(profiles, email, second)[i]
    {
      assert Matches(once[i], email) <==> Matches(profiles[i], email);
    }
  }

  /** Plan writes for two different emails touch disjoint rows and commute. */
  lemma {:induction false} SetPlanByEmailCommutes(profiles: seq<Profile>, e1: string, p1: string, e2: string, p2: string)
    requires e1 != e2
    ensures SetPlanByEmail(SetPlanByEmail(profiles, e1, p1), e2, p2)
         == SetPlanByEmail(SetPlanByEmail(profiles, e2, p2), e1, p1)
  {
    var a := SetPlanByEmail(profiles, e1, p1);
    var b := SetPlanByEmail(profiles, e2, p2);
    forall i | 0 <= i < |profiles|
      ensures SetPlanByEmail(a, e2, p2)[i] == SetPlanByEmail(b, e1, p1)[i]
    {
      assert Matches(a[i], e2) <==> Matches(profiles[i], e2);
      assert Matches(b[i], e1) <==> Matches(profiles[i], e1);
    }
  }

  /** Redelivering a verified event straight after its first delivery, with
      no other event for that email handled in between, leaves the table as
      the first delivery did when that delivery was stored; so does a
      redelivery the store refuses. A redelivery that arrives after a later
      event for the same email is not harmless: see
      `StaleRedeliveryOverridesLaterWrite`. */
  lemma {:induction false} RedeliveryIsHarmless(v: Verification, first: StoreOutcome, second: StoreOutcome, profiles: seq<Profile>)
    requires first.StoreOk? || second.StoreError?
    ensures var once := HandleWebhook(v, first, profiles);
      HandleWebhook(v, second, once.profiles) == once
  {
    var once := HandleWebhook(v, first, profiles);
    if Writes(v, first) && Writes(v, second) {
      var email := v.event.session.customerEmail.value;
      var plan := PlanFromMetadata(v.event.session.metadata);
      SetPlanByEmailIdempotent(profiles, email, plan);
    }
  }

  /** The handler keeps no record of processed events and no ordering guard:
      a late duplicate of a checkout event, delivered after a newer checkout
      event for the same email, undoes the newer event. The table ends as if
      only the stale event had ever been handled, so every row with that
      email carries the stale event's plan. */
  lemma {:induction false} StaleRedeliveryOverridesLaterWrite(a: Verification, b: Verification, profiles: seq<Profile>)
    requires Writes(a, StoreOk) && Writes(b, StoreOk)
    requires a.event.session.customerEmail == b.event.session.customerEmail
    ensures var t1 := HandleWebhook(a, StoreOk, profiles).profiles;
      var t2 := HandleWebhook(b, StoreOk, t1).profiles;
      var t3 := HandleWebhook(a, StoreOk, t2).profiles;
      && t3 == t1
      && forall i :: 0 <= i < |profiles| && profiles[i].email == a.event.session.customerEmail ==>
           t2[i].plan == Some(PlanFromMetadata(b.event.session.metadata))
           && t3[i].plan == Some(PlanFromMetadata(a.event.session.metadata))
  {
    var email := a.event.session.customerEmail.value;
    var planA := PlanFromMetadata(a.event.session.metadata);
    var planB := PlanFromMetadata(b.event.session.metadata);
    var t1 := SetPlanByEmail(profiles, email, planA);
    var t2 := SetPlanByEmail(t1, email, planB);
    SetPlanByEmailLastWriteWins(profiles, email, planA, planB);
    SetPlanByEmailLastWriteWins(profiles, email, planB, planA);
    assert SetPlanByEmail(t2, email, planA) == t1;
  }
}
