/**
 The request-side logic of the Express server in index.js: the `mask` helper
 used for boot logs, the CORS origin callback, the `PRICES` table and the plan
 validation of `/create-checkout-session`, and the parameter record that route
 hands to the payment provider's session-creation call.
 */
module Server {
  import opened JsValues

  /** The environment variables the server reads. */
  datatype Env = Env(
    frontendUrl: Option<string>,   // FRONTEND_URL
    priceIdPrint: Option<string>,  // PRICE_ID_Print
    priceIdPro: Option<string>     // PRICE_ID_PRO
  )

  // ---------- mask ----------

  const PricePrefix := "price_"

  /** Shortens a price identifier for logging: its first eight characters,
      "...", and its last six. Anything that is not a string starting with
      "price_" is returned as it is. Characters are Unicode scalar values,
      which matches JavaScript's UTF-16 counting for ASCII price ids. */
  function Mask(v: JsValue): (r: JsValue)
    ensures !(v.Str? && StartsWith(v.s, PricePrefix)) ==> r == v
    ensures v.Str? && StartsWith(v.s, PricePrefix) ==>
      && 6 <= |v.s|
      && r == Str(v.s[..Min(8, |v.s|)] + "..." + v.s[|v.s| - 6..])
  {
    match v
    case Str(s) =>
      if StartsWith(s, PricePrefix) then
        assert Slice(s, 0, Some(8)) == s[..Min(8, |s|)];
        assert Slice(s, -6, None) == s[|s| - 6..];
        Str(Slice(s, 0, Some(8)) + "..." + Slice(s, -6, None))
      else v
    case _ => v
  }

  /** A masked price identifier is again a string starting with "price_", is
      nine characters longer than its visible prefix, and keeps the original's
      last six characters at its end. */
  lemma MaskShape(s: string)
    requires StartsWith(s, PricePrefix)
    ensures Mask(Str(s)).Str?
    ensures var m := Mask(Str(s)).s;
      && |m| == Min(8, |s|) + 9
      && StartsWith(m, PricePrefix)
      && m[|m| - 6..] == s[|s| - 6..]
  {
    var m := Mask(Str(s)).s;
    assert m == s[..Min(8, |s|)] + "..." + s[|s| - 6..];
    assert m[..6] == s[..6];
  }

  /** The characters strictly between the first eight and the last six never
      reach the log: two long price identifiers that agree on those ends are
      masked identically. */
  lemma MaskHidesMiddle(s: string, t: string)
    requires StartsWith(s, PricePrefix) && StartsWith(t, PricePrefix)
    requires 8 <= |s| && 8 <= |t|
    requires s[..8] == t[..8] && s[|s| - 6..] == t[|t| - 6..]
    ensures Mask(Str(s)) == Mask(Str(t))
  {
  }

  /** Masking an already masked identifier of at least eight characters
      changes nothing. */
  lemma {:induction false} MaskIdempotentOnLongIds(s: string)
    requires StartsWith(s, PricePrefix) && 8 <= |s|
    ensures Mask(Mask(Str(s))) == Mask(Str(s))
  {
    MaskShape(s);
    var m := Mask(Str(s)).s;
    assert m == s[..8] + "..." + s[|s| - 6..];
    assert m[..8] == s[..8];
  }

  /** Below eight characters masking is never idempotent: the first mask
      has |s| + 9 characters and its mask has 17, so the two differ. For
      example "price_" masks to "price_...price_", which masks to
      "price_.....price_". With `MaskIdempotentOnLongIds`, masking is
      idempotent on a price identifier exactly when it has at least eight
      characters. */
  lemma {:induction false} MaskNotIdempotentOnShortIds(s: string)
    requires StartsWith(s, PricePrefix) && |s| < 8
    ensures Mask(Mask(Str(s))) != Mask(Str(s))
  {
    MaskShape(s);
    MaskShape(Mask(Str(s)).s);
  }

  /** The last `k` elements of a concatenation lie in its right operand. */
  lemma SuffixOfConcat(a: string, b: string, k: nat)
    requires k <= |b|
    ensures (a + b)[|a + b| - k..] == b[|b| - k..]
  {
    var c := a + b;
    assert c[|a|..] == b;
  }

  /** The mask conceals nothing of a price identifier of at most fourteen
      characters: its visible prefix and the tail of its last six characters
      spell the whole identifier again. */
  lemma {:induction false} MaskRevealsShortIds(s: string)
    requires StartsWith(s, PricePrefix) && |s| <= 14
    ensures var m := Mask(Str(s)).s;
      var head := Min(8, |s|);
      && |s| - head <= |m|
      && s == m[..head] + m[|m| - (|s| - head)..]
  {
    var head := Min(8, |s|);
    var k := |s| - head;
    var prefix := s[..head] + "...";
    var tail := s[|s| - 6..];
    var m := Mask(Str(s)).s;
    assert m == prefix + tail;
    assert m[..head] == s[..head];
    SuffixOfConcat(prefix, tail, k);
    assert tail[6 - k..] == s[head..];
    assert s == s[..head] + s[head..];
  }

  // ---------- CORS ----------

  const LocalDevOrigin := "http://localhost:3000"
  const LoopbackDevOrigin := "http://127.0.0.1:3000"
  const CorsError := "Not allowed by CORS"

  /** `allowedOrigins`: the production front end (possibly unset) and the two
      local development origins. */
  function AllowedOrigins(env: Env): seq<JsValue> {
    [EnvValue(env.frontendUrl), Str(LocalDevOrigin), Str(LoopbackDevOrigin)]
  }

  /** What the CORS `origin` callback hands to its continuation. */
  datatype CorsVerdict = Allow | Deny(error: string)

  /** The CORS `origin` callback: a request without an origin is allowed, and
      any other origin is allowed exactly when it is one of `allowedOrigins`. */
  function CheckOrigin(env: Env, origin: JsValue): (r: CorsVerdict)
    ensures !Truthy(origin) ==> r == Allow
    ensures r == Allow <==>
      || !Truthy(origin)
      || origin == Str(LocalDevOrigin)
      || origin == Str(LoopbackDevOrigin)
      || (origin.Str? && env.frontendUrl == Some(origin.s))
    ensures r.Deny? ==> r.error == CorsError
  {
    if !Truthy(origin) then Allow
    else if origin in AllowedOrigins(env) then Allow
    else Deny(CorsError)
  }

  // ---------- plans and checkout ----------

  /** `PRICES[plan]` over the three own keys of the table; every other key
      reads as undefined. */
  function PriceFor(env: Env, plan: JsValue): (r: JsValue)
    ensures r == Null <==> plan == Str("free")
    ensures Truthy(r) <==>
      || (plan == Str("print") && Configured(env.priceIdPrint))
      || (plan == Str("pro") && Configured(env.priceIdPro))
  {
    if plan == Str("free") then Null
    else if plan == Str("print") then EnvValue(env.priceIdPrint)
    else if plan == Str("pro") then EnvValue(env.priceIdPro)
    else Undefined
  }

  /** True when an optional environment variable holds a non-empty string. */
  predicate Configured(o: Option<string>) {
    o.Some? && o.value != ""
  }

  /** The checkout body fields the route destructures. */
  datatype CheckoutRequest = CheckoutRequest(plan: JsValue, userId: JsValue, email: JsValue)

  datatype LineItem = LineItem(price: string, quantity: nat)

  /** The parameter record passed to the provider's session-creation call. */
  datatype SessionParams = SessionParams(
    mode: string,
    lineItems: seq<LineItem>,
    successUrl: string,
    cancelUrl: string,
    clientReferenceId: JsValue,
    customerEmail: JsValue,
    metadata: map<string, JsValue>
  )

  const InvalidPlanError := "Invalid plan selected"

  /** Either the 400 reply for an unusable plan, or the session to create. */
  datatype CheckoutOutcome = Rejected(status: nat, error: string) | Create(params: SessionParams)

  /** The validation of `/create-checkout-session` and the record it builds:
      the looked-up price must be truthy, otherwise the request is rejected
      with 400 before any session is created. */
  function CreateCheckoutSession(env: Env, req: CheckoutRequest): (r: CheckoutOutcome)
    ensures r.Create? <==>
      || (req.plan == Str("print") && Configured(env.priceIdPrint))
      || (req.plan == Str("pro") && Configured(env.priceIdPro))
    ensures req.plan == Str("free") ==> r == Rejected(400, InvalidPlanError)
    ensures r.Rejected? ==> r == Rejected(400, InvalidPlanError)
    ensures r.Create? ==>
      var p := r.params;
      && p.mode == "subscription"
      && |p.lineItems| == 1
      && p.lineItems[0].quantity == 1
      && p.lineItems[0].price ==
           (if req.plan == Str("print") then env.priceIdPrint.value else env.priceIdPro.value)
      && p.clientReferenceId == req.userId
      && p.customerEmail == req.email
      && p.metadata == map["user_id" := req.userId, "plan" := req.plan]
      && p.successUrl == Interpolate(env.frontendUrl) + "/pdf-success"
      && p.cancelUrl == Interpolate(env.frontendUrl) + "/plans"
  {
    var priceId := PriceFor(env, req.plan);
    if !Truthy(priceId) then
      Rejected(400, InvalidPlanError)
    else
      Create(SessionParams(
        mode := "subscription",
        lineItems := [LineItem(priceId.s, 1)],
        successUrl := Interpolate(env.frontendUrl) + "/pdf-success",
        cancelUrl := Interpolate(env.frontendUrl) + "/plans",
        clientReferenceId := req.userId,
        customerEmail := req.email,
        metadata := map["user_id" := req.userId, "plan" := req.plan]
      ))
  }

  /** Every accepted request names one of the two paid plans, as a string. */
  lemma AcceptedPlansArePaid(env: Env, req: CheckoutRequest)
    requires CreateCheckoutSession(env, req).Create?
    ensures req.plan == Str("print") || req.plan == Str("pro")
    ensures CreateCheckoutSession(env, req).params.metadata["plan"] == req.plan
  {
  }
}
