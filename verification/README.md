# sprouttie-server: subscription checkout and webhook, in Dafny

This project models the payment core of the sprouttie-server Express app.

- **Webhook handler** (`stripe_webhook.js`). The `/stripe-webhook` POST handler is a total function. It takes the outcome of signature verification, the store's answer to the update statement and the `profiles` table. It returns the HTTP reply and the new table. A failed signature check is answered 400 with `Webhook Error: <message>`. A verified event is always acknowledged with an empty 200. Only `checkout.session.completed` with a truthy `customer_email` changes anything. It sets `plan` on every row whose `email` equals that address. The plan is `metadata.plan` when that value is present and non-empty, and `'basic'` otherwise.
- **Request-side helpers** (`index.js`):
  - `mask`, the log-masking helper, over JavaScript values. It uses the index rules of `String.prototype.slice` (negative and out-of-range indices), counting characters rather than UTF-16 code units (see `Server.Mask` under "## Left out").
  - The CORS `origin` callback and `allowedOrigins`.
  - The `PRICES` lookup and plan validation of `/create-checkout-session`, including the rejection of `free`.
  - The parameter record that route passes to the provider's session-creation call.
- **The round trip between them** (`CheckoutFlow`). A session built by checkout comes back as the completion event the webhook handles. This part rests on a stated assumption about what the provider echoes back (`CheckoutFlow.CompletedSession`).

Files:
- `js_values.dfy` (module `JsValues`): JavaScript values, truthiness, template interpolation, `startsWith` and `slice`.
- `server.dfy` (module `Server`): index.js.
- `webhook.dfy` (module `Webhook`): stripe_webhook.js.
- `checkout_flow.dfy` (module `CheckoutFlow`): the round trip.

Three facts about the code shape the model:
- The webhook acknowledges with `response.send()`: a 200 with an empty body.
- A checkout without a metadata plan writes `'basic'`, which no checkout can be created for (`CheckoutFlow.FallbackPlanIsNeverSold`).
- The handler keeps no record of processed events and no ordering guard. A redelivery that comes straight after the first delivery, with no other event for that email handled in between, is harmless only because the one write is a plain assignment (`Webhook.RedeliveryIsHarmless`). A late duplicate of an older checkout event, delivered after a newer one for the same email, reverts the newer plan (`Webhook.StaleRedeliveryOverridesLaterWrite`).

## Model

| member | source | states |
|---|---|---|
| `Server.Mask` | index.js:70-73 | A string starting with `price_` maps to its first min(8, length) characters, `...`, and its last six characters. It has at least six, so the JS `slice(-6)` never clamps. Every other value, including non-strings, is returned unchanged. |
| `Server.MaskShape` | index.js:70-73 | A masked price id is again a `price_` string. Its length is min(8, length) + 9, and it ends with the original's last six characters. |
| `Server.MaskHidesMiddle` | index.js:69-73 | Two price ids of length at least 8 that agree on their first eight and last six characters mask identically. Nothing in between reaches the log. |
| `Server.MaskIdempotentOnLongIds` | index.js:70-73 | For price ids of length at least 8, masking twice is masking once. |
| `Server.MaskNotIdempotentOnShortIds` | index.js:70-73 | For every price id shorter than 8 characters, masking twice differs from masking once. With `Server.MaskIdempotentOnLongIds`, masking is idempotent exactly on ids of at least 8 characters. |
| `Server.MaskRevealsShortIds` | index.js:69-73 | The "safe logs" mask conceals nothing for a price id of at most 14 characters. The id equals the mask's visible prefix followed by the matching tail of its last six characters. |
| `Server.CheckOrigin` | index.js:13-25 | A falsy origin is always allowed. A truthy origin is allowed if and only if it is one of the three `allowedOrigins` entries (`Server.AllowedOrigins`): `http://localhost:3000`, `http://127.0.0.1:3000` or the configured `FRONTEND_URL`, which is `undefined` when unset and then matches no origin. A denial carries `Not allowed by CORS`. |
| `Server.PriceFor` | index.js:56-60 | `PRICES[plan]` is `null` exactly for `free`. It is truthy exactly when the plan is `print` or `pro` and that plan's price id is set and non-empty. |
| `Server.CreateCheckoutSession` | index.js:56-107 | A session is created if and only if the plan is `print` or `pro` and that plan's price id is set and non-empty. `free` and every other value are rejected with 400 `Invalid plan selected`. An accepted session has mode `subscription` and exactly one line item: the configured price, quantity 1. It echoes `client_reference_id = userId` and `customer_email = email`. Its metadata is exactly `{user_id: userId, plan}`. Its success and cancel URLs are built from `FRONTEND_URL`, which reads `undefined` when unset. |
| `Server.AcceptedPlansArePaid` | index.js:91-93 | Every accepted checkout request names the string plan `print` or `pro`, and its metadata plan is that value. |
| `Webhook.Classify` | stripe_webhook.js:28-59 | The event type selects the plan-update arm if and only if it is `checkout.session.completed`. |
| `Webhook.PlanFromMetadata` | stripe_webhook.js:32 | The plan is never empty. A present, non-empty `metadata.plan` is used as is. Any result other than `basic` is the metadata plan. |
| `Webhook.SetPlanByEmail` | stripe_webhook.js:35-39 | The table keeps its length. Every row whose email equals the given address gets the new plan and keeps all its other columns. Every other row is unchanged. |
| `Webhook.HandleWebhook` | stripe_webhook.js:17-62 | A failed signature check gives 400 `Webhook Error: <message>` and leaves the table unchanged. A verified event always gives an empty 200, even when the store reports an error. The table changes only for a verified `checkout.session.completed` with a non-empty `customer_email` that the store accepts. Then only the `plan` column of rows with that email changes, and each such row ends with the metadata plan or `basic`. |
| `Webhook.SetPlanByEmailIdempotent` | stripe_webhook.js:35-39 | Writing the same plan for the same email twice equals writing it once. |
| `Webhook.SetPlanByEmailLastWriteWins` | stripe_webhook.js:35-39 | Of two plan writes for the same email, the result is that of the second alone. |
| `Webhook.SetPlanByEmailCommutes` | stripe_webhook.js:35-39 | Plan writes for two different emails commute. |
| `Webhook.RedeliveryIsHarmless` | stripe_webhook.js:17-62 | Handling a verified event a second time, straight after the first handling with no other event in between, gives the same reply and table. This holds when the first delivery's update was stored or the second one's was refused. |
| `Webhook.StaleRedeliveryOverridesLaterWrite` | stripe_webhook.js:29-39 | Take checkout events A then B for the same email, both stored, and then a redelivery of A. The table ends exactly as after A alone. B's plan holds after B and is lost after the redelivery, because the update has no ordering guard. |
| `CheckoutFlow.CompletedSession` | index.js:103-106 | The assumed provider echo: the completed session carries the creation-time `customer_email` if it was a string. It carries every string-valued metadata entry. |
| `CheckoutFlow.CheckoutRoundTrip` | stripe_webhook.js:29-39 | Take an accepted checkout with a non-empty email. When its completion event arrives verified and is stored, the reply is 200. The requested plan is the string `print` or `pro`, and every profile with that email then holds it. |
| `CheckoutFlow.FallbackPlanIsNeverSold` | stripe_webhook.js:32 | The fallback plan `basic` is what a missing metadata plan yields. Checkout rejects it under every configuration. |

## Left out

- Express wiring is not modelled: middleware and route mounting, the OPTIONS preflight handler, `app.listen`, the `/` and `/health` routes, and the doubled `/stripe-webhook` path prefix. It is framework plumbing.
- The HMAC check inside `stripe.webhooks.constructEvent` is not modelled. Its outcome, the event or the thrown message, is an input to `Webhook.HandleWebhook`.
- The provider's session-creation call and its 500 failure path are not modelled, nor is the returned URL. They are network I/O. Only the parameter record is modelled.
- The Supabase client is not modelled. Its answer to the update is the `StoreOutcome` input. A reported error is taken to mean the statement did not commit, so the table is unchanged. A lost reply after a commit, where the client reports an error although the rows changed, is not modelled.
- Boot-time env-var warnings and all console logging are not modelled, including the log lines that call `mask`.
- Property keys inherited from the `PRICES` prototype are not modelled. In JavaScript, `PRICES['toString']` is a truthy function, so such a plan would pass the validation. `Server.PriceFor` treats `free`, `print` and `pro` as the only keys.
- Objects, arrays, NaN, Infinity and non-integral numbers among request-body values are not modelled: `JsValue` numbers are integers. JavaScript would turn an array plan `['pro']` into the key `pro`.
- Server.Mask: strings are modelled as sequences of Unicode scalar values, while JavaScript's `slice` and `length` count UTF-16 code units. The two agree only when every character is in the Basic Multilingual Plane, which holds for ASCII price ids. For `"price_\u{1F600}ab"` JavaScript cuts the emoji's surrogate pair differently and can leave a lone surrogate, which the model cannot represent.
- Server.CheckOrigin: the callback's continuation-passing form, `cb(err)` or `cb(null, true)`, is returned as a verdict value.
- server-simple.js and stripe_server.js are not part of this model. The first is a debug server with no logic; the second holds package metadata.
