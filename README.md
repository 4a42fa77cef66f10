# GetTranscript core, modelled in Dafny

GetTranscript is a Next.js web application that turns YouTube videos and uploaded media into
transcripts, polishes and translates them through a language model, and sells plan
subscriptions (through Lemon Squeezy and Paddle) that grant credits. Exporting a transcript
costs one credit. This project models the parts of that application that are plain logic
around the external services, and proves properties about them:

- the **credits ledger**: per-user `creditsBalance` plus an append-only ledger of rows with
  an optional idempotency key (`externalId`). The state is the value `Ledger.State`; the
  database connection is the class `Ledger.Db`, whose `Transaction` method is one
  `prisma.$transaction([...])`. Seven request handlers read or change it: the two payment
  webhooks, the two admin grant routes, signup, transcript export and `/api/me`. Each
  handler is a method on `Ledger.Db` proved equal to a pure specification function. Lemmas
  about that function prove that the handler keeps the ledger invariant `Ledger.Good`:
  - every row belongs to an existing user;
  - a user's balance equals the `balanceAfter` of their latest row;
  - ids, emails and idempotency keys are unique;
  - balances are never negative.
- the **rate limiters**: the server's map of fixed one-hour windows (`RateLimit.RateLimiter`)
  and the browser's single session-storage slot (`ClientRateLimit.ClientLimiter`), with the
  clock as a parameter;
- **plan mapping** (`Constants`, `LemonSqueezy`, `Paddle`) and **webhook dispatch and status
  normalisation** (`LemonSqueezyWebhook`, `PaddleWebhook`);
- **string and URL logic**:
  - YouTube video-id extraction, in all three variants (`YouTubeUrl`, `YouTubeAi`);
  - timestamps and transcript display text (`ResultView`);
  - upload and export filenames (`Upload`, `TranscriptExport`);
  - checkout base URLs (`Checkout`);
  - canonical URLs and titles (`Seo`);
  - route protection (`Middleware`);
  - blog lookup and the sitemap (`Blog`, `Sitemap`);
- **segment realignment** after translation and polishing (`Translate`, `Polish`);
- the **ICO container** written by the favicon script (`Favicon`), byte by byte into arrays.

Every outside effect is a parameter of the model. That covers the HTTP body after JSON
parsing, the session, environment variables, `fetch` replies, the clock, signature checks
and generated ids.

Files: `wrappers.dfy` (Option), `strings.dfy` (digits, case, trim, split/join), `constants.dfy`,
`lemonsqueezy.dfy`, `paddle.dfy`, `ledger.dfy`, `ratelimit.dfy`, `ratelimit_client.dfy`,
`grant_credits.dfy`, `grant_credits_user.dfy`, `lemonsqueezy_webhook.dfy`, `paddle_webhook.dfy`,
`transcript_export.dfy`, `signup.dfy`, `me.dfy`, `youtube_url.dfy`, `result_view.dfy`,
`transcribe.dfy`, `youtube_ai.dfy`, `translate.dfy`, `polish.dfy`, `upload.dfy`, `checkout.dfy`,
`middleware.dfy`, `seo.dfy`, `blog.dfy`, `sitemap.dfy`, `favicon.dfy`.

## Model

| member | source | states |
|---|---|---|
| RateLimit.RateLimiter.CheckRateLimit | lib/rate-limit.ts:14-58 | one call updates the stored windows and answers exactly as `Check` says, and keeps every stored count within 1..5 |
| RateLimit.Check | lib/rate-limit.ts:14-58 | a missing or expired entry opens a window of one call; a full window denies; otherwise the count rises by one; the sweep runs first |
| RateLimit.Cleanup | lib/rate-limit.ts:19-25 | above 10000 entries exactly the expired ones are dropped; otherwise the store is kept |
| RateLimit.CheckKeepsCountsInRange | lib/rate-limit.ts:27-57 | stored counts stay in 1..5 and `remaining` in 0..4; an allowed call leaves `remaining == 5 - count` for the session |
| RateLimit.FreshWindowOpens | lib/rate-limit.ts:27-39 | a missing or expired entry (`resetAt < now`) is allowed with remaining 4 and stores count 1 until `now + 3600000` |
| RateLimit.FullWindowDenied | lib/rate-limit.ts:41-47 | an unexpired entry with count >= 5 is denied with remaining 0 and its own `resetAt`; only the sweep changes the store |
| RateLimit.LiveWindowCounts | lib/rate-limit.ts:49-57 | an unexpired entry below the limit (including `resetAt == now`) gains exactly one count and reports `5 - count` remaining |
| RateLimit.OnlySessionAndSweepChange | lib/rate-limit.ts:19-25 | no key other than the session changes, except that a sweep over more than 10000 keys deletes exactly the expired ones |
| RateLimit.LiveWindowBound | lib/rate-limit.ts:41-57 | over any run of calls inside a live window, the number allowed is at most `5 - count` and the window is never reset |
| RateLimit.AtMostFivePerWindow | lib/rate-limit.ts:12 | from a fresh window, at most 5 calls within the hour are allowed |
| RateLimit.ClientIp | lib/rate-limit.ts:62-63 | the first comma-separated field of `x-forwarded-for`, else `x-real-ip`, else "unknown" |
| RateLimit.GetSessionId | lib/rate-limit.ts:60-69 | the client IP, "-", and the user agent (default "unknown") cut to its first 50 characters |
| ClientRateLimit.ClientLimiter.CheckClientRateLimit | lib/rate-limit-client.ts:13-63 | the slot and the answer are exactly those of the client window rules on the old slot |
| ClientRateLimit.ClientCheck | lib/rate-limit-client.ts:13-63 | without a window every call is allowed; otherwise the stored slot is read and updated like a server entry, a missing or unreadable slot opening a window |
| ClientRateLimit.ClientLimiter.ResetClientRateLimit | lib/rate-limit-client.ts:65-69 | removing the key empties the slot in the browser and does nothing on the server |
| ClientRateLimit.ServerSideAlwaysAllows | lib/rate-limit-client.ts:14-16 | without a window the call allows with remaining 5 and writes nothing |
| ClientRateLimit.ResetThenCheckIsFresh | lib/rate-limit-client.ts:28-32 | after a reset the next check opens a fresh window: allowed, remaining 4, count 1 |
| ClientRateLimit.ClientAgreesWithServer | lib/rate-limit-client.ts:23-62 | the one-slot client limiter answers like the server limiter for the same window, and an unparsable slot behaves as an empty one |
| Constants.ParsePlan | lib/constants.ts:76 | a plan string is accepted exactly when it is "starter", "pro" or "plus", and names the plan it parses to |
| Constants.CreditsAndPricesIncrease | lib/constants.ts:64-74 | credits and prices both strictly increase from starter to pro to plus |
| Constants.PlanCredits | lib/constants.ts:64-68 | starter 100, pro 200, plus 500 credits |
| Constants.PlanPrice | lib/constants.ts:70-74 | starter 5, pro 10, plus 15 dollars |
| Constants.PlanNameRoundTrip | lib/constants.ts:76 | parsing a plan's name gives that plan back |
| Constants.IdMap | lib/lemonsqueezy.ts:41-49 | the configured-id table holds exactly the configured ids that are set (non-empty); unset ids contribute nothing |
| Constants.IdMapInverts | lib/lemonsqueezy.ts:41-49 | with distinct configured ids, a plan's configured id maps back to that plan |
| LemonSqueezy.MapLemonSqueezyPlanToPlanType | lib/lemonsqueezy.ts:35-73 | the loop over the name table returns the same plan as the variant-plan rule |
| LemonSqueezy.VariantPlan | lib/lemonsqueezy.ts:35-73 | a configured variant id wins; otherwise the first of starter, pro, plus in the lower-cased variant name; otherwise null |
| LemonSqueezy.FirstNameHitIsFirst | lib/lemonsqueezy.ts:63-70 | the name fallback returns a plan iff its entry is the first whose keyword occurs in the name |
| LemonSqueezy.FirstNameHitNone | lib/lemonsqueezy.ts:63-72 | the name fallback finds nothing iff no keyword occurs in the name |
| LemonSqueezy.VariantIdTakesPrecedence | lib/lemonsqueezy.ts:58-61 | a configured variant-id match wins over any name match |
| LemonSqueezy.ProBeforePlus | lib/lemonsqueezy.ts:52-56 | a name containing both "pro" and "plus" (but not "starter") maps to pro |
| LemonSqueezy.VariantPlanNull | lib/lemonsqueezy.ts:72 | the result is null iff the id is not configured and the lower-cased name contains no keyword |
| Paddle.PricePlanAgreesWithVariantPlan | lib/paddle.ts:36-65 | the Paddle price mapping is the same rule as the Lemon Squeezy variant mapping |
| Paddle.PricePlan | lib/paddle.ts:36-65 | a configured price id wins; otherwise "starter", then "pro", then "plus" in the lower-cased product name; otherwise null |
| Paddle.PriceIdTakesPrecedence | lib/paddle.ts:40-54 | a configured price-id match wins over the product name |
| Paddle.PricePlanNull | lib/paddle.ts:57-64 | null iff the id is not configured and the name contains none of "starter", "pro", "plus" |
| Ledger.FindUser | app/api/me/route.ts:17-25 | lookup by id: the index of a user with that id, or None when no user has it |
| Ledger.FindUserByEmail | app/api/admin/grant-credits-user/route.ts:43-46 | lookup by email: the index of a user with that email, or None when no user has it |
| Ledger.LastBalanceAppend | app/api/admin/grant-credits/route.ts:72-87 | appending a row makes it the latest row of its user and leaves other users' latest rows alone |
| Ledger.FindUserUnique | app/api/me/route.ts:17-25 | with unique ids, looking up a user's id finds that user |
| Ledger.TransactKeepsOwnership | app/api/admin/grant-credits/route.ts:67-88 | one transaction keeps every ledger row owned by an existing user |
| Ledger.TransactKeepsBalances | app/api/admin/grant-credits/route.ts:67-88 | one transaction keeps each balance equal to its user's latest `balanceAfter`, and the new row records the new balance |
| Ledger.TransactKeepsKeys | app/api/admin/grant-credits/route.ts:53-63 | a transaction with an unused key keeps idempotency keys unique |
| Ledger.TransactKeepsGood | app/api/admin/grant-credits/route.ts:65-88 | a transaction adding `amount` keeps the ledger invariant, sets the balance to old + amount and records it as `balanceAfter` |
| Ledger.TransactEffect | app/api/admin/grant-credits/route.ts:67-88 | one transaction sets one balance and appends one row; other users and subscriptions are unchanged |
| Ledger.FindSubscription | app/api/lemonsqueezy/webhook/route.ts:237-244 | lookup by processor subscription id: the first row with that id, or None when there is none |
| Ledger.FindSubscriptionAppend | app/api/lemonsqueezy/webhook/route.ts:148-156 | a created subscription row is found by its id |
| Ledger.UpdateStatus | app/api/lemonsqueezy/webhook/route.ts:215-223 | `updateMany` changes the status of exactly the rows with that subscription id |
| Ledger.UpdateStatusKeepsGood | app/api/lemonsqueezy/webhook/route.ts:215-223 | a status update keeps the ledger invariant |
| Ledger.Db.Transaction | app/api/admin/grant-credits/route.ts:67-88 | the user update and the ledger append happen together as one step |
| Ledger.Db.UpdateMany | app/api/lemonsqueezy/webhook/route.ts:215-223 | only the matching subscriptions' status changes; users and ledger are untouched |
| GrantCredits.AuthorizedMeansMatchingSecret | app/api/admin/grant-credits/route.ts:25-27 | authorised iff the secret is configured and the header equals it |
| GrantCredits.ParseAmount | app/api/admin/grant-credits/route.ts:37-40 | a missing amount means 5; any other amount is accepted iff it is an integer in 1..1000 |
| GrantCredits.RunId | app/api/admin/grant-credits/route.ts:42 | the trimmed run id when it is non-blank, else "20251226_grant5" |
| GrantCredits.GrantKeyInjective | app/api/admin/grant-credits/route.ts:53 | within one run, different users get different idempotency keys |
| GrantCredits.GrantLoop | app/api/admin/grant-credits/route.ts:52-91 | the loop visits every remaining user once: granted + skipped equals the users left |
| GrantCredits.GrantLoopStep | app/api/admin/grant-credits/route.ts:53-90 | one iteration skips a user whose key is in the ledger and otherwise adds `amount` with a ledger row |
| GrantCredits.Grant | app/api/admin/grant-credits/route.ts:20-101 | the route's loop over the users computes exactly the specified grant of the whole table |
| GrantCredits.GrantAll | app/api/admin/grant-credits/route.ts:21-101 | a wrong secret, then an invalid amount, is refused and writes nothing; otherwise the loop over all users runs and its counts are reported |
| GrantCredits.GrantEach | app/api/admin/grant-credits/route.ts:52-91 | the loop over the users, with its counters, computes exactly the specified pass over the table |
| GrantCredits.GrantLoopRecordsKeys | app/api/admin/grant-credits/route.ts:53-88 | after the loop every visited user's key is in the ledger, and no old row is lost |
| GrantCredits.GrantLoopSkipsAll | app/api/admin/grant-credits/route.ts:60-63 | when every key is already present, nothing changes and all users are skipped |
| GrantCredits.RerunGrantsNothing | app/api/admin/grant-credits/route.ts:53-63 | re-running with the same run id changes nothing and reports 0 granted, all skipped |
| GrantCredits.GrantLoopBalances | app/api/admin/grant-credits/route.ts:65-88 | each user's balance rises by `amount` exactly when their key was absent |
| GrantCredits.GrantAllBalances | app/api/admin/grant-credits/route.ts:52-91 | after a successful run, each user holds old balance + amount unless their key already existed |
| GrantCredits.GrantAllKeepsGood | app/api/admin/grant-credits/route.ts:25-100 | keeps the ledger invariant, `granted + skipped == usersTotal`, refusals change nothing, and 401 iff unauthorised |
| GrantCreditsUser.NormalizedEmail | app/api/admin/grant-credits-user/route.ts:32-35 | the email is blank (so refused) iff it is missing or only whitespace |
| GrantCreditsUser.DigitsThenUnderscore | app/api/admin/grant-credits-user/route.ts:52-53 | a digit string followed by "_" splits back into its two parts |
| GrantCreditsUser.UserGrantKeyInjective | app/api/admin/grant-credits-user/route.ts:52-53 | the key determines both the timestamp and the user |
| GrantCreditsUser.GrantToUser | app/api/admin/grant-credits-user/route.ts:20-110 | the route's database steps compute exactly the specified single-user grant |
| GrantCreditsUser.GrantUser | app/api/admin/grant-credits-user/route.ts:17-110 | a wrong secret, a non-JSON body, a missing email, an invalid amount and an unknown user are refused in that order and write nothing; otherwise the found user is granted |
| GrantCreditsUser.GrantFound | app/api/admin/grant-credits-user/route.ts:52-109 | a key already in the ledger is refused as already granted; otherwise the amount is added with one ledger row under that key |
| GrantCreditsUser.GrantFoundUser | app/api/admin/grant-credits-user/route.ts:52-109 | once the user is found, the key lookup and the one transaction compute exactly the specified outcome |
| GrantCreditsUser.RefusalsChangeNothing | app/api/admin/grant-credits-user/route.ts:21-50 | every refusal leaves the state unchanged; 401 iff unauthorised; 404 only for an unknown email |
| GrantCreditsUser.GrantedEffect | app/api/admin/grant-credits-user/route.ts:74-109 | on success the amount is in 1..1000, newBalance = previousBalance + amount, one row with that balance is appended, other users unchanged |
| GrantCreditsUser.GrantedShape | app/api/admin/grant-credits-user/route.ts:21-109 | a granting request had a body, a known email, an amount in 1..1000 and a fresh key, and is exactly one transaction |
| GrantCreditsUser.AlreadyGrantedOnlyForSameKey | app/api/admin/grant-credits-user/route.ts:52-72 | "already granted" happens iff the timestamped key is already in the ledger |
| LemonSqueezyWebhook.HandlerFor | app/api/lemonsqueezy/webhook/route.ts:43-78 | the underscore and dot spelling of each event go to the same handler; other names have none |
| LemonSqueezyWebhook.MapStatus | app/api/lemonsqueezy/webhook/route.ts:204-213 | active to active, cancelled/expired to cancelled, past_due/unpaid to unpaid, everything else to inactive |
| LemonSqueezyWebhook.FindUserByCustomer | app/api/lemonsqueezy/webhook/route.ts:106-117 | the first user owning a subscription with that customer id, and None iff no user owns one |
| LemonSqueezyWebhook.FirstCustomer | app/api/lemonsqueezy/webhook/route.ts:106-117 | the first user from index `i` on owning a subscription with that customer id, and None iff there is none from `i` on |
| LemonSqueezyWebhook.Upsert | app/api/lemonsqueezy/webhook/route.ts:136-157 | afterwards the subscription id names an active row with that plan, period end and customer; other rows are unchanged; a row is added iff none existed |
| LemonSqueezyWebhook.Post | app/api/lemonsqueezy/webhook/route.ts:18-86 | without a secret, with a bad signature or with a body that is not JSON nothing is written; otherwise the event's handler runs and the delivery is acknowledged |
| LemonSqueezyWebhook.Dispatch | app/api/lemonsqueezy/webhook/route.ts:43-78 | the handler the event name selects runs; an unknown event changes nothing |
| LemonSqueezyWebhook.CreditOnce | app/api/lemonsqueezy/webhook/route.ts:159-189 | credits the user unless the key is already in the ledger |
| LemonSqueezyWebhook.Created | app/api/lemonsqueezy/webhook/route.ts:91-190 | with both ids, a customer's user and a mapped plan: the subscription is upserted active and the plan credited once per key; otherwise nothing |
| LemonSqueezyWebhook.Updated | app/api/lemonsqueezy/webhook/route.ts:195-224 | with an id and a status, the subscription takes the mapped status; otherwise nothing |
| LemonSqueezyWebhook.Paid | app/api/lemonsqueezy/webhook/route.ts:229-283 | the owner of an existing active subscription is credited its plan once per key; otherwise nothing |
| LemonSqueezyWebhook.Failed | app/api/lemonsqueezy/webhook/route.ts:288-304 | the subscription named by `subscription_id`, else by the id, is marked payment-failed |
| LemonSqueezyWebhook.CancelledHandler | app/api/lemonsqueezy/webhook/route.ts:309-325 | the subscription with that id is marked cancelled |
| LemonSqueezyWebhook.HandleWebhook | app/api/lemonsqueezy/webhook/route.ts:18-86 | the handler's database steps compute exactly the specified webhook effect and response |
| LemonSqueezyWebhook.RunCreated | app/api/lemonsqueezy/webhook/route.ts:91-190 | the creation handler's database steps compute exactly the specified upsert and keyed credit |
| LemonSqueezyWebhook.RunPaid | app/api/lemonsqueezy/webhook/route.ts:229-283 | the payment handler's database steps compute exactly the specified keyed credit |
| LemonSqueezyWebhook.RejectedEventsChangeNothing | app/api/lemonsqueezy/webhook/route.ts:20-78 | 500 iff no secret, 401 iff a bad signature; rejected and unknown events change nothing |
| LemonSqueezyWebhook.StatusHandlersNeverTouchCredits | app/api/lemonsqueezy/webhook/route.ts:195-224 | update, payment-failed and cancel events leave users and ledger alone and at most set one subscription id's status |
| LemonSqueezyWebhook.CreditOnceRecordsKey | app/api/lemonsqueezy/webhook/route.ts:159-189 | after a credit step the key is in the ledger and no row is lost |
| LemonSqueezyWebhook.CreatedEffect | app/api/lemonsqueezy/webhook/route.ts:91-190 | missing ids, an unknown customer or an unmapped plan change nothing; otherwise the subscription is active with that plan and the plan's credits are granted unless the key exists |
| LemonSqueezyWebhook.PaidOnlyWhenActive | app/api/lemonsqueezy/webhook/route.ts:229-283 | a payment credits only an existing active subscription, by its plan's credits, with `balanceAfter` equal to the new balance |
| LemonSqueezyWebhook.UpsertKeepsOwnership | app/api/lemonsqueezy/webhook/route.ts:136-157 | an upsert keeps every subscription owned by an existing user |
| LemonSqueezyWebhook.CreditOnceKeepsGood | app/api/lemonsqueezy/webhook/route.ts:160-188 | the idempotent credit keeps the ledger invariant |
| LemonSqueezyWebhook.CreatedKeepsGood | app/api/lemonsqueezy/webhook/route.ts:91-190 | subscription creation keeps the ledger invariant |
| LemonSqueezyWebhook.PaidKeepsGood | app/api/lemonsqueezy/webhook/route.ts:229-283 | a payment keeps the ledger invariant |
| LemonSqueezyWebhook.WebhookKeepsGood | app/api/lemonsqueezy/webhook/route.ts:18-86 | every webhook delivery keeps the ledger invariant |
| LemonSqueezyWebhook.ReplayGrantsNothing | app/api/lemonsqueezy/webhook/route.ts:160-165 | delivering the same event (with an id) again changes no balance and no ledger row |
| LemonSqueezyWebhook.CreatedReplay | app/api/lemonsqueezy/webhook/route.ts:159-165 | a second creation event with the same event id finds its key and credits nothing |
| LemonSqueezyWebhook.PaidReplay | app/api/lemonsqueezy/webhook/route.ts:251-258 | a second payment event with the same ids finds its key and credits nothing |
| PaddleWebhook.HandlerFor | app/api/paddle/webhook/route.ts:42-62 | each known event type has its handler; both spellings of canceled share one |
| PaddleWebhook.NormalizeStatus | app/api/paddle/webhook/route.ts:270-278 | case-insensitive: empty gives null, and the closed mapping to active, cancelled, unpaid, payment_failed, else inactive |
| PaddleWebhook.Upsert | app/api/paddle/webhook/route.ts:206-224 | the subscription id then names a row of this user with that status and plan; other rows unchanged |
| PaddleWebhook.Post | app/api/paddle/webhook/route.ts:17-72 | without a secret, with a bad signature or with a body that is not JSON nothing is written; otherwise the event's handler runs and the delivery is acknowledged |
| PaddleWebhook.Dispatch | app/api/paddle/webhook/route.ts:42-62 | the handler the event type selects runs; an unknown event changes nothing |
| PaddleWebhook.TransactionCompleted | app/api/paddle/webhook/route.ts:78-175 | a completed, unrecorded transaction of a known user with a plan credits that plan under the transaction's key and upserts its subscription when it names one; otherwise nothing |
| PaddleWebhook.SubscriptionCreated | app/api/paddle/webhook/route.ts:180-228 | with an id, a known email and a plan, the subscription is upserted with the normalised status, active when it is empty |
| PaddleWebhook.SubscriptionUpdated | app/api/paddle/webhook/route.ts:230-250 | with an id and a non-empty status, the subscription takes the normalised status, inactive when it is unknown |
| PaddleWebhook.SubscriptionCanceled | app/api/paddle/webhook/route.ts:252-268 | with an id, the subscription is marked cancelled |
| PaddleWebhook.HandleWebhook | app/api/paddle/webhook/route.ts:17-72 | the handler's database steps compute exactly the specified webhook effect and response |
| PaddleWebhook.UpdateNeverFallsBack | app/api/paddle/webhook/route.ts:234-243 | a non-empty status always normalises, so the "inactive" fallback of the update is never used |
| PaddleWebhook.RejectedEventsChangeNothing | app/api/paddle/webhook/route.ts:19-64 | 500 iff no secret, 401 iff a bad signature; rejected and unknown events change nothing |
| PaddleWebhook.SubscriptionHandlersNeverTouchCredits | app/api/paddle/webhook/route.ts:180-268 | subscription events never change users or ledger |
| PaddleWebhook.TransactionCompletedEffect | app/api/paddle/webhook/route.ts:78-175 | no id, status not "completed", key present, unknown email or no plan change nothing; otherwise the plan's credits and one row with that balance, and an active subscription when an id is given |
| PaddleWebhook.TransactionReplayChangesNothing | app/api/paddle/webhook/route.ts:91-101 | processing the same transaction twice is the same as once |
| PaddleWebhook.UpsertKeepsOwnership | app/api/paddle/webhook/route.ts:124-146 | an upsert keeps every subscription owned by an existing user |
| PaddleWebhook.TransactionCompletedKeepsGood | app/api/paddle/webhook/route.ts:78-175 | a completed transaction keeps the ledger invariant |
| PaddleWebhook.CompletedShape | app/api/paddle/webhook/route.ts:78-175 | a completed transaction either writes nothing or writes the optional subscription row and then one credit with a fresh key |
| PaddleWebhook.WebhookKeepsGood | app/api/paddle/webhook/route.ts:17-72 | every webhook delivery keeps the ledger invariant |
| TranscriptExport.HeaderFilename | app/api/transcript/export/route.ts:120 | the header filename keeps only word, space, "." and "-" characters, and leaves a name made of them unchanged |
| TranscriptExport.HeaderFilenameConcat | app/api/transcript/export/route.ts:120 | filtering distributes over concatenation |
| TranscriptExport.HeaderFilenameIdempotent | app/api/transcript/export/route.ts:120 | filtering twice is filtering once |
| TranscriptExport.StripUnsafe | app/api/transcript/export/route.ts:116-122 | the corrected name keeps only characters a header value can carry (tab, printable ASCII and U+0080 to U+00FF: no other control character, DEL or code point above U+00FF), and leaves a name made of them unchanged |
| TranscriptExport.ExportTranscript | app/api/transcript/export/route.ts:16-130 | the route's database steps compute exactly the specified export effect and response, including the 500 after the debit when the name does not fit the header |
| TranscriptExport.ExportSpec | app/api/transcript/export/route.ts:16-130 | no session, an unknown user, no active subscription, no credits, a non-JSON body and missing content or format are refused in that order and write nothing; otherwise one credit is debited, then the rendered file is returned, or 500 when its name does not fit the header |
| TranscriptExport.DebitIsGated | app/api/transcript/export/route.ts:42-128 | the state changes exactly for a request with a session, an active subscription, a positive balance and complete input; that debit takes exactly 1 (never below 0) and appends one `export_used` row of -1; a debited request gets its file iff the name fits the header, and 500 otherwise |
| TranscriptExport.RouteState | app/api/transcript/export/route.ts:42-98 | the new state is the debit transaction for a request that passes every gate, and the old state for any other |
| TranscriptExport.RefusalOrder | app/api/transcript/export/route.ts:42-74 | 403 iff no active subscription, then 402 iff the balance is not positive; 400 for missing input only after both pass |
| TranscriptExport.ExportKeepsGood | app/api/transcript/export/route.ts:77-98 | an export keeps the ledger invariant |
| TranscriptExport.HeaderFilenameKeeps | app/api/transcript/export/route.ts:120 | a character of the name that the filter's class matches is still in the header name |
| TranscriptExport.UnsafeTitleSpendsCredit | app/api/transcript/export/route.ts:79-128 | a debited request whose title holds white space a header cannot carry is answered 500 after its credit is spent and its ledger row written |
| TranscriptExport.WideSpaceTitleSpendsCredit | app/api/transcript/export/route.ts:79-128 | the title "A", U+3000, "B" spends one credit and gets 500 |
| TranscriptExport.VerticalTabTitleSpendsCredit | app/api/transcript/export/route.ts:79-128 | the title "a", vertical tab, "b" spends one credit and gets 500 |
| TranscriptExport.ExportIntended | app/api/transcript/export/route.ts:16-130 | the corrected route: the same gates and debit, with the characters a header cannot carry dropped from the name instead of the 500 (see Findings) |
| TranscriptExport.IntendedAnswersEveryDebit | app/api/transcript/export/route.ts:79-122 | the corrected route debits exactly as the route as written, answers every debited request with its file under a header-safe name, and differs from it only where the route as written answers 500 |
| TranscriptExport.MimeTypeAndExtension | app/api/transcript/export/route.ts:105-113 | "json" gives application/json and ".json", anything else text/plain and ".txt"; the title defaults to "transcript" |
| Signup.SignUp | app/api/auth/signup/route.ts:7-90 | the route's database steps compute exactly the specified signup |
| Signup.SignupSpec | app/api/auth/signup/route.ts:7-89 | missing fields, a short password and a taken email are refused in that order and write nothing; a taken id or bonus key makes the transaction throw; otherwise one user with 5 credits and their bonus row are added |
| Signup.SignupIsAtomic | app/api/auth/signup/route.ts:44-72 | either nothing changes, or exactly one user with 5 credits and exactly one 5-credit row with `balanceAfter` 5 are added together |
| Signup.SignupValidation | app/api/auth/signup/route.ts:7-89 | a non-JSON body fails; 400 exactly for a missing field, then exactly for a password under 8 characters, then exactly for a taken email; success exactly for a complete body, a long enough password, an unregistered email and a free id and bonus key |
| Signup.AddUserKeepsOwnership | app/api/auth/signup/route.ts:44-72 | adding the user and their bonus row keeps every row owned |
| Signup.AddUserKeepsBalances | app/api/auth/signup/route.ts:41-69 | the new user's balance equals their only row's `balanceAfter`; others are unaffected |
| Signup.AddUserKeepsUniqueness | app/api/auth/signup/route.ts:26-72 | a fresh id, fresh email and fresh key keep ids, emails and keys unique |
| Signup.SignupKeepsGood | app/api/auth/signup/route.ts:7-90 | signup keeps the ledger invariant |
| Me.Latest | app/api/me/route.ts:34-45 | the user's subscription with the greatest `createdAt`, or None iff they have none |
| Me.ActiveSubscription | app/api/me/route.ts:47 | a returned subscription is active |
| Me.GetMe | app/api/me/route.ts:8-80 | 401 without a session, 404 for an unknown user, otherwise the stored profile with the user's latest subscription when it is active |
| Me.ProfileIsFaithful | app/api/me/route.ts:8-80 | 401 iff no session, 404 iff unknown user; otherwise the stored profile and balance; a reported subscription is the most recent one and active, and when the query succeeds and the most recent one is active it is reported (null when the query failed) |
| Me.OlderActiveIsHidden | app/api/me/route.ts:34-47 | an older active subscription is never returned when the newest one is not active |
| Me.NewestActiveIsReported | app/api/me/route.ts:34-47 | an active subscription strictly newer than the user's others is the one reported |
| YouTubeUrl.StripWww | app/app/result/ResultClient.tsx:59 | removes one leading "www." and nothing else |
| YouTubeUrl.QueryGet | app/app/result/ResultClient.tsx:65 | the first value of the query parameter, or None iff it is absent |
| YouTubeUrl.PathParts | app/app/result/ResultClient.tsx:67 | the non-empty path segments, none containing "/" |
| YouTubeUrl.After | app/app/result/ResultClient.tsx:68-71 | the segment after the first occurrence of a name, when there is one |
| YouTubeUrl.ExtractVideoId | app/app/result/ResultClient.tsx:56-77 | an extracted video id is never empty |
| YouTubeUrl.ShortLinkGivesFirstSegment | app/app/result/ResultClient.tsx:60-62 | for youtu.be the id is the first non-empty path segment, and exists iff there is one |
| YouTubeUrl.WatchLinkPrecedence | app/app/result/ResultClient.tsx:64-71 | for hosts ending in "youtube.com": the non-empty `v` parameter, else the segment after "shorts", else after "embed" |
| YouTubeUrl.OtherHostsGiveNothing | app/app/result/ResultClient.tsx:72-76 | any other host, or an unparsable URL, gives null |
| YouTubeUrl.LookalikeHostAccepted | app/app/result/ResultClient.tsx:64 | the suffix test also accepts hosts such as "notyoutube.com" |
| YouTubeUrl.ChannelLinkHasNoVideoId | app/app/result/ResultClient.tsx:36-54 | a channel URL without `v`, "shorts" or "embed" has no video id |
| YouTubeUrl.WwwIgnored | app/app/result/ResultClient.tsx:39-40 | a leading "www." changes neither the video id nor channel detection |
| ResultView.Clamp | app/app/result/ResultClient.tsx:30 | negative input becomes 0, other input its floor |
| ResultView.FormatTimestamp | app/app/result/ResultClient.tsx:29-34 | the whole minutes and the remaining seconds of the clamped time, each padded to two digits, joined by ":" |
| ResultView.TimestampValue | app/app/result/ResultClient.tsx:31-33 | a parsed timestamp has a ":" before its last two digits |
| ResultView.PaddedField | app/app/result/ResultClient.tsx:31-32 | padding keeps the number's digits and value, gives at least two digits, and exactly two iff the number is below 100 |
| ResultView.TimestampRoundTrip | app/app/result/ResultClient.tsx:29-34 | reading back `mm:ss` gives the clamped seconds (`mm*60 + ss`); the output is 5 characters iff the seconds are below 6000 |
| ResultView.Line | app/app/result/ResultClient.tsx:107 | a line is the bare text without a start, else a "[" timestamp prefix ending with the text |
| ResultView.Lines | app/app/result/ResultClient.tsx:106-107 | one display line per segment, in order |
| ResultView.Texts | app/app/result/ResultClient.tsx:110 | the segment texts, in order |
| ResultView.DisplayText | app/app/result/ResultClient.tsx:103-113 | with no segments the raw transcript is shown |
| ResultView.DisplayLinesPerSegment | app/app/result/ResultClient.tsx:105-108 | splitting the timestamped text at newlines gives back exactly one `[mm:ss] text` (or bare text) line per segment |
| ResultView.PlainViewSplitsBack | app/app/result/ResultClient.tsx:110 | with timestamps off the texts are joined by single spaces, so splitting at spaces gives back each segment's text |
| ResultView.NoStartsNoDifference | app/app/result/ResultClient.tsx:105-108 | when no segment has a start, the timestamped view is the texts joined by newlines |
| Transcribe.NormalizeItem | app/api/transcribe/route.ts:99-103 | the text is non-empty iff `text` or `transcript` is; start and duration are kept when present |
| Transcribe.NormalizeItems | app/api/transcribe/route.ts:96-109 | one segment per upstream item, in order |
| Transcribe.SegTexts | app/api/transcribe/route.ts:132 | the texts of the segments, in order |
| Transcribe.UpstreamMessage | app/api/transcribe/route.ts:73-81 | the reported upstream error is never empty |
| Transcribe.ValidationOrder | app/api/transcribe/route.ts:38-53 | 400 "URL is required" iff no url, then 400 iff no video id, then 500 iff no key |
| Transcribe.Transcribe | app/api/transcribe/route.ts:33-155 | a non-JSON body, a missing url, an unrecognised video url and a missing key are refused in that order; upstream failures are passed on; otherwise the normalised transcript in the requested shape |
| Transcribe.SuccessUsesSharedExtraction | app/api/transcribe/route.ts:5-31 | a success needs a url, a key and an OK upstream, and answers the id of the same extraction the page uses |
| Transcribe.DefaultsGiveSegments | app/api/transcribe/route.ts:36 | with the defaults (json, timestamps, no metadata) an array reply is returned as normalised segments |
| Transcribe.NormalizeKeepsItems | app/api/transcribe/route.ts:96-109 | normalisation keeps the number and order of items, their starts and `text || transcript` |
| Transcribe.ShapeCases | app/api/transcribe/route.ts:123-147 | json+timestamps returns the segments; json without returns texts joined by " " (splitting gives them back); a string is returned as is; only json segments give an array |
| Transcribe.MetadataOnlyWhenAsked | app/api/transcribe/route.ts:111-118 | metadata is present iff asked for and sent upstream; its thumbnail is never empty and falls back to the maxresdefault URL |
| Transcribe.UpstreamStatusPassedThrough | app/api/transcribe/route.ts:70-87 | a failed upstream reply is answered with the same status and a non-empty error |
| YouTubeAi.MatchAt | app/api/transcribe/youtube-ai/route.ts:32 | a match yields 11 characters from `[A-Za-z0-9_-]` |
| YouTubeAi.Search | app/api/transcribe/youtube-ai/route.ts:32 | a match is found iff one exists from the start position, and it is the leftmost |
| YouTubeAi.Outcomes | app/api/transcribe/youtube-ai/route.ts:17-53 | 500 iff no key, 400 iff the trimmed url is empty; an answered id gives 501 and is the regex's match |
| YouTubeAi.YouTubeAi | app/api/transcribe/youtube-ai/route.ts:15-57 | no key, unreadable form data, a blank url and a url without a video id are refused in that order; a found id is answered as not implemented |
| YouTubeAi.AnsweredIdIsLeftmostMatch | app/api/transcribe/youtube-ai/route.ts:32-53 | the answered id is 11 id characters at the earliest "v=", "/shorts/" or "youtu.be/" match |
| YouTubeAi.NoMatchIsInvalid | app/api/transcribe/youtube-ai/route.ts:33-35 | no match anywhere gives 400 "Invalid YouTube URL" |
| YouTubeAi.ShortLinkMatches | app/api/transcribe/youtube-ai/route.ts:32 | `https://youtu.be/<id>` yields that id |
| Translate.RealignKeepsTiming | app/api/translate/route.ts:115-119 | same length and order; start and duration are copied per index, text is the translation or "" |
| Translate.ShapeMismatchRefused | app/api/translate/route.ts:107-113 | a reply array of another length gives 502 |
| Translate.TranslatedRequires | app/api/translate/route.ts:27-121 | a translation needs a key, a supported language, non-empty segments and a same-length reply, and has the input's length |
| Translate.ValidationOrder | app/api/translate/route.ts:27-44 | 501 iff no key; then a non-JSON body gives 400 "Expected JSON body." |
| Translate.TranslateBody | app/api/translate/route.ts:46-121 | after the key and body checks the route never answers "not configured" |
| Translate.Translate | app/api/translate/route.ts:26-122 | 501 without a key, 400 for a body that is not JSON, otherwise the language, segment and reply checks; a call that throws is not caught and gives 500 |
| Translate.ThrownCallIsServerError | app/api/translate/route.ts:76-92 | 500 exactly when the key, the body, the language and the segments pass and the model call or reading its reply throws |
| Translate.UnsupportedLanguageRefused | app/api/translate/route.ts:50-55 | a language outside the 14 codes gives 400 |
| Translate.MissingSegmentsRefused | app/api/translate/route.ts:57-59 | missing or empty segments give 400 |
| Translate.TargetLangIgnoresCase | app/api/translate/route.ts:46 | the language code does not depend on letter case |
| Translate.PaddedLowerCaseAccepted | app/api/translate/route.ts:46 | " es " is read as "ES" |
| Polish.Texts | app/api/ai/polish/route.ts:26-27 | the texts sent are non-empty and no more than the segments |
| Polish.TextsPrefix | app/api/ai/polish/route.ts:26-27 | the texts of a prefix are a prefix of the texts |
| Polish.RankLocatesOwnText | app/api/ai/polish/route.ts:26-27 | a segment with text finds its own trimmed text at its rank among the sent texts |
| Polish.WithText | app/api/ai/polish/route.ts:91-94 | replacing the text keeps start and duration |
| Polish.MergeAsWritten | app/api/ai/polish/route.ts:90-99 | the merge as written keeps the segment count |
| Polish.MergeAligned | app/api/ai/polish/route.ts:90-99 | the corrected merge keeps the segment count |
| Polish.MergeAlignedFaithful | app/api/ai/polish/route.ts:90-99 | each segment keeps its timing; a blank one is unchanged; one with text gets the reply item sent for it, or keeps its text when that item is empty |
| Polish.RankWithoutBlanks | app/api/ai/polish/route.ts:26-27 | with no blank segment, a segment's rank is its index |
| Polish.AsWrittenAgreesWithoutBlanks | app/api/ai/polish/route.ts:90-99 | with no blank segment, the merge as written equals the corrected one |
| Polish.MergeMisaligned | app/api/ai/polish/route.ts:90-99 | with a blank first segment the merge as written moves every polished text one segment early |
| Polish.MergeAlignedExample | app/api/ai/polish/route.ts:90-99 | on the same input the corrected merge puts each polished text on its own segment |
| Polish.PolishedTexts | app/api/ai/polish/route.ts:93 | each reply item trimmed, or "" when absent |
| Polish.Polish | app/api/ai/polish/route.ts:9-157 | the route as written: a non-JSON body fails; without a key the segments are echoed unpolished; segment mode sends the non-blank texts and merges the reply back by index; otherwise the transcript is polished as plain text |
| Polish.PolishIntended | app/api/ai/polish/route.ts:9-157 | the same route with the reply merged onto the segments whose texts were sent |
| Polish.PolishedShape | app/api/ai/polish/route.ts:65-99 | a polished segment list comes only from a reply with one item per text sent, merged by the route's rule |
| Polish.PolishesWhenItemsMatch | app/api/ai/polish/route.ts:26-99 | conversely, a configured request with a text to send and a reply with one item per text is polished, merged by index |
| Polish.IntendedPolishesWhenItemsMatch | app/api/ai/polish/route.ts:26-99 | the same request is polished by the intended route, with the aligned merge |
| Polish.PolishedSegmentsAsWritten | app/api/ai/polish/route.ts:90-99 | as written, segment `i` gets reply item `i` trimmed, or keeps its text when that item is blank; length and timing are kept |
| Polish.IntendedAgreesUnlessPolished | app/api/ai/polish/route.ts:9-157 | the two routes answer alike except where the route as written returns a polished segment list |
| Polish.IntendedDiffersOnlyInMerge | app/api/ai/polish/route.ts:90-99 | where the route as written polishes segments the intended route does too, with as many segments, and with the same segments when none is blank |
| Polish.NoKeyNeverPolished | app/api/ai/polish/route.ts:14-22 | without a key the answer is never polished and echoes only the segments |
| Polish.BlankSegmentsReturned | app/api/ai/polish/route.ts:26-30 | all-blank segments are returned unchanged and unpolished |
| Polish.AllBlankSendsNothing | app/api/ai/polish/route.ts:26-27 | all-blank segments send no text |
| Polish.ShapeMismatchFallsBack | app/api/ai/polish/route.ts:65-88 | a failed, empty, non-array or wrong-length reply falls back to the original segments, unpolished |
| Polish.PolishedSegmentsFaithful | app/api/ai/polish/route.ts:90-99 | with the intended merge, polished segments have the input's length and timing; blank segments are untouched; every other segment gets the trimmed reply item sent for its own text |
| Polish.PlainModeFallback | app/api/ai/polish/route.ts:103-147 | plain mode returns the trimmed reply, or the original transcript when the reply is empty |
| Polish.FailureNeverPolished | app/api/ai/polish/route.ts:150-156 | a thrown error is never reported as polished |
| Upload.Sanitize | app/api/upload/route.ts:40 | same length; allowed characters kept, every other one replaced by "_" |
| Upload.SanitizeIdempotent | app/api/upload/route.ts:40 | sanitising twice is sanitising once |
| Upload.SizeLimitInclusive | app/api/upload/route.ts:27-30 | exactly 100 MiB is accepted, one byte more is refused |
| Upload.ValidationOrder | app/api/upload/route.ts:14-30 | no file, then a wrong type, then too large, each 400 in that order |
| Upload.UploadFile | app/api/upload/route.ts:8-92 | unreadable form data, no file, a wrong type, a file over 100 MiB and a failed write are refused in that order; otherwise the stored name and url, with the transcription when it is asked for, a service key is configured and the service answers |
| Upload.StoredNameHasNoSlash | app/api/upload/route.ts:40-41 | the stored name contains no "/" |
| Upload.StoredNameTimestamp | app/api/upload/route.ts:41 | the stored name's first "_"-field is the timestamp |
| Upload.StoredNameIsSafe | app/api/upload/route.ts:40-88 | the response names `timestamp_sanitised`, its url is `/uploads/` + name, and the full url ends with it |
| Upload.TranscriptionFailureKeepsUpload | app/api/upload/route.ts:52-74 | a failed transcription still answers 200 with the upload, without a transcript |
| Checkout.StripSlash | app/api/lemonsqueezy/checkout/route.ts:10-16 | removes one trailing "/" and nothing else |
| Checkout.StripSlashRemovesOne | app/api/lemonsqueezy/checkout/route.ts:10-16 | only one slash is removed, so "x//" keeps one |
| Checkout.BaseUrlPrecedence | app/api/lemonsqueezy/checkout/route.ts:9-17 | env URL, then forwarded host, then host (proto default https), then `https://VERCEL_URL`, then localhost |
| Checkout.BaseUrl | app/api/lemonsqueezy/checkout/route.ts:9-17 | the configured site url, else the forwarded or plain host with its protocol, else the Vercel url, without one trailing "/"; else the local address |
| Checkout.Checkout | app/api/lemonsqueezy/checkout/route.ts:35-129 | missing configuration, no session, an unknown plan and an unconfigured variant are refused before any request; otherwise the checkout request is sent and its url or failure passed on |
| Checkout.RequestOnlyWhenValid | app/api/lemonsqueezy/checkout/route.ts:37-68 | the provider is called iff config, session user and email, a known plan and its variant are all present |
| Checkout.RequestContents | app/api/lemonsqueezy/checkout/route.ts:67-91 | the request carries the session's user and email, the plan's variant and `base + "/account?payment=success"` |
| Checkout.CheckoutUrlSelection | app/api/lemonsqueezy/checkout/route.ts:111-124 | the first present of `url`, `checkout_url`, `redirect_url`, else 500 |
| Checkout.FailedCallStatusPassedThrough | app/api/lemonsqueezy/checkout/route.ts:103-109 | a failed provider call is answered with its status |
| Middleware.AuthorizedCases | middleware.ts:10-18 | paths starting "/app/result" or "/account" need a token; others never do |
| Middleware.MatchedPathsNeedToken | middleware.ts:23-28 | matched paths are admitted iff a token is present |
| Middleware.PrefixWiderThanMatcher | middleware.ts:14 | "/accountx" would need a token, but the matcher never runs the check there |
| Middleware.RefusedIffMatched | middleware.ts:10-28 | a request without a token is refused iff its path is matched |
| Seo.SiteUrl | lib/seo.ts:5 | the site URL is never empty |
| Seo.CanonicalUrl | lib/seo.ts:8-10 | the result starts with the site URL followed by "/" |
| Seo.CanonicalRootsPath | lib/seo.ts:8-10 | a rooted path is appended as is; any other path is treated as "/" + path |
| Seo.CanonicalSplits | lib/seo.ts:8-10 | what follows the site URL is the (rooted) path |
| Seo.PageTitleSuffix | lib/seo.ts:12-14 | the title followed by " \| GetTranscript" |
| Seo.PageTitle | lib/seo.ts:12-14 | the title followed by " \| " and the site name |
| Blog.Find | lib/blog/posts.ts:37-39 | the first post with that slug, or null iff none has it |
| Blog.PostBySlug | lib/blog/posts.ts:37-39 | the post with that slug among the site's posts, or null |
| Blog.SlugsDistinct | lib/blog/posts.ts:9-35 | there are 2 posts with distinct slugs |
| Blog.EveryPostFound | lib/blog/posts.ts:37-39 | looking up each post's slug finds that post |
| Sitemap.SitemapFor | app/sitemap.ts:36 | 6 static entries plus one per post |
| Sitemap.SitemapLayout | app/sitemap.ts:10-36 | home is daily at 1.0, the other routes weekly at 0.8, and posts monthly at 0.6 at `base/blog/slug`, in order |
| Sitemap.SitemapSize | app/sitemap.ts:20-36 | the sitemap has 8 entries |
| Sitemap.Sitemap | app/sitemap.ts:6-37 | the sitemap of the site's static routes and its blog posts |
| Favicon.WriteU16LE | scripts/generate-favicons-from-logo.js:48-51 | writes a 16-bit value little-endian at the offset and leaves every other byte alone |
| Favicon.WriteU32LE | scripts/generate-favicons-from-logo.js:60-61 | writes a 32-bit value little-endian at the offset and leaves every other byte alone |
| Favicon.NewHeader | scripts/generate-favicons-from-logo.js:48-51 | a fresh 6-byte buffer holding the ICO header |
| Favicon.NewEntry | scripts/generate-favicons-from-logo.js:53-61 | a fresh 16-byte buffer holding the directory entry for an image of that size |
| Favicon.BuildIco | scripts/generate-favicons-from-logo.js:48-76 | an ICO file is produced iff the PNG size fits 32 bits, and it is header + entry + PNG |
| Favicon.Le32RoundTrip | scripts/generate-favicons-from-logo.js:60 | reading back a little-endian 32-bit field gives the value |
| Favicon.IcoLayout | scripts/generate-favicons-from-logo.js:48-63 | type 1, one image of 32x32 at 32 bits per pixel, the size field is the PNG length, the offset field is 22, and the PNG starts there |

## Left out

- The database is a value with three sequences (users, ledger rows, subscriptions), not maps. Table order stands for `findMany` order, and `findUnique` finds the first match.
- Columns that no rule reads are not modelled: ledger descriptions and metadata, `updatedAt`, generated row ids and the blog posts' HTML.
- Concurrency is not modelled. Each handler runs alone, and each `prisma.$transaction` is one atomic step.
- Ties in subscription `createdAt` are not modelled. `Me.Latest` takes the earliest-listed newest row, while the database's order on ties is unspecified.
- HMAC signature checks for both processors (`verifyLemonSqueezySignature`, `verifyPaddleSignature`) are a boolean input. Their "false rather than throw" behaviour is therefore not a separate property.
- Password hashing, `crypto.randomUUID`, the clock, `JSON.parse`/`JSON.stringify`, `fetch`, `formData` and the WHATWG URL parser are inputs or results handed to the model.
- A JSON-stringified transcript is a tag, not its text.
- `getCreditsForPlan` in the Lemon Squeezy and Paddle libraries is `Constants.PlanCredits` itself, so it needs no lemma of its own.
- The Paddle `extractPlanFromPaddleData` helper is not part of this model. Its result is an input field of the event data.
- The Lemon Squeezy payment handler reads the subscription's user through a relation, so that user always exists. The model's branch for a missing user is unreachable and changes nothing.
- File-system writes of uploads and the AssemblyAI transcription call are inputs: a write failure flag and a transcription result.
- Upstream timing (`duration_ms / 1000`) is an exact real, not a floating-point number.
- NaN and Infinity timestamps are not modelled.
- Translation and polishing prompts, the source language and the language-model call are not modelled. Only the parsed reply is.
- `Polish.Polish` is the route as written, which merges the reply by index. `Polish.PolishedSegmentsFaithful` is proved of `Polish.PolishIntended`, the same route with the aligned merge (see Findings).
- `TranscriptExport.ExportSpec` is the route as written, which answers 500 after the debit when the name does not fit the header. `TranscriptExport.ExportIntended` is the same route with the unsafe characters dropped (see Findings). Both 500 answers, the catch's and the server's, are one `ServerError`. Other ways the response constructor, the server's header copy or the database write can throw are not modelled.
- `Translate.Translate` stands for every exception of the model call or of reading its reply by one `Threw` reply.
- `Upload.Sanitize` replaces each character that is not allowed with one "_". The source's regular expression has no `u` flag, so it replaces each UTF-16 code unit: a character outside the Basic Multilingual Plane, such as "😀", becomes "__" there and "_" here.
- `RateLimit.GetSessionId` keeps the first 50 characters of the user agent. The source's `slice(0, 50)` counts UTF-16 code units, so the two differ when the first 50 units hold a character outside the Basic Multilingual Plane.
- `Signup.SignupSpec` and `Signup.SignupValidation` compare the password's length in characters with 8. The source's `length` counts UTF-16 code units, so "😀😀😀😀" (8 units, 4 characters) is accepted there and refused here as too short.
- `Translate.PaddedLowerCaseAccepted` states only that " es " reads as "ES". That "ES" is in the supported set is visible from the set literal, so the lemma does not restate it.
- `LemonSqueezyWebhook.ReplayGrantsNothing` claims only that balances and ledger are unchanged on a replay. The replay may write the subscription row again.
- `Constants.IdMapInverts` needs the three configured ids to be distinct. With equal ids, the later plan wins in the source's object literal.
- Case mapping (`toLowerCase`, `toUpperCase`) covers ASCII letters only.
- Only the icon-assembly part of the favicon script is modelled. Image resizing and file output are not.
- Page components, the account and pricing pages and the other favicon scripts are outside the core modelled here.

## Findings

| source | as written | input that shows it | evidently intended | confidence | as-written member | corrected member |
|---|---|---|---|---|---|---|
| app/api/transcript/export/route.ts:79-128 | the name filter keeps every `\s` character, so a title holding a line break, a vertical tab, a form feed or a white space above U+00FF (U+2028, U+3000, U+FEFF) reaches the response headers: the `Headers` conversion throws on a line break or a code point above U+00FF and the catch answers 500, and Node's header check refuses a vertical tab or form feed and the server answers 500; either way the credit was already debited and the `export_used` row written | an active subscriber with balance 3 exports `"x"` as "txt" with the title "A", U+3000, "B": the balance becomes 2 and the answer is 500 | a debited request gets its file, under a name the header can carry | not executed | TranscriptExport.WideSpaceTitleSpendsCredit | TranscriptExport.IntendedAnswersEveryDebit |
| app/api/ai/polish/route.ts:90-99 | polished item `i` is merged into segment `i`, but blank segments were filtered out before sending, so every item after a blank segment lands one segment early and the last segment keeps its old text | segments `" "`, `"hello"`, `"world"` with the reply `["Hello.", "World."]` give `"Hello."`, `"World."`, `"world"` | each polished item goes back to the segment whose text it came from; blank segments stay as they were | not executed | Polish.MergeMisaligned | Polish.MergeAlignedFaithful |
