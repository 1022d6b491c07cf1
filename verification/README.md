# Verified models of four stateful cores

This project models, in Dafny 4.11, the parts of the repository whose correctness depends on
what several callers do to shared tables over time, and proves what they guarantee.

- **MCP authorization server** (`OAuthStore`, `OAuthCode`, `OAuthService`, `OAuthRuns`,
  `OAuthTheorems`, `OAuthFamilies`, `OAuthDepthBound`): consent, the token endpoint, refresh
  rotation and the family revocation of sections 4.1.2 and 10.4 of RFC 6749, PKCE as in
  section 4.6 of RFC 7636.
- **Transactional outbox** (`Outbox`, `OutboxRuns`, `OutboxDuplicates`, `OutboxWorker`): append,
  claims, crashes, reclaim, retries, duplicates, pruning and the in-process bus.
- **Billing** (`Billing`, `BillingRuns`, `BillingCredits`, `BillingActivations`,
  `BillingSettlement`, `BillingPayments`, `BillingService`, `BillingRecovery`,
  `BillingStarvation`, `BillingLifecycle`, `BillingScheduler`, `PackageAssignment`,
  `Entitlements`, `EntitlementCache`): settlement, recovery, lifecycle, internal grants, the
  entitlement fold and its cache.
- **Rate limiter** (`RedisThrottler`) and **SMS segment counter** (`SmsSegments`).
- `Text` is the white space and trimming that two of them share.

Each service is a class whose fields are its tables and whose methods have the branches and
loops of the source; their contracts tie the new tables to specification functions.
Concurrency is a state machine per core: a step is one database read or write of one handler, a
run is any sequence of steps, a step that is not enabled changes nothing, and a crash is a
handler that stops. Lemmas named `...IsARun` connect the class methods to the machines, so
what holds in every run holds for every sequence of calls. Some states carry history that the
program does not store (what was held at consent, which ids were delivered); it is only
written, never read by a step.

`dafny verify dfyconfig.toml` checks everything.

## What the proofs show about the code

Where the code does less than its comments or its design say, the models follow the code, and
a lemma gives the condition under which the code does meet it, in most cases exactly, and a
concrete run where it does not.

- Family revocation reaches 200 generations, up and down, and no further
  (`ReplayRevokesFamilyIff`, `BoundIsExact`, `DeepReplayMissesSiblings`).
- The rotation write is not guarded, so two overlapping refreshes fork a family
  (`OverlappingRefreshesFork`). One live refresh token per family holds in every run
  in which no rotation write hits a revoked token of a family that is not empty
  (`OneLiveRefresh`); where one is about to, it and at most two mints break it
  (`DisturbedRotationForks`). A write conditional on the token being unrevoked would be
  enough (`OneLiveWithTheGuard`).
- Claiming or rotating and minting are two writes, so a replay in between is not final
  (`MintEscapesReplay`): it is if and only if no handler under way has yet to mint in the
  family (`DeadForGoodIff`).
- The outbox backoff starts at 1 s, not at 0.5 s as the comment at
  `outbox-worker.service.ts:248` has it, and its five-minute cap never binds (`RetryDelays`).
- The attempt cap is looked at only in the failure write: a row that keeps orphaning is never
  given up, contrary to the comment at `outbox-worker.service.ts:162-163`
  (`FailedIff`, `OrphansAreNeverGivenUp`).
- The guard of the failure write names no owner, contrary to the comment at
  `outbox-worker.service.ts:250-252`: after a reclaim and a second claim it lands on another
  worker's claim (`LateFailureIff`) and can requeue or give up what that worker has delivered
  (`LateFailureUndoesDelivery`).
- The growth wallet takes any unique conflict for a replay, also one on the wallet row itself,
  so of two first top-ups of a workspace that settle together one is stamped without a credit
  (`SecondFirstTopUpIsLost`; exactly when: `CanBeLostIff`). With the row in place it cannot
  happen (`CreditedOnceTheRowIsThere`). The AI wallet rethrows that conflict.
- The recovery sweep takes an open period on the same package for a grant that landed, so a
  renewal whose own grant failed is stamped without extending anything (`RenewalIsSkipped`,
  `SkippedForGood`); only so is an order stamped and not activated
  (`StampedWasActivatedOrFound`). In the same way the modules of an activation whose reply was
  lost stay off (`ModulesOnIff`).
- The recovery window does not always advance, as the comment at
  `billing-settlement.service.ts:239-243` has it. Paid orders that can never be granted
  (`NeverStampedIff`) stay in it. An order with `limit` of them before it is never tried again
  (`StarvedForGood`, reached from the empty tables in `StarvationIsReached`); with fewer it is
  granted after a bounded number of passes, however many come after it (`SweepsCatchUp`,
  `StampedIff`).
- The lifecycle sweep reads first and writes by id later, so a renewal or an activation in
  between loses its status, in the trial and grace passes its access (`PaidInsideASweep`).
- A cache invalidation that falls into a computation of the same workspace is lost for up to
  30 seconds, and only such a one (`InvalidationHoldsIff`, `OlderAnswer`).
- A limit whose running total is exactly -1 is taken for unlimited, which needs a grant below
  -1 or a negative quantity (`FoldIsClosedIff`, `NegativeGrantUnlocks`).
- The limiter's sliding bound is 2 * limit - 1, one less than two windows
  (`SlidingBound`, `SlidingBoundIsTight`); an identity that begins with `block:` would share
  a Redis key with another one (`KeysMeetIff`, `SpelledBlockKeyBlocks`).
- From a reserve of 152 on, appending a character can lower the segment count
  (`AppendMonotoneIffReserve`).

## Model

| member | source | states |
|---|---|---|
| OAuthStore.ReplayRevokesFamilyIff | backend/src/modules/mcp-oauth/mcp-oauth-token.service.ts:283-328 | replaying a code or any token of its family, however deep, revokes exactly the family, touches no other and keeps earlier stamps, if and only if every live row of the family lies within 200 generations of the row where the up-walk ends |
| OAuthStore.ReplayTop | backend/src/modules/mcp-oauth/mcp-oauth-token.service.ts:286-303 | the up-walk ends at the code when the replayed row is at most 200 generations below it, else at the ancestor 200 generations up |
| OAuthStore.NearReplayRevokesFamilyIff | backend/src/modules/mcp-oauth/mcp-oauth-token.service.ts:283-328 | from a code, or from at most 200 generations below it, the condition is that no live row of the family is deeper than 200 generations |
| OAuthStore.DeepReplayMissesSiblings | backend/src/modules/mcp-oauth/mcp-oauth-token.service.ts:24-306 | an instance of the failure: from deeper than 200 generations, a live sibling directly under the code that is not on the chain keeps its access |
| OAuthStore.UpStepSound | backend/src/modules/mcp-oauth/mcp-oauth-token.service.ts:288-303 | one step of the up-walk stays on the presented row's chain and, where it stops, hands the top of the chain to the search, even while rows are being added |
| OAuthStore.DownStepSound | backend/src/modules/mcp-oauth/mcp-oauth-token.service.ts:313-320 | one level of the breadth-first search keeps: everything collected descends from the root, and every row that was there at the start down to this depth is collected |
| OAuthStore.SearchRevokesReach | backend/src/modules/mcp-oauth/mcp-oauth-token.service.ts:322-327 | the bulk update after a complete search stamps exactly the unrevoked rows within 200 generations of the root |
| OAuthStore.NoRepeat | backend/src/modules/mcp-oauth/mcp-oauth-token.service.ts:286-290 | a chain that ends never meets one row twice, so the `seen` test never cuts a walk short |
| OAuthCode.ParseIsExact | backend/src/modules/mcp-oauth/mcp-oauth-code.service.ts:298-312 | a scope parameter is accepted exactly when all its words are known, and yields those words without repetition |
| OAuthCode.ScopeRoundTrip | backend/src/modules/mcp-oauth/mcp-oauth-code.service.ts:298-312 | the scope string of a token response, asked for again, parses to the scopes that were granted |
| OAuthCode.NoScopeMeansAll | backend/src/modules/mcp-oauth/mcp-oauth-code.service.ts:298-312 | an absent or empty scope parameter is granted like the whole vocabulary spelled out |
| OAuthCode.McpOAuthCodeService.ConsentData | backend/src/modules/mcp-oauth/mcp-oauth-code.service.ts:170-186 | the loop lists, in order, the workspaces with an active membership and what can be granted there |
| OAuthCode.OfferIsExact | backend/src/modules/mcp-oauth/mcp-oauth-code.service.ts:172-186 | the screen offers each listed workspace with an active membership, with exactly the requested scopes that are known and among the permissions held there, and nothing else |
| OAuthCode.GrantWithinOffer | backend/src/modules/mcp-oauth/mcp-oauth-code.service.ts:208-249 | a choice is accepted if and only if it is non-empty and within what the screen offers for that workspace |
| OAuthCode.McpOAuthCodeService.GrantCode | backend/src/modules/mcp-oauth/mcp-oauth-code.service.ts:208-277 | a code is stored exactly when the choice is non-empty, requested, known, in a workspace of the user, and among the permissions held there; a refusal stores nothing |
| OAuthCode.GrantedRowIsCapped | backend/src/modules/mcp-oauth/mcp-oauth-code.service.ts:213-267 | what is stored is unconsumed for five minutes, bound to the consenting user, the client, its redirect and its S256 challenge, and carries exactly the chosen scopes, within all three caps |
| OAuthService.McpOAuthTokenService.VerifyAccessToken | backend/src/modules/mcp-oauth/mcp-oauth-token.service.ts:105-121 | an access token resolves if and only if its row is neither revoked nor expired, and then to the grant of that row |
| OAuthService.McpOAuthTokenService.IssuePair | backend/src/modules/mcp-oauth/mcp-oauth-token.service.ts:223-269 | the access token that is answered is that of an unrevoked row of one hour, the refresh token that of one of thirty days, both under the given parent; no other row changes |
| OAuthService.McpOAuthTokenService.RevokeFrom | backend/src/modules/mcp-oauth/mcp-oauth-token.service.ts:309-328 | the search loop revokes exactly the rows within 200 generations of the root |
| OAuthService.McpOAuthTokenService.RevokeFamily | backend/src/modules/mcp-oauth/mcp-oauth-token.service.ts:283-306 | the up-walk loop ends at an ancestor, the top of the chain when there is one within reach, and everything below it is revoked |
| OAuthService.McpOAuthTokenService.ExchangeCode | backend/src/modules/mcp-oauth/mcp-oauth-token.service.ts:123-179 | tokens are handed out if and only if the code is known, unconsumed and unexpired, client and redirect are its own and the verifier hashes to its S256 challenge; then it is consumed and the pair is its; a refusal never consumes it, and a replay revokes what it minted |
| OAuthService.McpOAuthTokenService.ClaimAndMint | backend/src/modules/mcp-oauth/mcp-oauth-token.service.ts:159-178 | the second half of an exchange on whatever the tables are by then: a claim that lost the race counts as a replay and revokes, one that wins mints the pair |
| OAuthService.McpOAuthTokenService.Refresh | backend/src/modules/mcp-oauth/mcp-oauth-token.service.ts:181-221 | a new pair is handed out if and only if the token is a refresh token, unrevoked, unexpired and the client's own; then it is revoked; a revoked one revokes its family, any failed validation leaves both tables as they were |
| OAuthRuns.StepKeepsInv | backend/src/modules/mcp-oauth/mcp-oauth-token.service.ts:123-328 | every read, claim, mint, walk step, crash, consent and disconnect keeps the invariant of the tables and of every handler under way |
| OAuthRuns.ChainToRoot | backend/src/modules/mcp-oauth/mcp-oauth-token.service.ts:174-178 | the parent chain of a token leads in finitely many steps, through rows of the table, to a code that is no token |
| OAuthTheorems.ReadCodeClaimsIff | backend/src/modules/mcp-oauth/mcp-oauth-token.service.ts:128-157 | in every run a handler gets to claim a code exactly when the secret, the expiry, the client, the redirect and the S256 verifier it presents are right and the code is unconsumed; a refusal changes nothing |
| OAuthTheorems.ReadRefreshRotatesIff | backend/src/modules/mcp-oauth/mcp-oauth-token.service.ts:181-206 | in every run a handler gets to rotate exactly an unrevoked, unexpired refresh token of its own client, and goes after the family exactly of a revoked one |
| OAuthTheorems.DisconnectRevokesExactly | backend/src/modules/marketing/mcp/mcp-console.service.ts:309-320 | disconnecting a client from a workspace revokes its unrevoked tokens there and no other row |
| OAuthTheorems.TokensComeFromConsent | backend/src/modules/mcp-oauth/mcp-oauth-code.service.ts:208-267 | in every run each token hangs below one code and carries exactly its client, workspace, user, resource and scopes, which were requested and held at consent |
| OAuthTheorems.OnePairPerCode | backend/src/modules/mcp-oauth/mcp-oauth-token.service.ts:159-178 | under any overlap of exchanges at most one access and one refresh token are minted from a code, and only from a consumed one |
| OAuthTheorems.RevocationIsForever | backend/src/modules/mcp-oauth/mcp-oauth-token.service.ts:322-327 | a revoked token stays in the table, revoked, with the grant it had |
| OAuthTheorems.ReplayKillsFamily | backend/src/modules/mcp-oauth/mcp-oauth-token.service.ts:283-328 | under any overlap, when a replay handler writes, every row its family had when the replay was read is dead, down to 200 generations, and other families and old stamps are untouched |
| OAuthFamilies.OneLiveRefresh | backend/src/modules/mcp-oauth/mcp-oauth-token.service.ts:205-221 | under any overlap a family has at most one unrevoked refresh token, as long as no rotation write hits a revoked token whose family has another live one or a pair about to be minted |
| OAuthFamilies.OneLiveWithTheGuard | backend/src/modules/mcp-oauth/mcp-oauth-token.service.ts:208-211 | had the rotation write the condition that its token is still unrevoked, one live refresh token per family would hold in every run |
| OAuthFamilies.OneLiveWhenSerial | backend/src/modules/mcp-oauth/mcp-oauth-token.service.ts:205-221 | handlers one at a time, dying anywhere, are one way to keep to the condition |
| OAuthFamilies.DisturbedRotationForks | backend/src/modules/mcp-oauth/mcp-oauth-token.service.ts:208-221 | the condition is exact: from any reachable state where it is about to be broken, that write and at most two mints leave two live refresh tokens |
| OAuthFamilies.DeadForGoodIff | backend/src/modules/mcp-oauth/mcp-oauth-token.service.ts:63-67 | when a revoked family is revoked for good: in every continuation it stays without a live token if and only if no handler under way has yet to mint in it, be it a first pair or a rotation |
| OAuthFamilies.StepKeepsSingle | backend/src/modules/mcp-oauth/mcp-oauth-token.service.ts:123-328 | every step but a disturbed rotation write keeps: a family has one live refresh token, or one handler about to mint it, or neither |
| OAuthTheorems.WalkFinishes | backend/src/modules/mcp-oauth/mcp-oauth-token.service.ts:283-328 | a replay left alone ends, with exactly the revocation of an uninterrupted search |
| OAuthTheorems.ExchangeIsARun | backend/src/modules/mcp-oauth/mcp-oauth-token.service.ts:123-179 | what the class method does is a serial run of the machine |
| OAuthTheorems.RefreshIsARun | backend/src/modules/mcp-oauth/mcp-oauth-token.service.ts:181-221 | what the class method does is a serial run of the machine |
| OAuthTheorems.OverlappingRefreshesFork | backend/src/modules/mcp-oauth/mcp-oauth-token.service.ts:208-211 | two handlers that both read one live refresh token leave two live refresh tokens in its family: the rotation write is not guarded |
| OAuthTheorems.MintEscapesReplay | backend/src/modules/mcp-oauth/mcp-oauth-token.service.ts:161-170 | one way it is not final: a replay that runs between the claim of a code and its mint revokes nothing, and the pair minted afterwards lives |
| OAuthDepthBound.LongFamily | backend/src/modules/mcp-oauth/mcp-oauth-token.service.ts:205-221 | a client that keeps refreshing reaches every generation, by a serial run |
| OAuthDepthBound.BoundIsExact | backend/src/modules/mcp-oauth/mcp-oauth-token.service.ts:24-328 | for every depth n there is a run with one live refresh token n generations deep, and a replay of its code revokes it exactly when n is at most 200 |
| Outbox.OutboxService.Append | backend/src/modules/outbox/outbox.service.ts:89-113 | a new row exactly when no row of this tenant has the supplied key; it is queued, due at once, of the given type, tenant and key; nothing else changes |
| Outbox.RetryIsTheSameEvent | backend/src/modules/outbox/outbox.service.ts:89-99 | appends one after the other: a retry with the same key gets the first id back, changes nothing and keeps keys unique in a tenant |
| Outbox.TenantsDoNotShareKeys | backend/src/modules/outbox/outbox.service.ts:90-98 | the same key from another tenant is another event with a row of its own |
| Outbox.RetryDelays | backend/src/modules/outbox/outbox-worker.service.ts:249-249 | the first retry delay is 1000 ms and each doubles the one before, up to 64000 ms, so the five-minute cap never binds |
| OutboxRuns.StepKeepsInv | backend/src/modules/outbox/outbox-worker.service.ts:109-278 | every append, claim, dispatch, guarded write, reclaim, prune and crash keeps the invariant |
| OutboxRuns.AtLeastOnce | backend/src/modules/outbox/outbox-worker.service.ts:165-260 | in every run an id that append returned stays in the table until a dispatch of it has completed, `dispatched` implies delivered, and every claimed row can be reclaimed |
| OutboxRuns.FinalStatesStay | backend/src/modules/outbox/outbox-worker.service.ts:232-260 | `dispatched` and `failed` are never left by the worker; only dispatched rows are pruned |
| OutboxRuns.RowChanges | backend/src/modules/outbox/outbox-worker.service.ts:165-260 | every way a row changes, column by column: claimed when queued with its backoff over, requeued when its claim is overaged, recorded when its dispatch was, requeued with a later attempt or from the eighth claim on given up when it failed |
| OutboxRuns.ClaimsHonourBackoff | backend/src/modules/outbox/outbox-worker.service.ts:209-215 | in every run a queued row is claimed only by a claim that lists it, not before its next attempt is due, and counted up |
| OutboxRuns.RowsComeAndGo | backend/src/modules/outbox/outbox-worker.service.ts:109-135 | a row appears by an append, queued and due, and vanishes by a prune, dispatched and older than the retention |
| OutboxRuns.FailedMeansEightClaims | backend/src/modules/outbox/outbox-worker.service.ts:247-256 | a row is given up only after at least eight claims |
| OutboxRuns.RetriesWaitOneTo64Seconds | backend/src/modules/outbox/outbox-worker.service.ts:249-259 | in every run a failure write either gives the row up or sets its next attempt 1 to 64 seconds ahead |
| OutboxDuplicates.AtMostOnce | backend/src/modules/outbox/outbox-worker.service.ts:222-275 | an event is dispatched at most once in every run in which no crash and no failing write comes between its dispatch and its record and its row is not reclaimed from live hands |
| OutboxDuplicates.CrashDuplicates | backend/src/modules/outbox/outbox-worker.service.ts:156-187 | a crash there costs a second dispatch |
| OutboxDuplicates.ReclaimDuplicates | backend/src/modules/outbox/outbox-worker.service.ts:156-187 | so does a reclaim from live hands, given another worker |
| OutboxDuplicates.ThrowDuplicates | backend/src/modules/outbox/outbox-worker.service.ts:244-260 | so does a failing record up to the seventh attempt; the eighth gives up a row that was delivered |
| OutboxDuplicates.OneHolder | backend/src/modules/outbox/outbox-worker.service.ts:200-220 | in every run at most one worker has a row by its latest claim |
| OutboxDuplicates.LateFailureIff | backend/src/modules/outbox/outbox-worker.service.ts:250-260 | a failure write takes effect exactly on a row that is claimed, and does so although its own claim is superseded exactly when the row has been claimed again since |
| OutboxDuplicates.LateFailureUndoesDelivery | backend/src/modules/outbox/outbox-worker.service.ts:250-260 | for every number of claims a run in which such a write requeues a row that another worker has delivered, or from the eighth claim on gives it up |
| OutboxRuns.StepFailsIff | backend/src/modules/outbox/outbox-worker.service.ts:247-260 | a step makes a row `failed` exactly when it is the failure write of an eighth or later claim that finds the row claimed |
| OutboxRuns.FailedIff | backend/src/modules/outbox/outbox-worker.service.ts:156-260 | in every run from any reachable state a row is given up if and only if it was before or the run holds such a write; claims lost to crashes never give it up |
| OutboxRuns.GivenUpIff | backend/src/modules/outbox/outbox-worker.service.ts:247-260 | the same for runs from the empty table |
| OutboxRuns.OrphansAreNeverGivenUp | backend/src/modules/outbox/outbox-worker.service.ts:156-187 | an instance: a row whose worker dies after every claim collects any number of attempts and is still queued |
| OutboxWorker.OutboxWorkerService.ReclaimStale | backend/src/modules/outbox/outbox-worker.service.ts:165-187 | every reclaimed row was claimed longer ago than the configured age and is now queued and due with its attempts kept, no other row changes, older ids go first, and fewer than 50 leave none |
| OutboxWorker.SweptIsExact | backend/src/modules/outbox/outbox-worker.service.ts:165-187 | the rows that stop being stale are exactly the batch |
| OutboxWorker.OutboxWorkerService.DrainOnce | backend/src/modules/outbox/outbox-worker.service.ts:189-277 | only rows that are queued with their backoff over, or orphaned, are claimed or delivered; a waiting row is left as it is; a row that may be claimed is, unless 50 older ones were; each claimed row is settled by its own outcome up to a failing catch block |
| OutboxWorker.OutboxWorkerService.SettleBatch | backend/src/modules/outbox/outbox-worker.service.ts:222-275 | the loop settles the batch row by row and stops where the catch block's own write throws |
| OutboxWorker.OutboxWorkerService.Tick | backend/src/modules/outbox/outbox-worker.service.ts:137-154 | a tick that overlaps another does nothing; else it drains, comes back at once after a full batch and after 500 ms otherwise |
| OutboxWorker.OutboxWorkerService.PruneOnce | backend/src/modules/outbox/outbox-worker.service.ts:109-135 | only dispatched rows older than the retention are deleted, all of them or 5000, and no other row is touched |
| OutboxWorker.RoundByRow | backend/src/modules/outbox/outbox-worker.service.ts:189-277 | a drain changes exactly its batch, each row as its own outcome says |
| OutboxWorker.DrainIsARound | backend/src/modules/outbox/outbox-worker.service.ts:189-277 | on a queue with nothing claimed the drain of the class is such a round |
| OutboxWorker.AtMostEightClaims | backend/src/modules/outbox/outbox-worker.service.ts:209-260 | one worker without crashes: no row is claimed more than eight times, whatever fails, and the eighth claim settles it |
| OutboxWorker.RoundPays | backend/src/modules/outbox/outbox-worker.service.ts:209-260 | each drain lowers the claims the queue can still take by the number of rows it claims |
| OutboxWorker.QueueEmpties | backend/src/modules/outbox/outbox-worker.service.ts:209-260 | as many well-timed drains as there are claims left bring every row to `dispatched` or `failed` |
| OutboxWorker.SpacedIsWellTimed | backend/src/modules/outbox/outbox-worker.service.ts:249-259 | drains that wait out the longest backoff are well timed, whatever fails |
| OutboxWorker.DrainIsARun | backend/src/modules/outbox/outbox-worker.service.ts:222-275 | the loop over a batch is one of the interleavings of the machine |
| OutboxWorker.DomainEventBus.OnAny | backend/src/modules/outbox/domain-event-bus.service.ts:62-64 | a wildcard listener comes last for every event type |
| OutboxWorker.DomainEventBus.Dispatch | backend/src/modules/outbox/domain-event-bus.service.ts:66-86 | every listener sees the event once, typed ones before wildcard ones, whichever of them throw |
| Billing.PostConserves | backend/src/modules/marketing/wallet/growth-wallet.service.ts:275-307 | a credit keeps refs unique and every balance equal to what the ledger adds up to, with its row and currency in place |
| BillingRuns.StepKeepsInv | backend/src/modules/billing/billing-settlement.service.ts:95-372 | every placement, flip, failure, sweep step, credit, boost, activation, stamp and crash keeps the invariant |
| BillingRuns.ClosedForGood | backend/src/modules/billing/billing-settlement.service.ts:115-129 | an order leaves PENDING or AWAITING_TRANSFER at most once: whatever follows, a closed order keeps its status |
| BillingRuns.OrderChanges | backend/src/modules/billing/billing-settlement.service.ts:115-161 | every way an order changes: an open one becomes SUCCEEDED with its time or FAILED, a SUCCEEDED one is stamped by a handler that is about to |
| BillingRuns.SubscriptionChanges | backend/src/modules/billing/billing-settlement.service.ts:375-416 | a subscription row is written only for a SUCCEEDED subscription order of its workspace, with that order's package and reference |
| BillingRuns.BoostAppears | backend/src/modules/billing/billing-settlement.service.ts:540-557 | a boost row is created only for a SUCCEEDED add-on order, with its code and quantity, to end with the workspace's period |
| BillingRuns.CreditedAtMostOnce | backend/src/modules/billing/billing-settlement.service.ts:182-195 | in every run, in both wallets, each ledger entry is the only one with its ref and is the amount of a SUCCEEDED top-up, or 1000, 4000 or 12000 credits times the packs of a SUCCEEDED order, and balances are what the entries add up to |
| BillingRuns.StampedMeansLanded | backend/src/modules/billing/billing-settlement.service.ts:131-146 | a stamped order was paid and its AI credit, boost row or growth credit is on the books; only a growth credit whose insert met a wallet row made since its lookup may be missing |
| BillingCredits.CanBeLostIff | backend/src/modules/marketing/wallet/growth-wallet.service.ts:258-316 | from any reachable state some continuation leaves a top-up stamped but not credited if and only if it is not credited yet and either stamped already, or held by a handler that looked for the wallet row before there was one, or still to be tried while there is none |
| BillingCredits.CreditedOnceTheRowIsThere | backend/src/modules/marketing/wallet/growth-wallet.service.ts:275-307 | once the workspace has its wallet row, a top-up nobody has begun to pay out is credited in full before it is stamped, in every continuation |
| BillingCredits.CreditedInTheWalletsCurrency | backend/src/modules/marketing/wallet/growth-wallet.service.ts:323-337 | in every run, whatever races for the wallet row, each entry of a growth ledger pays an order in its wallet's currency |
| BillingCredits.SecondFirstTopUpIsLost | backend/src/modules/marketing/wallet/growth-wallet.service.ts:275-316 | two first top-ups of one workspace that settle together: the one that commits second is stamped without being credited |
| BillingCredits.StampedWithoutCredit | backend/src/modules/marketing/wallet/growth-wallet.service.ts:308-316 | that loss is reached from the empty tables by two payments alone |
| BillingRuns.BoostedAtMostOnce | backend/src/modules/billing/billing-settlement.service.ts:548-557 | a boost row is created at most once per order, and only for a paid boost order |
| BillingRuns.SweepActivatesIff | backend/src/modules/billing/billing-settlement.service.ts:255-287 | one undisturbed sweep of a paid subscription order stamps it either way and activates it if and only if the workspace does not already sit on that package in an open period |
| BillingActivations.StampedWasActivatedOrFound | backend/src/modules/billing/billing-settlement.service.ts:131-146 | in every run a stamped subscription order has been activated, or some probe of that run met the workspace on its package in an open period |
| BillingActivations.FoundIsSkipped | backend/src/modules/billing/billing-settlement.service.ts:265-274 | such a probe followed by its stamp leaves an order that was not activated so, and the subscription as it was |
| BillingActivations.SkippedForGood | backend/src/modules/billing/billing-settlement.service.ts:244-274 | and for good: with nobody holding it and no sweep picking it again, a stamped order is never activated in any continuation |
| BillingActivations.RenewalIsSkipped | backend/src/modules/billing/billing-settlement.service.ts:255-287 | a run from the empty tables: a renewal paid early whose grant failed is stamped, never activated, and the period ends where the first payment put it |
| BillingSettlement.SettleRunIs | backend/src/modules/billing/billing-settlement.service.ts:115-142 | flip, grant and stamp of one order, with a fault anywhere, come to exactly the books of its duty and the stamp |
| BillingSettlement.SweepOneIs | backend/src/modules/billing/billing-settlement.service.ts:255-293 | one order of the sweep is stamped as found or granted again, with exactly those books |
| BillingSettlement.SettleIsARun | backend/src/modules/billing/billing-settlement.service.ts:95-146 | a settlement call is a run of the machine |
| BillingSettlement.OneIsARun | backend/src/modules/billing/billing-settlement.service.ts:255-293 | the sweep's work on one order is a run of the machine |
| BillingPayments.TopUpPays | backend/src/modules/billing/billing-settlement.service.ts:182-190 | an undisturbed first settlement of a top-up raises its workspace's balance by its amount and stamps it; nothing else changes |
| BillingPayments.PacksPay | backend/src/modules/billing/billing-settlement.service.ts:519-538 | one of credit packs raises the AI balance by the credits of a pack times the packs |
| BillingPayments.BoostIsBought | backend/src/modules/billing/billing-settlement.service.ts:540-557 | one of a boost adds its row, with its quantity, to end with the workspace's period |
| BillingPayments.PackageIsBought | backend/src/modules/billing/billing-settlement.service.ts:375-416 | one of a subscription, upgrade or renewal puts the workspace on the package, ACTIVE for the new period |
| BillingPayments.UngrantedIsPaid | backend/src/modules/billing/billing-settlement.service.ts:131-143 | one that cannot be granted is paid, unstamped, and changes no other table |
| BillingService.BillingSettlementService.SettleSuccess | backend/src/modules/billing/billing-settlement.service.ts:95-146 | exactly an open order is settled, the tables and allow-lists become those of that run and the workspace's cached entitlements go; else nothing changes |
| BillingService.ModulesOnIff | backend/src/modules/billing/billing-settlement.service.ts:419-464 | settled and swept, a subscription order has its modules switched on if and only if none had to be, or the first grant went through, or the sweep does not find it granted; after a lost reply it is found, and they stay off, exactly while the new period is open |
| BillingService.BillingSettlementService.SettleFailure | backend/src/modules/billing/billing-settlement.service.ts:199-217 | exactly an open order is failed |
| BillingService.BillingSettlementService.GrantEntitlement | backend/src/modules/billing/billing-settlement.service.ts:169-197 | the books of the order's duty, the modules of an activation that went through, and whether the grant succeeded |
| BillingService.BillingSettlementService.GrantAddOn | backend/src/modules/billing/billing-settlement.service.ts:514-558 | a credit pack is credited once by its ref, the credits of a pack times the quantity; a known boost gets one row that ends with the period; an unknown code fails |
| BillingService.BillingSettlementService.ActivateSubscription | backend/src/modules/billing/billing-settlement.service.ts:375-426 | the workspace's row becomes ACTIVE on the package for a fresh period, and the package's modules are switched on |
| BillingService.BillingSettlementService.ActivateEntitledModules | backend/src/modules/billing/billing-settlement.service.ts:435-464 | an explicit allow-list gains exactly the package's toggleable modules, no list stays no list, other workspaces are left alone |
| BillingService.BillingSettlementService.CreditGrowthWallet | backend/src/modules/marketing/wallet/growth-wallet.service.ts:258-316 | one entry per ref; an amount that is not positive or another currency fails; a wallet row made between lookup and insert passes for a replay |
| BillingService.BillingSettlementService.CreditAiWallet | backend/src/modules/marketing/ai/ai-credit-wallet.service.ts:75-123 | one entry per ref; a wallet row made between lookup and insert fails the grant |
| BillingService.BillingSettlementService.TakeOldest | backend/src/modules/billing/billing-settlement.service.ts:244-252 | unstamped SUCCEEDED orders of the pass's types, earliest settlement first; what is left out is no earlier, and only if the window is full |
| BillingService.BillingSettlementService.ReconcileOne | backend/src/modules/billing/billing-settlement.service.ts:255-293 | stamps what is found granted, without touching its modules, grants the rest again, says which it was, and ends the sweep where its probe or the stamp of a found order fails |
| BillingService.BillingSettlementService.ReconcilePass | backend/src/modules/billing/billing-settlement.service.ts:254-294 | the loop over a window comes to the pass of the specification, up to an error, counts exactly the orders it granted again and drops at least their workspaces from the cache |
| BillingService.BillingSettlementService.ReconcileUngrantedOrders | backend/src/modules/billing/billing-settlement.service.ts:238-372 | the three passes in order, each on a window of the tables the one before left, until an error ends the sweep |
| BillingService.BillingSettlementService.ExtendSubscriptionByProviderRef | backend/src/modules/billing/billing-settlement.service.ts:467-497 | a renewal extends one row that carries the reference; a stale one is acknowledged without a change |
| BillingService.BillingSettlementService.CancelSubscriptionByProviderRef | backend/src/modules/billing/billing-settlement.service.ts:500-512 | one row that carries the reference is marked to end with its period |
| BillingRecovery.PassIsSwept | backend/src/modules/billing/billing-settlement.service.ts:254-294 | an uninterrupted pass stamps every order of its window except those that fault or cannot be granted, whatever other handlers are parked |
| BillingRecovery.TurnStamps | backend/src/modules/billing/billing-settlement.service.ts:254-294 | with any steps of other handlers before and between its own, the sweep's turn with an order that does not break off has stamped it |
| BillingRecovery.BreaksIff | backend/src/modules/billing/billing-settlement.service.ts:275-293 | a turn breaks off exactly by an error, a lost reply, a top-up without an amount or in another currency, or an AI wallet row made after its lookup |
| BillingRecovery.ServicePassIsARound | backend/src/modules/billing/billing-settlement.service.ts:254-294 | the pass that the class method performs is such turns, one for each order of its window |
| BillingRecovery.PassAdvances | backend/src/modules/billing/billing-settlement.service.ts:238-294 | a pass either finishes the orders that sort no later than a given one or stamps at least limit - p of them, p being those of them that fail |
| BillingRecovery.RoundsAreAHistory | backend/src/modules/billing/billing-settlement.service.ts:219-372 | passes with any steps of other handlers inside them and between them, orders being settled at later times only, make a history of order tables |
| BillingRecovery.SweepsCatchUp | backend/src/modules/billing/billing-settlement.service.ts:219-372 | in the machine, whatever other handlers do inside the passes and between them: an order is stamped once n / (limit - p) passes have run to their ends, where p < limit of the waiting orders that sort no later fail and n do not |
| BillingRecovery.RecoveryProgress | backend/src/modules/billing/billing-settlement.service.ts:219-328 | the same for a history of order tables, however many newer orders fail or arrive |
| BillingStarvation.StampedIff | backend/src/modules/billing/billing-settlement.service.ts:238-294 | order by order and without ties: after enough such passes an order is stamped if and only if fewer than `limit` of the waiting orders that sort no later fail and keep failing |
| BillingStarvation.NeverStampedIff | backend/src/modules/billing/billing-settlement.service.ts:254-328 | which paid orders no continuation of any reachable state ever stamps: exactly those without a package, without an amount or in another currency than the wallet, that are not on the books and that no handler has past its checks |
| BillingStarvation.StuckAreFailing | backend/src/modules/billing/billing-settlement.service.ts:275-293 | the sweep's turn with such a stuck order always breaks off |
| BillingStarvation.StarvedForGood | backend/src/modules/billing/billing-settlement.service.ts:238-294 | for good: behind `limit` older stuck orders an order is in no window again, whatever happens inside the passes and between them, and stays unstamped unless somebody else takes it up |
| BillingStarvation.StarvationIsReached | backend/src/modules/billing/billing-settlement.service.ts:238-328 | for every limit a run from the empty tables: top-ups in two currencies placed before their workspace had a wallet leave a top-up of another workspace that can be granted and that no window ever reaches |
| BillingStarvation.StuckWindowStarves | backend/src/modules/billing/billing-settlement.service.ts:238-294 | an uninterrupted pass over a window of stuck orders grants nothing and leaves all tables as they are, so the next pass meets it again |
| BillingStarvation.CrowdedOut | backend/src/modules/billing/billing-settlement.service.ts:244-252 | with `limit` older waiting orders, no window of the table holds the order |
| BillingStarvation.OldestFillTheWindow | backend/src/modules/billing/billing-settlement.service.ts:244-252 | `limit` waiting orders that are older than all others are the whole window |
| BillingLifecycle.TwoSweepsAreOne | backend/src/modules/billing/billing-scheduler.service.ts:35-84 | two sweeps of a row, in either order of their times, are one sweep at the later time |
| BillingLifecycle.SweepsCollapse | backend/src/modules/billing/billing-scheduler.service.ts:35-84 | any sweeps at any times leave a subscription and an add-on as the one sweep at the latest time does |
| BillingLifecycle.SweepByStatus | backend/src/modules/billing/billing-scheduler.service.ts:35-84 | what one sweep makes of a row, status by status: an ended trial expires, a period that is over makes it past due or cancelled, seven more days expire it; an add-on expires with its period; nothing but the status changes |
| BillingLifecycle.LiveAfterSweeps | backend/src/modules/billing/entitlements.service.ts:232-237 | after any sweeps a row is live exactly when it was live to begin with and the latest sweep did not find it overdue: seven days past its period, or the period itself if it was to be cancelled |
| BillingLifecycle.NeverRevives | backend/src/modules/billing/billing-scheduler.service.ts:37-78 | no sweep makes a dead subscription live, at whatever instant it is read |
| BillingLifecycle.BoostsAgree | backend/src/modules/billing/billing-scheduler.service.ts:80-84 | an add-on counts in the fold after any sweeps exactly when it did before |
| BillingLifecycle.RenewalsReachTheLatest | backend/src/modules/billing/billing-settlement.service.ts:467-497 | renewals in any order, with repetitions, end the period at the latest end delivered or the initial one, never earlier, and set the row ACTIVE if and only if one of them was news |
| BillingLifecycle.RenewalsAreOrderFree | backend/src/modules/billing/billing-settlement.service.ts:475-495 | two deliveries of the same set of renewals end in the same period end and status |
| BillingLifecycle.StartRemembersTheOrder | backend/src/modules/billing/billing-settlement.service.ts:489-493 | only the period start depends on the order of delivery |
| BillingLifecycle.RenewalRevives | backend/src/modules/billing/billing-settlement.service.ts:487-494 | a new renewal brings a row back from any status, and it then lives exactly as long as it is paid for and its cancellation mark says |
| BillingLifecycle.UninterruptedIsTheSweep | backend/src/modules/billing/billing-scheduler.service.ts:37-78 | with no write in between, each pass so interrupted is the sweep |
| BillingLifecycle.DeadWriteStays | backend/src/modules/billing/billing-scheduler.service.ts:37-78 | where the pass writes EXPIRED or CANCELLED, what was written in between is dead at every instant and stays so under every later sweep |
| BillingLifecycle.PaidInsideASweep | backend/src/modules/billing/billing-scheduler.service.ts:37-78 | a row paid ahead inside any of the three passes survives if and only if that pass had not found the old row; with the liveness after all later sweeps, pass by pass |
| BillingLifecycle.RenewalInsideASweep | backend/src/modules/billing/billing-settlement.service.ts:487-494 | a provider renewal is such a write: dark at once after the trial and grace passes, where the same renewal after the sweep would have been live |
| BillingLifecycle.ActivationInsideASweep | backend/src/modules/billing/billing-settlement.service.ts:392-417 | so is an activation: a customer who pays while the trial pass runs is left without access |
| BillingLifecycle.GrantIsFixed | backend/src/modules/billing/package-assignment.ts:32-32 | up to the end of 2999 no sweep and no renewal changes an internal grant; it goes dark exactly seven days after |
| BillingScheduler.BillingSchedulerService.WriteStatus | backend/src/modules/billing/billing-scheduler.service.ts:42-48 | the loop of a pass writes exactly the rows found and drops their cached entitlements |
| BillingScheduler.BillingSchedulerService.SweepLifecycle | backend/src/modules/billing/billing-scheduler.service.ts:30-84 | the four passes come to the row-wise sweep of both tables, and the cache loses exactly the workspaces whose row changed |
| BillingScheduler.PassesAreTheSweep | backend/src/modules/billing/billing-scheduler.service.ts:37-78 | the passes one after the other, ACTIVE to PAST_DUE to EXPIRED in one sweep included, are the sweep of every row |
| BillingScheduler.MissedTicksAreHarmless | backend/src/modules/billing/billing-scheduler.service.ts:29-84 | with no other writer, any number of sweeps leaves both tables as one sweep at their latest time does |
| PackageAssignment.PackageAssignmentClient.AssignPackageToWorkspace | backend/src/modules/billing/package-assignment.ts:85-163 | unknown workspaces and codes change nothing; else the row is ACTIVE on the package up to the end of 2999, written only when it differs, and the reply lists each quota under its own name |
| PackageAssignment.AssignmentSticks | backend/src/modules/billing/package-assignment.ts:111-147 | after an assignment, any sweeps and renewals up to 2999 and another assignment change no row, and other workspaces are never touched |
| Entitlements.Compute | backend/src/modules/billing/entitlements.service.ts:226-348 | the two nested loops and the mask return exactly the order-insensitive specification, with its four early exits |
| Entitlements.FoldEntry | backend/src/modules/billing/entitlements.service.ts:280-307 | one grant entry moves exactly the limit or the feature its key names |
| Entitlements.FoldAddOns | backend/src/modules/billing/entitlements.service.ts:278-309 | the loops over add-ons and entries compute the meters of the specification |
| Entitlements.MaskModules | backend/src/modules/billing/entitlements.service.ts:328-332 | the loop switches off exactly the toggleable modules that the allow-list leaves out |
| Entitlements.LoopIsMeters | backend/src/modules/billing/entitlements.service.ts:278-309 | the nested loop is the specification for every list of rows |
| Entitlements.FoldIsClosedIff | backend/src/modules/billing/entitlements.service.ts:284-292 | the fold of a limit is its documented closed form if and only if the limit is unlimited, or no running total is -1, or the whole total is -1 |
| Entitlements.SaneFoldIsClosed | backend/src/modules/billing/entitlements.service.ts:284-292 | for bases and grants of at least -1 and quantities of at least 0 it always is |
| Entitlements.NegativeGrantUnlocks | backend/src/modules/billing/entitlements.service.ts:284-292 | a grant below -1, or a sound grant with a negative quantity, can freeze a limit at unlimited, in one of two orders of the same grants |
| Entitlements.LimitMeaning | backend/src/modules/billing/entitlements.service.ts:256-301 | each of the ten limits is -1 if its base or a live grant is -1, else the base plus every live grant times its quantity |
| Entitlements.QuotasMean | backend/src/modules/billing/entitlements.service.ts:226-348 | the quotas and limits of the answer, each from its own column: -1 if its base or a grant in force is -1, else the base plus every number in force times its quantity; without a subscription in force zero, with one user |
| Entitlements.DocumentedIsClosed | backend/src/modules/billing/entitlements.service.ts:269-301 | the closed form of the fold is that sum over the rows |
| Entitlements.MetersAreOrderFree | backend/src/modules/billing/entitlements.service.ts:269-309 | the order in which the database returns the add-ons does not matter |
| Entitlements.FeatureMeaning | backend/src/modules/billing/entitlements.service.ts:227-332 | a feature is on if and only if the subscription is in force, the package or an add-on in force has it, and it is not toggleable or not left out of the allow-list; the entitled modules are the toggleable ones before the allow-list |
| Entitlements.RowsShowThrough | backend/src/modules/billing/entitlements.service.ts:226-348 | the package code, the two statuses and the two dates come from their rows, or are empty |
| Entitlements.Catalogue.Modules | backend/src/modules/billing/entitlements.service.ts:93-115 | the toggleable and default-activated modules: all features but autoAssign and smsOtp |
| Entitlements.Widened | backend/src/modules/billing/billing-settlement.service.ts:445-462 | the widened allow-list keeps what was on it, in front, and adds exactly the package's toggleable modules |
| Entitlements.PurchaseLandsHot | backend/src/modules/billing/billing-settlement.service.ts:419-464 | after the widening every module of the package is on, none that was on is lost, and nothing outside the package is switched on |
| EntitlementCache.EntitlementsService.GetEffective | backend/src/modules/billing/entitlements.service.ts:217-224 | the cached answer while it is good, else the computed one, stored for 30 seconds |
| EntitlementCache.HitOrigin | backend/src/modules/billing/entitlements.service.ts:188-224 | in every interleaving a cached answer was computed at an earlier step, stored less than 30 seconds ago, and not invalidated since it was stored |
| EntitlementCache.AnswersAreRecent | backend/src/modules/billing/entitlements.service.ts:188-224 | if the reads of a workspace are uninterrupted, an answer for it at time t is what the fold gave at some time in (t - 30 s, t], with no invalidation in between |
| EntitlementCache.InvalidationHoldsIff | backend/src/modules/billing/entitlements.service.ts:213-224 | in every continuation every answer after an invalidation was computed after it, if and only if no computation of that workspace is under way when it happens |
| EntitlementCache.BegunAfter | backend/src/modules/billing/entitlements.service.ts:213-224 | with none under way, every later answer was begun after the invalidation |
| EntitlementCache.OlderAnswer | backend/src/modules/billing/entitlements.service.ts:217-224 | with one under way, its store serves what it computed before the invalidation |
| EntitlementCache.FreshAfterInvalidation | backend/src/modules/billing/entitlements.service.ts:213-224 | a mutation followed by its invalidation while no read of that workspace is under way: every later answer is a fold of the mutated tables |
| RedisThrottler.RedisThrottlerStorage.Script | backend/src/common/throttler/redis-throttler-storage.ts:37-69 | the two keys and the reply become those of one step, for every window, limit and block, with the error of a block that is not positive; no other key is touched |
| RedisThrottler.RedisThrottlerStorage.Increment | backend/src/common/throttler/redis-throttler-storage.ts:118-152 | the reply is the script's if it answered, else every request passes, or by configuration none; the store is as the script left it, also when its answer was lost |
| RedisThrottler.RedisThrottlerStorage.Incr | backend/src/common/throttler/redis-throttler-storage.ts:53-53 | a missing or expired counter starts at 1 without a deadline, a live one keeps its deadline |
| RedisThrottler.BlockedRepliesReportExcess | backend/src/common/throttler/redis-throttler-storage.ts:44-68 | a blocked reply of any stream reports more than `limit` hits |
| RedisThrottler.AnswersFromBlock | backend/src/common/throttler/redis-throttler-storage.ts:44-51 | a reply from a block that ends at some instant reports what is left of it, and the hits and deadline of the counter while that lives |
| RedisThrottler.BlockCountsDown | backend/src/common/throttler/redis-throttler-storage.ts:44-66 | after an excess at t every reply answered from that block adds up to t plus the block duration |
| RedisThrottler.WindowCountsDown | backend/src/common/throttler/redis-throttler-storage.ts:44-68 | while a window is armed every reply, admitted or blocked, adds up to its one deadline |
| RedisThrottler.WindowStarts | backend/src/common/throttler/redis-throttler-storage.ts:53-58 | the first request of a window is told one hit, and its deadline is one window after it |
| RedisThrottler.HitsCountUp | backend/src/common/throttler/redis-throttler-storage.ts:53-66 | within a window each request up to the first excess is told its number |
| RedisThrottler.ScriptFailsIff | backend/src/common/throttler/redis-throttler-storage.ts:60-66 | the script fails exactly when it would start a block that lasts no time |
| RedisThrottler.WithinBudget | backend/src/common/throttler/redis-throttler-storage.ts:38-69 | from any sound state, what an interval of window length lets through is bounded by what the state still owes it |
| RedisThrottler.SlidingBound | backend/src/common/throttler/redis-throttler-storage.ts:38-69 | no half-open interval of window length lets more than 2 * limit - 1 requests through |
| RedisThrottler.SlidingBoundIsTight | backend/src/common/throttler/redis-throttler-storage.ts:38-69 | that bound is reached for every limit and every window of at least 3 ms |
| RedisThrottler.FirstLimitPass | backend/src/common/throttler/redis-throttler-storage.ts:53-66 | within an armed window exactly the first `limit` requests pass |
| RedisThrottler.ExcessLocksOut | backend/src/common/throttler/redis-throttler-storage.ts:44-66 | after an excess no request passes before both the window and the block are over, whatever arrives |
| RedisThrottler.ReopensAfterBoth | backend/src/common/throttler/redis-throttler-storage.ts:44-66 | left alone, the key opens again exactly then |
| RedisThrottler.BlockedCallsAreInert | backend/src/common/throttler/redis-throttler-storage.ts:44-51 | calls answered from the block change neither key |
| RedisThrottler.KeysMeetIff | backend/src/common/throttler/redis-throttler-storage.ts:124-125 | the Redis keys of two identities are disjoint if and only if neither spells the other's block key |
| RedisThrottler.KeysAreIndependent | backend/src/common/throttler/redis-throttler-storage.ts:124-128 | any mixture of requests gives each identity what its own requests alone would |
| RedisThrottler.GlobalBound | backend/src/common/throttler/redis-throttler-storage.ts:118-134 | the sliding bound holds over all pods and all other traffic |
| RedisThrottler.SpelledBlockKeyBlocks | backend/src/common/throttler/redis-throttler-storage.ts:124-125 | for arbitrary identities: one that spells another one's block key blocks its first request |
| SmsSegments.IsGsm7 | frontend/src/lib/smsSegments.ts:48-53 | the walk by code points decides whether every code unit is a GSM-7 character |
| SmsSegments.SeptetLength | frontend/src/lib/smsSegments.ts:56-60 | the walk adds up one or two septets for each code point |
| SmsSegments.SmsSegmentCount | frontend/src/lib/smsSegments.ts:73-89 | the count of the specification, absent text and absent or negative reserve included |
| SmsSegments.CountIsLeast | frontend/src/lib/smsSegments.ts:76-88 | the count is the least positive number of segments that holds the text |
| SmsSegments.FitsIff | frontend/src/lib/smsSegments.ts:73-89 | k segments are enough exactly for 160 septets or k parts of 153, or 70 code units or k parts of 67, each less the reserve and at least one |
| SmsSegments.SeptetsCountEscapes | frontend/src/lib/smsSegments.ts:42-60 | GSM-7 text takes a septet for each code unit and one more for each extended character |
| SmsSegments.BasicIsTheTable | frontend/src/lib/smsSegments.ts:38-40 | the basic alphabet is the table of the standard |
| SmsSegments.AppendNeverCheaper | frontend/src/lib/smsSegments.ts:73-89 | appending any code units never lowers the count, switch to UCS-2 included, for every reserve up to 151 |
| SmsSegments.AppendMonotoneIffReserve | frontend/src/lib/smsSegments.ts:73-89 | the counter is monotone in the text if and only if the reserve is at most 151 |
| SmsSegments.ReserveNeverCheaper | frontend/src/lib/smsSegments.ts:78-86 | a larger reserve never lowers the count |
| Text.TrimCutsTheEnds | backend/src/modules/billing/package-assignment.ts:98-98 | what is trimmed from a code is white space, at its two ends |
| Text.SpacesAre | backend/src/modules/mcp-oauth/mcp-oauth-code.service.ts:298-312 | white space is that of ECMAScript, one by one |

## Left out

- OAuthService.McpOAuthTokenService.ExchangeCode: runs without interruption, so the lost claim does not occur in it; ClaimAndMint states that branch, and OAuthRuns has it as a step of its own.
- BillingRuns.CreditedAtMostOnce: the ledgers hold order top-ups only; debits, refunds and other movements of the wallets are not part of this model.
- BillingService.BillingSettlementService.CreditGrowthWallet: the upsert is a lookup and then an insert that meets the unique index if another transaction made the row in between; a conflict on the ledger's own ref, which needs two grants of one order at once, occurs in BillingRuns only.
- RedisThrottler.RedisThrottlerStorage.Increment: the connection events that set or clear the warning flag are not modelled, and the results on streams of requests assume that Redis answers and that window and block are positive.
- Outbox.OutboxService.Append: has no unique index on the key, as the table has none; the re-read after a unique conflict and an append inside a transaction that rolls back are not modelled.
- PackageAssignment.PackageAssignmentClient.AssignPackageToWorkspace: upper-casing is a parameter, trimming is that of the Text module, and the currency and provider columns of the row are not modelled.
- Entitlements.Compute: numbers are exact reals instead of doubles, JSON values enter as their number and their truth, and a thrown database error is not modelled.
- SHA-256 and the PKCE digest are one injective constructor; secrets and ids are fresh parameters.
- Memberships, roles, client registration, redirect URIs, `state`, issuer and HTTP errors: the caps take what those services return.
- Billing cycle, currency and provider of a subscription.
- The calendar arithmetic of month and year ends: the new period end is a parameter.
- BillingStarvation.StampedIff: speaks of passes that run to their ends; an error that ends a pass early is in StarvedForGood and in the class methods only.
- The advisory locks of the sweeps: other handlers, other sweeps included, may step inside a pass.
- Operator actions (requeueing a failed outbox row, manual order states), listener removal, logging and metrics.
- The React composer around the segment counter, the sender-header overhead and the server-side count.
