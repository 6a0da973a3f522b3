# Ordering and payments back end: a verified model

This project models the stateful services of a multi-tenant ordering, booking and payments back end, and proves
what they promise over every run. MongoDB collections and Redis keys are maps whose single operations are atomic;
a service call is a sequence of such operations, or one step where the service reads, checks and writes the same
document without a guard.

- `Orders`, `Machines`, `Pricing`, `OrderTotals`, `StockConservation`, `DoubleRestore`, `VariantDrift`, `OrderNumbers`,
  `OrderService`: orders as one transition system. createOrder is split at every await that touches shared state, so any
  number of calls interleave.
- `Approvals`, `LedgerAgreement`, `DoublePayment`, `PendingEntries`, `ClosingSummary`, `Csv`: the payment ledger, "cerrar
  caja" and its export.
- `ConfigMerge`, `TenantConfig`, `ReadYourWrites`, `ReadBack`, `ConfigStamps`, `JsValues`: the versioned tenant
  configuration as JSON trees.
- `Sessions`, `SessionLifetime`, `Rotations`, `OverlappingRotations`: access/refresh sessions with a clock, the same calls
  split into Redis commands, and rotations that overlap.
- `ApiClient`, `RetryOutcome`, `Coalescing`, `Projections`: the browser's client, alone and together with the server.
- `BookingSlots`, `DayView`, `Weekdays`, `BookingCalendar`, `Appointments`, `BookingPayments`, `BookingTokens`,
  `DoubleBooking`: slot views, appointments with their payments, and when two appointments share a start.
- `Quotations`, `Rates`, `RateLifecycle`, `BusinessDate`, `BankAccounts`, `BankAccountEdits`: rounding, cached
  exchange rates, business dates, the default account.

Classes follow the services: their methods keep the loops, early returns and in-place updates of the source and are
proved equal to functions on values, about which the lemmas speak. `Prelude` holds Option, Result, the JavaScript
rounding over reals and sums over sequences.

## Where code and documentation part

- The controller documents that no updateStatus edge leaves `pending_verification`; the shipped food machine has one to
  `cancelled` (`source-excerpts/backend/modules/order/state-machines/food.machine.ts:16`), and the retail machine one from
  `confirmed`. The stock is then given back twice when the open payment is rejected afterwards. The model follows the
  code: the machine is a parameter, the exact set of machines that keep the stock is characterised, and the documented
  table is in it.
- restoreOrderStock gives variant lines back to their product, rollbackStock to their variant. Conservation holds exactly
  when no cancelled order has a counted variant line.
- expireStaleOrders rejects the payment and leaves its transaction `pending_review`: over every run those are exactly the
  rejected payments whose transaction still waits.
- The session service says that a reused refresh deletes the whole family. A rotation deletes the lookup of the old refresh,
  so in runs of whole calls a replayed token is unknown and the family stays open; the reuse branch needs overlapping calls.
- The slot view interprets opening hours in the tenant's zone and reads appointments of the server's calendar day.
- createOrder looks for conflicts among scheduled, confirmed and in-progress bookings, rescheduleBooking and the slot view
  among all but cancelled and no_show. submitPagomovil and verifyPagomovil look at the payment only, so they bring a
  cancelled appointment back to a slot given away in between. Standing appointments stay apart exactly in the runs in
  which neither happens.
- Two overlapping rotations of one session mint twice. That a mint runs only while its session is on record and still
  names the refresh it was given is enough to prevent it; allowing a session that is gone as well is not.
- A section of the defaults replaced by a plain value and later by an object comes back with its defaults on read, and so
  do legacy order modes that the new configuration no longer mirrors. What update returns is read back exactly when the
  patch puts no object where that happens.
- deleteBankAccount promotes a sole active account without looking for an inactive default.
- A business date is wrong in the first local hour where the engine writes midnight as hour 24, and when it has to step
  back a day in one of the years 0 to 99, which Date.UTC takes for 1900 to 1999.
- Stored tokens survive until the next 401, login or logout, except that a request woken by an earlier failed refresh clears
  whatever is stored when its turn comes.

## Model

| member | source | states |
|---|---|---|
| StockConservation.StockNeverNegative | source-excerpts/backend/modules/order/order.service.ts:544-565 | In every run, with any number of createOrder calls interleaved at every await and whatever stale catalogue each pre-check saw, no tracked article goes below zero, under any state machine. |
| StockConservation.StepKeepsBalance | source-excerpts/backend/modules/order/order.service.ts:512-565 | Any single step keeps, for every article, shelf + units held by running calls + units in non-cancelled orders − drift, provided the step does not write to a cancelled order. |
| StockConservation.AccountedWhenCareful | source-excerpts/backend/modules/order/order.service.ts:1667-1729 | If `cancelled` is terminal and updateStatus cancels no order whose PagoMovil payment is still open, every tracked unit is accounted for after every run. |
| StockConservation.StockAccounted | source-excerpts/backend/modules/order/order.service.ts:1197-1262 | With a settled machine (no edge leaves `cancelled`, and updateStatus cannot reach it from `confirmed` or `pending_verification`) the books balance in every run. |
| StockConservation.ConservedIffNoVariantCancelled | source-excerpts/backend/modules/order/order.service.ts:1706-1729 | After a careful run, stock + held + ordered equals the initial stock for every article if and only if no cancelled order has a variant line on a counted article: restoreOrderStock gives every line back to its product. |
| VariantDrift.VariantCancelled | source-excerpts/backend/modules/order/order.service.ts:1197-1262 | A run on the documented table that breaks conservation: a cash order with one variant line is created, confirmed and cancelled, and leaves one unit too many of the product and one too few of the variant. |
| StockConservation.GiveBackAmount | source-excerpts/backend/modules/order/order.service.ts:1706-1729 | Giving an order back adds its lines to their articles, up to the drift of its variant lines. |
| StockConservation.DocumentedTableSettled | source-excerpts/backend/modules/order/order.controller.ts:484-488 | The table the controller documents is settled. |
| DoubleRestore.AccountedIffSettled | source-excerpts/backend/modules/order/order.service.ts:861-956 | Over all machines: the stock is accounted for in every run from every initial stock if and only if the machine is settled. |
| DoubleRestore.RestoredTwiceInReview | source-excerpts/backend/modules/order/order.service.ts:874-944 | A run that ends with two units where there was one: submit, cancel the order under review through updateStatus, reject the payment. |
| DoubleRestore.RestoredTwiceUnpaid | source-excerpts/backend/modules/order/order.service.ts:747-751 | The same from an unpaid order: cancel it through updateStatus, submit the payment, reject it. |
| DoubleRestore.Revived | source-excerpts/backend/modules/order/order.service.ts:1197-1230 | The same from any machine with an edge out of `cancelled`. |
| DoubleRestore.ShippedMachinesNotSettled | source-excerpts/backend/modules/order/state-machines/food.machine.ts:13-22 | The shipped food and retail machines are not settled, so both have runs that do not account for the stock. |
| OrderNumbers.NumbersDistinct | source-excerpts/backend/modules/order/order.service.ts:573-591 | Two orders of one tenant on one business date never carry the same number, under every interleaving and with failing counters. |
| LedgerAgreement.LedgerAgrees | source-excerpts/backend/modules/payment/payment-transaction.service.ts:160-181 | In every run whose cash audits were written, each order has at most one transaction, and it is approved exactly when the order's payment is, if no paid order can be brought back to where it is asked to pay. |
| LedgerAgreement.ApprovedEntryMeansPaid | source-excerpts/backend/modules/payment/payment-transaction.service.ts:106-153 | The half that needs no audit: one transaction per order at most, and an approved one only for a paid order. |
| LedgerAgreement.TotalsAgree | source-excerpts/backend/modules/order/order.service.ts:1109-1120 | After every audited run, for every tenant, method and period, the approved amounts of the ledger add up to what the orders paid in that period owe: declared Bs, total in USD for cash, total in Bs for debit. |
| LedgerAgreement.DrawerByMethod | source-excerpts/backend/modules/order/order.service.ts:1109-1120 | Method by method: approved cash entries add up to the USD totals of the orders paid in cash, debit entries to the Bs totals of those paid by card, PagoMovil entries to the declared amounts. |
| LedgerAgreement.ShippedMachinesPayOnce | source-excerpts/backend/modules/order/state-machines/food.machine.ts:13-22 | The shipped machines never bring a paid order back to a status that asks for payment. |
| Machines.FoodReaches | source-excerpts/backend/modules/order/state-machines/food.machine.ts:13-22 | Exactly what a food order can still become by updateStatus. |
| Machines.RetailReaches | source-excerpts/backend/modules/order/state-machines/retail.machine.ts:14-24 | Exactly what a retail order can still become. |
| DoublePayment.AgreesIffPaysOnce | source-excerpts/backend/modules/order/order.service.ts:1055-1093 | Over all machines: ledger and orders agree after every audited run if and only if no paid order can be brought back to `pending_cash` or `pending_verification`. |
| DoublePayment.ChargedTwice | source-excerpts/backend/modules/order/order.service.ts:1063-1068 | The run behind the other half: a second approved transaction, or an approved one on an expired order. |
| PendingEntries.StaleIffExpired | source-excerpts/backend/modules/order/order.service.ts:1580-1614 | After every run, under any machine: an order's transaction waits for review while its payment is rejected if and only if the expiry sweep reached the order while its payment was under review. |
| PendingEntries.ExpiryLeavesEntry | source-excerpts/backend/modules/order/order.service.ts:1598-1612 | The run create, submit, expire leaves the payment rejected and its transaction `pending_review`. |
| Approvals.DecisionIff | source-excerpts/backend/modules/order/order.service.ts:885-899 | A decision is taken exactly when the payment is under review and an unforced approval is within two percent, above or below; otherwise nothing changes. |
| Approvals.SubmissionIff | source-excerpts/backend/modules/order/order.service.ts:740-803 | A submission is accepted exactly for a PagoMovil order not yet paid, with a reference no other order of the tenant carries; it puts order and payment under review and leaves one waiting entry with the declared amount. |
| Approvals.TillIff | source-excerpts/backend/modules/order/order.service.ts:1055-1093 | A payment at the till is accepted exactly for a cash or debit order waiting for it. |
| Approvals.LatestIs | source-excerpts/backend/modules/payment/payment-transaction.service.ts:160-181 | A review goes to the latest entry of the order still waiting, when there is one. |
| Approvals.ApprovedWithinTwoPercent | source-excerpts/backend/modules/order/order.service.ts:885-899 | In every run without forced approvals, under any machine: an approved PagoMovil order declared an amount, within two percent of its total in Bs when neither is zero. |
| Approvals.ReferencePaysOnce | source-excerpts/backend/modules/order/order.service.ts:752-775 | Over every run no two orders of a tenant carry the same payment reference. |
| Pricing.PriceOrder | source-excerpts/backend/modules/order/order.service.ts:264-330 | The pricing loop answers with the rounded sum of the charges exactly when the lines can be ordered. |
| Pricing.PriceIsCharged | source-excerpts/backend/modules/order/order.service.ts:264-330 | Lines have a price exactly when there are some, every product and variant is known, every quantity is at least one and none exceeds the stock shown; the price is the rounded sum of quantity times the variant's own price, or the product's. |
| Pricing.RefusalIs | source-excerpts/backend/modules/order/order.service.ts:218-316 | Otherwise the refusal is of an empty list, of an unknown product anywhere, or of the first bad line, for its quantity, its variant or its stock. |
| OrderTotals.EveryOrderCharged | source-excerpts/backend/modules/order/order.service.ts:332-345 | In every run every order, whatever happens to it later, carries the lines of one createOrder call of that run, their rounded sum at the prices of that call's catalogue, and that total in Bs at the call's rate to half a cent. |
| OrderService.OrderService.CreateOrder | source-excerpts/backend/modules/order/order.service.ts:209-652 | One uninterrupted call is a run of the events of `Orders`; it succeeds exactly when the lines can be ordered, the shelf holds what they add up to and the document is saved. The order has the rounded sum of the charges, its Bs to half a cent and its first status; otherwise stock and orders are as they were. |
| OrderService.OrderService.ReserveStock | source-excerpts/backend/modules/order/order.service.ts:544-565 | The decrement loop takes every operation, or gives everything back, and then the list asked for more of some article than there was. |
| OrderService.OrderService.RollbackStock | source-excerpts/backend/modules/order/order.service.ts:1667-1699 | Compensation restores exactly the stock before the call. |
| OrderService.OrderService.RestoreOrderStock | source-excerpts/backend/modules/order/order.service.ts:1706-1729 | Every line is given back to its product, variant lines included. |
| OrderService.OrderService.SaveOrder | source-excerpts/backend/modules/order/order.service.ts:567-650 | Number, document and compensation: success exactly when the document is saved, and the saved order carries the call's lines and totals. |
| OrderService.OrderService.SubmitPagomovil | source-excerpts/backend/modules/order/order.service.ts:732-826 | The call is the Submit event, refused exactly when that event is not enabled. |
| OrderService.OrderService.VerifyPagomovil | source-excerpts/backend/modules/order/order.service.ts:861-956 | The call is the Verify event. It is accepted exactly when the payment is under review and, to approve without force, the declared amount is within two percent of the total in Bs where both are known. |
| OrderService.OrderService.ConfirmCashPayment | source-excerpts/backend/modules/order/order.service.ts:1042-1120 | The call is the ConfirmCash event; the audit row, when it is written, carries the total in USD for cash and in Bs for a debit card. |
| OrderService.OrderService.UpdateOrderStatus | source-excerpts/backend/modules/order/order.service.ts:1197-1262 | The call is the UpdateStatus event, refused exactly when the machine has no such edge. |
| OrderService.OrderService.ExpireStaleOrders | source-excerpts/backend/modules/order/order.service.ts:1580-1614 | The sweep is a run of Expire events, one per order found; every other order is untouched. |
| ClosingSummary.GroupedSums | source-excerpts/backend/modules/payment/payment-transaction.service.ts:404-413 | Counting and adding over the grouped rows is counting and adding over the raw transactions, for any choice of method and status. |
| ClosingSummary.BuildClosingSummary | source-excerpts/backend/modules/payment/payment-transaction.service.ts:415-463 | The fold over grouped rows gives the totals per status and, sorted by count, each method once with its count and rounded sums. |
| ClosingSummary.ClosingSummary | source-excerpts/backend/modules/payment/payment-transaction.service.ts:382-464 | For any order of the grouped rows the result is the direct summary of the transactions; the total is approved + rejected + pending and the sum of the method counts. |
| ClosingSummary.SummaryDetermined | source-excerpts/backend/modules/payment/payment-transaction.service.ts:445-454 | The order in which the rows arrive can only change the order of methods with equal counts. |
| ClosingSummary.DrawerAgreesWithOrders | source-excerpts/backend/modules/payment/payment-transaction.service.ts:382-464 | Over every audited run, for any period and with or without the method filter, the approved amount shown for a method is the rounded sum over the tenant's orders paid by it in the period: USD totals for cash, Bs totals for debit, declared Bs for PagoMovil. |
| Csv.RoundTripIff | source-excerpts/backend/modules/payment/payment-transaction.service.ts:359-364 | A reader for section 2 of RFC 4180 recovers the exported table if and only if every row has a column and the last row is not one empty field. |
| Csv.TwoColumnsRoundTrip | source-excerpts/backend/modules/analytics/analytics.service.ts:249-254 | Tables whose rows have two or more columns always come back, whatever text they hold. |
| Csv.ExportInjective | source-excerpts/backend/modules/analytics/analytics.service.ts:937-942 | Two different such tables never print the same file. |
| Csv.QuotedBack | source-excerpts/backend/modules/payment/payment-transaction.service.ts:525-530 | A quoted field is read back whole and the reader stops right after it. |
| ConfigMerge.MergeOne | source-excerpts/backend/modules/tenant/tenant-config.service.ts:96-114 | The inner loop, key by key and recursive, computes the two-argument merge. |
| ConfigMerge.DeepMerge | source-excerpts/backend/modules/tenant/tenant-config.service.ts:90-117 | deepMerge with many sources is the left fold of the two-argument merge. |
| ConfigMerge.MergeIdempotent | source-excerpts/backend/modules/tenant/tenant-config.service.ts:90-117 | Merging the same patch again changes nothing. |
| ConfigMerge.UntouchedKept | source-excerpts/backend/modules/tenant/tenant-config.service.ts:90-117 | Every path the patch does not touch keeps its value, or its absence. |
| ConfigMerge.PatchWins | source-excerpts/backend/modules/tenant/tenant-config.service.ts:111-113 | Every leaf of the patch is read back from the result. |
| ConfigMerge.AbsorbedIff | source-excerpts/backend/modules/tenant/tenant-config.service.ts:90-117 | A patch swallows a configuration whole if and only if it covers its key paths. |
| ConfigMerge.AssociativeIff | source-excerpts/backend/modules/tenant/tenant-config.service.ts:90-117 | deepMerge is associative on three trees if and only if no object-leaf-object clash loses a key. |
| ConfigMerge.MergeAllKeys | source-excerpts/backend/modules/tenant/tenant-config.service.ts:94-116 | The keys of the result are the keys of target and sources together. |
| TenantConfig.TenantConfigService.GetEffective | source-excerpts/backend/modules/tenant/tenant-config.service.ts:137-194 | Defaults, then the legacy fields of the tenant, then the active snapshot without bookkeeping keys. |
| TenantConfig.TenantConfigService.Update | source-excerpts/backend/modules/tenant/tenant-config.service.ts:235-371 | Stopped after any prefix of its three writes, update leaves exactly the database of that prefix, and returns the merged configuration. |
| TenantConfig.InvisibleUntilSaved | source-excerpts/backend/modules/tenant/tenant-config.service.ts:250-317 | Stopping before tenant.save leaves the effective configuration and the tenant as they were. |
| TenantConfig.AtMostOneActive | source-excerpts/backend/modules/tenant/tenant-config.service.ts:250-268 | After any sequence of updates, each stopped anywhere, at most one snapshot is active. |
| TenantConfig.NoneActiveBeforeCreate | source-excerpts/backend/modules/tenant/tenant-config.service.ts:250-268 | After the first write no snapshot is active, strays of earlier failures included, so the unique index admits the new one. |
| ReadYourWrites.ReadYourWrites | source-excerpts/backend/modules/tenant/tenant-config.service.ts:235-371 | After any sequence of allowed patches, interrupted or not, the next complete update reads back everything it returns, through defaults, mirrored legacy fields and stored snapshot. |
| ReadYourWrites.ReadYourWritesShipped | source-excerpts/backend/modules/tenant/tenant-config.service.ts:21-85 | The same for DEFAULT_CONFIG and every tenant without an active configuration, whatever its legacy documents hold. |
| ReadBack.ReadsBackIff | source-excerpts/backend/modules/tenant/tenant-config.service.ts:137-194 | Told from before the call: from any state whose defaults can all be read and for any patch without metadata keys, update reads back what it returned if and only if merging the patch into the effective configuration loses nothing of the defaults, or of the legacy order modes that survive the call. |
| ReadBack.ReadsBackInRunsIff | source-excerpts/backend/modules/tenant/tenant-config.service.ts:235-371 | The same condition, exact after every run of updates of any tenant without an active configuration, each stopped anywhere and with any patches free of metadata keys. |
| ReadBack.ReplacedSectionReturns | source-excerpts/backend/modules/tenant/tenant-config.service.ts:193 | The run of two updates of a new tenant: a plain value in place of a default section, then an object without one of its keys. The second update is not read back. |
| ConfigStamps.VersionsCount | source-excerpts/backend/modules/tenant/tenant-config.service.ts:266-318 | After every sequence of updates, each stopped anywhere, the tenant's version has counted the complete ones, and its active snapshot carries that version and its hash. |
| ConfigStamps.CompleteStamps | source-excerpts/backend/modules/tenant/tenant-config.service.ts:266-318 | A complete update raises the version by one and points the tenant to the snapshot it wrote, active and signed by who changed it. |
| ConfigStamps.BookingSettingsMirrored | source-excerpts/backend/modules/tenant/tenant-config.service.ts:350-359 | After every such run, when the effective configuration has booking settings, the tenant document has the same ones. |
| JsValues.ModulesMirrored | source-excerpts/backend/modules/tenant/tenant-config.service.ts:337-349 | A falsy modules section (missing, null, false, zero, empty text) leaves the tenant's modules alone; any other is copied without _id. |
| JsValues.EntriesOfArray | source-excerpts/backend/modules/tenant/tenant-config.service.ts:341-345 | An array in that place is seen as the object of its positions, written in decimal. |
| ReadYourWrites.RunStaysSound | source-excerpts/backend/modules/tenant/tenant-config.service.ts:319-359 | Allowed patches never leave a leaf where the defaults have a section, in the snapshot or in the mirrored fields. |
| ReadYourWrites.ShippedDefaultsQualify | source-excerpts/backend/modules/tenant/tenant-config.service.ts:21-85 | DEFAULT_CONFIG has the sections that update mirrors and no metadata keys. |
| Sessions.OneLiveAccess | source-excerpts/backend/modules/auth/refresh-token.service.ts:119-138 | At every instant of every run of whole calls at most one access token of a session is accepted, for any lifetimes. |
| Sessions.AcceptedIsCurrentIff | source-excerpts/backend/modules/auth/refresh-token.service.ts:192-211 | An accepted access token is always the current one of a live session, over all runs, if and only if refresh tokens live at least as long as access tokens. |
| Sessions.RevokedForever | source-excerpts/backend/modules/auth/refresh-token.service.ts:145-173 | After a logout that found its session, no access token of it is accepted in any continuation. |
| Sessions.HonouredIff | source-excerpts/backend/modules/auth/refresh-token.service.ts:85-117 | A refresh is honoured exactly when it is the current one of a live session; every other is simply unknown and changes nothing, so the reuse and closed-session branches are never taken by whole calls. |
| Sessions.ReplayChangesNothing | source-excerpts/backend/modules/auth/refresh-token.service.ts:106-117 | A rotated refresh presented at any later time is refused as unknown and leaves the session open. |
| Sessions.RunKeeps | source-excerpts/backend/modules/auth/refresh-token.service.ts:203-236 | Over every run refresh lookups and families name each other one to one with the same end, and every token but the current one is expired or blacklisted to its end. |
| SessionLifetime.PairLifetime | source-excerpts/backend/modules/auth/refresh-token.service.ts:77-153 | From every run: the pair a login or a rotation gives is good in every continuation, the access token and the refresh each for exactly its own lifetime from that instant, unless a call presented the refresh while it was good; from then on neither is. |
| SessionLifetime.LeftAlone | source-excerpts/backend/modules/auth/refresh-token.service.ts:203-210 | A pair whose refresh nobody presents lives out both lifetimes, whatever happens to other sessions. |
| Sessions.RefreshTokenService.RotatePair | source-excerpts/backend/modules/auth/refresh-token.service.ts:77-139 | The method, command by command, is the specified rotation, or Unavailable without Redis. |
| Sessions.RefreshTokenService.IssueTokenPair | source-excerpts/backend/modules/auth/refresh-token.service.ts:62-72 | Login mints the first pair of a new session. |
| Sessions.RefreshTokenService.RevokeSession | source-excerpts/backend/modules/auth/refresh-token.service.ts:145-153 | Logout is the specified revocation, and nothing for an unknown refresh or without Redis. |
| Sessions.RefreshTokenService.MintPair | source-excerpts/backend/modules/auth/refresh-token.service.ts:177-214 | Both keys in one step, with one lifetime. |
| Sessions.RefreshTokenService.DropFamilyKeys | source-excerpts/backend/modules/auth/refresh-token.service.ts:216-236 | revokeFamily: blacklist, drop the current lookup, drop the family. |
| Sessions.RefreshTokenService.IsAccessBlacklisted | source-excerpts/backend/modules/auth/refresh-token.service.ts:161-173 | True exactly while a blacklist entry lives; always false without Redis. |
| Rotations.AloneIsAtomic | source-excerpts/backend/modules/auth/refresh-token.service.ts:77-153 | Run without interruption, the Redis commands of rotate and revoke are the atomic calls, in database and answer. |
| Rotations.ReplacedNeverAccepted | source-excerpts/backend/modules/auth/refresh-token.service.ts:91-117 | However commands interleave, once no family names a refresh as current, no call that reads the family afterwards accepts it. |
| Rotations.OneLiveAccessMidCall | source-excerpts/backend/modules/auth/refresh-token.service.ts:119-138 | While no two rotations of one session overlap before their mint, at most one access token of it is accepted at every instant, also in the middle of calls and whatever logouts do in between. |
| Rotations.OverlapAcceptsTwo | source-excerpts/backend/modules/auth/refresh-token.service.ts:91-133 | Two overlapping rotations of one refresh both succeed and leave two accepted access tokens. |
| OverlappingRotations.OneEachIff | source-excerpts/backend/modules/auth/refresh-token.service.ts:119-138 | Over every interleaving of logins, rotations, logouts and the clock: at most one access token of each session is accepted at every point if and only if no mint runs while one of its session is accepted. |
| OverlappingRotations.StepOneEachIff | source-excerpts/backend/modules/auth/refresh-token.service.ts:119-138 | One command at a time: of all commands only a mint on top of an accepted token breaks it, and that one always does. |
| OverlappingRotations.GuardSuffices | source-excerpts/backend/modules/auth/refresh-token.service.ts:106-133 | If a mint runs only while its session is on record and still names the refresh it was given, at most one access token of each session is accepted at every point of every run. |
| OverlappingRotations.GoneIsNotEnough | source-excerpts/backend/modules/auth/refresh-token.service.ts:216-236 | A run in which every mint finds its session gone or still naming its refresh, and which leaves two accepted access tokens: rotation, logout and a second rotation interleaved. |
| ApiClient.SentAtMostTwice | source-excerpts/frontend/lib/api/client.ts:113-166 | Whatever the server answers: no request is sent more than twice, an auth endpoint never more than once, and there are never more refreshes than requests. |
| ApiClient.RetriesEnd | source-excerpts/frontend/lib/api/client.ts:123-147 | Every answer and every waking strictly lowers a measure that only a new request raises. |
| RetryOutcome.RetryDecided | source-excerpts/frontend/lib/api/client.ts:127-152 | Over every run, a request that can be retried and gets a 401 is sent exactly twice if the refresh it shares succeeds and exactly once if it fails, for ever; a successful refresh stores both its tokens, and a failed one leaves none after the request's turn. |
| RetryOutcome.LateRetryDecided | source-excerpts/frontend/lib/api/client.ts:61-68 | The same when the shared refresh has been answered and has not settled. |
| RetryOutcome.OtherAnswersAreFinal | source-excerpts/frontend/lib/api/client.ts:113-166 | Any other answer is final: a 401 clears the tokens, anything else leaves them, and the request is not sent again. |
| RetryOutcome.PostsWhatIsStored | source-excerpts/frontend/lib/api/client.ts:40-68 | A 401 shares the refresh in flight or posts the stored token, and a settled refresh is over. |
| RetryOutcome.IssuedIsSent | source-excerpts/frontend/lib/api/client.ts:24-30 | Every request issued is sent, once to begin with. |
| RetryOutcome.TokensStayIff | source-excerpts/frontend/lib/api/client.ts:152-153 | Until the next 401, login or logout stored tokens stay exactly as long as no request woken by an earlier failed refresh has its turn. |
| ApiClient.Client.OnResponse | source-excerpts/frontend/lib/api/client.ts:113-165 | The 401 interceptor up to its await is the specified reply, and posts a refresh exactly when none is in flight. |
| ApiClient.Client.GetOrStartRefresh | source-excerpts/frontend/lib/api/client.ts:61-68 | A refresh in flight is shared; otherwise one is started with the stored token. |
| ApiClient.Client.OnRefreshResponse | source-excerpts/frontend/lib/api/client.ts:40-59 | Success stores both tokens and resolves with the access token, failure resolves with nothing. |
| ApiClient.Client.OnSettled | source-excerpts/frontend/lib/api/client.ts:63-65 | The module variable is cleared and everybody who waited is woken with the same outcome. |
| ApiClient.Client.OnWoken | source-excerpts/frontend/lib/api/client.ts:137-150 | A new token resends the request, none clears the stored tokens. |
| Coalescing.OneRefreshInFlight | source-excerpts/frontend/lib/api/client.ts:33-68 | One tab and the interleaved server together: at most one call is busy with a session of the tab. |
| Coalescing.PostsTheCurrentOne | source-excerpts/frontend/lib/api/client.ts:40-51 | Whenever the tab posts a refresh, its session, if still on record, names exactly that token. |
| Coalescing.NeverSuspected | source-excerpts/backend/modules/auth/refresh-token.service.ts:106-117 | The tab's refresh never enters the reuse branch, and is refused only when its session is over on the server. |
| Projections.TabAlone | source-excerpts/frontend/lib/api/client.ts:33-166 | In every history of tab and server the tab is in a state it reaches alone, by what it sees of that history, so every result about the tab for any answers holds with this server. |
| Projections.ServerAlone | source-excerpts/backend/modules/auth/refresh-token.service.ts:77-236 | Every event of such a history moves the server by its own steps, at most one; a logout of the tab revokes the session of the stored refresh. |
| BookingSlots.GenerateSlots | source-excerpts/backend/modules/booking/booking.service.ts:266-282 | The while loop yields exactly the specified slots. |
| BookingSlots.BackToBack | source-excerpts/backend/modules/booking/booking.service.ts:266-282 | They number floor((end − start) / duration), lie back to back from the opening to the closing time, and one more would not fit. |
| BookingSlots.GetAvailableSlots | source-excerpts/backend/modules/booking/booking.service.ts:212-285 | Errors, days off and slots of one professional, as specified by `View`. |
| BookingSlots.FreeMeans | source-excerpts/backend/modules/booking/booking.service.ts:248-272 | A slot is shown taken exactly when an appointment not called off starts there inside the window the query reads. |
| BookingSlots.TruthfulIff | source-excerpts/backend/modules/booking/booking.service.ts:243-264 | The day view tells free from booked for every set of appointments if and only if its slots lie inside the server's calendar day of that date. |
| BookingSlots.EveningSlotShownFree | source-excerpts/backend/modules/booking/booking.service.ts:248-260 | Caracas with a server in UTC: a booked 20:00 slot is shown free. |
| BookingSlots.TimeTextOrdered | source-excerpts/backend/modules/booking/booking.service.ts:618-622 | Sorting by "HH:MM" text is sorting by time, and equal texts are equal minutes. |
| DayView.ViewIs | source-excerpts/backend/modules/booking/booking.service.ts:231-284 | On a day worked the slots are the steps of the duration from opening to closing in the tenant's zone, as many as fit; one is shown taken exactly when an appointment not called off starts there on that calendar day of the server. A day off, blocked or without times of day has none. |
| DayView.ViewRefused | source-excerpts/backend/modules/booking/booking.service.ts:219-231 | The view is refused exactly for a professional the tenant does not have and for a malformed date. |
| Weekdays.WeekdayIs | source-excerpts/backend/modules/booking/booking.service.ts:573-585 | The weekday by which opening hours are looked up is that of the civil date, by Sakamoto's rule for every date. |
| BookingCalendar.AnySlots | source-excerpts/backend/modules/booking/booking.service.ts:356-423 | The union lists each time any professional works once, in order, free exactly when somebody is, assigned to the first such. |
| BookingCalendar.UnionDetermined | source-excerpts/backend/modules/booking/booking.service.ts:418-422 | There is only one such list. |
| BookingCalendar.StaffAre | source-excerpts/backend/modules/booking/booking.service.ts:126-147 | It covers exactly the tenant's active professionals, those who offer the service when one is asked for. |
| BookingCalendar.TimesDistinct | source-excerpts/backend/modules/booking/booking.service.ts:396-407 | One professional's day lists no time twice. |
| BookingCalendar.CalendarAvailability | source-excerpts/backend/modules/booking/booking.service.ts:294-349 | The month lists, in order, exactly the dates not past on which somebody has a free slot. |
| BookingCalendar.CalendarAgrees | source-excerpts/backend/modules/booking/booking.service.ts:319-346 | A date not past is in the calendar exactly when its daily union has a free entry. |
| DoubleBooking.NoneTwiceIff | source-excerpts/backend/modules/booking/booking.service.ts:488-508 | Over every run of booking and payment calls: no two scheduled, confirmed or in-progress appointments of a professional share a start, at every point, if and only if no updateStatus makes one upcoming at a slot where another already is. |
| DoubleBooking.NoDoubleBooking | source-excerpts/backend/modules/order/order.service.ts:456-467 | In particular over every run of creates, reschedules, cancellations, reminders and payment calls. |
| DoubleBooking.StepApartIff | source-excerpts/backend/modules/booking/booking.service.ts:461-547 | One call keeps standing appointments (all but cancelled and no_show) apart if and only if it is not a create that overlooks one, nor a payment call that brings one back to a slot taken meanwhile. |
| DoubleBooking.CreateKeepsIff | source-excerpts/backend/modules/order/order.service.ts:456-467 | A successful create keeps standing appointments apart if and only if none stands at its slot outside the statuses its filter looks at: rescheduled, reminder_sent, pending, completed, pending_verification or paid, among others. |
| DoubleBooking.AlwaysApartIff | source-excerpts/backend/modules/order/order.service.ts:740-956 | Standing appointments are apart at every point of a run of booking and payment calls if and only if no call of it overlooks or revives one in that way. |
| DoubleBooking.ConfirmedTwice | source-excerpts/backend/modules/order/state-machines/booking.machine.ts:18-36 | A run that confirms two appointments of one professional at one start. |
| DoubleBooking.RevivedBySubmit | source-excerpts/backend/modules/order/order.service.ts:740-803 | A run in which no create overlooks anything: an appointment is cancelled, its slot is given away, and submitPagomovil brings it back. |
| DoubleBooking.RevivedByApproval | source-excerpts/backend/modules/order/order.service.ts:861-956 | The same through the review: submitted, cancelled, the slot given away, then approved. |
| DoubleBooking.FreeSlotIsSafe | source-excerpts/backend/modules/booking/booking.service.ts:252-284 | A create at a slot the day view shows free, inside the window that view reads, overlooks nothing and keeps appointments apart. |
| DoubleBooking.IntervalsDisjoint | source-excerpts/backend/modules/booking/booking.service.ts:266-282 | Over every run without status moves whose starts are slots of one grid of slots, upcoming appointments of one professional have disjoint intervals. |
| Appointments.BookingService.CreateBooking | source-excerpts/backend/modules/order/order.service.ts:449-496 | Conflict check, professional check and the new scheduled booking. |
| Appointments.BookingService.RescheduleBooking | source-excerpts/backend/modules/booking/booking.service.ts:461-516 | Token check, conflict check without itself, and the moved booking. |
| Appointments.BookingService.CancelBooking | source-excerpts/backend/modules/booking/booking.service.ts:518-547 | Token check, then cancelled. |
| Appointments.BookingService.SendReminders | source-excerpts/backend/modules/booking/booking.service.ts:55-122 | Exactly the due bookings move to reminder_sent, and the count is theirs. |
| BookingTokens.RemindersAre | source-excerpts/backend/modules/booking/booking.service.ts:52-64 | Exactly the scheduled and confirmed bookings that start in 23 to 25 hours are reminded; every other order stays as it was. |
| BookingTokens.RemindersCounted | source-excerpts/backend/modules/booking/booking.service.ts:81-114 | The count is the number of bookings it changed. |
| BookingTokens.OnlyItsTokenCancels | source-excerpts/backend/modules/booking/booking.service.ts:431-458 | In every run after its creation a booking is cancelled by a presented token exactly when it is the one it was created with; a call without token is the administrator's and always cancels; a refused one changes nothing. |
| BookingTokens.OnlyItsTokenReschedules | source-excerpts/backend/modules/booking/booking.service.ts:461-508 | The same for moving it, and then to a slot at which no other booking stands. |
| BookingTokens.CreationIff | source-excerpts/backend/modules/order/order.service.ts:449-496 | A booking is accepted exactly when the professional offers the service and the tenant has no order scheduled, confirmed or in progress with that professional at that start. |
| BookingPayments.SubmitsAgree | source-excerpts/backend/modules/order/order.service.ts:740-803 | submitPagomovil does to an appointment what it does to any order of `Orders`, accepted and refused alike. |
| BookingPayments.VerificationsAgree | source-excerpts/backend/modules/order/order.service.ts:861-956 | So does verifyPagomovil, with its amount guard. |
| BookingPayments.TillsAgree | source-excerpts/backend/modules/order/order.service.ts:1042-1093 | So does confirmCashPayment. |
| BookingPayments.ExpiriesAgree | source-excerpts/backend/modules/order/order.service.ts:1580-1614 | So does one step of expireStaleOrders. |
| Quotations.FiguresAddUp | source-excerpts/backend/modules/quotations/quotations.service.ts:441-447 | Total = subtotal + IVA and subtotal = materials + labour exactly, all in whole cents. |
| Quotations.SumsAreRounded | source-excerpts/backend/modules/quotations/quotations.service.ts:423-439 | Materials are the rounded sum of the given subtotals or quantity times unit price, labour of the given subtotals, hours times rate where neither is missing or zero, or the fixed price. |
| Quotations.UnitsAre | source-excerpts/backend/modules/quotations/quotations.service.ts:49 | Stored items are the given ones, with "unidad" where no unit was said. |
| Quotations.RoundingBound | source-excerpts/backend/modules/quotations/quotations.service.ts:423-447 | IVA within 0.005 of the exact rate on the subtotal; total within 0.015 + 0.0001·|rate| of the amount nobody rounded, for any lines. |
| Quotations.BoundIsTight | source-excerpts/backend/modules/quotations/quotations.service.ts:423-447 | The bound is reached. |
| Quotations.Quotation.ApplyUpdate | source-excerpts/backend/modules/quotations/quotations.service.ts:125-187 | A partial update of any stored quotation leaves totals that are those of the stored lines and tax, repairing them where they were not, and leaves every field not given. |
| Quotations.Quotation.constructor | source-excerpts/backend/modules/quotations/quotations.service.ts:26-68 | A new quotation stores totals that match its lines, with 16% when no rate is given. |
| Rates.AnswersAreFresh | source-excerpts/backend/modules/bcv-rate/bcv-rate.service.ts:90-166 | After any run and whatever the upstream does, getCurrent answers, and an answer not marked stale is a bank rate fetched less than an hour ago or a manual one set less than a week ago. |
| Rates.SnapshotsAreFresh | source-excerpts/backend/modules/bcv-rate/bcv-rate.service.ts:307-414 | The same for every currency of the snapshot: an hour, or a week for the dollar. |
| Rates.OverrideHolds | source-excerpts/backend/modules/bcv-rate/bcv-rate.service.ts:191-223 | A manual override is what getCurrent answers at every instant of its time to live, however often all rates are read or refreshed, until a refresh or another override. |
| RateLifecycle.FetchedLives | source-excerpts/backend/modules/bcv-rate/bcv-rate.service.ts:90-166 | A rate fetched from the bank is what getCurrent answers for an hour; then a live upstream is preferred to it, else it is answered as stale to the end of a week, and 36 Bs afterwards, at every instant of every run that does not replace it. |
| RateLifecycle.OverrideLives | source-excerpts/backend/modules/bcv-rate/bcv-rate.service.ts:191-223 | The same for a rate set by hand, for its hours to the second and without the stale mark. |
| RateLifecycle.MarketLives | source-excerpts/backend/modules/bcv-rate/bcv-rate.service.ts:345-414 | The same for the other currencies, with their own fallbacks. |
| RateLifecycle.NothingKept | source-excerpts/backend/modules/bcv-rate/bcv-rate.service.ts:275-297 | Without Redis every answer is the upstream's or the fallback. |
| RateLifecycle.OutOfBoundsIgnored | source-excerpts/backend/modules/bcv-rate/dto/override-bcv-rate.dto.ts:25-40 | An override outside 1 to 10000 Bs or 1 to 168 hours changes nothing. |
| RateLifecycle.DollarIsCurrent | source-excerpts/backend/modules/bcv-rate/bcv-rate.service.ts:345-366 | The dollar of the snapshot is the current rate with a coarser source. |
| Rates.DollarRefreshIsDead | source-excerpts/backend/modules/bcv-rate/bcv-rate.service.ts:318-342 | refreshAllRates stores the dollar under keys that no answer depends on: not the snapshot read now, nor any after any later run. |
| Rates.BcvRateService.ReadCurrent | source-excerpts/backend/modules/bcv-rate/bcv-rate.service.ts:90-166 | Cache, upstream, last known, fallback, in that order. |
| Rates.BcvRateService.ForceRefresh | source-excerpts/backend/modules/bcv-rate/bcv-rate.service.ts:168-181 | A fetched rate overwrites both keys; a failure changes nothing. |
| Rates.BcvRateService.Override | source-excerpts/backend/modules/bcv-rate/bcv-rate.service.ts:191-223 | Both keys, with the rounded time to live and a week. |
| Rates.BcvRateService.ReadMarket | source-excerpts/backend/modules/bcv-rate/bcv-rate.service.ts:345-414 | The other currencies under their own keys, the dollar through getCurrent. |
| Rates.BcvRateService.RefreshAllRates | source-excerpts/backend/modules/bcv-rate/bcv-rate.service.ts:318-342 | Every source is fetched and stored, then all are read. |
| BusinessDate.BusinessDateIsShifted | source-excerpts/backend/common/utils/business-date.util.ts:34-47 | In a fixed-offset zone with hours 0 to 23, the business date is the civil date of the local instant minus the cut-off, through month ends, new year and leap days. |
| BusinessDate.ShiftedIff | source-excerpts/backend/common/utils/business-date.util.ts:34-47 | For every instant, before 1970 as well, exactly unless the date has to step back in one of the years 0 to 99. |
| BusinessDate.MidnightIff | source-excerpts/backend/common/utils/business-date.util.ts:25-41 | Where an engine writes midnight as hour 24, that holds if and only if there is no cut-off or it is not the first local hour. |
| BusinessDate.Monotone | source-excerpts/backend/common/utils/business-date.util.ts:18-48 | Later instants never have an earlier business date. |
| BusinessDate.SerialOfCivil | source-excerpts/backend/common/utils/business-date.util.ts:43-44 | Counting days one by one agrees with the leap-year formula behind Date.UTC. |
| BusinessDate.CivilOfSerial | source-excerpts/backend/common/utils/business-date.util.ts:43-44 | Every date is the day of its number. |
| BankAccounts.TenantService.DeleteBankAccount | source-excerpts/backend/modules/tenant/tenant.service.ts:480-509 | The delete, with its guard and the flag set through the list of active accounts, is the specified one. |
| BankAccounts.TenantService.Repair | source-excerpts/backend/modules/tenant/tenant.service.ts:498-502 | The flag set on an object of one list is read back from the other: exactly the sole active account becomes the default. |
| BankAccounts.TenantService.AddBankAccount | source-excerpts/backend/modules/tenant/tenant.service.ts:313-363 | The list the specification adds to, or the plan limit error. |
| BankAccounts.TenantService.UpdateBankAccount | source-excerpts/backend/modules/tenant/tenant.service.ts:365-389 | The first account with the id is edited; its default flag stays. |
| BankAccounts.TenantService.SetDefaultBankAccount | source-excerpts/backend/modules/tenant/tenant.service.ts:391-416 | Exactly the accounts with the id are default. |
| BankAccounts.IdsDistinct | source-excerpts/backend/modules/tenant/tenant.service.ts:334-336 | Ids stay distinct over every run. |
| BankAccounts.AtMostOneDefault | source-excerpts/backend/modules/tenant/tenant.service.ts:313-416 | Over every run that leaves isActive alone there is at most one default. |
| BankAccounts.ExactlyOneDefault | source-excerpts/backend/modules/tenant/tenant.service.ts:480-509 | Over such runs a list with exactly one default keeps exactly one until it is emptied. |
| BankAccounts.DeleteKeepsIff | source-excerpts/backend/modules/tenant/tenant.service.ts:490-502 | From exactly one default, inactive accounts included, a delete leaves exactly one, or an empty list, if and only if deleting the default leaves an active account and deleting another does not leave one active account beside an inactive default. |
| BankAccounts.InactiveDefaultDoubles | source-excerpts/backend/modules/tenant/tenant.service.ts:498-502 | A run that leaves two default accounts. |
| BankAccounts.WithinLimit | source-excerpts/backend/modules/tenant/tenant.service.ts:320-329 | Under a plan limit the list never grows past it. |
| BankAccountEdits.DeleteIs | source-excerpts/backend/modules/tenant/tenant.service.ts:480-509 | A delete is refused exactly for the default while two accounts are active; otherwise it removes that account and changes at most default flags of the others. |
| BankAccountEdits.UpdateIs | source-excerpts/backend/modules/tenant/tenant.service.ts:365-389 | An update changes what was given, of that account alone. |
| BankAccountEdits.AddIs | source-excerpts/backend/modules/tenant/tenant.service.ts:313-363 | A new account comes last and active, and becomes the only default when asked for, or when it is the first and nothing is said. |
| BankAccountEdits.SetDefaultIs | source-excerpts/backend/modules/tenant/tenant.service.ts:391-416 | Exactly that account becomes the default and nothing else changes. |

## Left out

- Controllers, guards, sockets, push, e-mail, WhatsApp, image storage, text extraction, React components, pagination, arqueo and the analytics aggregations: plumbing or easy members beside the results above.
- Existence and ownership checks that only compare an order's tenant with the caller's, opening hours, scheduled availability, delivery and pickup data, and deposits in createOrder.
- `MenuService`: a decrement applies only when enough is left, a restore is a no-op without tracking; which articles are tracked does not change, and restores succeed. MenuService is not part of this model.
- MongoDB and Redis failures other than the failed counter, the failed document, the lost cash audit and the three writes of a configuration update; Mongoose casting and minimising; the `__proto__` key.
- Interleavings of verify, cancel and expire on one order: each is one step.
- IEEE doubles: amounts are reals. Zones have a fixed offset, so daylight saving is not modelled, and clocks tick in whole seconds where keys expire.
- Random ids and tokens are fresh numbers, and a hash stands for its token; parseTtl and the user data in the tokens are not modelled, nor the corrupt-JSON branches.
- Lost responses, several tabs and a logout overlapping a refresh on the client; redirects and trace ids. Requests woken by one refresh have their turns at any later time; the browser runs them before the next answer.
- cancelBooking and rescheduleBooking in the stock flow: they accept orders of any archetype and restore no stock, so "every run" of the stock results leaves those calls out, for food and retail orders as well.
- The two percent guard of verifyPagomovil is part of `Orders`; for appointments whether it passes is a parameter, which BookingPayments.VerificationsAgree ties to it.
- Slot durations of zero or less, for which the slot loop does not end, and fractions of a minute; which calendar day a text like 30 February parses to.
- The cancellation token is compared as text, not as hexadecimal bytes in constant time.
- Text fields of quotations and accounts other than one that stands for them, e-mails and numbering of quotations.
- getAllRates and refreshAllRates treat the sources one after another, since each has its own keys.
- setBankAccountQr and clearBankAccountQr: they edit fields that no invariant mentions.
- LedgerAgreement.LedgerAgrees: assumes the cash audit rows were written, because the service writes them as best effort; ApprovedEntryMeansPaid is the part that needs no such assumption.
- StockConservation.StockAccounted: requires a settled machine, because the service does not keep the stock under others; AccountedIffSettled shows that the requirement is exact.
- Rotations.OneLiveAccessMidCall: requires that rotations of one session do not overlap, because overlapping ones leave two accepted tokens; OverlappingRotations.OneEachIff gives the exact condition.
- ReadYourWrites.ReadYourWrites: requires patches that keep object sections as objects and carry no metadata keys; ReadBack.ReadsBackInRunsIff gives the exact condition without the first requirement.
- ReadBack.ReadsBackIff: requires patches without metadata keys, because the snapshot drops those keys on read by design.
