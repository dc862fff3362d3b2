# Verified model of the multi-tenancy package

A Dafny 4.11 model of the stateful parts of a multi-tenancy package for AdonisJS, with proofs. Verify it with
`dafny verify dfyconfig.toml`.

**Stripe billing.** A webhook delivery inserts a ledger row and dispatches a job; the job runs the event's handler on
a subscription mirror and a plan table; an operator can replay it; an aged-out event is rebuilt from a stripped copy.

- `Json`, `StripeEvent`: JSON values, and the field-by-field copy that is stored.
- `BillingErrors`, `Billing`, `BillingStore`: the handlers as functions on the tables, and as methods that assign fields.
- `Replay`: the rebuilt copy acts like the event. `DeliveryOrder`: the five-second guard over whole runs.
  `Reconcile`: the sync command.
- `EventMeaning`, `StripList`, `ReconcileMeaning`: what events, stored copies and the sync command come to, told of the
  JSON and the tables.
- `Ledger`, `LedgerStore`, `Attempts`: deliveries, jobs, hooks and replays as interleaving steps, the methods that take
  them, and what each attempt comes to.
- `SyncRace`, `RaceExact`, `SubscriptionRace`, `Overlap`: overlapping syncs of one subscription, from await to await, and
  exactly when the newest event prevails.
- `HandlerSteps`, `Pipeline`, `InFlight`, `AgedHandlers`, `EndToEnd`, `Overtaken`: the ledger driving the handlers from
  await to await; when an acknowledged event is a shown event, and a run in which it is lost.
- `Metering`, `MeteringMeaning`: usage reports against Stripe's idempotency cache, among others and alone.

**SQL import.** `JsText`, `SqlLexer`, `SqlSplitter`, `SqlReading`, `SqlRoundTrip`, `SqlLiterals` (the statement
splitter), `SqlScript` (what it returns, told of the text), `SqlTagged` (COPY blocks), `SqlImport` (savepoint per
statement), `SqlShapes` (the patterns for headers and skipped statements). The lexer has the code's own five states: no
nested comments, no double-quoted identifiers, and `/*/` closes a comment.

**Quotas and plans.** `Quota` and `QuotaKeys` (rolling-day counters in Redis), `PlanCache` (the 60-second cache over the
plan table).

**Bounded state.** `TenantConnections` (LRU), `RateLimiter` (sliding window), `UsageBridge` (usage aggregator),
`RowScope`, `RowMeaning` and `ScopedModel` (row scoping), `ScopeBracket` (enter and leave).

Where the code updates fields step by step, a class or a method with a loop does so too, and is proved equal to a
function on values; the theorems are about those functions. Database, Redis, queue and Stripe calls are steps that may
fail at the points where the code awaits them; clocks, and which calls fail, are parameters. In the webhook protocol
`syncSubscription` moves from await to await: load and guard, find the plan row, write it, save the mirror row, the saves
writing only the fields changed since their load. `Billing`, `BillingStore`, `DeliveryOrder` and `Reconcile` speak of
handlers that nobody interrupts, which `HandlerSteps.Uninterrupted` shows to be the same steps run at a stretch.

## What the proofs assume

- Jobs of one event id do not overlap: a fatal job saves its status unconditionally
  (src/jobs/process_stripe_event_job.ts:158). Jobs of different events do (examples/api/config/queue.ts:13), and so do
  hooks and replays with everything. The safety of the ledger also assumes that the exhausted-retries hook
  stores its write and that a replay's dispatch is accepted; `Ledger.ReplayIsSafe` and `Ledger.HookIsSafe` say exactly
  when it holds without that.
- The newest event of a subscription is shown only if no older one's handler writes after it has read;
  `SubscriptionRace.ShownExactly` says exactly when, and nothing in the code ensures it
  (`Overtaken.OvertakenNewestIsLost`).
- Calls on a day's quota reach Redis at most a day after that day has ended, and tenant ids have no colon.
- Stripe replays the answer to an idempotency key for the same request body and refuses another body.
- Row-scope programs use few enough ORs, do not write the scope column, do not create rows in another tenant's name or on
  another tenant's key, and save models that carry their row's owner. `RowScope.ScopeReach` and `RowScope.ModelReach` say
  what happens otherwise.
- The release of an evicted connection takes effect with the eviction (src/services/isolation/schema_pg_driver.ts:154).
- The rate limiter's clock does not go backwards, and Redis shares it.
- The registry of bootstrappers does not change while a scope is open.

## Where code and documentation differ

The model follows the code.

- docs/docs/satellites/billing.md:126-137 says that duplicates never dispatch a second job. The code dispatches again
  while the row is pending with no attempts (`Ledger.DuplicateMayDispatchAgain`). Once the row is completed, no further
  job processes the event, unless a hook that had found it pending saves last (`Ledger.CompletedIsFinal`).
- docs/docs/satellites/billing.md:95 describes `gracePeriodDays`; no code reads it.
- The comments at src/services/billing_service.ts:501-522 rely on Stripe to absorb any retry. The request body holds the
  timestamp of the call, so a retry in another second sends another body; `Metering.LoneCallReturns` states when a retry
  succeeds.
- The comment at src/services/billing/redact.ts:130-138 says that the copy flows through the dispatcher unchanged.
  `Replay.ReplayExactly` gives the two shapes of events for which it does not.
- The comment at src/listeners/usage_auto_bridge_listener.ts:53-55 speaks of a timer that exists already; pending
  buckets and timers always have the same keys, so there is none.

## Model

| member | source | states |
|---|---|---|
| `EndToEnd.AcknowledgedNewestIsShown` | src/jobs/process_stripe_event_job.ts:36-123 | main result: over every run of the webhook protocol (deliveries duplicated and reordered, refused dispatches, crashes between any two awaits, failed saves, retries, hooks, replays, handlers of any events overlapping, aged-out events), once the newest event of a subscription, more than 5 s newer than its others, was answered 200 and no job of it is left, its row says failed or the mirror (but for `raw`) and the tenant plan are what it says, if no handler of an older event of the subscription writes them after a newest run that saves has read them |
| `SubscriptionRace.ShownExactly` | src/services/billing_service.ts:350-467 | main result: fix when each overlapping sync of a subscription loads, finds the plan, writes it, saves or dies, and the event times; the mirror ends as the newest event says, whatever the events say, if and only if some run of it saves and no other event saves from that load on; the plan row if and only if some newest run writes it and no other event does from its find on |
| `Overtaken.OvertakenNewestIsLost` | src/services/billing_service.ts:351-467 | for any two events of a mirrored subscription, the older in order and of another second than the row, such a loss happens: the older passes the guard, the newer comes and goes, the older writes; both are answered 200, completed and done with, and the row has the older time and the tenant the older plan |
| `InFlight.RunRel` | src/services/billing_service.ts:350-467 | what any protocol run does to one subscription, among arbitrary other events that do not write its mirror row or plan, is a race of that subscription alone |
| `EndToEnd.ClearIsShown` | src/services/billing_service.ts:350-467 | the two exact conditions of the race, in the protocol: a clear mirror row is shown, and so is a clear plan |
| `EndToEnd.SerialIsUnhindered` | src/services/billing_service.ts:351-353 | when no two handlers of the subscription overlap, in whatever order its events come, the condition of the first row holds |
| `HandlerSteps.Uninterrupted` | src/services/billing_service.ts:324-470 | the handler from await to await, run at a stretch, is the handler in one step: same tables, notices and outcome |
| `Overlap.OneAtATimeIsUnhindered` | src/services/billing_service.ts:351-353 | one run at a time, and events more than five seconds apart: nothing writes after the newest save |
| `SyncRace.RowClearShows` | src/services/billing_service.ts:424-467 | saves write only changed fields; still a clear race leaves exactly the row that the newest event wants |
| `AgedHandlers.AgingChangesNothing` | src/services/billing_service.ts:603-630 | whether any attempt works on the event from Stripe or on its rebuilt copy changes neither the ledger, nor which handlers end well, nor any table but `raw`, whatever overlaps |
| `EndToEnd.RetrieveEvent` | src/services/billing_service.ts:603-630 | the stored copy is used exactly when Stripe says the event is gone and the copy can be rebuilt; every other failure comes out unchanged |
| `EndToEnd.AgedOutIsReplayed` | src/services/billing/redact.ts:206-230 | what the webhook stored is always rebuildable, and gives the event with its object projected |
| `Pipeline.AcknowledgedIsApplied` | src/jobs/process_stripe_event_job.ts:66-89 | in every run, with attempts of different events interleaving at every await and crashing anywhere, an acknowledged event with no work left and a row that is not failed has a completed row and a handler run of its own that ended normally |
| `Pipeline.RunsAgree` | src/jobs/process_stripe_event_job.ts:56-89 | two kinds of handlers that keep a relation between tables and progress and end alike drive the ledger through the same states |
| `Ledger.NoAcknowledgedEventIsLost` | src/controllers/stripe_webhook_controller.ts:63-123 | in every run over any events, in any interleaving, each event answered 200 (and each a worker has touched) is completed, failed, or pending with a live job; completed means its handler ran to the end |
| `Ledger.WorkersSettle` | src/jobs/process_stripe_event_job.ts:36-123 | left alone the workers take only boundedly many steps, and when none is possible an acknowledged event is completed with its handler run, or failed |
| `Ledger.WorkGetsAhead` | src/jobs/process_stripe_event_job.ts:53-89 | each worker step brings a measure of the remaining attempts strictly down |
| `Ledger.StepKeepsSafe` | src/jobs/process_stripe_event_job.ts:36-182 | every step of deliveries, jobs, hook and replay keeps the safety property |
| `Ledger.EventsAreIndependent` | src/controllers/stripe_webhook_controller.ts:63-123 | what becomes of one event in a system run is what its own steps alone make of it |
| `Ledger.CompletedStays` | src/jobs/process_stripe_event_job.ts:106-112 | a step takes a row out of completed if and only if it is a replay that had read it otherwise than pending, or the stored save of a hook that had not found it failed |
| `Ledger.CompletedIsFinal` | src/jobs/process_stripe_event_job.ts:48-51 | a completed event stays completed and is never processed again under all further steps but replays, if and only if no hook is about to save a row that it had found pending |
| `Ledger.HookOverwritesCompleted` | src/jobs/process_stripe_event_job.ts:106-112 | such a hook comes about: it finds the row pending, a second job completes it, and the hook writes failed over it |
| `Ledger.ReplayIsSafe` | src/commands/billing_replay.ts:49-60 | a replay keeps the safety property if and only if its dispatch is accepted, a job is live, its save changes nothing pending, or nobody relies on the row |
| `Ledger.HookIsSafe` | src/jobs/process_stripe_event_job.ts:106-122 | the save of the hook keeps it if and only if it is stored, other work is left, or the row was not waiting for it |
| `Ledger.StrandedStays` | src/controllers/stripe_webhook_controller.ts:84-125 | an event stranded by a refused replay stays so, until replayed by its id, through every redelivery (each answered 200) and every worker step |
| `Ledger.RefusedReplayStrands` | src/commands/billing_replay.ts:49-60 | such a run exists: a fatal failure, a replay, a refused dispatch |
| `Ledger.DuplicateMayDispatchAgain` | src/controllers/stripe_webhook_controller.ts:79-102 | two deliveries before a worker starts queue the event twice, against the documentation |
| `LedgerStore.Backoffice.Handle` | src/controllers/stripe_webhook_controller.ts:63-125 | inserts or finds the row, dispatches when new or untouched, answers 503 exactly when the queue refuses; the new state is the protocol step, other events untouched |
| `LedgerStore.Backoffice.Begin` | src/jobs/process_stripe_event_job.ts:36-54 | takes a queued job; nothing for a missing or completed row, else one more attempt saved, or the job back to the queue when that save throws |
| `LedgerStore.Backoffice.Settle` | src/jobs/process_stripe_event_job.ts:66-89 | the row after an attempt: completed by the first save, completed with an error by the second, failed when fatal, error noted otherwise; says whether the queue sees a throw |
| `LedgerStore.Backoffice.Conclude` | src/jobs/process_stripe_event_job.ts:56-89 | the end of an attempt is the protocol step, also when other steps changed the row meanwhile |
| `LedgerStore.Backoffice.FindBuried` | src/jobs/process_stripe_event_job.ts:99-108 | the find of the exhausted-retries hook: a row that is there and not completed |
| `LedgerStore.Backoffice.Bury` | src/jobs/process_stripe_event_job.ts:109-112 | its save, over a row that may have changed since |
| `LedgerStore.Backoffice.ReplayRow` | src/commands/billing_replay.ts:45-61 | one replay turn: pending, error cleared, attempts kept, one job queued when the queue accepts; nothing when the save throws |
| `LedgerStore.Backoffice.Replay` | src/commands/billing_replay.ts:28-63 | with an id, that event if its row exists; with --all-failed, exactly the failed ones; in order up to the first reset that cannot be saved; with all saves stored every failed event is pending again with its attempts, and queued unless refused, and every other event keeps its state |
| `LedgerStore.Backoffice.Save` | src/jobs/process_stripe_event_job.ts:125-132 | a model save writes only the fields changed since the record was loaded |
| `Attempts.CurableErrors` | src/exceptions/billing_exception.ts:54-106 | the seven codes that a retry may cure, among them an event that comes before its checkout; every other one is fatal |
| `Attempts.AttemptLeaves` | src/jobs/process_stripe_event_job.ts:66-89 | what each end of an attempt leaves in a row that nobody else changed: completed, completed with a note, failed with the error, or the error noted |
| `Attempts.BudgetIsSpent` | src/jobs/process_stripe_event_job.ts:53-89 | an event whose attempts all fail with curable errors is tried and counted exactly as often as the queue allows, and then waits for the hook |
| `Attempts.DeliveryMeans` | src/controllers/stripe_webhook_controller.ts:63-123 | a delivery inserts the row and dispatches, dispatches again while the row is pending and untouched, and else only answers |
| `Attempts.StartMeans` | src/jobs/process_stripe_event_job.ts:36-54 | a worker drops the job of a missing or completed row, counts the attempt, or gives the job back when that save throws |
| `Attempts.HookMeans` | src/jobs/process_stripe_event_job.ts:99-112 | the hook passes a missing or completed row by, and marks the row it found failed with the error |
| `DeliveryOrder.Converges` | src/services/billing_service.ts:350-364 | main result: events of one subscription, the newest more than 5 s ahead of the others, delivered in any order with any repeats and interruptions, end with the mirror and the plan of the newest if and only if the starting row was at most 5 s ahead of it |
| `DeliveryOrder.OrderDoesNotMatter` | src/services/billing_service.ts:350-364 | so any two such runs agree on mirror row and plan row |
| `DeliveryOrder.TwoOrders` | src/services/billing_service.ts:350-364 | for any two events of a subscription and any tables: both orders leave the same mirror row and plan row if and only if the events are more than 5 s apart, ask for the same rows, or the guard drops even the newer |
| `DeliveryOrder.RetryHeals` | src/services/billing_service.ts:451-467 | however often a sync was interrupted, one clean retry leaves the mirror, the plans and the outcome of one clean sync |
| `DeliveryOrder.PerformRowStep` | src/services/billing/stripe_event_dispatcher.ts:195-208 | all three writers of the mirror leave a row alone or write it in order with their event time |
| `DeliveryOrder.DriftBound` | src/services/billing_service.ts:353 | in every run `lastEventAt` is at least its start value minus 5 s per change of the row |
| `DeliveryOrder.DriftTight` | src/services/billing_service.ts:353 | the bound is met for every number of changes |
| `DeliveryOrder.CanceledStays` | src/services/billing/stripe_event_dispatcher.ts:265-279 | in runs without a subscription event for it, a canceled mirror row never changes |
| `Replay.ReplayExactly` | src/services/billing/redact.ts:139-230 | main result: dispatching the rebuilt copy makes the same writes but `raw`, emits the same events and gives the same outcome, in every configuration and state, if and only if the event has neither an empty product id beside a price nor an invoice subscription without an id beside a parent reference |
| `Replay.ReplayPreservesMeaning` | src/services/billing/redact.ts:139-204 | the same for one dispatch, for every event that meets the condition, under every fault |
| `Replay.RunsAlike` | src/services/billing/redact.ts:206-230 | over whole runs, whichever deliveries work on rebuilt copies, the tables agree but for `raw` |
| `Replay.EmptyProductShows` | src/services/billing_service.ts:376-391 | an event with an empty product id beside a price id is told from its copy by the misconfiguration notice |
| `Replay.IdlessSubscriptionShows` | src/services/billing/stripe_event_dispatcher.ts:226-234 | an invoice whose subscription object has no id, beside a parent reference, is told from its copy by the recovered mirror |
| `StripeEvent.ProjectionFixpoint` | src/services/billing/redact.ts:139-204 | stripping a stripped event changes nothing, for every event |
| `StripeEvent.RebuildGivesReplayed` | src/services/billing/redact.ts:206-230 | the stored payload passes the rebuild check unchanged and reads as the projected event |
| `StripeEvent.ReplayableObject` | src/services/billing/redact.ts:139-204 | the object filled field by field holds under each key what the key-by-key projection keeps, for every event family |
| `StripeEvent.ReplayableSubscription` | src/services/billing/redact.ts:143-178 | the subscription branch, items included |
| `StripeEvent.ReplayableInvoice` | src/services/billing/redact.ts:179-192 | the invoice branch, with the subscription id from either place |
| `StripeEvent.ReplayableCheckout` | src/services/billing/redact.ts:193-200 | the checkout branch |
| `StripeEvent.CopyItems` | src/services/billing/redact.ts:155-178 | each item keeps its price id, product id and period, and nothing else |
| `StripList.SubscriptionStripped` | src/services/billing/redact.ts:143-178 | the copy of a subscription has these keys and no others, each text, number, flag and id just as the object has it; of each item only price id, product id and period |
| `StripList.InvoiceStripped` | src/services/billing/redact.ts:179-192 | the same for every kind of invoice, with the id of its subscription |
| `StripList.OthersStripped` | src/services/billing/redact.ts:193-204 | the same for checkout sessions; of anything else only the id |
| `StripList.RebuiltMeans` | src/services/billing/redact.ts:223-230 | a payload is taken, unchanged, exactly when it has texts for id and type and an object or list for the object |
| `BillingStore.Store.AssignPlan` | src/services/quota_service.ts:186-233 | undeclared plans and failed writes change nothing; an equal row is left; else the row is replaced, and the call throws when the cache delete fails |
| `BillingStore.Store.SyncSubscription` | src/services/billing_service.ts:324-470 | customer, guard, plan, plan row, mirror row, in this order and with each early exit: the tables and the outcome are those that the run theorems speak of |
| `BillingStore.Store.ResolvePlan` | src/services/billing_service.ts:366-392 | the mapped plan or the default, with the misconfiguration notice |
| `BillingStore.Store.BuildRow` | src/services/billing_service.ts:424-449 | the mirror row, with period bounds from the item, the subscription, or the event time |
| `BillingStore.Store.HandleCheckoutCompleted` | src/services/billing/stripe_event_dispatcher.ts:73-111 | a customer row is made only for a known mode, tenant and customer, and never overwritten |
| `BillingStore.Store.HandleTrialWillEndEvent` | src/services/billing/stripe_event_dispatcher.ts:147-170 | one trial notice with whole days left, and no write |
| `BillingStore.Store.HandlePaymentSucceededEvent` | src/services/billing/stripe_event_dispatcher.ts:172-218 | a past-due or unpaid mirror recovers when the event is in order; one payment notice |
| `BillingStore.Store.HandlePaymentFailedEvent` | src/services/billing/stripe_event_dispatcher.ts:243-321 | the final attempt marks a live mirror past due when in order and may downgrade the plan; one notice |
| `BillingStore.Store.HandleCustomerDeletedEvent` | src/services/billing/stripe_event_dispatcher.ts:323-335 | the customer row is marked deleted |
| `BillingStore.Store.DispatchStripeEvent` | src/services/billing/stripe_event_dispatcher.ts:50-60 | each event type reaches its handler, the others do nothing |
| `EventMeaning.UpsertTakesThePlan` | src/services/billing_service.ts:366-380 | about dispatching raw JSON: an accepted created, updated, paused or resumed event leaves tenant and mirror row on the plan mapped to the product of the first item, or to its price if the product is unlisted, or on the default plan if neither is |
| `EventMeaning.DeletionTakesTheDefault` | src/services/billing_service.ts:368-369 | an accepted deletion leaves both on the default plan, whatever the items say |
| `EventMeaning.UpsertWarns` | src/services/billing_service.ts:380-391 | the misconfiguration notice, with product and price, exactly when one is named and nothing maps them |
| `EventMeaning.SyncedRow` | src/services/billing_service.ts:424-449 | the row of an accepted event, field by field; no other row and no customer changes |
| `EventMeaning.SyncAnswers` | src/services/billing_service.ts:350-364 | for a known customer: stale, with nothing changed, exactly when the row is over five seconds ahead; else accepted exactly when the plan is declared and the status one of the eight |
| `EventMeaning.NoCustomerNoSync` | src/services/billing_service.ts:332-348 | without a customer row the event throws the error that a retry may cure, and nothing changes |
| `EventMeaning.ItemReads` | src/services/billing_service.ts:370-375 | where product, price and period stand in the JSON, ids bare or expanded |
| `EventMeaning.InvoiceSubscriptionReads` | src/services/billing/stripe_event_dispatcher.ts:226-234 | the two places of an invoice that may name its subscription |
| `EventMeaning.AssignMeans` | src/services/quota_service.ts:186-233 | an undeclared plan or a failed write changes nothing; otherwise the row is there, and only a needed cache delete can fail |
| `EventMeaning.PaymentMeans` | src/services/billing/stripe_event_dispatcher.ts:172-218 | a paid invoice: past due or unpaid turns active unless the row is over five seconds ahead; one notice |
| `EventMeaning.EarlyFailureOnlyTells` | src/services/billing/stripe_event_dispatcher.ts:258-320 | before the last attempt only the notice is sent: plans and mirror stay |
| `EventMeaning.FinalFailureMeans` | src/services/billing/stripe_event_dispatcher.ts:263-320 | the last attempt: past due unless canceled or over five seconds ahead, and the default plan when so configured |
| `EventMeaning.TrialMeans` | src/services/billing/stripe_event_dispatcher.ts:159-168 | the notice counts a started day as a day and a past end as none |
| `EventMeaning.CheckoutLinks` | src/services/billing/stripe_event_dispatcher.ts:90-110 | a tenant that has a customer keeps it; otherwise the customer of the session becomes its own |
| `EventMeaning.OthersAreIgnored` | src/services/billing/stripe_event_dispatcher.ts:50-60 | any other event type changes nothing |
| `Reconcile.SyncFixpoint` | src/commands/billing_sync.ts:82-161 | main result: after a clean run whose clock was nowhere more than 5 s behind a drifted row, every scanned subscription matches, no plan in scope is an orphan, and a second run over the same listing changes nothing |
| `Reconcile.ForwardMatches` | src/commands/billing_sync.ts:82-115 | after a clean forward pass a scanned subscription matches if and only if it did before or the guard let its repair through |
| `Reconcile.ReverseLeaves` | src/commands/billing_sync.ts:128-161 | the reverse pass leaves exactly the orphans whose assignment failed, and the mirror as it was |
| `Reconcile.ForwardPass` | src/commands/billing_sync.ts:82-115 | the loop repairs as the pass is specified, with exact counts of what differs, what was repaired and what threw; a dry run changes nothing |
| `Reconcile.ReversePass` | src/commands/billing_sync.ts:124-161 | the plan table after the pass; orphans, repairs and errors are counted exactly, an orphan whose row was written but whose cache entry was not deleted as an error |
| `Reconcile.SyncCommand` | src/commands/billing_sync.ts:43-180 | the tables and all six counters of the summary, dry or not |
| `Reconcile.ReportedErrors` | src/commands/billing_sync.ts:107-161 | no errors are reported if and only if no forward repair threw and every orphan was repaired |
| `ReconcileMeaning.ReverseMeans` | src/commands/billing_sync.ts:128-161 | a plan goes to the default exactly when it claims Stripe, is not the default, is in scope, and no mirror row of the tenant is in one of the five live statuses; a failing write leaves it |
| `ReconcileMeaning.PassGrows` | src/commands/billing_sync.ts:82-115 | one more subscription: left alone when its status agrees, else repaired as the deletion or update event of that moment would; the counts follow |
| `ReconcileMeaning.DryRunForetells` | src/commands/billing_sync.ts:92-99 | a dry run counts as drifted what a run finds drifted |
| `ReconcileMeaning.ReportMeans` | src/commands/billing_sync.ts:163-180 | each number of the summary |
| `Metering.MeteredAtMostOnce` | src/services/billing_service.ts:507-580 | main result: over every interleaving of callers, faults and crashes, each idempotency key is counted at most once and has at most one audit row; `sent`, and a call that returned, mean counted exactly once |
| `Metering.NextKeepsInv` | src/services/billing_service.ts:523-580 | each round trip of a caller, a crash, or a batch give-up keeps this |
| `Metering.LoneCallReturns` | src/services/billing_service.ts:523-580 | whatever earlier attempts left, an undisturbed call returns if and only if the quantity is valid and the key is recorded as sent, never counted, or counted with the same meter, customer, quantity and timestamp; then the row says sent |
| `MeteringMeaning.FirstCallAsks` | src/services/billing_service.ts:528-580 | a call without a row, for every fault: what is added to the audit table, to the idempotency cache and to what Stripe has counted, and when the call returns |
| `MeteringMeaning.RetryAsksAgain` | src/services/billing_service.ts:553-580 | the same for a call that finds a row not sent |
| `MeteringMeaning.FirstCallCounts` | src/services/billing_service.ts:553-567 | a first call without faults counts exactly its own body and leaves the row sent |
| `MeteringMeaning.CallsThatAskNothing` | src/services/billing_service.ts:486-526 | a negative quantity or a missing customer throws, and a row that says sent returns, with nothing changed |
| `MeteringMeaning.CallIsReport` | src/services/billing_service.ts:480-581 | in the protocol, among whatever other callers, an uninterrupted call does just that |
| `Metering.Reporter.ReportUsage` | src/services/billing_service.ts:480-581 | the method on the tables is the round trips run to their end, under any faults |
| `Metering.Reporter.InsertAudit` | src/services/billing_service.ts:528-551 | the insert, and the second look after a unique violation or a failed save |
| `Metering.Reporter.Send` | src/services/billing_service.ts:553-580 | the Stripe call and the one or two saves after it |
| `Quota.EveryDailyQuotaIsSafe` | src/services/quota_service.ts:281-304 | main result, for every tenant, quota and day of a system run of consumes, tracks cut anywhere, resets and time, tenant ids having no colon: the counter depends on that tenant alone, is granted + tracked while calls may come, and grants never exceed the limit |
| `Quota.DailyQuotaIsSafe` | src/services/quota_service.ts:95-106 | the same for one key, with the script deciding exactly as a ledger that never forgets would |
| `Quota.LifetimeExactly` | src/services/quota_service.ts:21 | every run whose calls reach Redis at most a given time after their day is safe if and only if counters live a day and that time: 48 hours serve calls up to a day late, and no others |
| `Quota.KeysAreIndependent` | src/services/quota_service.ts:478-480 | each counter, by the text of its key, behaves as if no other key existed |
| `QuotaKeys.KeysMeet` | src/services/quota_service.ts:478-480 | two tenants on two days share the key text of some quotas if and only if what stands before the quota of one begins that of the other |
| `QuotaKeys.PlainKeysAreApart` | src/services/quota_service.ts:478-480 | keys of tenants without a colon in their ids are told apart by their text |
| `QuotaKeys.DatedIdShares` | src/services/quota_service.ts:478-480 | a tenant id that ends in a colon and the day shares keys with the id before that colon |
| `Quota.SharedKeyRefuses` | src/services/quota_service.ts:95-106 | there one tenant uses up the quota of the other |
| `Quota.QuotaService.Eval` | src/services/quota_service.ts:95-106 | the script: refuse over the limit, else add and renew the expiry; other keys untouched |
| `Quota.QuotaService.Consume` | src/services/quota_service.ts:370-432 | the verdict for a limited plan, with Redis up, down or unheard, failing open or closed; an unlimited plan is only tracked |
| `Quota.QuotaService.Track` | src/services/quota_service.ts:281-304 | unless Redis is down the counter gains the amount, and lives two days on when EXPIRE is served; the caller hears the new total, or is let through or refused by policy |
| `Quota.TrackRuns` | src/services/quota_service.ts:292-296 | the two round trips of `track` are the increment and the renewal that the safety theorem speaks of |
| `Quota.ConsumeRuns` | src/services/quota_service.ts:95-106 | and the one of `consume` is its atomic step |
| `PlanCache.StalenessIsBounded` | src/services/quota_service.ts:242-258 | whatever crashes or races, a plan served from the cache is what the table said less than 60 s (and one fill) ago, and stems from the current row unless that is younger |
| `PlanCache.CacheAgrees` | src/services/quota_service.ts:186-258 | when every fill was timely as it was stored and no delete is owed or lost, a served plan differs from the table if and only if the row expired since it was read |
| `PlanCache.StepAccounts` | src/services/quota_service.ts:246-256 | a step leaves every stale entry waiting for a delete if and only if it does not store a fill that a write has overtaken while no delete is owed or lost |
| `PlanCache.AccountedExactly` | src/services/quota_service.ts:186-258 | so at every point of a run stale entries wait for a delete if and only if all its stores are timely |
| `PlanCache.WritesAreAnswered` | src/services/quota_service.ts:203-232 | over every run each write is followed by its delete, still owes it, or lost it to a crash |
| `PlanCache.OvertakenFillIsStale` | src/services/quota_service.ts:246-256 | without any crash, a fill overtaken by a whole assignment leaves the replaced plan in the cache |
| `PlanCache.RetryLeavesTheCache` | src/services/quota_service.ts:203-232 | an assignment that died before its cache delete, retried, leaves the row of one clean assignment and the stale cache entry |
| `PlanCache.AssignmentTakes` | src/services/quota_service.ts:203-232 | a finished assignment is idempotent and leaves no cache entry when it changed the row |
| `PlanCache.PlanStore.AssignPlan` | src/services/quota_service.ts:186-233 | the row and the cache after the call, cut or whole |
| `PlanCache.PlanStore.GetAssignedPlan` | src/services/quota_service.ts:242-258 | a hit is served; a miss reads the table, expiry included, and is cached for 60 s |
| `PlanCache.PlanStore.ClearAssignedPlan` | src/services/quota_service.ts:261-265 | row and cache entry go |
| `TenantConnections.LruCharacterised` | src/services/isolation/schema_pg_driver.ts:85-123 | main result: after any connects the open connections are, in recency order, exactly the last min(bound, distinct) of the distinct names, placed by their last mention |
| `TenantConnections.RunKeeps` | src/services/isolation/schema_pg_driver.ts:85-149 | with disconnects too they are the most recent part of all names connected and not disconnected since, each once, within the bound |
| `TenantConnections.LastMentionsAll` | src/services/isolation/schema_pg_driver.ts:141-144 | the reference list holds exactly the names mentioned |
| `TenantConnections.ConnectedStays` | src/services/isolation/schema_pg_driver.ts:146-150 | the name being connected is never evicted |
| `TenantConnections.SafeCharacters` | src/services/isolation/identifier.ts:9-29 | the identifiers that are let through, character by character |
| `TenantConnections.SchemaPgDriver.Connect` | src/services/isolation/schema_pg_driver.ts:85-111 | on success the step of the sequence LRU; tracked names stay exactly the registered tenant connections, at most 50; unsafe id and missing template change nothing |
| `TenantConnections.SchemaPgDriver.Disconnect` | src/services/isolation/schema_pg_driver.ts:113-123 | the name leaves both the LRU and the manager |
| `TenantConnections.SchemaPgDriver.EvictIfNeeded` | src/services/isolation/schema_pg_driver.ts:146-150 | above 50 the least recent goes, from both |
| `RateLimiter.RefinesFullLog` | src/middleware/rate_limit_middleware.ts:60-98 | main result: pruning and key expiry never change a decision; a request passes if and only if the distinct milliseconds of the full log in its window, its own included, number at most the limit |
| `RateLimiter.AdmittedWithinLimit` | src/middleware/rate_limit_middleware.ts:60-98 | in no window, wherever it ends, do admitted requests occupy more than `limit` distinct milliseconds |
| `RateLimiter.BurstPasses` | src/middleware/rate_limit_middleware.ts:72 | any number of requests in one millisecond passes |
| `RateLimiter.RateLimitMiddleware.Handle` | src/middleware/rate_limit_middleware.ts:53-99 | the bucket after a request, the verdict and the remaining header, when each command of the pipeline is served or fails for itself, or the pipeline is lost; test bypass; fail open or 503 |
| `RateLimiter.ServedIsRequest` | src/middleware/rate_limit_middleware.ts:66-76 | a served pipeline is one request of the log; when ZCARD fails the count reads as zero and nobody is refused |
| `RateLimiter.PipelineMeans` | src/middleware/rate_limit_middleware.ts:66-76 | the bucket member by member, and its expiry, for every way in which the four commands are served or fail |
| `UsageBridge.UsageIsConserved` | src/listeners/usage_auto_bridge_listener.ts:37-105 | main result: at every step what was tracked for an account is pending, on its way, dispatched or dropped by a refused dispatch; pending buckets and timers have the same keys |
| `UsageBridge.RunConserves` | src/listeners/usage_auto_bridge_listener.ts:66-95 | the same with negative amounts, counting what a flush discards |
| `UsageBridge.SettleSorts` | src/listeners/usage_auto_bridge_listener.ts:78-94 | a job that is accepted is dispatched, one that is refused is dropped |
| `UsageBridge.KeysCollide` | src/listeners/usage_auto_bridge_listener.ts:103-105 | bucket keys of two tenants collide for some meters if and only if one id followed by `::` begins the other |
| `UsageBridge.ColonFreeIdsAreApart` | src/listeners/usage_auto_bridge_listener.ts:103-105 | ids without a colon never collide |
| `UsageBridge.CollisionMisattributes` | src/listeners/usage_auto_bridge_listener.ts:37-62 | where keys collide, usage goes to the wrong account |
| `UsageBridge.DrainLeavesNothing` | src/listeners/usage_auto_bridge_listener.ts:98-101 | draining leaves no bucket and no timer |
| `UsageBridge.UsageAutoBridgeListener.Handle` | src/listeners/usage_auto_bridge_listener.ts:37-63 | a mapped quota is added to the bucket of its tenant and meter, or opens one with a timer of the mapped delay (10 s by default); others are ignored |
| `UsageBridge.UsageAutoBridgeListener.Flush` | src/listeners/usage_auto_bridge_listener.ts:66-76 | bucket and timer go; the job is the bucket when it is positive, else there is none |
| `UsageBridge.UsageAutoBridgeListener.DrainAll` | src/listeners/usage_auto_bridge_listener.ts:98-101 | every pending bucket is flushed, in order |
| `RowScope.Noninterference` | src/models/scoping.ts:97-180 | main result: any program inside a tenant, in either mode, choosing each operation from the results so far, leaves all other rows alone, and sees and does the same over any two tables that agree on the tenant rows |
| `RowScope.DoIsLocal` | src/models/scoping.ts:97-180 | each operation does to the tenant rows what it would do to them alone |
| `RowScope.ScopeReach` | src/models/scoping.ts:113-140 | inside a tenant, in either mode: reads show only own rows for all predicates and tables if and only if the caller uses at most one OR; query updates and deletes stay inside if and only if none |
| `RowScope.ModelReach` | src/models/scoping.ts:150-180 | exactly which creates, saves and deletes of models change rows of other tenants |
| `RowMeaning.InsideQueries` | src/models/scoping.ts:113-148 | inside a tenant, in either mode, queries without OR show, change and remove exactly the tenant rows that meet all their conditions, and count them |
| `RowMeaning.UnscopedQueries` | src/models/scoping.ts:105-111 | under a bypass, or with no tenant in the lax mode, the same queries work on the whole table |
| `RowMeaning.ModelOperations` | src/models/scoping.ts:150-180 | models, inside a tenant and unscoped: a create fills a missing or null owner and keeps any other; a save or delete is refused only inside a tenant, for another owner |
| `RowScope.StrictRefuses` | src/models/scoping.ts:105-111 | in strict mode a program outside every scope gets only refusals and the table is untouched |
| `ScopedModel.ScopedTable.Require` | src/models/scoping.ts:105-111 | bypassed: no scope; else a tenant with an id: that id, in either mode; else a throw in the strict mode and no scope in the lax one |
| `ScopedModel.ScopedTable.AddScope` | src/models/scoping.ts:113-140 | a builder gains the owner predicate, or the call throws and it stays |
| `ScopedModel.ScopedTable.Query` | src/models/scoping.ts:130-139 | the wrapped factory puts the scope in front of whatever the caller adds |
| `ScopedModel.ScopedTable.Select` | src/models/scoping.ts:113-148 | find, fetch and paginate |
| `ScopedModel.ScopedTable.UpdateWhere` | src/models/scoping.ts:123-140 | query updates carry the factory predicate only |
| `ScopedModel.ScopedTable.DeleteWhere` | src/models/scoping.ts:123-140 | query deletes likewise |
| `ScopedModel.ScopedTable.Create` | src/models/scoping.ts:150-156 | the owner is filled in place when missing or null |
| `ScopedModel.ScopedTable.Save` | src/models/scoping.ts:158-168 | refused when the model carries another owner |
| `ScopedModel.ScopedTable.Delete` | src/models/scoping.ts:170-180 | likewise for deletes |
| `ScopeBracket.ScopesAreBalanced` | src/services/bootstrapper_registry.ts:78-104 | main result: for every nesting of scopes and every choice of failing enters, bodies and leaves, the trace is balanced, last in first out |
| `ScopeBracket.OneLeavePerEnter` | src/services/bootstrapper_registry.ts:78-104 | each successful enter of a bootstrapper with a leave has exactly one leave attempt |
| `ScopeBracket.LeavesNeverMask` | src/services/bootstrapper_registry.ts:78-104 | the error that escapes is the first failing enter, or what the function throws, never one of a leave |
| `ScopeBracket.LeavingAttempts` | src/services/bootstrapper_registry.ts:93-104 | the leaves attempted are those that there are, each failing where the scope says |
| `ScopeBracket.BootstrapperRegistry.Register` | src/services/bootstrapper_registry.ts:29-38 | appends, or throws on a taken name |
| `ScopeBracket.BootstrapperRegistry.Unregister` | src/services/bootstrapper_registry.ts:40-45 | removes one and keeps the order of the others |
| `ScopeBracket.BootstrapperRegistry.EnterAll` | src/services/bootstrapper_registry.ts:81-86 | enters in order until one fails |
| `ScopeBracket.BootstrapperRegistry.RunScoped` | src/tenancy.ts:46-55 | the trace and the escaping error of a nested run |
| `ScopeBracket.BootstrapperRegistry.RunLeaveUpTo` | src/services/bootstrapper_registry.ts:93-104 | leaves the completed ones in reverse; each failing leave is logged, in order, and nothing else is |
| `SqlRoundTrip.SplitJoinSplit` | src/utils/sql_splitter.ts:63-190 | main result: for every script, joining the result with newline, semicolon, newline and splitting again gives the same list if and only if no statement opens with a backslash |
| `SqlRoundTrip.ResplitOne` | src/utils/sql_splitter.ts:63-190 | a single returned statement splits to just itself if and only if no backslash opens it |
| `SqlRoundTrip.InkConserved` | src/utils/sql_splitter.ts:113-132 | non-blank characters are conserved: kept in statements, cut semicolons, or dropped lines |
| `SqlRoundTrip.SplitIsSettled` | src/utils/sql_splitter.ts:63-190 | every returned statement is trimmed, not empty, and read whole by the lexer |
| `SqlReading.PiecesCover` | src/utils/sql_splitter.ts:75-182 | kept text, cut semicolons and dropped lines concatenate back to the script |
| `SqlLiterals.CutsExactly` | src/utils/sql_splitter.ts:113-127 | a cut is exactly a semicolon read in the default state, a dropped line exactly a backslash line there |
| `SqlLiterals.RegionEaten` | src/utils/sql_splitter.ts:95-180 | a quoted string, dollar quote, line comment or block comment is read whole, back to the default state |
| `SqlLiterals.RegionKept` | src/utils/sql_splitter.ts:95-180 | so semicolons inside one never split the statement it stands in |
| `SqlScript.SplitIsSaid` | src/utils/sql_splitter.ts:63-190 | main result: every text reads as plain stretches, literals and comments, semicolons and backslash lines, and the splitter returns the stretches and literals between the semicolons, trimmed, without the lines and the empty ones |
| `SqlScript.LeavesAtOpeners` | src/utils/sql_splitter.ts:75-112 | the default state is left exactly at a quote, two hyphens, a slash and a star, or a dollar tag |
| `SqlSplitter.SplitSqlStatements` | src/utils/sql_splitter.ts:63-190 | the loop terminates and returns what the recursive lexer says, for every text |
| `SqlSplitter.Turn` | src/utils/sql_splitter.ts:75-182 | one turn of the loop is one move of the lexer |
| `SqlSplitter.GuardedNeverBareSemicolon` | src/utils/sql_splitter.ts:184-187 | in every state that the loop can reach, the trimmed rest is never a lone semicolon, so the guard never fires |
| `SqlSplitter.GuardedMove` | src/utils/sql_splitter.ts:75-182 | every turn keeps that state property |
| `SqlTagged.BlocksPartition` | src/utils/sql_splitter.ts:29-53 | each line is in exactly one of SQL chunk, COPY header, COPY row, terminator, in order |
| `SqlTagged.BlocksUnique` | src/utils/sql_splitter.ts:29-53 | and no other proper assignment of roles exists |
| `SqlTagged.TaggedWithoutCopy` | src/utils/sql_splitter.ts:15-55 | without a COPY header the tagged form is the plain splitter |
| `SqlTagged.SplitSqlStatementsTagged` | src/utils/sql_splitter.ts:15-55 | the loop returns the tokens of that one reading |
| `SqlTagged.ReadRows` | src/utils/sql_splitter.ts:37-45 | rows run up to the terminator or the end |
| `SqlTagged.CopyTurn` | src/utils/sql_splitter.ts:32-48 | the COPY branch |
| `SqlTagged.FlushBuffer` | src/utils/sql_splitter.ts:20-27 | the gathered lines become statements |
| `SqlShapes.HeaderShape` | src/utils/sql_splitter.ts:5 | the lines that open a COPY block, as the pattern reads: both directions |
| `SqlShapes.HeaderText` | src/utils/sql_splitter.ts:34 | the header without its semicolon and the blanks around it |
| `SqlShapes.RowsEndAtTheMark` | src/utils/sql_splitter.ts:37-45 | data rows run up to the first line that is a backslash and a dot, or to the end |
| `SqlImport.ImportEqualsSuccesses` | src/services/sql_import_service.ts:110-185 | main result: the final state is the in-order effect of exactly the statements that succeeded, without savepoints, and executed + skipped + errors + COPY tokens = total |
| `SqlImport.SucceededAlone` | src/services/sql_import_service.ts:156-168 | importing only the successes again gives the same successes: failures leave no trace |
| `SqlShapes.SkipShape` | src/services/sql_import_service.ts:42-46 | exactly the statements of the three patterns are skipped |
| `SqlShapes.FailureIsNoted` | src/services/sql_import_service.ts:160-166 | a failure is noted with its message and at most 200 characters of the statement, and nothing else changes |
| `SqlImport.RunTransactional` | src/services/sql_import_service.ts:132-172 | the loop follows the account, and leaves no savepoint and no aborted transaction |
| `SqlImport.ImportToken` | src/services/sql_import_service.ts:137-169 | one statement runs in its own savepoint, which is gone afterwards |
| `SqlImport.DryRun` | src/services/sql_import_service.ts:80-101 | what a dry run counts as executable, skipped and COPY blocks adds up to the total; COPY rows are counted too |
| `SqlImport.Import` | src/services/sql_import_service.ts:68-108 | dry runs and dumps with COPY leave the transaction alone; the others report the account |

## Left out

- Stripe SDK, Redis, BullMQ, Lucid, BentoCache, psql and pg_dump internals: present only as maps, queues, entries that
  expire, and steps that fail.
- Signature checks, encryption, identity, URL and host validation, allowlists: not state properties.
- Logging, telemetry, doctor, metrics, admin controllers, configuration scripts: presentation.
- `#rewriteSchema` and the psql path of the importer: text substitution and a foreign program.
- SqlImport.RunTransactional: takes statements as a function on an abstract database that changes nothing when it fails;
  statements that issue transaction control themselves, and the two `SET LOCAL session_replication_role` calls, are not modelled.
- Json.Json: numbers are integers, and a field of an undocumented type reads as absent.
- StripeEvent.RebuildGivesReplayed: type names and their reading are parameters, which must invert each other on the event's type.
- BillingStore.Store.DispatchStripeEvent: names inherited by a JavaScript object literal are not event types here.
- BillingStore.Store.SyncSubscription: a missing billing configuration, log lines and the assigned-at column are not modelled.
- DeliveryOrder.Converges: the run holds subscription events only; invoice events also move the status, and are covered by
  DriftBound and CanceledStays.
- EndToEnd.AcknowledgedNewestIsShown: invoice events of the subscription are excluded, since they move its status; the
  tenant has one Stripe customer; other events are arbitrary; and the assumptions on replay and hook above.
- HandlerSteps.Uninterrupted: the handlers other than `syncSubscription` are one step, and so are the finds of the customer
  and of the mirror row; customer rows keep their tenant.
- SubscriptionRace.ShownExactly: what the condition decides is every choice of event contents for fixed times and moves; a
  run outside it may still show the newest event when the events happen to say the same.
- Ledger.NoAcknowledgedEventIsLost: a find and the save that follows it are one step where nothing in between matters;
  clean-up of old completed rows is not a step, since a redelivery after it is a new event.
- LedgerStore.Backoffice.Replay: the flag check, the log lines and the dead-letter event are left out.
- Reconcile.SyncCommand: Stripe's paging and filters come as the list of subscriptions scanned; Stripe lists each once, with a known status.
- Metering.MeteredAtMostOnce: quantities and times are integers; the lifetime of Stripe's idempotency cache is not modelled; batched usage is keyed by the
  minute of execution, so nothing is claimed end to end from tracking into Stripe.
- Quota.EveryDailyQuotaIsSafe: how a day is written is a parameter, without colons and different for different days;
  `reset` for all quotas of a tenant scans by prefix, and comes as a reset of each key.
- Quota.QuotaService.Consume: snapshots, reads and the tracked event are left out; amounts are integers.
- PlanCache.PlanStore.AssignPlan: the storage probe and the check that a plan is declared are left out; expiry times compare as instants.
- TenantConnections.SchemaPgDriver.Connect: the window between an eviction and its asynchronous release is not modelled.
- RateLimiter.RateLimitMiddleware.Handle: the key's parts (prefix, tenant, address) come as one string.
- RowScope.Noninterference: a row is its owner and one other value; relations, joins and raw queries are not modelled; AsyncLocalStorage is a parameter.
- ScopeBracket.ScopesAreBalanced: what bootstrappers do is not modelled, only that they are entered and left.
- The `database-pg` driver repeats the LRU modelled here; webhook retries, backup retention, replica choice and the
  circuit breaker are separate and smaller.
