/**
 The billing tables and what each Stripe event does to them: `src/services/billing_service.ts`
 (`syncSubscription`), `src/services/billing/stripe_event_dispatcher.ts` and the plan assignment
 of `src/services/quota_service.ts`, as functions on the tables.
 */
module Billing {
  import opened Json
  import opened StripeEvent
  import opened BillingErrors

  /** `config.billing`, and the declared plans when `config.plans` is present. */
  datatype Config = Config(
    defaultPlan: string, products: map<string, string>, definitions: Option<set<string>>,
    maxAttempts: int, downgradeOnDunning: bool)

  datatype CustomerRow = CustomerRow(tenant: string, deletedAt: Option<int>)

  /** A row of `stripe_subscriptions`. */
  datatype Mirror = Mirror(
    tenant: string, status: string, periodStart: int, periodEnd: int,
    cancelAtPeriodEnd: bool, cancelAt: Option<int>, canceledAt: Option<int>, trialEnd: Option<int>,
    plan: string, lastEventAt: int, raw: Fields)

  /** A row of `tenant_plans`. */
  datatype PlanRow = PlanRow(plan: string, source: string, expiresAt: Option<int>)

  /** Package events. */
  datatype Emitted =
    | Misconfigured(sub: string, product: Option<string>, price: Option<string>)
    | TrialEnding(tenant: string, subscription: Option<string>, daysLeft: nat)
    | Paid(tenant: string, invoice: Option<string>, amount: int, currency: string)
    | NotPaid(tenant: string, invoice: Option<string>, amount: int, currency: string,
              attempts: int, final: bool, nextRetry: Option<int>)

  /** The tables: customers by Stripe customer id (unique), mirrors by subscription id, plans by tenant. */
  datatype World = World(
    customers: map<string, CustomerRow>, mirror: map<string, Mirror>, plans: map<string, PlanRow>,
    emitted: seq<Emitted>)

  /** Where a handler is interrupted, if anywhere. */
  datatype Fault = NoFault | PlanWriteFails | CacheDeleteFails | RowSaveFails

  datatype Outcome =
    | Noop(known: Option<string>)
    | Synced(tenant: string)
    | Stale
    | EventEmitted(tenant: string)
    | Threw(failure: Failure)

  /** Ordering tolerance in seconds. */
  const TOLERANCE := 5

  const STATUSES: set<string> :=
    {"incomplete", "incomplete_expired", "trialing", "active", "past_due", "canceled", "unpaid", "paused"}

  /** A Unix time when the field holds one; zero counts as none, as `x ? ... : null` has it. */
  function TimeOf(v: Option<Json>): Option<int> {
    if Truthy(v) then NumOf(v) else None
  }

  function FirstItem(o: Fields): Option<Json> {
    var items := ItemsOf(o);
    if items.Some? && items.value != [] then Some(items.value[0]) else None
  }

  /** Everything the code reads of a subscription object, apart from storing it whole. */
  datatype SubView = SubView(
    id: Option<string>, customer: Option<string>, status: Option<string>,
    product: Option<string>, price: Option<string>, start: Option<int>, end: Option<int>,
    cancelAtPeriodEnd: bool, cancelAt: Option<int>, canceledAt: Option<int>, trialEnd: Option<int>)

  function ViewSub(o: Fields): SubView {
    var item := FirstItem(o);
    SubView(
      StrOf(At(o, Id)), Nonempty(IdOf(At(o, Customer))), StrOf(At(o, Status)),
      IdOf(Get(Get(item, Price), Product)), StrOf(Get(Get(item, Price), Id)),
      Either(NumOf(Get(item, CurrentPeriodStart)), NumOf(At(o, CurrentPeriodStart))),
      Either(NumOf(Get(item, CurrentPeriodEnd)), NumOf(At(o, CurrentPeriodEnd))),
      GetOr(BoolOf(At(o, CancelAtPeriodEnd)), false),
      TimeOf(At(o, CancelAt)), TimeOf(At(o, CanceledAt)), TimeOf(At(o, TrialEnd)))
  }

  datatype InvoiceView = InvoiceView(
    id: Option<string>, customer: Option<string>, subscription: Option<string>,
    amountPaid: int, amountDue: int, currency: string, attempts: int, nextRetry: Option<int>)

  /** `extractInvoiceSubscriptionId`; the empty id counts as none, as its callers have it. */
  function InvoiceSubscription(o: Fields): Option<string> {
    var ref := if !Missing(At(o, Subscription)) then At(o, Subscription)
               else Get(Get(At(o, Parent), SubscriptionDetails), Subscription);
    if !Truthy(ref) then None else Nonempty(IdOf(ref))
  }

  function ViewInvoice(o: Fields): InvoiceView {
    InvoiceView(
      StrOf(At(o, Id)), Nonempty(IdOf(At(o, Customer))), InvoiceSubscription(o),
      GetOr(NumOf(At(o, AmountPaid)), 0), GetOr(NumOf(At(o, AmountDue)), 0),
      GetOr(StrOf(At(o, Currency)), "usd"), GetOr(NumOf(At(o, AttemptCount)), 0),
      TimeOf(At(o, NextPaymentAttempt)))
  }

  datatype CheckoutView = CheckoutView(mode: Option<string>, tenant: Option<string>, customer: Option<string>)

  function ViewCheckout(o: Fields): CheckoutView {
    CheckoutView(StrOf(At(o, Mode)), Nonempty(StrOf(At(o, ClientReferenceId))), Nonempty(IdOf(At(o, Customer))))
  }

  /** `id && cfg.products[id]`: None for undefined, the empty string for an empty id. */
  function Lookup(products: map<string, string>, id: Option<string>): Option<string> {
    if id.None? then None
    else if id.value == "" then Some("")
    else if id.value in products then Some(products[id.value])
    else None
  }

  /** The plan of a product or, failing that, of a price; the empty string counts as unmapped. */
  function MappedPlan(cfg: Config, v: SubView): Option<string> {
    Nonempty(Either(Lookup(cfg.products, v.product), Lookup(cfg.products, v.price)))
  }

  function PlanFor(cfg: Config, v: SubView, downgrade: bool): string {
    if downgrade then cfg.defaultPlan else GetOr(MappedPlan(cfg, v), cfg.defaultPlan)
  }

  /** The BillingMisconfigured event of an unmapped product or price. */
  function Warnings(cfg: Config, v: SubView, downgrade: bool): seq<Emitted> {
    if !downgrade && MappedPlan(cfg, v).None? && (Nonempty(v.product).Some? || Nonempty(v.price).Some?)
    then [Misconfigured(GetOr(v.id, ""), v.product, v.price)]
    else []
  }

  /** `assignPlan`: the plan table afterwards and whether the call returned normally. */
  function Assign(cfg: Config, plans: map<string, PlanRow>, tenant: string, plan: string, source: string, fault: Fault)
    : (map<string, PlanRow>, bool)
  {
    if cfg.definitions.Some? && plan !in cfg.definitions.value then (plans, false)
    else if fault.PlanWriteFails? then (plans, false)
    else if tenant in plans && plans[tenant] == PlanRow(plan, source, None) then (plans, true)
    else (plans[tenant := PlanRow(plan, source, None)], !fault.CacheDeleteFails?)
  }

  /** The mirror row that an accepted subscription event writes. */
  function MirrorOf(cfg: Config, v: SubView, raw: Fields, tenant: string, created: int, downgrade: bool): Mirror
    requires v.status.Some?
  {
    Mirror(
      tenant, v.status.value, GetOr(v.start, created), GetOr(v.end, created),
      v.cancelAtPeriodEnd, v.cancelAt, v.canceledAt, v.trialEnd,
      PlanFor(cfg, v, downgrade), created, raw)
  }

  /** The ordering guard: may something of time `created` be written over this row? */
  predicate InOrder(mirror: map<string, Mirror>, id: string, created: int) {
    id in mirror ==> created >= mirror[id].lastEventAt - TOLERANCE
  }

  /** The part of `syncSubscription` behind the ordering guard: the plan first, then the mirror row. */
  function Accept(cfg: Config, w: World, id: string, v: SubView, raw: Fields, tenant: string, created: int,
                  downgrade: bool, fault: Fault): (World, Outcome)
  {
    var (plans, ok) := Assign(cfg, w.plans, tenant, PlanFor(cfg, v, downgrade), "stripe", fault);
    var warned := w.(emitted := w.emitted + Warnings(cfg, v, downgrade), plans := plans);
    if !ok || fault.RowSaveFails? || v.status.None? || v.status.value !in STATUSES then (warned, Threw(Unhandled))
    else (warned.(mirror := w.mirror[id := MirrorOf(cfg, v, raw, tenant, created, downgrade)]), Synced(tenant))
  }

  /** `syncSubscription`. */
  function Sync(cfg: Config, w: World, v: SubView, raw: Fields, created: int, downgrade: bool, fault: Fault)
    : (World, Outcome)
  {
    if v.customer.None? || v.customer.value !in w.customers then (w, Threw(Billing(TenantNotResolvable)))
    else if v.id.None? then (w, Threw(Unhandled))
    else if !InOrder(w.mirror, v.id.value, created) then (w, Stale)
    else Accept(cfg, w, v.id.value, v, raw, w.customers[v.customer.value].tenant, created, downgrade, fault)
  }

  function Max(a: int, b: int): int {
    if a < b then b else a
  }

  /** Whole days, rounded up, from `now` until the end of the trial. */
  function DaysLeft(trialEnd: Option<int>, now: int): nat {
    if trialEnd.None? then 0 else Max(0, (trialEnd.value - now + 86399) / 86400)
  }

  function HandleTrialWillEnd(w: World, v: SubView, now: int): (World, Outcome) {
    if v.customer.None? || v.customer.value !in w.customers then (w, Noop(None))
    else
      var tenant := w.customers[v.customer.value].tenant;
      (w.(emitted := w.emitted + [TrialEnding(tenant, v.id, DaysLeft(v.trialEnd, now))]), EventEmitted(tenant))
  }

  predicate TenantKnown(customers: map<string, CustomerRow>, tenant: string) {
    exists c :: c in customers && customers[c].tenant == tenant
  }

  function HandleCheckout(w: World, v: CheckoutView, fault: Fault): (World, Outcome) {
    if v.mode != Some("subscription") && v.mode != Some("payment") then (w, Noop(None))
    else if v.tenant.None? || v.customer.None? then (w, Noop(None))
    else if TenantKnown(w.customers, v.tenant.value) then (w, Noop(v.tenant))
    else if v.customer.value in w.customers || fault.RowSaveFails? then (w, Threw(Unhandled))
    else (w.(customers := w.customers[v.customer.value := CustomerRow(v.tenant.value, None)]), Synced(v.tenant.value))
  }

  /** Does a successful payment lift this subscription out of dunning? */
  predicate Recovers(mirror: map<string, Mirror>, id: Option<string>, created: int) {
    && id.Some? && id.value in mirror
    && (mirror[id.value].status == "past_due" || mirror[id.value].status == "unpaid")
    && InOrder(mirror, id.value, created)
  }

  /** Does a final failed payment move this subscription into dunning? */
  predicate FallsDue(mirror: map<string, Mirror>, id: Option<string>, created: int) {
    && id.Some? && id.value in mirror
    && mirror[id.value].status != "past_due" && mirror[id.value].status != "canceled"
    && InOrder(mirror, id.value, created)
  }

  function WithStatus(mirror: map<string, Mirror>, id: string, status: string, created: int): map<string, Mirror>
    requires id in mirror
  {
    mirror[id := mirror[id].(status := status, lastEventAt := created)]
  }

  function HandlePaymentSucceeded(w: World, v: InvoiceView, created: int, fault: Fault): (World, Outcome) {
    if v.customer.None? || v.customer.value !in w.customers then (w, Noop(None))
    else
      var tenant := w.customers[v.customer.value].tenant;
      var recovers := Recovers(w.mirror, v.subscription, created);
      if recovers && fault.RowSaveFails? then (w, Threw(Unhandled))
      else
        var mirror := if recovers then WithStatus(w.mirror, v.subscription.value, "active", created) else w.mirror;
        (w.(mirror := mirror, emitted := w.emitted + [Paid(tenant, v.id, v.amountPaid, v.currency)]),
         EventEmitted(tenant))
  }

  function HandlePaymentFailed(cfg: Config, w: World, v: InvoiceView, created: int, fault: Fault): (World, Outcome) {
    if v.customer.None? || v.customer.value !in w.customers then (w, Noop(None))
    else
      var tenant := w.customers[v.customer.value].tenant;
      var final := v.attempts >= cfg.maxAttempts;
      var falls := final && FallsDue(w.mirror, v.subscription, created);
      if falls && fault.RowSaveFails? then (w, Threw(Unhandled))
      else
        var mirror := if falls then WithStatus(w.mirror, v.subscription.value, "past_due", created) else w.mirror;
        var plans := if final && cfg.downgradeOnDunning && cfg.defaultPlan != ""
                     then Assign(cfg, w.plans, tenant, cfg.defaultPlan, "dunning", fault).0 else w.plans;
        var notice := NotPaid(tenant, v.id, v.amountDue, v.currency, v.attempts, final, v.nextRetry);
        (w.(mirror := mirror, plans := plans, emitted := w.emitted + [notice]), EventEmitted(tenant))
  }

  function HandleCustomerDeleted(w: World, id: Option<string>, now: int, fault: Fault): (World, Outcome) {
    if id.None? then (w, Threw(Unhandled))
    else if id.value !in w.customers then (w, Noop(None))
    else if fault.RowSaveFails? then (w, Threw(Unhandled))
    else
      var row := w.customers[id.value];
      (w.(customers := w.customers[id.value := row.(deletedAt := Some(now))]), Synced(row.tenant))
  }

  /** What a handler is asked to do, with everything it reads of the event. */
  datatype Command =
    | SyncSub(sub: SubView, raw: Fields, at: int, downgrade: bool)
    | NoticeTrial(sub: SubView)
    | NotePaid(invoice: InvoiceView, at: int)
    | NoteNotPaid(invoice: InvoiceView, at: int)
    | LinkCustomer(checkout: CheckoutView)
    | DropCustomer(customer: Option<string>)
    | Nothing

  /** The handler table: `HANDLERS` looked up by the event's type. */
  function Read(e: Event): Command {
    match e.etype
    case SubscriptionType(action) =>
      if action.TrialWillEnd? then NoticeTrial(ViewSub(e.body))
      else if action.OtherAction? then Nothing
      else SyncSub(ViewSub(e.body), e.body, e.created, action.WasDeleted?)
    case PaymentSucceeded => NotePaid(ViewInvoice(e.body), e.created)
    case PaymentFailed => NoteNotPaid(ViewInvoice(e.body), e.created)
    case CheckoutCompleted => LinkCustomer(ViewCheckout(e.body))
    case CustomerDeleted => DropCustomer(StrOf(At(e.body, Id)))
    case OtherInvoiceType(_) => Nothing
    case UnmappedType(_) => Nothing
  }

  function Perform(cfg: Config, w: World, c: Command, now: int, fault: Fault): (World, Outcome) {
    match c
    case SyncSub(v, raw, at, downgrade) => Sync(cfg, w, v, raw, at, downgrade, fault)
    case NoticeTrial(v) => HandleTrialWillEnd(w, v, now)
    case NotePaid(v, at) => HandlePaymentSucceeded(w, v, at, fault)
    case NoteNotPaid(v, at) => HandlePaymentFailed(cfg, w, v, at, fault)
    case LinkCustomer(v) => HandleCheckout(w, v, fault)
    case DropCustomer(id) => HandleCustomerDeleted(w, id, now, fault)
    case Nothing => (w, Noop(None))
  }

  /** `dispatchStripeEvent`. */
  function Dispatch(cfg: Config, w: World, e: Event, now: int, fault: Fault): (World, Outcome) {
    Perform(cfg, w, Read(e), now, fault)
  }

  /** One delivery: the event as the job gets it, the clock, and the fault it meets. */
  datatype Delivery = Delivery(event: Event, now: int, fault: Fault)

  /** A run of deliveries: the tables at the end. */
  function Run(cfg: Config, w: World, ds: seq<Delivery>): World
    decreases |ds|
  {
    if ds == [] then w
    else Run(cfg, Dispatch(cfg, w, ds[0].event, ds[0].now, ds[0].fault).0, ds[1..])
  }
}
