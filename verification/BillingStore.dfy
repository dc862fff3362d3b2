/** The billing service and the event handlers as they run: tables updated in place, row fields set one by one. */
module BillingStore {
  import opened Json
  import opened StripeEvent
  import opened BillingErrors
  import opened Billing

  class Store {
    const cfg: Config
    var customers: map<string, CustomerRow>
    var mirror: map<string, Mirror>
    var plans: map<string, PlanRow>
    var emitted: seq<Emitted>

    ghost function Tables(): World
      reads this
    {
      World(customers, mirror, plans, emitted)
    }

    constructor (cfg: Config)
      ensures this.cfg == cfg && Tables() == World(map[], map[], map[], [])
    {
      this.cfg := cfg;
      customers, mirror, plans, emitted := map[], map[], map[], [];
    }

    /** `assignPlan`: a no-op for the row that is already there, otherwise an upsert and a cache delete. */
    method AssignPlan(tenant: string, plan: string, source: string, fault: Fault) returns (ok: bool)
      modifies this`plans
      ensures (plans, ok) == Assign(cfg, old(plans), tenant, plan, source, fault)
    {
      if cfg.definitions.Some? && plan !in cfg.definitions.value {
        return false;
      }
      if fault.PlanWriteFails? {
        return false;
      }
      if tenant in plans {
        var existing := plans[tenant];
        if existing.plan == plan && existing.source == source && existing.expiresAt == None {
          return true;
        }
        existing := existing.(plan := plan);
        existing := existing.(source := source);
        existing := existing.(expiresAt := None);
        plans := plans[tenant := existing];
      } else {
        plans := plans[tenant := PlanRow(plan, source, None)];
      }
      return !fault.CacheDeleteFails?;
    }

    /** The plan name of a subscription, and the warning when its product or price is unmapped. */
    method ResolvePlan(sub: Fields, downgrade: bool) returns (planName: string)
      modifies this`emitted
      ensures planName == PlanFor(cfg, ViewSub(sub), downgrade)
      ensures emitted == old(emitted) + Warnings(cfg, ViewSub(sub), downgrade)
    {
      planName := cfg.defaultPlan;
      if !downgrade {
        var item := FirstItem(sub);
        var productId := IdOf(Get(Get(item, Price), Product));
        var priceId := StrOf(Get(Get(item, Price), Id));
        var mapped := Lookup(cfg.products, productId);
        if mapped.None? {
          mapped := Lookup(cfg.products, priceId);
        }
        if mapped.Some? && mapped.value != "" {
          planName := mapped.value;
        } else if (productId.Some? && productId.value != "") || (priceId.Some? && priceId.value != "") {
          emitted := emitted + [Misconfigured(GetOr(StrOf(At(sub, Id)), ""), productId, priceId)];
        }
      }
    }

    /** `syncSubscription` */
    method SyncSubscription(sub: Fields, eventCreated: int, downgrade: bool, fault: Fault) returns (r: Outcome)
      modifies this
      ensures (Tables(), r) == Sync(cfg, old(Tables()), ViewSub(sub), sub, eventCreated, downgrade, fault)
    {
      var customerId := IdOf(At(sub, Customer));
      if customerId.None? || customerId.value == "" {
        return Threw(Billing(TenantNotResolvable));
      }
      if customerId.value !in customers {
        return Threw(Billing(TenantNotResolvable));
      }
      var tenant := customers[customerId.value].tenant;
      var subId := StrOf(At(sub, Id));
      if subId.None? {
        return Threw(Unhandled);
      }
      if subId.value in mirror && eventCreated < mirror[subId.value].lastEventAt - TOLERANCE {
        return Stale;
      }
      var planName := ResolvePlan(sub, downgrade);
      var ok := AssignPlan(tenant, planName, "stripe", fault);
      if !ok || fault.RowSaveFails? {
        return Threw(Unhandled);
      }
      var status := StrOf(At(sub, Status));
      if status.None? || status.value !in STATUSES {
        return Threw(Unhandled);
      }
      var row := BuildRow(sub, tenant, status.value, planName, eventCreated);
      mirror := mirror[subId.value := row];
      return Synced(tenant);
    }

    /** The fields of the mirror row, in the order the source assigns them. */
    method BuildRow(sub: Fields, tenant: string, status: string, planName: string, eventCreated: int)
      returns (row: Mirror)
      ensures var v := ViewSub(sub);
              row == Mirror(tenant, status, GetOr(v.start, eventCreated), GetOr(v.end, eventCreated),
                            v.cancelAtPeriodEnd, v.cancelAt, v.canceledAt, v.trialEnd, planName, eventCreated, sub)
    {
      var item := FirstItem(sub);
      var periodStart := Either(NumOf(Get(item, CurrentPeriodStart)), NumOf(At(sub, CurrentPeriodStart)));
      var periodEnd := Either(NumOf(Get(item, CurrentPeriodEnd)), NumOf(At(sub, CurrentPeriodEnd)));
      row := Mirror(tenant, status, eventCreated, eventCreated, false, None, None, None, planName, eventCreated, sub);
      if periodStart.Some? {
        row := row.(periodStart := periodStart.value);
      }
      if periodEnd.Some? {
        row := row.(periodEnd := periodEnd.value);
      }
      if BoolOf(At(sub, CancelAtPeriodEnd)).Some? {
        row := row.(cancelAtPeriodEnd := BoolOf(At(sub, CancelAtPeriodEnd)).value);
      }
      row := row.(cancelAt := TimeOf(At(sub, CancelAt)));
      row := row.(canceledAt := TimeOf(At(sub, CanceledAt)));
      row := row.(trialEnd := TimeOf(At(sub, TrialEnd)));
    }

    /** `handleCheckoutCompleted` */
    method HandleCheckoutCompleted(session: Fields, fault: Fault) returns (r: Outcome)
      modifies this`customers
      ensures (Tables(), r) == HandleCheckout(old(Tables()), ViewCheckout(session), fault)
    {
      var mode := StrOf(At(session, Mode));
      if mode != Some("subscription") && mode != Some("payment") {
        return Noop(None);
      }
      var tenantId := Nonempty(StrOf(At(session, ClientReferenceId)));
      var customerId := Nonempty(IdOf(At(session, Customer)));
      if tenantId.None? || customerId.None? {
        return Noop(None);
      }
      if exists c :: c in customers && customers[c].tenant == tenantId.value {
        return Noop(tenantId);
      }
      if customerId.value in customers || fault.RowSaveFails? {
        return Threw(Unhandled);
      }
      customers := customers[customerId.value := CustomerRow(tenantId.value, None)];
      return Synced(tenantId.value);
    }

    /** `handleTrialWillEnd` */
    method HandleTrialWillEndEvent(sub: Fields, now: int) returns (r: Outcome)
      modifies this`emitted
      ensures (Tables(), r) == HandleTrialWillEnd(old(Tables()), ViewSub(sub), now)
    {
      var customerId := Nonempty(IdOf(At(sub, Customer)));
      if customerId.None? || customerId.value !in customers {
        return Noop(None);
      }
      var tenant := customers[customerId.value].tenant;
      var daysLeft := DaysLeft(TimeOf(At(sub, TrialEnd)), now);
      emitted := emitted + [TrialEnding(tenant, StrOf(At(sub, Id)), daysLeft)];
      return EventEmitted(tenant);
    }

    /** `handlePaymentSucceeded`: a paid invoice lifts a subscription out of dunning. */
    method HandlePaymentSucceededEvent(invoice: Fields, created: int, fault: Fault) returns (r: Outcome)
      modifies this`mirror, this`emitted
      ensures (Tables(), r) == HandlePaymentSucceeded(old(Tables()), ViewInvoice(invoice), created, fault)
    {
      var v := ViewInvoice(invoice);
      if v.customer.None? || v.customer.value !in customers {
        return Noop(None);
      }
      var tenant := customers[v.customer.value].tenant;
      var subId := v.subscription;
      if subId.Some? && subId.value in mirror {
        var sub := mirror[subId.value];
        if sub.status == "past_due" || sub.status == "unpaid" {
          if created >= sub.lastEventAt - TOLERANCE {
            sub := sub.(status := "active");
            sub := sub.(lastEventAt := created);
            if fault.RowSaveFails? {
              return Threw(Unhandled);
            }
            mirror := mirror[subId.value := sub];
          }
        }
      }
      emitted := emitted + [Paid(tenant, v.id, v.amountPaid, v.currency)];
      return EventEmitted(tenant);
    }

    /** `handlePaymentFailed`: the final attempt marks the subscription past due and may downgrade the plan. */
    method HandlePaymentFailedEvent(invoice: Fields, created: int, fault: Fault) returns (r: Outcome)
      modifies this`mirror, this`plans, this`emitted
      ensures (Tables(), r) == HandlePaymentFailed(cfg, old(Tables()), ViewInvoice(invoice), created, fault)
    {
      var v := ViewInvoice(invoice);
      if v.customer.None? || v.customer.value !in customers {
        return Noop(None);
      }
      var tenant := customers[v.customer.value].tenant;
      var isFinal := v.attempts >= cfg.maxAttempts;
      if isFinal {
        var subId := v.subscription;
        if subId.Some? && subId.value in mirror {
          var sub := mirror[subId.value];
          if sub.status != "past_due" && sub.status != "canceled" && created >= sub.lastEventAt - TOLERANCE {
            sub := sub.(status := "past_due");
            sub := sub.(lastEventAt := created);
            if fault.RowSaveFails? {
              return Threw(Unhandled);
            }
            mirror := mirror[subId.value := sub];
          }
        }
        if cfg.downgradeOnDunning && cfg.defaultPlan != "" {
          var _ := AssignPlan(tenant, cfg.defaultPlan, "dunning", fault);
        }
      }
      emitted := emitted + [NotPaid(tenant, v.id, v.amountDue, v.currency, v.attempts, isFinal, v.nextRetry)];
      return EventEmitted(tenant);
    }

    /** `handleCustomerDeleted` */
    method HandleCustomerDeletedEvent(customer: Fields, now: int, fault: Fault) returns (r: Outcome)
      modifies this`customers
      ensures (Tables(), r) == HandleCustomerDeleted(old(Tables()), StrOf(At(customer, Id)), now, fault)
    {
      var id := StrOf(At(customer, Id));
      if id.None? {
        return Threw(Unhandled);
      }
      if id.value !in customers {
        return Noop(None);
      }
      if fault.RowSaveFails? {
        return Threw(Unhandled);
      }
      var row := customers[id.value];
      row := row.(deletedAt := Some(now));
      customers := customers[id.value := row];
      return Synced(row.tenant);
    }

    /** `dispatchStripeEvent`: each event goes to its handler, and the tables change as `Dispatch` says. */
    method DispatchStripeEvent(e: Event, now: int, fault: Fault) returns (r: Outcome)
      modifies this
      ensures (Tables(), r) == Dispatch(cfg, old(Tables()), e, now, fault)
    {
      match e.etype {
        case SubscriptionType(action) =>
          match action {
            case TrialWillEnd => r := HandleTrialWillEndEvent(e.body, now);
            case OtherAction(_) => r := Noop(None);
            case WasDeleted => r := SyncSubscription(e.body, e.created, true, fault);
            case _ => r := SyncSubscription(e.body, e.created, false, fault);
          }
        case PaymentSucceeded => r := HandlePaymentSucceededEvent(e.body, e.created, fault);
        case PaymentFailed => r := HandlePaymentFailedEvent(e.body, e.created, fault);
        case CheckoutCompleted => r := HandleCheckoutCompleted(e.body, fault);
        case CustomerDeleted => r := HandleCustomerDeletedEvent(e.body, now, fault);
        case OtherInvoiceType(_) => r := Noop(None);
        case UnmappedType(_) => r := Noop(None);
      }
    }
  }
}
