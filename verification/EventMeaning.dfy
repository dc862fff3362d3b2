/** What the Stripe events do to the tables, told of the JSON that Stripe sends. */
module EventMeaning {
  import opened Json
  import opened StripeEvent
  import opened BillingErrors
  import opened Billing

  /** A related object, given as its id or expanded. */
  predicate Names(v: Json, id: string) {
    v == Str(id) || (v.Obj? && Id in v.fields && v.fields[Id] == Str(id))
  }

  predicate OfCustomer(o: Fields, customer: string) {
    customer != "" && Customer in o && Names(o[Customer], customer)
  }

  predicate Says(o: Fields, key: Key, v: Json) {
    key in o && o[key] == v
  }

  /** A Unix time that is set; zero is not. */
  predicate Times(o: Fields, key: Key, n: int) {
    n != 0 && Says(o, key, Num(n))
  }

  /** A number, zero when there is none. */
  predicate Counts(o: Fields, key: Key, n: int) {
    Says(o, key, Num(n)) || (n == 0 && !(key in o && o[key].Num?))
  }

  /** The first of the subscription's items. */
  predicate First(o: Fields, item: Fields) {
    && Items in o && o[Items].Obj? && Data in o[Items].fields && o[Items].fields[Data].Arr?
    && var list := o[Items].fields[Data].items;
    list != [] && list[0] == Obj(item)
  }

  predicate PriceIs(item: Fields, price: Fields) {
    Says(item, Price, Obj(price))
  }

  /** The fields of a subscription object that are read directly. */
  lemma SubscriptionReads(o: Fields, text: string, n: int)
    ensures ViewSub(o).id == Some(text) <==> Says(o, Id, Str(text))
    ensures ViewSub(o).status == Some(text) <==> Says(o, Status, Str(text))
    ensures ViewSub(o).customer == Some(text) <==> OfCustomer(o, text)
    ensures ViewSub(o).cancelAtPeriodEnd <==> Says(o, CancelAtPeriodEnd, Bool(true))
    ensures ViewSub(o).cancelAt == Some(n) <==> Times(o, CancelAt, n)
    ensures ViewSub(o).canceledAt == Some(n) <==> Times(o, CanceledAt, n)
    ensures ViewSub(o).trialEnd == Some(n) <==> Times(o, TrialEnd, n)
  {
  }

  /** And those of its first item: product and price, and the period, which older objects keep at the top. */
  lemma ItemReads(o: Fields, item: Fields, text: string, n: int)
    requires First(o, item)
    ensures ViewSub(o).product == Some(text) <==>
            exists price: Fields :: PriceIs(item, price) && Product in price && Names(price[Product], text)
    ensures ViewSub(o).price == Some(text) <==>
            exists price: Fields :: PriceIs(item, price) && Says(price, Id, Str(text))
    ensures ViewSub(o).start == Some(n) <==>
            if CurrentPeriodStart in item && item[CurrentPeriodStart].Num? then Says(item, CurrentPeriodStart, Num(n))
            else Says(o, CurrentPeriodStart, Num(n))
    ensures ViewSub(o).end == Some(n) <==>
            if CurrentPeriodEnd in item && item[CurrentPeriodEnd].Num? then Says(item, CurrentPeriodEnd, Num(n))
            else Says(o, CurrentPeriodEnd, Num(n))
  {
    assert FirstItem(o) == Some(Obj(item));
    if Price in item && item[Price].Obj? {
      assert PriceIs(item, item[Price].fields);
    }
  }

  /** An object without items names no product and no price. */
  lemma NoItemReads(o: Fields, n: int)
    requires Items !in o || o[Items].Null?
    ensures ViewSub(o).product == ViewSub(o).price == None
    ensures ViewSub(o).start == Some(n) <==> Says(o, CurrentPeriodStart, Num(n))
    ensures ViewSub(o).end == Some(n) <==> Says(o, CurrentPeriodEnd, Num(n))
  {
  }

  /** An invoice: amounts default to zero and the currency to dollars; its subscription stands in one of two places. */
  lemma InvoiceReads(o: Fields, text: string, n: int)
    ensures ViewInvoice(o).id == Some(text) <==> Says(o, Id, Str(text))
    ensures ViewInvoice(o).customer == Some(text) <==> OfCustomer(o, text)
    ensures ViewInvoice(o).amountPaid == n <==> Counts(o, AmountPaid, n)
    ensures ViewInvoice(o).amountDue == n <==> Counts(o, AmountDue, n)
    ensures ViewInvoice(o).attempts == n <==> Counts(o, AttemptCount, n)
    ensures ViewInvoice(o).currency == text <==>
            Says(o, Currency, Str(text)) || (text == "usd" && !(Currency in o && o[Currency].Str?))
    ensures ViewInvoice(o).nextRetry == Some(n) <==> Times(o, NextPaymentAttempt, n)
  {
  }

  /** The subscription an invoice is for stands in one of two places. */
  predicate ForSubscription(o: Fields, id: string) {
    && id != ""
    && if Subscription in o && !o[Subscription].Null? then Names(o[Subscription], id)
       else
         && Parent in o && o[Parent].Obj?
         && SubscriptionDetails in o[Parent].fields && o[Parent].fields[SubscriptionDetails].Obj?
         && Subscription in o[Parent].fields[SubscriptionDetails].fields
         && Names(o[Parent].fields[SubscriptionDetails].fields[Subscription], id)
  }

  lemma InvoiceSubscriptionReads(o: Fields, id: string)
    ensures ViewInvoice(o).subscription == Some(id) <==> ForSubscription(o, id)
  {
  }

  lemma CheckoutReads(o: Fields, text: string)
    ensures ViewCheckout(o).mode == Some(text) <==> Says(o, Mode, Str(text))
    ensures ViewCheckout(o).tenant == Some(text) <==> text != "" && Says(o, ClientReferenceId, Str(text))
    ensures ViewCheckout(o).customer == Some(text) <==> OfCustomer(o, text)
  {
  }

  /** The product a subscription is for, by the price of its first item. */
  ghost predicate HasProduct(o: Fields, product: string) {
    exists item: Fields, price: Fields ::
      First(o, item) && PriceIs(item, price) && Product in price && Names(price[Product], product)
  }

  ghost predicate HasPrice(o: Fields, id: string) {
    exists item: Fields, price: Fields :: First(o, item) && PriceIs(item, price) && Says(price, Id, Str(id))
  }

  lemma ProductReads(o: Fields, text: string)
    ensures ViewSub(o).product == Some(text) <==> HasProduct(o, text)
    ensures ViewSub(o).price == Some(text) <==> HasPrice(o, text)
  {
    var list := ItemsOf(o);
    if list.Some? && list.value != [] && list.value[0].Obj? {
      var item := list.value[0].fields;
      assert First(o, item);
      ItemReads(o, item, text, 0);
    }
  }

  /** The plan of a subscription: that of its product, or that of its price when the product is unlisted. */
  ghost predicate MapsTo(products: map<string, string>, o: Fields, plan: string) {
    && plan != ""
    && ((exists p :: HasProduct(o, p) && p != "" && p in products && products[p] == plan)
        || (&& (exists q :: HasPrice(o, q) && q != "" && q in products && products[q] == plan)
            && (forall p :: HasProduct(o, p) ==> p != "" && p !in products)))
  }

  /** Nothing maps the subscription, although it names a product or a price. */
  ghost predicate Unmapped(products: map<string, string>, o: Fields) {
    && (exists p :: p != "" && (HasProduct(o, p) || HasPrice(o, p)))
    && forall plan :: !MapsTo(products, o, plan)
  }

  lemma MappingReads(cfg: Config, o: Fields, plan: string)
    ensures MappedPlan(cfg, ViewSub(o)) == Some(plan) <==> MapsTo(cfg.products, o, plan)
  {
    var v := ViewSub(o);
    forall text
      ensures v.product == Some(text) <==> HasProduct(o, text)
      ensures v.price == Some(text) <==> HasPrice(o, text)
    {
      ProductReads(o, text);
    }
  }

  /** The four events after which the subscription stands as it is told. */
  predicate Upserts(e: Event) {
    e.etype in {SubscriptionType(WasCreated), SubscriptionType(WasUpdated),
                SubscriptionType(WasPaused), SubscriptionType(WasResumed)}
  }

  predicate Deletes(e: Event) {
    e.etype == SubscriptionType(WasDeleted)
  }

  lemma SyncRoute(cfg: Config, w: World, e: Event, now: int, fault: Fault)
    requires Upserts(e) || Deletes(e)
    ensures Dispatch(cfg, w, e, now, fault) == Sync(cfg, w, ViewSub(e.body), e.body, e.created, Deletes(e), fault)
  {
  }

  lemma SyncedPlan(cfg: Config, w: World, v: SubView, raw: Fields, created: int, downgrade: bool, fault: Fault,
                   w': World, tenant: string, id: string)
    requires v.id == Some(id)
    requires Sync(cfg, w, v, raw, created, downgrade, fault) == (w', Synced(tenant))
    ensures tenant in w'.plans && id in w'.mirror
    ensures var plan := w'.plans[tenant].plan;
            && w'.plans == w.plans[tenant := PlanRow(plan, "stripe", None)]
            && w'.mirror[id].plan == plan
            && (downgrade ==> plan == cfg.defaultPlan && w'.emitted == w.emitted)
            && (!downgrade && MappedPlan(cfg, v).Some? ==> Some(plan) == MappedPlan(cfg, v) && w'.emitted == w.emitted)
            && (!downgrade && MappedPlan(cfg, v).None? ==>
                  && plan == cfg.defaultPlan
                  && w'.emitted == w.emitted +
                     if Nonempty(v.product).Some? || Nonempty(v.price).Some?
                     then [Misconfigured(id, v.product, v.price)] else [])
  {
  }

  /** An accepted deletion leaves tenant and mirror row on the default plan, whatever the items are. */
  lemma DeletionTakesTheDefault(cfg: Config, w: World, e: Event, now: int, fault: Fault,
                                w': World, tenant: string, id: string)
    requires Deletes(e) && Says(e.body, Id, Str(id))
    requires Dispatch(cfg, w, e, now, fault) == (w', Synced(tenant))
    ensures w'.plans == w.plans[tenant := PlanRow(cfg.defaultPlan, "stripe", None)]
    ensures id in w'.mirror && w'.mirror[id].plan == cfg.defaultPlan
    ensures w'.emitted == w.emitted
  {
    SyncRoute(cfg, w, e, now, fault);
    SubscriptionReads(e.body, id, 0);
    SyncedPlan(cfg, w, ViewSub(e.body), e.body, e.created, true, fault, w', tenant, id);
  }

  /** An accepted upsert leaves both on the mapped plan, or on the default plan when there is none. */
  lemma UpsertTakesThePlan(cfg: Config, w: World, e: Event, now: int, fault: Fault,
                           w': World, tenant: string, id: string)
    requires Upserts(e) && Says(e.body, Id, Str(id))
    requires Dispatch(cfg, w, e, now, fault) == (w', Synced(tenant))
    ensures tenant in w'.plans && id in w'.mirror
    ensures var plan := w'.plans[tenant].plan;
            && w'.plans == w.plans[tenant := PlanRow(plan, "stripe", None)]
            && w'.mirror[id].plan == plan
            && (MapsTo(cfg.products, e.body, plan)
                || (plan == cfg.defaultPlan && forall other :: !MapsTo(cfg.products, e.body, other)))
  {
    var v := ViewSub(e.body);
    SyncRoute(cfg, w, e, now, fault);
    SubscriptionReads(e.body, id, 0);
    SyncedPlan(cfg, w, v, e.body, e.created, false, fault, w', tenant, id);
    forall plan ensures MappedPlan(cfg, v) == Some(plan) <==> MapsTo(cfg.products, e.body, plan) {
      MappingReads(cfg, e.body, plan);
    }
    assert MappedPlan(cfg, v).Some? ==> MapsTo(cfg.products, e.body, MappedPlan(cfg, v).value);
  }

  /** The warning names the product and the price of the object. */
  ghost predicate Warned(o: Fields, w: World, w': World, id: string) {
    exists product, price ::
      && w'.emitted == w.emitted + [Misconfigured(id, product, price)]
      && (forall text :: product == Some(text) <==> HasProduct(o, text))
      && (forall text :: price == Some(text) <==> HasPrice(o, text))
  }

  lemma WarnedOrNot(cfg: Config, v: SubView, o: Fields, w: World, w': World, id: string)
    requires forall plan :: MappedPlan(cfg, v) == Some(plan) <==> MapsTo(cfg.products, o, plan)
    requires forall text :: v.product == Some(text) <==> HasProduct(o, text)
    requires forall text :: v.price == Some(text) <==> HasPrice(o, text)
    requires MappedPlan(cfg, v).Some? ==> w'.emitted == w.emitted
    requires MappedPlan(cfg, v).None? ==>
               w'.emitted == w.emitted +
               if Nonempty(v.product).Some? || Nonempty(v.price).Some?
               then [Misconfigured(id, v.product, v.price)] else []
    ensures !Unmapped(cfg.products, o) ==> w'.emitted == w.emitted
    ensures Unmapped(cfg.products, o) ==> w'.emitted == w.emitted + [Misconfigured(id, v.product, v.price)]
  {
    assert MappedPlan(cfg, v).Some? ==> MapsTo(cfg.products, o, MappedPlan(cfg, v).value);
    assert v.product.Some? ==> HasProduct(o, v.product.value);
    assert v.price.Some? ==> HasPrice(o, v.price.value);
  }

  lemma WarningReads(cfg: Config, o: Fields, w: World, w': World, id: string)
    requires MappedPlan(cfg, ViewSub(o)).Some? ==> w'.emitted == w.emitted
    requires MappedPlan(cfg, ViewSub(o)).None? ==>
               w'.emitted == w.emitted +
               if Nonempty(ViewSub(o).product).Some? || Nonempty(ViewSub(o).price).Some?
               then [Misconfigured(id, ViewSub(o).product, ViewSub(o).price)] else []
    ensures if Unmapped(cfg.products, o) then Warned(o, w, w', id) else w'.emitted == w.emitted
  {
    var v := ViewSub(o);
    forall plan ensures MappedPlan(cfg, v) == Some(plan) <==> MapsTo(cfg.products, o, plan) {
      MappingReads(cfg, o, plan);
    }
    forall text
      ensures v.product == Some(text) <==> HasProduct(o, text)
      ensures v.price == Some(text) <==> HasPrice(o, text)
    {
      ProductReads(o, text);
    }
    WarnedOrNot(cfg, v, o, w, w', id);
  }

  lemma UpsertEmits(cfg: Config, w: World, e: Event, now: int, fault: Fault, w': World, tenant: string, id: string)
    requires Upserts(e) && Says(e.body, Id, Str(id))
    requires Dispatch(cfg, w, e, now, fault) == (w', Synced(tenant))
    ensures MappedPlan(cfg, ViewSub(e.body)).Some? ==> w'.emitted == w.emitted
    ensures MappedPlan(cfg, ViewSub(e.body)).None? ==>
              w'.emitted == w.emitted +
              if Nonempty(ViewSub(e.body).product).Some? || Nonempty(ViewSub(e.body).price).Some?
              then [Misconfigured(id, ViewSub(e.body).product, ViewSub(e.body).price)] else []
  {
    SyncRoute(cfg, w, e, now, fault);
    SubscriptionReads(e.body, id, 0);
    SyncedPlan(cfg, w, ViewSub(e.body), e.body, e.created, false, fault, w', tenant, id);
  }

  /** An accepted upsert warns exactly when nothing maps the product or price that it names. */
  lemma UpsertWarns(cfg: Config, w: World, e: Event, now: int, fault: Fault,
                    w': World, tenant: string, id: string)
    requires Upserts(e) && Says(e.body, Id, Str(id))
    requires Dispatch(cfg, w, e, now, fault) == (w', Synced(tenant))
    ensures if Unmapped(cfg.products, e.body) then Warned(e.body, w, w', id) else w'.emitted == w.emitted
  {
    UpsertEmits(cfg, w, e, now, fault, w', tenant, id);
    WarningReads(cfg, e.body, w, w', id);
  }

  lemma SyncedFields(cfg: Config, w: World, v: SubView, raw: Fields, created: int, downgrade: bool, fault: Fault,
                     w': World, tenant: string, id: string)
    requires v.id == Some(id)
    requires Sync(cfg, w, v, raw, created, downgrade, fault) == (w', Synced(tenant))
    ensures v.customer.Some? && v.customer.value in w.customers && w.customers[v.customer.value].tenant == tenant
    ensures w'.customers == w.customers && id in w'.mirror && w'.mirror - {id} == w.mirror - {id}
    ensures var row := w'.mirror[id];
            && row.tenant == tenant && row.lastEventAt == created && row.raw == raw && Some(row.status) == v.status
            && (if v.start.Some? then row.periodStart == v.start.value else row.periodStart == created)
            && (if v.end.Some? then row.periodEnd == v.end.value else row.periodEnd == created)
            && row.cancelAtPeriodEnd == v.cancelAtPeriodEnd && row.cancelAt == v.cancelAt
            && row.canceledAt == v.canceledAt && row.trialEnd == v.trialEnd
  {
  }

  /** The row that an accepted event writes, field by field; no other row and no customer changes. */
  lemma SyncedRow(cfg: Config, w: World, e: Event, now: int, fault: Fault, w': World, tenant: string, id: string)
    requires (Upserts(e) || Deletes(e)) && Says(e.body, Id, Str(id))
    requires Dispatch(cfg, w, e, now, fault) == (w', Synced(tenant))
    ensures exists customer ::
              OfCustomer(e.body, customer) && customer in w.customers && w.customers[customer].tenant == tenant
    ensures w'.customers == w.customers && id in w'.mirror && w'.mirror - {id} == w.mirror - {id}
    ensures var (row, v) := (w'.mirror[id], ViewSub(e.body));
            && row.tenant == tenant && row.lastEventAt == e.created && row.raw == e.body
            && Says(e.body, Status, Str(row.status))
            && (if v.start.Some? then row.periodStart == v.start.value else row.periodStart == e.created)
            && (if v.end.Some? then row.periodEnd == v.end.value else row.periodEnd == e.created)
            && row.cancelAtPeriodEnd == v.cancelAtPeriodEnd && row.cancelAt == v.cancelAt
            && row.canceledAt == v.canceledAt && row.trialEnd == v.trialEnd
  {
    SyncRoute(cfg, w, e, now, fault);
    SubscriptionReads(e.body, id, 0);
    SyncedFields(cfg, w, ViewSub(e.body), e.body, e.created, Deletes(e), fault, w', tenant, id);
    SubscriptionReads(e.body, w'.mirror[id].status, 0);
    SubscriptionReads(e.body, ViewSub(e.body).customer.value, 0);
  }

  lemma UnknownCustomer(cfg: Config, w: World, v: SubView, raw: Fields, created: int, downgrade: bool, fault: Fault)
    ensures var (w', r) := Sync(cfg, w, v, raw, created, downgrade, fault);
            && (v.customer.None? || v.customer.value !in w.customers <==> r == Threw(Billing(TenantNotResolvable)))
            && (r == Threw(Billing(TenantNotResolvable)) ==> w' == w)
  {
  }

  /** A subscription event of a customer that has no row throws the error a retry may cure, and nothing changes. */
  lemma NoCustomerNoSync(cfg: Config, w: World, e: Event, now: int, fault: Fault, w': World, r: Outcome)
    requires (Upserts(e) || Deletes(e)) && Dispatch(cfg, w, e, now, fault) == (w', r)
    ensures (forall customer :: OfCustomer(e.body, customer) ==> customer !in w.customers) <==>
            r == Threw(Billing(TenantNotResolvable))
    ensures r == Threw(Billing(TenantNotResolvable)) ==> w' == w
  {
    var v := ViewSub(e.body);
    SyncRoute(cfg, w, e, now, fault);
    UnknownCustomer(cfg, w, v, e.body, e.created, Deletes(e), fault);
    forall customer ensures v.customer == Some(customer) <==> OfCustomer(e.body, customer) {
      SubscriptionReads(e.body, customer, 0);
    }
  }

  lemma KnownCustomer(cfg: Config, w: World, v: SubView, raw: Fields, created: int, downgrade: bool, fault: Fault,
                      customer: string, id: string, status: string, plan: string)
    requires v.customer == Some(customer) && customer in w.customers && v.id == Some(id) && v.status == Some(status)
    requires plan == if !downgrade && MappedPlan(cfg, v).Some? then MappedPlan(cfg, v).value else cfg.defaultPlan
    ensures var (w', r) := Sync(cfg, w, v, raw, created, downgrade, fault);
            && (r == Stale <==> id in w.mirror && w.mirror[id].lastEventAt > created + 5)
            && (r == Stale ==> w' == w)
            && (r != Stale && fault == NoFault ==>
                  (r == Synced(w.customers[customer].tenant) <==>
                   && (cfg.definitions.Some? ==> plan in cfg.definitions.value)
                   && status in {"incomplete", "incomplete_expired", "trialing", "active",
                                 "past_due", "canceled", "unpaid", "paused"}))
            && (cfg.definitions.Some? && plan !in cfg.definitions.value ==> w'.plans == w.plans)
            && (!r.Synced? ==> r in {Stale, Threw(Unhandled)} && w'.mirror == w.mirror)
  {
  }

  /** The plan an event asks for: the default for a deletion and for an upsert that nothing maps. */
  ghost predicate AsksFor(cfg: Config, e: Event, plan: string) {
    || (Upserts(e) && MapsTo(cfg.products, e.body, plan))
    || (Upserts(e) && plan == cfg.defaultPlan && forall other :: !MapsTo(cfg.products, e.body, other))
    || (Deletes(e) && plan == cfg.defaultPlan)
  }

  lemma AskedPlan(cfg: Config, e: Event, plan: string)
    requires AsksFor(cfg, e, plan)
    ensures var mapped := MappedPlan(cfg, ViewSub(e.body));
            plan == if !Deletes(e) && mapped.Some? then mapped.value else cfg.defaultPlan
  {
    forall other ensures MappedPlan(cfg, ViewSub(e.body)) == Some(other) <==> MapsTo(cfg.products, e.body, other) {
      MappingReads(cfg, e.body, other);
    }
    var mapped := MappedPlan(cfg, ViewSub(e.body));
    assert mapped.Some? ==> MapsTo(cfg.products, e.body, mapped.value);
  }

  /** For a known customer: stale beyond five seconds, otherwise accepted unless plan or status is unheard of. */
  lemma SyncAnswers(cfg: Config, w: World, e: Event, now: int, fault: Fault, w': World, r: Outcome,
                    customer: string, id: string, status: string, plan: string)
    requires AsksFor(cfg, e, plan) && Dispatch(cfg, w, e, now, fault) == (w', r)
    requires OfCustomer(e.body, customer) && customer in w.customers
    requires Says(e.body, Id, Str(id)) && Says(e.body, Status, Str(status))
    ensures r == Stale <==> id in w.mirror && w.mirror[id].lastEventAt > e.created + 5
    ensures r == Stale ==> w' == w
    ensures r != Stale && fault == NoFault ==>
              (r == Synced(w.customers[customer].tenant) <==>
               && (cfg.definitions.Some? ==> plan in cfg.definitions.value)
               && status in {"incomplete", "incomplete_expired", "trialing", "active",
                             "past_due", "canceled", "unpaid", "paused"})
    ensures cfg.definitions.Some? && plan !in cfg.definitions.value ==> w'.plans == w.plans
    ensures !r.Synced? ==> r in {Stale, Threw(Unhandled)} && w'.mirror == w.mirror
  {
    SyncRoute(cfg, w, e, now, fault);
    SubscriptionReads(e.body, customer, 0);
    SubscriptionReads(e.body, id, 0);
    SubscriptionReads(e.body, status, 0);
    AskedPlan(cfg, e, plan);
    KnownCustomer(cfg, w, ViewSub(e.body), e.body, e.created, Deletes(e), fault, customer, id, status, plan);
  }

  /** Assigning a plan: refused when undeclared, otherwise the row is there; only a needed cache delete can fail. */
  lemma AssignMeans(cfg: Config, plans: map<string, PlanRow>, tenant: string, plan: string, source: string,
                    fault: Fault)
    ensures var (plans', ok) := Assign(cfg, plans, tenant, plan, source, fault);
            && ((cfg.definitions.Some? && plan !in cfg.definitions.value) || fault == PlanWriteFails ==>
                  !ok && plans' == plans)
            && (cfg.definitions.None? || plan in cfg.definitions.value ==> fault != PlanWriteFails ==>
                  && plans' == plans[tenant := PlanRow(plan, source, None)]
                  && (ok <==> fault != CacheDeleteFails || plans' == plans))
  {
    assert tenant in plans && plans[tenant] == PlanRow(plan, source, None) ==>
             plans[tenant := PlanRow(plan, source, None)] == plans;
  }

  /** May an event of this time still touch the row? Five seconds of disorder are allowed. */
  predicate Timely(row: Mirror, created: int) {
    row.lastEventAt <= created + 5
  }

  /** The row with the status that a payment gives it. */
  function Turned(row: Mirror, status: string, created: int): (r: Mirror)
    ensures r.status == status && r.lastEventAt == created
    ensures r.(status := row.status, lastEventAt := row.lastEventAt) == row
  {
    row.(status := status, lastEventAt := created)
  }

  lemma SubscriptionOf(o: Fields)
    ensures forall id :: ViewInvoice(o).subscription == Some(id) <==> ForSubscription(o, id)
  {
    forall id ensures ViewInvoice(o).subscription == Some(id) <==> ForSubscription(o, id) {
      InvoiceSubscriptionReads(o, id);
    }
  }

  /** A paid invoice of a known customer: the notice, and a row that is past due or unpaid turns active. */
  lemma PaymentMeans(cfg: Config, w: World, e: Event, now: int, fault: Fault, w': World, r: Outcome, customer: string)
    requires e.etype == PaymentSucceeded && Dispatch(cfg, w, e, now, fault) == (w', r)
    requires OfCustomer(e.body, customer) && customer in w.customers
    ensures w'.customers == w.customers && w'.plans == w.plans
    ensures forall id :: ForSubscription(e.body, id) && id in w.mirror ==>
              var row := w.mirror[id];
              var recovers := row.status in {"past_due", "unpaid"} && Timely(row, e.created);
              && (r == Threw(Unhandled) <==> recovers && fault == RowSaveFails)
              && (r != Threw(Unhandled) ==>
                    w'.mirror == if recovers then w.mirror[id := Turned(row, "active", e.created)] else w.mirror)
    ensures (forall id :: ForSubscription(e.body, id) ==> id !in w.mirror) ==>
              r != Threw(Unhandled) && w'.mirror == w.mirror
    ensures var (v, tenant) := (ViewInvoice(e.body), w.customers[customer].tenant);
            if r == Threw(Unhandled) then w' == w
            else r == EventEmitted(tenant) && w'.emitted == w.emitted + [Paid(tenant, v.id, v.amountPaid, v.currency)]
  {
    InvoiceReads(e.body, customer, 0);
    SubscriptionOf(e.body);
  }

  /** A failed payment before the last attempt is only told of: plans and mirror stay as they were. */
  lemma EarlyFailureOnlyTells(cfg: Config, w: World, e: Event, now: int, fault: Fault, w': World, r: Outcome,
                              customer: string, attempts: int)
    requires e.etype == PaymentFailed && Dispatch(cfg, w, e, now, fault) == (w', r)
    requires OfCustomer(e.body, customer) && customer in w.customers
    requires Counts(e.body, AttemptCount, attempts) && attempts < cfg.maxAttempts
    ensures var (v, tenant) := (ViewInvoice(e.body), w.customers[customer].tenant);
            && r == EventEmitted(tenant)
            && w' == w.(emitted := w.emitted +
                          [NotPaid(tenant, v.id, v.amountDue, v.currency, attempts, false, v.nextRetry)])
  {
    InvoiceReads(e.body, customer, attempts);
  }

  /** The last failed attempt: the row turns past due, and the plan goes to the default when so configured. */
  lemma FinalFailureMeans(cfg: Config, w: World, e: Event, now: int, fault: Fault, w': World, r: Outcome,
                          customer: string, attempts: int)
    requires e.etype == PaymentFailed && Dispatch(cfg, w, e, now, fault) == (w', r)
    requires OfCustomer(e.body, customer) && customer in w.customers
    requires Counts(e.body, AttemptCount, attempts) && attempts >= cfg.maxAttempts
    ensures w'.customers == w.customers
    ensures forall id :: ForSubscription(e.body, id) && id in w.mirror ==>
              var row := w.mirror[id];
              var falls := row.status !in {"past_due", "canceled"} && Timely(row, e.created);
              && (r == Threw(Unhandled) <==> falls && fault == RowSaveFails)
              && (r != Threw(Unhandled) ==>
                    w'.mirror == if falls then w.mirror[id := Turned(row, "past_due", e.created)] else w.mirror)
    ensures (forall id :: ForSubscription(e.body, id) ==> id !in w.mirror) ==>
              r != Threw(Unhandled) && w'.mirror == w.mirror
    ensures var (v, tenant) := (ViewInvoice(e.body), w.customers[customer].tenant);
            if r == Threw(Unhandled) then w' == w
            else
              && r == EventEmitted(tenant)
              && w'.emitted == w.emitted +
                 [NotPaid(tenant, v.id, v.amountDue, v.currency, attempts, true, v.nextRetry)]
              && w'.plans ==
                 if cfg.downgradeOnDunning && cfg.defaultPlan != "" && fault != PlanWriteFails
                    && (cfg.definitions.Some? ==> cfg.defaultPlan in cfg.definitions.value)
                 then w.plans[tenant := PlanRow(cfg.defaultPlan, "dunning", None)] else w.plans
  {
    InvoiceReads(e.body, customer, attempts);
    SubscriptionOf(e.body);
    AssignMeans(cfg, w.plans, w.customers[customer].tenant, cfg.defaultPlan, "dunning", fault);
  }

  /** The trial notice carries the days left, a started day counting as a day and a past end as none. */
  lemma TrialMeans(cfg: Config, w: World, e: Event, now: int, fault: Fault, w': World, r: Outcome,
                   customer: string, end: int)
    requires e.etype == SubscriptionType(TrialWillEnd) && Dispatch(cfg, w, e, now, fault) == (w', r)
    requires OfCustomer(e.body, customer) && customer in w.customers && Times(e.body, TrialEnd, end)
    ensures var tenant := w.customers[customer].tenant;
            && r == EventEmitted(tenant)
            && exists days: nat ::
                 && (if end <= now then days == 0 else (days - 1) * 86400 < end - now <= days * 86400)
                 && w' == w.(emitted := w.emitted + [TrialEnding(tenant, ViewSub(e.body).id, days)])
  {
    SubscriptionReads(e.body, customer, end);
    assert w'.emitted == w.emitted +
                         [TrialEnding(w.customers[customer].tenant, ViewSub(e.body).id, DaysLeft(Some(end), now))];
  }

  /** A trial whose end is not told has no days left. */
  lemma OpenTrial(cfg: Config, w: World, e: Event, now: int, fault: Fault, customer: string)
    requires e.etype == SubscriptionType(TrialWillEnd)
    requires OfCustomer(e.body, customer) && customer in w.customers
    requires forall end :: !Times(e.body, TrialEnd, end)
    ensures var tenant := w.customers[customer].tenant;
            Dispatch(cfg, w, e, now, fault) ==
            (w.(emitted := w.emitted + [TrialEnding(tenant, ViewSub(e.body).id, 0)]), EventEmitted(tenant))
  {
    SubscriptionReads(e.body, customer, 0);
    if ViewSub(e.body).trialEnd.Some? {
      SubscriptionReads(e.body, customer, ViewSub(e.body).trialEnd.value);
    }
  }

  /** Without a known customer the three notices are not sent, and nothing changes. */
  lemma UnknownIsIgnored(cfg: Config, w: World, e: Event, now: int, fault: Fault)
    requires e.etype in {SubscriptionType(TrialWillEnd), PaymentSucceeded, PaymentFailed}
    requires forall customer :: OfCustomer(e.body, customer) ==> customer !in w.customers
    ensures Dispatch(cfg, w, e, now, fault) == (w, Noop(None))
  {
    forall customer
      ensures ViewSub(e.body).customer == Some(customer) <==> OfCustomer(e.body, customer)
      ensures ViewInvoice(e.body).customer == Some(customer) <==> OfCustomer(e.body, customer)
    {
      SubscriptionReads(e.body, customer, 0);
      InvoiceReads(e.body, customer, 0);
    }
  }

  /** A checkout links its customer to its tenant, once: a tenant that has a customer keeps it. */
  lemma CheckoutLinks(cfg: Config, w: World, e: Event, now: int, fault: Fault, w': World, r: Outcome,
                      tenant: string, customer: string)
    requires e.etype == CheckoutCompleted && Dispatch(cfg, w, e, now, fault) == (w', r)
    requires Says(e.body, Mode, Str("subscription")) || Says(e.body, Mode, Str("payment"))
    requires Says(e.body, ClientReferenceId, Str(tenant)) && tenant != "" && OfCustomer(e.body, customer)
    ensures if exists c :: c in w.customers && w.customers[c].tenant == tenant then w' == w && r == Noop(Some(tenant))
            else if customer in w.customers || fault == RowSaveFails then w' == w && r == Threw(Unhandled)
            else w' == w.(customers := w.customers[customer := CustomerRow(tenant, None)]) && r == Synced(tenant)
  {
    CheckoutReads(e.body, "subscription");
    CheckoutReads(e.body, "payment");
    CheckoutReads(e.body, tenant);
    CheckoutReads(e.body, customer);
  }

  /** Another mode, no tenant or no customer: nothing happens. */
  lemma OtherCheckoutsLinkNothing(cfg: Config, w: World, e: Event, now: int, fault: Fault)
    requires e.etype == CheckoutCompleted
    requires || !(Says(e.body, Mode, Str("subscription")) || Says(e.body, Mode, Str("payment")))
             || (forall tenant :: tenant != "" ==> !Says(e.body, ClientReferenceId, Str(tenant)))
             || (forall customer :: !OfCustomer(e.body, customer))
    ensures Dispatch(cfg, w, e, now, fault) == (w, Noop(None))
  {
    var v := ViewCheckout(e.body);
    CheckoutReads(e.body, "subscription");
    CheckoutReads(e.body, "payment");
    if v.tenant.Some? && v.customer.Some? {
      CheckoutReads(e.body, v.tenant.value);
      CheckoutReads(e.body, v.customer.value);
    }
  }

  /** A deleted customer keeps its row and its tenant; only the time of deletion is set. */
  lemma CustomerGoes(cfg: Config, w: World, e: Event, now: int, fault: Fault, w': World, r: Outcome, id: string)
    requires e.etype == CustomerDeleted && Says(e.body, Id, Str(id))
    requires Dispatch(cfg, w, e, now, fault) == (w', r)
    ensures if id !in w.customers then w' == w && r == Noop(None)
            else if fault == RowSaveFails then w' == w && r == Threw(Unhandled)
            else
              var tenant := w.customers[id].tenant;
              w' == w.(customers := w.customers[id := CustomerRow(tenant, Some(now))]) && r == Synced(tenant)
  {
  }

  /** Every other type is left alone. */
  lemma OthersAreIgnored(cfg: Config, w: World, e: Event, now: int, fault: Fault)
    requires || e.etype.UnmappedType? || e.etype.OtherInvoiceType?
             || (e.etype.SubscriptionType? && e.etype.action.OtherAction?)
    ensures Dispatch(cfg, w, e, now, fault) == (w, Noop(None))
  {
  }
}
