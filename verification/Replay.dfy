/** Dispatching the rebuilt copy of an event does what dispatching the event does. */
module Replay {
  import opened Json
  import opened StripeEvent
  import opened Billing

  /** Two mirror tables that differ at most in the stored Stripe object. */
  ghost predicate SameRows(a: map<string, Mirror>, b: map<string, Mirror>) {
    && a.Keys == b.Keys
    && forall id :: id in a ==> a[id] == b[id].(raw := a[id].raw)
  }

  ghost predicate SameButRaw(a: World, b: World) {
    a.customers == b.customers && a.plans == b.plans && a.emitted == b.emitted && SameRows(a.mirror, b.mirror)
  }

  /** Same outcome or error, same package events, same writes but for `raw`. */
  ghost predicate SameEffect(x: (World, Outcome), y: (World, Outcome)) {
    x.1 == y.1 && SameButRaw(x.0, y.0)
  }

  ghost predicate SameMeaning(cfg: Config, w: World, e: Event, now: int, fault: Fault) {
    SameEffect(Dispatch(cfg, w, e, now, fault), Dispatch(cfg, w, Replayed(e), now, fault))
  }

  /** The subscription reference in the newer of the two places an invoice may keep it. */
  function ParentRef(o: Fields): Option<Json> {
    Get(Get(At(o, Parent), SubscriptionDetails), Subscription)
  }

  /** An invoice whose top-level subscription is present but has no id, next to a parent reference that has one. */
  predicate IdlessSubscription(o: Fields) {
    && !Missing(At(o, Subscription))
    && IdOf(At(o, Subscription)).None?
    && Nonempty(IdOf(ParentRef(o))).Some?
  }

  /** A subscription item with an empty product id next to a price id: the handler stops at the empty product. */
  predicate EmptyProduct(o: Fields) {
    ViewSub(o).product == Some("") && Nonempty(ViewSub(o).price).Some?
  }

  /** The event's own fields rule out the two shapes that the stripped copy cannot keep. */
  predicate ReadsAlike(e: Event) {
    match e.etype
    case SubscriptionType(WasDeleted) => true
    case SubscriptionType(TrialWillEnd) => true
    case SubscriptionType(OtherAction(_)) => true
    case SubscriptionType(_) => ViewSub(e.body).customer.Some? && ViewSub(e.body).id.Some? ==> !EmptyProduct(e.body)
    case PaymentSucceeded => ViewInvoice(e.body).customer.Some? ==> !IdlessSubscription(e.body)
    case PaymentFailed => ViewInvoice(e.body).customer.Some? ==> !IdlessSubscription(e.body)
    case _ => true
  }

  lemma FirstItemReplayed(t: EventType, o: Fields)
    requires t.SubscriptionType?
    ensures FirstItem(Project(t, o)) ==
            if FirstItem(o).Some? then Some(KeptItem(FirstItem(o).value)) else None
  {
    ProjectAt(t, o, Items);
    ItemsKept(o, Project(t, o));
  }

  lemma ItemReplayed(item: Option<Json>, kept: Option<Json>)
    requires kept == if item.Some? then Some(KeptItem(item.value)) else None
    ensures NumOf(Get(kept, CurrentPeriodStart)) == NumOf(Get(item, CurrentPeriodStart))
    ensures NumOf(Get(kept, CurrentPeriodEnd)) == NumOf(Get(item, CurrentPeriodEnd))
    ensures StrOf(Get(Get(kept, Price), Id)) == StrOf(Get(Get(item, Price), Id))
    ensures IdOf(Get(Get(kept, Price), Product)) == Nonempty(IdOf(Get(Get(item, Price), Product)))
  {
    if item.Some? {
      KeptItemAt(item.value, CurrentPeriodStart);
      KeptItemAt(item.value, CurrentPeriodEnd);
      KeptPriceAt(item.value, Product);
      KeptPriceAt(item.value, Id);
    }
  }

  lemma ScalarReplayed(t: EventType, o: Fields, key: Key)
    requires t.SubscriptionType? && key != Items
    ensures At(Project(t, o), key) == KeptInSubscription(o, key)
  {
    ProjectAt(t, o, key);
  }

  lemma TimeReplayed(t: EventType, o: Fields, key: Key)
    requires t.SubscriptionType? && key in {CancelAt, CanceledAt, TrialEnd, CurrentPeriodStart, CurrentPeriodEnd}
    ensures TimeOf(At(Project(t, o), key)) == TimeOf(At(o, key))
    ensures NumOf(At(Project(t, o), key)) == NumOf(At(o, key))
  {
    ScalarReplayed(t, o, key);
  }

  lemma TextReplayed(t: EventType, o: Fields)
    requires t.SubscriptionType?
    ensures StrOf(At(Project(t, o), Id)) == StrOf(At(o, Id))
    ensures StrOf(At(Project(t, o), Status)) == StrOf(At(o, Status))
    ensures Nonempty(IdOf(At(Project(t, o), Customer))) == Nonempty(IdOf(At(o, Customer)))
    ensures BoolOf(At(Project(t, o), CancelAtPeriodEnd)) == BoolOf(At(o, CancelAtPeriodEnd))
  {
    ScalarReplayed(t, o, Id);
    ScalarReplayed(t, o, Status);
    ScalarReplayed(t, o, Customer);
    ScalarReplayed(t, o, CancelAtPeriodEnd);
  }

  /** A replayed subscription reads the same, except that an empty product id has become absent. */
  lemma ViewSubReplayed(t: EventType, o: Fields)
    requires t.SubscriptionType?
    ensures ViewSub(Project(t, o)) == ViewSub(o).(product := Nonempty(ViewSub(o).product))
  {
    FirstItemReplayed(t, o);
    ItemReplayed(FirstItem(o), FirstItem(Project(t, o)));
    TextReplayed(t, o);
    TimeReplayed(t, o, CancelAt);
    TimeReplayed(t, o, CanceledAt);
    TimeReplayed(t, o, TrialEnd);
    TimeReplayed(t, o, CurrentPeriodStart);
    TimeReplayed(t, o, CurrentPeriodEnd);
    ViewSubAlike(o, Project(t, o));
  }

  /** A view is determined by its fields. */
  lemma ViewSubAlike(o: Fields, o': Fields)
    requires StrOf(At(o', Id)) == StrOf(At(o, Id)) && StrOf(At(o', Status)) == StrOf(At(o, Status))
    requires Nonempty(IdOf(At(o', Customer))) == Nonempty(IdOf(At(o, Customer)))
    requires BoolOf(At(o', CancelAtPeriodEnd)) == BoolOf(At(o, CancelAtPeriodEnd))
    requires TimeOf(At(o', CancelAt)) == TimeOf(At(o, CancelAt))
    requires TimeOf(At(o', CanceledAt)) == TimeOf(At(o, CanceledAt))
    requires TimeOf(At(o', TrialEnd)) == TimeOf(At(o, TrialEnd))
    requires NumOf(At(o', CurrentPeriodStart)) == NumOf(At(o, CurrentPeriodStart))
    requires NumOf(At(o', CurrentPeriodEnd)) == NumOf(At(o, CurrentPeriodEnd))
    requires NumOf(Get(FirstItem(o'), CurrentPeriodStart)) == NumOf(Get(FirstItem(o), CurrentPeriodStart))
    requires NumOf(Get(FirstItem(o'), CurrentPeriodEnd)) == NumOf(Get(FirstItem(o), CurrentPeriodEnd))
    requires StrOf(Get(Get(FirstItem(o'), Price), Id)) == StrOf(Get(Get(FirstItem(o), Price), Id))
    requires IdOf(Get(Get(FirstItem(o'), Price), Product)) == Nonempty(IdOf(Get(Get(FirstItem(o), Price), Product)))
    ensures ViewSub(o') == ViewSub(o).(product := Nonempty(ViewSub(o).product))
  {
  }

  lemma InvoiceFieldReplayed(t: EventType, o: Fields, key: Key)
    requires t.IsInvoice()
    ensures key in {Id, Currency} ==> StrOf(At(Project(t, o), key)) == StrOf(At(o, key))
    ensures key in {AmountPaid, AmountDue, AttemptCount, NextPaymentAttempt} ==>
              NumOf(At(Project(t, o), key)) == NumOf(At(o, key)) && TimeOf(At(Project(t, o), key)) == TimeOf(At(o, key))
    ensures key == Customer ==> Nonempty(IdOf(At(Project(t, o), key))) == Nonempty(IdOf(At(o, key)))
  {
    ProjectAt(t, o, key);
  }

  lemma InvoiceSubscriptionReplayed(t: EventType, o: Fields)
    requires t.IsInvoice()
    ensures InvoiceSubscription(Project(t, o)) == Nonempty(InvoiceRef(o))
  {
    ProjectAt(t, o, Subscription);
    ProjectAt(t, o, Parent);
    assert At(Project(t, o), Subscription) == OptStr(Nonempty(InvoiceRef(o)));
    assert At(Project(t, o), Parent) == None;
  }

  lemma ViewInvoiceReplayed(t: EventType, o: Fields)
    requires t.IsInvoice()
    ensures ViewInvoice(Project(t, o)) == ViewInvoice(o).(subscription := Nonempty(InvoiceRef(o)))
  {
    InvoiceSubscriptionReplayed(t, o);
    InvoiceFieldReplayed(t, o, Id);
    InvoiceFieldReplayed(t, o, Currency);
    InvoiceFieldReplayed(t, o, AmountPaid);
    InvoiceFieldReplayed(t, o, AmountDue);
    InvoiceFieldReplayed(t, o, AttemptCount);
    InvoiceFieldReplayed(t, o, NextPaymentAttempt);
    InvoiceFieldReplayed(t, o, Customer);
  }

  /** The stripped copy and the handler agree on an invoice's subscription unless the reference has no id. */
  lemma InvoiceRefAgrees(o: Fields)
    ensures InvoiceSubscription(o) == Nonempty(InvoiceRef(o)) <==> !IdlessSubscription(o)
  {
  }

  lemma ViewCheckoutReplayed(o: Fields)
    ensures ViewCheckout(Project(CheckoutCompleted, o)) == ViewCheckout(o)
  {
    assert forall k :: At(Project(CheckoutCompleted, o), k) == KeptInCheckout(o, k);
  }

  lemma AcceptIgnoresRaw(cfg: Config, a: World, b: World, id: string, v: SubView, rawA: Fields, rawB: Fields,
                         tenant: string, created: int, downgrade: bool, fault: Fault)
    requires SameButRaw(a, b)
    ensures SameEffect(Accept(cfg, a, id, v, rawA, tenant, created, downgrade, fault),
                       Accept(cfg, b, id, v, rawB, tenant, created, downgrade, fault))
  {
  }

  /** `syncSubscription` never looks at the stored Stripe objects. */
  lemma SyncIgnoresRaw(cfg: Config, a: World, b: World, v: SubView, rawA: Fields, rawB: Fields, created: int,
                       downgrade: bool, fault: Fault)
    requires SameButRaw(a, b)
    ensures SameEffect(Sync(cfg, a, v, rawA, created, downgrade, fault),
                       Sync(cfg, b, v, rawB, created, downgrade, fault))
  {
    if v.customer.Some? && v.customer.value in a.customers && v.id.Some? {
      var tenant := a.customers[v.customer.value].tenant;
      AcceptIgnoresRaw(cfg, a, b, v.id.value, v, rawA, rawB, tenant, created, downgrade, fault);
    }
  }

  /** What matters of the product to `syncSubscription`. */
  lemma SyncReadsProduct(cfg: Config, w: World, v: SubView, raw: Fields, created: int, downgrade: bool, fault: Fault)
    requires downgrade || v.customer.None? || v.id.None? || v.product != Some("") || Nonempty(v.price).None?
    ensures Sync(cfg, w, v.(product := Nonempty(v.product)), raw, created, downgrade, fault)
            == Sync(cfg, w, v, raw, created, downgrade, fault)
  {
    var v' := v.(product := Nonempty(v.product));
    if v.product == Some("") && !downgrade && Nonempty(v.price).None? {
      assert MappedPlan(cfg, v) == MappedPlan(cfg, v') == None;
    }
  }

  /** The second command does what the first does: it differs at most in what no handler uses. */
  ghost predicate SameCommand(c: Command, c': Command) {
    match c
    case SyncSub(v, _, at, downgrade) =>
      && c'.SyncSub? && c'.at == at && c'.downgrade == downgrade
      && c'.sub == v.(product := Nonempty(v.product))
      && (v.product == Some("") ==> downgrade || v.customer.None? || v.id.None? || Nonempty(v.price).None?)
    case NoticeTrial(v) => c'.NoticeTrial? && c'.sub == v.(product := Nonempty(v.product))
    case NotePaid(v, at) =>
      c'.NotePaid? && c'.at == at && (c'.invoice == v || (v.customer.None? && c'.invoice.customer.None?))
    case NoteNotPaid(v, at) =>
      c'.NoteNotPaid? && c'.at == at && (c'.invoice == v || (v.customer.None? && c'.invoice.customer.None?))
    case _ => c' == c
  }

  lemma ReadSubAlike(e: Event, o: Fields)
    requires e.etype.SubscriptionType? && ReadsAlike(e)
    requires ViewSub(o) == ViewSub(e.body).(product := Nonempty(ViewSub(e.body).product))
    ensures SameCommand(Read(e), Read(e.(body := o)))
  {
  }

  lemma ReadSubscription(e: Event)
    requires e.etype.SubscriptionType? && ReadsAlike(e)
    ensures SameCommand(Read(e), Read(Replayed(e)))
  {
    ViewSubReplayed(e.etype, e.body);
    ReadSubAlike(e, Project(e.etype, e.body));
  }

  lemma ReadInvoice(e: Event)
    requires e.etype.IsInvoice() && ReadsAlike(e)
    ensures SameCommand(Read(e), Read(Replayed(e)))
  {
    ViewInvoiceReplayed(e.etype, e.body);
    InvoiceRefAgrees(e.body);
  }

  lemma ReadOther(e: Event)
    requires !e.etype.SubscriptionType? && !e.etype.IsInvoice()
    ensures SameCommand(Read(e), Read(Replayed(e)))
  {
    if e.etype.CheckoutCompleted? {
      ViewCheckoutReplayed(e.body);
    } else {
      ProjectAt(e.etype, e.body, Id);
    }
  }

  /** The rebuilt copy asks for the same as the event. */
  lemma ReadReplayed(e: Event)
    requires ReadsAlike(e)
    ensures SameCommand(Read(e), Read(Replayed(e)))
  {
    if e.etype.SubscriptionType? {
      ReadSubscription(e);
    } else if e.etype.IsInvoice() {
      ReadInvoice(e);
    } else {
      ReadOther(e);
    }
  }

  lemma Reflexive(x: (World, Outcome))
    ensures SameEffect(x, x)
  {
  }

  lemma PerformAlike(cfg: Config, w: World, c: Command, c': Command, now: int, fault: Fault)
    requires SameCommand(c, c')
    ensures SameEffect(Perform(cfg, w, c, now, fault), Perform(cfg, w, c', now, fault))
  {
    if c.SyncSub? {
      SyncReadsProduct(cfg, w, c.sub, c.raw, c.at, c.downgrade, fault);
      SyncIgnoresRaw(cfg, w, w, c'.sub, c.raw, c'.raw, c.at, c.downgrade, fault);
    } else if c == c' || c.NoticeTrial? {
      Reflexive(Perform(cfg, w, c, now, fault));
    } else {
      Reflexive((w, Noop(None)));
    }
  }

  /** Dispatching `e` and its rebuilt copy does the same, for every event whose fields the copy can keep. */
  lemma ReplayPreservesMeaning(cfg: Config, w: World, e: Event, now: int, fault: Fault)
    requires ReadsAlike(e)
    ensures SameMeaning(cfg, w, e, now, fault)
  {
    ReadReplayed(e);
    PerformAlike(cfg, w, Read(e), Read(Replayed(e)), now, fault);
  }

  lemma TrialIgnoresRaw(a: World, b: World, v: SubView, now: int)
    requires SameButRaw(a, b)
    ensures SameEffect(HandleTrialWillEnd(a, v, now), HandleTrialWillEnd(b, v, now))
  {
  }

  lemma CheckoutIgnoresRaw(a: World, b: World, v: CheckoutView, fault: Fault)
    requires SameButRaw(a, b)
    ensures SameEffect(HandleCheckout(a, v, fault), HandleCheckout(b, v, fault))
  {
  }

  lemma DropIgnoresRaw(a: World, b: World, id: Option<string>, now: int, fault: Fault)
    requires SameButRaw(a, b)
    ensures SameEffect(HandleCustomerDeleted(a, id, now, fault), HandleCustomerDeleted(b, id, now, fault))
  {
  }

  /** No handler looks at the stored Stripe objects. */
  lemma PerformIgnoresRaw(cfg: Config, a: World, b: World, c: Command, now: int, fault: Fault)
    requires SameButRaw(a, b)
    ensures SameEffect(Perform(cfg, a, c, now, fault), Perform(cfg, b, c, now, fault))
  {
    match c {
      case SyncSub(v, raw, at, downgrade) => SyncIgnoresRaw(cfg, a, b, v, raw, raw, at, downgrade, fault);
      case NoticeTrial(v) => TrialIgnoresRaw(a, b, v, now);
      case NotePaid(v, at) => PaymentSucceededIgnoresRaw(a, b, v, at, fault);
      case NoteNotPaid(v, at) => PaymentFailedIgnoresRaw(cfg, a, b, v, at, fault);
      case LinkCustomer(v) => CheckoutIgnoresRaw(a, b, v, fault);
      case DropCustomer(id) => DropIgnoresRaw(a, b, id, now, fault);
      case Nothing =>
    }
  }

  lemma PaymentSucceededIgnoresRaw(a: World, b: World, v: InvoiceView, created: int, fault: Fault)
    requires SameButRaw(a, b)
    ensures SameEffect(HandlePaymentSucceeded(a, v, created, fault), HandlePaymentSucceeded(b, v, created, fault))
  {
  }

  lemma PaymentFailedIgnoresRaw(cfg: Config, a: World, b: World, v: InvoiceView, created: int, fault: Fault)
    requires SameButRaw(a, b)
    ensures SameEffect(HandlePaymentFailed(cfg, a, v, created, fault), HandlePaymentFailed(cfg, b, v, created, fault))
  {
  }

  /** The second run gets some of the events from their stored copies. */
  ghost predicate SomeReplayed(ds: seq<Delivery>, rs: seq<Delivery>) {
    && |ds| == |rs|
    && forall k :: 0 <= k < |ds| ==>
         rs[k] == ds[k] || (ReadsAlike(ds[k].event) && rs[k] == ds[k].(event := Replayed(ds[k].event)))
  }

  /** Over whole runs: whichever deliveries come from stored copies, the tables end up the same. */
  lemma {:induction false} RunsAlike(cfg: Config, a: World, b: World, ds: seq<Delivery>, rs: seq<Delivery>)
    requires SameButRaw(a, b) && SomeReplayed(ds, rs)
    ensures SameButRaw(Run(cfg, a, ds), Run(cfg, b, rs))
    decreases |ds|
  {
    if ds != [] {
      var d, r := ds[0], rs[0];
      var a1 := Dispatch(cfg, a, d.event, d.now, d.fault).0;
      var b1 := Dispatch(cfg, b, r.event, r.now, r.fault).0;
      PerformIgnoresRaw(cfg, a, b, Read(d.event), d.now, d.fault);
      if r != d {
        ReplayPreservesMeaning(cfg, b, d.event, d.now, d.fault);
      }
      RunsAlike(cfg, a1, b1, ds[1..], rs[1..]);
    }
  }

  const PLAIN := Config("default", map[], None, 3, false)

  /** A world in which the empty product id shows: the customer is known and nothing is mapped. */
  function KnownCustomer(customer: string): World {
    World(map[customer := CustomerRow("tenant", None)], map[], map[], [])
  }

  lemma WarningShows(v: SubView, raw: Fields, created: int)
    requires v.customer.Some? && v.id.Some? && MappedPlan(PLAIN, v) == None && Nonempty(v.price).Some?
    ensures Sync(PLAIN, KnownCustomer(v.customer.value), v, raw, created, false, PlanWriteFails).0.emitted ==
            [Misconfigured(v.id.value, v.product, v.price)]
  {
    assert [] + [Misconfigured(v.id.value, v.product, v.price)] == [Misconfigured(v.id.value, v.product, v.price)];
  }

  lemma EmptyProductShows(e: Event)
    requires Read(e).SyncSub? && !Read(e).downgrade
    requires ViewSub(e.body).customer.Some? && ViewSub(e.body).id.Some? && EmptyProduct(e.body)
    ensures !SameMeaning(PLAIN, KnownCustomer(ViewSub(e.body).customer.value), e, 0, PlanWriteFails)
  {
    var v := ViewSub(e.body);
    ViewSubReplayed(e.etype, e.body);
    WarningShows(v, e.body, e.created);
    WarningShows(v.(product := None), Project(e.etype, e.body), e.created);
  }

  /** A world in which the parent reference of an idless subscription shows. */
  function Mirrored(customer: string, sub: string, status: string, at: int): World {
    World(map[customer := CustomerRow("tenant", None)],
          map[sub := Mirror("tenant", status, 0, 0, false, None, None, None, "plan", at, map[])], map[], [])
  }

  lemma RecoveryShows(v: InvoiceView, sub: string, at: int)
    requires v.customer.Some?
    ensures var w := Mirrored(v.customer.value, sub, "past_due", at);
            sub in HandlePaymentSucceeded(w, v, at, NoFault).0.mirror &&
            (HandlePaymentSucceeded(w, v, at, NoFault).0.mirror[sub].status == "active" <==>
             v.subscription == Some(sub))
  {
  }

  lemma IdlessSubscriptionShows(e: Event)
    requires e.etype.PaymentSucceeded?
    requires ViewInvoice(e.body).customer.Some? && IdlessSubscription(e.body)
    ensures !SameMeaning(PLAIN,
                         Mirrored(ViewInvoice(e.body).customer.value, InvoiceRef(e.body).value, "past_due", e.created),
                         e, 0, NoFault)
  {
    var sub := InvoiceRef(e.body).value;
    ViewInvoiceReplayed(e.etype, e.body);
    RecoveryShows(ViewInvoice(e.body), sub, e.created);
    RecoveryShows(ViewInvoice(Project(e.etype, e.body)), sub, e.created);
    assert InvoiceSubscription(e.body) == None;
  }

  lemma DunningShows(v: InvoiceView, sub: string, at: int)
    requires v.customer.Some?
    ensures var w := Mirrored(v.customer.value, sub, "active", at);
            var w' := HandlePaymentFailed(PLAIN.(maxAttempts := v.attempts), w, v, at, NoFault).0;
            sub in w'.mirror && (w'.mirror[sub].status == "past_due" <==> v.subscription == Some(sub))
  {
  }

  lemma IdlessSubscriptionShowsOnFailure(e: Event)
    requires e.etype.PaymentFailed?
    requires ViewInvoice(e.body).customer.Some? && IdlessSubscription(e.body)
    ensures !SameMeaning(PLAIN.(maxAttempts := ViewInvoice(e.body).attempts),
                         Mirrored(ViewInvoice(e.body).customer.value, InvoiceRef(e.body).value, "active", e.created),
                         e, 0, NoFault)
  {
    var sub := InvoiceRef(e.body).value;
    ViewInvoiceReplayed(e.etype, e.body);
    DunningShows(ViewInvoice(e.body), sub, e.created);
    DunningShows(ViewInvoice(Project(e.etype, e.body)), sub, e.created);
    assert InvoiceSubscription(e.body) == None;
  }

  /**
   Replay preserves meaning exactly for the events whose fields read alike: for any other event
   some configuration and some tables tell the event from its stored copy.
   */
  lemma ReplayExactly(e: Event)
    ensures (forall cfg, w, now, fault :: SameMeaning(cfg, w, e, now, fault)) <==> ReadsAlike(e)
  {
    if ReadsAlike(e) {
      forall cfg, w, now, fault ensures SameMeaning(cfg, w, e, now, fault) {
        ReplayPreservesMeaning(cfg, w, e, now, fault);
      }
    } else if e.etype.PaymentSucceeded? {
      IdlessSubscriptionShows(e);
    } else if e.etype.PaymentFailed? {
      IdlessSubscriptionShowsOnFailure(e);
    } else {
      EmptyProductShows(e);
    }
  }
}
