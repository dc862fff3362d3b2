/** What the five-second ordering guard gives over whole runs of deliveries. */
module DeliveryOrder {
  import opened Json
  import opened StripeEvent
  import opened BillingErrors
  import opened Billing

  function After(cfg: Config, w: World, d: Delivery): World {
    Dispatch(cfg, w, d.event, d.now, d.fault).0
  }

  ghost predicate SameRow<T>(a: map<string, T>, b: map<string, T>, id: string) {
    (id in a <==> id in b) && (id in a ==> a[id] == b[id])
  }

  /** How one step may treat the mirror row of a subscription: leave it, or write it in order with time `at`. */
  ghost predicate RowStep(a: map<string, Mirror>, b: map<string, Mirror>, id: string, at: int) {
    || SameRow(a, b, id)
    || (id in b && b[id].lastEventAt == at && InOrder(a, id, at))
  }

  lemma PaidRowStep(w: World, v: InvoiceView, at: int, fault: Fault, id: string)
    ensures RowStep(w.mirror, HandlePaymentSucceeded(w, v, at, fault).0.mirror, id, at)
    ensures id in w.mirror && w.mirror[id].status == "canceled" ==>
              id in HandlePaymentSucceeded(w, v, at, fault).0.mirror &&
              HandlePaymentSucceeded(w, v, at, fault).0.mirror[id] == w.mirror[id]
  {
  }

  lemma NotPaidRowStep(cfg: Config, w: World, v: InvoiceView, at: int, fault: Fault, id: string)
    ensures RowStep(w.mirror, HandlePaymentFailed(cfg, w, v, at, fault).0.mirror, id, at)
    ensures id in w.mirror && w.mirror[id].status == "canceled" ==>
              id in HandlePaymentFailed(cfg, w, v, at, fault).0.mirror &&
              HandlePaymentFailed(cfg, w, v, at, fault).0.mirror[id] == w.mirror[id]
  {
  }

  lemma SyncRowStep(cfg: Config, w: World, v: SubView, raw: Fields, at: int, downgrade: bool, fault: Fault, id: string)
    ensures RowStep(w.mirror, Sync(cfg, w, v, raw, at, downgrade, fault).0.mirror, id, at)
    ensures v.id != Some(id) ==> SameRow(w.mirror, Sync(cfg, w, v, raw, at, downgrade, fault).0.mirror, id)
  {
    if v.customer.Some? && v.customer.value in w.customers && v.id.Some? {
      AcceptParts(cfg, w, v.id.value, v, raw, w.customers[v.customer.value].tenant, at, downgrade, fault);
    }
  }

  /** The time that a command would stamp on a mirror row. */
  function StampOf(c: Command): int {
    match c
    case SyncSub(_, _, at, _) => at
    case NotePaid(_, at) => at
    case NoteNotPaid(_, at) => at
    case _ => 0
  }

  /** The guard holds for all three writers of the mirror. */
  lemma PerformRowStep(cfg: Config, w: World, c: Command, now: int, fault: Fault, id: string)
    ensures RowStep(w.mirror, Perform(cfg, w, c, now, fault).0.mirror, id, StampOf(c))
  {
    match c {
      case SyncSub(v, raw, at, downgrade) => SyncRowStep(cfg, w, v, raw, at, downgrade, fault, id);
      case NotePaid(v, at) => PaidRowStep(w, v, at, fault, id);
      case NoteNotPaid(v, at) => NotPaidRowStep(cfg, w, v, at, fault, id);
      case _ =>
    }
  }

  /** How many of the deliveries change the mirror row of `id`. */
  function Changes(cfg: Config, w: World, ds: seq<Delivery>, id: string): nat
    decreases |ds|
  {
    if ds == [] then 0
    else
      var w' := After(cfg, w, ds[0]);
      (if id in w.mirror && id in w'.mirror && w.mirror[id] == w'.mirror[id] then 0 else 1)
        + Changes(cfg, w', ds[1..], id)
  }

  /** In every run, `lastEventAt` never falls by more than five seconds per change of the row. */
  lemma {:induction false} DriftBound(cfg: Config, w: World, ds: seq<Delivery>, id: string)
    requires id in w.mirror
    ensures id in Run(cfg, w, ds).mirror
    ensures Run(cfg, w, ds).mirror[id].lastEventAt >= w.mirror[id].lastEventAt - TOLERANCE * Changes(cfg, w, ds, id)
    decreases |ds|
  {
    if ds != [] {
      var d := ds[0];
      PerformRowStep(cfg, w, Read(d.event), d.now, d.fault, id);
      DriftBound(cfg, After(cfg, w, d), ds[1..], id);
    }
  }

  /** A subscription of a known customer whose plain events can be made up at will. */
  function SampleBody(status: string): Fields {
    map[Id := Str("sub"), Customer := Str("cus"), Status := Str(status)]
  }

  function SampleEvent(status: string, created: int): Event {
    Event("evt", SubscriptionType(WasUpdated), created, None, SampleBody(status))
  }

  function SampleDelivery(status: string, created: int): Delivery {
    Delivery(SampleEvent(status, created), 0, NoFault)
  }

  const SAMPLE := Config("default", map[], None, 3, false)

  const KNOWN := map["cus" := CustomerRow("tenant", None)]

  lemma SampleView(status: string)
    ensures ViewSub(SampleBody(status)) ==
            SubView(Some("sub"), Some("cus"), Some(status), None, None, None, None, false, None, None, None)
  {
    var o := SampleBody(status);
    assert ItemsOf(o) == None;
    assert FirstItem(o) == None;
  }

  /** A sample event is written exactly when the guard lets it pass. */
  lemma SampleStep(w: World, status: string, created: int)
    requires w.customers == KNOWN && status in STATUSES
    ensures var w' := After(SAMPLE, w, SampleDelivery(status, created));
            && w'.customers == KNOWN
            && (InOrder(w.mirror, "sub", created) ==>
                  "sub" in w'.mirror && w'.mirror["sub"].status == status && w'.mirror["sub"].lastEventAt == created)
            && (!InOrder(w.mirror, "sub", created) ==> w' == w)
  {
    SampleView(status);
  }

  /** The bound is tight: for every `k`, some run of `k` changes takes `lastEventAt` back by exactly 5k seconds. */
  lemma {:induction false} DriftTight(w: World, k: nat) returns (ds: seq<Delivery>)
    requires w.customers == KNOWN && "sub" in w.mirror
    ensures "sub" in Run(SAMPLE, w, ds).mirror && Changes(SAMPLE, w, ds, "sub") == k
    ensures Run(SAMPLE, w, ds).mirror["sub"].lastEventAt == w.mirror["sub"].lastEventAt - TOLERANCE * k
    decreases k
  {
    if k == 0 {
      ds := [];
    } else {
      var at := w.mirror["sub"].lastEventAt - TOLERANCE;
      var d := SampleDelivery("active", at);
      SampleStep(w, "active", at);
      var rest := DriftTight(After(SAMPLE, w, d), k - 1);
      ds := [d] + rest;
      RunCons(SAMPLE, w, d, rest, "sub");
    }
  }

  lemma RunCons(cfg: Config, w: World, d: Delivery, ds: seq<Delivery>, id: string)
    ensures Run(cfg, w, [d] + ds) == Run(cfg, After(cfg, w, d), ds)
    ensures Changes(cfg, w, [d] + ds, id) ==
            (if id in w.mirror && id in After(cfg, w, d).mirror
             && w.mirror[id] == After(cfg, w, d).mirror[id] then 0 else 1)
            + Changes(cfg, After(cfg, w, d), ds, id)
  {
    assert ([d] + ds)[1..] == ds;
  }

  lemma {:induction false} RunAppend(cfg: Config, w: World, a: seq<Delivery>, b: seq<Delivery>)
    ensures Run(cfg, w, a + b) == Run(cfg, Run(cfg, w, a), b)
    decreases |a|
  {
    if a == [] {
      assert a + b == b;
    } else {
      assert (a + b)[1..] == a[1..] + b;
      RunAppend(cfg, After(cfg, w, a[0]), a[1..], b);
    }
  }

  /** The delivery is about the subscription `id` and may write its mirror row. */
  predicate SyncsSub(d: Delivery, id: string) {
    var c := Read(d.event);
    c.SyncSub? && c.sub.id == Some(id)
  }

  /** Without an event of its own subscription, a canceled mirror stays exactly as it is. */
  lemma {:induction false} CanceledStays(cfg: Config, w: World, ds: seq<Delivery>, id: string)
    requires id in w.mirror && w.mirror[id].status == "canceled"
    requires forall k :: 0 <= k < |ds| ==> !SyncsSub(ds[k], id)
    ensures id in Run(cfg, w, ds).mirror && Run(cfg, w, ds).mirror[id] == w.mirror[id]
    decreases |ds|
  {
    if ds != [] {
      var d := ds[0];
      CanceledStep(cfg, w, Read(d.event), d.now, d.fault, id);
      assert !SyncsSub(ds[0], id);
      CanceledStays(cfg, After(cfg, w, d), ds[1..], id);
    }
  }

  lemma CanceledStep(cfg: Config, w: World, c: Command, now: int, fault: Fault, id: string)
    requires id in w.mirror && w.mirror[id].status == "canceled"
    requires c.SyncSub? ==> c.sub.id != Some(id)
    ensures var w' := Perform(cfg, w, c, now, fault).0;
            id in w'.mirror && w'.mirror[id] == w.mirror[id]
  {
    match c {
      case SyncSub(v, raw, at, downgrade) => SyncRowStep(cfg, w, v, raw, at, downgrade, fault, id);
      case NotePaid(v, at) => PaidRowStep(w, v, at, fault, id);
      case NoteNotPaid(v, at) => NotPaidRowStep(cfg, w, v, at, fault, id);
      case _ =>
    }
  }

  /** The subscription `id` of customer `customer`, and a configuration under which its events can be applied. */
  datatype Subject = Subject(id: string, customer: string)

  /** An event of the subject's that a clean delivery applies whenever the guard lets it pass. */
  predicate Applies(cfg: Config, s: Subject, e: Event) {
    var c := Read(e);
    && c.SyncSub?
    && c.sub.id == Some(s.id) && c.sub.customer == Some(s.customer)
    && c.sub.status.Some? && c.sub.status.value in STATUSES
    && (cfg.definitions.Some? ==> PlanFor(cfg, c.sub, c.downgrade) in cfg.definitions.value)
  }

  /** The mirror row and the plan row of the event `e`. */
  function MirrorFor(cfg: Config, e: Event, tenant: string): Mirror
    requires Read(e).SyncSub? && Read(e).sub.status.Some?
  {
    var c := Read(e);
    MirrorOf(cfg, c.sub, c.raw, tenant, c.at, c.downgrade)
  }

  function PlanRowFor(cfg: Config, e: Event): PlanRow
    requires Read(e).SyncSub?
  {
    PlanRow(PlanFor(cfg, Read(e).sub, Read(e).downgrade), "stripe", None)
  }

  /** The tables say what the event `e` says. */
  ghost predicate Shows(cfg: Config, s: Subject, w: World, e: Event)
    requires Applies(cfg, s, e) && s.customer in w.customers
  {
    ShowsRows(w, s.id, MirrorFor(cfg, e, w.customers[s.customer].tenant), PlanRowFor(cfg, e))
  }

  ghost predicate ShowsRows(w: World, id: string, row: Mirror, plan: PlanRow) {
    id in w.mirror && w.mirror[id] == row && row.tenant in w.plans && w.plans[row.tenant] == plan
  }

  lemma SyncOfSubject(cfg: Config, w: World, id: string, v: SubView, raw: Fields, tenant: string, at: int,
                      downgrade: bool, fault: Fault)
    requires v.status.Some? && v.status.value in STATUSES
    requires cfg.definitions.Some? ==> PlanFor(cfg, v, downgrade) in cfg.definitions.value
    ensures var w' := Accept(cfg, w, id, v, raw, tenant, at, downgrade, fault).0;
            var row := MirrorOf(cfg, v, raw, tenant, at, downgrade);
            var plan := PlanRow(PlanFor(cfg, v, downgrade), "stripe", None);
            && w'.customers == w.customers
            && (fault.NoFault? ==> ShowsRows(w', id, row, plan))
            && (w'.mirror == w.mirror || ShowsRows(w', id, row, plan))
            && (ShowsRows(w, id, row, plan) ==> ShowsRows(w', id, row, plan))
  {
    AcceptParts(cfg, w, id, v, raw, tenant, at, downgrade, fault);
  }

  /** `syncSubscription` for an event that applies: what the guard decides, and what a fault can spoil. */
  lemma SubjectStep(cfg: Config, s: Subject, w: World, d: Delivery)
    requires Applies(cfg, s, d.event) && s.customer in w.customers
    ensures var w' := After(cfg, w, d);
            && w'.customers == w.customers
            && (!InOrder(w.mirror, s.id, d.event.created) ==> w' == w)
            && (InOrder(w.mirror, s.id, d.event.created) && d.fault.NoFault? ==> Shows(cfg, s, w', d.event))
            && (SameRow(w.mirror, w'.mirror, s.id) || Shows(cfg, s, w', d.event))
            && (Shows(cfg, s, w, d.event) ==> Shows(cfg, s, w', d.event))
  {
    var c := Read(d.event);
    assert c.at == d.event.created;
    SyncOfSubject(cfg, w, s.id, c.sub, c.raw, w.customers[s.customer].tenant, c.at, c.downgrade, d.fault);
  }

  /** `newest` stands out: every other event delivered is more than five seconds older. */
  ghost predicate StandsOut(newest: Event, ds: seq<Delivery>) {
    forall k :: 0 <= k < |ds| ==> ds[k].event == newest || ds[k].event.created < newest.created - TOLERANCE
  }

  ghost predicate AllApply(cfg: Config, s: Subject, ds: seq<Delivery>) {
    forall k :: 0 <= k < |ds| ==> Applies(cfg, s, ds[k].event)
  }

  /** Once the tables show the newest event, nothing that is delivered can change that. */
  lemma {:induction false} NewestStays(cfg: Config, s: Subject, w: World, newest: Event, ds: seq<Delivery>)
    requires Applies(cfg, s, newest) && s.customer in w.customers && Shows(cfg, s, w, newest)
    requires AllApply(cfg, s, ds) && StandsOut(newest, ds)
    ensures Run(cfg, w, ds).customers == w.customers && Shows(cfg, s, Run(cfg, w, ds), newest)
    decreases |ds|
  {
    if ds != [] {
      assert Applies(cfg, s, ds[0].event);
      SubjectStep(cfg, s, w, ds[0]);
      NewestStays(cfg, s, After(cfg, w, ds[0]), newest, ds[1..]);
    }
  }

  /** Before that, nothing that is delivered can shut the newest event out. */
  lemma {:induction false} NewestNotShutOut(cfg: Config, s: Subject, w: World, newest: Event, ds: seq<Delivery>)
    requires s.customer in w.customers && InOrder(w.mirror, s.id, newest.created)
    requires AllApply(cfg, s, ds) && StandsOut(newest, ds)
    ensures Run(cfg, w, ds).customers == w.customers && InOrder(Run(cfg, w, ds).mirror, s.id, newest.created)
    decreases |ds|
  {
    if ds != [] {
      assert Applies(cfg, s, ds[0].event);
      SubjectStep(cfg, s, w, ds[0]);
      NewestNotShutOut(cfg, s, After(cfg, w, ds[0]), newest, ds[1..]);
    }
  }

  /** A row that is too far ahead shuts every event out for good. */
  lemma {:induction false} AllShutOut(cfg: Config, s: Subject, w: World, newest: Event, ds: seq<Delivery>)
    requires s.customer in w.customers && !InOrder(w.mirror, s.id, newest.created)
    requires AllApply(cfg, s, ds) && StandsOut(newest, ds)
    ensures Run(cfg, w, ds) == w
    decreases |ds|
  {
    if ds != [] {
      assert Applies(cfg, s, ds[0].event);
      SubjectStep(cfg, s, w, ds[0]);
      AllShutOut(cfg, s, After(cfg, w, ds[0]), newest, ds[1..]);
    }
  }

  /**
   Convergence. Deliver events of one subscription in any order, any number of times, each delivery
   possibly interrupted, as long as the newest event comes through once: the mirror and the tenant's
   plan end up as the newest event says if and only if the row the run started from was no more than
   five seconds ahead of it.
   */
  lemma Converges(cfg: Config, s: Subject, w: World, newest: Event, ds: seq<Delivery>, k: nat)
    requires Applies(cfg, s, newest) && s.customer in w.customers
    requires AllApply(cfg, s, ds) && StandsOut(newest, ds)
    requires k < |ds| && ds[k].event == newest && ds[k].fault.NoFault?
    ensures Run(cfg, w, ds).customers == w.customers
    ensures Shows(cfg, s, Run(cfg, w, ds), newest) <==> InOrder(w.mirror, s.id, newest.created)
  {
    if InOrder(w.mirror, s.id, newest.created) {
      CutAt(cfg, s, newest, ds, k);
      ReachesNewest(cfg, s, w, newest, ds[..k], ds[k], ds[k + 1..]);
    } else {
      NeverShown(cfg, s, w, newest, ds);
    }
  }

  lemma CutAt(cfg: Config, s: Subject, newest: Event, ds: seq<Delivery>, k: nat)
    requires AllApply(cfg, s, ds) && StandsOut(newest, ds) && k < |ds|
    ensures ds == ds[..k] + ([ds[k]] + ds[k + 1..])
    ensures AllApply(cfg, s, ds[..k]) && StandsOut(newest, ds[..k])
    ensures AllApply(cfg, s, ds[k + 1..]) && StandsOut(newest, ds[k + 1..])
  {
    var rest := ds[k + 1..];
    forall i | 0 <= i < |rest| ensures rest[i] == ds[k + 1 + i] {
    }
  }

  lemma NeverShown(cfg: Config, s: Subject, w: World, newest: Event, ds: seq<Delivery>)
    requires Applies(cfg, s, newest) && s.customer in w.customers && !InOrder(w.mirror, s.id, newest.created)
    requires AllApply(cfg, s, ds) && StandsOut(newest, ds)
    ensures Run(cfg, w, ds) == w && !Shows(cfg, s, w, newest)
  {
    AllShutOut(cfg, s, w, newest, ds);
    TooFarAhead(cfg, s, w, newest);
  }

  lemma TooFarAhead(cfg: Config, s: Subject, w: World, newest: Event)
    requires Applies(cfg, s, newest) && s.customer in w.customers && !InOrder(w.mirror, s.id, newest.created)
    ensures !Shows(cfg, s, w, newest)
  {
    assert Read(newest).at == newest.created;
  }

  lemma ReachesNewest(cfg: Config, s: Subject, w: World, newest: Event,
                      before: seq<Delivery>, d: Delivery, after: seq<Delivery>)
    requires Applies(cfg, s, newest) && s.customer in w.customers && InOrder(w.mirror, s.id, newest.created)
    requires AllApply(cfg, s, before) && StandsOut(newest, before) && AllApply(cfg, s, after)
             && StandsOut(newest, after)
    requires d.event == newest && d.fault.NoFault?
    ensures var w' := Run(cfg, w, before + ([d] + after));
            w'.customers == w.customers && Shows(cfg, s, w', newest)
  {
    var w1 := Run(cfg, w, before);
    NewestNotShutOut(cfg, s, w, newest, before);
    SubjectStep(cfg, s, w1, d);
    NewestStays(cfg, s, After(cfg, w1, d), newest, after);
    RunAppend(cfg, w, before, [d] + after);
    RunCons(cfg, w1, d, after, s.id);
  }

  /** So two runs that deliver events this way agree on the mirror row and the plan row, whatever their order. */
  lemma OrderDoesNotMatter(cfg: Config, s: Subject, w: World, newest: Event,
                           ds: seq<Delivery>, k: nat, es: seq<Delivery>, j: nat)
    requires Applies(cfg, s, newest) && s.customer in w.customers && InOrder(w.mirror, s.id, newest.created)
    requires AllApply(cfg, s, ds) && StandsOut(newest, ds) && AllApply(cfg, s, es) && StandsOut(newest, es)
    requires k < |ds| && ds[k].event == newest && ds[k].fault.NoFault?
    requires j < |es| && es[j].event == newest && es[j].fault.NoFault?
    ensures var tenant := w.customers[s.customer].tenant;
            var a, b := Run(cfg, w, ds), Run(cfg, w, es);
            && s.id in a.mirror && s.id in b.mirror && a.mirror[s.id] == b.mirror[s.id]
            && tenant in a.plans && tenant in b.plans && a.plans[tenant] == b.plans[tenant]
  {
    Converges(cfg, s, w, newest, ds, k);
    Converges(cfg, s, w, newest, es, j);
  }

  /** Whether the guard lets an event through, and what a clean delivery of it then leaves. */
  lemma CleanStep(cfg: Config, s: Subject, w: World, d: Delivery)
    requires Applies(cfg, s, d.event) && s.customer in w.customers && d.fault.NoFault?
    ensures var w', tenant := After(cfg, w, d), w.customers[s.customer].tenant;
            && w'.customers == w.customers
            && (if InOrder(w.mirror, s.id, d.event.created)
                then s.id in w'.mirror && w'.mirror[s.id] == MirrorFor(cfg, d.event, tenant)
                     && w'.mirror[s.id].lastEventAt == d.event.created
                     && tenant in w'.plans && w'.plans[tenant] == PlanRowFor(cfg, d.event)
                else w' == w)
  {
    SubjectStep(cfg, s, w, d);
    assert Read(d.event).at == d.event.created;
  }

  /**
   Two events, both orders. Clean deliveries of any two events of a subscription, from any tables, leave the same mirror
   row and plan row in either order if and only if they are more than five seconds apart, or ask for the same rows, or
   the guard drops even the newer.
   */
  lemma TwoOrders(cfg: Config, s: Subject, w: World, a: Delivery, b: Delivery)
    requires Applies(cfg, s, a.event) && Applies(cfg, s, b.event) && s.customer in w.customers
    requires a.fault.NoFault? && b.fault.NoFault? && a.event.created <= b.event.created
    ensures var tenant := w.customers[s.customer].tenant;
            var ab, ba := Run(cfg, w, [a, b]), Run(cfg, w, [b, a]);
            SameRow(ab.mirror, ba.mirror, s.id) && SameRow(ab.plans, ba.plans, tenant) <==>
            || b.event.created - a.event.created > TOLERANCE
            || MirrorFor(cfg, a.event, tenant) == MirrorFor(cfg, b.event, tenant)
            || !InOrder(w.mirror, s.id, b.event.created)
  {
    TwoDeliveries(cfg, w, a, b);
    TwoDeliveries(cfg, w, b, a);
    CleanStep(cfg, s, w, a);
    CleanStep(cfg, s, w, b);
    CleanStep(cfg, s, After(cfg, w, a), b);
    CleanStep(cfg, s, After(cfg, w, b), a);
    SameMirrorSamePlan(cfg, s, w.customers[s.customer].tenant, a.event, b.event);
  }

  lemma SameMirrorSamePlan(cfg: Config, s: Subject, tenant: string, a: Event, b: Event)
    requires Applies(cfg, s, a) && Applies(cfg, s, b)
    ensures MirrorFor(cfg, a, tenant) == MirrorFor(cfg, b, tenant) ==> PlanRowFor(cfg, a) == PlanRowFor(cfg, b)
  {
  }

  lemma TwoDeliveries(cfg: Config, w: World, d1: Delivery, d2: Delivery)
    ensures Run(cfg, w, [d1, d2]) == After(cfg, After(cfg, w, d1), d2)
  {
    RunCons(cfg, w, d1, [d2], "");
    RunCons(cfg, After(cfg, w, d1), d2, [], "");
    assert [d1] + [d2] == [d1, d2] && [d2] + [] == [d2];
  }

  /** Interrupted attempts at the same subscription event, one after the other. */
  function Attempts(cfg: Config, w: World, v: SubView, raw: Fields, created: int, downgrade: bool,
                    faults: seq<Fault>): World
    decreases |faults|
  {
    if faults == [] then w
    else Attempts(cfg, Sync(cfg, w, v, raw, created, downgrade, faults[0]).0, v, raw, created, downgrade, faults[1..])
  }

  /** However often a sync was interrupted, one clean retry leaves the mirror and the plans of one clean sync. */
  lemma {:induction false} RetryHeals(cfg: Config, w: World, v: SubView, raw: Fields, created: int, downgrade: bool,
                                      faults: seq<Fault>)
    ensures var interrupted := Attempts(cfg, w, v, raw, created, downgrade, faults);
            var retried := Sync(cfg, interrupted, v, raw, created, downgrade, NoFault);
            var once := Sync(cfg, w, v, raw, created, downgrade, NoFault);
            retried.0.mirror == once.0.mirror && retried.0.plans == once.0.plans && retried.1 == once.1
    decreases |faults|
  {
    if faults != [] {
      RetryOnce(cfg, w, v, raw, created, downgrade, faults[0]);
      RetryHeals(cfg, Sync(cfg, w, v, raw, created, downgrade, faults[0]).0, v, raw, created, downgrade, faults[1..]);
    }
  }

  lemma RetryOnce(cfg: Config, w: World, v: SubView, raw: Fields, created: int, downgrade: bool, fault: Fault)
    ensures var retried := Sync(cfg, Sync(cfg, w, v, raw, created, downgrade, fault).0, v, raw, created, downgrade,
                                NoFault);
            var once := Sync(cfg, w, v, raw, created, downgrade, NoFault);
            retried.0.mirror == once.0.mirror && retried.0.plans == once.0.plans && retried.1 == once.1
  {
    if v.customer.Some? && v.customer.value in w.customers && v.id.Some? && InOrder(w.mirror, v.id.value, created) {
      AcceptTwice(cfg, w, v.id.value, v, raw, w.customers[v.customer.value].tenant, created, downgrade, fault);
    }
  }

  lemma AssignTwice(cfg: Config, plans: map<string, PlanRow>, tenant: string, plan: string, source: string,
                    fault: Fault)
    ensures Assign(cfg, Assign(cfg, plans, tenant, plan, source, fault).0, tenant, plan, source, NoFault)
            == Assign(cfg, plans, tenant, plan, source, NoFault)
  {
  }

  /** What `Accept` does to the tables: the plan is assigned in any case, the row is written or left. */
  lemma AcceptParts(cfg: Config, w: World, id: string, v: SubView, raw: Fields, tenant: string, created: int,
                    downgrade: bool, fault: Fault)
    ensures var (w1, r) := Accept(cfg, w, id, v, raw, tenant, created, downgrade, fault);
            var (plans, ok) := Assign(cfg, w.plans, tenant, PlanFor(cfg, v, downgrade), "stripe", fault);
            var saved := ok && !fault.RowSaveFails? && v.status.Some? && v.status.value in STATUSES;
            && w1.customers == w.customers && w1.plans == plans
            && r == (if saved then Synced(tenant) else Threw(Unhandled))
            && w1.mirror ==
               (if saved then w.mirror[id := MirrorOf(cfg, v, raw, tenant, created, downgrade)] else w.mirror)
  {
  }

  lemma AcceptTwice(cfg: Config, w: World, id: string, v: SubView, raw: Fields, tenant: string, created: int,
                    downgrade: bool, fault: Fault)
    ensures var w1 := Accept(cfg, w, id, v, raw, tenant, created, downgrade, fault).0;
            var retried := Accept(cfg, w1, id, v, raw, tenant, created, downgrade, NoFault);
            var once := Accept(cfg, w, id, v, raw, tenant, created, downgrade, NoFault);
            && w1.customers == w.customers && (InOrder(w.mirror, id, created) ==> InOrder(w1.mirror, id, created))
            && retried.0.mirror == once.0.mirror && retried.0.plans == once.0.plans && retried.1 == once.1
  {
    var w1 := Accept(cfg, w, id, v, raw, tenant, created, downgrade, fault).0;
    AcceptParts(cfg, w, id, v, raw, tenant, created, downgrade, fault);
    AcceptParts(cfg, w, id, v, raw, tenant, created, downgrade, NoFault);
    AcceptParts(cfg, w1, id, v, raw, tenant, created, downgrade, NoFault);
    AssignTwice(cfg, w.plans, tenant, PlanFor(cfg, v, downgrade), "stripe", fault);
    AssignCleanOrRefused(cfg, w.plans, tenant, PlanFor(cfg, v, downgrade), "stripe", fault);
  }

  /** What a clean assignment refuses, an interrupted one refuses too. */
  lemma AssignCleanOrRefused(cfg: Config, plans: map<string, PlanRow>, tenant: string, plan: string, source: string,
                             fault: Fault)
    ensures Assign(cfg, plans, tenant, plan, source, fault).1 ==> Assign(cfg, plans, tenant, plan, source, NoFault).1
  {
  }
}
