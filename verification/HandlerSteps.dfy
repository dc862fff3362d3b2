/**
 The event handlers from one await to the next. `syncSubscription` loads the mirror row and passes the guard, finds the
 plan row, writes it, and saves the mirror row; the other handlers are one step.
 */
module HandlerSteps {
  import opened Json
  import opened StripeEvent
  import opened BillingErrors
  import opened Billing
  import opened SyncRace
  import opened SubscriptionRace
  import DeliveryOrder

  /** Where a handler is: the event as it was fetched, the tenant, and the rows as they were read. */
  datatype Progress =
    | Waiting
    | Guarded(event: Event, tenant: string, snapshot: Option<Mirror>)
    | PlanRead(event: Event, tenant: string, snapshot: Option<Mirror>, seen: Option<PlanRow>)
    | PlanKept(event: Event, tenant: string, snapshot: Option<Mirror>)
    | Ended(outcome: Outcome)

  function Row<T>(table: map<string, T>, key: string): Option<T> {
    if key in table then Some(table[key]) else None
  }

  /** A save of a row, which an update of a vanished row leaves absent. */
  function Written<T>(table: map<string, T>, key: string, put: Option<T>): map<string, T> {
    if put.Some? then table[key := put.value] else table
  }

  /** Up to the guard, and to the warning about an unmapped product; other handlers run whole. */
  function Begin(cfg: Config, w: World, e: Event, now: int, fault: Fault): (World, Progress) {
    var c := Read(e);
    if c.SyncSub? then BeginSync(cfg, w, e, c.sub, c.at, c.downgrade)
    else var r := Perform(cfg, w, c, now, fault); (r.0, Ended(r.1))
  }

  function BeginSync(cfg: Config, w: World, e: Event, v: SubView, at: int, downgrade: bool): (World, Progress) {
    if v.customer.None? || v.customer.value !in w.customers then
      (w, Ended(Threw(BillingErrors.Billing(TenantNotResolvable))))
    else if v.id.None? then (w, Ended(Threw(Unhandled)))
    else if !InOrder(w.mirror, v.id.value, at) then (w, Ended(Stale))
    else
      (w.(emitted := w.emitted + Warnings(cfg, v, downgrade)),
       Guarded(e, w.customers[v.customer.value].tenant, Row(w.mirror, v.id.value)))
  }

  /** `assignPlan` up to its find. */
  function FindPlan(cfg: Config, w: World, p: Progress, fault: Fault): Progress
    requires p.Guarded?
  {
    var want := TargetOf(cfg, p.tenant, p.event).plan.plan;
    if (cfg.definitions.Some? && want !in cfg.definitions.value) || fault.PlanWriteFails? then Ended(Threw(Unhandled))
    else PlanRead(p.event, p.tenant, p.snapshot, Row(w.plans, p.tenant))
  }

  /** The rest of `assignPlan`: nothing when the row was found as wanted; else the write and the cache delete. */
  function WritePlan(cfg: Config, w: World, p: Progress, fault: Fault): (World, Progress)
    requires p.PlanRead?
  {
    WriteAs(w, p, TargetOf(cfg, p.tenant, p.event).plan, fault)
  }

  function WriteAs(w: World, p: Progress, want: PlanRow, fault: Fault): (World, Progress)
    requires p.PlanRead?
  {
    var current := Row(w.plans, p.tenant);
    var kept := PlanKept(p.event, p.tenant, p.snapshot);
    if p.seen == Some(want) then (w, kept)
    else if fault.PlanWriteFails? || Clashes(current, p.seen) then (w, Ended(Threw(Unhandled)))
    else
      (w.(plans := Written(w.plans, p.tenant, SyncRace.Put(SyncRules().mergePlan, current, p.seen, want))),
       if fault.CacheDeleteFails? then Ended(Threw(Unhandled)) else kept)
  }

  /** The save of the mirror row. */
  function SaveRow(cfg: Config, w: World, p: Progress, fault: Fault): (World, Progress)
    requires p.PlanKept?
  {
    var c := Read(p.event);
    if !c.SyncSub? || c.sub.id.None? || c.sub.status.None? || c.sub.status.value !in STATUSES then
      (w, Ended(Threw(Unhandled)))
    else SaveAs(w, p, c.sub.id.value, TargetOf(cfg, p.tenant, p.event).row, fault)
  }

  function SaveAs(w: World, p: Progress, id: string, want: Mirror, fault: Fault): (World, Progress)
    requires p.PlanKept?
  {
    var current := Row(w.mirror, id);
    if fault.RowSaveFails? || Clashes(current, p.snapshot) then (w, Ended(Threw(Unhandled)))
    else
      (w.(mirror := Written(w.mirror, id, SyncRace.Put(SyncRules().mergeRow, current, p.snapshot, want))),
       Ended(Synced(p.tenant)))
  }

  /** One round trip; `e` is the event as fetched, which only the first one reads. */
  function Advance(cfg: Config, w: World, p: Progress, e: Event, now: int, fault: Fault): (World, Progress) {
    if p.Waiting? then Begin(cfg, w, e, now, fault)
    else if p.Guarded? then (w, FindPlan(cfg, w, p, fault))
    else if p.PlanRead? then WritePlan(cfg, w, p, fault)
    else if p.PlanKept? then SaveRow(cfg, w, p, fault)
    else (w, p)
  }

  /** Four round trips at a stretch. */
  function Whole(cfg: Config, w: World, e: Event, now: int, fault: Fault): (World, Progress) {
    var (w1, p1) := Advance(cfg, w, Waiting, e, now, fault);
    var (w2, p2) := Advance(cfg, w1, p1, e, now, fault);
    var (w3, p3) := Advance(cfg, w2, p2, e, now, fault);
    Advance(cfg, w3, p3, e, now, fault)
  }

  lemma PutFresh<T(!new)>(merge: (T, T, T) -> T, current: Option<T>, next: T)
    requires LawfulMerge(merge)
    ensures !Clashes(current, current) && SyncRace.Put(merge, current, current, next) == Some(next)
  {
  }

  /** Run at a stretch, a handler is the handler as one step: same tables, same package events, same outcome. */
  lemma Uninterrupted(cfg: Config, w: World, e: Event, now: int, fault: Fault)
    ensures var r := Dispatch(cfg, w, e, now, fault); Whole(cfg, w, e, now, fault) == (r.0, Ended(r.1))
  {
    var c := Read(e);
    if c.SyncSub? && Begin(cfg, w, e, now, fault).1.Guarded? {
      UninterruptedSync(cfg, w, e, now, fault);
    }
  }

  /** The middle round trips, undisturbed, are `assignPlan`. */
  lemma AssignedInSteps(cfg: Config, w: World, p: Progress, fault: Fault)
    requires p.Guarded?
    ensures var want := TargetOf(cfg, p.tenant, p.event).plan;
            var (plans, ok) := Billing.Assign(cfg, w.plans, p.tenant, want.plan, "stripe", fault);
            var found := FindPlan(cfg, w, p, fault);
            && (found.Ended? ==> found.outcome == Threw(Unhandled) && plans == w.plans && !ok)
            && (!found.Ended? ==> found.PlanRead?)
            && (found.PlanRead? && want == PlanRow(want.plan, "stripe", None) ==>
                  WritePlan(cfg, w, found, fault) ==
                  (w.(plans := plans), if ok then PlanKept(p.event, p.tenant, p.snapshot) else Ended(Threw(Unhandled))))
  {
    var want := TargetOf(cfg, p.tenant, p.event).plan;
    SyncRulesLawful();
    PutFresh(SyncRules().mergePlan, Row(w.plans, p.tenant), want);
  }

  lemma SavedInStep(cfg: Config, w: World, p: Progress, fault: Fault)
    requires p.PlanKept? && Read(p.event).SyncSub? && Read(p.event).sub.id.Some?
    requires p.snapshot == Row(w.mirror, Read(p.event).sub.id.value)
    ensures var c := Read(p.event);
            SaveRow(cfg, w, p, fault) ==
            if fault.RowSaveFails? || c.sub.status.None? || c.sub.status.value !in STATUSES
            then (w, Ended(Threw(Unhandled)))
            else (w.(mirror := w.mirror[c.sub.id.value := MirrorOf(cfg, c.sub, c.raw, p.tenant, c.at, c.downgrade)]),
                  Ended(Synced(p.tenant)))
  {
    var want := TargetOf(cfg, p.tenant, p.event).row;
    SyncRulesLawful();
    PutFresh(SyncRules().mergeRow, p.snapshot, want);
  }

  lemma UninterruptedSync(cfg: Config, w: World, e: Event, now: int, fault: Fault)
    requires Read(e).SyncSub? && Begin(cfg, w, e, now, fault).1.Guarded?
    ensures var r := Dispatch(cfg, w, e, now, fault); Whole(cfg, w, e, now, fault) == (r.0, Ended(r.1))
  {
    var c := Read(e);
    var (w1, p1) := Begin(cfg, w, e, now, fault);
    AssignedInSteps(cfg, w1, p1, fault);
    var p2 := FindPlan(cfg, w1, p1, fault);
    DeliveryOrder.AcceptParts(cfg, w, c.sub.id.value, c.sub, c.raw, p1.tenant, c.at, c.downgrade, fault);
    if p2.PlanRead? {
      var (w3, p3) := WritePlan(cfg, w1, p2, fault);
      if p3.PlanKept? {
        SavedInStep(cfg, w3, p3, fault);
      }
    }
  }
}
