/** The handlers on events that Stripe no longer has: working on the rebuilt copies changes nothing but `raw`. */
module AgedHandlers {
  import opened Json
  import opened StripeEvent
  import opened Billing
  import opened Replay
  import opened SyncRace
  import opened SubscriptionRace
  import opened HandlerSteps
  import opened InFlight
  import Pipeline

  function Seen(e: Event, aged: bool): Event {
    if aged then Replayed(e) else e
  }

  /** The handler of each event as `retrieveEvent` gives it. */
  function Handler(cfg: Config, events: string -> Event): Pipeline.Handler<World, Progress, Circumstance> {
    Pipeline.Handler(
      Waiting,
      (w: World, id: string, p: Progress, c: Circumstance) =>
        Advance(cfg, w, p, Seen(events(id), c.aged), c.now, c.fault),
      (p: Progress) => VerdictOf(p))
  }

  predicate SameRow(a: Option<Mirror>, b: Option<Mirror>) {
    (a.Some? <==> b.Some?) && (a.Some? ==> a.value == b.value.(raw := a.value.raw))
  }

  /** Both handlers sync a subscription, and the second is told the same. */
  ghost predicate SameSync(a: Event, b: Event) {
    var c := Read(a);
    c.SyncSub? && c.sub.customer.Some? && c.sub.id.Some? && (a == b || SameCommand(c, Read(b)))
  }

  /** Handlers at the same point, with the same rows in hand but for `raw`. */
  ghost predicate Alike(a: Progress, b: Progress) {
    match a
    case Waiting => b.Waiting?
    case Ended(outcome) => b == a
    case Guarded(e, tenant, snapshot) =>
      b.Guarded? && b.tenant == tenant && SameSync(e, b.event) && SameRow(snapshot, b.snapshot)
    case PlanRead(e, tenant, snapshot, seen) =>
      b.PlanRead? && b.tenant == tenant && SameSync(e, b.event) && SameRow(snapshot, b.snapshot) && b.seen == seen
    case PlanKept(e, tenant, snapshot) =>
      b.PlanKept? && b.tenant == tenant && SameSync(e, b.event) && SameRow(snapshot, b.snapshot)
  }

  /** The two want to write the same plan and, but for `raw`, the same mirror row. */
  lemma TargetsAlike(cfg: Config, tenant: string, a: Event, b: Event)
    requires SameSync(a, b)
    ensures TargetOf(cfg, tenant, a).plan == TargetOf(cfg, tenant, b).plan
    ensures Warnings(cfg, Read(a).sub, Read(a).downgrade) == Warnings(cfg, Read(b).sub, Read(b).downgrade)
    ensures SameRow(Some(TargetOf(cfg, tenant, a).row), Some(TargetOf(cfg, tenant, b).row))
  {
    assert MappedPlan(cfg, Read(a).sub) == MappedPlan(cfg, Read(b).sub) || Read(a).downgrade;
  }

  lemma RowsAlike(a: map<string, Mirror>, b: map<string, Mirror>, key: string)
    requires SameRows(a, b)
    ensures SameRow(Row(a, key), Row(b, key))
  {
  }

  lemma WrittenAlike(a: map<string, Mirror>, b: map<string, Mirror>, key: string, x: Option<Mirror>, y: Option<Mirror>)
    requires SameRows(a, b) && SameRow(x, y)
    ensures SameRows(Written(a, key, x), Written(b, key, y))
  {
  }

  lemma BeginAlike(cfg: Config, v: World, w: World, e: Event, now: int, fault: Fault, aged: bool)
    requires SameButRaw(v, w) && ReadsAlike(e)
    ensures var x, y := Begin(cfg, v, e, now, fault), Begin(cfg, w, Seen(e, aged), now, fault);
            SameButRaw(x.0, y.0) && Alike(x.1, y.1)
  {
    var c, c' := Read(e), Read(Seen(e, aged));
    if aged {
      ReadReplayed(e);
    }
    assert c == c' || SameCommand(c, c');
    if c.SyncSub? {
      WarnedAlike(cfg, c, c', e, Seen(e, aged));
      BeginSyncAlike(cfg, v, w, e, Seen(e, aged), c, c');
    } else {
      PerformedAlike(cfg, v, w, c, c', now, fault);
    }
  }

  lemma PerformedAlike(cfg: Config, v: World, w: World, c: Command, d: Command, now: int, fault: Fault)
    requires SameButRaw(v, w) && (c == d || SameCommand(c, d))
    ensures SameEffect(Perform(cfg, v, c, now, fault), Perform(cfg, w, d, now, fault))
  {
    PerformIgnoresRaw(cfg, v, w, c, now, fault);
    if c != d {
      PerformAlike(cfg, w, c, d, now, fault);
      SameButRawTransitive(Perform(cfg, v, c, now, fault).0, Perform(cfg, w, c, now, fault).0,
                           Perform(cfg, w, d, now, fault).0);
    }
  }

  lemma SameButRawTransitive(a: World, b: World, c: World)
    requires SameButRaw(a, b) && SameButRaw(b, c)
    ensures SameButRaw(a, c)
  {
  }

  predicate SameGuards(cfg: Config, c: Command, d: Command)
    requires c.SyncSub?
  {
    && d.SyncSub? && d.at == c.at && d.downgrade == c.downgrade
    && d.sub.customer == c.sub.customer && d.sub.id == c.sub.id
    && (c.sub.customer.Some? && c.sub.id.Some? ==>
          Warnings(cfg, d.sub, d.downgrade) == Warnings(cfg, c.sub, c.downgrade))
  }

  lemma WarnedAlike(cfg: Config, c: Command, d: Command, e: Event, f: Event)
    requires c.SyncSub? && c == Read(e) && d == Read(f) && (e == f || SameCommand(c, d))
    ensures SameGuards(cfg, c, d)
  {
  }

  lemma BeginSyncAlike(cfg: Config, v: World, w: World, e: Event, f: Event, c: Command, d: Command)
    requires SameButRaw(v, w) && c.SyncSub? && c == Read(e) && d == Read(f) && (e == f || SameCommand(c, d))
    requires SameGuards(cfg, c, d)
    ensures var x, y := BeginSync(cfg, v, e, c.sub, c.at, c.downgrade), BeginSync(cfg, w, f, d.sub, d.at, d.downgrade);
            SameButRaw(x.0, y.0) && Alike(x.1, y.1)
  {
    if c.sub.id.Some? {
      RowsAlike(v.mirror, w.mirror, c.sub.id.value);
    }
  }

  lemma FindAlike(cfg: Config, v: World, w: World, a: Progress, b: Progress, fault: Fault)
    requires SameButRaw(v, w) && a.Guarded? && Alike(a, b)
    ensures Alike(FindPlan(cfg, v, a, fault), FindPlan(cfg, w, b, fault))
  {
    TargetsAlike(cfg, a.tenant, a.event, b.event);
  }

  lemma WriteAlike(cfg: Config, v: World, w: World, a: Progress, b: Progress, fault: Fault)
    requires SameButRaw(v, w) && a.PlanRead? && Alike(a, b)
    ensures var x, y := WritePlan(cfg, v, a, fault), WritePlan(cfg, w, b, fault);
            SameButRaw(x.0, y.0) && Alike(x.1, y.1)
  {
    TargetsAlike(cfg, a.tenant, a.event, b.event);
    WriteAsAlike(v, w, a, b, TargetOf(cfg, a.tenant, a.event).plan, fault);
  }

  lemma WriteAsAlike(v: World, w: World, a: Progress, b: Progress, want: PlanRow, fault: Fault)
    requires SameButRaw(v, w) && a.PlanRead? && b.PlanRead? && b.tenant == a.tenant && b.seen == a.seen
    ensures var x, y := WriteAs(v, a, want, fault), WriteAs(w, b, want, fault);
            && SameButRaw(x.0, y.0)
            && ((x.1.Ended? && y.1 == x.1)
                || (x.1 == PlanKept(a.event, a.tenant, a.snapshot) && y.1 == PlanKept(b.event, b.tenant, b.snapshot)))
  {
  }

  lemma PutAlike(c: Option<Mirror>, d: Option<Mirror>, l: Option<Mirror>, m: Option<Mirror>, n: Mirror, o: Mirror)
    requires SameRow(c, d) && SameRow(l, m) && SameRow(Some(n), Some(o))
    ensures SameRow(SyncRace.Put(SyncRules().mergeRow, c, l, n), SyncRace.Put(SyncRules().mergeRow, d, m, o))
  {
  }

  lemma SaveAlike(cfg: Config, v: World, w: World, a: Progress, b: Progress, fault: Fault)
    requires SameButRaw(v, w) && a.PlanKept? && Alike(a, b)
    ensures var x, y := SaveRow(cfg, v, a, fault), SaveRow(cfg, w, b, fault);
            SameButRaw(x.0, y.0) && Alike(x.1, y.1)
  {
    TargetsAlike(cfg, a.tenant, a.event, b.event);
    SaveAsAlike(v, w, a, b, Read(a.event).sub.id.value, TargetOf(cfg, a.tenant, a.event).row,
                TargetOf(cfg, b.tenant, b.event).row, fault);
  }

  lemma SaveAsAlike(v: World, w: World, a: Progress, b: Progress, id: string, n: Mirror, o: Mirror, fault: Fault)
    requires SameButRaw(v, w) && a.PlanKept? && b.PlanKept? && b.tenant == a.tenant
    requires SameRow(a.snapshot, b.snapshot) && SameRow(Some(n), Some(o))
    ensures var x, y := SaveAs(v, a, id, n, fault), SaveAs(w, b, id, o, fault);
            SameButRaw(x.0, y.0) && x.1 == y.1 && x.1.Ended?
  {
    RowsAlike(v.mirror, w.mirror, id);
    PutAlike(Row(v.mirror, id), Row(w.mirror, id), a.snapshot, b.snapshot, n, o);
    WrittenAlike(v.mirror, w.mirror, id, SyncRace.Put(SyncRules().mergeRow, Row(v.mirror, id), a.snapshot, n),
                 SyncRace.Put(SyncRules().mergeRow, Row(w.mirror, id), b.snapshot, o));
  }

  lemma AdvanceAlike(cfg: Config, v: World, w: World, a: Progress, b: Progress, e: Event, c: Circumstance)
    requires SameButRaw(v, w) && Alike(a, b) && ReadsAlike(e)
    ensures var x, y := Advance(cfg, v, a, e, c.now, c.fault), Advance(cfg, w, b, Seen(e, c.aged), c.now, c.fault);
            SameButRaw(x.0, y.0) && Alike(x.1, y.1)
  {
    match a {
      case Waiting => BeginAlike(cfg, v, w, e, c.now, c.fault, c.aged);
      case Guarded(_, _, _) => FindAlike(cfg, v, w, a, b, c.fault);
      case PlanRead(_, _, _, _) => WriteAlike(cfg, v, w, a, b, c.fault);
      case PlanKept(_, _, _) => SaveAlike(cfg, v, w, a, b, c.fault);
      case Ended(_) =>
    }
  }

  ghost function RawAside(): (World, World) -> bool {
    (a, b) => SameButRaw(a, b)
  }

  ghost function ProgressAside(): (Progress, Progress) -> bool {
    (a, b) => Alike(a, b)
  }

  lemma AgingIsSimilar(cfg: Config, events: string -> Event, ids: set<string>)
    requires forall id :: id in ids ==> ReadsAlike(events(id))
    ensures Pipeline.Similar(FreshHandler(cfg, events), Handler(cfg, events), RawAside(), ProgressAside(), ids)
  {
    var d, e := FreshHandler(cfg, events), Handler(cfg, events);
    forall v: World, w: World, id: string, a: Progress, b: Progress, c: Circumstance
      | id in ids && RawAside()(v, w) && ProgressAside()(a, b)
      ensures RawAside()(d.advance(v, id, a, c).0, e.advance(w, id, b, c).0)
      ensures ProgressAside()(d.advance(v, id, a, c).1, e.advance(w, id, b, c).1) {
      AdvanceAlike(cfg, v, w, a, b, events(id), c);
    }
  }

  /**
   Whether any attempt of a run works on the event or on its rebuilt copy makes no difference but in `raw`: the ledger
   takes the same course, the same handlers end well, and the tables agree.
   */
  lemma AgingChangesNothing(cfg: Config, events: string -> Event, w: World, hs: seq<Happening>, budget: nat,
                            ids: set<string>)
    requires forall id :: id in ids ==> ReadsAlike(events(id))
    requires forall k :: 0 <= k < |hs| ==> hs[k].id in ids
    ensures var p := Pipeline.Run(FreshHandler(cfg, events), Pipeline.Start(w), hs, budget);
            var q := Pipeline.Run(Handler(cfg, events), Pipeline.Start(w), hs, budget);
            p.system == q.system && p.owner == q.owner && p.fine == q.fine && SameButRaw(p.world, q.world)
  {
    AgingIsSimilar(cfg, events, ids);
    assert RawAside()(w, w);
    Pipeline.RunsAgree(FreshHandler(cfg, events), Handler(cfg, events), RawAside(), ProgressAside(),
                       Pipeline.Start(w), Pipeline.Start(w), hs, budget, ids);
    var p := Pipeline.Run(FreshHandler(cfg, events), Pipeline.Start(w), hs, budget);
    var q := Pipeline.Run(Handler(cfg, events), Pipeline.Start(w), hs, budget);
    assert RawAside()(p.world, q.world);
  }
}
