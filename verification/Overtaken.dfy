/** A run of the protocol in which the newest event of a subscription is answered, handled and lost. */
module Overtaken {
  import opened Json
  import opened StripeEvent
  import opened Billing
  import opened SubscriptionRace
  import opened HandlerSteps
  import opened InFlight
  import DeliveryOrder
  import Ledger
  import Pipeline

  const CLEAN := Circumstance(0, NoFault, false)

  function Taking(id: string, step: Ledger.Step): Happening {
    Pipeline.Happening(id, Pipeline.Take(step))
  }

  /** A first delivery, its dispatch, and the start of its job. */
  function Arriving(id: string): seq<Happening> {
    [Taking(id, Ledger.Receive)] + ([Taking(id, Ledger.Enqueue)] + [Taking(id, Ledger.Start(0, true))])
  }

  function Working(id: string): Happening {
    Pipeline.Happening(id, Pipeline.Work(CLEAN))
  }

  /** A first delivery up to the guard. */
  function Entering(id: string): seq<Happening> {
    Arriving(id) + [Working(id)]
  }

  function Concluding(id: string): Happening {
    Pipeline.Happening(id, Pipeline.Conclude(Ledger.First, true))
  }

  /** A handler from behind its guard to the end of its job. */
  function Completing(id: string): seq<Happening> {
    [Working(id)] + ([Working(id)] + ([Working(id)] + [Concluding(id)]))
  }

  const BEGUN := Ledger.Row(Ledger.Pending, 1, None)
  const RUNNING := Ledger.Slot(Some(BEGUN), 0, [], Some(Ledger.Run(BEGUN, 0)), 0, [], true, false)
  const DONE := Ledger.Slot(Some(Ledger.Row(Ledger.Completed, 1, None)), 0, [], None, 0, [], true, true)

  /** `older` passes the guard; then `newer` comes and goes; then `older` writes. */
  function Overtaking(older: string, newer: string): seq<Happening> {
    Entering(older) + (Entering(newer) + (Completing(newer) + Completing(older)))
  }

  lemma RunOne(h: Pipeline.Handler<World, Progress, Circumstance>, p: Pipe, x: Happening, budget: nat)
    ensures Pipeline.Run(h, p, [x], budget) == Pipeline.After(h, p, x, budget)
  {
    assert [x][1..] == [];
  }

  lemma Arrives(h: Pipeline.Handler<World, Progress, Circumstance>, p: Pipe, id: string, budget: nat)
    requires Ledger.SlotOf(p.system, id) == Ledger.UNSEEN
    ensures Pipeline.Run(h, p, Arriving(id), budget) ==
            p.(system := p.system[id := RUNNING], attempts := p.attempts[id := Pipeline.Attempt(p.next, h.idle)],
               owner := p.owner[p.next := id], next := p.next + 1)
  {
    var received := Ledger.UNSEEN.(row := Some(Ledger.INSERTED), deliveries := 1);
    var queued := received.(deliveries := 0, queued := [0], acked := true);
    var p1 := p.(system := p.system[id := received]);
    var p2 := p.(system := p.system[id := queued]);
    assert p1.system[id := queued] == p2.system;
    assert p2.system[id := RUNNING] == p.system[id := RUNNING];
    Pipeline.RunSplit(h, p, [Taking(id, Ledger.Receive)],
                      [Taking(id, Ledger.Enqueue)] + [Taking(id, Ledger.Start(0, true))],
                      budget);
    Pipeline.RunSplit(h, p1, [Taking(id, Ledger.Enqueue)], [Taking(id, Ledger.Start(0, true))], budget);
    RunOne(h, p, Taking(id, Ledger.Receive), budget);
    RunOne(h, p1, Taking(id, Ledger.Enqueue), budget);
    RunOne(h, p2, Taking(id, Ledger.Start(0, true)), budget);
    assert Pipeline.After(h, p, Taking(id, Ledger.Receive), budget) == p1;
    assert Pipeline.After(h, p1, Taking(id, Ledger.Enqueue), budget) == p2;
    assert Ledger.Next(queued, Ledger.Start(0, true), budget) == RUNNING;
  }

  /** A clean round trip. */
  lemma Works(cfg: Config, events: string -> Event, p: Pipe, id: string, budget: nat)
    requires id in p.attempts && Ledger.SlotOf(p.system, id) == RUNNING && !p.attempts[id].state.Ended?
    ensures var a := p.attempts[id];
            var r := Advance(cfg, p.world, a.state, events(id), 0, NoFault);
            Pipeline.Run(FreshHandler(cfg, events), p, [Working(id)], budget) ==
            p.(world := r.0, attempts := p.attempts[id := a.(state := r.1)])
  {
    RunOne(FreshHandler(cfg, events), p, Working(id), budget);
  }

  lemma Concludes(cfg: Config, events: string -> Event, p: Pipe, id: string, budget: nat)
    requires id in p.attempts && Ledger.SlotOf(p.system, id) == RUNNING
    requires p.attempts[id].state.Ended? && !p.attempts[id].state.outcome.Threw?
    ensures var q := Pipeline.Run(FreshHandler(cfg, events), p, [Concluding(id)], budget);
            q.system == p.system[id := DONE] && q.attempts == p.attempts - {id} && q.world == p.world
  {
    RunOne(FreshHandler(cfg, events), p, Concluding(id), budget);
  }

  /** A clean handler from behind its guard: it writes its plan, and its row over whatever is there by now. */
  lemma Finishes(cfg: Config, s: DeliveryOrder.Subject, w: World, e: Event, tenant: string, snapshot: Mirror)
    requires DeliveryOrder.Applies(cfg, s, e) && s.id in w.mirror
    ensures var p1 := FindPlan(cfg, w, Guarded(e, tenant, Some(snapshot)), NoFault);
            p1.PlanRead? &&
            var (w2, p2) := WritePlan(cfg, w, p1, NoFault);
            p2.PlanKept? &&
            var (w3, p3) := SaveRow(cfg, w2, p2, NoFault);
            var want := TargetOf(cfg, tenant, e);
            && p3.Ended? && !p3.outcome.Threw? && w3.customers == w.customers
            && w3.plans == w.plans[tenant := want.plan]
            && w3.mirror == w.mirror[s.id := MergeMirror(w.mirror[s.id], snapshot, want.row)]
  {
  }

  lemma Guards(cfg: Config, s: DeliveryOrder.Subject, w: World, e: Event, tenant: string)
    requires DeliveryOrder.Applies(cfg, s, e) && s.customer in w.customers && w.customers[s.customer].tenant == tenant
    requires s.id in w.mirror && InOrder(w.mirror, s.id, e.created)
    ensures var (w1, p1) := Begin(cfg, w, e, 0, NoFault);
            && p1 == Guarded(e, tenant, Some(w.mirror[s.id]))
            && w1.customers == w.customers && w1.mirror == w.mirror && w1.plans == w.plans
  {
  }

  lemma Completes(cfg: Config, s: DeliveryOrder.Subject, events: string -> Event, p: Pipe, id: string, tenant: string,
                  snapshot: Mirror, budget: nat)
    requires DeliveryOrder.Applies(cfg, s, events(id)) && s.id in p.world.mirror
    requires id in p.attempts && Ledger.SlotOf(p.system, id) == RUNNING
    requires p.attempts[id].state == Guarded(events(id), tenant, Some(snapshot))
    ensures var q := Pipeline.Run(FreshHandler(cfg, events), p, Completing(id), budget);
            var want := TargetOf(cfg, tenant, events(id));
            && q.system == p.system[id := DONE] && q.attempts == p.attempts - {id}
            && q.world.customers == p.world.customers && q.world.plans == p.world.plans[tenant := want.plan]
            && q.world.mirror == p.world.mirror[s.id := MergeMirror(p.world.mirror[s.id], snapshot, want.row)]
  {
    var h := FreshHandler(cfg, events);
    Finishes(cfg, s, p.world, events(id), tenant, snapshot);
    Works(cfg, events, p, id, budget);
    var p1 := Pipeline.Run(h, p, [Working(id)], budget);
    Works(cfg, events, p1, id, budget);
    var p2 := Pipeline.Run(h, p1, [Working(id)], budget);
    Works(cfg, events, p2, id, budget);
    var p3 := Pipeline.Run(h, p2, [Working(id)], budget);
    Concludes(cfg, events, p3, id, budget);
    Pipeline.RunSplit(h, p, [Working(id)], [Working(id)] + ([Working(id)] + [Concluding(id)]), budget);
    Pipeline.RunSplit(h, p1, [Working(id)], [Working(id)] + [Concluding(id)], budget);
    Pipeline.RunSplit(h, p2, [Working(id)], [Concluding(id)], budget);
  }

  lemma Enters(cfg: Config, s: DeliveryOrder.Subject, events: string -> Event, p: Pipe, id: string, tenant: string,
               budget: nat)
    requires DeliveryOrder.Applies(cfg, s, events(id)) && Ledger.SlotOf(p.system, id) == Ledger.UNSEEN
    requires s.customer in p.world.customers && p.world.customers[s.customer].tenant == tenant
    requires s.id in p.world.mirror && InOrder(p.world.mirror, s.id, events(id).created)
    ensures var q := Pipeline.Run(FreshHandler(cfg, events), p, Entering(id), budget);
            && q.system == p.system[id := RUNNING] && q.world.customers == p.world.customers
            && q.world.mirror == p.world.mirror && q.world.plans == p.world.plans
            && q.attempts ==
               p.attempts[id := Pipeline.Attempt(p.next, Guarded(events(id), tenant, Some(p.world.mirror[s.id])))]
  {
    var h := FreshHandler(cfg, events);
    var p1 := Pipeline.Run(h, p, Arriving(id), budget);
    Arrives(h, p, id, budget);
    Works(cfg, events, p1, id, budget);
    Guards(cfg, s, p.world, events(id), tenant);
    Pipeline.RunSplit(h, p, Arriving(id), [Working(id)], budget);
  }

  /** The ledger and the tables after the run, in terms of those before it. */
  lemma Overtakes(cfg: Config, s: DeliveryOrder.Subject, events: string -> Event, older: string, newer: string,
                  w: World,
                  budget: nat)
    requires DeliveryOrder.Applies(cfg, s, events(older)) && DeliveryOrder.Applies(cfg, s, events(newer))
    requires older != newer && s.customer in w.customers && s.id in w.mirror
    requires InOrder(w.mirror, s.id, events(older).created) && InOrder(w.mirror, s.id, events(newer).created)
    ensures var p := Pipeline.Run(FreshHandler(cfg, events), Pipeline.Start(w), Overtaking(older, newer), budget);
            var tenant := w.customers[s.customer].tenant;
            var first, last := TargetOf(cfg, tenant, events(newer)), TargetOf(cfg, tenant, events(older));
            var row := w.mirror[s.id];
            && Ledger.SlotOf(p.system, older) == Ledger.SlotOf(p.system, newer) == DONE
            && p.world.customers == w.customers && Row(p.world.plans, tenant) == Some(last.plan)
            && Row(p.world.mirror, s.id) == Some(MergeMirror(MergeMirror(row, row, first.row), row, last.row))
  {
    var h, tenant, row := FreshHandler(cfg, events), w.customers[s.customer].tenant, w.mirror[s.id];
    var p0 := Pipeline.Start<World, Progress>(w);
    Enters(cfg, s, events, p0, older, tenant, budget);
    var p1 := Pipeline.Run(h, p0, Entering(older), budget);
    Enters(cfg, s, events, p1, newer, tenant, budget);
    var p2 := Pipeline.Run(h, p1, Entering(newer), budget);
    Completes(cfg, s, events, p2, newer, tenant, row, budget);
    var p3 := Pipeline.Run(h, p2, Completing(newer), budget);
    Completes(cfg, s, events, p3, older, tenant, row, budget);
    Pipeline.RunSplit(h, p0, Entering(older), Entering(newer) + (Completing(newer) + Completing(older)), budget);
    Pipeline.RunSplit(h, p1, Entering(newer), Completing(newer) + Completing(older), budget);
    Pipeline.RunSplit(h, p2, Completing(newer), Completing(older), budget);
  }

  /**
   The newest event can be lost. Take any two events of a mirrored subscription, the older of which passes the guard and
   is not as old as the row to the second. If it passes before the newer one comes and writes after that one has gone,
   both are answered 200, completed and done with; yet the row has the older event's time and the tenant its plan.
   */
  lemma OvertakenNewestIsLost(cfg: Config, s: DeliveryOrder.Subject, events: string -> Event, older: string,
                              newer: string, w: World, budget: nat)
    requires DeliveryOrder.Applies(cfg, s, events(older)) && DeliveryOrder.Applies(cfg, s, events(newer))
    requires events(older).created < events(newer).created && s.customer in w.customers && s.id in w.mirror
    requires InOrder(w.mirror, s.id, events(older).created) && events(older).created != w.mirror[s.id].lastEventAt
    ensures var p := Pipeline.Run(FreshHandler(cfg, events), Pipeline.Start(w), Overtaking(older, newer), budget);
            var tenant := w.customers[s.customer].tenant;
            && Ledger.SlotOf(p.system, older) == Ledger.SlotOf(p.system, newer) == DONE
            && DONE.acked && Pipeline.Idle(DONE)
            && s.id in p.world.mirror && p.world.mirror[s.id].lastEventAt == events(older).created
            && tenant in p.world.plans && p.world.plans[tenant] == DeliveryOrder.PlanRowFor(cfg, events(older))
            && p.world.customers == w.customers && !DeliveryOrder.Shows(cfg, s, p.world, events(newer))
  {
    var tenant := w.customers[s.customer].tenant;
    Overtakes(cfg, s, events, older, newer, w, budget);
    LostTime(cfg, s, tenant, w.mirror[s.id], events(older), events(newer));
  }

  /** The times of the two saves, the newer event's on the row as loaded and the older one's over that. */
  lemma LostTime(cfg: Config, s: DeliveryOrder.Subject, tenant: string, row: Mirror, older: Event, newer: Event)
    requires DeliveryOrder.Applies(cfg, s, older) && DeliveryOrder.Applies(cfg, s, newer)
    requires older.created < newer.created && older.created != row.lastEventAt
    ensures var m := MergeMirror(row, row, TargetOf(cfg, tenant, newer).row);
            && MergeMirror(m, row, TargetOf(cfg, tenant, older).row).lastEventAt == older.created
            && TargetOf(cfg, tenant, newer).row.lastEventAt == newer.created
            && TargetOf(cfg, tenant, older).plan == DeliveryOrder.PlanRowFor(cfg, older)
  {
    TargetTime(cfg, s, tenant, older);
    TargetTime(cfg, s, tenant, newer);
  }
}
