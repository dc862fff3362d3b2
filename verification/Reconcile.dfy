/** `tenant:billing:sync`: repairing the mirror from Stripe, then the plans that no live subscription backs. */
module Reconcile {
  import opened Json
  import opened Billing
  import DeliveryOrder
  import opened BillingStore

  /** A subscription as Stripe lists it, with the clock and the fault that its repair meets. */
  datatype Visit = Visit(sub: Fields, now: int, fault: Fault)

  /** What Stripe's listing guarantees: an id and a known status. */
  predicate Listed(v: Visit) {
    var view := ViewSub(v.sub);
    view.id.Some? && view.status.Some? && view.status.value in STATUSES
  }

  predicate AllListed(vs: seq<Visit>) {
    forall k :: 0 <= k < |vs| ==> Listed(vs[k])
  }

  function IdIn(v: Visit): string
    requires Listed(v)
  {
    ViewSub(v.sub).id.value
  }

  function StatusIn(v: Visit): string
    requires Listed(v)
  {
    ViewSub(v.sub).status.value
  }

  /** No subscription is listed twice. */
  ghost predicate Distinct(vs: seq<Visit>)
    requires AllListed(vs)
  {
    forall j, k :: 0 <= j < k < |vs| ==> IdIn(vs[j]) != IdIn(vs[k])
  }

  /** The mirror agrees with Stripe on this subscription's status. */
  predicate Matches(w: World, v: Visit)
    requires Listed(v)
  {
    IdIn(v) in w.mirror && w.mirror[IdIn(v)].status == StatusIn(v)
  }

  /** The repair of one drifted subscription. */
  function Repair(cfg: Config, w: World, v: Visit): (World, Outcome)
    requires Listed(v)
  {
    Sync(cfg, w, ViewSub(v.sub), v.sub, v.now, StatusIn(v) == "canceled", v.fault)
  }

  function ForwardOne(cfg: Config, w: World, v: Visit): World
    requires Listed(v)
  {
    if Matches(w, v) then w else Repair(cfg, w, v).0
  }

  function Forward(cfg: Config, w: World, vs: seq<Visit>): World
    requires AllListed(vs)
    decreases |vs|
  {
    if vs == [] then w else Forward(cfg, ForwardOne(cfg, w, vs[0]), vs[1..])
  }

  /** No repair of the forward pass throws. */
  predicate ForwardClean(cfg: Config, w: World, vs: seq<Visit>)
    requires AllListed(vs)
    decreases |vs|
  {
    vs == [] ||
    ((Matches(w, vs[0]) || !Repair(cfg, w, vs[0]).1.Threw?) && ForwardClean(cfg, ForwardOne(cfg, w, vs[0]), vs[1..]))
  }

  const ACTIVE_STATUSES: set<string> := {"active", "trialing", "past_due", "paused", "unpaid"}

  predicate HasLiveSubscription(w: World, tenant: string) {
    exists id :: id in w.mirror && w.mirror[id].tenant == tenant && w.mirror[id].status in ACTIVE_STATUSES
  }

  /** The run covers this tenant. */
  predicate InScope(only: Option<string>, tenant: string) {
    only.None? || only.value == tenant
  }

  predicate Orphan(cfg: Config, w: World, only: Option<string>, tenant: string) {
    && tenant in w.plans && InScope(only, tenant)
    && w.plans[tenant].source == "stripe" && w.plans[tenant].plan != cfg.defaultPlan
    && !HasLiveSubscription(w, tenant)
  }

  function Orphans(cfg: Config, w: World, only: Option<string>): set<string> {
    set t | t in w.plans && Orphan(cfg, w, only, t)
  }

  predicate DefaultDeclared(cfg: Config) {
    cfg.definitions.Some? ==> cfg.defaultPlan in cfg.definitions.value
  }

  /** The plan table after the reverse pass; `failing` are the tenants whose plan row cannot be written. */
  function Reverse(cfg: Config, w: World, only: Option<string>, failing: set<string>): World {
    var repaired := if DefaultDeclared(cfg) then Orphans(cfg, w, only) - failing else {};
    w.(plans := map t | t in w.plans ::
         if t in repaired then PlanRow(cfg.defaultPlan, "reconciliation", None) else w.plans[t])
  }

  /** `run` without `--dry-run`. An empty default plan switches the reverse pass off. */
  function RunSync(cfg: Config, w: World, vs: seq<Visit>, only: Option<string>, failing: set<string>): World
    requires AllListed(vs)
  {
    var w1 := Forward(cfg, w, vs);
    if cfg.defaultPlan == "" then w1 else Reverse(cfg, w1, only, failing)
  }

  lemma RepairKeepsOthers(cfg: Config, w: World, v: Visit, id: string)
    requires Listed(v) && id != IdIn(v)
    ensures DeliveryOrder.SameRow(w.mirror, ForwardOne(cfg, w, v).mirror, id)
  {
    DeliveryOrder.SyncRowStep(cfg, w, ViewSub(v.sub), v.sub, v.now, StatusIn(v) == "canceled", v.fault, id);
  }

  /** The guard lets this repair through, or none is needed. */
  predicate Reaches(w: World, v: Visit)
    requires Listed(v)
  {
    Matches(w, v) || InOrder(w.mirror, IdIn(v), v.now)
  }

  /** A repair that does not throw makes the status match exactly when the clock is not too far behind the row. */
  lemma RepairMatches(cfg: Config, w: World, v: Visit)
    requires Listed(v)
    requires Matches(w, v) || !Repair(cfg, w, v).1.Threw?
    ensures Matches(ForwardOne(cfg, w, v), v) <==> Reaches(w, v)
  {
    var view := ViewSub(v.sub);
    if !Matches(w, v) && InOrder(w.mirror, IdIn(v), v.now) {
      DeliveryOrder.AcceptParts(cfg, w, IdIn(v), view, v.sub, w.customers[view.customer.value].tenant, v.now,
                                StatusIn(v) == "canceled", v.fault);
    }
  }

  lemma {:induction false} ForwardKeepsOthers(cfg: Config, w: World, vs: seq<Visit>, id: string)
    requires AllListed(vs) && forall k :: 0 <= k < |vs| ==> IdIn(vs[k]) != id
    ensures DeliveryOrder.SameRow(w.mirror, Forward(cfg, w, vs).mirror, id)
    decreases |vs|
  {
    if vs != [] {
      RepairKeepsOthers(cfg, w, vs[0], id);
      ForwardKeepsOthers(cfg, ForwardOne(cfg, w, vs[0]), vs[1..], id);
    }
  }

  /**
   After a clean forward pass a scanned subscription matches Stripe exactly when it matched before
   or the clock at its repair was no more than five seconds behind its row.
   */
  lemma {:induction false} ForwardMatches(cfg: Config, w: World, vs: seq<Visit>)
    requires AllListed(vs) && Distinct(vs) && ForwardClean(cfg, w, vs)
    ensures forall k :: 0 <= k < |vs| ==> (Matches(Forward(cfg, w, vs), vs[k]) <==> Reaches(w, vs[k]))
    decreases |vs|
  {
    if vs != [] {
      var w1 := ForwardOne(cfg, w, vs[0]);
      RepairMatches(cfg, w, vs[0]);
      ForwardKeepsOthers(cfg, w1, vs[1..], IdIn(vs[0]));
      ForwardMatches(cfg, w1, vs[1..]);
      forall k | 0 <= k < |vs| ensures Matches(Forward(cfg, w, vs), vs[k]) <==> Reaches(w, vs[k]) {
        if k > 0 {
          assert vs[1..][k - 1] == vs[k];
          RepairKeepsOthers(cfg, w, vs[0], IdIn(vs[k]));
        }
      }
    }
  }

  /** A second forward pass over matching subscriptions does nothing. */
  lemma {:induction false} ForwardIdle(cfg: Config, w: World, vs: seq<Visit>)
    requires AllListed(vs) && forall k :: 0 <= k < |vs| ==> Matches(w, vs[k])
    ensures Forward(cfg, w, vs) == w && ForwardClean(cfg, w, vs)
    decreases |vs|
  {
    if vs != [] {
      ForwardIdle(cfg, w, vs[1..]);
    }
  }

  /** The reverse pass leaves exactly the orphans whose assignment failed. */
  lemma ReverseLeaves(cfg: Config, w: World, only: Option<string>, failing: set<string>)
    ensures Orphans(cfg, Reverse(cfg, w, only, failing), only) ==
            if DefaultDeclared(cfg) then Orphans(cfg, w, only) * failing else Orphans(cfg, w, only)
    ensures Reverse(cfg, w, only, failing).mirror == w.mirror
  {
    var w' := Reverse(cfg, w, only, failing);
    forall t ensures Orphan(cfg, w', only, t) <==>
                     Orphan(cfg, w, only, t) && (DefaultDeclared(cfg) ==> t in failing) {
      assert HasLiveSubscription(w', t) <==> HasLiveSubscription(w, t);
    }
  }

  lemma ReverseIdle(cfg: Config, w: World, only: Option<string>, failing: set<string>)
    requires Orphans(cfg, w, only) == {}
    ensures Reverse(cfg, w, only, failing) == w
  {
  }

  /**
   Reconciliation is a fixpoint. After a clean run whose clock was never more than five seconds behind
   a drifted row, every scanned subscription matches Stripe, no plan in scope is an orphan, and a second
   run over the same listing, whenever it runs and whatever faults lie in wait, finds nothing to do.
   */
  lemma SyncFixpoint(cfg: Config, w: World, vs: seq<Visit>, only: Option<string>, again: seq<Visit>,
                     failing: set<string>)
    requires cfg.defaultPlan != "" && DefaultDeclared(cfg)
    requires AllListed(vs) && Distinct(vs) && ForwardClean(cfg, w, vs)
    requires forall k :: 0 <= k < |vs| ==> Reaches(w, vs[k])
    requires |again| == |vs| && forall k :: 0 <= k < |vs| ==> again[k].sub == vs[k].sub
    ensures AllListed(again)
    ensures var w' := RunSync(cfg, w, vs, only, {});
            && (forall k :: 0 <= k < |vs| ==> Matches(w', vs[k]))
            && Orphans(cfg, w', only) == {}
            && RunSync(cfg, w', again, only, failing) == w'
  {
    var w1 := Forward(cfg, w, vs);
    var w' := RunSync(cfg, w, vs, only, {});
    ForwardMatches(cfg, w, vs);
    ReverseLeaves(cfg, w1, only, {});
    forall k | 0 <= k < |again| ensures Listed(again[k]) && Matches(w', again[k]) {
      assert Listed(vs[k]) && Matches(w1, vs[k]);
    }
    ForwardIdle(cfg, w', again);
    ReverseIdle(cfg, w', only, failing);
  }

  datatype Summary = Summary(scanned: nat, drifted: nat, repaired: nat, orphaned: nat, orphansRepaired: nat,
                             errors: nat)

  /** How many of the subscriptions are found to differ from the mirror, and how many repairs do not throw. */
  function Drifted(cfg: Config, w: World, vs: seq<Visit>): nat
    requires AllListed(vs)
    decreases |vs|
  {
    if vs == [] then 0
    else (if Matches(w, vs[0]) then 0 else 1) + Drifted(cfg, ForwardOne(cfg, w, vs[0]), vs[1..])
  }

  function Mended(cfg: Config, w: World, vs: seq<Visit>): nat
    requires AllListed(vs)
    decreases |vs|
  {
    if vs == [] then 0
    else
      (if Matches(w, vs[0]) || Repair(cfg, w, vs[0]).1.Threw? then 0 else 1)
      + Mended(cfg, ForwardOne(cfg, w, vs[0]), vs[1..])
  }

  /** How many differ when nothing is repaired. */
  function Differing(w: World, vs: seq<Visit>): nat
    requires AllListed(vs)
    decreases |vs|
  {
    if vs == [] then 0 else (if Matches(w, vs[0]) then 0 else 1) + Differing(w, vs[1..])
  }

  /** A pass is clean exactly when it repairs all that it finds. */
  lemma {:induction false} CleanMendsAll(cfg: Config, w: World, vs: seq<Visit>)
    requires AllListed(vs)
    ensures Mended(cfg, w, vs) <= Drifted(cfg, w, vs)
    ensures ForwardClean(cfg, w, vs) <==> Mended(cfg, w, vs) == Drifted(cfg, w, vs)
    decreases |vs|
  {
    if vs != [] {
      CleanMendsAll(cfg, ForwardOne(cfg, w, vs[0]), vs[1..]);
    }
  }

  /** One turn of the forward pass. */
  method ForwardTurn(store: Store, v: Visit, dryRun: bool) returns (drifted: nat, repaired: nat)
    requires Listed(v)
    modifies store
    ensures store.Tables() == if dryRun then old(store.Tables()) else ForwardOne(store.cfg, old(store.Tables()), v)
    ensures drifted == if old(Matches(store.Tables(), v)) then 0 else 1
    ensures repaired == if dryRun || drifted == 0 || Repair(store.cfg, old(store.Tables()), v).1.Threw? then 0 else 1
  {
    var id := StrOf(At(v.sub, Id)).value;
    var remoteStatus := StrOf(At(v.sub, Status)).value;
    if id in store.mirror && store.mirror[id].status == remoteStatus {
      return 0, 0;
    }
    if dryRun {
      return 1, 0;
    }
    var r := store.SyncSubscription(v.sub, v.now, remoteStatus == "canceled", v.fault);
    return 1, if r.Threw? then 0 else 1;
  }

  /** The forward pass: compare each listed subscription with its mirror and repair the ones that differ. */
  method ForwardPass(store: Store, vs: seq<Visit>, dryRun: bool) returns (drifted: nat, repaired: nat, errors: nat)
    requires AllListed(vs)
    modifies store
    ensures dryRun ==> store.Tables() == old(store.Tables())
    ensures dryRun ==> drifted == Differing(old(store.Tables()), vs) && repaired == errors == 0
    ensures !dryRun ==>
              && store.Tables() == Forward(store.cfg, old(store.Tables()), vs)
              && drifted == Drifted(store.cfg, old(store.Tables()), vs) == repaired + errors
              && repaired == Mended(store.cfg, old(store.Tables()), vs)
  {
    drifted, repaired, errors := 0, 0, 0;
    ghost var cfg, w0 := store.cfg, store.Tables();
    assert vs[0..] == vs;
    for k := 0 to |vs|
      invariant dryRun ==> store.Tables() == w0 && drifted + Differing(w0, vs[k..]) == Differing(w0, vs)
      invariant dryRun ==> repaired == errors == 0
      invariant !dryRun ==> Forward(cfg, store.Tables(), vs[k..]) == Forward(cfg, w0, vs)
      invariant !dryRun ==> drifted + Drifted(cfg, store.Tables(), vs[k..]) == Drifted(cfg, w0, vs)
      invariant !dryRun ==> repaired + Mended(cfg, store.Tables(), vs[k..]) == Mended(cfg, w0, vs)
      invariant !dryRun ==> drifted == repaired + errors
    {
      assert vs[k..][0] == vs[k] && vs[k..][1..] == vs[k + 1..];
      var d, r := ForwardTurn(store, vs[k], dryRun);
      drifted, repaired := drifted + d, repaired + r;
      if !dryRun {
        errors := errors + d - r;
      }
    }
    assert vs[|vs|..] == [];
  }

  /** Tenants whose plan claims a Stripe subscription. */
  function Claims(cfg: Config, plans: map<string, PlanRow>, only: Option<string>): set<string> {
    set t | t in plans && InScope(only, t) && plans[t].source == "stripe" && plans[t].plan != cfg.defaultPlan
  }

  /** The plan table when every orphan outside `rows` has been dealt with. */
  function PlansAfter(cfg: Config, w: World, only: Option<string>, failing: set<string>, rows: set<string>)
    : map<string, PlanRow>
  {
    var repaired := if DefaultDeclared(cfg) then Orphans(cfg, w, only) - rows - failing else {};
    map t | t in w.plans :: if t in repaired then PlanRow(cfg.defaultPlan, "reconciliation", None) else w.plans[t]
  }

  lemma PlansAfterEnds(cfg: Config, w: World, only: Option<string>, failing: set<string>)
    ensures PlansAfter(cfg, w, only, failing, Claims(cfg, w.plans, only)) == w.plans
    ensures PlansAfter(cfg, w, only, failing, {}) == Reverse(cfg, w, only, failing).plans
    ensures Orphans(cfg, w, only) - Claims(cfg, w.plans, only) == {}
  {
  }

  lemma PlansAfterLive(cfg: Config, w: World, only: Option<string>, failing: set<string>, rows: set<string>, t: string)
    requires t !in Orphans(cfg, w, only)
    ensures PlansAfter(cfg, w, only, failing, rows - {t}) == PlansAfter(cfg, w, only, failing, rows)
  {
  }

  /** The orphans whose repair returns: their row is written and their cache entry deleted. */
  function Returned(cfg: Config, w: World, only: Option<string>, failing: set<string>, uncached: set<string>)
    : set<string>
  {
    if DefaultDeclared(cfg) then Orphans(cfg, w, only) - failing - uncached else {}
  }

  function OrphanFault(t: string, failing: set<string>, uncached: set<string>): Fault {
    if t in failing then PlanWriteFails else if t in uncached then CacheDeleteFails else NoFault
  }

  lemma PlansAfterOrphan(cfg: Config, w: World, only: Option<string>, failing: set<string>, uncached: set<string>,
                         rows: set<string>, t: string)
    requires t in Orphans(cfg, w, only) && t in rows
    ensures Assign(cfg, PlansAfter(cfg, w, only, failing, rows), t, cfg.defaultPlan, "reconciliation",
                   OrphanFault(t, failing, uncached)) ==
            (PlansAfter(cfg, w, only, failing, rows - {t}), t in Returned(cfg, w, only, failing, uncached))
  {
    var before := PlansAfter(cfg, w, only, failing, rows);
    assert before[t] == w.plans[t];
    assert Assign(cfg, before, t, cfg.defaultPlan, "reconciliation", OrphanFault(t, failing, uncached)).0 ==
           PlansAfter(cfg, w, only, failing, rows - {t});
  }

  /** How many orphans outside `rows` there are, and for how many of them the repair returns. */
  function Dealt(cfg: Config, w: World, only: Option<string>, rows: set<string>): nat {
    |Orphans(cfg, w, only) - rows|
  }

  function Settled(cfg: Config, w: World, only: Option<string>, failing: set<string>, uncached: set<string>,
                   rows: set<string>): nat
  {
    |Returned(cfg, w, only, failing, uncached) - rows|
  }

  lemma OneLess<T>(xs: set<T>, rows: set<T>, t: T)
    requires t in rows
    ensures |xs - (rows - {t})| == |xs - rows| + if t in xs then 1 else 0
  {
    if t in xs {
      assert xs - (rows - {t}) == xs - rows + {t};
    } else {
      assert xs - (rows - {t}) == xs - rows;
    }
  }

  lemma OneDealt(cfg: Config, w: World, only: Option<string>, failing: set<string>, uncached: set<string>,
                 rows: set<string>, t: string)
    requires t in rows
    ensures Dealt(cfg, w, only, rows - {t}) == Dealt(cfg, w, only, rows) + if t in Orphans(cfg, w, only) then 1 else 0
    ensures Settled(cfg, w, only, failing, uncached, rows - {t}) ==
            Settled(cfg, w, only, failing, uncached, rows)
            + if t in Returned(cfg, w, only, failing, uncached) then 1 else 0
  {
    OneLess(Orphans(cfg, w, only), rows, t);
    OneLess(Returned(cfg, w, only, failing, uncached), rows, t);
  }

  /** One turn of the reverse pass; the results are the turn's contributions to the counters. */
  method ReverseTurn(store: Store, ghost w: World, ghost rows: set<string>, t: string, only: Option<string>,
                     failing: set<string>, uncached: set<string>, dryRun: bool)
    returns (orphaned: nat, repaired: nat)
    requires store.mirror == w.mirror && t in rows && t in Claims(store.cfg, w.plans, only)
    requires store.plans == if dryRun then w.plans else PlansAfter(store.cfg, w, only, failing, rows)
    modifies store`plans
    ensures store.plans == if dryRun then w.plans else PlansAfter(store.cfg, w, only, failing, rows - {t})
    ensures Dealt(store.cfg, w, only, rows - {t}) == Dealt(store.cfg, w, only, rows) + orphaned
    ensures !dryRun ==> Settled(store.cfg, w, only, failing, uncached, rows - {t}) ==
                        Settled(store.cfg, w, only, failing, uncached, rows) + repaired
    ensures dryRun ==> repaired == 0
  {
    OneDealt(store.cfg, w, only, failing, uncached, rows, t);
    var live := HasLive(store, t);
    assert HasLiveSubscription(store.Tables(), t) <==> HasLiveSubscription(w, t);
    if live {
      PlansAfterLive(store.cfg, w, only, failing, rows, t);
      return 0, 0;
    }
    PlansAfterOrphan(store.cfg, w, only, failing, uncached, rows, t);
    if dryRun {
      return 1, 0;
    }
    var ok := store.AssignPlan(t, store.cfg.defaultPlan, "reconciliation", OrphanFault(t, failing, uncached));
    return 1, if ok then 1 else 0;
  }

  /** The loop of the reverse pass over the plan rows that claim a Stripe subscription. */
  method ReverseTurns(store: Store, ghost w: World, claims: set<string>, only: Option<string>, failing: set<string>,
                      uncached: set<string>, dryRun: bool)
    returns (orphaned: nat, repaired: nat, errors: int)
    requires w == store.Tables() && claims <= Claims(store.cfg, w.plans, only) && Dealt(store.cfg, w, only, claims) == 0
    requires Settled(store.cfg, w, only, failing, uncached, claims) == 0
    requires store.plans == if dryRun then w.plans else PlansAfter(store.cfg, w, only, failing, claims)
    modifies store`plans
    ensures store.plans == if dryRun then w.plans else PlansAfter(store.cfg, w, only, failing, {})
    ensures repaired == if dryRun then 0 else Settled(store.cfg, w, only, failing, uncached, {})
    ensures orphaned == Dealt(store.cfg, w, only, {}) && errors == if dryRun then 0 else orphaned - repaired
  {
    orphaned, repaired, errors := 0, 0, 0;
    var rows := claims;
    while rows != {}
      invariant rows <= claims
      invariant orphaned == Dealt(store.cfg, w, only, rows)
      invariant repaired == if dryRun then 0 else Settled(store.cfg, w, only, failing, uncached, rows)
      invariant errors == if dryRun then 0 else orphaned - repaired
      invariant store.plans == if dryRun then w.plans else PlansAfter(store.cfg, w, only, failing, rows)
      decreases rows
    {
      var t :| t in rows;
      var o, r := ReverseTurn(store, w, rows, t, only, failing, uncached, dryRun);
      rows := rows - {t};
      orphaned, repaired := orphaned + o, repaired + r;
      if !dryRun {
        errors := errors + o - r;
      }
    }
  }

  lemma NothingDealt(cfg: Config, w: World, only: Option<string>, failing: set<string>, uncached: set<string>)
    ensures Dealt(cfg, w, only, Claims(cfg, w.plans, only)) == 0
    ensures Settled(cfg, w, only, failing, uncached, Claims(cfg, w.plans, only)) == 0
  {
    PlansAfterEnds(cfg, w, only, failing);
    assert Returned(cfg, w, only, failing, uncached) - Claims(cfg, w.plans, only) == {};
  }

  /**
   The reverse pass: plans that claim a Stripe subscription which is not there go back to the default. An orphan in
   `failing` is left and counted as an error; one in `uncached` is repaired and counted as an error all the same.
   */
  method ReversePass(store: Store, only: Option<string>, failing: set<string>, uncached: set<string>, dryRun: bool)
    returns (orphaned: nat, repaired: nat, errors: int)
    modifies store`plans
    ensures store.plans == old(if dryRun then store.plans else Reverse(store.cfg, store.Tables(), only, failing).plans)
    ensures orphaned == |Orphans(store.cfg, old(store.Tables()), only)|
    ensures repaired == if dryRun then 0 else |Returned(store.cfg, old(store.Tables()), only, failing, uncached)|
    ensures errors == if dryRun then 0 else orphaned - repaired
  {
    ghost var w := store.Tables();
    PlansAfterEnds(store.cfg, w, only, failing);
    NothingDealt(store.cfg, w, only, failing, uncached);
    orphaned, repaired, errors :=
      ReverseTurns(store, w, Claims(store.cfg, store.plans, only), only, failing, uncached, dryRun);
    assert Orphans(store.cfg, w, only) - {} == Orphans(store.cfg, w, only);
    assert Returned(store.cfg, w, only, failing, uncached) - {} == Returned(store.cfg, w, only, failing, uncached);
  }

  /** The query for a live subscription of the tenant. */
  method HasLive(store: Store, tenant: string) returns (live: bool)
    ensures live <==> HasLiveSubscription(store.Tables(), tenant)
  {
    live := exists id :: id in store.mirror && store.mirror[id].tenant == tenant
                         && store.mirror[id].status in ACTIVE_STATUSES;
  }

  /** What the command reports: of a dry run what it has found, else also what it has repaired, and failed to. */
  function Report(cfg: Config, w: World, vs: seq<Visit>, only: Option<string>, failing: set<string>,
                  uncached: set<string>,
                  dryRun: bool): Summary
    requires AllListed(vs)
  {
    var w1 := if dryRun then w else Forward(cfg, w, vs);
    var drifted := if dryRun then Differing(w, vs) else Drifted(cfg, w, vs);
    var orphaned := if cfg.defaultPlan == "" then 0 else |Orphans(cfg, w1, only)|;
    if dryRun then Summary(|vs|, drifted, 0, orphaned, 0, 0)
    else
      CleanMendsAll(cfg, w, vs);
      var returned := if cfg.defaultPlan == "" then {} else Returned(cfg, w1, only, failing, uncached);
      ReturnedAreOrphans(cfg, w1, only, failing, uncached);
      Summary(|vs|, drifted, Mended(cfg, w, vs), orphaned, |returned|,
              (drifted - Mended(cfg, w, vs)) + (orphaned - |returned|))
  }

  lemma ReturnedAreOrphans(cfg: Config, w: World, only: Option<string>, failing: set<string>, uncached: set<string>)
    ensures |Returned(cfg, w, only, failing, uncached)| <= |Orphans(cfg, w, only)|
  {
    var returned, orphans := Returned(cfg, w, only, failing, uncached), Orphans(cfg, w, only);
    assert orphans == returned + (orphans - returned);
  }

  /** `run` of the command. */
  method SyncCommand(store: Store, vs: seq<Visit>, only: Option<string>, failing: set<string>, uncached: set<string>,
                     dryRun: bool) returns (s: Summary)
    requires AllListed(vs)
    modifies store
    ensures store.Tables() ==
            if dryRun then old(store.Tables()) else RunSync(store.cfg, old(store.Tables()), vs, only, failing)
    ensures s == Report(store.cfg, old(store.Tables()), vs, only, failing, uncached, dryRun)
  {
    var drifted, repaired, errors := ForwardPass(store, vs, dryRun);
    var orphaned, orphansRepaired, more: int := 0, 0, 0;
    ReturnedAreOrphans(store.cfg, store.Tables(), only, failing, uncached);
    if store.cfg.defaultPlan != "" {
      orphaned, orphansRepaired, more := ReversePass(store, only, failing, uncached, dryRun);
    }
    s := Summary(|vs|, drifted, repaired, orphaned, orphansRepaired, errors + more);
  }

  /** No errors are reported exactly of a run that is clean in both directions. */
  lemma ReportedErrors(cfg: Config, w: World, vs: seq<Visit>, only: Option<string>, failing: set<string>,
                       uncached: set<string>)
    requires AllListed(vs) && cfg.defaultPlan != ""
    ensures var w1 := Forward(cfg, w, vs);
            Report(cfg, w, vs, only, failing, uncached, false).errors == 0 <==>
            && ForwardClean(cfg, w, vs)
            && (Orphans(cfg, w1, only) == {} ||
                (DefaultDeclared(cfg) && Orphans(cfg, w1, only) !! failing + uncached))
  {
    var w1 := Forward(cfg, w, vs);
    var returned, orphans := Returned(cfg, w1, only, failing, uncached), Orphans(cfg, w1, only);
    CleanMendsAll(cfg, w, vs);
    ReturnedAreOrphans(cfg, w1, only, failing, uncached);
    assert orphans == returned + (orphans - returned);
    assert |orphans - returned| == 0 <==> orphans - returned == {};
    assert orphans - returned == {} <==> orphans == {} || (DefaultDeclared(cfg) && orphans !! failing + uncached);
  }
}
