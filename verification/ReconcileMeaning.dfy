/** What a reconciliation run does and reports, told without the passes it is made of. */
module ReconcileMeaning {
  import opened Json
  import opened StripeEvent
  import opened Billing
  import opened Reconcile

  /** A row of the tenant is in one of the five statuses that keep a plan alive. */
  predicate Lives(w: World, tenant: string) {
    exists id :: id in w.mirror && w.mirror[id].tenant == tenant
                 && w.mirror[id].status in {"active", "trialing", "past_due", "paused", "unpaid"}
  }

  /** A plan that claims Stripe without a living subscription: other sources and the default plan claim nothing. */
  predicate Claimless(cfg: Config, w: World, tenant: string) {
    && tenant in w.plans && w.plans[tenant].source == "stripe" && w.plans[tenant].plan != cfg.defaultPlan
    && !Lives(w, tenant)
  }

  predicate Covered(only: Option<string>, tenant: string) {
    only == None || only == Some(tenant)
  }

  /** The reverse pass takes each claimless plan that it covers to the default, and touches no other plan. */
  lemma ReverseMeans(cfg: Config, w: World, only: Option<string>, failing: set<string>)
    ensures var w' := Reverse(cfg, w, only, failing);
            && w'.customers == w.customers && w'.mirror == w.mirror && w'.emitted == w.emitted
            && w'.plans.Keys == w.plans.Keys
            && forall t :: t in w.plans ==>
                 w'.plans[t] ==
                 if Claimless(cfg, w, t) && Covered(only, t) && t !in failing
                    && (cfg.definitions.Some? ==> cfg.defaultPlan in cfg.definitions.value)
                 then PlanRow(cfg.defaultPlan, "reconciliation", None) else w.plans[t]
  {
    forall t ensures Orphan(cfg, w, only, t) <==> Claimless(cfg, w, t) && Covered(only, t) {
      assert HasLiveSubscription(w, t) <==> Lives(w, t);
    }
  }

  /** The event that would have told of the subscription as it is listed. */
  function Told(v: Visit): Event
    requires Listed(v)
  {
    Event("", SubscriptionType(if v.sub[Status] == Str("canceled") then WasDeleted else WasUpdated), v.now, None, v.sub)
  }

  predicate Agrees(w: World, v: Visit) {
    exists id, status ::
      && Id in v.sub && v.sub[Id] == Str(id) && Status in v.sub && v.sub[Status] == Str(status)
      && id in w.mirror && w.mirror[id].status == status
  }

  lemma AgreesIsMatches(w: World, v: Visit)
    requires Listed(v)
    ensures Agrees(w, v) <==> Matches(w, v)
  {
    if Matches(w, v) {
      assert v.sub[Id] == Str(IdIn(v)) && v.sub[Status] == Str(StatusIn(v));
    }
  }

  /** One subscription of the forward pass: left alone when it agrees, otherwise repaired as its event would have it. */
  lemma RepairIsTold(cfg: Config, w: World, v: Visit)
    requires Listed(v)
    ensures Repair(cfg, w, v) == Dispatch(cfg, w, Told(v), v.now, v.fault)
    ensures ForwardOne(cfg, w, v) == if Agrees(w, v) then w else Dispatch(cfg, w, Told(v), v.now, v.fault).0
  {
    AgreesIsMatches(w, v);
  }

  lemma OnePass(cfg: Config, w: World, v: Visit)
    requires Listed(v)
    ensures Forward(cfg, w, [v]) == ForwardOne(cfg, w, v)
    ensures Drifted(cfg, w, [v]) == (if Matches(w, v) then 0 else 1) == Differing(w, [v])
    ensures Mended(cfg, w, [v]) == if Matches(w, v) || Repair(cfg, w, v).1.Threw? then 0 else 1
  {
    assert [v][0] == v && [v][1..] == [];
  }

  lemma {:induction false} OneMore(cfg: Config, w: World, vs: seq<Visit>, v: Visit)
    requires AllListed(vs) && Listed(v)
    ensures AllListed(vs + [v])
    ensures Forward(cfg, w, vs + [v]) == ForwardOne(cfg, Forward(cfg, w, vs), v)
    ensures Drifted(cfg, w, vs + [v]) == Drifted(cfg, w, vs) + (if Matches(Forward(cfg, w, vs), v) then 0 else 1)
    ensures Mended(cfg, w, vs + [v]) ==
            Mended(cfg, w, vs)
            + (if Matches(Forward(cfg, w, vs), v) || Repair(cfg, Forward(cfg, w, vs), v).1.Threw? then 0 else 1)
    decreases |vs|
  {
    if vs == [] {
      assert vs + [v] == [v];
      OnePass(cfg, w, v);
    } else {
      OneMore(cfg, ForwardOne(cfg, w, vs[0]), vs[1..], v);
      assert (vs + [v])[1..] == vs[1..] + [v] && (vs + [v])[0] == vs[0];
    }
  }

  lemma {:induction false} DifferingGrows(w: World, vs: seq<Visit>, v: Visit)
    requires AllListed(vs) && Listed(v)
    ensures AllListed(vs + [v])
    ensures Differing(w, vs + [v]) == Differing(w, vs) + (if Agrees(w, v) then 0 else 1)
    decreases |vs|
  {
    AgreesIsMatches(w, v);
    if vs == [] {
      assert vs + [v] == [v] && [v][1..] == [];
    } else {
      DifferingGrows(w, vs[1..], v);
      assert (vs + [v])[1..] == vs[1..] + [v];
    }
  }

  /** A pass over nothing, and one more subscription after a pass: the tables and the three counts. */
  lemma PassGrows(cfg: Config, w: World, vs: seq<Visit>, v: Visit)
    requires AllListed(vs) && Listed(v)
    ensures Forward(cfg, w, []) == w && Drifted(cfg, w, []) == Mended(cfg, w, []) == Differing(w, []) == 0
    ensures AllListed(vs + [v])
    ensures var w1 := Forward(cfg, w, vs);
            var (w2, r) := Dispatch(cfg, w1, Told(v), v.now, v.fault);
            && Forward(cfg, w, vs + [v]) == (if Agrees(w1, v) then w1 else w2)
            && Drifted(cfg, w, vs + [v]) == Drifted(cfg, w, vs) + (if Agrees(w1, v) then 0 else 1)
            && Mended(cfg, w, vs + [v]) == Mended(cfg, w, vs) + (if Agrees(w1, v) || r.Threw? then 0 else 1)
    ensures Differing(w, vs + [v]) == Differing(w, vs) + (if Agrees(w, v) then 0 else 1)
  {
    OneMore(cfg, w, vs, v);
    DifferingGrows(w, vs, v);
    RepairIsTold(cfg, Forward(cfg, w, vs), v);
    AgreesIsMatches(Forward(cfg, w, vs), v);
  }

  /** A dry run foretells what a run finds: no repair touches another subscription's row. */
  lemma {:induction false} DryRunForetells(cfg: Config, w: World, vs: seq<Visit>)
    requires AllListed(vs) && Distinct(vs)
    ensures Drifted(cfg, w, vs) == Differing(w, vs)
    decreases |vs|
  {
    if vs != [] {
      var w1 := ForwardOne(cfg, w, vs[0]);
      DryRunForetells(cfg, w1, vs[1..]);
      forall k | 0 <= k < |vs[1..]| ensures Matches(w1, vs[1..][k]) <==> Matches(w, vs[1..][k]) {
        RepairKeepsOthers(cfg, w, vs[0], IdIn(vs[k + 1]));
      }
      SameDiffering(w, w1, vs[1..]);
    }
  }

  lemma {:induction false} SameDiffering(w: World, w1: World, vs: seq<Visit>)
    requires AllListed(vs) && forall k :: 0 <= k < |vs| ==> (Matches(w1, vs[k]) <==> Matches(w, vs[k]))
    ensures Differing(w1, vs) == Differing(w, vs)
    decreases |vs|
  {
    if vs != [] {
      assert forall k :: 0 <= k < |vs[1..]| ==> vs[1..][k] == vs[k + 1];
      SameDiffering(w, w1, vs[1..]);
    }
  }

  /** The tenants that a reverse pass finds, and those whose repair returns. */
  ghost predicate Finds(cfg: Config, w: World, only: Option<string>, found: set<string>) {
    forall t :: t in found <==> cfg.defaultPlan != "" && Claimless(cfg, w, t) && Covered(only, t)
  }

  ghost predicate Mends(cfg: Config, found: set<string>, failing: set<string>, uncached: set<string>,
                        mended: set<string>)
  {
    forall t :: t in mended <==>
                && t in found && t !in failing && t !in uncached
                && (cfg.definitions.Some? ==> cfg.defaultPlan in cfg.definitions.value)
  }

  lemma FoundAreOrphans(cfg: Config, w: World, only: Option<string>, found: set<string>, failing: set<string>,
                        uncached: set<string>, mended: set<string>)
    requires cfg.defaultPlan != "" && Finds(cfg, w, only, found) && Mends(cfg, found, failing, uncached, mended)
    ensures found == Orphans(cfg, w, only) && mended == Returned(cfg, w, only, failing, uncached)
  {
    forall t ensures Orphan(cfg, w, only, t) <==> Claimless(cfg, w, t) && Covered(only, t) {
      assert HasLiveSubscription(w, t) <==> Lives(w, t);
    }
  }

  /** The summary: what was found, and of a run that is not dry what was repaired and what failed. */
  lemma ReportMeans(cfg: Config, w: World, vs: seq<Visit>, only: Option<string>, failing: set<string>,
                    uncached: set<string>, dryRun: bool, found: set<string>, mended: set<string>)
    requires AllListed(vs)
    requires Finds(cfg, if dryRun then w else Forward(cfg, w, vs), only, found)
    requires Mends(cfg, found, failing, uncached, mended)
    ensures var s := Report(cfg, w, vs, only, failing, uncached, dryRun);
            && s.scanned == |vs| && s.orphaned == |found|
            && s.drifted == (if dryRun then Differing(w, vs) else Drifted(cfg, w, vs))
            && s.repaired == (if dryRun then 0 else Mended(cfg, w, vs))
            && s.orphansRepaired == (if dryRun then 0 else |mended|)
            && s.errors == (if dryRun then 0 else s.drifted - s.repaired + |found| - |mended|)
  {
    if cfg.defaultPlan != "" {
      FoundAreOrphans(cfg, if dryRun then w else Forward(cfg, w, vs), only, found, failing, uncached, mended);
    } else {
      assert found == {} && mended == {};
    }
  }

  /** A whole run: the reverse pass follows the forward pass, unless the default plan is empty. */
  lemma RunMeans(cfg: Config, w: World, vs: seq<Visit>, only: Option<string>, failing: set<string>, t: string)
    requires AllListed(vs)
    ensures var w1 := Forward(cfg, w, vs);
            var w' := RunSync(cfg, w, vs, only, failing);
            && w'.customers == w1.customers && w'.mirror == w1.mirror && w'.emitted == w1.emitted
            && w'.plans.Keys == w1.plans.Keys
            && (t in w1.plans ==>
                  w'.plans[t] ==
                  if cfg.defaultPlan != "" && Claimless(cfg, w1, t) && Covered(only, t) && t !in failing
                     && (cfg.definitions.Some? ==> cfg.defaultPlan in cfg.definitions.value)
                  then PlanRow(cfg.defaultPlan, "reconciliation", None) else w1.plans[t])
  {
    ReverseMeans(cfg, Forward(cfg, w, vs), only, failing);
  }
}
