/** What an attempt at an event comes to, error by error, and how many attempts a job gets. */
module Attempts {
  import opened Json
  import opened BillingErrors
  import opened Ledger

  const FATAL: set<ErrorCode> :=
    {PeerMissing, ConfigMissing, TestInProduction, LiveKeyOutsideProduction, InvalidSignature, WebhookBodyUnreadable,
     PlanUnmapped, InvalidPrice, SubscriptionNotFound, CardDeclined, IdempotencyConflict, AuthenticationFailed,
     InvalidStripeRequest, PermissionDenied}

  /** The errors that a retry cannot cure; anything that is not a billing exception is retried. */
  lemma FatalErrors(f: Failure)
    ensures IsFatal(f) <==> f.Billing? && f.code in FATAL
  {
  }

  /** Among them are not those of an event that comes before its checkout, nor those of a service in trouble. */
  lemma CurableErrors(code: ErrorCode)
    ensures !IsFatal(Billing(code)) <==>
            code in {TenantNotResolvable, CustomerNotFound, RateLimited, ApiError, NetworkError, MeteringFailed,
                     QueueUnavailable}
  {
  }

  /**
   The end of an attempt at a row that nobody else has changed since: completed without an error; or completed with a
   note that its first save threw; or failed for good, with the error; or as it was, with the error noted; or, when
   nothing could be saved, as it was.
   */
  lemma AttemptLeaves(row: Row, f: Failure)
    ensures Ended(row, row, Handled(First)) == Row(Completed, row.attempts, None)
    ensures Ended(row, row, Handled(Second)) == Row(Completed, row.attempts, Some(Unhandled))
    ensures Ended(row, row, Handled(Neither)) == row == Ended(row, row, Errored(f, false))
    ensures Ended(row, row, Errored(f, true)) ==
            Row(if f.Billing? && f.code in FATAL then Failed else row.status, row.attempts, Some(f))
  {
    FatalErrors(f);
  }

  /** And whether the job is done with: after the one save that completes it, or a stored fatal error. */
  lemma AttemptSettles(save: Save, f: Failure, saved: bool)
    ensures Settles(Handled(save)) <==> save == First
    ensures Settles(Errored(f, saved)) <==> saved && f.Billing? && f.code in FATAL
  {
    FatalErrors(f);
  }

  /** Attempts that fail with an error that may pass. */
  function Failing(f: Failure, n: nat): seq<Step>
    decreases n
  {
    if n == 0 then [] else [Start(0, true)] + ([Finish(Errored(f, true))] + Failing(f, n - 1))
  }

  /** One job of a row that is not completed. */
  function Waits(row: Row, made: nat, acked: bool): Slot {
    Slot(Some(row), 0, [made], None, 0, [], acked, false)
  }

  lemma OneFails(row: Row, made: nat, f: Failure, acked: bool, budget: nat)
    requires row.status != Completed && !(f.Billing? && f.code in FATAL)
    ensures var s := Waits(row, made, acked);
            var s1 := Step1(s, Start(0, true), budget);
            Step1(s1, Finish(Errored(f, true)), budget) ==
            s.(row := Some(Row(row.status, row.attempts + 1, Some(f))),
               queued := if made + 1 < budget then [made + 1] else [],
               dying := if made + 1 < budget then 0 else 1)
  {
    FatalErrors(f);
    AttemptLeaves(Begun(row), f);
    assert [made][..0] + [made][1..] == [];
    assert [] + [made + 1] == [made + 1];
  }

  /**
   A job whose attempts all fail so is tried as often as the queue allows, and counted each time; after the last try it
   waits for the hook.
   */
  lemma {:induction false} BudgetIsSpent(row: Row, made: nat, f: Failure, acked: bool, budget: nat)
    requires row.status != Completed && !(f.Billing? && f.code in FATAL) && made < budget
    ensures Steps(Waits(row, made, acked), Failing(f, budget - made), budget) ==
            Waits(Row(row.status, row.attempts + (budget - made), Some(f)), made, acked).(queued := [], dying := 1)
    decreases budget - made
  {
    var n := budget - made;
    var s := Waits(row, made, acked);
    var s1 := Step1(s, Start(0, true), budget);
    OneFails(row, made, f, acked, budget);
    StepsCons(s, Start(0, true), [Finish(Errored(f, true))] + Failing(f, n - 1), budget);
    StepsCons(s1, Finish(Errored(f, true)), Failing(f, n - 1), budget);
    if n > 1 {
      BudgetIsSpent(Row(row.status, row.attempts + 1, Some(f)), made + 1, f, acked, budget);
    }
  }

  /** A delivery: a new event gets its row and is to be dispatched, as is one untouched; the others are answered. */
  lemma DeliveryMeans(s: Slot, budget: nat)
    ensures Next(s, Receive, budget) ==
            if s.row == None then s.(row := Some(Row(Pending, 0, None)), deliveries := s.deliveries + 1)
            else if s.row.value.status == Pending && s.row.value.attempts == 0
            then s.(deliveries := s.deliveries + 1)
            else s.(acked := true)
    ensures s.deliveries > 0 ==>
              && Next(s, Enqueue, budget) ==
                 s.(deliveries := s.deliveries - 1, queued := s.queued + [0], acked := true)
              && Next(s, Drop, budget) == s.(deliveries := s.deliveries - 1)
    ensures Next(s, HandDispatch, budget) == s.(queued := s.queued + [0])
  {
  }

  /** A worker takes a job: gone if there is nothing to do, back or spent if it cannot count, else under way. */
  lemma StartMeans(s: Slot, before: seq<nat>, made: nat, after: seq<nat>, budget: nat)
    requires s.queued == before + [made] + after && s.running == None
    ensures var taken := s.(queued := before + after);
            && (s.row == None || s.row.value.status == Completed ==>
                  forall saved :: Next(s, Start(|before|, saved), budget) == taken)
            && (s.row != None && s.row.value.status != Completed ==>
                  && Next(s, Start(|before|, true), budget) ==
                     (var row := s.row.value.(attempts := s.row.value.attempts + 1);
                      taken.(row := Some(row), running := Some(Ledger.Run(row, made))))
                  && Next(s, Start(|before|, false), budget) ==
                     if made + 1 < budget then taken.(queued := before + after + [made + 1])
                     else taken.(dying := s.dying + 1))
  {
    assert s.queued[..|before|] == before && s.queued[|before| + 1..] == after && s.queued[|before|] == made;
  }

  /** An attempt that dies with its process is still the queue's: the same job comes again, with the count it had. */
  lemma CrashMeans(s: Slot, budget: nat)
    requires s.running.Some?
    ensures Next(s, Crash, budget) == s.(running := None, queued := s.queued + [s.running.value.made])
  {
  }

  /** The hook of a job that is spent: it goes by a missing or completed row, and marks one it found as failed. */
  lemma HookMeans(s: Slot, row: Row, before: seq<Row>, after: seq<Row>, f: Failure, budget: nat)
    requires s.row == Some(row)
    ensures s.dying > 0 ==>
              Next(s, HookFind, budget) ==
              if row.status == Completed then s.(dying := s.dying - 1)
              else s.(dying := s.dying - 1, hooks := s.hooks + [row])
    ensures s.hooks == before + [row] + after ==>
              && Next(s, HookSave(|before|, f, true), budget) ==
                 s.(hooks := before + after, row := Some(Row(Failed, row.attempts, Some(f))))
              && Next(s, HookSave(|before|, f, false), budget) == s.(hooks := before + after)
  {
    if s.hooks == before + [row] + after {
      assert s.hooks[..|before|] == before && s.hooks[|before| + 1..] == after && s.hooks[|before|] == row;
    }
  }

  /** An event from its delivery to its completion, and to its first failure. */
  lemma FirstAttempt(f: Failure, budget: nat)
    requires budget > 1 && !(f.Billing? && f.code in FATAL)
    ensures var taken := [Receive] + ([Enqueue] + ([Start(0, true)] + []));
            && Steps(UNSEEN, taken, budget) ==
               Slot(Some(Row(Pending, 1, None)), 0, [], Some(Ledger.Run(Row(Pending, 1, None), 0)), 0, [], true, false)
            && Next(Steps(UNSEEN, taken, budget), Finish(Handled(First)), budget) ==
               Slot(Some(Row(Completed, 1, None)), 0, [], None, 0, [], true, true)
            && Next(Steps(UNSEEN, taken, budget), Finish(Errored(f, true)), budget) ==
               Slot(Some(Row(Pending, 1, Some(f))), 0, [1], None, 0, [], true, false)
  {
    var s1 := Slot(Some(Row(Pending, 0, None)), 1, [], None, 0, [], false, false);
    var s2 := Slot(Some(Row(Pending, 0, None)), 0, [0], None, 0, [], true, false);
    StepsCons(UNSEEN, Receive, [Enqueue] + ([Start(0, true)] + []), budget);
    StepsCons(s1, Enqueue, [Start(0, true)] + [], budget);
    StepsCons(s2, Start(0, true), [], budget);
    StartMeans(s2, [], 0, [], budget);
    AttemptLeaves(Row(Pending, 1, None), f);
  }
}
