/** The webhook controller, the job and the replay command over the ledger table and the queue. */
module LedgerStore {
  import opened Json
  import opened BillingErrors
  import opened Ledger

  datatype Job = Job(id: string, made: nat)

  /** The attempts counted for the waiting jobs of one event, in queue order. */
  function Counts(jobs: seq<Job>, id: string): seq<nat>
    decreases |jobs|
  {
    if jobs == [] then [] else (if jobs[0].id == id then [jobs[0].made] else []) + Counts(jobs[1..], id)
  }

  lemma {:induction false} CountsConcat(a: seq<Job>, b: seq<Job>, id: string)
    ensures Counts(a + b, id) == Counts(a, id) + Counts(b, id)
    decreases |a|
  {
    if a == [] {
      assert a + b == b;
    } else {
      CountsConcat(a[1..], b, id);
      assert (a + b)[0] == a[0] && (a + b)[1..] == a[1..] + b;
    }
  }

  lemma CountsPush(a: seq<Job>, j: Job, id: string)
    ensures Counts(a + [j], id) == if j.id == id then Counts(a, id) + [j.made] else Counts(a, id)
  {
    CountsConcat(a, [j], id);
    assert Counts([j], id) == (if j.id == id then [j.made] else []) + Counts([j][1..], id);
  }

  /** Where the job at `k` stands among the waiting jobs of its event. */
  function Spot(jobs: seq<Job>, k: nat): nat
    requires k < |jobs|
  {
    |Counts(jobs[..k], jobs[k].id)|
  }

  lemma TakeMiddle(all: seq<nat>, a: seq<nat>, m: nat, b: seq<nat>)
    requires all == a + ([m] + b)
    ensures |a| < |all| && all[|a|] == m && all[..|a|] + all[|a| + 1..] == a + b
  {
  }

  /** Taking the job at `k` from the queue takes one waiting job of its event. */
  lemma CountsTake(jobs: seq<Job>, k: nat)
    requires k < |jobs|
    ensures var all := Counts(jobs, jobs[k].id);
            && Spot(jobs, k) < |all| && all[Spot(jobs, k)] == jobs[k].made
            && Counts(jobs[..k] + jobs[k + 1..], jobs[k].id) == all[..Spot(jobs, k)] + all[Spot(jobs, k) + 1..]
  {
    var id := jobs[k].id;
    CountsSplit(jobs, k, id);
    TakeMiddle(Counts(jobs, id), Counts(jobs[..k], id), jobs[k].made, Counts(jobs[k + 1..], id));
  }

  /** And none of any other event. */
  lemma CountsTakeOther(jobs: seq<Job>, k: nat, id: string)
    requires k < |jobs| && id != jobs[k].id
    ensures Counts(jobs[..k] + jobs[k + 1..], id) == Counts(jobs, id)
  {
    CountsSplit(jobs, k, id);
  }

  lemma CountsSplit(jobs: seq<Job>, k: nat, id: string)
    requires k < |jobs|
    ensures Counts(jobs[..k] + jobs[k + 1..], id) == Counts(jobs[..k], id) + Counts(jobs[k + 1..], id)
    ensures Counts(jobs, id) ==
            Counts(jobs[..k], id) + ((if jobs[k].id == id then [jobs[k].made] else []) + Counts(jobs[k + 1..], id))
  {
    CountsConcat(jobs[..k], jobs[k + 1..], id);
    assert jobs == jobs[..k] + jobs[k..];
    CountsConcat(jobs[..k], jobs[k..], id);
    assert jobs[k..][1..] == jobs[k + 1..];
  }

  /** What a replay leaves of a row that nobody has changed since it was read: a clean slate, and its attempts. */
  lemma AsRead(s: Slot, row: Row, dispatched: bool)
    requires s.row == Some(row)
    ensures Replayed(s, row, dispatched).row == Some(Row(Pending, row.attempts, None))
    ensures Replayed(s, row, dispatched).queued == s.queued + if dispatched then [0] else []
  {
  }

  /** A loaded ledger row: fields that the code assigns, and what they were when last read or saved. */
  class Record {
    const id: string
    var status: Status
    var attempts: nat
    var lastError: Option<Failure>
    var loaded: Row

    constructor (id: string, row: Row)
      ensures this.id == id && loaded == row && Current() == row
    {
      this.id := id;
      status, attempts, lastError := row.status, row.attempts, row.lastError;
      loaded := row;
    }

    function Current(): Row
      reads this
    {
      Row(status, attempts, lastError)
    }
  }

  datatype Answer = Received | Unavailable

  class Backoffice {
    /** How many attempts the queue gives a job. */
    const budget: nat
    var rows: map<string, Row>
    var queue: seq<Job>
    var dying: multiset<string>
    var answered: set<string>
    var handled: set<string>

    /** The state of one event, with no delivery, no attempt and no hook in progress. */
    ghost function State(id: string): Slot
      reads this
    {
      Slot(if id in rows then Some(rows[id]) else None, 0, Counts(queue, id), None, dying[id], [], id in answered,
           id in handled)
    }

    /** `save`: writes the changed fields, or throws and writes nothing. */
    method Save(record: Record, stored: bool)
      requires record.id in rows
      modifies this`rows, record`loaded
      ensures rows == if !stored then old(rows)
                      else old(rows)[record.id := Write(old(rows[record.id]), old(record.loaded), record.Current())]
      ensures record.loaded == if stored then record.Current() else old(record.loaded)
    {
      if stored {
        var row := rows[record.id];
        rows := rows[record.id := Row(if record.status != record.loaded.status then record.status else row.status,
                                      if record.attempts != record.loaded.attempts then record.attempts
                                      else row.attempts,
                                      if record.lastError != record.loaded.lastError then record.lastError
                                      else row.lastError)];
        record.loaded := record.Current();
      }
    }

    method Push(job: Job)
      modifies this`queue
      ensures queue == old(queue) + [job]
      ensures State(job.id) == old(State(job.id)).(queued := old(State(job.id).queued) + [job.made])
      ensures forall o :: o != job.id ==> State(o) == old(State(o))
    {
      forall o {
        CountsPush(queue, job, o);
      }
      queue := queue + [job];
    }

    /**
     `handle`: insert the row or find it, then dispatch when it is new or untouched. `accepts`: the queue takes the job.
     */
    method Handle(id: string, accepts: bool) returns (answer: Answer)
      modifies this`rows, this`queue, this`answered
      ensures var s := old(State(id));
              var r := Ledger.Received(s);
              var dispatches := r.deliveries == 1;
              && State(id) == (if dispatches then Next(r, if accepts then Enqueue else Drop, budget) else r)
              && answer == (if dispatches && !accepts then Unavailable else Received)
      ensures forall o :: o != id ==> State(o) == old(State(o))
    {
      var duplicate := id in rows;
      if !duplicate {
        rows := rows[id := Row(Pending, 0, None)];
      }
      var shouldDispatch := !duplicate;
      if duplicate {
        var existing := rows[id];
        if existing.status == Pending && existing.attempts == 0 {
          shouldDispatch := true;
        }
      }
      if shouldDispatch {
        if !accepts {
          return Unavailable;
        }
        Push(Job(id, 0));
        assert State(id).queued == old(State(id)).queued + [0];
      }
      label enqueued:
      answered := answered + {id};
      assert forall o :: State(o).queued == old@enqueued(State(o)).queued;
      return Received;
    }

    /** A worker takes the job at `k`. */
    method Take(k: nat) returns (job: Job)
      requires k < |queue|
      modifies this`queue
      ensures job == old(queue[k])
      ensures var s, i := old(State(queue[k].id)), Spot(old(queue), k);
              i < |s.queued| && s.queued[i] == job.made
              && State(job.id) == s.(queued := s.queued[..i] + s.queued[i + 1..])
      ensures forall o :: o != job.id ==> State(o) == old(State(o))
    {
      job := queue[k];
      CountsTake(queue, k);
      forall o | o != job.id {
        CountsTakeOther(queue, k, o);
      }
      queue := queue[..k] + queue[k + 1..];
    }

    /** The first half of `execute`: find the row, count the attempt. Null when there is nothing more to do. */
    method Begin(k: nat, saved: bool) returns (record: Record?, job: Job)
      requires k < |queue|
      modifies this`rows, this`queue, this`dying
      ensures job == old(queue[k]) && Enabled(old(State(queue[k].id)), Start(Spot(old(queue), k), saved))
      ensures var started := Started(old(State(queue[k].id)), Spot(old(queue), k), saved, budget);
              && State(job.id) == started.(running := None)
              && (record == null ==> started.running == None)
              && (record != null ==> fresh(record) && record.id == job.id && job.id in rows
                                     && record.Current() == record.loaded
                                     && started.running == Some(Run(record.loaded, job.made)))
      ensures forall o :: o != job.id ==> State(o) == old(State(o))
    {
      job := Take(k);
      record := null;
      if job.id !in rows || rows[job.id].status == Completed {
        return;
      }
      record := Count(job.id, saved);
      if record == null {
        Retry(job);
      }
    }

    /** `attempts` goes up by one, if the save is stored. */
    method Count(id: string, saved: bool) returns (record: Record?)
      requires id in rows
      modifies this`rows
      ensures rows == if saved then old(rows)[id := Begun(old(rows[id]))] else old(rows)
      ensures record == null <==> !saved
      ensures record != null ==> fresh(record) && record.id == id && record.Current() == record.loaded == rows[id]
    {
      var row := new Record(id, rows[id]);
      row.attempts := row.attempts + 1;
      Save(row, saved);
      record := if saved then row else null;
    }

    /** The queue's answer to an attempt that threw. */
    method Retry(job: Job)
      modifies this`queue, this`dying
      ensures State(job.id) == Retried(old(State(job.id)), job.made, budget)
      ensures forall o :: o != job.id ==> State(o) == old(State(o))
    {
      if job.made + 1 < budget {
        Push(Job(job.id, job.made + 1));
      } else {
        dying := dying[job.id := dying[job.id] + 1];
      }
    }

    /** The saves of an attempt that ran; `threw` when the queue is to see an error. */
    method Settle(record: Record, e: Ending) returns (threw: bool)
      requires record.id in rows && record.Current() == record.loaded
      modifies this`rows, this`handled, record
      ensures rows == old(rows)[record.id := Ended(old(rows[record.id]), old(record.loaded), e)]
      ensures handled == if e.Handled? then old(handled) + {record.id} else old(handled)
      ensures threw == !Settles(e)
    {
      match e {
        case Handled(save) =>
          handled := handled + {record.id};
          record.status := Completed;
          record.lastError := None;
          Save(record, save.First?);
          if save.First? {
            return false;
          }
          record.lastError := Some(Unhandled);
          Save(record, save.Second?);
          return true;
        case Errored(f, saved) =>
          record.lastError := Some(f);
          if IsFatal(f) {
            record.status := Failed;
          }
          Save(record, saved);
          return !(IsFatal(f) && saved);
      }
    }

    /** The second half of `execute`; other steps may have changed the row since the first. */
    method Conclude(record: Record, made: nat, e: Ending)
      requires record.id in rows && record.Current() == record.loaded
      modifies this`rows, this`queue, this`dying, this`handled, record
      ensures var s := old(State(record.id)).(running := Some(Run(old(record.loaded), made)));
              State(record.id) == Finished(s, e, budget)
      ensures forall o :: o != record.id ==> State(o) == old(State(o))
    {
      var threw := Settle(record, e);
      assert forall o :: o != record.id ==> State(o) == old(State(o));
      if threw {
        Retry(Job(record.id, made));
      }
    }

    /** The find of `failed()`, for a job that has used up its attempts. Null when there is nothing to bury. */
    method FindBuried(id: string) returns (record: Record?)
      requires id in dying
      modifies this`dying
      ensures var found := HookFound(old(State(id)));
              && State(id) == found.(hooks := [])
              && found.hooks == (if record == null then [] else [record.loaded])
      ensures record != null ==> fresh(record) && record.id == id && id in rows && record.Current() == record.loaded
      ensures forall o :: o != id ==> State(o) == old(State(o))
    {
      dying := dying[id := dying[id] - 1];
      record := null;
      if id in rows && rows[id].status != Completed {
        record := new Record(id, rows[id]);
      }
    }

    /** Its save; other steps may have changed the row since the find. */
    method Bury(record: Record, f: Failure, stored: bool)
      requires record.id in rows && record.Current() == record.loaded
      modifies this`rows, record
      ensures State(record.id) ==
              HookSaved(old(State(record.id)).(hooks := [old(record.loaded)]), 0, f, stored)
      ensures forall o :: o != record.id ==> State(o) == old(State(o))
    {
      record.status := Failed;
      record.lastError := Some(f);
      Save(record, stored);
    }

    /** One turn of the replay loop, on a row as the command had read it; a save that throws ends the command. */
    method ReplayRow(id: string, seen: Row, saved: bool, accepts: bool) returns (threw: bool)
      requires id in rows
      modifies this`rows, this`queue
      ensures threw == !saved
      ensures State(id) == if saved then Replayed(old(State(id)), seen, accepts) else old(State(id))
      ensures forall o :: o != id ==> State(o) == old(State(o))
    {
      var record := new Record(id, seen);
      record.status := Pending;
      record.lastError := None;
      Save(record, saved);
      if saved && accepts {
        Push(Job(id, 0));
      }
      return !saved;
    }

    /**
     The loop over the rows that the command has read, in the order in which the database gave them. A reset that cannot
     be saved throws, and the command ends there; a refused dispatch is counted and passed over.
     */
    method ReplayAll(order: seq<string>, targets: map<string, Row>, unsaved: set<string>, refused: set<string>)
      returns (done: nat, dispatched: set<string>)
      requires (forall id :: id in order ==> id in targets) && targets.Keys <= rows.Keys
      requires forall i, j :: 0 <= i < j < |order| ==> order[i] != order[j]
      modifies this`rows, this`queue
      ensures done <= |order| && (forall k :: 0 <= k < done ==> order[k] !in unsaved)
      ensures done < |order| ==> order[done] in unsaved
      ensures dispatched == (set id | id in order[..done] && id !in refused)
      ensures forall id :: id in order[..done] ==> State(id) == Replayed(old(State(id)), targets[id], id !in refused)
      ensures forall id :: id !in order[..done] ==> State(id) == old(State(id))
    {
      done, dispatched := 0, {};
      while done < |order|
        invariant done <= |order| && (forall k :: 0 <= k < done ==> order[k] !in unsaved)
        invariant targets.Keys <= rows.Keys
        invariant dispatched == (set id | id in order[..done] && id !in refused)
        invariant forall id :: id in order[..done] ==>
                  State(id) == Replayed(old(State(id)), targets[id], id !in refused)
        invariant forall id :: id !in order[..done] ==> State(id) == old(State(id))
      {
        var id := order[done];
        assert order[..done + 1] == order[..done] + [id];
        var threw := ReplayRow(id, targets[id], id !in unsaved, id !in refused);
        if threw {
          return;
        }
        if id !in refused {
          dispatched := dispatched + {id};
        }
        done := done + 1;
      }
    }

    /**
     `run` of `tenant:billing:replay`. `failed` is how the database lists the failed rows; `refused` are the events
     whose dispatch the queue refuses, `unsaved` those whose reset cannot be saved.
     */
    method Replay(eventId: string, allFailed: bool, failed: seq<string>, unsaved: set<string>, refused: set<string>)
      returns (targets: seq<string>, done: nat, dispatched: set<string>)
      requires forall i, j :: 0 <= i < j < |failed| ==> failed[i] != failed[j]
      requires forall id :: id in failed <==> id in rows && rows[id].status == Failed
      modifies this`rows, this`queue
      ensures eventId != "" ==> targets == if eventId in old(rows) then [eventId] else []
      ensures eventId == "" ==> targets == if allFailed then failed else []
      ensures done <= |targets| && (forall k :: 0 <= k < done ==> targets[k] !in unsaved)
      ensures done < |targets| ==> targets[done] in unsaved
      ensures dispatched == (set id | id in targets[..done] && id !in refused)
      ensures forall id :: id in targets[..done] ==>
                id in old(rows) && State(id) == Replayed(old(State(id)), old(rows)[id], id !in refused)
      ensures forall id :: id !in targets[..done] ==> State(id) == old(State(id))
      ensures eventId == "" && allFailed && unsaved == {} ==>
                forall id :: id in old(rows) ==>
                  && id in rows
                  && (old(rows)[id].status == Failed ==>
                        && rows[id] == Row(Pending, old(rows)[id].attempts, None)
                        && State(id).queued == old(State(id)).queued + if id in refused then [] else [0])
                  && (old(rows)[id].status != Failed ==> State(id) == old(State(id)))
    {
      targets := [];
      if eventId != "" {
        if eventId in rows {
          targets := [eventId];
        }
      } else if allFailed {
        targets := failed;
      }
      ghost var before := rows;
      done, dispatched := ReplayAll(targets, rows, unsaved, refused);
      forall id | id in before && id in targets[..done] {
        AsRead(old(State(id)), before[id], id !in refused);
      }
      assert unsaved == {} ==> targets[..done] == targets;
    }
  }
}
