/** Scoped enter and leave: `src/services/bootstrapper_registry.ts` under the nested scopes of `src/tenancy.ts`. */
module ScopeBracket {
  import opened Json

  /** A registered bootstrapper; `leave` is optional. */
  datatype Bootstrapper = Bootstrapper(name: string, leaves: bool)

  datatype Error = EnterError(name: string) | BodyError(message: string) | LeaveError(name: string)

  /**
   One `tenancy.run`: which enters and leaves fail, by position in the registry, and what the function does: nested
   runs, whose errors it may catch, and then a return or a throw.
   */
  datatype Scope = Scope(tenant: string, enterFails: set<nat>, leaveFails: set<nat>, body: Body)

  datatype Body = Return | Throw(message: string) | Nest(inner: Scope, caught: bool, rest: Body)

  datatype Mark = Mark(tenant: string, name: string)

  datatype Event =
    | Entered(mark: Mark, owes: bool)
    | EnterFailed(mark: Mark)
    | Left(mark: Mark, failed: bool)

  /** The enters from position `i` on, and how many completed. */
  function Entering(boots: seq<Bootstrapper>, s: Scope, i: nat): (r: (seq<Event>, nat))
    requires i <= |boots|
    ensures i <= r.1 <= |boots|
    decreases |boots| - i
  {
    if i == |boots| then ([], i)
    else if i in s.enterFails then ([EnterFailed(Mark(s.tenant, boots[i].name))], i)
    else
      var (events, n) := Entering(boots, s, i + 1);
      ([Entered(Mark(s.tenant, boots[i].name), boots[i].leaves)] + events, n)
  }

  /** The leaves of the first `n`, last first; a failing one is logged and the rest go on. */
  function Leaving(boots: seq<Bootstrapper>, s: Scope, n: nat): seq<Event>
    requires n <= |boots|
  {
    if n == 0 then []
    else (if boots[n - 1].leaves then [Left(Mark(s.tenant, boots[n - 1].name), n - 1 in s.leaveFails)] else [])
         + Leaving(boots, s, n - 1)
  }

  /** A call attempts the leaves that there are, each failing just where the scope says. */
  lemma {:induction false} LeavingAttempts(boots: seq<Bootstrapper>, s: Scope, n: nat, e: Event)
    requires n <= |boots|
    ensures e in Leaving(boots, s, n) <==>
            exists k :: 0 <= k < n && boots[k].leaves && e == Left(Mark(s.tenant, boots[k].name), k in s.leaveFails)
  {
    if n > 0 {
      LeavingAttempts(boots, s, n - 1, e);
      var last := Left(Mark(s.tenant, boots[n - 1].name), n - 1 in s.leaveFails);
      assert Leaving(boots, s, n) == (if boots[n - 1].leaves then [last] else []) + Leaving(boots, s, n - 1);
    }
  }

  /** `tenancy.run`: its trace and the error that escapes. */
  function RunScope(boots: seq<Bootstrapper>, s: Scope): (seq<Event>, Option<Error>)
    decreases s
  {
    var (entering, n) := Entering(boots, s, 0);
    if n < |boots| then (entering + Leaving(boots, s, n), Some(EnterError(boots[n].name)))
    else
      var (inside, error) := RunBody(boots, s.body);
      (entering + inside + Leaving(boots, s, n), error)
  }

  function RunBody(boots: seq<Bootstrapper>, b: Body): (seq<Event>, Option<Error>)
    decreases b
  {
    match b
    case Return => ([], None)
    case Throw(message) => ([], Some(BodyError(message)))
    case Nest(inner, caught, rest) =>
      var (events, error) := RunScope(boots, inner);
      if error.Some? && !caught then (events, error)
      else
        var (more, last) := RunBody(boots, rest);
        (events + more, last)
  }

  /**
   Reading a trace against the stack of enters that still owe a leave: a leave must be for the top one.
   None when the trace does not fit.
   */
  function Unwind(trace: seq<Event>, stack: seq<Mark>): Option<seq<Mark>>
    decreases |trace|
  {
    if trace == [] then Some(stack)
    else match trace[0]
      case Entered(mark, owes) => Unwind(trace[1..], if owes then stack + [mark] else stack)
      case EnterFailed(_) => Unwind(trace[1..], stack)
      case Left(mark, _) =>
        if stack != [] && stack[|stack| - 1] == mark then Unwind(trace[1..], stack[..|stack| - 1]) else None
  }

  lemma {:induction false} UnwindConcat(a: seq<Event>, b: seq<Event>, stack: seq<Mark>)
    requires Unwind(a, stack).Some?
    ensures Unwind(a + b, stack) == Unwind(b, Unwind(a, stack).value)
    decreases |a|
  {
    if a == [] {
      assert a + b == b;
    } else {
      assert (a + b)[1..] == a[1..] + b;
      match a[0]
      case Entered(mark, owes) => UnwindConcat(a[1..], b, if owes then stack + [mark] else stack);
      case EnterFailed(_) => UnwindConcat(a[1..], b, stack);
      case Left(mark, _) => UnwindConcat(a[1..], b, stack[..|stack| - 1]);
    }
  }

  /** The leaves that the first `n` bootstrappers owe. */
  function Owed(boots: seq<Bootstrapper>, tenant: string, n: nat): seq<Mark>
    requires n <= |boots|
  {
    if n == 0 then []
    else Owed(boots, tenant, n - 1) + if boots[n - 1].leaves then [Mark(tenant, boots[n - 1].name)] else []
  }

  lemma {:induction false} EnteringOwes(boots: seq<Bootstrapper>, s: Scope, i: nat, stack: seq<Mark>)
    requires i <= |boots|
    ensures var (events, n) := Entering(boots, s, i);
            Unwind(events, stack + Owed(boots, s.tenant, i)) == Some(stack + Owed(boots, s.tenant, n))
    decreases |boots| - i
  {
    var now := stack + Owed(boots, s.tenant, i);
    if i < |boots| {
      var mark := Mark(s.tenant, boots[i].name);
      if i in s.enterFails {
        assert [EnterFailed(mark)][1..] == [];
      } else {
        EnteringOwes(boots, s, i + 1, stack);
        var events := Entering(boots, s, i + 1).0;
        assert ([Entered(mark, boots[i].leaves)] + events)[1..] == events;
        assert stack + Owed(boots, s.tenant, i + 1) == if boots[i].leaves then now + [mark] else now;
      }
    }
  }

  lemma {:induction false} LeavingPays(boots: seq<Bootstrapper>, s: Scope, n: nat, stack: seq<Mark>)
    requires n <= |boots|
    ensures Unwind(Leaving(boots, s, n), stack + Owed(boots, s.tenant, n)) == Some(stack)
  {
    if n == 0 {
      assert stack + Owed(boots, s.tenant, 0) == stack;
    } else {
      var now := stack + Owed(boots, s.tenant, n);
      var left := stack + Owed(boots, s.tenant, n - 1);
      LeavingPays(boots, s, n - 1, stack);
      if boots[n - 1].leaves {
        var mark := Mark(s.tenant, boots[n - 1].name);
        assert now == left + [mark];
        assert Leaving(boots, s, n)[1..] == Leaving(boots, s, n - 1);
        assert now[..|now| - 1] == left;
      } else {
        assert now == left;
        assert Leaving(boots, s, n) == Leaving(boots, s, n - 1);
      }
    }
  }

  /** Enters, something balanced, and the matching leaves. */
  lemma Bracket(boots: seq<Bootstrapper>, s: Scope, inside: seq<Event>, stack: seq<Mark>)
    requires var now := stack + Owed(boots, s.tenant, Entering(boots, s, 0).1); Unwind(inside, now) == Some(now)
    ensures var (entering, n) := Entering(boots, s, 0);
            Unwind(entering + inside + Leaving(boots, s, n), stack) == Some(stack)
  {
    var (entering, n) := Entering(boots, s, 0);
    EnteringOwes(boots, s, 0, stack);
    assert stack + Owed(boots, s.tenant, 0) == stack;
    UnwindConcat(entering, inside, stack);
    UnwindConcat(entering + inside, Leaving(boots, s, n), stack);
    LeavingPays(boots, s, n, stack);
  }

  /** Every nesting of scopes, with any enters, bodies and leaves failing, leaves a balanced last-in-first-out trace. */
  lemma {:induction false} ScopesAreBalanced(boots: seq<Bootstrapper>, s: Scope, stack: seq<Mark>)
    ensures Unwind(RunScope(boots, s).0, stack) == Some(stack)
    decreases s
  {
    var (entering, n) := Entering(boots, s, 0);
    var now := stack + Owed(boots, s.tenant, n);
    if n < |boots| {
      Bracket(boots, s, [], stack);
      assert entering + [] == entering;
    } else {
      BodyIsBalanced(boots, s.body, now);
      Bracket(boots, s, RunBody(boots, s.body).0, stack);
    }
  }

  lemma {:induction false} BodyIsBalanced(boots: seq<Bootstrapper>, b: Body, stack: seq<Mark>)
    ensures Unwind(RunBody(boots, b).0, stack) == Some(stack)
    decreases b
  {
    if b.Nest? {
      var (events, error) := RunScope(boots, b.inner);
      ScopesAreBalanced(boots, b.inner, stack);
      if error.None? || b.caught {
        BodyIsBalanced(boots, b.rest, stack);
        UnwindConcat(events, RunBody(boots, b.rest).0, stack);
      }
    }
  }

  /** The enters that owe a leave, and the leave attempts, of one bootstrapper for one tenant. */
  function Enters(trace: seq<Event>, m: Mark): nat
    decreases |trace|
  {
    if trace == [] then 0 else (if trace[0] == Entered(m, true) then 1 else 0) + Enters(trace[1..], m)
  }

  function Attempts(trace: seq<Event>, m: Mark): nat
    decreases |trace|
  {
    if trace == [] then 0
    else (if trace[0].Left? && trace[0].mark == m then 1 else 0) + Attempts(trace[1..], m)
  }

  lemma {:induction false} UnwindCounts(trace: seq<Event>, stack: seq<Mark>, m: Mark)
    requires Unwind(trace, stack).Some?
    ensures multiset(stack)[m] + Enters(trace, m) == multiset(Unwind(trace, stack).value)[m] + Attempts(trace, m)
    decreases |trace|
  {
    if trace != [] {
      match trace[0]
      case Entered(mark, owes) => UnwindCounts(trace[1..], if owes then stack + [mark] else stack, m);
      case EnterFailed(_) => UnwindCounts(trace[1..], stack, m);
      case Left(mark, _) =>
        assert stack == stack[..|stack| - 1] + [mark];
        UnwindCounts(trace[1..], stack[..|stack| - 1], m);
    }
  }

  /** Each successful enter of a bootstrapper that can leave has its one leave attempt. */
  lemma OneLeavePerEnter(boots: seq<Bootstrapper>, s: Scope, m: Mark)
    ensures Enters(RunScope(boots, s).0, m) == Attempts(RunScope(boots, s).0, m)
  {
    ScopesAreBalanced(boots, s, []);
    UnwindCounts(RunScope(boots, s).0, [], m);
  }

  /** The error that the caller should see: the first failing enter's, or else what the function throws. */
  function Expected(boots: seq<Bootstrapper>, s: Scope): Option<Error>
    decreases s
  {
    if exists i :: 0 <= i < |boots| && i in s.enterFails then
      Some(EnterError(boots[FirstFailing(s.enterFails, |boots|)].name))
    else ExpectedOf(boots, s.body)
  }

  function FirstFailing(fails: set<nat>, n: nat): (k: nat)
    requires exists i :: 0 <= i < n && i in fails
    ensures k < n && k in fails && forall i :: 0 <= i < k ==> i !in fails
  {
    if exists i :: 0 <= i < n - 1 && i in fails then FirstFailing(fails, n - 1) else n - 1
  }

  function ExpectedOf(boots: seq<Bootstrapper>, b: Body): Option<Error>
    decreases b
  {
    match b
    case Return => None
    case Throw(message) => Some(BodyError(message))
    case Nest(inner, caught, rest) =>
      if Expected(boots, inner).Some? && !caught then Expected(boots, inner) else ExpectedOf(boots, rest)
  }

  lemma {:induction false} EnteringStops(boots: seq<Bootstrapper>, s: Scope, i: nat)
    requires i <= |boots| && forall k :: 0 <= k < i ==> k !in s.enterFails
    ensures var n := Entering(boots, s, i).1;
            (n < |boots| ==> n in s.enterFails) && (forall k :: 0 <= k < n ==> k !in s.enterFails)
    decreases |boots| - i
  {
    if i < |boots| && i !in s.enterFails {
      EnteringStops(boots, s, i + 1);
    }
  }

  /** No leave, failing or not, changes the error that escapes; a leave's own error never does. */
  lemma {:induction false} LeavesNeverMask(boots: seq<Bootstrapper>, s: Scope)
    ensures RunScope(boots, s).1 == Expected(boots, s)
    ensures RunScope(boots, s).1.Some? ==> !RunScope(boots, s).1.value.LeaveError?
    decreases s
  {
    EnteringStops(boots, s, 0);
    BodyErrors(boots, s.body);
  }

  lemma {:induction false} BodyErrors(boots: seq<Bootstrapper>, b: Body)
    ensures RunBody(boots, b).1 == ExpectedOf(boots, b)
    ensures RunBody(boots, b).1.Some? ==> !RunBody(boots, b).1.value.LeaveError?
    decreases b
  {
    if b.Nest? {
      LeavesNeverMask(boots, b.inner);
      BodyErrors(boots, b.rest);
    }
  }

  predicate Registered(items: map<string, Bootstrapper>, order: seq<string>) {
    && (forall j, k :: 0 <= j < k < |order| ==> order[j] != order[k])
    && (forall n :: n in items ==> n in order)
    && (forall k :: 0 <= k < |order| ==> order[k] in items && items[order[k]].name == order[k])
  }

  function Listed(items: map<string, Bootstrapper>, order: seq<string>): (r: seq<Bootstrapper>)
    requires Registered(items, order)
    ensures |r| == |order| && forall k :: 0 <= k < |order| ==> r[k] == items[order[k]]
  {
    seq(|order|, k requires 0 <= k < |order| && order[k] in items => items[order[k]])
  }

  lemma AddRegistered(items: map<string, Bootstrapper>, order: seq<string>, b: Bootstrapper)
    requires Registered(items, order) && b.name !in items
    ensures Registered(items[b.name := b], order + [b.name])
    ensures Listed(items[b.name := b], order + [b.name]) == Listed(items, order) + [b]
  {
  }

  lemma DropRegistered(items: map<string, Bootstrapper>, order: seq<string>, idx: nat)
    requires Registered(items, order) && idx < |order|
    ensures Registered(items - {order[idx]}, order[..idx] + order[idx + 1..])
  {
    var rest := order[..idx] + order[idx + 1..];
    assert forall k :: 0 <= k < |rest| ==> rest[k] == order[if k < idx then k else k + 1];
    forall n | n in items && n != order[idx] ensures n in rest {
      var j :| 0 <= j < |order| && order[j] == n;
      assert rest[if j < idx then j else j - 1] == n;
    }
  }

  lemma DropListed(items: map<string, Bootstrapper>, order: seq<string>, idx: nat)
    requires Registered(items, order) && idx < |order|
    requires Registered(items - {order[idx]}, order[..idx] + order[idx + 1..])
    ensures Listed(items - {order[idx]}, order[..idx] + order[idx + 1..]) ==
            Listed(items, order)[..idx] + Listed(items, order)[idx + 1..]
  {
    var rest := order[..idx] + order[idx + 1..];
    assert forall k :: 0 <= k < |rest| ==> rest[k] == order[if k < idx then k else k + 1];
  }

  lemma Assoc(a: seq<Event>, b: seq<Event>, c: seq<Event>, d: seq<Event>)
    ensures a + b + c + d == a + (b + c + d) && a + b + c == a + (b + c)
  {
  }

  /** What a trace should have put into the log: the errors of its failing leaves, in order, and nothing else. */
  function LogOf(trace: seq<Event>): seq<Error>
    decreases |trace|
  {
    if trace == [] then []
    else
      var last := trace[|trace| - 1];
      LogOf(trace[..|trace| - 1]) + if last.Left? && last.failed then [LeaveError(last.mark.name)] else []
  }

  lemma LogPush(trace: seq<Event>, e: Event)
    ensures LogOf(trace + [e]) == LogOf(trace) + if e.Left? && e.failed then [LeaveError(e.mark.name)] else []
  {
    assert (trace + [e])[..|trace|] == trace;
  }

  class BootstrapperRegistry {
    var items: map<string, Bootstrapper>
    var order: seq<string>
    var trace: seq<Event>
    /** Errors of leaves, which go to the log and nowhere else. */
    var logged: seq<Error>

    predicate Valid()
      reads this`items, this`order
    {
      Registered(items, order)
    }

    /** The bootstrappers in registration order. */
    function List(): seq<Bootstrapper>
      requires Valid()
      reads this`items, this`order
    {
      Listed(items, order)
    }

    /** Every failing leave has been logged. */
    predicate Logged()
      reads this`trace, this`logged
    {
      logged == LogOf(trace)
    }

    constructor ()
      ensures Valid() && Logged() && List() == [] && trace == []
    {
      items, order, trace, logged := map[], [], [], [];
    }

    /** `register`; false when the name is taken and the call throws. */
    method Register(b: Bootstrapper) returns (ok: bool)
      requires Valid()
      modifies this`items, this`order
      ensures Valid()
      ensures ok <==> b.name !in old(items)
      ensures List() == if ok then old(List()) + [b] else old(List())
    {
      if b.name in items {
        return false;
      }
      AddRegistered(items, order, b);
      items := items[b.name := b];
      order := order + [b.name];
      return true;
    }

    method IndexOf(name: string) returns (idx: nat)
      requires name in order
      ensures idx < |order| && order[idx] == name
    {
      idx := 0;
      while order[idx] != name
        invariant idx < |order| && name in order[idx..]
        decreases |order| - idx
      {
        idx := idx + 1;
      }
    }

    /** `unregister`: takes the bootstrapper out and keeps the order of the others. */
    method Unregister(name: string) returns (found: bool, idx: nat)
      requires Valid()
      modifies this`items, this`order
      ensures Valid()
      ensures found <==> name in old(items)
      ensures !found ==> List() == old(List())
      ensures found ==> idx < |old(List())| && old(List())[idx].name == name
                        && List() == old(List())[..idx] + old(List())[idx + 1..]
    {
      found, idx := name in items, 0;
      if found {
        idx := IndexOf(name);
        DropRegistered(items, order, idx);
        DropListed(items, order, idx);
        items := items - {name};
        order := order[..idx] + order[idx + 1..];
      }
    }

    /** The enters of `runScoped`; an error if one fails. */
    method EnterAll(s: Scope) returns (completed: nat, error: Option<Error>)
      requires Valid() && Logged()
      modifies this`trace
      ensures Logged()
      ensures var (events, n) := Entering(List(), s, 0);
              && trace == old(trace) + events && completed == n
              && error == if n < |List()| then Some(EnterError(List()[n].name)) else None
    {
      completed, error := 0, None;
      ghost var boots := List();
      ghost var all := Entering(boots, s, 0);
      while completed < |order|
        invariant completed <= |order| && Logged()
        invariant trace + Entering(boots, s, completed).0 == old(trace) + all.0
        invariant Entering(boots, s, completed).1 == all.1
      {
        var b := items[order[completed]];
        assert b == boots[completed];
        if completed in s.enterFails {
          LogPush(trace, EnterFailed(Mark(s.tenant, b.name)));
          trace := trace + [EnterFailed(Mark(s.tenant, b.name))];
          return completed, Some(EnterError(b.name));
        }
        ghost var more := Entering(boots, s, completed + 1).0;
        assert trace + ([Entered(Mark(s.tenant, b.name), b.leaves)] + more) ==
               trace + [Entered(Mark(s.tenant, b.name), b.leaves)] + more;
        LogPush(trace, Entered(Mark(s.tenant, b.name), b.leaves));
        trace := trace + [Entered(Mark(s.tenant, b.name), b.leaves)];
        completed := completed + 1;
      }
    }

    /** `runScoped` within `tenancy.run`; the result is the error that it throws. */
    method RunScoped(s: Scope) returns (error: Option<Error>)
      requires Valid() && Logged()
      modifies this`trace, this`logged
      ensures Logged()
      ensures trace == old(trace) + RunScope(List(), s).0
      ensures error == RunScope(List(), s).1
      decreases s
    {
      ghost var boots := List();
      ghost var (entering, n) := Entering(boots, s, 0);
      ghost var inside: seq<Event> := [];
      var completed;
      completed, error := EnterAll(s);
      if error.None? {
        inside := RunBody(boots, s.body).0;
        error := RunFunction(s.body);
      }
      RunLeaveUpTo(s, completed);
      Assoc(old(trace), entering, inside, Leaving(boots, s, n));
      assert inside == [] ==> entering + inside == entering;
    }

    /** The function that runs inside the scope. */
    method RunFunction(b: Body) returns (error: Option<Error>)
      requires Valid() && Logged()
      modifies this`trace, this`logged
      ensures Logged()
      ensures trace == old(trace) + RunBody(List(), b).0
      ensures error == RunBody(List(), b).1
      decreases b
    {
      match b
      case Return => return None;
      case Throw(message) => return Some(BodyError(message));
      case Nest(inner, caught, rest) =>
        ghost var boots := List();
        error := RunScoped(inner);
        if error.Some? && !caught {
          return;
        }
        error := RunFunction(rest);
        Assoc(old(trace), RunScope(boots, inner).0, RunBody(boots, rest).0, []);
    }

    method RunLeaveUpTo(s: Scope, count: nat)
      requires Valid() && Logged() && count <= |order|
      modifies this`trace, this`logged
      ensures Logged()
      ensures trace == old(trace) + Leaving(List(), s, count)
    {
      var i := count;
      ghost var boots := List();
      ghost var all := Leaving(boots, s, count);
      while i > 0
        invariant 0 <= i <= count && Logged()
        invariant trace + Leaving(boots, s, i) == old(trace) + all
      {
        i := i - 1;
        var b := items[order[i]];
        assert b == boots[i];
        if b.leaves {
          ghost var rest := Leaving(boots, s, i);
          assert trace + ([Left(Mark(s.tenant, b.name), i in s.leaveFails)] + rest) ==
                 trace + [Left(Mark(s.tenant, b.name), i in s.leaveFails)] + rest;
          LogPush(trace, Left(Mark(s.tenant, b.name), i in s.leaveFails));
          trace := trace + [Left(Mark(s.tenant, b.name), i in s.leaveFails)];
          if i in s.leaveFails {
            logged := logged + [LeaveError(b.name)];
          }
        }
      }
    }
  }
}
