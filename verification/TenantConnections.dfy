/** The bounded set of open tenant connections of `src/services/isolation/schema_pg_driver.ts`. */
module TenantConnections {

  const MAX_TENANT_CONNECTIONS := 50

  predicate Distinct<T(==,!new)>(s: seq<T>) {
    forall j, k :: 0 <= j < k < |s| ==> s[j] != s[k]
  }

  /** The list without `x`; a recency list holds each name once. */
  function Remove<T(==,!new)>(s: seq<T>, x: T): (r: seq<T>)
    decreases |s|
  {
    if s == [] then [] else (if s[0] == x then [] else [s[0]]) + Remove(s[1..], x)
  }

  lemma {:induction false} Removed<T(!new)>(s: seq<T>, x: T, y: T)
    ensures y in Remove(s, x) <==> y in s && y != x
    decreases |s|
  {
    if s != [] {
      Removed(s[1..], x, y);
      assert y in s <==> y == s[0] || y in s[1..];
    }
  }

  lemma {:induction false} RemoveDistinct<T(!new)>(s: seq<T>, x: T)
    requires Distinct(s)
    ensures Distinct(Remove(s, x)) && |Remove(s, x)| == |s| - (if x in s then 1 else 0)
    decreases |s|
  {
    if s != [] {
      RemoveDistinct(s[1..], x);
      assert x in s <==> x == s[0] || x in s[1..];
      Removed(s[1..], x, s[0]);
    }
  }

  /** `#touch`: to the most recent end. */
  function Touched<T(==,!new)>(lru: seq<T>, x: T): seq<T> {
    Remove(lru, x) + [x]
  }

  /** `#evictIfNeeded`. */
  function Evicted<T>(lru: seq<T>, cap: nat): seq<T> {
    if |lru| > cap then lru[1..] else lru
  }

  datatype Op<T> = Connect(name: T) | Disconnect(name: T)

  /** The driver as a sequence: connecting touches and, when the name is new, evicts. */
  function Step<T(==,!new)>(lru: seq<T>, op: Op<T>, cap: nat): seq<T> {
    match op
    case Connect(x) => if x in lru then Touched(lru, x) else Evicted(Touched(lru, x), cap)
    case Disconnect(x) => Remove(lru, x)
  }

  function Run<T(==,!new)>(lru: seq<T>, ops: seq<Op<T>>, cap: nat): seq<T>
    decreases |ops|
  {
    if ops == [] then lru else Run(Step(lru, ops[0], cap), ops[1..], cap)
  }

  function StepUnbounded<T(==,!new)>(all: seq<T>, op: Op<T>): seq<T> {
    if op.Connect? then Touched(all, op.name) else Remove(all, op.name)
  }

  /** The same without a bound: every name connected and not disconnected since, least recent first. */
  function Unbounded<T(==,!new)>(all: seq<T>, ops: seq<Op<T>>): seq<T>
    decreases |ops|
  {
    if ops == [] then all
    else Unbounded(StepUnbounded(all, ops[0]), ops[1..])
  }

  lemma {:induction false} RemoveConcat<T(!new)>(a: seq<T>, b: seq<T>, x: T)
    ensures Remove(a + b, x) == Remove(a, x) + Remove(b, x)
    decreases |a|
  {
    if a == [] {
      assert a + b == b;
    } else {
      RemoveConcat(a[1..], b, x);
      var s, front := a + b, if a[0] == x then [] else [a[0]];
      assert s[0] == a[0] && s[1..] == a[1..] + b;
      assert Remove(s, x) == front + (Remove(a[1..], x) + Remove(b, x));
    }
  }

  predicate Suffix<T(==,!new)>(s: seq<T>, all: seq<T>) {
    |s| <= |all| && all[|all| - |s|..] == s
  }

  lemma RemoveSuffix<T(!new)>(s: seq<T>, all: seq<T>, x: T)
    requires Suffix(s, all)
    ensures Suffix(Remove(s, x), Remove(all, x))
  {
    var front := all[..|all| - |s|];
    assert all == front + s;
    RemoveConcat(front, s, x);
  }

  /** What the bounded list keeps: a most recent part of everything, within the bound, each name once. */
  predicate Keeps<T(==,!new)>(lru: seq<T>, all: seq<T>, cap: nat) {
    Distinct(lru) && Distinct(all) && Suffix(lru, all) && |lru| <= cap
  }

  lemma TouchedKeeps<T(!new)>(lru: seq<T>, all: seq<T>, x: T)
    requires Distinct(lru) && Distinct(all) && Suffix(lru, all)
    ensures Distinct(Touched(lru, x)) && Distinct(Touched(all, x)) && Suffix(Touched(lru, x), Touched(all, x))
    ensures |Touched(lru, x)| == |lru| + if x in lru then 0 else 1
  {
    RemoveSuffix(lru, all, x);
    RemoveDistinct(lru, x);
    RemoveDistinct(all, x);
    Removed(lru, x, x);
    Removed(all, x, x);
  }

  lemma EvictedKeeps<T(!new)>(lru: seq<T>, all: seq<T>, cap: nat)
    requires Distinct(lru) && Suffix(lru, all) && |lru| <= cap + 1
    ensures Distinct(Evicted(lru, cap)) && Suffix(Evicted(lru, cap), all) && |Evicted(lru, cap)| <= cap
  {
  }

  lemma StepKeeps<T(!new)>(lru: seq<T>, all: seq<T>, op: Op<T>, cap: nat)
    requires Keeps(lru, all, cap)
    ensures Keeps(Step(lru, op, cap), StepUnbounded(all, op), cap)
  {
    if op.Connect? {
      TouchedKeeps(lru, all, op.name);
      EvictedKeeps(Touched(lru, op.name), Touched(all, op.name), cap);
    } else {
      RemoveSuffix(lru, all, op.name);
      RemoveDistinct(lru, op.name);
      RemoveDistinct(all, op.name);
    }
  }

  /** The name being connected is never the one evicted. */
  lemma ConnectedStays<T(!new)>(lru: seq<T>, x: T, cap: nat)
    requires cap > 0
    ensures x in Step(lru, Connect(x), cap)
  {
    var s := Touched(lru, x);
    assert s[|s| - 1] == x;
    if |s| > cap {
      assert s[1..][|s| - 2] == x;
    }
  }

  /**
   With any connects and disconnects the open connections are the most recent part of all names connected and not
   disconnected since, never more than the bound and each once.
   */
  lemma {:induction false} RunKeeps<T(!new)>(lru: seq<T>, all: seq<T>, ops: seq<Op<T>>, cap: nat)
    requires Keeps(lru, all, cap)
    ensures Keeps(Run(lru, ops, cap), Unbounded(all, ops), cap)
    decreases |ops|
  {
    if ops != [] {
      StepKeeps(lru, all, ops[0], cap);
      RunKeeps(Step(lru, ops[0], cap), StepUnbounded(all, ops[0]), ops[1..], cap);
    }
  }

  /** The names whose last mention stands where it stands in `names`. */
  function LastMentions<T(==,!new)>(names: seq<T>): seq<T>
    decreases |names|
  {
    if names == [] then []
    else (if names[0] in names[1..] then [] else [names[0]]) + LastMentions(names[1..])
  }

  function Connects<T(!new)>(names: seq<T>): (ops: seq<Op<T>>)
    ensures |ops| == |names| && forall k :: 0 <= k < |names| ==> ops[k] == Connect(names[k])
  {
    seq(|names|, k requires 0 <= k < |names| => Connect(names[k]))
  }

  lemma {:induction false} LastMentionsAppend<T(!new)>(names: seq<T>, x: T)
    ensures LastMentions(names + [x]) == Touched(LastMentions(names), x)
    decreases |names|
  {
    if names == [] {
      assert names + [x] == [x];
      assert [x][1..] == [];
    } else {
      LastMentionsAppend(names[1..], x);
      assert (names + [x])[1..] == names[1..] + [x];
      assert names[0] in names[1..] + [x] <==> names[0] in names[1..] || names[0] == x;
      RemoveFront(names[0], names[0] in names[1..], LastMentions(names[1..]), x);
    }
  }

  lemma RemoveFront<T(!new)>(first: T, again: bool, rest: seq<T>, x: T)
    ensures Touched((if again then [] else [first]) + rest, x) ==
            (if again || first == x then [] else [first]) + Touched(rest, x)
  {
    var front := if again then [] else [first];
    RemoveConcat(front, rest, x);
    if !again {
      assert [first][1..] == [];
    }
  }

  lemma {:induction false} UnboundedAppend<T(!new)>(all: seq<T>, ops: seq<Op<T>>, op: Op<T>)
    ensures Unbounded(all, ops + [op]) == StepUnbounded(Unbounded(all, ops), op)
    decreases |ops|
  {
    if ops == [] {
      assert ops + [op] == [op];
      assert [op][1..] == [];
    } else {
      UnboundedAppend(StepUnbounded(all, ops[0]), ops[1..], op);
      assert (ops + [op])[1..] == ops[1..] + [op];
    }
  }

  lemma {:induction false} UnboundedIsLastMentions<T(!new)>(names: seq<T>)
    ensures Unbounded([], Connects(names)) == LastMentions(names)
    decreases |names|
  {
    if names != [] {
      var n := |names| - 1;
      var init, last := names[..n], names[n];
      assert names == init + [last];
      assert Connects(names) == Connects(init) + [Connect(last)];
      UnboundedIsLastMentions(init);
      UnboundedAppend([], Connects(init), Connect(last));
      LastMentionsAppend(init, last);
    }
  }

  /** Connects alone never leave room unused. */
  lemma {:induction false} RunFills<T(!new)>(lru: seq<T>, all: seq<T>, names: seq<T>, cap: nat)
    requires Keeps(lru, all, cap) && (|lru| == cap || |lru| == |all|)
    ensures var r := |Run(lru, Connects(names), cap)|; r == cap || r == |Unbounded(all, Connects(names))|
    decreases |names|
  {
    if names != [] {
      var ops := Connects(names);
      assert ops[1..] == Connects(names[1..]);
      TouchedKeeps(lru, all, names[0]);
      StepKeeps(lru, all, ops[0], cap);
      if |lru| == |all| {
        assert lru == all;
      }
      RunFills(Step(lru, ops[0], cap), StepUnbounded(all, ops[0]), names[1..], cap);
    }
  }

  function Min(a: nat, b: nat): nat {
    if a < b then a else b
  }

  /**
   After any connects the open connections are, in recency order, exactly the last min(50, distinct) of the distinct
   names, each placed by its last mention.
   */
  lemma LruCharacterised<T(!new)>(names: seq<T>, cap: nat)
    ensures var all := LastMentions(names);
            Run([], Connects(names), cap) == all[|all| - Min(cap, |all|)..]
  {
    RunKeeps([], [], Connects(names), cap);
    RunFills([], [], names, cap);
    UnboundedIsLastMentions(names);
  }

  lemma {:induction false} LastMentionsAll<T(!new)>(names: seq<T>, y: T)
    ensures y in LastMentions(names) <==> y in names
    decreases |names|
  {
    if names != [] {
      LastMentionsAll(names[1..], y);
      assert y in names <==> y == names[0] || y in names[1..];
    }
  }

  /** /^[a-zA-Z0-9_-]{1,63}$/ */
  predicate SafeIdentifier(id: string) {
    1 <= |id| <= 63 &&
    forall k :: 0 <= k < |id| ==>
      'a' <= id[k] <= 'z' || 'A' <= id[k] <= 'Z' || '0' <= id[k] <= '9' || id[k] == '_' || id[k] == '-'
  }

  /** A safe identifier: one to 63 of these characters. */
  lemma SafeCharacters(id: string)
    ensures SafeIdentifier(id) <==>
            && id != "" && |id| < 64
            && forall k :: 0 <= k < |id| ==>
                 id[k] in {
                   'A', 'B', 'C', 'D', 'E', 'F', 'G', 'H', 'I', 'J', 'K', 'L', 'M', 'N', 'O', 'P', 'Q', 'R', 'S',
                   'T', 'U', 'V', 'W', 'X', 'Y', 'Z', 'a', 'b', 'c', 'd', 'e', 'f', 'g', 'h', 'i', 'j', 'k', 'l',
                   'm', 'n', 'o', 'p', 'q', 'r', 's', 't', 'u', 'v', 'w', 'x', 'y', 'z', '0', '1', '2', '3', '4',
                   '5', '6', '7', '8', '9', '_', '-'}
  {
  }

  datatype Answer = Connected | UnsafeId | NoTemplate

  class SchemaPgDriver {
    const prefix: string
    const template: string
    /** Connection names, least recently used first. */
    var lru: seq<string>
    /** The names registered in the connection manager. */
    var manager: set<string>

    constructor (prefix: string, template: string, manager: set<string>)
      requires forall id :: SafeIdentifier(id) ==> prefix + id !in manager
      ensures this.prefix == prefix && this.template == template && this.manager == manager && lru == []
      ensures Valid(manager)
    {
      this.prefix, this.template, this.manager, this.lru := prefix, template, manager, [];
    }

    /** The tracked names are exactly the registered tenant connections, each once, within the bound. */
    ghost predicate Valid(others: set<string>)
      reads this
    {
      && Distinct(lru) && |lru| <= MAX_TENANT_CONNECTIONS
      && (forall n :: n in manager <==> n in lru || n in others)
      && (forall n :: n in lru ==> n !in others)
      && (forall id :: SafeIdentifier(id) ==> prefix + id !in others)
    }

    method Touch(name: string)
      modifies this`lru
      ensures lru == Touched(old(lru), name)
    {
      lru := Remove(lru, name);
      lru := lru + [name];
    }

    /** The release takes effect with the eviction. */
    method EvictIfNeeded()
      modifies this`lru, this`manager
      ensures lru == Evicted(old(lru), MAX_TENANT_CONNECTIONS)
      ensures manager == if |old(lru)| > MAX_TENANT_CONNECTIONS then old(manager) - {old(lru[0])} else old(manager)
    {
      if |lru| <= MAX_TENANT_CONNECTIONS {
        return;
      }
      var oldest := lru[0];
      lru := lru[1..];
      manager := manager - {oldest};
    }

    /** `connect` when the manager has the name. */
    method Reuse(name: string, ghost others: set<string>)
      requires Valid(others) && name in lru
      modifies this`lru
      ensures Valid(others) && lru == Step(old(lru), Op.Connect(name), MAX_TENANT_CONNECTIONS)
      ensures |old(lru)| < 50 || name in old(lru) ==> forall other :: other in old(lru) ==> other in lru
    {
      TouchedKeeps(lru, lru, name);
      TouchedNames(lru, name);
      Touch(name);
    }

    /** `connect` when it has not. */
    method Open(name: string, ghost others: set<string>)
      requires Valid(others) && name !in manager
      modifies this`lru, this`manager
      ensures Valid(others) && lru == Step(old(lru), Op.Connect(name), MAX_TENANT_CONNECTIONS)
      ensures name in manager
      ensures |old(lru)| < 50 || name in old(lru) ==> forall other :: other in old(lru) ==> other in lru
    {
      TouchedKeeps(lru, lru, name);
      TouchedNames(lru, name);
      ConnectedStays(lru, name, MAX_TENANT_CONNECTIONS);
      manager := manager + {name};
      Touch(name);
      EvictedNames(lru, MAX_TENANT_CONNECTIONS);
      EvictIfNeeded();
    }

    /** `connect`: on success the sequence LRU's step, and the connection is open afterwards. */
    method Connect(id: string, ghost others: set<string>) returns (a: Answer)
      requires Valid(others)
      modifies this`lru, this`manager
      ensures Valid(others)
      ensures a.UnsafeId? <==> !SafeIdentifier(id)
      ensures a.NoTemplate? <==> SafeIdentifier(id) && prefix + id !in old(manager) && template !in old(manager)
      ensures a.Connected? ==> lru == Step(old(lru), Op.Connect(prefix + id), MAX_TENANT_CONNECTIONS)
      ensures a.Connected? ==> prefix + id in manager
      ensures |lru| <= 50
      ensures |old(lru)| < 50 || prefix + id in old(lru) ==> forall name :: name in old(lru) ==> name in lru
      ensures !a.Connected? ==> lru == old(lru) && manager == old(manager)
    {
      if !SafeIdentifier(id) {
        return UnsafeId;
      }
      var name := prefix + id;
      if name in manager {
        Reuse(name, others);
        return Connected;
      }
      if template !in manager {
        return NoTemplate;
      }
      Open(name, others);
      return Connected;
    }

    method Disconnect(id: string, ghost others: set<string>) returns (a: Answer)
      requires Valid(others)
      modifies this`lru, this`manager
      ensures Valid(others)
      ensures a.Connected? <==> SafeIdentifier(id)
      ensures a.Connected? ==> lru == Step(old(lru), Op.Disconnect(prefix + id), MAX_TENANT_CONNECTIONS)
      ensures a.Connected? ==> prefix + id !in manager
      ensures !a.Connected? ==> lru == old(lru) && manager == old(manager)
    {
      if !SafeIdentifier(id) {
        return UnsafeId;
      }
      var name := prefix + id;
      RemoveDistinct(lru, name);
      forall y {
        Removed(lru, name, y);
      }
      lru := Remove(lru, name);
      if name in manager {
        manager := manager - {name};
      }
      return Connected;
    }
  }

  lemma TouchedNames<T(!new)>(s: seq<T>, x: T)
    ensures forall y :: y in Touched(s, x) <==> y in s || y == x
  {
    forall y {
      Removed(s, x, y);
    }
  }

  lemma EvictedNames<T(!new)>(s: seq<T>, cap: nat)
    requires Distinct(s)
    ensures Distinct(Evicted(s, cap))
    ensures forall y :: y in Evicted(s, cap) <==> y in s && (|s| > cap ==> y != s[0])
  {
    if |s| > cap {
      assert forall y :: y in s <==> y == s[0] || y in s[1..];
    }
  }
}
