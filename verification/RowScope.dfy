/** Row scoping: what the hooks of `src/models/scoping.ts` make of queries and saves on one shared table. */
module RowScope {
  import opened Json

  /** The scope column and everything else. */
  datatype Row = Row(owner: Option<string>, data: int)

  type Table = map<nat, Row>

  type Test = (nat, Row) -> bool

  /** One `where` or `orWhere`. */
  datatype Clause = Clause(or: bool, test: Test)

  /** SQL's reading of the clauses after the first: AND binds tighter than OR. `group` is the conjunction so far. */
  predicate Sat(cs: seq<Clause>, group: bool, pk: nat, row: Row)
    decreases |cs|
  {
    if cs == [] then group
    else if cs[0].or then group || Sat(cs[1..], cs[0].test(pk, row), pk, row)
    else Sat(cs[1..], group && cs[0].test(pk, row), pk, row)
  }

  predicate Where(cs: seq<Clause>, pk: nat, row: Row) {
    cs == [] || Sat(cs[1..], cs[0].test(pk, row), pk, row)
  }

  function Matches(t: Table, cs: seq<Clause>): Table {
    map pk | pk in t && Where(cs, pk, t[pk]) :: t[pk]
  }

  predicate OwnedBy(row: Row, id: string) {
    row.owner == Some(id)
  }

  /** `where(column, id)` */
  function OwnerClause(id: string): Clause {
    Clause(false, (pk, row) => OwnedBy(row, id))
  }

  /** The ambient state: `unscoped`, the tenant of `tenancy.run`, and the configured mode. */
  datatype Context = Context(bypassed: bool, tenant: Option<string>, strict: bool)

  datatype Scope = Scoped(id: string) | Global | Refused

  /** `requireScope`; an empty id is no id. */
  function RequireScope(c: Context): Scope {
    if c.bypassed then Global
    else if c.tenant.Some? && c.tenant.value != "" then Scoped(c.tenant.value)
    else if c.strict then Refused
    else Global
  }

  /** The scope column of a model instance: undefined when it was not loaded or set. */
  datatype Column = Undefined | Is(owner: Option<string>)

  /** How `find`, `fetch` and `paginate` cut down the matching rows. */
  type Pick = Table -> Table

  datatype Op =
    | Select(cs: seq<Clause>, pick: Pick)
    | UpdateWhere(cs: seq<Clause>, data: int)
    | DeleteWhere(cs: seq<Clause>)
    | Create(pk: nat, column: Column, data: int)
    | Save(pk: nat, column: Column, data: int)
    | Delete(pk: nat, column: Column)

  datatype Why = MissingScope | ForeignRow | DuplicateKey

  datatype View = Rows(rows: Table, total: nat) | Count(n: nat) | Done | Failed(why: Why)

  function Guard(s: Scope): seq<Clause> {
    if s.Scoped? then [OwnerClause(s.id)] else []
  }

  /** A query's clauses: the scope first and, for reads, the hook's once more at the end. */
  function Read(s: Scope, cs: seq<Clause>): seq<Clause> {
    Guard(s) + cs + Guard(s)
  }

  function Write(s: Scope, cs: seq<Clause>): seq<Clause> {
    Guard(s) + cs
  }

  /** The update and delete hooks refuse a model that carries another owner, null included. */
  predicate Foreign(s: Scope, column: Column) {
    s.Scoped? && column.Is? && column.owner != Some(s.id)
  }

  /** The create hook fills in a missing or null owner. */
  function Filled(s: Scope, column: Column): Option<string> {
    if s.Scoped? && (column.Undefined? || column.owner.None?) then Some(s.id)
    else if column.Is? then column.owner else None
  }

  function SetData(t: Table, hit: Table, data: int): Table {
    map pk | pk in t :: if pk in hit then t[pk].(data := data) else t[pk]
  }

  /** A model's save by primary key; the owner is written with it when the model has one. */
  function Saved(row: Row, column: Column, data: int): Row {
    Row(if column.Is? then column.owner else row.owner, data)
  }

  function Do(c: Context, t: Table, op: Op): (Table, View) {
    var s := RequireScope(c);
    if s.Refused? then (t, Failed(MissingScope)) else
    match op
    case Select(cs, pick) => var m := Matches(t, Read(s, cs)); (t, Rows(pick(m), |m|))
    case UpdateWhere(cs, data) => var m := Matches(t, Write(s, cs)); (SetData(t, m, data), Count(|m|))
    case DeleteWhere(cs) => var m := Matches(t, Write(s, cs)); (t - m.Keys, Count(|m|))
    case Create(pk, column, data) =>
      if pk in t then (t, Failed(DuplicateKey)) else (t[pk := Row(Filled(s, column), data)], Done)
    case Save(pk, column, data) =>
      if Foreign(s, column) then (t, Failed(ForeignRow))
      else (if pk in t then t[pk := Saved(t[pk], column, data)] else t, Done)
    case Delete(pk, column) =>
      if Foreign(s, column) then (t, Failed(ForeignRow)) else (t - {pk}, Done)
  }

  /** One tenant's part of the table, and the rest. */
  function Mine(t: Table, id: string): Table {
    map pk | pk in t && OwnedBy(t[pk], id) :: t[pk]
  }

  function Others(t: Table, id: string): Table {
    map pk | pk in t && !OwnedBy(t[pk], id) :: t[pk]
  }

  function Ors(cs: seq<Clause>): nat
    decreases |cs|
  {
    if cs == [] then 0 else (if cs[0].or then 1 else 0) + Ors(cs[1..])
  }

  /** Once a conjunction is false it stays so until the next OR. */
  lemma {:induction false} FalseStays(cs: seq<Clause>, pk: nat, row: Row)
    requires Ors(cs) == 0
    ensures !Sat(cs, false, pk, row)
    decreases |cs|
  {
    if cs != [] {
      FalseStays(cs[1..], pk, row);
    }
  }

  /** With at most one OR, the scope at both ends reaches every conjunction. */
  lemma {:induction false} ClosedAtEnd(cs: seq<Clause>, group: bool, id: string, pk: nat, row: Row)
    requires !OwnedBy(row, id) && Ors(cs) == 0
    ensures !Sat(cs + [OwnerClause(id)], group, pk, row)
    decreases |cs|
  {
    if cs == [] {
      assert cs + [OwnerClause(id)] == [OwnerClause(id)];
      assert [OwnerClause(id)][1..] == [];
    } else {
      assert (cs + [OwnerClause(id)])[1..] == cs[1..] + [OwnerClause(id)];
      ClosedAtEnd(cs[1..], group && cs[0].test(pk, row), id, pk, row);
    }
  }

  lemma {:induction false} ClosedBothEnds(cs: seq<Clause>, id: string, pk: nat, row: Row)
    requires !OwnedBy(row, id) && Ors(cs) <= 1
    ensures !Sat(cs + [OwnerClause(id)], false, pk, row)
    decreases |cs|
  {
    if cs == [] {
      ClosedAtEnd(cs, false, id, pk, row);
    } else {
      assert (cs + [OwnerClause(id)])[1..] == cs[1..] + [OwnerClause(id)];
      if cs[0].or {
        ClosedAtEnd(cs[1..], cs[0].test(pk, row), id, pk, row);
      } else {
        ClosedBothEnds(cs[1..], id, pk, row);
      }
    }
  }

  lemma ReadIsMine(id: string, cs: seq<Clause>, pk: nat, row: Row)
    requires Ors(cs) <= 1 && Where(Read(Scoped(id), cs), pk, row)
    ensures OwnedBy(row, id)
  {
    assert Read(Scoped(id), cs)[1..] == cs + [OwnerClause(id)];
    if !OwnedBy(row, id) {
      ClosedBothEnds(cs, id, pk, row);
    }
  }

  lemma WriteIsMine(id: string, cs: seq<Clause>, pk: nat, row: Row)
    requires Ors(cs) == 0 && Where(Write(Scoped(id), cs), pk, row)
    ensures OwnedBy(row, id)
  {
    assert Write(Scoped(id), cs)[1..] == cs;
    if !OwnedBy(row, id) {
      FalseStays(cs, pk, row);
    }
  }

  /** The same connectives with tests that always hold. */
  function Open(ors: seq<bool>): seq<Clause>
    decreases |ors|
  {
    if ors == [] then [] else [Clause(ors[0], (pk, row) => true)] + Open(ors[1..])
  }

  function Connectives(cs: seq<Clause>): seq<bool>
    decreases |cs|
  {
    if cs == [] then [] else [cs[0].or] + Connectives(cs[1..])
  }

  function Trues(ors: seq<bool>): nat
    decreases |ors|
  {
    if ors == [] then 0 else (if ors[0] then 1 else 0) + Trues(ors[1..])
  }

  lemma {:induction false} OrsOf(cs: seq<Clause>)
    ensures Ors(cs) == Trues(Connectives(cs))
    decreases |cs|
  {
    if cs != [] {
      OrsOf(cs[1..]);
      assert Connectives(cs)[1..] == Connectives(cs[1..]);
    }
  }

  lemma {:induction false} OpenHas(ors: seq<bool>)
    ensures Connectives(Open(ors)) == ors
    decreases |ors|
  {
    if ors != [] {
      OpenHas(ors[1..]);
      assert Open(ors)[1..] == Open(ors[1..]);
    }
  }

  /** A true conjunction stays true, and a later OR keeps it. */
  lemma {:induction false} OpenStays(ors: seq<bool>, last: seq<Clause>, pk: nat, row: Row)
    requires Trues(ors) >= 1 || last == []
    ensures Sat(Open(ors) + last, true, pk, row)
    decreases |ors|
  {
    if ors == [] {
      assert Open(ors) + last == [];
    } else {
      assert Open(ors)[1..] == Open(ors[1..]);
      assert (Open(ors) + last)[1..] == Open(ors[1..]) + last;
      if !ors[0] {
        OpenStays(ors[1..], last, pk, row);
      }
    }
  }

  lemma {:induction false} OpenLeaks(ors: seq<bool>, last: seq<Clause>, pk: nat, row: Row)
    requires Trues(ors) >= 2 || (Trues(ors) >= 1 && last == [])
    ensures Sat(Open(ors) + last, false, pk, row)
    decreases |ors|
  {
    if ors != [] {
      assert Open(ors)[1..] == Open(ors[1..]);
      assert (Open(ors) + last)[1..] == Open(ors[1..]) + last;
      if ors[0] {
        OpenStays(ors[1..], last, pk, row);
      } else {
        OpenLeaks(ors[1..], last, pk, row);
      }
    }
  }

  /** Inside `tenancy.run` for the tenant `id`, and not in `unscoped`; the configured mode does not matter. */
  predicate Inside(c: Context, id: string) {
    !c.bypassed && c.tenant == Some(id) && id != ""
  }

  /**
   What the property asks of an operation in a tenant's scope: few enough ORs, no create in another tenant's name or on
   a key that another tenant uses, and models that carry their row's owner.
   */
  predicate Tame(t: Table, id: string, op: Op) {
    match op
    case Select(cs, _) => Ors(cs) <= 1
    case UpdateWhere(cs, _) => Ors(cs) == 0
    case DeleteWhere(cs) => Ors(cs) == 0
    case Create(pk, column, _) =>
      (column.Undefined? || column.owner.None? || column.owner == Some(id)) && pk !in Others(t, id)
    case Save(pk, column, _) => pk in t ==> column == Is(t[pk].owner)
    case Delete(pk, column) => pk in t ==> column == Is(t[pk].owner)
  }

  lemma ReadMatches(t: Table, id: string, cs: seq<Clause>)
    requires Ors(cs) <= 1
    ensures Matches(t, Read(Scoped(id), cs)) == Matches(Mine(t, id), Read(Scoped(id), cs))
  {
    forall pk | pk in t && Where(Read(Scoped(id), cs), pk, t[pk]) ensures OwnedBy(t[pk], id) {
      ReadIsMine(id, cs, pk, t[pk]);
    }
  }

  lemma WriteMatches(t: Table, id: string, cs: seq<Clause>)
    requires Ors(cs) == 0
    ensures Matches(t, Write(Scoped(id), cs)) == Matches(Mine(t, id), Write(Scoped(id), cs))
  {
    forall pk | pk in t && Where(Write(Scoped(id), cs), pk, t[pk]) ensures OwnedBy(t[pk], id) {
      WriteIsMine(id, cs, pk, t[pk]);
    }
  }

  lemma MineMatches(t: Table, id: string, cs: seq<Clause>)
    ensures forall pk :: pk in Matches(Mine(t, id), cs) ==> pk in Mine(t, id)
  {
  }

  /** Writing to rows of one's own leaves the others' alone, and one's own change by themselves. */
  lemma SetDataSplits(t: Table, id: string, hit: Table, data: int)
    requires forall pk :: pk in hit ==> pk in Mine(t, id)
    ensures Others(SetData(t, hit, data), id) == Others(t, id)
    ensures Mine(SetData(t, hit, data), id) == SetData(Mine(t, id), hit, data)
  {
  }

  lemma RemoveSplits(t: Table, id: string, keys: set<nat>)
    requires forall pk :: pk in keys && pk in t ==> pk in Mine(t, id)
    ensures Others(t - keys, id) == Others(t, id)
    ensures Mine(t - keys, id) == Mine(t, id) - keys
  {
  }

  lemma PutSplits(t: Table, id: string, pk: nat, row: Row)
    requires OwnedBy(row, id) && pk !in Others(t, id)
    ensures Others(t[pk := row], id) == Others(t, id)
    ensures Mine(t[pk := row], id) == Mine(t, id)[pk := row]
  {
  }

  /** The operation as if only the tenant's own rows existed. */
  function DoAlone(mine: Table, id: string, op: Op): (Table, View) {
    Do(Context(false, Some(id), true), mine, op)
  }

  /** A tame operation does to the tenant's rows what it would do to them alone, answers the same, and does no more. */
  lemma DoIsLocal(c: Context, t: Table, id: string, op: Op)
    requires Inside(c, id) && Tame(t, id, op)
    ensures var (t', view) := Do(c, t, op);
            && Others(t', id) == Others(t, id)
            && (Mine(t', id), view) == DoAlone(Mine(t, id), id, op)
  {
    match op
    case Select(cs, _) => ReadMatches(t, id, cs);
    case UpdateWhere(cs, data) =>
      WriteMatches(t, id, cs);
      MineMatches(t, id, Write(Scoped(id), cs));
      SetDataSplits(t, id, Matches(t, Write(Scoped(id), cs)), data);
    case DeleteWhere(cs) =>
      WriteMatches(t, id, cs);
      MineMatches(t, id, Write(Scoped(id), cs));
      RemoveSplits(t, id, Matches(t, Write(Scoped(id), cs)).Keys);
    case Create(pk, column, data) =>
      if pk !in t {
        PutSplits(t, id, pk, Row(Some(id), data));
      }
    case Save(pk, column, data) =>
      if pk in t && OwnedBy(t[pk], id) {
        PutSplits(t, id, pk, Row(Some(id), data));
      }
    case Delete(pk, column) =>
      if !Foreign(Scoped(id), column) {
        RemoveSplits(t, id, {pk});
      }
  }

  /** Everything that matches. */
  function All(): Pick {
    (t: Table) => t
  }

  /** What a read of everything that matches shows. */
  function Shown(c: Context, t: Table, cs: seq<Clause>): Table {
    var view := Do(c, t, Select(cs, All())).1;
    if view.Rows? then view.rows else map[]
  }

  /** Whatever the tests and the table are, a read with these connectives shows the tenant's rows only. */
  ghost predicate ReadsOwn(c: Context, ors: seq<bool>, id: string) {
    forall cs, t :: Connectives(cs) == ors ==> Others(Shown(c, t, cs), id) == map[]
  }

  /** And a query update or delete changes no other row. */
  ghost predicate WritesOwn(c: Context, ors: seq<bool>, id: string) {
    && (forall cs, t, data :: Connectives(cs) == ors ==> Others(Do(c, t, UpdateWhere(cs, data)).0, id) == Others(t, id))
    && (forall cs, t :: Connectives(cs) == ors ==> Others(Do(c, t, DeleteWhere(cs)).0, id) == Others(t, id))
  }

  lemma OpenReadLeaks(c: Context, ors: seq<bool>, id: string)
    requires Inside(c, id) && Trues(ors) >= 2
    ensures !ReadsOwn(c, ors, id)
  {
    var cs, t := Open(ors), map[0 := Row(None, 0)];
    OpenHas(ors);
    OpenLeaks(ors, [OwnerClause(id)], 0, t[0]);
    assert Read(Scoped(id), cs)[1..] == cs + [OwnerClause(id)];
    assert 0 in Others(Shown(c, t, cs), id);
  }

  lemma OpenWriteLeaks(c: Context, ors: seq<bool>, id: string)
    requires Inside(c, id) && Trues(ors) >= 1
    ensures !WritesOwn(c, ors, id)
  {
    var cs, t := Open(ors), map[0 := Row(None, 0)];
    OpenHas(ors);
    OpenLeaks(ors, [], 0, t[0]);
    assert Write(Scoped(id), cs)[1..] == cs + [];
    assert 0 in Others(t, id) && 0 !in Others(Do(c, t, DeleteWhere(cs)).0, id);
  }

  /**
   How far the injected predicates reach, in either mode: reads tolerate one OR, query updates and deletes none.
   */
  lemma ScopeReach(c: Context, ors: seq<bool>, id: string)
    requires Inside(c, id)
    ensures ReadsOwn(c, ors, id) <==> Trues(ors) <= 1
    ensures WritesOwn(c, ors, id) <==> Trues(ors) == 0
  {
    if Trues(ors) <= 1 {
      forall cs, t | Connectives(cs) == ors ensures Others(Shown(c, t, cs), id) == map[] {
        OrsOf(cs);
        forall pk | pk in Shown(c, t, cs) ensures OwnedBy(Shown(c, t, cs)[pk], id) {
          ReadIsMine(id, cs, pk, t[pk]);
        }
      }
    } else {
      OpenReadLeaks(c, ors, id);
    }
    if Trues(ors) == 0 {
      forall cs, t, data | Connectives(cs) == ors
        ensures Others(Do(c, t, UpdateWhere(cs, data)).0, id) == Others(t, id) {
        OrsOf(cs);
        DoIsLocal(c, t, id, UpdateWhere(cs, data));
      }
      forall cs, t | Connectives(cs) == ors ensures Others(Do(c, t, DeleteWhere(cs)).0, id) == Others(t, id) {
        OrsOf(cs);
        DoIsLocal(c, t, id, DeleteWhere(cs));
      }
    } else {
      OpenWriteLeaks(c, ors, id);
    }
  }

  /** A program: the next operation from everything it has been shown so far. */
  type Program = seq<View> -> Op

  function Run(c: Context, t: Table, p: Program, seen: seq<View>, n: nat): (Table, seq<View>)
    decreases n
  {
    if n == 0 then (t, seen)
    else
      var (t1, view) := Do(c, t, p(seen));
      Run(c, t1, p, seen + [view], n - 1)
  }

  predicate TameRun(c: Context, t: Table, id: string, p: Program, seen: seq<View>, n: nat)
    decreases n
  {
    n == 0 ||
    (Tame(t, id, p(seen)) && TameRun(c, Do(c, t, p(seen)).0, id, p, seen + [Do(c, t, p(seen)).1], n - 1))
  }

  /**
   Noninterference. Any program in tenant A's scope, choosing each operation from the results so far, leaves all other
   rows as they were, and its results and its own rows at the end are the same over any two tables that agree on A's
   rows.
   */
  lemma {:induction false} Noninterference(c: Context, t: Table, u: Table, id: string, p: Program, seen: seq<View>,
                                           n: nat)
    requires Inside(c, id) && Mine(t, id) == Mine(u, id)
    requires TameRun(c, t, id, p, seen, n) && TameRun(c, u, id, p, seen, n)
    ensures Others(Run(c, t, p, seen, n).0, id) == Others(t, id)
    ensures Run(c, t, p, seen, n).1 == Run(c, u, p, seen, n).1
    ensures Mine(Run(c, t, p, seen, n).0, id) == Mine(Run(c, u, p, seen, n).0, id)
    decreases n
  {
    if n > 0 {
      var op := p(seen);
      DoIsLocal(c, t, id, op);
      DoIsLocal(c, u, id, op);
      Noninterference(c, Do(c, t, op).0, Do(c, u, op).0, id, p, seen + [Do(c, t, op).1], n - 1);
    }
  }

  /** Which model operations, with or without their hooks' consent, change another tenant's rows. */
  lemma ModelReach(c: Context, t: Table, id: string, pk: nat, column: Column, data: int)
    requires Inside(c, id)
    ensures Others(Do(c, t, Create(pk, column, data)).0, id) != Others(t, id) <==>
            pk !in t && column.Is? && column.owner.Some? && column.owner != Some(id)
    ensures Others(Do(c, t, Save(pk, column, data)).0, id) != Others(t, id) <==>
            (pk in Others(t, id) && (column == Is(Some(id)) || (column.Undefined? && data != t[pk].data)))
    ensures Others(Do(c, t, Delete(pk, column)).0, id) != Others(t, id) <==>
            pk in Others(t, id) && (column.Undefined? || column == Is(Some(id)))
  {
    CreateReach(c, t, id, pk, column, data);
    SaveReach(c, t, id, pk, column, data);
    DeleteReach(c, t, id, pk, column);
  }

  lemma CreateReach(c: Context, t: Table, id: string, pk: nat, column: Column, data: int)
    requires Inside(c, id)
    ensures Others(Do(c, t, Create(pk, column, data)).0, id) != Others(t, id) <==>
            pk !in t && column.Is? && column.owner.Some? && column.owner != Some(id)
  {
    var t' := Do(c, t, Create(pk, column, data)).0;
    if pk !in t && column.Is? && column.owner.Some? && column.owner != Some(id) {
      assert pk in Others(t', id);
    } else if pk !in t {
      PutSplits(t, id, pk, Row(Some(id), data));
    }
  }

  lemma SaveReach(c: Context, t: Table, id: string, pk: nat, column: Column, data: int)
    requires Inside(c, id)
    ensures Others(Do(c, t, Save(pk, column, data)).0, id) != Others(t, id) <==>
            (pk in Others(t, id) && (column == Is(Some(id)) || (column.Undefined? && data != t[pk].data)))
  {
    var t' := Do(c, t, Save(pk, column, data)).0;
    if pk in Others(t, id) && !Foreign(Scoped(id), column) {
      if column.Is? {
        assert pk !in Others(t', id);
      } else if data != t[pk].data {
        assert Others(t', id)[pk] != Others(t, id)[pk];
      } else {
        assert t' == t;
      }
    } else if pk in t && !Foreign(Scoped(id), column) {
      PutSplits(t, id, pk, Saved(t[pk], column, data));
    }
  }

  lemma DeleteReach(c: Context, t: Table, id: string, pk: nat, column: Column)
    requires Inside(c, id)
    ensures Others(Do(c, t, Delete(pk, column)).0, id) != Others(t, id) <==>
            pk in Others(t, id) && (column.Undefined? || column == Is(Some(id)))
  {
    var t' := Do(c, t, Delete(pk, column)).0;
    if pk in Others(t, id) && !Foreign(Scoped(id), column) {
      assert pk !in Others(t', id);
    } else if pk !in Others(t, id) && !Foreign(Scoped(id), column) {
      RemoveSplits(t, id, {pk});
    }
  }

  /** In strict mode a program outside every scope gets nothing but refusals, and the table is never touched. */
  lemma {:induction false} StrictRefuses(c: Context, t: Table, p: Program, seen: seq<View>, n: nat)
    requires c.strict && !c.bypassed && (c.tenant.None? || c.tenant.value == "")
    ensures Run(c, t, p, seen, n).0 == t
    ensures var views := Run(c, t, p, seen, n).1;
            |views| == |seen| + n && views[..|seen|] == seen &&
            forall k :: |seen| <= k < |views| ==> views[k] == Failed(MissingScope)
    decreases n
  {
    if n > 0 {
      StrictRefuses(c, t, p, seen + [Failed(MissingScope)], n - 1);
    }
  }
}
