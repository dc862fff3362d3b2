/** What queries and model operations do, told without scopes: which rows they show, change and remove. */
module RowMeaning {
  import opened Json
  import opened RowScope

  predicate AllHold(cs: seq<Clause>, pk: nat, row: Row) {
    forall k :: 0 <= k < |cs| ==> cs[k].test(pk, row)
  }

  lemma {:induction false} SatAll(cs: seq<Clause>, group: bool, pk: nat, row: Row)
    requires Ors(cs) == 0
    ensures Sat(cs, group, pk, row) <==> group && AllHold(cs, pk, row)
    decreases |cs|
  {
    if cs != [] {
      SatAll(cs[1..], group && cs[0].test(pk, row), pk, row);
      assert cs == [cs[0]] + cs[1..];
    }
  }

  lemma {:induction false} SatSplits(a: seq<Clause>, b: seq<Clause>, group: bool, pk: nat, row: Row)
    requires b != [] && b[0].or
    ensures Sat(a + b, group, pk, row) <==> Sat(a, group, pk, row) || Sat(b[1..], b[0].test(pk, row), pk, row)
    decreases |a|
  {
    if a == [] {
      assert a + b == b;
    } else {
      assert (a + b)[1..] == a[1..] + b;
      SatSplits(a[1..], b, if a[0].or then a[0].test(pk, row) else group && a[0].test(pk, row), pk, row);
    }
  }

  /** AND binds tighter than OR: clauses joined by AND must all hold, and an OR splits them into alternatives. */
  lemma Connects(a: seq<Clause>, b: seq<Clause>, pk: nat, row: Row)
    requires a != []
    ensures Ors(a[1..]) == 0 ==> (Where(a, pk, row) <==> AllHold(a, pk, row))
    ensures b != [] && b[0].or ==> (Where(a + b, pk, row) <==> Where(a, pk, row) || Where(b, pk, row))
  {
    if Ors(a[1..]) == 0 {
      SatAll(a[1..], a[0].test(pk, row), pk, row);
      assert a == [a[0]] + a[1..];
    }
    if b != [] && b[0].or {
      assert (a + b)[1..] == a[1..] + b;
      SatSplits(a[1..], b, a[0].test(pk, row), pk, row);
    }
  }

  /** The tenant's rows that meet all conditions. */
  function Own(t: Table, id: string, cs: seq<Clause>): Table {
    map pk | pk in t && t[pk].owner == Some(id) && AllHold(cs, pk, t[pk]) :: t[pk]
  }

  /** The rows of the whole table that do. */
  function Any(t: Table, cs: seq<Clause>): Table {
    map pk | pk in t && AllHold(cs, pk, t[pk]) :: t[pk]
  }

  function Updated(t: Table, hit: Table, data: int): Table {
    map pk | pk in t :: if pk in hit then Row(t[pk].owner, data) else t[pk]
  }

  lemma {:induction false} OrsAppend(a: seq<Clause>, b: seq<Clause>)
    ensures Ors(a + b) == Ors(a) + Ors(b)
    decreases |a|
  {
    if a == [] {
      assert a + b == b;
    } else {
      assert (a + b)[1..] == a[1..] + b;
      OrsAppend(a[1..], b);
    }
  }

  lemma GuardedWhere(id: string, cs: seq<Clause>, pk: nat, row: Row)
    requires Ors(cs) == 0
    ensures Where([OwnerClause(id)] + cs, pk, row) <==> row.owner == Some(id) && AllHold(cs, pk, row)
    ensures Where([OwnerClause(id)] + cs + [OwnerClause(id)], pk, row) <==>
            row.owner == Some(id) && AllHold(cs, pk, row)
  {
    var g := OwnerClause(id);
    assert ([g] + cs)[1..] == cs && ([g] + cs + [g])[1..] == cs + [g];
    SatAll(cs, g.test(pk, row), pk, row);
    OrsAppend(cs, [g]);
    assert [g][1..] == [];
    SatAll(cs + [g], g.test(pk, row), pk, row);
    assert AllHold(cs + [g], pk, row) <==> AllHold(cs, pk, row) && g.test(pk, row) by {
      assert (cs + [g])[|cs|] == g;
      assert forall k :: 0 <= k < |cs| ==> (cs + [g])[k] == cs[k];
    }
  }

  lemma OwnMatches(t: Table, id: string, cs: seq<Clause>)
    requires Ors(cs) == 0
    ensures Matches(t, Read(Scoped(id), cs)) == Own(t, id, cs)
    ensures Matches(t, Write(Scoped(id), cs)) == Own(t, id, cs)
  {
    forall pk | pk in t {
      GuardedWhere(id, cs, pk, t[pk]);
    }
  }

  lemma SetIsUpdated(t: Table, hit: Table, data: int)
    ensures SetData(t, hit, data) == Updated(t, hit, data)
  {
  }

  lemma AnyMatches(t: Table, cs: seq<Clause>)
    requires Ors(cs) == 0
    ensures Matches(t, Read(Global, cs)) == Any(t, cs) == Matches(t, Write(Global, cs))
    ensures cs == [] ==> Any(t, cs) == t
  {
    forall pk | pk in t ensures Where(cs, pk, t[pk]) <==> AllHold(cs, pk, t[pk]) {
      if cs != [] {
        Connects(cs, [], pk, t[pk]);
      }
    }
    assert Read(Global, cs) == cs == Write(Global, cs);
  }

  /**
   Inside a tenant, in either mode, queries without OR see, change and remove exactly the tenant's rows that meet all
   their conditions.
   */
  lemma InsideQueries(c: Context, t: Table, id: string, cs: seq<Clause>, pick: Pick, data: int)
    requires Inside(c, id) && Ors(cs) == 0
    ensures Do(c, t, Select(cs, pick)) == (t, Rows(pick(Own(t, id, cs)), |Own(t, id, cs)|))
    ensures Do(c, t, UpdateWhere(cs, data)) == (Updated(t, Own(t, id, cs), data), Count(|Own(t, id, cs)|))
    ensures Do(c, t, DeleteWhere(cs)) == (t - Own(t, id, cs).Keys, Count(|Own(t, id, cs)|))
  {
    OwnMatches(t, id, cs);
    SetIsUpdated(t, Own(t, id, cs), data);
  }

  /** Not scoped at all: under a bypass, or with no tenant in the lax mode. */
  predicate Unscoped(c: Context) {
    c.bypassed || ((c.tenant.None? || c.tenant == Some("")) && !c.strict)
  }

  /** There the same queries work on the whole table. */
  lemma UnscopedQueries(c: Context, t: Table, cs: seq<Clause>, pick: Pick, data: int)
    requires Unscoped(c) && Ors(cs) == 0
    ensures Do(c, t, Select(cs, pick)) == (t, Rows(pick(Any(t, cs)), |Any(t, cs)|))
    ensures Do(c, t, UpdateWhere(cs, data)) == (Updated(t, Any(t, cs), data), Count(|Any(t, cs)|))
    ensures Do(c, t, DeleteWhere(cs)) == (t - Any(t, cs).Keys, Count(|Any(t, cs)|))
    ensures cs == [] ==> Any(t, cs) == t
  {
    AnyMatches(t, cs);
    SetIsUpdated(t, Any(t, cs), data);
  }

  /** A model's own owner, when it has one. */
  function OwnerIn(column: Column, otherwise: Option<string>): Option<string> {
    if column.Is? then column.owner else otherwise
  }

  /**
   Models. A create inside a tenant fills in a missing or null owner and keeps any other; a save or delete goes by the
   key alone, and is refused only inside a tenant, for a model that carries another owner.
   */
  lemma ModelOperations(c: Context, t: Table, id: string, pk: nat, column: Column, data: int)
    requires Inside(c, id) || Unscoped(c)
    ensures Do(c, t, Create(pk, column, data)) ==
            if pk in t then (t, Failed(DuplicateKey))
            else
              var given := OwnerIn(column, None);
              (t[pk := Row(if Inside(c, id) && given.None? then Some(id) else given, data)], Done)
    ensures Do(c, t, Save(pk, column, data)) ==
            if Inside(c, id) && column.Is? && column.owner != Some(id) then (t, Failed(ForeignRow))
            else (if pk in t then t[pk := Row(OwnerIn(column, t[pk].owner), data)] else t, Done)
    ensures Do(c, t, Delete(pk, column)) ==
            if Inside(c, id) && column.Is? && column.owner != Some(id) then (t, Failed(ForeignRow))
            else (t - {pk}, Done)
  {
  }
}
