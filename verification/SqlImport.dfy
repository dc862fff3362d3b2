/** The savepoint-per-statement importer of `src/services/sql_import_service.ts`. */
module SqlImport {
  import opened JsText
  import opened SqlLexer
  import opened SqlTagged

  datatype Outcome<Db> = Done(db: Db) | Failed(message: string)

  /** /^SET\s+search_path/i */
  predicate SetsSearchPath(s: string) {
    StartsWith(s, "set") &&
    var u := TrimStart(s[3..]);
    |u| < |s| - 3 && StartsWith(u, "search_path")
  }

  /** /^SELECT\s+pg_catalog\.set_config\s*\(\s*'search_path'/i */
  predicate ConfiguresSearchPath(s: string) {
    StartsWith(s, "select") &&
    var u := TrimStart(s[6..]);
    |u| < |s| - 6 && StartsWith(u, "pg_catalog.set_config") &&
    var v := TrimStart(u[21..]);
    v != "" && v[0] == '(' && StartsWith(TrimStart(v[1..]), "'search_path'")
  }

  /** /^\\[a-z]/i */
  predicate IsMetaCommand(s: string) {
    |s| >= 2 && s[0] == '\\' && 'a' <= Lower(s[1]) <= 'z'
  }

  predicate ShouldSkip(stmt: string) {
    var s := TrimStart(stmt);
    SetsSearchPath(s) || ConfiguresSearchPath(s) || IsMetaCommand(s)
  }

  datatype ImportError = ImportError(statement: string, message: string)

  datatype Result = Result(
    total: nat, executed: nat, skipped: nat, copyBlocks: nat, copyRows: nat, errors: seq<ImportError>)

  function Slice(s: string, n: nat): string {
    if |s| <= n then s else s[..n]
  }

  /**
   An open PostgreSQL transaction: its state, its savepoints (named by the importer's counter) and whether a statement
   has failed in it.
   */
  class Transaction<Db> {
    const exec: (Db, string) -> Outcome<Db>
    var db: Db
    var savepoints: seq<(nat, Db)>
    var aborted: bool

    constructor (exec: (Db, string) -> Outcome<Db>, db: Db)
      ensures this.exec == exec && this.db == db && savepoints == [] && !aborted
    {
      this.exec := exec;
      this.db := db;
      savepoints := [];
      aborted := false;
    }

    /** SAVEPOINT sp; refused in an aborted transaction. */
    method Savepoint(sp: nat)
      requires !aborted
      modifies this`savepoints
      ensures savepoints == old(savepoints) + [(sp, db)]
    {
      savepoints := savepoints + [(sp, db)];
    }

    /** A statement of the dump. A failing one leaves the transaction aborted. */
    method RawQuery(stmt: string) returns (r: Outcome<Db>)
      requires !aborted
      modifies this`db, this`aborted
      ensures r == exec(old(db), stmt)
      ensures aborted == r.Failed?
      ensures db == if r.Done? then r.db else old(db)
    {
      r := exec(db, stmt);
      match r {
        case Done(next) => db := next;
        case Failed(_) => aborted := true;
      }
    }

    /** RELEASE SAVEPOINT sp; `sp` must be the innermost one. */
    method Release(sp: nat)
      requires !aborted
      requires savepoints != [] && savepoints[|savepoints| - 1].0 == sp
      modifies this`savepoints
      ensures savepoints == old(savepoints)[..|old(savepoints)| - 1]
    {
      savepoints := savepoints[..|savepoints| - 1];
    }

    /** ROLLBACK TO SAVEPOINT sp; works in an aborted transaction and keeps the savepoint. */
    method RollbackTo(sp: nat)
      requires savepoints != [] && savepoints[|savepoints| - 1].0 == sp
      modifies this`db, this`aborted
      ensures db == old(savepoints)[|old(savepoints)| - 1].1 && !aborted
    {
      db := savepoints[|savepoints| - 1].1;
      aborted := false;
    }
  }

  /** The statements of the dump that succeed when each failure is undone on the spot. */
  function Succeeded<Db>(skip: string -> bool, exec: (Db, string) -> Outcome<Db>, db: Db,
                         tokens: seq<Token>): seq<string> {
    if tokens == [] then []
    else match tokens[0]
      case Copy(_, _) => Succeeded(skip, exec, db, tokens[1..])
      case Sql(stmt) =>
        if skip(stmt) then Succeeded(skip, exec, db, tokens[1..])
        else match exec(db, stmt)
          case Done(next) => [stmt] + Succeeded(skip, exec, next, tokens[1..])
          case Failed(_) => Succeeded(skip, exec, db, tokens[1..])
  }

  /** Running statements one after the other with no safety net: the state they lead to, or the first failure. */
  function RunAll<Db>(exec: (Db, string) -> Outcome<Db>, db: Db, stmts: seq<string>): Outcome<Db> {
    if stmts == [] then Done(db)
    else match exec(db, stmts[0])
      case Done(next) => RunAll(exec, next, stmts[1..])
      case Failed(m) => Failed(m)
  }

  function CopyBlocks(tokens: seq<Token>): nat {
    if tokens == [] then 0 else (if tokens[0].Copy? then 1 else 0) + CopyBlocks(tokens[1..])
  }

  function CopyRows(tokens: seq<Token>): nat {
    if tokens == [] then 0 else (if tokens[0].Copy? then |tokens[0].rows| else 0) + CopyRows(tokens[1..])
  }

  function Skippable(skip: string -> bool, tokens: seq<Token>): nat {
    if tokens == [] then 0
    else (if tokens[0].Sql? && skip(tokens[0].text) then 1 else 0) + Skippable(skip, tokens[1..])
  }

  lemma {:induction false} SucceededSnoc<Db>(skip: string -> bool, exec: (Db, string) -> Outcome<Db>, db0: Db,
                                             ts: seq<Token>, t: Token, db: Db)
    requires RunAll(exec, db0, Succeeded(skip, exec, db0, ts)) == Done(db)
    ensures var more := if t.Copy? || skip(t.text) || exec(db, t.text).Failed? then [] else [t.text];
            Succeeded(skip, exec, db0, ts + [t]) == Succeeded(skip, exec, db0, ts) + more
    decreases |ts|
  {
    if ts == [] {
      assert ts + [t] == [t];
      assert [t][1..] == [];
    } else {
      assert (ts + [t])[1..] == ts[1..] + [t];
      if ts[0].Copy? || skip(ts[0].text) || exec(db0, ts[0].text).Failed? {
        SucceededSnoc(skip, exec, db0, ts[1..], t, db);
      } else {
        var next := exec(db0, ts[0].text).db;
        var s := Succeeded(skip, exec, next, ts[1..]);
        assert ([ts[0].text] + s)[1..] == s;
        SucceededSnoc(skip, exec, next, ts[1..], t, db);
      }
    }
  }

  lemma {:induction false} RunAllSnoc<Db>(exec: (Db, string) -> Outcome<Db>, db0: Db, ss: seq<string>, s: string,
                                          db: Db)
    requires RunAll(exec, db0, ss) == Done(db)
    ensures RunAll(exec, db0, ss + [s]) == exec(db, s)
    decreases |ss|
  {
    if ss == [] {
      assert ss + [s] == [s];
      assert [s][1..] == [];
    } else {
      assert (ss + [s])[1..] == ss[1..] + [s];
      RunAllSnoc(exec, exec(db0, ss[0]).db, ss[1..], s, db);
    }
  }

  lemma {:induction false} CountsSnoc(skip: string -> bool, ts: seq<Token>, t: Token)
    ensures CopyBlocks(ts + [t]) == CopyBlocks(ts) + if t.Copy? then 1 else 0
    ensures CopyRows(ts + [t]) == CopyRows(ts) + if t.Copy? then |t.rows| else 0
    ensures Skippable(skip, ts + [t]) == Skippable(skip, ts) + if t.Sql? && skip(t.text) then 1 else 0
    decreases |ts|
  {
    if ts == [] {
      assert ts + [t] == [t];
      assert [t][1..] == [];
    } else {
      assert (ts + [t])[1..] == ts[1..] + [t];
      CountsSnoc(skip, ts[1..], t);
    }
  }

  /** The state of the transaction and the counters of the result. */
  datatype Account<Db> = Account(db: Db, executed: nat, skipped: nat, errors: seq<ImportError>)

  /** What one token does to the account. */
  function Next<Db>(skip: string -> bool, exec: (Db, string) -> Outcome<Db>, a: Account<Db>, t: Token): Account<Db> {
    if t.Copy? then a
    else if skip(t.text) then a.(skipped := a.skipped + 1)
    else match exec(a.db, t.text)
      case Done(next) => a.(db := next, executed := a.executed + 1)
      case Failed(m) => a.(errors := a.errors + [ImportError(Slice(t.text, 200), m)])
  }

  /** The account after the first `i` tokens. */
  function After<Db>(skip: string -> bool, exec: (Db, string) -> Outcome<Db>, db: Db, tokens: seq<Token>, i: nat)
    : Account<Db>
    requires i <= |tokens|
  {
    if i == 0 then Account(db, 0, 0, [])
    else Next(skip, exec, After(skip, exec, db, tokens, i - 1), tokens[i - 1])
  }

  /** One turn of the import loop: a statement runs inside its own savepoint, which is gone afterwards. */
  method ImportToken<Db>(trx: Transaction<Db>, token: Token, skip: string -> bool, sp: nat, a: Account<Db>)
    returns (a': Account<Db>)
    requires !trx.aborted && a.db == trx.db
    modifies trx
    ensures !trx.aborted && trx.savepoints == old(trx.savepoints)
    ensures a' == Next(skip, trx.exec, a, token) && a'.db == trx.db
  {
    a' := a;
    if token.Copy? {
      return;
    }
    var stmt := token.text;
    if skip(stmt) {
      a' := a.(skipped := a.skipped + 1);
      return;
    }
    trx.Savepoint(sp);
    var r := trx.RawQuery(stmt);
    match r {
      case Done(_) =>
        trx.Release(sp);
        a' := a.(db := trx.db, executed := a.executed + 1);
      case Failed(message) =>
        trx.RollbackTo(sp);
        trx.Release(sp);
        a' := a.(errors := a.errors + [ImportError(Slice(stmt, 200), message)]);
    }
  }

  /** `#runTransactional`: the transaction and the result follow the account, token by token. */
  method RunTransactional<Db>(trx: Transaction<Db>, tokens: seq<Token>, skip: string -> bool)
    returns (result: Account<Db>)
    requires !trx.aborted
    modifies trx
    ensures !trx.aborted && trx.savepoints == old(trx.savepoints)
    ensures result == After(skip, trx.exec, old(trx.db), tokens, |tokens|) && result.db == trx.db
  {
    result := Account(trx.db, 0, 0, []);
    for i := 0 to |tokens|
      invariant !trx.aborted && trx.savepoints == old(trx.savepoints)
      invariant result == After(skip, trx.exec, old(trx.db), tokens, i) && result.db == trx.db
    {
      result := ImportToken(trx, tokens[i], skip, i, result);
    }
  }

  /**
   The account in plain terms. The state reached is the one that exactly the statements that
   succeeded produce, run in order and without any savepoint, and every token is counted once.
   */
  lemma {:induction false} ImportEqualsSuccesses<Db>(skip: string -> bool, exec: (Db, string) -> Outcome<Db>, db: Db,
                                                     tokens: seq<Token>, i: nat)
    requires i <= |tokens|
    ensures var a := After(skip, exec, db, tokens, i);
            var ran := Succeeded(skip, exec, db, tokens[..i]);
            && RunAll(exec, db, ran) == Done(a.db)
            && a.executed == |ran|
            && a.skipped == Skippable(skip, tokens[..i])
            && a.executed + a.skipped + |a.errors| + CopyBlocks(tokens[..i]) == i
    decreases i
  {
    if i > 0 {
      ImportEqualsSuccesses(skip, exec, db, tokens, i - 1);
      var t := tokens[i - 1];
      var before := Succeeded(skip, exec, db, tokens[..i - 1]);
      var a := After(skip, exec, db, tokens, i - 1);
      assert tokens[..i] == tokens[..i - 1] + [t];
      assert before + [] == before;
      SucceededSnoc(skip, exec, db, tokens[..i - 1], t, a.db);
      CountsSnoc(skip, tokens[..i - 1], t);
      if t.Sql? {
        RunAllSnoc(exec, db, before, t.text, a.db);
      }
    }
  }

  /** The dry run: what it counts as executable is what the real run will attempt. */
  method DryRun(tokens: seq<Token>, skip: string -> bool) returns (result: Result)
    ensures result.total == |tokens| && result.errors == []
    ensures result.skipped == Skippable(skip, tokens)
    ensures result.copyBlocks == CopyBlocks(tokens) && result.copyRows == CopyRows(tokens)
    ensures result.executed + result.skipped + result.copyBlocks == |tokens|
  {
    var executed, skipped, copyBlocks, copyRows := 0, 0, 0, 0;
    for i := 0 to |tokens|
      invariant skipped == Skippable(skip, tokens[..i])
      invariant copyBlocks == CopyBlocks(tokens[..i]) && copyRows == CopyRows(tokens[..i])
      invariant executed + skipped + copyBlocks == i
    {
      assert tokens[..i + 1] == tokens[..i] + [tokens[i]];
      CountsSnoc(skip, tokens[..i], tokens[i]);
      match tokens[i] {
        case Copy(_, rows) => copyBlocks, copyRows := copyBlocks + 1, copyRows + |rows|;
        case Sql(text) =>
          if skip(text) {
            skipped := skipped + 1;
          } else {
            executed := executed + 1;
          }
      }
    }
    assert tokens[..|tokens|] == tokens;
    result := Result(|tokens|, executed, skipped, copyBlocks, copyRows, []);
  }

  /** `import`, up to the dumps that need psql: a dry run only counts, a dump without COPY blocks runs in `trx`. */
  method Import<Db>(trx: Transaction<Db>, sql: string, dryRun: bool) returns (result: Option<Result>)
    requires !trx.aborted
    modifies trx
    ensures !trx.aborted && trx.savepoints == old(trx.savepoints)
    ensures dryRun || CopyBlocks(Tagged(sql)) > 0 ==> trx.db == old(trx.db)
    ensures result.None? <==> !dryRun && CopyBlocks(Tagged(sql)) > 0
    ensures result.Some? ==> result.value.total == |Tagged(sql)|
    ensures dryRun ==>
              var counts := result.value;
              && counts.skipped == Skippable(ShouldSkip, Tagged(sql)) && counts.errors == []
              && counts.copyBlocks == CopyBlocks(Tagged(sql)) && counts.copyRows == CopyRows(Tagged(sql))
    ensures !dryRun && result.Some? ==>
              var a := After(ShouldSkip, trx.exec, old(trx.db), Tagged(sql), |Tagged(sql)|);
              trx.db == a.db && result.value == Result(|Tagged(sql)|, a.executed, a.skipped, 0, 0, a.errors)
  {
    var tokens := SplitSqlStatementsTagged(sql);
    var hasCopyBlocks := CopyBlocks(tokens) > 0;
    if dryRun {
      var counts := DryRun(tokens, ShouldSkip);
      return Some(counts);
    }
    if hasCopyBlocks {
      return None;
    }
    var a := RunTransactional(trx, tokens, ShouldSkip);
    return Some(Result(|tokens|, a.executed, a.skipped, 0, 0, a.errors));
  }

  /** The statements that failed leave no trace: the run is blind to them. */
  lemma {:induction false} SucceededAlone<Db>(skip: string -> bool, exec: (Db, string) -> Outcome<Db>, db: Db,
                                              tokens: seq<Token>)
    ensures RunAll(exec, db, Succeeded(skip, exec, db, tokens)).Done?
    ensures Succeeded(skip, exec, db, SqlTokens(Succeeded(skip, exec, db, tokens))) == Succeeded(skip, exec, db, tokens)
    decreases |tokens|
  {
    if tokens != [] {
      if tokens[0].Copy? || skip(tokens[0].text) || exec(db, tokens[0].text).Failed? {
        SucceededAlone(skip, exec, db, tokens[1..]);
      } else {
        var next := exec(db, tokens[0].text).db;
        SucceededAlone(skip, exec, next, tokens[1..]);
        var s := Succeeded(skip, exec, next, tokens[1..]);
        assert ([tokens[0].text] + s)[1..] == s;
        assert SqlTokens([tokens[0].text] + s)[1..] == SqlTokens(s);
      }
    }
  }
}
