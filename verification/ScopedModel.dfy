/** The mixin of `src/models/scoping.ts`: hooks that add to query builders and fill models in place. */
module ScopedModel {
  import opened Json
  import opened RowScope

  /** A query builder under construction. */
  class QueryBuilder {
    var clauses: seq<Clause>

    constructor ()
      ensures clauses == []
    {
      clauses := [];
    }
  }

  /** A model instance. */
  class Model {
    var pk: nat
    var column: Column
    var data: int

    constructor (pk: nat, column: Column, data: int)
      ensures this.pk == pk && this.column == column && this.data == data
    {
      this.pk, this.column, this.data := pk, column, data;
    }
  }

  datatype Attempt<T> = Ok(value: T) | Threw(why: Why)

  class ScopedTable {
    var context: Context
    var rows: Table

    /** `requireScope`: the tenant to scope to, nothing, or a throw. */
    method Require() returns (a: Attempt<Option<string>>)
      ensures context.bypassed ==> a == Ok(None)
      ensures !context.bypassed && context.tenant.Some? && context.tenant.value != "" ==> a == Ok(context.tenant)
      ensures !context.bypassed && (context.tenant.None? || context.tenant.value == "") ==>
                a == if context.strict then Threw(MissingScope) else Ok(None)
    {
      if context.bypassed {
        return Ok(None);
      }
      if context.tenant.Some? && context.tenant.value != "" {
        return Ok(context.tenant);
      }
      if context.strict {
        return Threw(MissingScope);
      }
      return Ok(None);
    }

    /** Adds the scope to a builder, in the wrapped `query()` and again in the read hooks. */
    method AddScope(builder: QueryBuilder) returns (a: Attempt<()>)
      modifies builder
      ensures a.Threw? <==> RequireScope(context).Refused?
      ensures a.Threw? ==> a.why == MissingScope && builder.clauses == old(builder.clauses)
      ensures a.Ok? ==> builder.clauses == old(builder.clauses) + Guard(RequireScope(context))
    {
      var scope := Require();
      if scope.Threw? {
        return Threw(scope.why);
      }
      if scope.value.Some? {
        var id := scope.value.value;
        builder.clauses := builder.clauses + [OwnerClause(id)];
      }
      return Ok(());
    }

    /** `query()`, and the caller's clauses after it. */
    method Query(cs: seq<Clause>) returns (a: Attempt<QueryBuilder>)
      ensures a.Threw? <==> RequireScope(context).Refused?
      ensures a.Threw? ==> a.why == MissingScope
      ensures a.Ok? ==> fresh(a.value) && a.value.clauses == Write(RequireScope(context), cs)
    {
      var builder := new QueryBuilder();
      var scoped := AddScope(builder);
      if scoped.Threw? {
        return Threw(scoped.why);
      }
      builder.clauses := builder.clauses + cs;
      return Ok(builder);
    }

    /** `find`, `fetch` and `paginate`: the query, the hook's clause, and what the caller sees of the matches. */
    method Select(cs: seq<Clause>, pick: Pick) returns (view: View)
      ensures (rows, view) == Do(context, rows, Op.Select(cs, pick))
    {
      var query := Query(cs);
      if query.Threw? {
        return Failed(query.why);
      }
      var hook := AddScope(query.value);
      if hook.Threw? {
        return Failed(hook.why);
      }
      var found := Matches(rows, query.value.clauses);
      return Rows(pick(found), |found|);
    }

    /** `query().update(...)`: no hook fires. */
    method UpdateWhere(cs: seq<Clause>, data: int) returns (view: View)
      modifies this`rows
      ensures (rows, view) == Do(context, old(rows), Op.UpdateWhere(cs, data))
    {
      var query := Query(cs);
      if query.Threw? {
        return Failed(query.why);
      }
      var hit := Matches(rows, query.value.clauses);
      rows := map pk | pk in rows :: if pk in hit then rows[pk].(data := data) else rows[pk];
      return Count(|hit|);
    }

    /** `query().delete()`: no hook fires. */
    method DeleteWhere(cs: seq<Clause>) returns (view: View)
      modifies this`rows
      ensures (rows, view) == Do(context, old(rows), Op.DeleteWhere(cs))
    {
      var query := Query(cs);
      if query.Threw? {
        return Failed(query.why);
      }
      var hit := Matches(rows, query.value.clauses);
      rows := rows - hit.Keys;
      return Count(|hit|);
    }

    /** Saving a new model: the create hook fills a missing owner in place. */
    method Create(model: Model) returns (view: View)
      modifies this`rows, model
      ensures (rows, view) == Do(context, old(rows), Op.Create(old(model.pk), old(model.column), old(model.data)))
      ensures model.pk == old(model.pk) && model.data == old(model.data)
      ensures RequireScope(context).Scoped? ==> model.column.Is? && model.column.owner.Some?
    {
      var scope := Require();
      if scope.Threw? {
        return Failed(scope.why);
      }
      if scope.value.Some? && (model.column.Undefined? || model.column.owner.None?) {
        model.column := Is(scope.value);
      }
      if model.pk in rows {
        return Failed(DuplicateKey);
      }
      rows := rows[model.pk := Row(if model.column.Is? then model.column.owner else None, model.data)];
      return Done;
    }

    /** Saving a model that exists. */
    method Save(model: Model) returns (view: View)
      modifies this`rows
      ensures (rows, view) == Do(context, old(rows), Op.Save(model.pk, model.column, model.data))
    {
      var scope := Require();
      if scope.Threw? {
        return Failed(scope.why);
      }
      if scope.value.Some? && model.column.Is? && model.column.owner != scope.value {
        return Failed(ForeignRow);
      }
      if model.pk in rows {
        var row := rows[model.pk];
        if model.column.Is? {
          row := row.(owner := model.column.owner);
        }
        row := row.(data := model.data);
        rows := rows[model.pk := row];
      }
      return Done;
    }

    method Delete(model: Model) returns (view: View)
      modifies this`rows
      ensures (rows, view) == Do(context, old(rows), Op.Delete(model.pk, model.column))
    {
      var scope := Require();
      if scope.Threw? {
        return Failed(scope.why);
      }
      if scope.value.Some? && model.column.Is? && model.column.owner != scope.value {
        return Failed(ForeignRow);
      }
      rows := rows - {model.pk};
      return Done;
    }
  }
}
