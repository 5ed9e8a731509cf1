/**
 * The table check of the SQL executor (apps/worker/src/chat/tools/sql-executor.ts, validateTableScopes) over the parts
 * of a parsed query that it looks at, and what the check means: a query that passes gives the same result on any two
 * databases that agree on the allowed tables.
 */
module TableScopes {
  import opened Common

  // A SELECT with its common table expressions, its sources, and everything else in it (columns, conditions, the next
  // SELECT of a UNION); a statement that writes; or any other syntax with parts.
  datatype Query =
    | Select(locks: bool, ctes: Ctes, sources: Sources, parts: Queries)
    | Write(parts: Queries)
    | Syntax(parts: Queries)
  datatype Queries = NoQueries | AndQuery(head: Query, rest: Queries)
  datatype Ctes = NoCtes | AndCte(name: string, stmt: Query, rest: Ctes)
  datatype Sources =
    | NoSources
    | AndTable(schema: string, name: string, parts: Queries, rest: Sources)
    | AndDerived(parts: Queries, rest: Sources)
    | AndUnknown(parts: Queries, rest: Sources)

  datatype ScopeError = WritesOrLocks | OnlySelect | OtherSchema | NotAllowed(table: string) | UnclearSource

  const PUBLIC := "public"

  // ---------- The check ----------

  function Check(q: Query, allowed: set<string>, scope: set<string>): Option<ScopeError> {
    match q
    case Write(_) => Some(OnlySelect)
    case Syntax(parts) => CheckAll(parts, allowed, scope)
    case Select(locks, ctes, sources, parts) =>
      if locks then Some(WritesOrLocks)
      else
        var c := CheckCtes(ctes, allowed, scope);
        if c.Some? then c
        else
          var inner := ScopeAfter(ctes, scope);
          var t := CheckTables(sources, allowed, inner);
          if t.Some? then t
          else
            var s := CheckSourceParts(sources, allowed, inner);
            if s.Some? then s else CheckAll(parts, allowed, inner)
  }

  function CheckAll(qs: Queries, allowed: set<string>, scope: set<string>): Option<ScopeError> {
    match qs
    case NoQueries => None
    case AndQuery(q, rest) =>
      var r := Check(q, allowed, scope);
      if r.Some? then r else CheckAll(rest, allowed, scope)
  }

  // Each common table expression sees those before it.
  function CheckCtes(ctes: Ctes, allowed: set<string>, scope: set<string>): Option<ScopeError> {
    match ctes
    case NoCtes => None
    case AndCte(name, stmt, rest) =>
      var r := Check(stmt, allowed, scope);
      if r.Some? then r else CheckCtes(rest, allowed, scope + {name})
  }

  function ScopeAfter(ctes: Ctes, scope: set<string>): set<string> {
    match ctes
    case NoCtes => scope
    case AndCte(name, _, rest) => ScopeAfter(rest, scope + {name})
  }

  function CheckTable(schema: string, name: string, allowed: set<string>, scope: set<string>): Option<ScopeError> {
    if schema != "" && schema != PUBLIC then Some(OtherSchema)
    else if !(schema == "" && name in scope) && name !in allowed then Some(NotAllowed(name))
    else None
  }

  function CheckTables(sources: Sources, allowed: set<string>, scope: set<string>): Option<ScopeError> {
    match sources
    case NoSources => None
    case AndTable(schema, name, _, rest) =>
      var r := CheckTable(schema, name, allowed, scope);
      if r.Some? then r else CheckTables(rest, allowed, scope)
    case AndDerived(_, rest) => CheckTables(rest, allowed, scope)
    case AndUnknown(_, _) => Some(UnclearSource)
  }

  function CheckSourceParts(sources: Sources, allowed: set<string>, scope: set<string>): Option<ScopeError> {
    match sources
    case NoSources => None
    case _ =>
      var r := CheckAll(sources.parts, allowed, scope);
      if r.Some? then r else CheckSourceParts(sources.rest, allowed, scope)
  }

  // The check as it runs: a set that grows with each common table expression, and one pass over the sources.
  method ValidateTableScopes(q: Query, allowed: set<string>, inherited: set<string>) returns (r: Option<ScopeError>)
    ensures r == Check(q, allowed, inherited)
    decreases q
  {
    if q.Write? {
      return Some(OnlySelect);
    }
    if q.Syntax? {
      r := ValidateAll(q.parts, allowed, inherited);
      return;
    }
    if q.locks {
      return Some(WritesOrLocks);
    }
    var scope := inherited;
    var ctes := q.ctes;
    while ctes.AndCte?
      invariant ctes == q.ctes || ctes < q.ctes
      invariant CheckCtes(q.ctes, allowed, inherited) == CheckCtes(ctes, allowed, scope)
      invariant ScopeAfter(q.ctes, inherited) == ScopeAfter(ctes, scope)
      decreases ctes
    {
      r := ValidateTableScopes(ctes.stmt, allowed, scope);
      if r.Some? {
        return;
      }
      scope := scope + {ctes.name};
      ctes := ctes.rest;
    }
    var sources := q.sources;
    while !sources.NoSources?
      invariant sources == q.sources || sources < q.sources
      invariant CheckTables(q.sources, allowed, scope) == CheckTables(sources, allowed, scope)
      decreases sources
    {
      if sources.AndTable? {
        if sources.schema != "" && sources.schema != PUBLIC {
          return Some(OtherSchema);
        }
        if !(sources.schema == "" && sources.name in scope) && sources.name !in allowed {
          return Some(NotAllowed(sources.name));
        }
      } else if sources.AndUnknown? {
        return Some(UnclearSource);
      }
      sources := sources.rest;
    }
    sources := q.sources;
    while !sources.NoSources?
      invariant sources == q.sources || sources < q.sources
      invariant CheckSourceParts(q.sources, allowed, scope) == CheckSourceParts(sources, allowed, scope)
      decreases sources
    {
      r := ValidateAll(sources.parts, allowed, scope);
      if r.Some? {
        return;
      }
      sources := sources.rest;
    }
    r := ValidateAll(q.parts, allowed, scope);
  }

  method ValidateAll(qs: Queries, allowed: set<string>, scope: set<string>) returns (r: Option<ScopeError>)
    ensures r == CheckAll(qs, allowed, scope)
    decreases qs
  {
    var left := qs;
    while left.AndQuery?
      invariant left == qs || left < qs
      invariant CheckAll(qs, allowed, scope) == CheckAll(left, allowed, scope)
      decreases left
    {
      r := ValidateTableScopes(left.head, allowed, scope);
      if r.Some? {
        return;
      }
      left := left.rest;
    }
    r := None;
  }

  // ---------- The meaning of a query ----------

  // Any way to compute results: from the common table expressions, the sources and the parts of a SELECT, and from the
  // parts of other syntax.
  datatype Meaning<!V> = Meaning(select: (seq<V>, seq<V>, seq<V>) -> V, syntax: seq<V> -> V)

  // The stored tables, by schema and name.
  type Database<!V> = (string, string) -> V

  function Schema(schema: string): string {
    if schema == "" then PUBLIC else schema
  }

  // An unqualified name means the common table expression in scope, and otherwise the stored table.
  function Read<V>(db: Database<V>, env: map<string, V>, schema: string, name: string): V {
    if schema == "" && name in env then env[name] else db(Schema(schema), name)
  }

  function Eval<V>(m: Meaning<V>, db: Database<V>, env: map<string, V>, q: Query): V
    decreases q
  {
    match q
    case Write(parts) => m.syntax(EvalAll(m, db, env, parts))
    case Syntax(parts) => m.syntax(EvalAll(m, db, env, parts))
    case Select(_, ctes, sources, parts) =>
      var inner := EnvAfter(m, db, env, ctes);
      m.select(EvalCtes(m, db, env, ctes), EvalSources(m, db, inner, sources), EvalAll(m, db, inner, parts))
  }

  function EvalAll<V>(m: Meaning<V>, db: Database<V>, env: map<string, V>, qs: Queries): seq<V>
    decreases qs
  {
    match qs
    case NoQueries => []
    case AndQuery(q, rest) => [Eval(m, db, env, q)] + EvalAll(m, db, env, rest)
  }

  function EnvAfter<V>(m: Meaning<V>, db: Database<V>, env: map<string, V>, ctes: Ctes): map<string, V>
    decreases ctes
  {
    match ctes
    case NoCtes => env
    case AndCte(name, stmt, rest) => EnvAfter(m, db, env[name := Eval(m, db, env, stmt)], rest)
  }

  function EvalCtes<V>(m: Meaning<V>, db: Database<V>, env: map<string, V>, ctes: Ctes): seq<V>
    decreases ctes
  {
    match ctes
    case NoCtes => []
    case AndCte(name, stmt, rest) =>
      var v := Eval(m, db, env, stmt);
      [v] + EvalCtes(m, db, env[name := v], rest)
  }

  function EvalSources<V>(m: Meaning<V>, db: Database<V>, env: map<string, V>, sources: Sources): seq<V>
    decreases sources
  {
    match sources
    case NoSources => []
    case AndTable(schema, name, parts, rest) =>
      [Read(db, env, schema, name)] + EvalAll(m, db, env, parts) + EvalSources(m, db, env, rest)
    case AndDerived(parts, rest) => EvalAll(m, db, env, parts) + EvalSources(m, db, env, rest)
    case AndUnknown(parts, rest) => EvalAll(m, db, env, parts) + EvalSources(m, db, env, rest)
  }

  // ---------- Soundness ----------

  ghost predicate Agree<V>(x: Database<V>, y: Database<V>, allowed: set<string>) {
    forall name :: name in allowed ==> x(PUBLIC, name) == y(PUBLIC, name)
  }

  // The names the evaluation has in scope are exactly those the check has collected.
  lemma {:induction false} ScopeIsEnvironment<V>(m: Meaning<V>, db: Database<V>, env: map<string, V>, ctes: Ctes)
    ensures EnvAfter(m, db, env, ctes).Keys == ScopeAfter(ctes, env.Keys)
    decreases ctes
  {
    match ctes
    case NoCtes =>
    case AndCte(name, stmt, rest) =>
      assert env[name := Eval(m, db, env, stmt)].Keys == env.Keys + {name};
      ScopeIsEnvironment(m, db, env[name := Eval(m, db, env, stmt)], rest);
  }

  lemma {:induction false} EvalAgrees<V>(m: Meaning<V>, x: Database<V>, y: Database<V>, env: map<string, V>,
      allowed: set<string>, q: Query)
    requires Agree(x, y, allowed) && Check(q, allowed, env.Keys).None?
    ensures Eval(m, x, env, q) == Eval(m, y, env, q)
    decreases q
  {
    match q
    case Syntax(parts) => AllAgree(m, x, y, env, allowed, parts);
    case Select(_, ctes, sources, parts) =>
      CtesAgree(m, x, y, env, allowed, ctes);
      var inner := EnvAfter(m, x, env, ctes);
      ScopeIsEnvironment(m, x, env, ctes);
      SourcesAgree(m, x, y, inner, allowed, sources);
      AllAgree(m, x, y, inner, allowed, parts);
  }

  lemma {:induction false} AllAgree<V>(m: Meaning<V>, x: Database<V>, y: Database<V>, env: map<string, V>,
      allowed: set<string>, qs: Queries)
    requires Agree(x, y, allowed) && CheckAll(qs, allowed, env.Keys).None?
    ensures EvalAll(m, x, env, qs) == EvalAll(m, y, env, qs)
    decreases qs
  {
    if qs.AndQuery? {
      EvalAgrees(m, x, y, env, allowed, qs.head);
      AllAgree(m, x, y, env, allowed, qs.rest);
    }
  }

  lemma {:induction false} CtesAgree<V>(m: Meaning<V>, x: Database<V>, y: Database<V>, env: map<string, V>,
      allowed: set<string>, ctes: Ctes)
    requires Agree(x, y, allowed) && CheckCtes(ctes, allowed, env.Keys).None?
    ensures EnvAfter(m, x, env, ctes) == EnvAfter(m, y, env, ctes)
          && EvalCtes(m, x, env, ctes) == EvalCtes(m, y, env, ctes)
    decreases ctes
  {
    if ctes.AndCte? {
      EvalAgrees(m, x, y, env, allowed, ctes.stmt);
      var next := env[ctes.name := Eval(m, x, env, ctes.stmt)];
      assert next.Keys == env.Keys + {ctes.name};
      CtesAgree(m, x, y, next, allowed, ctes.rest);
    }
  }

  lemma {:induction false} SourcesAgree<V>(m: Meaning<V>, x: Database<V>, y: Database<V>, env: map<string, V>,
      allowed: set<string>, sources: Sources)
    requires Agree(x, y, allowed)
    requires CheckTables(sources, allowed, env.Keys).None? && CheckSourceParts(sources, allowed, env.Keys).None?
    ensures EvalSources(m, x, env, sources) == EvalSources(m, y, env, sources)
    decreases sources
  {
    if !sources.NoSources? {
      AllAgree(m, x, y, env, allowed, sources.parts);
      SourcesAgree(m, x, y, env, allowed, sources.rest);
    }
  }

  // A query that passes the check depends on the allowed tables alone, whatever SQL's operators mean.
  lemma AcceptedReadsOnlyAllowed<V>(m: Meaning<V>, x: Database<V>, y: Database<V>, allowed: set<string>, q: Query)
    requires Agree(x, y, allowed) && Check(q, allowed, {}).None?
    ensures Eval(m, x, map[], q) == Eval(m, y, map[], q)
  {
    var env: map<string, V> := map[];
    assert env.Keys == {};
    EvalAgrees(m, x, y, env, allowed, q);
  }

  // ---------- Exactness ----------

  // The stored tables that a query names, by its own account of what is in scope where.
  function Refs(q: Query, scope: set<string>): set<string> {
    match q
    case Write(parts) => RefsAll(parts, scope)
    case Syntax(parts) => RefsAll(parts, scope)
    case Select(_, ctes, sources, parts) =>
      RefsCtes(ctes, scope) + RefsSources(sources, ScopeAfter(ctes, scope)) + RefsAll(parts, ScopeAfter(ctes, scope))
  }

  function RefsAll(qs: Queries, scope: set<string>): set<string> {
    match qs
    case NoQueries => {}
    case AndQuery(q, rest) => Refs(q, scope) + RefsAll(rest, scope)
  }

  function RefsCtes(ctes: Ctes, scope: set<string>): set<string> {
    match ctes
    case NoCtes => {}
    case AndCte(name, stmt, rest) => Refs(stmt, scope) + RefsCtes(rest, scope + {name})
  }

  function RefsSources(sources: Sources, scope: set<string>): set<string> {
    match sources
    case NoSources => {}
    case AndTable(schema, name, parts, rest) =>
      (if schema == "" && name in scope then {} else {name}) + RefsAll(parts, scope) + RefsSources(rest, scope)
    case AndDerived(parts, rest) => RefsAll(parts, scope) + RefsSources(rest, scope)
    case AndUnknown(parts, rest) => RefsAll(parts, scope) + RefsSources(rest, scope)
  }

  // No writing, no locking, no other schema, no source of unknown kind, anywhere.
  predicate Plain(q: Query) {
    match q
    case Write(_) => false
    case Syntax(parts) => PlainAll(parts)
    case Select(locks, ctes, sources, parts) => !locks && PlainCtes(ctes) && PlainSources(sources) && PlainAll(parts)
  }

  predicate PlainAll(qs: Queries) {
    match qs
    case NoQueries => true
    case AndQuery(q, rest) => Plain(q) && PlainAll(rest)
  }

  predicate PlainCtes(ctes: Ctes) {
    match ctes
    case NoCtes => true
    case AndCte(_, stmt, rest) => Plain(stmt) && PlainCtes(rest)
  }

  predicate PlainSources(sources: Sources) {
    match sources
    case NoSources => true
    case AndTable(schema, _, parts, rest) => (schema == "" || schema == PUBLIC) && PlainAll(parts) && PlainSources(rest)
    case AndDerived(parts, rest) => PlainAll(parts) && PlainSources(rest)
    case AndUnknown(_, _) => false
  }

  lemma {:induction false} CheckIsExact(q: Query, allowed: set<string>, scope: set<string>)
    ensures Check(q, allowed, scope).None? <==> Plain(q) && Refs(q, scope) <= allowed
    decreases q
  {
    match q
    case Write(_) =>
    case Syntax(parts) => AllExact(parts, allowed, scope);
    case Select(_, ctes, sources, parts) =>
      CtesExact(ctes, allowed, scope);
      SourcesExact(sources, allowed, ScopeAfter(ctes, scope));
      AllExact(parts, allowed, ScopeAfter(ctes, scope));
  }

  lemma {:induction false} AllExact(qs: Queries, allowed: set<string>, scope: set<string>)
    ensures CheckAll(qs, allowed, scope).None? <==> PlainAll(qs) && RefsAll(qs, scope) <= allowed
    decreases qs
  {
    if qs.AndQuery? {
      CheckIsExact(qs.head, allowed, scope);
      AllExact(qs.rest, allowed, scope);
    }
  }

  lemma {:induction false} CtesExact(ctes: Ctes, allowed: set<string>, scope: set<string>)
    ensures CheckCtes(ctes, allowed, scope).None? <==> PlainCtes(ctes) && RefsCtes(ctes, scope) <= allowed
    decreases ctes
  {
    if ctes.AndCte? {
      CheckIsExact(ctes.stmt, allowed, scope);
      CtesExact(ctes.rest, allowed, scope + {ctes.name});
    }
  }

  lemma {:induction false} SourcesExact(sources: Sources, allowed: set<string>, scope: set<string>)
    ensures CheckTables(sources, allowed, scope).None? && CheckSourceParts(sources, allowed, scope).None?
            <==> PlainSources(sources) && RefsSources(sources, scope) <= allowed
    decreases sources
  {
    if !sources.NoSources? {
      AllExact(sources.parts, allowed, scope);
      SourcesExact(sources.rest, allowed, scope);
    }
  }

  // ---------- A refused table can make a difference ----------

  // Results as sets of table names: everything adds up what it is computed from.
  function Union(parts: seq<set<string>>): set<string> {
    if parts == [] then {} else parts[0] + Union(parts[1..])
  }

  lemma {:induction false} UnionConcat(a: seq<set<string>>, b: seq<set<string>>)
    ensures Union(a + b) == Union(a) + Union(b)
  {
    if a == [] {
      assert a + b == b;
    } else {
      assert (a + b)[1..] == a[1..] + b;
      UnionConcat(a[1..], b);
    }
  }

  function Tracing(): Meaning<set<string>> {
    Meaning((ctes: seq<set<string>>, sources: seq<set<string>>, parts: seq<set<string>>) =>
        Union(ctes) + Union(sources) + Union(parts),
            (parts: seq<set<string>>) => Union(parts))
  }

  function Marked(table: string): Database<set<string>> {
    (schema: string, name: string) => if name == table then {table} else {}
  }

  function Unmarked(): Database<set<string>> {
    (schema: string, name: string) => {}
  }

  ghost predicate AllEmpty(env: map<string, set<string>>) {
    forall k :: k in env ==> env[k] == {}
  }

  lemma {:induction false} TraceNothing(env: map<string, set<string>>, q: Query)
    requires AllEmpty(env)
    ensures Eval(Tracing(), Unmarked(), env, q) == {}
    decreases q
  {
    match q
    case Write(parts) => TraceNothingAll(env, parts);
    case Syntax(parts) => TraceNothingAll(env, parts);
    case Select(_, ctes, sources, parts) =>
      TraceNothingCtes(env, ctes);
      var inner := EnvAfter(Tracing(), Unmarked(), env, ctes);
      TraceNothingSources(inner, sources);
      TraceNothingAll(inner, parts);
  }

  lemma {:induction false} TraceNothingAll(env: map<string, set<string>>, qs: Queries)
    requires AllEmpty(env)
    ensures Union(EvalAll(Tracing(), Unmarked(), env, qs)) == {}
    decreases qs
  {
    if qs.AndQuery? {
      TraceNothing(env, qs.head);
      TraceNothingAll(env, qs.rest);
    }
  }

  lemma {:induction false} TraceNothingCtes(env: map<string, set<string>>, ctes: Ctes)
    requires AllEmpty(env)
    ensures AllEmpty(EnvAfter(Tracing(), Unmarked(), env, ctes))
          && Union(EvalCtes(Tracing(), Unmarked(), env, ctes)) == {}
    decreases ctes
  {
    if ctes.AndCte? {
      TraceNothing(env, ctes.stmt);
      TraceNothingCtes(env[ctes.name := Eval(Tracing(), Unmarked(), env, ctes.stmt)], ctes.rest);
    }
  }

  lemma {:induction false} TraceNothingSources(env: map<string, set<string>>, sources: Sources)
    requires AllEmpty(env)
    ensures Union(EvalSources(Tracing(), Unmarked(), env, sources)) == {}
    decreases sources
  {
    if !sources.NoSources? {
      TraceNothingAll(env, sources.parts);
      TraceNothingSources(env, sources.rest);
      UnionConcat(EvalAll(Tracing(), Unmarked(), env, sources.parts),
          EvalSources(Tracing(), Unmarked(), env, sources.rest));
      if sources.AndTable? {
        var head := [Read(Unmarked(), env, sources.schema, sources.name)]
            + EvalAll(Tracing(), Unmarked(), env, sources.parts);
        UnionConcat(head, EvalSources(Tracing(), Unmarked(), env, sources.rest));
        assert head[1..] == EvalAll(Tracing(), Unmarked(), env, sources.parts);
      }
    }
  }

  lemma {:induction false} TraceMarks(env: map<string, set<string>>, q: Query, table: string)
    requires table in Refs(q, env.Keys)
    ensures table in Eval(Tracing(), Marked(table), env, q)
    decreases q
  {
    match q
    case Write(parts) => TraceMarksAll(env, parts, table);
    case Syntax(parts) => TraceMarksAll(env, parts, table);
    case Select(_, ctes, sources, parts) =>
      var inner := EnvAfter(Tracing(), Marked(table), env, ctes);
      ScopeIsEnvironment(Tracing(), Marked(table), env, ctes);
      if table in RefsCtes(ctes, env.Keys) {
        TraceMarksCtes(env, ctes, table);
      } else if table in RefsSources(sources, inner.Keys) {
        TraceMarksSources(inner, sources, table);
      } else {
        TraceMarksAll(inner, parts, table);
      }
  }

  lemma {:induction false} TraceMarksAll(env: map<string, set<string>>, qs: Queries, table: string)
    requires table in RefsAll(qs, env.Keys)
    ensures table in Union(EvalAll(Tracing(), Marked(table), env, qs))
    decreases qs
  {
    if table in Refs(qs.head, env.Keys) {
      TraceMarks(env, qs.head, table);
    } else {
      TraceMarksAll(env, qs.rest, table);
    }
  }

  lemma {:induction false} TraceMarksCtes(env: map<string, set<string>>, ctes: Ctes, table: string)
    requires table in RefsCtes(ctes, env.Keys)
    ensures table in Union(EvalCtes(Tracing(), Marked(table), env, ctes))
    decreases ctes
  {
    if table in Refs(ctes.stmt, env.Keys) {
      TraceMarks(env, ctes.stmt, table);
    } else {
      var next := env[ctes.name := Eval(Tracing(), Marked(table), env, ctes.stmt)];
      assert next.Keys == env.Keys + {ctes.name};
      TraceMarksCtes(next, ctes.rest, table);
    }
  }

  lemma {:induction false} TraceMarksSources(env: map<string, set<string>>, sources: Sources, table: string)
    requires table in RefsSources(sources, env.Keys)
    ensures table in Union(EvalSources(Tracing(), Marked(table), env, sources))
    decreases sources
  {
    var m, db := Tracing(), Marked(table);
    var own, rest := EvalAll(m, db, env, sources.parts), EvalSources(m, db, env, sources.rest);
    if table in RefsAll(sources.parts, env.Keys) {
      TraceMarksAll(env, sources.parts, table);
    } else if table in RefsSources(sources.rest, env.Keys) {
      TraceMarksSources(env, sources.rest, table);
    }
    UnionConcat(own, rest);
    if sources.AndTable? {
      var head := [Read(db, env, sources.schema, sources.name)] + own;
      UnionConcat(head, rest);
      assert head[1..] == own;
    }
  }

  // The check refuses no table without reason: for some meaning of SQL's operators, two databases that agree on all
  // allowed tables give the query different results.
  lemma RefusedTableMatters(allowed: set<string>, q: Query)
    requires Plain(q) && Check(q, allowed, {}).Some?
    ensures exists m: Meaning<set<string>>, x: Database<set<string>>, y: Database<set<string>> ::
              Agree(x, y, allowed) && Eval(m, x, map[], q) != Eval(m, y, map[], q)
  {
    CheckIsExact(q, allowed, {});
    var table :| table in Refs(q, {}) && table !in allowed;
    var env: map<string, set<string>> := map[];
    assert env.Keys == {};
    TraceMarks(env, q, table);
    TraceNothing(env, q);
    assert Agree(Marked(table), Unmarked(), allowed);
    assert Eval(Tracing(), Marked(table), env, q) != Eval(Tracing(), Unmarked(), env, q);
  }
}
