/**
 * The ordering logic of the sandbox copier (lib/db_sandbox_creator.py):
 * which tables a table depends on, read off its CREATE statement, and the
 * depth-first resolution that lists every table after the tables it
 * depends on, failing on a cycle.
 *
 * The connection, `SHOW TABLES` and `SHOW CREATE TABLE` are not modelled:
 * the table names and their CREATE texts are parameters.
 */
module Sandbox {
  import opened Wrappers
  import opened Text
  import opened OrderedMaps

  /** `dependencies`: each table with the tables it depends on, in the order of `tables`. */
  type Dependencies = seq<(string, seq<string>)>

  // ---------------------------------------------------------------- get_table_dependencies

  /** The tables, in order, other than `table` whose names occur in `stmt`. */
  function Referenced(tables: seq<string>, table: string, stmt: string): (r: seq<string>)
    ensures forall o :: o in r <==> o in tables && o != table && Contains(stmt, o)
    ensures |r| <= |tables|
  {
    if |tables| == 0 then []
    else
      var o := tables[|tables| - 1];
      Referenced(tables[..|tables| - 1], table, stmt) + (if Contains(stmt, o) && o != table then [o] else [])
  }

  /**
   * get_table_dependencies, given the table names and the CREATE statement
   * of each: a dependency is any other table whose name is a substring of
   * the statement, so the test is textual, not a parse of the foreign keys.
   */
  method TableDependencies(tables: seq<string>, creates: seq<string>) returns (deps: Dependencies)
    requires |creates| == |tables| && Distinct(tables)
    ensures Keys(deps) == tables
    ensures forall i :: 0 <= i < |deps| ==> deps[i].1 == Referenced(tables, tables[i], creates[i])
  {
    deps := seq(|tables|, i requires 0 <= i < |tables| => (tables[i], []));
    for i := 0 to |tables|
      invariant |deps| == |tables|
      invariant forall k :: 0 <= k < |tables| ==> deps[k].0 == tables[k]
      invariant forall k :: 0 <= k < i ==> deps[k].1 == Referenced(tables, tables[k], creates[k])
      invariant forall k :: i <= k < |tables| ==> deps[k].1 == []
    {
      var table, stmt := tables[i], creates[i];
      var found: seq<string> := [];
      for j := 0 to |tables|
        invariant found == Referenced(tables[..j], table, stmt)
      {
        var other := tables[j];
        assert tables[..j + 1][..j] == tables[..j];
        if Contains(stmt, other) && other != table {
          found := found + [other];
        }
      }
      assert tables[..|tables|] == tables;
      deps := deps[i := (table, found)];
    }
  }

  /** A table depends on another exactly when the other is a different table named in its statement. */
  lemma DependsExactly(tables: seq<string>, creates: seq<string>, deps: Dependencies, i: nat, o: string)
    requires |creates| == |tables| && i < |tables| && Distinct(tables)
    requires Keys(deps) == tables
    requires forall k :: 0 <= k < |deps| ==> deps[k].1 == Referenced(tables, tables[k], creates[k])
    ensures o in DepsOf(deps, tables[i]) <==> o in tables && o != tables[i] && Contains(creates[i], o)
  {
    assert deps[i].0 == tables[i];
    LookupAt(deps, i);
  }

  // ---------------------------------------------------------------- resolve_dependencies

  /** `dependencies[t]`, with no dependencies for a name that is not a key. */
  function DepsOf(deps: Dependencies, t: string): seq<string> {
    match Lookup(deps, t)
    case Some(ds) => ds
    case None => []
  }

  /** With distinct keys, the lookup of the i-th key finds the i-th list. */
  lemma {:induction false} LookupAt(deps: Dependencies, i: nat)
    requires i < |deps| && Distinct(Keys(deps))
    ensures Lookup(deps, deps[i].0) == Some(deps[i].1)
  {
    if i > 0 {
      assert Keys(deps[1..]) == Keys(deps)[1..];
      assert deps[0].0 != deps[i].0;
      LookupAt(deps[1..], i - 1);
    }
  }

  /** A walk along dependency edges: each element depends on the next. */
  ghost predicate IsPath(deps: Dependencies, p: seq<string>) {
    |p| > 0 && forall i :: 0 <= i < |p| - 1 ==> p[i + 1] in DepsOf(deps, p[i])
  }

  /** Some table reaches itself along one or more dependency edges. */
  ghost predicate HasCycle(deps: Dependencies) {
    exists p :: IsPath(deps, p) && |p| > 1 && p[0] == p[|p| - 1]
  }

  /** Every dependency named is itself a table. */
  ghost predicate DependenciesAreTables(deps: Dependencies) {
    forall t, d :: t in Keys(deps) && d in DepsOf(deps, t) ==> d in Keys(deps)
  }

  /** Each table comes after every table it depends on. */
  ghost predicate DependenciesFirst(deps: Dependencies, order: seq<string>) {
    forall i, d :: 0 <= i < |order| && d in DepsOf(deps, order[i]) ==> d in order[..i]
  }

  datatype ResolveError =
    | CycleError(table: string, dep: string)  // the Exception naming the edge table -> dep
    | MissingTable(name: string)              // the KeyError of `dependencies[name]`

  /** What each error says about the dependency graph. */
  ghost predicate Explains(deps: Dependencies, e: ResolveError) {
    match e
    case CycleError(t, d) =>
      d in DepsOf(deps, t) && exists p :: IsPath(deps, p) && p[0] == d && p[|p| - 1] == t
    case MissingTable(n) =>
      n !in Keys(deps) && exists t :: t in Keys(deps) && n in DepsOf(deps, t)
  }

  /** An edge that closes a path is a cycle, and a name outside the keys is a missing table. */
  lemma ErrorsAreReal(deps: Dependencies, e: ResolveError)
    requires Explains(deps, e)
    ensures e.CycleError? ==> HasCycle(deps)
    ensures e.MissingTable? ==> !DependenciesAreTables(deps)
  {
    if e.CycleError? {
      var p :| IsPath(deps, p) && p[0] == e.dep && p[|p| - 1] == e.table;
      var q := p + [e.dep];
      assert IsPath(deps, q) by {
        forall i | 0 <= i < |q| - 1
          ensures q[i + 1] in DepsOf(deps, q[i])
        {
          if i < |p| - 1 {
            assert q[i] == p[i] && q[i + 1] == p[i + 1];
          }
        }
      }
      assert q[0] == q[|q| - 1];
    }
  }

  /** The stack of tables being resolved, each a dependency of the one before. */
  ghost predicate Chain(deps: Dependencies, u: seq<string>) {
    forall i :: 0 <= i < |u| - 1 ==> u[i + 1] in DepsOf(deps, u[i])
  }

  /** The tail of the stack from any table on it is a path to the top of the stack. */
  lemma ChainSuffixIsPath(deps: Dependencies, u: seq<string>, j: nat)
    requires Chain(deps, u) && j < |u|
    ensures IsPath(deps, u[j..]) && u[j..][0] == u[j] && u[j..][|u[j..]| - 1] == u[|u| - 1]
  {
    var p := u[j..];
    forall i | 0 <= i < |p| - 1
      ensures p[i + 1] in DepsOf(deps, p[i])
    {
      assert p[i] == u[j + i] && p[i + 1] == u[j + i + 1];
    }
  }

  /** `list.remove(x)`: drops the first occurrence of x. */
  function Remove(xs: seq<string>, x: string): (r: seq<string>)
    ensures x !in xs ==> r == xs
    ensures x in xs ==> |r| == |xs| - 1
  {
    if |xs| == 0 then []
    else if xs[0] == x then xs[1..]
    else [xs[0]] + Remove(xs[1..], x)
  }

  /** Removing the last element of a list with no repeats leaves the rest. */
  lemma {:induction false} RemoveLast(xs: seq<string>, x: string)
    requires Distinct(xs + [x])
    ensures Remove(xs + [x], x) == xs
  {
    if |xs| > 0 {
      assert (xs + [x])[0] == xs[0] && (xs + [x])[|xs|] == x;
      assert xs[0] != x;
      assert (xs + [x])[1..] == xs[1..] + [x];
      assert Distinct(xs[1..] + [x]) by {
        forall i, j | 0 <= i < j < |xs[1..] + [x]|
          ensures (xs[1..] + [x])[i] != (xs[1..] + [x])[j]
        {
          assert (xs[1..] + [x])[i] == (xs + [x])[i + 1];
          assert (xs[1..] + [x])[j] == (xs + [x])[j + 1];
        }
      }
      RemoveLast(xs[1..], x);
    }
  }

  /**
   * The state `resolve` keeps between calls: `resolved` holds each table at
   * most once after its dependencies, `unresolved` is the stack of tables
   * being visited, and no table is in both.
   */
  ghost predicate Consistent(deps: Dependencies, resolved: seq<string>, unresolved: seq<string>) {
    && Distinct(Keys(deps)) && Distinct(resolved) && Distinct(unresolved)
    && (forall x :: x in resolved ==> x in Keys(deps) && x !in unresolved)
    && (forall x :: x in unresolved ==> x in Keys(deps))
    && Chain(deps, unresolved)
    && DependenciesFirst(deps, resolved)
  }

  /** Pushing a new table that the top of the stack depends on keeps the state consistent. */
  lemma PushKeepsConsistent(deps: Dependencies, resolved: seq<string>, unresolved: seq<string>, t: string)
    requires Consistent(deps, resolved, unresolved)
    requires t in Keys(deps) && t !in resolved && t !in unresolved
    requires unresolved != [] ==> t in DepsOf(deps, unresolved[|unresolved| - 1])
    ensures Consistent(deps, resolved, unresolved + [t])
  {
    var u := unresolved + [t];
    forall i | 0 <= i < |u| - 1
      ensures u[i + 1] in DepsOf(deps, u[i])
    {
      if i < |unresolved| - 1 {
        assert u[i] == unresolved[i] && u[i + 1] == unresolved[i + 1];
      }
    }
  }

  /** Once all its dependencies are resolved, moving the top table from the stack to `resolved` keeps the state consistent. */
  lemma FinishKeepsConsistent(deps: Dependencies, resolved: seq<string>, below: seq<string>, t: string)
    requires Consistent(deps, resolved, below + [t])
    requires forall d :: d in DepsOf(deps, t) ==> d in resolved
    ensures Consistent(deps, resolved + [t], below)
  {
    var r := resolved + [t];
    assert t in below + [t] && forall x :: x in below ==> x in below + [t];
    assert t !in resolved;
    forall j | 0 <= j < |below|
      ensures below[j] != t
    {
      assert (below + [t])[j] == below[j] && (below + [t])[|below|] == t;
    }
    forall i, j | 0 <= i < j < |r|
      ensures r[i] != r[j]
    {
      if j < |resolved| {
        assert r[i] == resolved[i] && r[j] == resolved[j];
      } else {
        assert r[i] in resolved;
      }
    }
    forall i, d | 0 <= i < |r| && d in DepsOf(deps, r[i])
      ensures d in r[..i]
    {
      if i < |resolved| {
        assert r[..i] == resolved[..i];
      } else {
        assert r[..i] == resolved;
      }
    }
    forall i | 0 <= i < |below| - 1
      ensures below[i + 1] in DepsOf(deps, below[i])
    {
      assert (below + [t])[i] == below[i] && (below + [t])[i + 1] == below[i + 1];
    }
    forall i, j | 0 <= i < j < |below|
      ensures below[i] != below[j]
    {
      assert (below + [t])[i] == below[i] && (below + [t])[j] == below[j];
    }
  }

  /** The closure `resolve` of resolve_dependencies, with the `resolved` and `unresolved` lists it shares. */
  class Resolver {
    const deps: Dependencies
    var resolved: seq<string>
    var unresolved: seq<string>

    ghost predicate Valid()
      reads this
    {
      Consistent(deps, resolved, unresolved)
    }

    /** The tables neither resolved nor being resolved: what is left to visit. */
    ghost function Unvisited(): set<string>
      reads this
    {
      set k | k in Keys(deps) && k !in resolved && k !in unresolved
    }

    constructor(deps: Dependencies)
      requires Distinct(Keys(deps))
      ensures this.deps == deps && resolved == [] && unresolved == []
      ensures Valid()
    {
      this.deps := deps;
      resolved := [];
      unresolved := [];
    }

    /**
     * resolve(table): push table on the stack, resolve its dependencies,
     * then move it to `resolved`. On success the stack is as it was and
     * `resolved` has only grown; on failure the error explains itself.
     */
    method Resolve(table: string) returns (r: Result<(), ResolveError>)
      requires Valid() && table !in unresolved
      requires unresolved == [] ==> table in Keys(deps)
      requires unresolved != [] ==> table in DepsOf(deps, unresolved[|unresolved| - 1])
      modifies this
      decreases Unvisited(), 0
      ensures r.Ok? ==> Valid() && table in resolved
      ensures r.Ok? ==> unresolved == old(unresolved) && old(resolved) <= resolved
      ensures r.Err? ==> Explains(deps, r.error)
    {
      if table in resolved {
        return Ok(());
      }
      if table !in Keys(deps) {
        assert Explains(deps, MissingTable(table)) by {
          assert unresolved[|unresolved| - 1] in Keys(deps);
        }
        unresolved := unresolved + [table];
        return Err(MissingTable(table));
      }
      ghost var below := unresolved;
      PushKeepsConsistent(deps, resolved, unresolved, table);
      unresolved := unresolved + [table];
      assert table in old(Unvisited()) && table !in Unvisited();
      r := ResolveDeps(table, below);
      if r.Err? {
        return;
      }
      FinishKeepsConsistent(deps, resolved, below, table);
      resolved := resolved + [table];
      RemoveLast(below, table);
      unresolved := Remove(unresolved, table);
    }

    /** The loop of resolve over `dependencies[table]`, with table on top of the stack. */
    method ResolveDeps(table: string, ghost below: seq<string>) returns (r: Result<(), ResolveError>)
      requires Valid() && unresolved == below + [table] && table !in resolved && table in Keys(deps)
      modifies this
      decreases Unvisited(), 1
      ensures r.Ok? ==> Valid() && unresolved == old(unresolved) && old(resolved) <= resolved
      ensures r.Ok? ==> table !in resolved && forall d :: d in DepsOf(deps, table) ==> d in resolved
      ensures r.Err? ==> Explains(deps, r.error)
    {
      ghost var before := resolved;
      var ds := DepsOf(deps, table);
      for i := 0 to |ds|
        invariant Valid() && unresolved == below + [table] && table !in resolved
        invariant before <= resolved
        invariant forall k :: 0 <= k < i ==> ds[k] in resolved
        invariant Unvisited() <= old(Unvisited())
      {
        var dep := ds[i];
        if dep !in resolved {
          if dep in unresolved {
            assert Explains(deps, CycleError(table, dep)) by {
              var j :| 0 <= j < |unresolved| && unresolved[j] == dep;
              ChainSuffixIsPath(deps, unresolved, j);
            }
            return Err(CycleError(table, dep));
          }
          ghost var mid := resolved;
          var sub := Resolve(dep);
          if sub.Err? {
            return sub;
          }
          assert Unvisited() <= set k | k in Keys(deps) && k !in mid && k !in unresolved;
        }
      }
      r := Ok(());
    }
  }

  /**
   * resolve_dependencies: the tables in an order where each comes after
   * its dependencies, each exactly once; an error only on a real cycle or
   * a dependency that is not a table.
   */
  method ResolveDependencies(deps: Dependencies) returns (r: Result<seq<string>, ResolveError>)
    requires Distinct(Keys(deps))
    ensures r.Ok? ==> Distinct(r.value) && (forall t :: t in r.value <==> t in Keys(deps))
    ensures r.Ok? ==> DependenciesFirst(deps, r.value)
    ensures r.Err? ==> Explains(deps, r.error)
    ensures !HasCycle(deps) && DependenciesAreTables(deps) ==> r.Ok?
  {
    var res := new Resolver(deps);
    for i := 0 to |deps|
      invariant res.deps == deps && res.Valid() && res.unresolved == []
      invariant forall k :: 0 <= k < i ==> deps[k].0 in res.resolved
    {
      var x := res.Resolve(deps[i].0);
      if x.Err? {
        ErrorsAreReal(deps, x.error);
        return Err(x.error);
      }
    }
    assert forall t :: t in Keys(deps) ==> t in res.resolved;
    return Ok(res.resolved);
  }
}
