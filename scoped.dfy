/** The interpreter the declared fields and the `// TODO` in `run_stmt`
    point to, and which the method bodies do not implement yet: a `Block`
    pushes a fresh table onto `symbol_tables`, runs its body, and pops
    that table again on every way out, normal or panic. Assignment and
    `Print` are exactly as in `Semantics`. This module is kept apart from
    the model of the code as written, which it is compared with. */
module ScopedDraft {
  import opened Ast
  import opened Semantics

  /** `run_stmt` with block scoping. Only the innermost table can change;
      a `Block` leaves every table as it found it. */
  function ScopedExecStmt(c: Config, s: Stmt): (r: Outcome)
    requires |c.tables| > 0
    ensures |r.config.tables| == |c.tables|
    ensures r.config.tables[..|c.tables| - 1] == c.tables[..|c.tables| - 1]
    ensures s.Block? ==> r.config.tables == c.tables
    ensures c.out <= r.config.out
    decreases s
  {
    match s
    case Block(ss) =>
      var inner := ScopedExecStmts(c.(tables := c.tables + [map[]]), ss);
      assert inner.config.tables[..|c.tables|] == (c.tables + [map[]])[..|c.tables|];
      assert (c.tables + [map[]])[..|c.tables|] == c.tables;
      Outcome(inner.status, inner.config.(tables := inner.config.tables[..|c.tables|]))
    case SubStmt(_, _) => ExecStmt(c, s)
    case Print(_) => ExecStmt(c, s)
  }

  /** A statement list under block scoping; a panic stops it. */
  function ScopedExecStmts(c: Config, ss: seq<Stmt>): (r: Outcome)
    requires |c.tables| > 0
    ensures |r.config.tables| == |c.tables|
    ensures r.config.tables[..|c.tables| - 1] == c.tables[..|c.tables| - 1]
    ensures c.out <= r.config.out
    decreases ss
  {
    if ss == [] then Outcome(Completed, c)
    else
      var o := ScopedExecStmt(c, ss[0]);
      if o.status.Aborted? then o else ScopedExecStmts(o.config, ss[1..])
  }

  /** A whole program under block scoping, from the root table. */
  function ScopedRun(p: Program): (r: Outcome)
    ensures |r.config.tables| == 1
  {
    ScopedExecStmts(Config([map[]], []), p.stmts)
  }

  /** Shadowing: after a block, every name (in particular one the block
      assigned) yields what it yielded before the block, whether the block
      completed or panicked; only output may differ. */
  lemma ScopedBlockRestoresBindings(c: Config, body: seq<Stmt>, name: string)
    requires |c.tables| > 0
    ensures var r := ScopedExecStmt(c, Block(body));
      FindSymbol(r.config.tables, name) == FindSymbol(c.tables, name)
      && c.out <= r.config.out
  {
  }

  /** Inside a block, an assignment binds in the block's own table: the
      name yields the new value there, and the enclosing tables, hence any
      outer binding of the same name, are untouched. */
  lemma ScopedAssignShadows(c: Config, name: string, v: Expr)
    requires |c.tables| > 0 && IsValue(v)
    ensures var inner := c.tables + [map[]];
      var r := ScopedExecStmt(c.(tables := inner), SubStmt(name, v));
      && r.status.Completed?
      && FindSymbol(r.config.tables, name) == Ok(v)
      && r.config.tables[..|c.tables|] == c.tables
  {
    var inner := c.tables + [map[]];
    assert inner[..|c.tables|] == c.tables;
  }

  /** Sequencing is unchanged by scoping: `a + b` runs `a`, then `b`. */
  lemma {:induction false} ScopedExecStmtsAppend(c: Config, a: seq<Stmt>, b: seq<Stmt>)
    requires |c.tables| > 0
    ensures var o := ScopedExecStmts(c, a);
      ScopedExecStmts(c, a + b) == if o.status.Aborted? then o else ScopedExecStmts(o.config, b)
    decreases |a|
  {
    if a == [] {
      assert a + b == b;
    } else {
      assert (a + b)[0] == a[0];
      assert (a + b)[1..] == a[1..] + b;
      var o := ScopedExecStmt(c, a[0]);
      if !o.status.Aborted? {
        ScopedExecStmtsAppend(o.config, a[1..], b);
      }
    }
  }

  /** No `Block` anywhere in a statement list. */
  predicate BlockFree(ss: seq<Stmt>) {
    forall i | 0 <= i < |ss| :: !ss[i].Block?
  }

  /** For programs without blocks, scoping makes no difference: the draft
      and the code as written agree exactly. */
  lemma {:induction false} ScopedAgreesWithoutBlocks(c: Config, ss: seq<Stmt>)
    requires |c.tables| > 0 && BlockFree(ss)
    ensures ScopedExecStmts(c, ss) == ExecStmts(c, ss)
    decreases |ss|
  {
    if ss != [] {
      assert !ss[0].Block?;
      var o := ExecStmt(c, ss[0]);
      assert ScopedExecStmt(c, ss[0]) == o;
      if !o.status.Aborted? {
        assert BlockFree(ss[1..]) by {
          forall i | 0 <= i < |ss[1..]| ensures !ss[1..][i].Block? {
            assert ss[1..][i] == ss[i + 1];
          }
        }
        ScopedAgreesWithoutBlocks(o.config, ss[1..]);
      }
    }
  }
}
