/** What the interpreter of `src/main.rs` guarantees, stated and proved
    over the functions of `Semantics`. */
module Properties {
  import opened Ast
  import opened Semantics

  // ---------------------------------------------------------------------
  // Lookup

  /** Lookup goes innermost first: the binding found is the one in the
      innermost table that binds the name. */
  lemma {:induction false} FindSymbolInnermost(tables: Frames, name: string, i: nat)
    requires i < |tables| && name in tables[i]
    requires forall j | i < j < |tables| :: name !in tables[j]
    ensures FindSymbol(tables, name) == Ok(tables[i][name])
    decreases |tables|
  {
    var top := |tables| - 1;
    if i < top {
      var outer := tables[..top];
      assert outer[i] == tables[i];
      assert forall j | i < j < |outer| :: name !in outer[j] by {
        forall j | i < j < |outer| ensures name !in outer[j] {
          assert outer[j] == tables[j];
        }
      }
      FindSymbolInnermost(outer, name, i);
    }
  }

  /** A variable evaluates to its innermost binding; evaluation reads the
      tables only, so a failed lookup binds nothing. */
  lemma EvalVar(tables: Frames, name: string, i: nat)
    requires i < |tables| && name in tables[i]
    requires forall j | i < j < |tables| :: name !in tables[j]
    ensures Eval(tables, Var(name)) == Ok(tables[i][name])
  {
    FindSymbolInnermost(tables, name, i);
  }

  // ---------------------------------------------------------------------
  // Sequencing

  /** Running `a + b` is running `a`, then `b` from where `a` left off;
      once `a` has panicked, no statement of `b` runs. */
  lemma {:induction false} ExecStmtsAppend(c: Config, a: seq<Stmt>, b: seq<Stmt>)
    requires |c.tables| > 0
    ensures ExecStmts(c, a + b) == Then(ExecStmts(c, a), b)
    ensures ExecStmts(c, a).status.Aborted? ==> ExecStmts(c, a + b) == ExecStmts(c, a)
    decreases |a|
  {
    if a == [] {
      assert a + b == b;
    } else {
      assert (a + b)[0] == a[0];
      assert (a + b)[1..] == a[1..] + b;
      var o := ExecStmt(c, a[0]);
      if !o.status.Aborted? {
        ExecStmtsAppend(o.config, a[1..], b);
      }
    }
  }

  /** A list of one statement runs that statement. */
  lemma {:induction false} ExecStmtsSingleton(c: Config, s: Stmt)
    requires |c.tables| > 0
    ensures ExecStmts(c, [s]) == ExecStmt(c, s)
  {
    assert [s][0] == s;
    assert [s][1..] == [];
  }

  /** One more statement at the end of a list. */
  lemma {:induction false} ExecStmtsSnoc(c: Config, a: seq<Stmt>, s: Stmt)
    requires |c.tables| > 0
    ensures var o := ExecStmts(c, a);
      ExecStmts(c, a + [s]) == if o.status.Aborted? then o else ExecStmt(o.config, s)
  {
    ExecStmtsAppend(c, a, [s]);
    var o := ExecStmts(c, a);
    if !o.status.Aborted? {
      ExecStmtsSingleton(o.config, s);
    }
  }

  /** A `Block` runs its body on the surrounding tables: executing it is
      the same as executing its statements spliced in place. */
  lemma {:induction false} BlockIsInline(c: Config, pre: seq<Stmt>, body: seq<Stmt>, post: seq<Stmt>)
    requires |c.tables| > 0
    ensures ExecStmts(c, pre + [Block(body)] + post) == ExecStmts(c, pre + body + post)
  {
    ExecStmtsAppend(c, pre, [Block(body)] + post);
    ExecStmtsAppend(c, pre, body + post);
    assert pre + [Block(body)] + post == pre + ([Block(body)] + post);
    assert pre + body + post == pre + (body + post);
    var o := ExecStmts(c, pre);
    if !o.status.Aborted? {
      ExecStmtsAppend(o.config, [Block(body)], post);
      ExecStmtsAppend(o.config, body, post);
      ExecStmtsSingleton(o.config, Block(body));
    }
  }

  /** The output of the program is only ever appended to. */
  lemma OutputOnlyGrows(c: Config, a: seq<Stmt>, b: seq<Stmt>)
    requires |c.tables| > 0
    ensures ExecStmts(c, a).config.out <= ExecStmts(c, a + b).config.out
  {
    ExecStmtsAppend(c, a, b);
  }

  // ---------------------------------------------------------------------
  // Only values are ever bound

  /** `SubStmt` stores the result of `eval`, so no table ever binds a name
      to a variable reference. */
  lemma {:induction false} ExecStmtKeepsValues(c: Config, s: Stmt)
    requires |c.tables| > 0 && AllValues(c.tables)
    ensures AllValues(ExecStmt(c, s).config.tables)
    decreases s
  {
    match s
    case SubStmt(_, _) =>
    case Print(_) =>
    case Block(ss) => ExecStmtsKeepsValues(c, ss);
  }

  lemma {:induction false} ExecStmtsKeepsValues(c: Config, ss: seq<Stmt>)
    requires |c.tables| > 0 && AllValues(c.tables)
    ensures AllValues(ExecStmts(c, ss).config.tables)
    decreases ss
  {
    if ss != [] {
      ExecStmtKeepsValues(c, ss[0]);
      var o := ExecStmt(c, ss[0]);
      if !o.status.Aborted? {
        ExecStmtsKeepsValues(o.config, ss[1..]);
      }
    }
  }

  /** Hence, whenever `print_expr` runs, the panic on a value that is a
      variable reference cannot happen: it panics exactly when the name
      is unbound, with that name, and otherwise writes the value. */
  lemma PrintExprPanicsOnlyWhenUnbound(c: Config, e: Expr)
    requires AllValues(c.tables)
    ensures PrintExpr(c, e).status.Aborted? <==> Eval(c.tables, e).Unbound?
    ensures PrintExpr(c, e).status.Aborted? ==>
      e.Var? && PrintExpr(c, e).status.name == e.name
  {
  }

  /** In any state a program can reach, the tables hold values only. */
  lemma {:induction false} ReachableTablesHoldValues(p: Program, k: nat)
    requires k <= |p.stmts|
    ensures AllValues(ExecStmts(Config([map[]], []), p.stmts[..k]).config.tables)
  {
    ExecStmtsKeepsValues(Config([map[]], []), p.stmts[..k]);
  }

  // ---------------------------------------------------------------------
  // Assignment

  /** `SubStmt(name, e)`: if `e` has a value, `name` now yields it, every
      other name yields what it did, and nothing is written; if `e` names
      an unbound variable, the run panics with that name and no binding
      is created. */
  lemma AssignSemantics(c: Config, name: string, e: Expr, other: string)
    requires |c.tables| > 0 && other != name
    ensures var r := ExecStmt(c, SubStmt(name, e));
      match Eval(c.tables, e)
      case Ok(v) =>
        && r.status.Completed?
        && FindSymbol(r.config.tables, name) == Ok(v)
        && FindSymbol(r.config.tables, other) == FindSymbol(c.tables, other)
        && r.config.out == c.out
      case Unbound(n) =>
        r == Outcome(Aborted(n), c) && e.Var? && n == e.name
  {
  }

  /** Two assignments to one name: the second wins, as if the first had
      never happened (when the second does not read the name itself). */
  lemma {:induction false} AssignTwiceLastWins(c: Config, name: string, e1: Expr, e2: Expr)
    requires |c.tables| > 0
    requires Eval(c.tables, e1).Ok? && Eval(c.tables, e2).Ok?
    requires !(e2.Var? && e2.name == name)
    ensures ExecStmts(c, [SubStmt(name, e1), SubStmt(name, e2)]) == ExecStmt(c, SubStmt(name, e2))
  {
    var v1 := Eval(c.tables, e1).value;
    var c1 := c.(tables := Bind(c.tables, name, v1));
    var ss := [SubStmt(name, e1), SubStmt(name, e2)];
    assert ss[0] == SubStmt(name, e1) && ss[1..] == [SubStmt(name, e2)];
    assert ExecStmt(c, SubStmt(name, e1)) == Outcome(Completed, c1);
    ExecStmtsSingleton(c1, SubStmt(name, e2));
    assert ExecStmts(c, ss) == ExecStmt(c1, SubStmt(name, e2));
    assert Eval(c1.tables, e2) == Eval(c.tables, e2);
    var v2 := Eval(c.tables, e2).value;
    var top := |c.tables| - 1;
    assert c1.tables[top][name := v2] == c.tables[top][name := v2];
    assert Bind(c1.tables, name, v2) == Bind(c.tables, name, v2);
  }

  /** With the single table the interpreter is created with, the lookup
      through the stack is a plain lookup in that table. */
  lemma SingleFrameLookup(m: map<string, Expr>, name: string)
    ensures FindSymbol([m], name) == if name in m then Ok(m[name]) else Unbound(name)
  {
    assert [m][..0] == [];
  }

  // ---------------------------------------------------------------------
  // Print

  /** One more argument at the end of a `Print`. */
  lemma {:induction false} PrintExprsSnoc(c: Config, es: seq<Expr>, e: Expr)
    ensures var o := PrintExprs(c, es);
      PrintExprs(c, es + [e]) == if o.status.Aborted? then o else PrintExpr(o.config, e)
    decreases |es|
  {
    if es == [] {
      assert es + [e] == [e] && [e][1..] == [];
    } else {
      assert (es + [e])[0] == es[0];
      assert (es + [e])[1..] == es[1..] + [e];
      var o := PrintExpr(c, es[0]);
      if !o.status.Aborted? {
        PrintExprsSnoc(o.config, es[1..], e);
      }
    }
  }

  /** Every expression of `es` has a value in `tables`. */
  predicate AllBound(tables: Frames, es: seq<Expr>) {
    forall j | 0 <= j < |es| :: Eval(tables, es[j]).Ok?
  }

  /** The texts of the values of `es`, in order. */
  function Rendered(tables: Frames, es: seq<Expr>): (r: seq<string>)
    requires AllValues(tables) && AllBound(tables, es)
    ensures |r| == |es|
    decreases |es|
  {
    if es == [] then [] else [Text(Eval(tables, es[0]).value)] + Rendered(tables, es[1..])
  }

  lemma {:induction false} RenderedAt(tables: Frames, es: seq<Expr>, j: nat)
    requires AllValues(tables) && AllBound(tables, es) && j < |es|
    ensures Rendered(tables, es)[j] == Text(Eval(tables, es[j]).value)
    decreases |es|
  {
    if j > 0 {
      RenderedAt(tables, es[1..], j - 1);
    }
  }

  /** The loop over the arguments of a `Print` writes the texts of the
      values in order, and stops at the first unbound name having written
      the texts of those before it. */
  lemma {:induction false} PrintExprsWrites(c: Config, es: seq<Expr>, k: nat)
    requires AllValues(c.tables) && k <= |es| && AllBound(c.tables, es[..k])
    ensures k == |es| ==>
      PrintExprs(c, es) == Outcome(Completed, c.(out := c.out + Rendered(c.tables, es)))
    ensures k < |es| && Eval(c.tables, es[k]).Unbound? ==>
      PrintExprs(c, es) == Outcome(Aborted(es[k].name), c.(out := c.out + Rendered(c.tables, es[..k])))
    decreases k
  {
    if k == 0 {
      assert es[..0] == [];
      if es != [] && Eval(c.tables, es[0]).Unbound? {
        assert c.(out := c.out + []) == c;
      }
      if es == [] {
        assert c.(out := c.out + []) == c;
      }
    } else {
      var v := Eval(c.tables, es[0]).value;
      assert Eval(c.tables, es[..k][0]).Ok?;
      var c1 := c.(out := c.out + [Text(v)]);
      assert PrintExpr(c, es[0]) == Outcome(Completed, c1);
      assert es[..k][1..] == es[1..][..k - 1];
      var rest := es[1..][..k - 1];
      assert AllBound(c.tables, rest) by {
        forall j | 0 <= j < |rest| ensures Eval(c.tables, rest[j]).Ok? {
          assert rest[j] == es[..k][j + 1];
        }
      }
      PrintExprsWrites(c1, es[1..], k - 1);
      if k == |es| {
        assert es[1..][..k - 1] == es[1..];
        assert es[..k] == es;
      } else {
        assert es[1..][k - 1] == es[k];
      }
    }
  }

  /** `Print(es)` with every name bound: the texts in list order, with no
      separator, then exactly one newline; no binding changes. */
  lemma PrintCompletes(c: Config, es: seq<Expr>)
    requires |c.tables| > 0 && AllValues(c.tables) && AllBound(c.tables, es)
    ensures ExecStmt(c, Print(es)) ==
      Outcome(Completed, Config(c.tables, c.out + Rendered(c.tables, es) + ["\n"]))
  {
    assert es[..|es|] == es;
    PrintExprsWrites(c, es, |es|);
  }

  /** `Print(es)` whose `k`-th expression is the first unbound name: the
      run panics with that name, after the texts of the first `k` values
      and before anything of the `k`-th is written; no newline. */
  lemma PrintAborts(c: Config, es: seq<Expr>, k: nat)
    requires |c.tables| > 0 && AllValues(c.tables)
    requires k < |es| && AllBound(c.tables, es[..k]) && Eval(c.tables, es[k]).Unbound?
    ensures ExecStmt(c, Print(es)) ==
      Outcome(Aborted(es[k].name), Config(c.tables, c.out + Rendered(c.tables, es[..k])))
  {
    PrintExprsWrites(c, es, k);
  }

  // ---------------------------------------------------------------------
  // Blocks do not scope in this version

  /** Because a `Block` neither pushes nor pops a table, an assignment
      inside it stays visible after it ends, overwriting an outer binding
      of the same name. */
  lemma {:induction false} BlockBindingOutlivesBlock(c: Config, name: string, v: Expr)
    requires |c.tables| > 0 && IsValue(v)
    ensures var r := ExecStmt(c, Block([SubStmt(name, v)]));
      r.status.Completed? && FindSymbol(r.config.tables, name) == Ok(v)
  {
    ExecStmtsSingleton(c, SubStmt(name, v));
  }
}
