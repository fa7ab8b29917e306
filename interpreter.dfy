/** The `Interpreter` struct of `src/main.rs` and its methods, as a class
    whose methods change its state in place. Each method is proved to do
    exactly what the corresponding function of `Semantics` says. */
module Interp {
  import opened Ast
  import opened Semantics
  import Properties

  class Interpreter {
    /** The declared `symbol_tables` stack, outermost first. */
    var symbolTables: Frames
    /** Standard output, as the fragments written to it so far. */
    var out: seq<string>

    /** There is always a table to write to, and tables hold values only. */
    ghost predicate Valid()
      reads this
    {
      |symbolTables| > 0 && AllValues(symbolTables)
    }

    /** The configuration this interpreter is in. */
    function State(): Config
      reads this
    {
      Config(symbolTables, out)
    }

    /** `Interpreter::new`: a single, empty table, and nothing written. */
    constructor ()
      ensures Valid()
      ensures symbolTables == [map[]] && out == []
    {
      symbolTables := [map[]];
      out := [];
    }

    /** `add_symbol`: bind `name` in the innermost table. */
    method AddSymbol(name: string, v: Expr)
      requires |symbolTables| > 0
      modifies this
      ensures symbolTables == Bind(old(symbolTables), name, v)
      ensures out == old(out)
    {
      var top := |symbolTables| - 1;
      symbolTables := symbolTables[top := symbolTables[top][name := v]];
    }

    /** `print_expr`: writes the text of the value of `e`, or panics. It
        never touches the tables. */
    method PrintExpr(e: Expr) returns (status: Status)
      modifies this`out
      ensures Outcome(status, State()) == Semantics.PrintExpr(old(State()), e)
      ensures symbolTables == old(symbolTables)
    {
      match Eval(symbolTables, e)
      case Unbound(name) =>
        status := Aborted(name);
      case Ok(v) =>
        match v
        case Str(s) =>
          out := out + [s];
          status := Completed;
        case Num(n) =>
          out := out + [IntToString(n as int)];
          status := Completed;
        case Var(name) =>
          status := Aborted(name);
    }

    /** `run_stmt`. */
    method RunStmt(s: Stmt) returns (status: Status)
      requires Valid()
      modifies this
      ensures Valid()
      ensures Outcome(status, State()) == ExecStmt(old(State()), s)
      decreases s
    {
      ghost var c0 := State();
      Properties.ExecStmtKeepsValues(c0, s);
      match s
      case SubStmt(name, e) =>
        var r := Eval(symbolTables, e);
        if r.Unbound? {
          return Aborted(r.name);
        }
        AddSymbol(name, r.value);
        status := Completed;
      case Print(es) =>
        var i := 0;
        while i < |es|
          invariant 0 <= i <= |es|
          invariant Outcome(Completed, State()) == PrintExprs(c0, es[..i])
        {
          status := PrintExpr(es[i]);
          Properties.PrintExprsSnoc(c0, es[..i], es[i]);
          assert es[..i + 1] == es[..i] + [es[i]];
          if status.Aborted? {
            PrintAbortStops(c0, es, i + 1);
            return;
          }
          i := i + 1;
        }
        assert es[..i] == es;
        out := out + ["\n"];
        status := Completed;
      case Block(ss) =>
        var i := 0;
        while i < |ss|
          invariant 0 <= i <= |ss|
          invariant Valid()
          invariant Outcome(Completed, State()) == ExecStmts(c0, ss[..i])
        {
          assert ss[i] in ss;
          status := RunStmt(ss[i]);
          Properties.ExecStmtsSnoc(c0, ss[..i], ss[i]);
          assert ss[..i + 1] == ss[..i] + [ss[i]];
          if status.Aborted? {
            Properties.ExecStmtsAppend(c0, ss[..i + 1], ss[i + 1..]);
            assert ss[..i + 1] + ss[i + 1..] == ss;
            return;
          }
          i := i + 1;
        }
        assert ss[..i] == ss;
        status := Completed;
    }

    /** `run`: the top-level statements in order; a panic ends the run. */
    method Run(ast: Program) returns (status: Status)
      requires Valid()
      modifies this
      ensures Valid()
      ensures Outcome(status, State()) == ExecStmts(old(State()), ast.stmts)
    {
      ghost var c0 := State();
      var stmts := ast.stmts;
      var i := 0;
      while i < |stmts|
        invariant 0 <= i <= |stmts|
        invariant Valid()
        invariant Outcome(Completed, State()) == ExecStmts(c0, stmts[..i])
      {
        status := RunStmt(stmts[i]);
        Properties.ExecStmtsSnoc(c0, stmts[..i], stmts[i]);
        assert stmts[..i + 1] == stmts[..i] + [stmts[i]];
        if status.Aborted? {
          Properties.ExecStmtsAppend(c0, stmts[..i + 1], stmts[i + 1..]);
          assert stmts[..i + 1] + stmts[i + 1..] == stmts;
          return;
        }
        i := i + 1;
      }
      assert stmts[..i] == stmts;
      status := Completed;
    }
  }

  /** A panic among the first `k` arguments of a `Print` is the outcome of
      the whole argument list. */
  lemma {:induction false} PrintAbortStops(c: Config, es: seq<Expr>, k: nat)
    requires k <= |es| && PrintExprs(c, es[..k]).status.Aborted?
    ensures PrintExprs(c, es) == PrintExprs(c, es[..k])
    decreases |es| - k
  {
    if k < |es| {
      Properties.PrintExprsSnoc(c, es[..k], es[k]);
      assert es[..k + 1] == es[..k] + [es[k]];
      PrintAbortStops(c, es, k + 1);
    } else {
      assert es[..k] == es;
    }
  }
}
