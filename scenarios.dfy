/** The program hard-coded in `main`, and what each interpreter makes of
    it. */
module Scenarios {
  import opened Ast
  import opened Semantics
  import Properties
  import ScopedDraft

  function PrintVar(name: string): Stmt {
    Print([Str(name + " = "), Var(name)])
  }

  /** x = 1; y = 2; print x, y; "--" */
  function Opening(): seq<Stmt> {
    [SubStmt("x", Num(1)), SubStmt("y", Num(2)), PrintVar("x"), PrintVar("y"), Print([Str("--")])]
  }

  /** { x = 3; print x, y } */
  function BlockBody(): seq<Stmt> {
    [SubStmt("x", Num(3)), PrintVar("x"), PrintVar("y")]
  }

  /** "--"; print x, y */
  function Closing(): seq<Stmt> {
    [Print([Str("--")]), PrintVar("x"), PrintVar("y")]
  }

  /** The program `main` builds and runs. */
  function MainProgram(): Program {
    AST(Opening() + [Block(BlockBody())] + Closing())
  }

  // ---------------------------------------------------------------------
  // Steps of a run, one statement at a time

  lemma {:induction false} Step(c: Config, ss: seq<Stmt>, k: nat, c': Config)
    requires |c.tables| > 0 && k < |ss|
    requires ExecStmt(c, ss[k]) == Outcome(Completed, c')
    ensures ExecStmts(c, ss[k..]) == ExecStmts(c', ss[k + 1..])
  {
    assert ss[k..][0] == ss[k] && ss[k..][1..] == ss[k + 1..];
  }

  lemma {:induction false} ScopedStep(c: Config, ss: seq<Stmt>, k: nat, c': Config)
    requires |c.tables| > 0 && k < |ss|
    requires ScopedDraft.ScopedExecStmt(c, ss[k]) == Outcome(Completed, c')
    ensures ScopedDraft.ScopedExecStmts(c, ss[k..]) == ScopedDraft.ScopedExecStmts(c', ss[k + 1..])
  {
    assert ss[k..][0] == ss[k] && ss[k..][1..] == ss[k + 1..];
  }

  /** Three statements that each complete. */
  lemma {:induction false} Run3(c: Config, s0: Stmt, s1: Stmt, s2: Stmt, c1: Config, c2: Config, c3: Config)
    requires |c.tables| > 0 && |c1.tables| > 0 && |c2.tables| > 0
    requires ExecStmt(c, s0) == Outcome(Completed, c1)
    requires ExecStmt(c1, s1) == Outcome(Completed, c2)
    requires ExecStmt(c2, s2) == Outcome(Completed, c3)
    ensures ExecStmts(c, [s0, s1, s2]) == Outcome(Completed, c3)
  {
    Properties.ExecStmtsSingleton(c2, s2);
    assert [s1, s2][0] == s1 && [s1, s2][1..] == [s2];
    assert ExecStmts(c1, [s1, s2]) == ExecStmts(c2, [s2]);
    assert [s0, s1, s2][0] == s0 && [s0, s1, s2][1..] == [s1, s2];
  }

  lemma {:induction false} PrintVarStep(c: Config, name: string, v: Expr)
    requires |c.tables| > 0 && IsValue(v) && FindSymbol(c.tables, name) == Ok(v)
    ensures ExecStmt(c, PrintVar(name)) ==
      Outcome(Completed, c.(out := c.out + [name + " = ", Text(v), "\n"]))
  {
    var es := [Str(name + " = "), Var(name)];
    var c1 := c.(out := c.out + [name + " = "]);
    var c2 := c.(out := c.out + [name + " = ", Text(v)]);
    assert PrintExpr(c, es[0]) == Outcome(Completed, c1);
    assert PrintExpr(c1, es[1]) == Outcome(Completed, c2);
    assert es[1..][1..] == [];
    assert PrintExprs(c1, es[1..]) == Outcome(Completed, c2);
  }

  lemma {:induction false} PrintStrStep(c: Config, s: string)
    requires |c.tables| > 0
    ensures ExecStmt(c, Print([Str(s)])) == Outcome(Completed, c.(out := c.out + [s, "\n"]))
  {
    var c1 := c.(out := c.out + [s]);
    assert PrintExpr(c, Str(s)) == Outcome(Completed, c1);
    assert [Str(s)][1..] == [];
    assert PrintExprs(c, [Str(s)]) == Outcome(Completed, c1);
    assert c1.out + ["\n"] == c.out + [s, "\n"];
  }

  /** Lookups in a single table binding x and y. */
  lemma {:induction false} LookupXY(a: Expr, b: Expr)
    ensures FindSymbol([map["x" := a, "y" := b]], "x") == Ok(a)
    ensures FindSymbol([map["x" := a, "y" := b]], "y") == Ok(b)
  {
    var m := map["x" := a, "y" := b];
    assert "x" in m && m["x"] == a;
    assert "y" in m && m["y"] == b;
  }

  lemma Texts()
    ensures Text(Num(1)) == "1" && Text(Num(2)) == "2" && Text(Num(3)) == "3"
    ensures "x" + " = " == "x = " && "y" + " = " == "y = "
  {
  }

  // ---------------------------------------------------------------------
  // The three parts of `main`'s program

  lemma {:induction false} OpeningAssigns(ss: seq<Stmt>, out: seq<string>)
    requires ss == Opening()
    ensures ExecStmts(Config([map[]], out), ss)
      == ExecStmts(Config([map["x" := Num(1), "y" := Num(2)]], out), ss[2..])
  {
    var t1 := [map["x" := Num(1)]];
    var t2 := [map["x" := Num(1), "y" := Num(2)]];
    assert Bind([map[]], "x", Num(1)) == t1;
    Step(Config([map[]], out), ss, 0, Config(t1, out));
    assert ss[0..] == ss;
    assert t1[0]["y" := Num(2)] == t2[0];
    assert Bind(t1, "y", Num(2)) == t2;
    Step(Config(t1, out), ss, 1, Config(t2, out));
  }

  lemma {:induction false} OpeningPrints(ss: seq<Stmt>, t2: Frames, out: seq<string>)
    requires ss == Opening() && t2 == [map["x" := Num(1), "y" := Num(2)]]
    ensures ExecStmts(Config(t2, out), ss[2..]) == Outcome(Completed, Config(
      t2, out + ["x = ", "1", "\n", "y = ", "2", "\n", "--", "\n"]))
  {
    Texts();
    LookupXY(Num(1), Num(2));
    var o1 := out + ["x = ", "1", "\n"];
    var o2 := o1 + ["y = ", "2", "\n"];
    var o3 := o2 + ["--", "\n"];
    PrintVarStep(Config(t2, out), "x", Num(1));
    PrintVarStep(Config(t2, o1), "y", Num(2));
    PrintStrStep(Config(t2, o2), "--");
    assert ss[2..] == [PrintVar("x"), PrintVar("y"), Print([Str("--")])];
    Run3(Config(t2, out), PrintVar("x"), PrintVar("y"), Print([Str("--")]), Config(t2, o1), Config(t2, o2), Config(t2, o3));
    assert o3 == out + ["x = ", "1", "\n", "y = ", "2", "\n", "--", "\n"];
  }

  lemma {:induction false} OpeningRun(out: seq<string>)
    ensures ExecStmts(Config([map[]], out), Opening()) == Outcome(Completed, Config(
      [map["x" := Num(1), "y" := Num(2)]],
      out + ["x = ", "1", "\n", "y = ", "2", "\n", "--", "\n"]))
  {
    OpeningAssigns(Opening(), out);
    OpeningPrints(Opening(), [map["x" := Num(1), "y" := Num(2)]], out);
  }

  /** The block's body, run on whatever tables are current, with `y`
      bound to 2 in them. */
  lemma {:induction false} BodyRun(t: Frames, out: seq<string>)
    requires |t| > 0 && FindSymbol(t, "y") == Ok(Num(2))
    ensures ExecStmts(Config(t, out), BlockBody()) == Outcome(Completed, Config(
      Bind(t, "x", Num(3)), out + ["x = ", "3", "\n", "y = ", "2", "\n"]))
  {
    Texts();
    var t3 := Bind(t, "x", Num(3));
    var o1 := out + ["x = ", "3", "\n"];
    var o2 := o1 + ["y = ", "2", "\n"];
    PrintVarStep(Config(t3, out), "x", Num(3));
    PrintVarStep(Config(t3, o1), "y", Num(2));
    Run3(Config(t, out), SubStmt("x", Num(3)), PrintVar("x"), PrintVar("y"), Config(t3, out), Config(t3, o1), Config(t3, o2));
    assert o2 == out + ["x = ", "3", "\n", "y = ", "2", "\n"];
  }

  /** The closing part, with `x` bound to `vx` and `y` to 2. */
  lemma {:induction false} ClosingRun(t: Frames, out: seq<string>, vx: Isize)
    requires |t| > 0 && FindSymbol(t, "x") == Ok(Num(vx)) && FindSymbol(t, "y") == Ok(Num(2))
    ensures ExecStmts(Config(t, out), Closing()) == Outcome(Completed, Config(
      t, out + ["--", "\n", "x = ", Text(Num(vx)), "\n", "y = ", "2", "\n"]))
  {
    Texts();
    var o1 := out + ["--", "\n"];
    var o2 := o1 + ["x = ", Text(Num(vx)), "\n"];
    var o3 := o2 + ["y = ", "2", "\n"];
    PrintStrStep(Config(t, out), "--");
    PrintVarStep(Config(t, o1), "x", Num(vx));
    PrintVarStep(Config(t, o2), "y", Num(2));
    Run3(Config(t, out), Print([Str("--")]), PrintVar("x"), PrintVar("y"), Config(t, o1), Config(t, o2), Config(t, o3));
    assert o3 == out + ["--", "\n", "x = ", Text(Num(vx)), "\n", "y = ", "2", "\n"];
  }

  // ---------------------------------------------------------------------
  // The whole program

  /** The run of `main`'s program, given how each part runs. The
      configurations are parameters so that the solver works on them
      symbolically. */
  lemma {:induction false} MainRunFromParts(c0: Config, t2: Frames, o3: seq<string>,
                                            cb: Config, r: Outcome)
    requires |c0.tables| > 0
    requires ExecStmts(c0, Opening()) == Outcome(Completed, Config(t2, o3))
    requires |t2| > 0 && ExecStmt(Config(t2, o3), Block(BlockBody())) == Outcome(Completed, cb)
    requires |cb.tables| > 0 && ExecStmts(cb, Closing()) == r
    ensures ExecStmts(c0, MainProgram().stmts) == r
  {
    var blk := [Block(BlockBody())];
    Properties.ExecStmtsAppend(c0, Opening() + blk, Closing());
    Properties.ExecStmtsAppend(c0, Opening(), blk);
    Properties.ExecStmtsSingleton(Config(t2, o3), Block(BlockBody()));
  }

  lemma {:induction false} AsWrittenBlock(t2: Frames, t3: Frames, o3: seq<string>, o5: seq<string>)
    requires t2 == [map["x" := Num(1), "y" := Num(2)]] && t3 == [map["x" := Num(3), "y" := Num(2)]]
    requires o5 == o3 + ["x = ", "3", "\n", "y = ", "2", "\n"]
    ensures ExecStmt(Config(t2, o3), Block(BlockBody())) == Outcome(Completed, Config(t3, o5))
  {
    LookupXY(Num(1), Num(2));
    BodyRun(t2, o3);
    assert t2[0]["x" := Num(3)] == t3[0];
    assert Bind(t2, "x", Num(3)) == t3;
  }

  lemma {:induction false} AsWrittenClosing(t3: Frames, o5: seq<string>, o8: seq<string>)
    requires t3 == [map["x" := Num(3), "y" := Num(2)]]
    requires o8 == o5 + ["--", "\n", "x = ", "3", "\n", "y = ", "2", "\n"]
    ensures ExecStmts(Config(t3, o5), Closing()) == Outcome(Completed, Config(t3, o8))
  {
    LookupXY(Num(3), Num(2));
    ClosingRun(t3, o5, 3);
    Texts();
  }

  /** `main`'s program as written, on symbolic configurations that are
      equal to the concrete ones. */
  lemma {:induction false} AsWrittenRun(p: Program, t2: Frames, t3: Frames,
                                        o3: seq<string>, o5: seq<string>, o8: seq<string>)
    requires p == MainProgram()
    requires t2 == [map["x" := Num(1), "y" := Num(2)]] && t3 == [map["x" := Num(3), "y" := Num(2)]]
    requires o3 == ["x = ", "1", "\n", "y = ", "2", "\n", "--", "\n"]
    requires o5 == o3 + ["x = ", "3", "\n", "y = ", "2", "\n"]
    requires o8 == o5 + ["--", "\n", "x = ", "3", "\n", "y = ", "2", "\n"]
    ensures RunProgram(p) == Outcome(Completed, Config(t3, o8))
  {
    var c0 := Config([map[]], []);
    OpeningRun(c0.out);
    assert c0.out + o3 == o3;
    AsWrittenBlock(t2, t3, o3, o5);
    AsWrittenClosing(t3, o5, o8);
    MainRunFromParts(c0, t2, o3, Config(t3, o5), Outcome(Completed, Config(t3, o8)));
  }

  /** The code as written: the block's `x = 3` survives the block, so the
      last two lines print x = 3 and y = 2. */
  lemma {:induction false} MainOutputAsWritten(p: Program)
    requires p == MainProgram()
    ensures RunProgram(p) == Outcome(Completed, Config(
      [map["x" := Num(3), "y" := Num(2)]],
      ["x = ", "1", "\n", "y = ", "2", "\n", "--", "\n",
       "x = ", "3", "\n", "y = ", "2", "\n", "--", "\n",
       "x = ", "3", "\n", "y = ", "2", "\n"]))
  {
    AsWrittenRun(p, [map["x" := Num(1), "y" := Num(2)]], [map["x" := Num(3), "y" := Num(2)]],
      ["x = ", "1", "\n", "y = ", "2", "\n", "--", "\n"],
      ["x = ", "1", "\n", "y = ", "2", "\n", "--", "\n",
       "x = ", "3", "\n", "y = ", "2", "\n"],
      ["x = ", "1", "\n", "y = ", "2", "\n", "--", "\n",
       "x = ", "3", "\n", "y = ", "2", "\n", "--", "\n",
       "x = ", "3", "\n", "y = ", "2", "\n"]);
  }

  /** The scoped run of `main`'s program, given how each part runs. */
  lemma {:induction false} ScopedRunFromParts(c0: Config, t2: Frames, o3: seq<string>,
                                              cb: Config, r: Outcome)
    requires |c0.tables| > 0
    requires ScopedDraft.ScopedExecStmts(c0, Opening()) == Outcome(Completed, Config(t2, o3))
    requires |t2| > 0
    requires ScopedDraft.ScopedExecStmt(Config(t2, o3), Block(BlockBody())) == Outcome(Completed, cb)
    requires |cb.tables| > 0 && ScopedDraft.ScopedExecStmts(cb, Closing()) == r
    ensures ScopedDraft.ScopedExecStmts(c0, MainProgram().stmts) == r
  {
    var blk := [Block(BlockBody())];
    ScopedDraft.ScopedExecStmtsAppend(c0, Opening() + blk, Closing());
    ScopedDraft.ScopedExecStmtsAppend(c0, Opening(), blk);
    ScopedStep(Config(t2, o3), blk, 0, cb);
    assert blk[0..] == blk && blk[1..] == [];
  }

  lemma {:induction false} ScopedOpening(c0: Config, t2: Frames, o3: seq<string>)
    requires c0 == Config([map[]], [])
    requires t2 == [map["x" := Num(1), "y" := Num(2)]]
    requires o3 == ["x = ", "1", "\n", "y = ", "2", "\n", "--", "\n"]
    ensures ScopedDraft.ScopedExecStmts(c0, Opening()) == Outcome(Completed, Config(t2, o3))
  {
    assert ScopedDraft.BlockFree(Opening());
    ScopedDraft.ScopedAgreesWithoutBlocks(c0, Opening());
    OpeningRun(c0.out);
    assert [] + o3 == o3;
  }

  /** The block pushes an empty table, binds x = 3 there, prints x = 3
      and y = 2, and pops the table: the tables are as before. */
  lemma {:induction false} ScopedBlock(t2: Frames, o3: seq<string>, o5: seq<string>)
    requires t2 == [map["x" := Num(1), "y" := Num(2)]]
    requires o5 == o3 + ["x = ", "3", "\n", "y = ", "2", "\n"]
    ensures ScopedDraft.ScopedExecStmt(Config(t2, o3), Block(BlockBody())) == Outcome(Completed, Config(t2, o5))
  {
    var pushed := t2 + [map[]];
    assert pushed[..1] == t2;
    LookupXY(Num(1), Num(2));
    assert FindSymbol(pushed, "y") == Ok(Num(2));
    assert ScopedDraft.BlockFree(BlockBody());
    ScopedDraft.ScopedAgreesWithoutBlocks(Config(pushed, o3), BlockBody());
    BodyRun(pushed, o3);
  }

  lemma {:induction false} ScopedClosing(t2: Frames, o5: seq<string>, o8: seq<string>)
    requires t2 == [map["x" := Num(1), "y" := Num(2)]]
    requires o8 == o5 + ["--", "\n", "x = ", "1", "\n", "y = ", "2", "\n"]
    ensures ScopedDraft.ScopedExecStmts(Config(t2, o5), Closing()) == Outcome(Completed, Config(t2, o8))
  {
    assert ScopedDraft.BlockFree(Closing());
    ScopedDraft.ScopedAgreesWithoutBlocks(Config(t2, o5), Closing());
    LookupXY(Num(1), Num(2));
    ClosingRun(t2, o5, 1);
    Texts();
  }

  /** The scoped run of `main`'s program on symbolic configurations. */
  lemma {:induction false} ScopedMainRun(p: Program, t2: Frames,
                                         o3: seq<string>, o5: seq<string>, o8: seq<string>)
    requires p == MainProgram()
    requires t2 == [map["x" := Num(1), "y" := Num(2)]]
    requires o3 == ["x = ", "1", "\n", "y = ", "2", "\n", "--", "\n"]
    requires o5 == o3 + ["x = ", "3", "\n", "y = ", "2", "\n"]
    requires o8 == o5 + ["--", "\n", "x = ", "1", "\n", "y = ", "2", "\n"]
    ensures ScopedDraft.ScopedRun(p) == Outcome(Completed, Config(t2, o8))
  {
    var c0 := Config([map[]], []);
    ScopedOpening(c0, t2, o3);
    ScopedBlock(t2, o3, o5);
    ScopedClosing(t2, o5, o8);
    ScopedRunFromParts(c0, t2, o3, Config(t2, o5), Outcome(Completed, Config(t2, o8)));
  }

  /** With block scoping as the declared fields intend, the outer x = 1 is
      visible again after the block. */
  lemma {:induction false} MainOutputScoped(p: Program)
    requires p == MainProgram()
    ensures ScopedDraft.ScopedRun(p) == Outcome(Completed, Config(
      [map["x" := Num(1), "y" := Num(2)]],
      ["x = ", "1", "\n", "y = ", "2", "\n", "--", "\n",
       "x = ", "3", "\n", "y = ", "2", "\n", "--", "\n",
       "x = ", "1", "\n", "y = ", "2", "\n"]))
  {
    ScopedMainRun(p, [map["x" := Num(1), "y" := Num(2)]],
      ["x = ", "1", "\n", "y = ", "2", "\n", "--", "\n"],
      ["x = ", "1", "\n", "y = ", "2", "\n", "--", "\n",
       "x = ", "3", "\n", "y = ", "2", "\n"],
      ["x = ", "1", "\n", "y = ", "2", "\n", "--", "\n",
       "x = ", "3", "\n", "y = ", "2", "\n", "--", "\n",
       "x = ", "1", "\n", "y = ", "2", "\n"]);
  }

  /** Printing an unbound `z` panics with that name before writing
      anything, not even the newline; earlier output is kept and no later
      statement runs. */
  lemma {:induction false} UnboundPanics()
    ensures RunProgram(AST([Print([Str("a")]), Print([Var("z")]), Print([Str("b")])]))
      == Outcome(Aborted("z"), Config([map[]], ["a", "\n"]))
  {
    var ss := [Print([Str("a")]), Print([Var("z")]), Print([Str("b")])];
    var c0 := Config([map[]], []);
    PrintStrStep(c0, "a");
    Step(c0, ss, 0, Config([map[]], ["a", "\n"]));
    assert ss[0..] == ss && ss[1..][0] == Print([Var("z")]);
  }
}
