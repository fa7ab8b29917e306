/** The meaning of the interpreter in `src/main.rs` as pure functions over
    an interpreter configuration: the stack of symbol tables (the declared
    `symbol_tables` field) and the text written to standard output so far.
    These functions are the specification the imperative `Interpreter`
    class is proved against.

    As in the method bodies of the source, a `Block` runs its statements on
    the same tables as its surroundings: nothing ever pushes or pops a
    frame, so the number of frames is the one the interpreter was created
    with (one). */
module Semantics {
  import opened Ast

  /** Symbol tables, outermost first; the last one is the innermost. */
  type Frames = seq<map<string, Expr>>

  /** Outcome of a lookup or an evaluation: a value, or the fatal
      "reference to unknown variable" with the offending name. */
  datatype Result = Ok(value: Expr) | Unbound(name: string)

  /** Whether execution goes on, or the process has panicked. */
  datatype Status = Completed | Aborted(name: string)

  /** Everything the interpreter can observe or change: its tables, and
      the fragments written to standard output (one per `print!`, and
      "\n" for each `println!("")`). */
  datatype Config = Config(tables: Frames, out: seq<string>)

  /** A status together with the configuration reached. After a panic the
      configuration is the one at the moment of the panic: the output
      already written stays written. */
  datatype Outcome = Outcome(status: Status, config: Config)

  /** Every table binds names to evaluated values only. */
  predicate AllValues(tables: Frames) {
    forall i, k | 0 <= i < |tables| && k in tables[i] :: IsValue(tables[i][k])
  }

  /** `find_symbol`: the binding of `name` in the innermost table that has
      one; failing that, the fatal unbound-name outcome. */
  function FindSymbol(tables: Frames, name: string): (r: Result)
    ensures r.Unbound? <==> forall i | 0 <= i < |tables| :: name !in tables[i]
    ensures r.Unbound? ==> r.name == name
    ensures r.Ok? && AllValues(tables) ==> IsValue(r.value)
  {
    if |tables| == 0 then Unbound(name)
    else
      var top := |tables| - 1;
      if name in tables[top] then Ok(tables[top][name])
      else FindSymbol(tables[..top], name)
  }

  /** `add_symbol`: insert or overwrite `name` in the innermost table. */
  function Bind(tables: Frames, name: string, v: Expr): (r: Frames)
    requires |tables| > 0
    ensures |r| == |tables| && r[..|r| - 1] == tables[..|tables| - 1]
    ensures FindSymbol(r, name) == Ok(v)
    ensures forall other | other != name :: FindSymbol(r, other) == FindSymbol(tables, other)
    ensures AllValues(tables) && IsValue(v) ==> AllValues(r)
  {
    var top := |tables| - 1;
    var r := tables[top := tables[top][name := v]];
    assert r[..top] == tables[..top];
    r
  }

  /** `eval`: literals evaluate to themselves, a variable to its binding. */
  function Eval(tables: Frames, e: Expr): (r: Result)
    ensures !e.Var? ==> r == Ok(e)
    ensures e.Var? ==> (r.Unbound? <==> forall i | 0 <= i < |tables| :: e.name !in tables[i])
    ensures r.Unbound? ==> e.Var? && r.name == e.name
    ensures r.Ok? && AllValues(tables) ==> IsValue(r.value)
  {
    match e
    case Var(name) => FindSymbol(tables, name)
    case Str(_) => Ok(e)
    case Num(_) => Ok(e)
  }

  /** Decimal text of an integer, as `{}` formats an `isize`. */
  function IntToString(n: int): string {
    if n < 0 then "-" + NatToString(-n) else NatToString(n)
  }

  function NatToString(n: nat): string
    decreases n
  {
    if n < 10 then [Digit(n)] else NatToString(n / 10) + [Digit(n % 10)]
  }

  function Digit(d: nat): char
    requires d < 10
  {
    "0123456789"[d]
  }

  /** What `print!("{}", ...)` writes for a value. */
  function Text(v: Expr): string
    requires IsValue(v)
  {
    match v
    case Str(s) => s
    case Num(n) => IntToString(n as int)
  }

  /** `print_expr`: evaluate, then write the value's text. A value that is
      still a variable reference panics, like an unbound name. */
  function PrintExpr(c: Config, e: Expr): (r: Outcome)
    ensures r.config.tables == c.tables
    ensures r.status.Aborted? ==> r.config == c
    ensures r.status.Completed? <==> Eval(c.tables, e).Ok? && IsValue(Eval(c.tables, e).value)
    ensures r.status.Completed? ==> r.config.out == c.out + [Text(Eval(c.tables, e).value)]
  {
    match Eval(c.tables, e)
    case Unbound(name) => Outcome(Aborted(name), c)
    case Ok(Str(s)) => Outcome(Completed, c.(out := c.out + [s]))
    case Ok(Num(n)) => Outcome(Completed, c.(out := c.out + [IntToString(n as int)]))
    case Ok(Var(name)) => Outcome(Aborted(name), c)
  }

  /** The loop over the arguments of a `Print`, stopping at a panic. */
  function PrintExprs(c: Config, es: seq<Expr>): (r: Outcome)
    ensures r.config.tables == c.tables
    ensures c.out <= r.config.out
    decreases |es|
  {
    if es == [] then Outcome(Completed, c)
    else
      var o := PrintExpr(c, es[0]);
      if o.status.Aborted? then o else PrintExprs(o.config, es[1..])
  }

  /** `run_stmt`. */
  function ExecStmt(c: Config, s: Stmt): (r: Outcome)
    requires |c.tables| > 0
    ensures |r.config.tables| == |c.tables|
    ensures c.out <= r.config.out
    decreases s
  {
    match s
    case SubStmt(name, e) =>
      (match Eval(c.tables, e)
       case Unbound(n) => Outcome(Aborted(n), c)
       case Ok(v) => Outcome(Completed, c.(tables := Bind(c.tables, name, v))))
    case Print(es) =>
      var o := PrintExprs(c, es);
      if o.status.Aborted? then o
      else Outcome(Completed, o.config.(out := o.config.out + ["\n"]))
    case Block(ss) => ExecStmts(c, ss)
  }

  /** A statement list run in order (`run`, and the body of a `Block`);
      after a panic nothing further runs. */
  function ExecStmts(c: Config, ss: seq<Stmt>): (r: Outcome)
    requires |c.tables| > 0
    ensures |r.config.tables| == |c.tables|
    ensures c.out <= r.config.out
    decreases ss
  {
    if ss == [] then Outcome(Completed, c)
    else
      var o := ExecStmt(c, ss[0]);
      if o.status.Aborted? then o else ExecStmts(o.config, ss[1..])
  }

  /** Continue an outcome with further statements, unless it panicked. */
  function Then(o: Outcome, ss: seq<Stmt>): (r: Outcome)
    requires |o.config.tables| > 0
    ensures o.status.Aborted? ==> r == o
  {
    if o.status.Aborted? then o else ExecStmts(o.config, ss)
  }

  /** The program run by `Interpreter::run` on a fresh interpreter. */
  function RunProgram(p: Program): (r: Outcome)
    ensures |r.config.tables| == 1
  {
    ExecStmts(Config([map[]], []), p.stmts)
  }
}
