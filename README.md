# scopereter in Dafny

A model of `scopereter`, a small tree-walking interpreter for a toy language. The language has three statements: assignment (`SubStmt`), `Print` of a list of expressions, and `Block` of statements. It has three expressions: string literal, integer literal and variable reference. The interpreter keeps its symbol tables in a struct. `run` executes the top-level statements in order. `run_stmt` binds, prints or runs a block. `eval` resolves variables through `find_symbol`. A reference to an unknown variable aborts the process.

The source file is an unfinished draft, and the model follows its method bodies:

- The struct declares a stack of tables, `symbol_tables: Vec<HashMap<String, Expr>>`. The model keeps that stack as `seq<map<string, Expr>>`. Lookup goes innermost first and writes go to the innermost table.
- The method bodies use a single flat table, and `Block` pushes and pops nothing; it carries a `// TODO`. The model therefore never changes the number of tables, and `Interpreter::new` creates exactly one. With one table, lookup through the stack is the flat lookup (`Properties.SingleFrameLookup`).
- A block-scoped design is evidently intended but not implemented: a `Block` would get its own table, and a binding inside it would shadow an outer one until the block ends. Module `ScopedDraft` models that variant separately, following the declared field and the TODO. It is labelled as such, and nothing about the code as written depends on it. For the program in `main`, `Scenarios.MainOutputAsWritten` proves what the shown code prints: the block's `x = 3` overwrites `x`, so the last lines are `x = 3` and `y = 2`. `Scenarios.MainOutputScoped` proves what the scoped variant prints: `x = 1` and `y = 2`.

Layout:

- `ast.dfy` (module `Ast`): the `Expr`, `Stmt` and `AST` values. `isize` is the newtype `Isize`.
- `semantics.dfy` (module `Semantics`): the interpreter as pure functions over a `Config`, which holds the tables and the output so far. A panic becomes the status `Aborted(name)`. The configuration at the panic is kept, so output already written survives.
- `properties.dfy` (module `Properties`): lemmas about those functions.
- `interpreter.dfy` (module `Interp`): the `Interpreter` class. Its methods update `symbolTables` and `out` in place and are proved equal to the functions of `Semantics`.
- `scoped.dfy` (module `ScopedDraft`): the push/pop variant described above.
- `scenarios.dfy` (module `Scenarios`): the program of `main`, run through both interpreters, and a run that panics.

Standard output is a `seq<string>` of the fragments written. Each `print!` writes one fragment, and each `println!("")` writes `"\n"`.

## Model

| member | source | states |
|---|---|---|
| `Semantics.FindSymbol` | src/main.rs:40-42 | Lookup fails exactly when no table binds the name, and the failure carries that name. When every table holds values only, a found binding is a value. |
| `Properties.FindSymbolInnermost` | src/main.rs:40-42 | Lookup returns the binding in the innermost table that binds the name. |
| `Properties.SingleFrameLookup` | src/main.rs:33-41 | With the single table the interpreter starts with, lookup through the stack is a plain map lookup: the value if the key is present, otherwise an unbound error for that name. |
| `Semantics.Bind` | src/main.rs:36-38 | After `add_symbol`, the name yields the new value. Every other name yields what it did before. The number of tables is unchanged, and every table except the innermost is unchanged. Storing a value keeps the tables value-only. |
| `Semantics.Eval` | src/main.rs:71-77 | A literal evaluates to itself. A variable fails exactly when no table binds it, and the failure names that variable. Only a variable can fail. A result read from value-only tables is a value. |
| `Properties.EvalVar` | src/main.rs:73-73 | A variable evaluates to its innermost binding. |
| `Semantics.PrintExpr` | src/main.rs:79-85 | `print_expr` never changes the tables. It completes exactly when the expression evaluates to a value, and then it writes exactly that value's text. When it panics, nothing is written. |
| `Properties.PrintExprPanicsOnlyWhenUnbound` | src/main.rs:79-84 | When the tables hold values only, `print_expr` panics exactly when the name is unbound, and the panic carries that name. The branch for a value that is still a variable can never be taken. |
| `Semantics.PrintExprs` | src/main.rs:58-60 | The argument loop of `Print` leaves the tables unchanged and only appends to the output. |
| `Semantics.ExecStmt` | src/main.rs:50-69 | `run_stmt` keeps the number of tables unchanged and only appends to the output. |
| `Semantics.ExecStmts` | src/main.rs:44-48 | Running a statement list keeps the number of tables unchanged and only appends to the output. |
| `Semantics.RunProgram` | src/main.rs:134-136 | A program run on a fresh interpreter uses exactly one table from start to finish. |
| `Properties.ExecStmtsAppend` | src/main.rs:44-48 | Running `a + b` runs `a`, then runs `b` from the state `a` reached. After a panic in `a`, no statement of `b` runs and the result is `a`'s. |
| `Properties.ExecStmtsSingleton` | src/main.rs:45-46 | A list of one statement runs exactly that statement. |
| `Properties.BlockIsInline` | src/main.rs:63-67 | A `Block` in a statement list behaves exactly like its body spliced in at that place. |
| `Properties.OutputOnlyGrows` | src/main.rs:57-62 | Output written by earlier statements is never changed by later ones. |
| `Properties.ExecStmtKeepsValues` | src/main.rs:53-55 | `SubStmt` stores the result of `eval`, so every statement keeps the tables free of variable references. |
| `Properties.ExecStmtsKeepsValues` | src/main.rs:44-48 | A statement list keeps the tables free of variable references. |
| `Properties.ReachableTablesHoldValues` | src/main.rs:44-48 | Every prefix of every program, run from a fresh interpreter, leaves only values in the tables. |
| `Properties.AssignSemantics` | src/main.rs:53-55 | If `e` evaluates, `SubStmt(name, e)` completes. The name then yields the value, other names are unchanged, and nothing is written. If `e` is an unbound variable, the run panics with that name, and no binding and no output are created. |
| `Properties.AssignTwiceLastWins` | src/main.rs:36-38 | Two assignments to the same name leave the same state as the second one alone: the last write wins. |
| `Properties.PrintExprsSnoc` | src/main.rs:58-60 | Printing one more argument continues from where the earlier arguments left off, unless they panicked. |
| `Properties.PrintExprsWrites` | src/main.rs:58-60 | The argument loop writes the texts of the values in order. At the first unbound name it stops, having written only the texts before it. |
| `Properties.PrintCompletes` | src/main.rs:57-62 | When every argument evaluates, `Print` writes their texts in list order with no separator, then exactly one newline. The tables are unchanged. |
| `Properties.PrintAborts` | src/main.rs:57-62 | When the `k`-th argument is the first unbound name, `Print` panics with that name. Only the first `k` texts have been written, with no newline. |
| `Properties.BlockBindingOutlivesBlock` | src/main.rs:63-67 | An assignment inside a `Block` is still visible after the block: the code as written does not scope blocks. |
| `Interp.Interpreter.constructor` | src/main.rs:32-34 | `Interpreter::new` starts with one empty table and no output. |
| `Interp.Interpreter.AddSymbol` | src/main.rs:36-38 | `add_symbol` replaces the tables by `Bind` of the old tables and writes nothing. |
| `Interp.Interpreter.PrintExpr` | src/main.rs:79-85 | The in-place `print_expr` returns the status `Semantics.PrintExpr` gives and reaches the state it gives. It does not modify the tables. |
| `Interp.Interpreter.RunStmt` | src/main.rs:50-69 | The in-place `run_stmt`, whose argument and block loops carry invariants, gives the status and state of `ExecStmt`. It keeps the tables non-empty and value-only. |
| `Interp.Interpreter.Run` | src/main.rs:44-48 | The in-place `run` loop gives the status and state of `ExecStmts` and stops at the first panic. |
| `Interp.PrintAbortStops` | src/main.rs:58-60 | Once an argument panics, the remaining arguments of the `Print` are not evaluated. |
| `ScopedDraft.ScopedExecStmt` | src/main.rs:26-27 | This variant follows the declared table stack and the TODO at line 51. Only the innermost table can change, and a `Block` leaves every table exactly as it found it, whether it completes or panics. |
| `ScopedDraft.ScopedExecStmts` | src/main.rs:26-27 | In the scoped variant, a statement list keeps the number of tables and every table except the innermost. |
| `ScopedDraft.ScopedBlockRestoresBindings` | src/main.rs:26-27 | In the scoped variant, every name yields the same binding after a block as before it. |
| `ScopedDraft.ScopedAssignShadows` | src/main.rs:26-27 | In the scoped variant, an assignment inside a block binds in the block's own table and leaves the enclosing tables untouched. |
| `ScopedDraft.ScopedExecStmtsAppend` | src/main.rs:44-48 | Sequencing in the scoped variant: `a + b` runs `a`, then `b`. |
| `ScopedDraft.ScopedAgreesWithoutBlocks` | src/main.rs:63-67 | On statement lists without a `Block`, the scoped variant and the code as written give identical results. |
| `Scenarios.MainOutputAsWritten` | src/main.rs:110-136 | `main`'s program, as written, prints `x = 1`, `y = 2`, `--`, `x = 3`, `y = 2`, `--`, `x = 3`, `y = 2`. |
| `Scenarios.MainOutputScoped` | src/main.rs:91-108 | The input program in `main`'s comment, under the scoped variant, prints `x = 1`, `y = 2`, `--`, `x = 3`, `y = 2`, `--`, `x = 1`, `y = 2`. |
| `Scenarios.UnboundPanics` | src/main.rs:41-41 | Printing an unbound `z` panics with `z`. The output before it (`a` and a newline) is kept, and nothing later is written. |

## Left out

- The source does not compile as written. The struct declares `symbol_tables` and `pos`, but the method bodies use a `symbol_table` field. The model follows the declared table stack, holding one table, and applies the bodies' behaviour to it.
- The `pos` field is never used by any method, and no frame-reuse scheme exists in the code, so neither is modelled.
- The real output streams behind `print!` and `println!` are not modelled. Output is modelled as an appended sequence of fragments.
- `IntToString` is a plain decimal rendering of an `isize`. It is a helper, not a verified formatter.
- The internals of `HashMap`, and the `#[derive(Debug, Clone)]` boilerplate, are not modelled. Tables are Dafny `map`s and values are immutable, so cloning is implicit.
- Process-level panics are not modelled. A panic becomes the status `Aborted(name)` carrying the unresolved name. The process would end there; the model keeps the configuration reached so far.
- `main` is not modelled as a procedure. Its program is the value `Scenarios.MainProgram`, and the driver is the lemma `Scenarios.MainOutputAsWritten`.
- Properties.AssignTwiceLastWins: requires both right-hand sides to evaluate, and the second not to read the assigned name. Without these, the two runs differ, for example in which panic occurs or in the value read.
