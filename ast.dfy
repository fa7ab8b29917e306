/** The abstract syntax of the toy language: a program is a list of
    statements; there is no parser, programs are built as values. */
module Ast {

  /** Rust's `isize` on a 64-bit target. The interpreter never does
      arithmetic, so no wrap-around has to be modelled: the type only
      bounds the literals a program may hold. */
  newtype Isize = x: int | -0x8000_0000_0000_0000 <= x < 0x8000_0000_0000_0000

  datatype Expr =
    | Str(s: string)
    | Num(n: Isize)
    | Var(name: string)

  datatype Stmt =
    | SubStmt(name: string, expr: Expr)   // assignment `name = expr`
    | Print(exprs: seq<Expr>)             // `println(e1, e2, ...)`
    | Block(stmts: seq<Stmt>)             // `{ ... }`

  /** The tuple struct `AST(Vec<Stmt>)`. */
  datatype Program = AST(stmts: seq<Stmt>)

  /** An evaluated expression: a literal, never a variable reference. */
  predicate IsValue(e: Expr) {
    e.Str? || e.Num?
  }
}
