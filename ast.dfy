/** The expression trees both compilers take (src/expr.rs, with the variants imsta.rs matches on). */
module Ast {
  import opened Values

  datatype Binding = Global(name: string)

  datatype Operator = Add | Sub | Mul | Div | Rem | Eq | Neq | Lt | Lte | Gt | Gte

  datatype Expr =
    | Float(n: Num)
    | Boolean(b: bool)
    | Var(binding: Binding)
    | Assign(target: Binding, value: Expr)
    | Add(lhs: Expr, rhs: Expr)
    | Block(statements: seq<Expr>)
    | While(cond: Expr, body: Expr)
    | Return(value: Expr)
    | BinaryOp(lhs: Expr, op: Operator, rhs: Expr)

  /** `Expr::global(name)`: a read of the global `name`. */
  function GlobalRef(name: string): (r: Expr)
    ensures r.Var? && r.binding.name == name
  {
    Var(Global(name))
  }

  /** `Binding::assign(self, value)`: store `value` into the binding. */
  function AssignTo(b: Binding, value: Expr): (r: Expr)
    ensures r.Assign? && r.target == b && r.value == value
  {
    Assign(b, value)
  }

  /** `Expr::add(self, rhs)`: the receiver is the left operand. */
  function AddTo(lhs: Expr, rhs: Expr): (r: Expr)
    ensures r.Add? && r.lhs == lhs && r.rhs == rhs
  {
    Expr.Add(lhs, rhs)
  }
}
