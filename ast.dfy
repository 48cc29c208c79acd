/**
 * The abstract syntax the three passes walk, one constructor per grammar
 * alternative of the MiniJava parser. A type is kept as the text the parser
 * produces for it: "int", "boolean", "int[]" or a class name.
 */
module Syntax {

  /** A whole program: the main class first, then the other class declarations. */
  datatype Goal = Goal(main: MainClass, decls: seq<TypeDecl>)

  /** `class N { public static void main(String[] a) { locals body } }` */
  datatype MainClass = MainClass(name: string, argName: string, locals: seq<VarDecl>, body: seq<Statement>)

  datatype TypeDecl =
    | ClassDecl(name: string, fields: seq<VarDecl>, methods: seq<MethodDecl>)
    | ClassExtendsDecl(name: string, superName: string, fields: seq<VarDecl>, methods: seq<MethodDecl>)

  /** A field, a parameter or a local: `Type Identifier`. */
  datatype VarDecl = VarDecl(typ: string, name: string)

  /** `public T m(params) { locals body return ret; }` */
  datatype MethodDecl = MethodDecl(returnType: string, name: string, params: seq<VarDecl>,
                                   locals: seq<VarDecl>, body: seq<Statement>, ret: Expression)

  datatype Statement =
    | Block(stmts: seq<Statement>)
    | Assign(target: string, value: Expression)
    | ArrayAssign(target: string, index: Expression, value: Expression)
    | If(cond: Expression, thn: Statement, els: Statement)
    | While(cond: Expression, body: Statement)
    | Print(value: Expression)

  datatype Expression =
    | And(left: Clause, right: Clause)
    | Compare(lhs: Primary, rhs: Primary)
    | Plus(lhs: Primary, rhs: Primary)
    | Minus(lhs: Primary, rhs: Primary)
    | Times(lhs: Primary, rhs: Primary)
    | ArrayLookup(arrayExpr: Primary, index: Primary)
    | ArrayLength(arrayExpr: Primary)
    | MessageSend(receiver: Primary, methodName: string, args: Arguments)
    | ClauseExpr(clause: Clause)

  /** The optional argument list of a call: absent, or a first expression and the rest. */
  datatype Arguments =
    | NoArguments
    | ExpressionList(first: Expression, rest: seq<Expression>)

  datatype Clause =
    | Not(operand: Clause)
    | PrimaryClause(primary: Primary)

  datatype Primary =
    | IntegerLiteral(value: nat)
    | TrueLiteral
    | FalseLiteral
    | Identifier(name: string)
    | ThisExpr
    | ArrayAllocation(size: Expression)
    | Allocation(className: string)
    | Bracket(inner: Expression)

  /** The argument expressions of a call, in order, empty when the list is absent. */
  function ArgumentExprs(a: Arguments): (r: seq<Expression>)
    ensures a.NoArguments? <==> r == []
    ensures a.ExpressionList? ==> |r| == 1 + |a.rest| && r[0] == a.first && r[1..] == a.rest
  {
    match a
    case NoArguments => []
    case ExpressionList(first, rest) => [first] + rest
  }

  /** Names declared by a list of declarations, in order. */
  function DeclNames(ds: seq<VarDecl>): (r: seq<string>)
    ensures |r| == |ds|
    ensures forall i :: 0 <= i < |ds| ==> r[i] == ds[i].name
  {
    seq(|ds|, i requires 0 <= i < |ds| => ds[i].name)
  }

  /** Types declared by a list of declarations, in order. */
  function DeclTypes(ds: seq<VarDecl>): (r: seq<string>)
    ensures |r| == |ds|
    ensures forall i :: 0 <= i < |ds| ==> r[i] == ds[i].typ
  {
    seq(|ds|, i requires 0 <= i < |ds| => ds[i].typ)
  }

  /** Names of a list of method declarations, in order. */
  function MethodDeclNames(ms: seq<MethodDecl>): (r: seq<string>)
    ensures |r| == |ms|
    ensures forall i :: 0 <= i < |ms| ==> r[i] == ms[i].name
  {
    seq(|ms|, i requires 0 <= i < |ms| => ms[i].name)
  }

  /** Names of a list of class declarations, in order. */
  function TypeDeclNames(ds: seq<TypeDecl>): (r: seq<string>)
    ensures |r| == |ds|
    ensures forall i :: 0 <= i < |ds| ==> r[i] == ds[i].name
  {
    seq(|ds|, i requires 0 <= i < |ds| => ds[i].name)
  }

  /** The name of every class of a program, main class first, in declaration order. */
  function ClassNames(g: Goal): (r: seq<string>)
    ensures |r| == 1 + |g.decls|
    ensures r[0] == g.main.name
    ensures forall i :: 0 <= i < |g.decls| ==> r[i + 1] == g.decls[i].name
  {
    [g.main.name] + TypeDeclNames(g.decls)
  }
}
