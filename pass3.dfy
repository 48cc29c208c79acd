/**
 * The third pass: type checking. Every statement of every method is checked
 * against the descriptors the second pass built, every expression gets a
 * type (a string: "int", "boolean", "int[]", a class name, or the transient
 * "this"), and every assignment that passes marks its target initialized.
 *
 * The meaning of each visit is a ghost function on the symbol table
 * (`ExprType`, `StmtEffect`, `ProgramEffect`, ...); the visitor class at the
 * end walks the program the way the source does and is proved to compute
 * exactly those functions.
 */
module TypeChecking {
  import opened Syntax
  import opened Errors
  import opened Descriptors
  import opened SymbolTables

  // ------------------------------------------------------------ the scope

  /**
   * `c` is a registered class. Stated on its own so that the facts
   * `Typable` keeps about every registered class are drawn only for the
   * classes a proof names.
   */
  ghost predicate Known(st: SymbolTable, c: ClassData)
    reads st
  {
    c in st.ClassObjs()
  }

  /**
   * What type checking relies on: every registered class is chained to
   * registered ancestors, and every method of a registered class belongs to
   * it and keeps its combined map consistent.
   */
  ghost predicate Typable(st: SymbolTable)
    reads st, st.ClassObjs(), set cls, mth | cls in st.ClassObjs() && mth in cls.methods :: mth
  {
    && (forall c {:trigger Known(st, c)} :: c in st.ClassObjs() ==> Chained(c) && ClassSet(c.ancestors) <= st.ClassObjs())
    && (forall c, m {:trigger Known(st, c), m in c.methods} :: c in st.ClassObjs() && m in c.methods ==>
          m.classData == c && m.Valid())
  }

  /** `m` is a method of a registered class of a table fit for type checking. */
  ghost predicate InScope(st: SymbolTable, m: MethodData)
    reads st, st.ClassObjs(), set cls, mth | cls in st.ClassObjs() && mth in cls.methods :: mth
  {
    Typable(st) && Known(st, m.classData) && m in m.classData.methods
  }

  /** A method a registered class declares is in scope. */
  lemma MethodInScope(st: SymbolTable, c: ClassData, n: string)
    requires Typable(st) && Known(st, c) && n in MethodNames(c.methods)
    ensures InScope(st, c.CertainMethod(n))
  {
    var m := c.CertainMethod(n);
    assert m in c.methods;
  }

  /** The fields of the classes `cs`. */
  ghost function FieldsOf(cs: seq<ClassData>): set<IdData>
    reads ClassSet(cs)
  {
    set a, v | a in ClassSet(cs) && v in a.variables :: v
  }

  /** The descriptors a name can denote inside `m`: its parameters and locals, and the fields of its class and of their ancestors. */
  ghost function Scope(st: SymbolTable, m: MethodData): set<IdData>
    requires InScope(st, m)
    reads st, st.ClassObjs(), set cls, mth | cls in st.ClassObjs() && mth in cls.methods :: mth
  {
    IdSet(m.variables) + IdSet(m.arguments) + FieldsOf([m.classData] + m.classData.ancestors)
  }

  /** The descriptors `ids` include every variable visible in `m`. */
  ghost predicate Covers(st: SymbolTable, m: MethodData, ids: set<IdData>)
    requires InScope(st, m)
    reads st, st.ClassObjs(), set cls, mth | cls in st.ClassObjs() && mth in cls.methods :: mth
  {
    Scope(st, m) <= ids
  }

  /**
   * The field name `n` denotes inside a method of `c`: the first field of
   * `c` of that name, else that field of the nearest strict ancestor
   * declaring one; null when none of them declares `n`.
   */
  ghost function FieldLookup(st: SymbolTable, c: ClassData, n: string): (r: IdData?)
    requires Typable(st) && Known(st, c)
    reads st, st.ClassObjs(), set cls, mth | cls in st.ClassObjs() && mth in cls.methods :: mth
    ensures r != null ==> r.name == n && r in FieldsOf([c] + c.ancestors)
  {
    var field := c.CertainVariable(n);
    if field != null then field
    else
      var owner := SuperVariableOwner(c, n);
      if owner != null then owner.CertainVariable(n) else null
  }

  /**
   * The descriptor name `n` denotes inside method `m`: the first local of
   * that name, else the first parameter, else the field `FieldLookup`
   * finds; null when none of them declares `n`.
   */
  ghost function Lookup(st: SymbolTable, m: MethodData, n: string): (r: IdData?)
    requires InScope(st, m)
    reads st, st.ClassObjs(), set cls, mth | cls in st.ClassObjs() && mth in cls.methods :: mth
    ensures r != null ==> r.name == n && r in Scope(st, m)
  {
    var local := m.CertainVariable(n);
    if local != null then local else FieldLookup(st, m.classData, n)
  }

  /**
   * The type an assignment to `n` is checked against: the binding of the
   * method's combined map when `n` is a local or parameter, else the type
   * of the field `Lookup` finds.
   */
  ghost function TargetType(st: SymbolTable, m: MethodData, n: string): string
    requires InScope(st, m) && Lookup(st, m, n) != null
    reads st, st.ClassObjs(), set cls, mth | cls in st.ClassObjs() && mth in cls.methods :: mth
  {
    var v := m.CertainVariable(n);
    if v != null then
      assert m.Valid() && (v in m.variables || v in m.arguments);
      m.generalVarMap[n].typ
    else Lookup(st, m, n).typ
  }

  // ------------------------------------------------------------- the types

  /** "this" stands for the enclosing class wherever a type is compared. */
  function ThisResolved(t: string, className: string): string {
    if t == "this" then className else t
  }

  /**
   * A value of type `actual` may go where `target` is expected: the two
   * are equal, or `actual` is a registered class with a strict ancestor
   * named `target`.
   */
  ghost predicate Compatible(st: SymbolTable, target: string, actual: string)
    reads st
  {
    target == actual || (actual in st.classMap && target in ClassNamesOf(st.classMap[actual].ancestors))
  }

  /** The method a call of `n` on a `cl` runs: `cl`'s own, else the nearest strict ancestor's; null when none declares `n`. */
  ghost function Callee(cl: ClassData, n: string): (r: MethodData?)
    reads cl, ClassSet(cl.ancestors)
    ensures r != null ==> r.name == n
  {
    var own := cl.CertainMethod(n);
    if own != null then own
    else
      var owner := SuperMethodOwner(cl, n);
      if owner != null then owner.CertainMethod(n) else null
  }

  /** The method a call on a registered class runs belongs to a registered class. */
  lemma CalleeListed(st: SymbolTable, cl: ClassData, n: string)
    requires Typable(st) && cl in st.ClassObjs()
    ensures Known(st, cl) && ClassSet(cl.ancestors) <= st.ClassObjs()
    ensures Callee(cl, n) != null ==> Known(st, Callee(cl, n).classData) && Callee(cl, n) in Callee(cl, n).classData.methods
  {
    assert Known(st, cl);
    var owner := SuperMethodOwner(cl, n);
    if cl.CertainMethod(n) == null && owner != null {
      assert Known(st, owner) && owner.CertainMethod(n) in owner.methods;
    }
  }

  /** The argument types fit the parameter types, position by position, once "this" is resolved to `className`. */
  ghost function ArgsCheck(st: SymbolTable, params: seq<string>, args: seq<string>, className: string): (o: Outcome)
    requires |params| == |args|
    reads st
  {
    if forall i :: 0 <= i < |args| ==> Compatible(st, params[i], ThisResolved(args[i], className)) then Pass
    else Fail(ArgumentTypeMismatch)
  }

  /** An operator over two `int` operands, giving `result`. */
  function IntOperands(t1: string, t2: string, result: string): (r: Result<string>) {
    if t1 == "int" && t2 == "int" then Ok(result) else Err(TypeMismatch)
  }

  /** The type of an expression inside method `m`, or the first violation met while computing it. */
  ghost function ExprType(st: SymbolTable, m: MethodData, e: Expression): Result<string>
    requires InScope(st, m)
    reads st, st.ClassObjs(), set cls, mth | cls in st.ClassObjs() && mth in cls.methods :: mth
    decreases e, 1
  {
    match e
    case And(a, b) =>
      var t1 :- ClauseType(st, m, a);
      var t2 :- ClauseType(st, m, b);
      if t1 == "boolean" && t2 == "boolean" then Ok("boolean") else Err(TypeMismatch)
    case Compare(a, b) =>
      var t1 :- PrimaryType(st, m, a);
      var t2 :- PrimaryType(st, m, b);
      IntOperands(t1, t2, "boolean")
    case Plus(a, b) =>
      var t1 :- PrimaryType(st, m, a);
      var t2 :- PrimaryType(st, m, b);
      IntOperands(t1, t2, "int")
    case Minus(a, b) =>
      var t1 :- PrimaryType(st, m, a);
      var t2 :- PrimaryType(st, m, b);
      IntOperands(t1, t2, "int")
    case Times(a, b) =>
      var t1 :- PrimaryType(st, m, a);
      var t2 :- PrimaryType(st, m, b);
      IntOperands(t1, t2, "int")
    case ArrayLookup(a, i) =>
      var ta :- PrimaryType(st, m, a);
      if ta != "int[]" then Err(InvalidArrayType)
      else
        var ti :- PrimaryType(st, m, i);
        if ti != "int" then Err(InvalidIndexType) else Ok("int")
    case ArrayLength(a) =>
      var ta :- PrimaryType(st, m, a);
      if ta != "int[]" then Err(InvalidArrayType) else Ok("int")
    case MessageSend(receiver, n, args) =>
      var t :- PrimaryType(st, m, receiver);
      SendType(st, m, ThisResolved(t, m.classData.name), n, args)
    case ClauseExpr(c) =>
      ClauseType(st, m, c)
  }

  /**
   * The type of a call of `n` with arguments `args` on a receiver of type
   * `cname`: an unregistered class and a method neither it nor an ancestor
   * declares stop the check; otherwise the call of the method it runs.
   */
  ghost function SendType(st: SymbolTable, m: MethodData, cname: string, n: string, args: Arguments): Result<string>
    requires InScope(st, m)
    reads st, st.ClassObjs(), set cls, mth | cls in st.ClassObjs() && mth in cls.methods :: mth
    decreases args, 3
  {
    if cname !in st.classMap then Err(UnknownClass)
    else
      var cl := st.classMap[cname];
      var callee := Callee(cl, n);
      CalleeListed(st, cl, n);
      if callee == null then Err(UnknownMethod) else CallType(st, m, callee, args)
  }

  /**
   * The type of a call of `callee` with arguments `args` inside `m`: its
   * return type, once the arguments, when given, match its parameters in
   * number and type; without arguments nothing is checked.
   */
  ghost function CallType(st: SymbolTable, m: MethodData, callee: MethodData, args: Arguments): Result<string>
    requires InScope(st, m) && Known(st, callee.classData) && callee in callee.classData.methods
    reads st, st.ClassObjs(), set cls, mth | cls in st.ClassObjs() && mth in cls.methods :: mth
    decreases args, 2
  {
    if args.NoArguments? then Ok(callee.returnType)
    else if callee.arguments == [] then Err(NoParametersExpected)
    else
      var ts :- ArgTypes(st, m, args);
      if |ts| != |callee.arguments| then Err(ArityMismatch)
      else
        var fit := ArgsCheck(st, Types(callee.arguments), ts, m.classData.name);
        if fit.Fail? then Err(fit.error) else Ok(callee.returnType)
  }

  /** The types of a present argument list, in order, up to the first violation. */
  ghost function ArgTypes(st: SymbolTable, m: MethodData, args: Arguments): Result<seq<string>>
    requires InScope(st, m) && args.ExpressionList?
    reads st, st.ClassObjs(), set cls, mth | cls in st.ClassObjs() && mth in cls.methods :: mth
    decreases args, 1
  {
    var t :- ExprType(st, m, args.first);
    var ts :- ListTypes(st, m, args.rest);
    Ok([t] + ts)
  }

  /** The types of `es`, in order, up to the first violation. */
  ghost function ListTypes(st: SymbolTable, m: MethodData, es: seq<Expression>): (r: Result<seq<string>>)
    requires InScope(st, m)
    reads st, st.ClassObjs(), set cls, mth | cls in st.ClassObjs() && mth in cls.methods :: mth
    ensures r.Ok? ==> |r.value| == |es|
    decreases es, 0
  {
    if es == [] then Ok([])
    else
      var ts :- ListTypes(st, m, es[..|es| - 1]);
      var t :- ExprType(st, m, es[|es| - 1]);
      Ok(ts + [t])
  }

  ghost function ClauseType(st: SymbolTable, m: MethodData, c: Clause): Result<string>
    requires InScope(st, m)
    reads st, st.ClassObjs(), set cls, mth | cls in st.ClassObjs() && mth in cls.methods :: mth
    decreases c, 1
  {
    match c
    case Not(operand) =>
      var t :- ClauseType(st, m, operand);
      if t == "boolean" then Ok("boolean") else Err(TypeMismatch)
    case PrimaryClause(p) =>
      PrimaryType(st, m, p)
  }

  /** What a primary alternative produces before name resolution. */
  ghost function RawType(st: SymbolTable, m: MethodData, p: Primary): Result<string>
    requires InScope(st, m)
    reads st, st.ClassObjs(), set cls, mth | cls in st.ClassObjs() && mth in cls.methods :: mth
    decreases p, 1
  {
    match p
    case IntegerLiteral(_) => Ok("int")
    case TrueLiteral => Ok("boolean")
    case FalseLiteral => Ok("boolean")
    case Identifier(n) => Ok(n)
    case ThisExpr => Ok("this")
    case ArrayAllocation(size) =>
      var t :- ExprType(st, m, size);
      if t == "int" then Ok("int[]") else Err(IncompatibleTypes)
    case Allocation(n) =>
      if n in st.classMap then Ok(n) else Err(UnknownClass)
    case Bracket(inner) =>
      ExprType(st, m, inner)
  }

  /** A string a primary produced, read as a name: the type of what it denotes, or the string itself. */
  ghost function Resolved(st: SymbolTable, m: MethodData, s: string): string
    requires InScope(st, m)
    reads st, st.ClassObjs(), set cls, mth | cls in st.ClassObjs() && mth in cls.methods :: mth
  {
    var v := Lookup(st, m, s);
    if v != null then v.typ else s
  }

  /** The type of a primary expression: whatever its alternative produced, resolved as a name. */
  ghost function PrimaryType(st: SymbolTable, m: MethodData, p: Primary): Result<string>
    requires InScope(st, m)
    reads st, st.ClassObjs(), set cls, mth | cls in st.ClassObjs() && mth in cls.methods :: mth
    decreases p, 2
  {
    var s :- RawType(st, m, p);
    Ok(Resolved(st, m, s))
  }

  // -------------------------------------------------------- the statements

  /** What running some checks did: how they ended, and which descriptors they marked initialized on the way. */
  datatype Effect = Effect(outcome: Outcome, marked: set<IdData>)

  /** Checks that pass and mark nothing. */
  const Nothing: Effect := Effect(Pass, {})

  /** A check that stops with `kind` before marking anything. */
  function Stop(kind: ErrorKind): (r: Effect) {
    Effect(Fail(kind), {})
  }

  /** Running `first` and then, unless it failed, `next`. */
  function Then(first: Effect, next: Effect): (r: Effect) {
    if first.outcome.Fail? then first else Effect(next.outcome, first.marked + next.marked)
  }

  /** Running the checks `es` in order, up to the first that fails. */
  function RunAll(es: seq<Effect>): (r: Effect)
    ensures r.outcome.Pass? <==> forall k :: 0 <= k < |es| ==> es[k].outcome.Pass?
    decreases |es|
  {
    if es == [] then Nothing
    else
      assert forall k :: 0 <= k < |es| - 1 ==> es[..|es| - 1][k] == es[k];
      Then(RunAll(es[..|es| - 1]), es[|es| - 1])
  }

  /** Running one more check. */
  lemma RunAllStep(es: seq<Effect>, i: nat)
    requires i < |es|
    ensures RunAll(es[..i + 1]) == Then(RunAll(es[..i]), es[i])
  {
    assert es[..i + 1][..i] == es[..i];
  }

  /** Once a prefix fails, the checks after it are never run. */
  lemma {:induction false} RunAllSticks(es: seq<Effect>, i: nat)
    requires i <= |es| && RunAll(es[..i]).outcome.Fail?
    ensures RunAll(es) == RunAll(es[..i])
    decreases |es| - i
  {
    if i == |es| {
      assert es[..i] == es;
    } else {
      RunAllStep(es, i);
      RunAllSticks(es, i + 1);
    }
  }

  /** A type computed for a check: its violation, or a pass exactly when it is `want`, else `kind`. */
  function Expect(r: Result<string>, want: string, kind: ErrorKind): (e: Effect) {
    match r
    case Err(k) => Stop(k)
    case Ok(t) => if t == want then Nothing else Stop(kind)
  }

  /**
   * The check of an assignment's right side against the target type
   * `target`: the value's violation, else a pass exactly when its type,
   * with "this" resolved, is compatible with `target`.
   */
  ghost function ValueCheck(st: SymbolTable, m: MethodData, target: string, value: Expression): Outcome
    requires InScope(st, m)
    reads st, st.ClassObjs(), set cls, mth | cls in st.ClassObjs() && mth in cls.methods :: mth
  {
    var r := ExprType(st, m, value);
    if r.Err? then Fail(r.error)
    else if Compatible(st, target, ThisResolved(r.value, m.classData.name)) then Pass
    else Fail(IncompatibleTypes)
  }

  /**
   * The check of `x[index] = value`, from the descriptor `v` that `x`
   * names and the types of the index and the value: `x` must be an
   * `int[]`, then the index an `int`, then the value an `int`.
   */
  function StoreEffect(v: IdData?, index: Result<string>, value: Result<string>): Effect {
    if v == null then Stop(UnknownName)
    else if v.typ != "int[]" then Stop(InvalidArrayType)
    else Then(Expect(index, "int", InvalidIndexType), Expect(value, "int", IncompatibleTypes))
  }

  /** What checking statement `s` inside method `m` does. */
  ghost function StmtEffect(st: SymbolTable, m: MethodData, s: Statement): Effect
    requires InScope(st, m)
    reads st, st.ClassObjs(), set cls, mth | cls in st.ClassObjs() && mth in cls.methods :: mth
    decreases s, 1
  {
    match s
    case Block(ss) =>
      RunAll(StmtEffects(st, m, ss))
    case Assign(x, value) =>
      var v := Lookup(st, m, x);
      if v == null then Stop(UnknownName)
      else
        var o := ValueCheck(st, m, TargetType(st, m, x), value);
        Effect(o, if o.Pass? then {v} else {})
    case ArrayAssign(x, index, value) =>
      StoreEffect(Lookup(st, m, x), ExprType(st, m, index), ExprType(st, m, value))
    case If(cond, thn, els) =>
      Then(Expect(ExprType(st, m, cond), "boolean", InvalidConditionType),
           Then(StmtEffect(st, m, thn), StmtEffect(st, m, els)))
    case While(cond, body) =>
      Then(Expect(ExprType(st, m, cond), "boolean", InvalidConditionType), StmtEffect(st, m, body))
    case Print(value) =>
      var r := ExprType(st, m, value);
      if r.Err? then Stop(r.error) else Nothing
  }

  /** An array assignment and a print mark nothing initialized. */
  lemma StoreMarksNothing(st: SymbolTable, m: MethodData, s: Statement)
    requires InScope(st, m) && (s.ArrayAssign? || s.Print?)
    ensures StmtEffect(st, m, s).marked == {}
  {
  }

  /** What checking each of the statements `ss` on its own does. */
  ghost function StmtEffects(st: SymbolTable, m: MethodData, ss: seq<Statement>): (r: seq<Effect>)
    requires InScope(st, m)
    reads st, st.ClassObjs(), set cls, mth | cls in st.ClassObjs() && mth in cls.methods :: mth
    decreases ss, 0
  {
    seq(|ss|, q requires 0 <= q < |ss| && InScope(st, m) reads st, st.ClassObjs(), set cls, mth | cls in st.ClassObjs() && mth in cls.methods :: mth =>
      StmtEffect(st, m, ss[q]))
  }

  // ----------------------------------------------------- methods, classes

  /** The return check: the type of the return expression is the declared return type, exactly. */
  ghost function ReturnEffect(st: SymbolTable, m: MethodData, ret: Expression): Effect
    requires InScope(st, m)
    reads st, st.ClassObjs(), set cls, mth | cls in st.ClassObjs() && mth in cls.methods :: mth
  {
    Expect(ExprType(st, m, ret), m.returnType, IncompatibleReturnType)
  }

  /** What checking method declaration `md` of class `c` does: its statements, then its return expression. */
  ghost function MethodEffect(st: SymbolTable, c: ClassData, md: MethodDecl): Effect
    requires Typable(st) && Known(st, c) && md.name in MethodNames(c.methods)
    reads st, st.ClassObjs(), set cls, mth | cls in st.ClassObjs() && mth in cls.methods :: mth
  {
    var m := c.CertainMethod(md.name);
    MethodInScope(st, c, md.name);
    Then(RunAll(StmtEffects(st, m, md.body)), ReturnEffect(st, m, md.ret))
  }

  /** Every method declaration of `mds` is a method of `c`. */
  ghost predicate MethodsReady(st: SymbolTable, c: ClassData, mds: seq<MethodDecl>)
    reads st, st.ClassObjs()
  {
    Known(st, c) && forall q :: 0 <= q < |mds| ==> mds[q].name in MethodNames(c.methods)
  }

  /** What checking each method declaration of `mds` of `c` on its own does. */
  ghost function MethodEffects(st: SymbolTable, c: ClassData, mds: seq<MethodDecl>): (r: seq<Effect>)
    requires Typable(st) && MethodsReady(st, c, mds)
    reads st, st.ClassObjs(), set cls, mth | cls in st.ClassObjs() && mth in cls.methods :: mth
  {
    seq(|mds|, q requires 0 <= q < |mds| && Typable(st) && MethodsReady(st, c, mds) reads st, st.ClassObjs(), set cls, mth | cls in st.ClassObjs() && mth in cls.methods :: mth =>
      MethodEffect(st, c, mds[q]))
  }

  /** Class declaration `d` is registered and declares no method its descriptor lacks. */
  ghost predicate DeclReady(st: SymbolTable, d: TypeDecl)
    reads st, st.ClassObjs()
  {
    d.name in st.classMap && MethodsReady(st, st.classMap[d.name], d.methods)
  }

  /** What checking a class declaration does: each of its method declarations in order. */
  ghost function DeclEffect(st: SymbolTable, d: TypeDecl): Effect
    requires Typable(st) && DeclReady(st, d)
    reads st, st.ClassObjs(), set cls, mth | cls in st.ClassObjs() && mth in cls.methods :: mth
  {
    RunAll(MethodEffects(st, st.classMap[d.name], d.methods))
  }

  /** What checking each of the class declarations `ds` on its own does. */
  ghost function DeclEffects(st: SymbolTable, ds: seq<TypeDecl>): (r: seq<Effect>)
    requires Typable(st) && forall k :: 0 <= k < |ds| ==> DeclReady(st, ds[k])
    reads st, st.ClassObjs(), set cls, mth | cls in st.ClassObjs() && mth in cls.methods :: mth
  {
    seq(|ds|, k requires 0 <= k < |ds| && Typable(st) && DeclReady(st, ds[k]) reads st, st.ClassObjs(), set cls, mth | cls in st.ClassObjs() && mth in cls.methods :: mth =>
      DeclEffect(st, ds[k]))
  }

  /** What the type checker needs of the table for `g`: every class of `g` registered with the methods it declares. */
  ghost predicate Checkable(st: SymbolTable, g: Goal)
    reads st, st.ClassObjs(), set cls, mth | cls in st.ClassObjs() && mth in cls.methods :: mth
  {
    && Typable(st)
    && g.main.name in st.classMap && "main" in MethodNames(st.classMap[g.main.name].methods)
    && forall k :: 0 <= k < |g.decls| ==> DeclReady(st, g.decls[k])
  }

  /** What checking the main method does. */
  ghost function MainEffect(st: SymbolTable, g: Goal): Effect
    requires Checkable(st, g)
    reads st, st.ClassObjs(), set cls, mth | cls in st.ClassObjs() && mth in cls.methods :: mth
  {
    var m := st.classMap[g.main.name].CertainMethod("main");
    MethodInScope(st, st.classMap[g.main.name], "main");
    RunAll(StmtEffects(st, m, g.main.body))
  }

  /** What the third pass does with program `g`: the main method, then every class declaration in order. */
  ghost function ProgramEffect(st: SymbolTable, g: Goal): Effect
    requires Checkable(st, g)
    reads st, st.ClassObjs(), set cls, mth | cls in st.ClassObjs() && mth in cls.methods :: mth
  {
    Then(MainEffect(st, g), RunAll(DeclEffects(st, g.decls)))
  }

  /** Once a prefix of `es` fails to type, so does the whole list, with the same violation. */
  lemma {:induction false} ListTypesSticks(st: SymbolTable, m: MethodData, es: seq<Expression>, i: nat)
    requires InScope(st, m) && i <= |es| && ListTypes(st, m, es[..i]).Err?
    ensures ListTypes(st, m, es) == ListTypes(st, m, es[..i])
    decreases |es| - i
  {
    if i == |es| {
      assert es[..i] == es;
    } else {
      assert es[..i + 1][..i] == es[..i];
      ListTypesSticks(st, m, es, i + 1);
    }
  }

  /** The descriptors `ids` include every descriptor of the table. */
  ghost predicate Spans(st: SymbolTable, ids: set<IdData>)
    reads st, st.ClassObjs(), set cls, mth | cls in st.ClassObjs() && mth in cls.methods :: mth
  {
    st.IdObjs() <= ids
  }

  /** A set holding every descriptor of the table covers every method in scope. */
  lemma CoversAll(st: SymbolTable, m: MethodData, ids: set<IdData>)
    requires InScope(st, m) && Spans(st, ids)
    ensures Covers(st, m, ids)
  {
    ScopeWithin(st, m);
  }

  /** Every descriptor a method in scope can name is a descriptor of the table. */
  lemma ScopeWithin(st: SymbolTable, m: MethodData)
    requires InScope(st, m)
    ensures Scope(st, m) <= st.IdObjs()
  {
    var c := m.classData;
    assert Known(st, c);
    forall v | v in FieldsOf([c] + c.ancestors) ensures v in st.FieldObjs() {
      var a :| a in ClassSet([c] + c.ancestors) && v in a.variables;
      assert Known(st, a);
    }
  }

  // ------------------------------------------------------------ the visitor

  /**
   * The third visitor. Every visit of an expression returns its type (or
   * the violation that stops the program); every visit of a statement
   * reports how checking ended and sets the initialized flag of each
   * descriptor an assignment wrote to. `ids` is a set of descriptors that
   * contains everything the visited method can name; only their flags change.
   */
  class Visitor3 {
    const symbolTable: SymbolTable

    constructor (symbolTable: SymbolTable)
      ensures this.symbolTable == symbolTable
    {
      this.symbolTable := symbolTable;
    }


    /** Whether a value of type `actual` may go where `target` is expected, as the assignment and argument checks decide it. */
    method Assignable(target: string, actual: string) returns (b: bool)
      requires Typable(symbolTable)
      ensures b == Compatible(symbolTable, target, actual)
    {
      if target == actual {
        return true;
      }
      if actual !in symbolTable.classMap {
        return false;
      }
      var idClass := symbolTable.classMap[actual];
      assert Known(symbolTable, idClass);
      b := symbolTable.VariableTypePolymorphism(target, idClass);
    }

    /** The field `n` denotes inside a method of `c`, as the three lookups of the source find it. */
    method FindField(c: ClassData, n: string) returns (v: IdData?)
      requires Typable(symbolTable) && Known(symbolTable, c)
      ensures v == FieldLookup(symbolTable, c, n)
    {
      var field := c.VariableExists(n);
      if field {
        v := c.GetCertainVariable(n);
        return;
      }
      var inSuper := symbolTable.VariableExistsInSuper(n, c);
      if inSuper {
        var owner := symbolTable.GetSuperVariable(n, c);
        v := owner.GetCertainVariable(n);
        return;
      }
      return null;
    }

    /** The descriptor `n` denotes inside `m`: a local or parameter, else a field. */
    method FindVariable(m: MethodData, n: string) returns (v: IdData?)
      requires InScope(symbolTable, m)
      ensures v == Lookup(symbolTable, m, n)
    {
      var local := m.VariableExists(n);
      if local {
        v := m.GetCertainVariable(n);
        return;
      }
      v := FindField(m.classData, n);
    }

    /** The string a primary produced, resolved as a name inside `m`. */
    method ResolveName(m: MethodData, s: string) returns (t: string)
      requires InScope(symbolTable, m)
      ensures t == Resolved(symbolTable, m, s)
    {
      var v := FindVariable(m, s);
      if v != null {
        return v.typ;
      }
      return s;
    }

    method VisitExpression(m: MethodData, e: Expression) returns (r: Result<string>)
      requires InScope(symbolTable, m)
      ensures r == ExprType(symbolTable, m, e)
      decreases e, 2
    {
      match e
      case And(_, _) => r := VisitAnd(m, e);
      case Compare(_, _) => r := VisitIntOperator(m, e);
      case Plus(_, _) => r := VisitIntOperator(m, e);
      case Minus(_, _) => r := VisitIntOperator(m, e);
      case Times(_, _) => r := VisitIntOperator(m, e);
      case ArrayLookup(_, _) => r := VisitArrayLookup(m, e);
      case ArrayLength(_) => r := VisitArrayLength(m, e);
      case MessageSend(_, _, _) => r := VisitMessageSend(m, e);
      case ClauseExpr(c) => r := VisitClause(m, c);
    }

    method VisitAnd(m: MethodData, e: Expression) returns (r: Result<string>)
      requires InScope(symbolTable, m) && e.And?
      ensures r == ExprType(symbolTable, m, e)
      decreases e, 1
    {
      var clause1 :- VisitClause(m, e.left);
      var clause2 :- VisitClause(m, e.right);
      if !(clause1 == "boolean" && clause2 == "boolean") {
        return Err(TypeMismatch);
      }
      return Ok("boolean");
    }

    /** `<`, `+`, `-` and `*`: two `int` operands; `<` gives "boolean", the others "int". */
    method VisitIntOperator(m: MethodData, e: Expression) returns (r: Result<string>)
      requires InScope(symbolTable, m) && (e.Compare? || e.Plus? || e.Minus? || e.Times?)
      ensures r == ExprType(symbolTable, m, e)
      decreases e, 1
    {
      var clause1 :- VisitPrimary(m, e.lhs);
      var clause2 :- VisitPrimary(m, e.rhs);
      if !(clause1 == "int" && clause2 == "int") {
        return Err(TypeMismatch);
      }
      return Ok(if e.Compare? then "boolean" else "int");
    }

    method VisitArrayLength(m: MethodData, e: Expression) returns (r: Result<string>)
      requires InScope(symbolTable, m) && e.ArrayLength?
      ensures r == ExprType(symbolTable, m, e)
      decreases e, 1
    {
      var arrayType :- VisitPrimary(m, e.arrayExpr);
      if arrayType != "int[]" {
        return Err(InvalidArrayType);
      }
      return Ok("int");
    }

    method VisitArrayLookup(m: MethodData, e: Expression) returns (r: Result<string>)
      requires InScope(symbolTable, m) && e.ArrayLookup?
      ensures r == ExprType(symbolTable, m, e)
      decreases e, 1
    {
      var arrayType :- VisitPrimary(m, e.arrayExpr);
      if arrayType != "int[]" {
        return Err(InvalidArrayType);
      }
      var indexType :- VisitPrimary(m, e.index);
      if indexType != "int" {
        return Err(InvalidIndexType);
      }
      return Ok("int");
    }

    /**
     * A call: the receiver's class (an unregistered one stops the check),
     * the method found in it or its nearest ancestor, and, when arguments
     * are given, their number and types against the parameters.
     */
    method VisitMessageSend(m: MethodData, e: Expression) returns (r: Result<string>)
      requires InScope(symbolTable, m) && e.MessageSend?
      ensures r == ExprType(symbolTable, m, e)
      decreases e, 1
    {
      var primaryExpressionType :- VisitPrimary(m, e.receiver);
      if primaryExpressionType == "this" {
        primaryExpressionType := m.classData.name;
      }
      r := VisitSend(m, primaryExpressionType, e.methodName, e.args);
    }

    /** A call of `method_` on a receiver of type `receiverType`, "this" already resolved. */
    method VisitSend(m: MethodData, receiverType: string, method_: string, args: Arguments) returns (r: Result<string>)
      requires InScope(symbolTable, m)
      ensures r == SendType(symbolTable, m, receiverType, method_, args)
      decreases args, 3
    {
      var callingClass := symbolTable.GetCertainClass(receiverType);
      if callingClass == null {
        return Err(UnknownClass);
      }
      CalleeListed(symbolTable, callingClass, method_);
      var calledMethod := FindCalledMethod(callingClass, method_);
      if calledMethod == null {
        return Err(UnknownMethod);
      }
      r := VisitCall(m, calledMethod, args);
    }

    /** The method a call of `method_` on a `callingClass` runs: its own, else the nearest ancestor's. */
    method FindCalledMethod(callingClass: ClassData, method_: string) returns (calledMethod: MethodData?)
      requires Typable(symbolTable) && Known(symbolTable, callingClass)
      ensures calledMethod == Callee(callingClass, method_)
    {
      var own := callingClass.MethodExists(method_);
      if !own {
        var inSuper := symbolTable.MethodExistsInSuper(method_, callingClass);
        if !inSuper {
          return null;
        }
        var actualMethodsClass := symbolTable.GetSuperMethod(method_, callingClass);
        calledMethod := actualMethodsClass.GetCertainMethod(method_);
      } else {
        calledMethod := callingClass.GetCertainMethod(method_);
      }
    }

    /** The arguments of a call of `calledMethod`, when given, against its parameters; then its return type. */
    method VisitCall(m: MethodData, calledMethod: MethodData, args: Arguments) returns (r: Result<string>)
      requires InScope(symbolTable, m) && Known(symbolTable, calledMethod.classData)
      requires calledMethod in calledMethod.classData.methods
      ensures r == CallType(symbolTable, m, calledMethod, args)
      decreases args, 2
    {
      if args.ExpressionList? {
        if calledMethod.arguments == [] {
          return Err(NoParametersExpected);
        }
        var argumentTypes :- VisitExpressionList(m, args);
        if |argumentTypes| != |calledMethod.arguments| {
          return Err(ArityMismatch);
        }
        var fit := CheckArguments(m, calledMethod.arguments, argumentTypes);
        if fit.Fail? {
          return Err(fit.error);
        }
      }
      return Ok(calledMethod.returnType);
    }

    /** The argument types against the parameters `params` of the method called, position by position. */
    method CheckArguments(m: MethodData, params: seq<IdData>, argumentTypes: seq<string>) returns (o: Outcome)
      requires InScope(symbolTable, m) && |params| == |argumentTypes|
      ensures o == ArgsCheck(symbolTable, Types(params), argumentTypes, m.classData.name)
    {
      var i := 0;
      while i < |argumentTypes|
        invariant 0 <= i <= |argumentTypes|
        invariant forall j :: 0 <= j < i ==> Compatible(symbolTable, Types(params)[j], ThisResolved(argumentTypes[j], m.classData.name))
      {
        var legitArgumentType := params[i].typ;
        var toBeCheckedArgumentType := argumentTypes[i];
        if toBeCheckedArgumentType == "this" {
          toBeCheckedArgumentType := m.classData.name;
        }
        var fits := Assignable(legitArgumentType, toBeCheckedArgumentType);
        if !fits {
          return Fail(ArgumentTypeMismatch);
        }
        i := i + 1;
      }
      return Pass;
    }

    /** A present argument list: the first type, then those of the rest. */
    method VisitExpressionList(m: MethodData, args: Arguments) returns (r: Result<seq<string>>)
      requires InScope(symbolTable, m) && args.ExpressionList?
      ensures r == ArgTypes(symbolTable, m, args)
      decreases args, 1
    {
      var firstType :- VisitExpression(m, args.first);
      var argumentListRest :- VisitExpressionTail(m, args.rest);
      return Ok([firstType] + argumentListRest);
    }

    /** The types of the remaining arguments, in order. */
    method VisitExpressionTail(m: MethodData, es: seq<Expression>) returns (r: Result<seq<string>>)
      requires InScope(symbolTable, m)
      ensures r == ListTypes(symbolTable, m, es)
      decreases es, 0
    {
      var argumentListRest: seq<string> := [];
      var i := 0;
      while i < |es|
        invariant 0 <= i <= |es|
        invariant ListTypes(symbolTable, m, es[..i]) == Ok(argumentListRest)
      {
        assert es[..i + 1][..i] == es[..i];
        var argument := VisitExpression(m, es[i]);
        if argument.Err? {
          ListTypesSticks(symbolTable, m, es, i + 1);
          return Err(argument.error);
        }
        argumentListRest := argumentListRest + [argument.value];
        i := i + 1;
      }
      assert es[..i] == es;
      return Ok(argumentListRest);
    }

    method VisitClause(m: MethodData, c: Clause) returns (r: Result<string>)
      requires InScope(symbolTable, m)
      ensures InScope(symbolTable, m)
      ensures r == ClauseType(symbolTable, m, c)
      decreases c, 1
    {
      match c
      case Not(operand) =>
        var expressionType :- VisitClause(m, operand);
        if expressionType != "boolean" {
          return Err(TypeMismatch);
        }
        return Ok("boolean");
      case PrimaryClause(p) =>
        r := VisitPrimary(m, p);
    }

    /** A primary expression: what its alternative produced, resolved as a name. */
    method VisitPrimary(m: MethodData, p: Primary) returns (r: Result<string>)
      requires InScope(symbolTable, m)
      ensures r == PrimaryType(symbolTable, m, p)
      decreases p, 2
    {
      var primaryExpression :- VisitAlternative(m, p);
      var t := ResolveName(m, primaryExpression);
      return Ok(t);
    }

    /** The alternatives of a primary expression, before name resolution. */
    method VisitAlternative(m: MethodData, p: Primary) returns (r: Result<string>)
      requires InScope(symbolTable, m)
      ensures r == RawType(symbolTable, m, p)
      decreases p, 1
    {
      match p
      case IntegerLiteral(_) => return Ok("int");
      case TrueLiteral => return Ok("boolean");
      case FalseLiteral => return Ok("boolean");
      case Identifier(n) => return Ok(n);
      case ThisExpr => return Ok("this");
      case ArrayAllocation(size) =>
        var expressionType :- VisitExpression(m, size);
        if expressionType != "int" {
          return Err(IncompatibleTypes);
        }
        return Ok("int[]");
      case Allocation(identifier) =>
        var c := symbolTable.GetCertainClass(identifier);
        if c == null {
          return Err(UnknownClass);
        }
        return Ok(identifier);
      case Bracket(inner) =>
        r := VisitExpression(m, inner);
    }
  
    // ------------------------------------------------------- statements

    /** The check of an assignment's right side `value` against the target type `target`. */
    method CheckAssignedValue(m: MethodData, target: string, value: Expression) returns (o: Outcome)
      requires InScope(symbolTable, m)
      ensures o == ValueCheck(symbolTable, m, target, value)
    {
      var r := VisitExpression(m, value);
      if r.Err? {
        return Fail(r.error);
      }
      var expressionType := r.value;
      if expressionType == "this" {
        expressionType := m.classData.name;
      }
      var fits := Assignable(target, expressionType);
      if !fits {
        return Fail(IncompatibleTypes);
      }
      return Pass;
    }

    method VisitStatement(m: MethodData, s: Statement, ghost ids: set<IdData>) returns (o: Outcome)
      requires InScope(symbolTable, m) && Covers(symbolTable, m, ids)
      modifies ids`initialized
      ensures o == old(StmtEffect(symbolTable, m, s)).outcome
      ensures forall v :: v in ids ==> v.initialized == (old(v.initialized) || v in old(StmtEffect(symbolTable, m, s)).marked)
      decreases s, 2
    {
      match s
      case Block(_) => o := VisitBlock(m, s, ids);
      case Assign(_, _) => o := VisitAssignment(m, s, ids);
      case ArrayAssign(_, _, _) =>
        StoreMarksNothing(symbolTable, m, s);
        o := VisitArrayAssignment(m, s);
      case If(_, _, _) => o := VisitIf(m, s, ids);
      case While(_, _) => o := VisitWhile(m, s, ids);
      case Print(_) =>
        StoreMarksNothing(symbolTable, m, s);
        o := VisitPrint(m, s);
    }

    method VisitBlock(m: MethodData, s: Statement, ghost ids: set<IdData>) returns (o: Outcome)
      requires InScope(symbolTable, m) && Covers(symbolTable, m, ids) && s.Block?
      modifies ids`initialized
      ensures o == old(StmtEffect(symbolTable, m, s)).outcome
      ensures forall v :: v in ids ==> v.initialized == (old(v.initialized) || v in old(StmtEffect(symbolTable, m, s)).marked)
      decreases s, 1
    {
      o := VisitStatements(m, s.stmts, ids);
    }

    /**
     * The statements `ss` in order, up to the first that fails; the flags
     * are those of the checks that ran.
     */
    method VisitStatements(m: MethodData, ss: seq<Statement>, ghost ids: set<IdData>) returns (o: Outcome)
      requires InScope(symbolTable, m) && Covers(symbolTable, m, ids)
      modifies ids`initialized
      ensures o == old(RunAll(StmtEffects(symbolTable, m, ss))).outcome
      ensures forall v :: v in ids ==> v.initialized == (old(v.initialized) || v in old(RunAll(StmtEffects(symbolTable, m, ss))).marked)
      decreases ss, 0
    {
      ghost var es := StmtEffects(symbolTable, m, ss);
      var i := 0;
      while i < |ss|
        invariant 0 <= i <= |ss|
        invariant RunAll(es[..i]).outcome.Pass?
        invariant forall v :: v in ids ==> v.initialized == (old(v.initialized) || v in RunAll(es[..i]).marked)
      {
        assert StmtEffect(symbolTable, m, ss[i]) == es[i];
        o := VisitStatement(m, ss[i], ids);
        RunAllStep(es, i);
        if o.Fail? {
          RunAllSticks(es, i + 1);
          return;
        }
        i := i + 1;
      }
      assert es[..i] == es;
      return Pass;
    }

    /**
     * An assignment: the target is the local or parameter, else the field
     * of the class, else the field of the nearest ancestor, named so; its
     * type comes from the method's combined map in the first case. The
     * value must fit that type, and the target is then marked initialized.
     */
    method VisitAssignment(m: MethodData, s: Statement, ghost ids: set<IdData>) returns (o: Outcome)
      requires InScope(symbolTable, m) && Covers(symbolTable, m, ids) && s.Assign?
      modifies ids`initialized
      ensures o == old(StmtEffect(symbolTable, m, s)).outcome
      ensures forall v :: v in ids ==> v.initialized == (old(v.initialized) || v in old(StmtEffect(symbolTable, m, s)).marked)
      decreases s, 1
    {
      var target: IdData?;
      o, target := CheckAssignment(m, s.target, s.value);
      assert StmtEffect(symbolTable, m, s) == Effect(o, if o.Pass? then {target} else {});
      if o.Pass? {
        target.SetInitialized(true);
      }
    }

    /**
     * The check of `x = value` without its marking: the descriptor `x`
     * names, and how the check of the value against its type ends.
     */
    method CheckAssignment(m: MethodData, x: string, value: Expression) returns (o: Outcome, target: IdData?)
      requires InScope(symbolTable, m)
      ensures target == Lookup(symbolTable, m, x)
      ensures target == null ==> o == Fail(UnknownName)
      ensures target != null ==> o == ValueCheck(symbolTable, m, TargetType(symbolTable, m, x), value)
    {
      var local := m.VariableExists(x);
      if local {
        o, target := CheckLocalAssignment(m, x, value);
      } else {
        o, target := CheckFieldAssignment(m, x, value);
      }
    }

    /**
     * The check of an assignment to the local or parameter `identifier`,
     * typed by the method's combined map, and the descriptor it marks.
     */
    method CheckLocalAssignment(m: MethodData, identifier: string, value: Expression) returns (o: Outcome, target: IdData?)
      requires InScope(symbolTable, m) && m.CertainVariable(identifier) != null
      ensures identifier in m.generalVarMap
      ensures o == ValueCheck(symbolTable, m, m.generalVarMap[identifier].typ, value)
      ensures target == m.CertainVariable(identifier)
    {
      assert m.Valid();
      var identifiersData := m.generalVarMap[identifier];
      o := CheckAssignedValue(m, identifiersData.typ, value);
      target := m.GetCertainVariable(identifier);
    }

    /**
     * The check of an assignment to the field `identifier` of the class or
     * of its nearest ancestor declaring one, and the descriptor it marks.
     */
    method CheckFieldAssignment(m: MethodData, identifier: string, value: Expression) returns (o: Outcome, target: IdData?)
      requires InScope(symbolTable, m)
      ensures target == FieldLookup(symbolTable, m.classData, identifier)
      ensures target == null ==> o == Fail(UnknownName)
      ensures target != null ==> o == ValueCheck(symbolTable, m, target.typ, value)
    {
      target := FindField(m.classData, identifier);
      if target == null {
        return Fail(UnknownName), null;
      }
      o := CheckAssignedValue(m, target.typ, value);
    }

    /** `x[index] = value`: `x` must name an `int[]`, and the index and the value must be `int`. */
    method VisitArrayAssignment(m: MethodData, s: Statement) returns (o: Outcome)
      requires InScope(symbolTable, m) && s.ArrayAssign?
      ensures o == StmtEffect(symbolTable, m, s).outcome
    {
      var v := FindVariable(m, s.target);
      if v == null {
        return Fail(UnknownName);
      }
      var arrayType := v.typ;
      if arrayType != "int[]" {
        return Fail(InvalidArrayType);
      }
      o := CheckStoredValue(m, s.index, s.value);
    }

    /** The index and then the value of an array assignment, both `int`. */
    method CheckStoredValue(m: MethodData, index: Expression, value: Expression) returns (o: Outcome)
      requires InScope(symbolTable, m)
      ensures o == Then(Expect(ExprType(symbolTable, m, index), "int", InvalidIndexType),
                        Expect(ExprType(symbolTable, m, value), "int", IncompatibleTypes)).outcome
    {
      var arrayIndex := VisitExpression(m, index);
      if arrayIndex.Err? {
        return Fail(arrayIndex.error);
      }
      if arrayIndex.value != "int" {
        return Fail(InvalidIndexType);
      }
      var expressionType := VisitExpression(m, value);
      if expressionType.Err? {
        return Fail(expressionType.error);
      }
      if expressionType.value != "int" {
        return Fail(IncompatibleTypes);
      }
      return Pass;
    }

    method VisitPrint(m: MethodData, s: Statement) returns (o: Outcome)
      requires InScope(symbolTable, m) && s.Print?
      ensures o == StmtEffect(symbolTable, m, s).outcome
    {
      var t := VisitExpression(m, s.value);
      if t.Err? {
        return Fail(t.error);
      }
      return Pass;
    }

    /** The condition of an `if` or a `while`: its violation, else a pass exactly when it is `boolean`. */
    method CheckCondition(m: MethodData, cond: Expression) returns (o: Outcome)
      requires InScope(symbolTable, m)
      ensures o == Expect(ExprType(symbolTable, m, cond), "boolean", InvalidConditionType).outcome
    {
      var expressionType := VisitExpression(m, cond);
      if expressionType.Err? {
        return Fail(expressionType.error);
      }
      if expressionType.value != "boolean" {
        return Fail(InvalidConditionType);
      }
      return Pass;
    }

    /** `if`: a `boolean` condition, then both branches in order. */
    method VisitIf(m: MethodData, s: Statement, ghost ids: set<IdData>) returns (o: Outcome)
      requires InScope(symbolTable, m) && Covers(symbolTable, m, ids) && s.If?
      modifies ids`initialized
      ensures o == old(StmtEffect(symbolTable, m, s)).outcome
      ensures forall v :: v in ids ==> v.initialized == (old(v.initialized) || v in old(StmtEffect(symbolTable, m, s)).marked)
      decreases s, 1
    {
      o := CheckCondition(m, s.cond);
      if o.Fail? {
        return;
      }
      o := VisitBranches(m, s, ids);
    }

    /** The two branches of the `if` statement `s`, in order, up to the first that fails. */
    method VisitBranches(m: MethodData, s: Statement, ghost ids: set<IdData>) returns (o: Outcome)
      requires InScope(symbolTable, m) && Covers(symbolTable, m, ids) && s.If?
      modifies ids`initialized
      ensures o == old(Then(StmtEffect(symbolTable, m, s.thn), StmtEffect(symbolTable, m, s.els))).outcome
      ensures forall v :: v in ids ==> v.initialized == (old(v.initialized) || v in old(Then(StmtEffect(symbolTable, m, s.thn), StmtEffect(symbolTable, m, s.els))).marked)
      decreases s, 0
    {
      o := VisitStatement(m, s.thn, ids);
      if o.Fail? {
        return;
      }
      o := VisitStatement(m, s.els, ids);
    }

    /** `while`: a `boolean` condition, then the body, checked once. */
    method VisitWhile(m: MethodData, s: Statement, ghost ids: set<IdData>) returns (o: Outcome)
      requires InScope(symbolTable, m) && Covers(symbolTable, m, ids) && s.While?
      modifies ids`initialized
      ensures o == old(StmtEffect(symbolTable, m, s)).outcome
      ensures forall v :: v in ids ==> v.initialized == (old(v.initialized) || v in old(StmtEffect(symbolTable, m, s)).marked)
      decreases s, 1
    {
      o := CheckCondition(m, s.cond);
      if o.Fail? {
        return;
      }
      o := VisitStatement(m, s.body, ids);
    }

    /** The return expression of `m`: its type must be the declared return type, exactly. */
    method CheckReturn(m: MethodData, ret: Expression) returns (o: Outcome)
      requires InScope(symbolTable, m)
      ensures o == ReturnEffect(symbolTable, m, ret).outcome
    {
      var returnType := VisitExpression(m, ret);
      if returnType.Err? {
        return Fail(returnType.error);
      }
      if m.returnType != returnType.value {
        return Fail(IncompatibleReturnType);
      }
      return Pass;
    }

    /**
     * A method declaration of class `c`: its descriptor is the first method
     * of `c` so named; its statements in order, then its return expression.
     */
    method VisitMethodDeclaration(c: ClassData, md: MethodDecl, ghost ids: set<IdData>) returns (o: Outcome)
      requires Typable(symbolTable) && Known(symbolTable, c) && md.name in MethodNames(c.methods)
      requires Spans(symbolTable, ids)
      modifies ids`initialized
      ensures o == old(MethodEffect(symbolTable, c, md)).outcome
      ensures forall v :: v in ids ==> v.initialized == (old(v.initialized) || v in old(MethodEffect(symbolTable, c, md)).marked)
    {
      MethodInScope(symbolTable, c, md.name);
      CoversAll(symbolTable, c.CertainMethod(md.name), ids);
      ghost var effect := MethodEffect(symbolTable, c, md);
      var currentMethod := c.GetCertainMethod(md.name);
      assert currentMethod == old(c.CertainMethod(md.name));
      assert effect == old(Then(RunAll(StmtEffects(symbolTable, currentMethod, md.body)),
                                ReturnEffect(symbolTable, currentMethod, md.ret)));
      assert StmtEffects(symbolTable, currentMethod, md.body) == old(StmtEffects(symbolTable, currentMethod, md.body));
      assert ReturnEffect(symbolTable, currentMethod, md.ret) == old(ReturnEffect(symbolTable, currentMethod, md.ret));
      o := VisitMethodBody(currentMethod, md.body, md.ret, ids);
    }

    /** The statements `body` of method `m` in order, then its return expression `ret`. */
    method VisitMethodBody(m: MethodData, body: seq<Statement>, ret: Expression, ghost ids: set<IdData>) returns (o: Outcome)
      requires InScope(symbolTable, m) && Covers(symbolTable, m, ids)
      modifies ids`initialized
      ensures o == old(Then(RunAll(StmtEffects(symbolTable, m, body)), ReturnEffect(symbolTable, m, ret))).outcome
      ensures forall v :: v in ids ==> v.initialized == (old(v.initialized) || v in old(Then(RunAll(StmtEffects(symbolTable, m, body)), ReturnEffect(symbolTable, m, ret))).marked)
    {
      o := VisitStatements(m, body, ids);
      if o.Fail? {
        return;
      }
      o := CheckReturn(m, ret);
    }

    /** The method declarations `mds` of class `c` in order, up to the first that fails. */
    method VisitMethodDeclarations(c: ClassData, mds: seq<MethodDecl>, ghost ids: set<IdData>) returns (o: Outcome)
      requires Typable(symbolTable) && MethodsReady(symbolTable, c, mds) && Spans(symbolTable, ids)
      modifies ids`initialized
      ensures o == old(RunAll(MethodEffects(symbolTable, c, mds))).outcome
      ensures forall v :: v in ids ==> v.initialized == (old(v.initialized) || v in old(RunAll(MethodEffects(symbolTable, c, mds))).marked)
    {
      ghost var es := MethodEffects(symbolTable, c, mds);
      var i := 0;
      while i < |mds|
        invariant 0 <= i <= |mds|
        invariant RunAll(es[..i]).outcome.Pass?
        invariant forall v :: v in ids ==> v.initialized == (old(v.initialized) || v in RunAll(es[..i]).marked)
      {
        assert MethodEffect(symbolTable, c, mds[i]) == es[i];
        o := VisitMethodDeclaration(c, mds[i], ids);
        RunAllStep(es, i);
        if o.Fail? {
          RunAllSticks(es, i + 1);
          return;
        }
        i := i + 1;
      }
      assert es[..i] == es;
      return Pass;
    }

    /** A class declaration, with or without `extends`: its method declarations, in order. */
    method VisitTypeDeclaration(d: TypeDecl, ghost ids: set<IdData>) returns (o: Outcome)
      requires Typable(symbolTable) && DeclReady(symbolTable, d) && Spans(symbolTable, ids)
      modifies ids`initialized
      ensures o == old(DeclEffect(symbolTable, d)).outcome
      ensures forall v :: v in ids ==> v.initialized == (old(v.initialized) || v in old(DeclEffect(symbolTable, d)).marked)
    {
      var cdata := symbolTable.classMap[d.name];
      o := VisitMethodDeclarations(cdata, d.methods, ids);
    }

    /** The class declarations `ds` in order, up to the first that fails. */
    method VisitTypeDeclarations(ds: seq<TypeDecl>, ghost ids: set<IdData>) returns (o: Outcome)
      requires Typable(symbolTable) && (forall k :: 0 <= k < |ds| ==> DeclReady(symbolTable, ds[k])) && Spans(symbolTable, ids)
      modifies ids`initialized
      ensures o == old(RunAll(DeclEffects(symbolTable, ds))).outcome
      ensures forall v :: v in ids ==> v.initialized == (old(v.initialized) || v in old(RunAll(DeclEffects(symbolTable, ds))).marked)
    {
      ghost var es := DeclEffects(symbolTable, ds);
      var i := 0;
      while i < |ds|
        invariant 0 <= i <= |ds|
        invariant RunAll(es[..i]).outcome.Pass?
        invariant forall v :: v in ids ==> v.initialized == (old(v.initialized) || v in RunAll(es[..i]).marked)
      {
        assert DeclEffect(symbolTable, ds[i]) == es[i];
        o := VisitTypeDeclaration(ds[i], ids);
        RunAllStep(es, i);
        if o.Fail? {
          RunAllSticks(es, i + 1);
          return;
        }
        i := i + 1;
      }
      assert es[..i] == es;
      return Pass;
    }

    /** The main class: the statements of `main`, whose descriptor is the method so named of the class. */
    method VisitMainClass(g: Goal, ghost ids: set<IdData>) returns (o: Outcome)
      requires Checkable(symbolTable, g) && Spans(symbolTable, ids)
      modifies ids`initialized
      ensures o == old(MainEffect(symbolTable, g)).outcome
      ensures forall v :: v in ids ==> v.initialized == (old(v.initialized) || v in old(MainEffect(symbolTable, g)).marked)
    {
      var cdata := symbolTable.classMap[g.main.name];
      MethodInScope(symbolTable, cdata, "main");
      CoversAll(symbolTable, cdata.CertainMethod("main"), ids);
      var mdata := cdata.GetCertainMethod("main");
      assert StmtEffects(symbolTable, mdata, g.main.body) == old(StmtEffects(symbolTable, mdata, g.main.body));
      o := VisitStatements(mdata, g.main.body, ids);
    }

    /**
     * The third pass over program `g`: the main class, then every class
     * declaration in order, stopping at the first violation; every
     * descriptor an assignment reaches is marked initialized.
     */
    method VisitGoal(g: Goal) returns (o: Outcome)
      requires Checkable(symbolTable, g)
      modifies symbolTable.IdObjs()`initialized
      ensures o == old(ProgramEffect(symbolTable, g)).outcome
      ensures forall v :: v in old(symbolTable.IdObjs()) ==>
        v.initialized == (old(v.initialized) || v in old(ProgramEffect(symbolTable, g)).marked)
    {
      ghost var ids := symbolTable.IdObjs();
      o := VisitMainClass(g, ids);
      if o.Fail? {
        return;
      }
      assert RunAll(DeclEffects(symbolTable, g.decls)) == old(RunAll(DeclEffects(symbolTable, g.decls)));
      o := VisitTypeDeclarations(g.decls, ids);
    }
  }
}
