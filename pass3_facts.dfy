/**
 * What the third pass promises, stated over the meaning functions of
 * `TypeChecking`: the operator table, the typing of literals, names and
 * allocations, the call rules, the statement rules, the exact return check,
 * and that pass 3 marks initialized only descriptors the checked method can
 * name.
 */
module TypeCheckingFacts {
  import opened Syntax
  import opened Errors
  import opened Descriptors
  import opened SymbolTables
  import opened TypeChecking

  // ------------------------------------------------------- the operators

  /** `a && b` is `boolean` exactly when both clauses are; a violation inside a clause comes first, left to right. */
  lemma AndTyping(st: SymbolTable, m: MethodData, a: Clause, b: Clause)
    requires InScope(st, m)
    ensures ExprType(st, m, And(a, b)).Ok? <==> ClauseType(st, m, a) == Ok("boolean") && ClauseType(st, m, b) == Ok("boolean")
    ensures ExprType(st, m, And(a, b)).Ok? ==> ExprType(st, m, And(a, b)).value == "boolean"
    ensures ClauseType(st, m, a).Err? ==> ExprType(st, m, And(a, b)) == Err(ClauseType(st, m, a).error)
    ensures ClauseType(st, m, a).Ok? && ClauseType(st, m, b).Err? ==> ExprType(st, m, And(a, b)) == Err(ClauseType(st, m, b).error)
  {
  }

  /** `!c` is `boolean` exactly when `c` is. */
  lemma NotTyping(st: SymbolTable, m: MethodData, c: Clause)
    requires InScope(st, m)
    ensures ClauseType(st, m, Not(c)).Ok? <==> ClauseType(st, m, c) == Ok("boolean")
    ensures ClauseType(st, m, Not(c)).Ok? ==> ClauseType(st, m, Not(c)).value == "boolean"
    ensures ClauseType(st, m, c).Ok? && ClauseType(st, m, c).value != "boolean" ==> ClauseType(st, m, Not(c)) == Err(TypeMismatch)
  {
  }

  /**
   * `<`, `+`, `-` and `*` take two `int` operands; `<` gives `boolean`
   * and the others `int`. Any other pair of operand types is a mismatch.
   */
  lemma IntOperatorTyping(st: SymbolTable, m: MethodData, e: Expression)
    requires InScope(st, m) && (e.Compare? || e.Plus? || e.Minus? || e.Times?)
    ensures ExprType(st, m, e).Ok? <==> PrimaryType(st, m, e.lhs) == Ok("int") && PrimaryType(st, m, e.rhs) == Ok("int")
    ensures ExprType(st, m, e).Ok? ==> ExprType(st, m, e).value == if e.Compare? then "boolean" else "int"
    ensures PrimaryType(st, m, e.lhs).Err? ==> ExprType(st, m, e) == Err(PrimaryType(st, m, e.lhs).error)
    ensures PrimaryType(st, m, e.lhs).Ok? && PrimaryType(st, m, e.rhs).Ok? && ExprType(st, m, e).Err? ==>
      ExprType(st, m, e) == Err(TypeMismatch)
  {
  }

  /** `a.length` is `int` exactly when `a` is an `int[]`; otherwise the array check fails. */
  lemma LengthTyping(st: SymbolTable, m: MethodData, a: Primary)
    requires InScope(st, m)
    ensures ExprType(st, m, ArrayLength(a)).Ok? <==> PrimaryType(st, m, a) == Ok("int[]")
    ensures ExprType(st, m, ArrayLength(a)).Ok? ==> ExprType(st, m, ArrayLength(a)).value == "int"
    ensures PrimaryType(st, m, a).Ok? && PrimaryType(st, m, a).value != "int[]" ==> ExprType(st, m, ArrayLength(a)) == Err(InvalidArrayType)
  {
  }

  /** `a[i]` is `int` exactly when `a` is an `int[]` and `i` an `int`; the array is checked before the index. */
  lemma LookupTyping(st: SymbolTable, m: MethodData, a: Primary, i: Primary)
    requires InScope(st, m)
    ensures ExprType(st, m, ArrayLookup(a, i)).Ok? <==> PrimaryType(st, m, a) == Ok("int[]") && PrimaryType(st, m, i) == Ok("int")
    ensures ExprType(st, m, ArrayLookup(a, i)).Ok? ==> ExprType(st, m, ArrayLookup(a, i)).value == "int"
    ensures PrimaryType(st, m, a).Ok? && PrimaryType(st, m, a).value != "int[]" ==> ExprType(st, m, ArrayLookup(a, i)) == Err(InvalidArrayType)
    ensures PrimaryType(st, m, a) == Ok("int[]") && PrimaryType(st, m, i).Ok? && PrimaryType(st, m, i).value != "int" ==>
      ExprType(st, m, ArrayLookup(a, i)) == Err(InvalidIndexType)
  {
  }

  // ------------------------------------------- names, literals, allocations

  /**
   * A name used as a primary denotes, in order, a local or parameter of
   * the method, a field of its class, a field of the nearest ancestor
   * declaring it; when nothing matches the name flows on as it is.
   */
  lemma IdentifierTyping(st: SymbolTable, m: MethodData, n: string)
    requires InScope(st, m)
    ensures m.CertainVariable(n) != null ==> PrimaryType(st, m, Identifier(n)) == Ok(m.CertainVariable(n).typ)
    ensures m.CertainVariable(n) == null && m.classData.CertainVariable(n) != null ==>
      PrimaryType(st, m, Identifier(n)) == Ok(m.classData.CertainVariable(n).typ)
    ensures m.CertainVariable(n) == null && m.classData.CertainVariable(n) == null && SuperVariableOwner(m.classData, n) != null ==>
      PrimaryType(st, m, Identifier(n)) == Ok(SuperVariableOwner(m.classData, n).CertainVariable(n).typ)
    ensures Lookup(st, m, n) == null ==> PrimaryType(st, m, Identifier(n)) == Ok(n)
  {
  }

  /**
   * Literals and `this`, where no visible variable bears the type's own
   * name (it cannot, being a keyword): integers are `int`, `true` and
   * `false` are `boolean`, and `this` is the transient "this".
   */
  lemma LiteralTyping(st: SymbolTable, m: MethodData, k: nat)
    requires InScope(st, m)
    ensures Lookup(st, m, "int") == null ==> PrimaryType(st, m, IntegerLiteral(k)) == Ok("int")
    ensures Lookup(st, m, "boolean") == null ==>
      PrimaryType(st, m, TrueLiteral) == Ok("boolean") && PrimaryType(st, m, FalseLiteral) == Ok("boolean")
    ensures Lookup(st, m, "this") == null ==> PrimaryType(st, m, ThisExpr) == Ok("this")
  {
  }

  /** `new int[e]` is an `int[]` exactly when `e` is an `int`, else incompatible. */
  lemma ArrayAllocationTyping(st: SymbolTable, m: MethodData, size: Expression)
    requires InScope(st, m) && Lookup(st, m, "int[]") == null
    ensures PrimaryType(st, m, ArrayAllocation(size)).Ok? <==> ExprType(st, m, size) == Ok("int")
    ensures PrimaryType(st, m, ArrayAllocation(size)).Ok? ==> PrimaryType(st, m, ArrayAllocation(size)).value == "int[]"
    ensures ExprType(st, m, size).Ok? && ExprType(st, m, size).value != "int" ==>
      PrimaryType(st, m, ArrayAllocation(size)) == Err(IncompatibleTypes)
  {
  }

  /**
   * `new C()` types exactly when `C` is a registered class. Its type is
   * `C`, unless a visible variable is named `C`: the name resolution every
   * primary undergoes then yields that variable's type.
   */
  lemma AllocationTyping(st: SymbolTable, m: MethodData, n: string)
    requires InScope(st, m)
    ensures PrimaryType(st, m, Allocation(n)).Ok? <==> n in st.classMap
    ensures n !in st.classMap ==> PrimaryType(st, m, Allocation(n)) == Err(UnknownClass)
    ensures n in st.classMap && Lookup(st, m, n) == null ==> PrimaryType(st, m, Allocation(n)) == Ok(n)
    ensures n in st.classMap && Lookup(st, m, n) != null ==> PrimaryType(st, m, Allocation(n)) == Ok(Lookup(st, m, n).typ)
  {
  }

  /** `(e)` has the type of `e`, read once more as a name. */
  lemma BracketTyping(st: SymbolTable, m: MethodData, inner: Expression)
    requires InScope(st, m)
    ensures ExprType(st, m, inner).Err? ==> PrimaryType(st, m, Bracket(inner)) == ExprType(st, m, inner)
    ensures ExprType(st, m, inner).Ok? && Lookup(st, m, ExprType(st, m, inner).value) == null ==>
      PrimaryType(st, m, Bracket(inner)) == ExprType(st, m, inner)
  {
  }

  // ------------------------------------------------------------ the calls

  /**
   * A call `r.n(args)` on a receiver of type `cname` types exactly when
   * `cname` is a registered class, `n` is a method of it or of an
   * ancestor, and, when an argument list is given, the method has
   * parameters, the arguments type and match them in number, and each fits
   * its parameter; the type is the declared return type. Without an
   * argument list neither the number nor the types are checked.
   */
  lemma CallTyping(st: SymbolTable, m: MethodData, cname: string, n: string, args: Arguments)
    requires InScope(st, m)
    ensures cname !in st.classMap ==> SendType(st, m, cname, n, args) == Err(UnknownClass)
    ensures cname in st.classMap && Callee(st.classMap[cname], n) == null ==> SendType(st, m, cname, n, args) == Err(UnknownMethod)
    ensures cname in st.classMap && Callee(st.classMap[cname], n) != null && args.NoArguments? ==>
      SendType(st, m, cname, n, args) == Ok(Callee(st.classMap[cname], n).returnType)
    ensures cname in st.classMap && Callee(st.classMap[cname], n) != null && args.ExpressionList? ==>
      var callee := Callee(st.classMap[cname], n);
      && (callee.arguments == [] ==> SendType(st, m, cname, n, args) == Err(NoParametersExpected))
      && (SendType(st, m, cname, n, args).Ok? <==>
            && callee.arguments != []
            && ArgTypes(st, m, args).Ok?
            && |ArgTypes(st, m, args).value| == |callee.arguments|
            && forall i :: 0 <= i < |callee.arguments| ==>
                 Compatible(st, callee.arguments[i].typ, ThisResolved(ArgTypes(st, m, args).value[i], m.classData.name)))
      && (SendType(st, m, cname, n, args).Ok? ==> SendType(st, m, cname, n, args).value == callee.returnType)
  {
    if cname in st.classMap {
      var cl := st.classMap[cname];
      CalleeListed(st, cl, n);
      var callee := Callee(cl, n);
      if callee != null && args.ExpressionList? && callee.arguments != [] {
        var r := ArgTypes(st, m, args);
        if r.Ok? && |r.value| == |callee.arguments| {
          var ps := Types(callee.arguments);
          assert forall i :: 0 <= i < |callee.arguments| ==> ps[i] == callee.arguments[i].typ;
        }
      }
    }
  }

  /** The receiver of a call is typed first, "this" standing for the enclosing class. */
  lemma SendTyping(st: SymbolTable, m: MethodData, receiver: Primary, n: string, args: Arguments)
    requires InScope(st, m)
    ensures PrimaryType(st, m, receiver).Err? ==> ExprType(st, m, MessageSend(receiver, n, args)) == Err(PrimaryType(st, m, receiver).error)
    ensures PrimaryType(st, m, receiver) == Ok("this") ==>
      ExprType(st, m, MessageSend(receiver, n, args)) == SendType(st, m, m.classData.name, n, args)
  {
  }

  /**
   * The method a call runs is the receiver class's own first method so
   * named, else that of the nearest ancestor declaring the name: no
   * ancestor nearer than its owner declares it.
   */
  lemma CalleeNearest(cl: ClassData, n: string)
    ensures n in MethodNames(cl.methods) ==> Callee(cl, n) == cl.CertainMethod(n) && Callee(cl, n) in cl.methods
    ensures Callee(cl, n) == null <==>
      n !in MethodNames(cl.methods) && forall a :: a in cl.ancestors ==> n !in MethodNames(a.methods)
    ensures n !in MethodNames(cl.methods) && Callee(cl, n) != null ==>
      exists k :: 0 <= k < |cl.ancestors| && Callee(cl, n) in cl.ancestors[k].methods &&
        forall j :: 0 <= j < k ==> n !in MethodNames(cl.ancestors[j].methods)
  {
    if n !in MethodNames(cl.methods) {
      var owner := SuperMethodOwner(cl, n);
      if owner != null {
        var k :| 0 <= k < |cl.ancestors| && cl.ancestors[k] == owner && n in MethodNames(owner.methods) &&
                 forall j :: 0 <= j < k ==> n !in MethodNames(cl.ancestors[j].methods);
        assert Callee(cl, n) in cl.ancestors[k].methods;
      }
    }
  }

  // ---------------------------------------------------------- compatibility

  /** Every type fits where it is itself expected. */
  lemma CompatibleReflexive(st: SymbolTable, t: string)
    ensures Compatible(st, t, t)
  {
  }

  /**
   * A value of a registered class fits a different target exactly when the
   * target names a strict ancestor; a value of any other type fits only
   * its own type.
   */
  lemma CompatibleUpcast(st: SymbolTable, target: string, actual: string)
    requires target != actual
    ensures actual !in st.classMap ==> !Compatible(st, target, actual)
    ensures actual in st.classMap ==>
      (Compatible(st, target, actual) <==> exists a :: a in st.classMap[actual].ancestors && a.name == target)
  {
    if actual in st.classMap {
      var c := st.classMap[actual];
      if Compatible(st, target, actual) {
        var k :| 0 <= k < |c.ancestors| && ClassNamesOf(c.ancestors)[k] == target;
        assert c.ancestors[k] in c.ancestors;
      }
      if exists a :: a in c.ancestors && a.name == target {
        var a :| a in c.ancestors && a.name == target;
        var k :| 0 <= k < |c.ancestors| && c.ancestors[k] == a;
        assert ClassNamesOf(c.ancestors)[k] == target;
      }
    }
  }

  // ----------------------------------------------------------- statements

  /**
   * `x = value` passes exactly when `x` resolves and the value's type,
   * "this" resolved, fits the target's type; it then marks exactly the
   * descriptor `x` resolves to, and nothing when it fails. An unresolvable
   * target fails before the value is looked at.
   */
  lemma AssignRule(st: SymbolTable, m: MethodData, x: string, value: Expression)
    requires InScope(st, m)
    ensures Lookup(st, m, x) == null ==> StmtEffect(st, m, Assign(x, value)) == Stop(UnknownName)
    ensures Lookup(st, m, x) != null ==>
      && (StmtEffect(st, m, Assign(x, value)).outcome.Pass? <==>
            ExprType(st, m, value).Ok? &&
            Compatible(st, TargetType(st, m, x), ThisResolved(ExprType(st, m, value).value, m.classData.name)))
      && (ExprType(st, m, value).Err? ==> StmtEffect(st, m, Assign(x, value)).outcome == Fail(ExprType(st, m, value).error))
    ensures StmtEffect(st, m, Assign(x, value)).marked ==
      if StmtEffect(st, m, Assign(x, value)).outcome.Pass? then {Lookup(st, m, x)} else {}
  {
  }

  /** `x[index] = value` passes exactly when `x` resolves to an `int[]` and the index and the value are `int`; it marks nothing. */
  lemma ArrayAssignRule(st: SymbolTable, m: MethodData, x: string, index: Expression, value: Expression)
    requires InScope(st, m)
    ensures StmtEffect(st, m, ArrayAssign(x, index, value)).outcome.Pass? <==>
      && Lookup(st, m, x) != null && Lookup(st, m, x).typ == "int[]"
      && ExprType(st, m, index) == Ok("int") && ExprType(st, m, value) == Ok("int")
    ensures Lookup(st, m, x) == null ==> StmtEffect(st, m, ArrayAssign(x, index, value)).outcome == Fail(UnknownName)
    ensures Lookup(st, m, x) != null && Lookup(st, m, x).typ != "int[]" ==>
      StmtEffect(st, m, ArrayAssign(x, index, value)).outcome == Fail(InvalidArrayType)
    ensures StmtEffect(st, m, ArrayAssign(x, index, value)).marked == {}
  {
  }

  /**
   * An `if` or a `while` passes only when its condition is `boolean`, then
   * the `if` exactly when both branches pass, the `while` exactly when its
   * body, checked once, passes; a condition of another type fails.
   */
  lemma ConditionRule(st: SymbolTable, m: MethodData, s: Statement)
    requires InScope(st, m) && (s.If? || s.While?)
    ensures StmtEffect(st, m, s).outcome.Pass? ==> ExprType(st, m, s.cond) == Ok("boolean")
    ensures ExprType(st, m, s.cond).Ok? && ExprType(st, m, s.cond).value != "boolean" ==>
      StmtEffect(st, m, s) == Stop(InvalidConditionType)
    ensures s.If? && ExprType(st, m, s.cond) == Ok("boolean") ==>
      (StmtEffect(st, m, s).outcome.Pass? <==> StmtEffect(st, m, s.thn).outcome.Pass? && StmtEffect(st, m, s.els).outcome.Pass?)
    ensures s.While? && ExprType(st, m, s.cond) == Ok("boolean") ==> StmtEffect(st, m, s) == StmtEffect(st, m, s.body)
  {
  }

  // --------------------------------------------------------------- return

  /**
   * The return check passes exactly when the return expression's type is
   * the declared return type itself: a subclass does not do, and "this" is
   * not resolved to the enclosing class.
   */
  lemma ReturnRule(st: SymbolTable, m: MethodData, ret: Expression)
    requires InScope(st, m)
    ensures ReturnEffect(st, m, ret).outcome.Pass? <==> ExprType(st, m, ret) == Ok(m.returnType)
    ensures ExprType(st, m, ret).Ok? && ExprType(st, m, ret).value != m.returnType ==>
      ReturnEffect(st, m, ret) == Stop(IncompatibleReturnType)
    ensures ReturnEffect(st, m, ret).marked == {}
  {
  }

  /** So `return this;` fails unless the declared return type is the literal "this". */
  lemma ReturnThisRejected(st: SymbolTable, m: MethodData)
    requires InScope(st, m) && Lookup(st, m, "this") == null && m.returnType != "this"
    ensures ReturnEffect(st, m, ClauseExpr(PrimaryClause(ThisExpr))) == Stop(IncompatibleReturnType)
  {
    assert PrimaryType(st, m, ThisExpr) == Ok("this");
    assert ExprType(st, m, ClauseExpr(PrimaryClause(ThisExpr))) == Ok("this");
  }

  // ----------------------------------------------------- what gets marked

  /** Running checks marks only what one of them marks. */
  lemma {:induction false} RunAllMarksWithin(es: seq<Effect>, s: set<IdData>)
    requires forall k :: 0 <= k < |es| ==> es[k].marked <= s
    ensures RunAll(es).marked <= s
    decreases |es|
  {
    if es != [] {
      RunAllMarksWithin(es[..|es| - 1], s);
    }
  }

  /** Type checking statement `s` of `m` marks only descriptors `m` can name. */
  lemma {:induction false} MarksWithinScope(st: SymbolTable, m: MethodData, s: Statement)
    requires InScope(st, m)
    ensures StmtEffect(st, m, s).marked <= Scope(st, m)
    decreases s
  {
    match s
    case Block(ss) =>
      StatementsMarkWithinScope(st, m, ss);
    case Assign(x, value) =>
    case ArrayAssign(x, index, value) =>
    case If(cond, thn, els) =>
      MarksWithinScope(st, m, thn);
      MarksWithinScope(st, m, els);
    case While(cond, body) =>
      MarksWithinScope(st, m, body);
    case Print(value) =>
  }

  /** Type checking statements `ss` of `m` in order marks only descriptors `m` can name. */
  lemma {:induction false} StatementsMarkWithinScope(st: SymbolTable, m: MethodData, ss: seq<Statement>)
    requires InScope(st, m)
    ensures RunAll(StmtEffects(st, m, ss)).marked <= Scope(st, m)
    decreases ss
  {
    var es := StmtEffects(st, m, ss);
    forall k | 0 <= k < |es| ensures es[k].marked <= Scope(st, m) {
      MarksWithinScope(st, m, ss[k]);
    }
    RunAllMarksWithin(es, Scope(st, m));
  }

  /** The whole third pass marks only descriptors of the table, so `VisitGoal`'s frame is enough. */
  lemma ProgramMarksDescriptors(st: SymbolTable, g: Goal)
    requires Checkable(st, g)
    ensures ProgramEffect(st, g).marked <= st.IdObjs()
  {
    var main := st.classMap[g.main.name];
    MethodInScope(st, main, "main");
    StatementsMarkWithinScope(st, main.CertainMethod("main"), g.main.body);
    ScopeWithin(st, main.CertainMethod("main"));
    var ds := DeclEffects(st, g.decls);
    forall k | 0 <= k < |ds| ensures ds[k].marked <= st.IdObjs() {
      var d := g.decls[k];
      var c := st.classMap[d.name];
      var ms := MethodEffects(st, c, d.methods);
      forall q | 0 <= q < |ms| ensures ms[q].marked <= st.IdObjs() {
        MethodInScope(st, c, d.methods[q].name);
        var mq := c.CertainMethod(d.methods[q].name);
        StatementsMarkWithinScope(st, mq, d.methods[q].body);
        ScopeWithin(st, mq);
      }
      RunAllMarksWithin(ms, st.IdObjs());
    }
    RunAllMarksWithin(ds, st.IdObjs());
  }
}
