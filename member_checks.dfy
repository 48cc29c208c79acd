/**
 * The verdict of the second pass, member registration, stated on the syntax
 * tree alone. Fields, parameters and locals are checked in declaration
 * order; a method is checked against the nearest ancestor that declares a
 * method of the same name. The first violation decides the verdict.
 */
module MemberChecks {
  import opened Syntax
  import opened Errors
  import opened Descriptors

  datatype Option<T> = None | Some(value: T)

  /** What overriding compares: the return type and the parameter types, in order. */
  datatype Sig = Sig(returnType: string, paramTypes: seq<string>)

  function SigOf(md: MethodDecl): Sig {
    Sig(md.returnType, DeclTypes(md.params))
  }

  /** The method every main class receives: `void main(String[] args)`. */
  const MainSig: Sig := Sig("void", ["String[]"])

  // ------------------------------------------------------------ verdicts

  /** The first failure among `vs`, in order, else `Pass`. */
  function FirstFailure(vs: seq<Outcome>): (r: Outcome)
    ensures r.Pass? <==> forall k :: 0 <= k < |vs| ==> vs[k].Pass?
    ensures r.Fail? ==> exists k :: 0 <= k < |vs| && vs[k] == r && forall j :: 0 <= j < k ==> vs[j].Pass?
    decreases |vs|
  {
    if vs == [] then Pass
    else
      var pre := FirstFailure(vs[..|vs| - 1]);
      assert forall k :: 0 <= k < |vs| - 1 ==> vs[..|vs| - 1][k] == vs[k];
      if pre.Fail? then pre else vs[|vs| - 1]
  }

  /** Checking one more item: the verdict so far, else that of the new one. */
  lemma FirstFailureStep(vs: seq<Outcome>, i: nat)
    requires i < |vs|
    ensures FirstFailure(vs[..i + 1]) == if FirstFailure(vs[..i]).Fail? then FirstFailure(vs[..i]) else vs[i]
  {
    assert vs[..i + 1][..i] == vs[..i];
  }

  /** Once a prefix fails, the whole sequence fails with the same verdict. */
  lemma {:induction false} FirstFailureSticks(vs: seq<Outcome>, i: nat)
    requires i <= |vs| && FirstFailure(vs[..i]).Fail?
    ensures FirstFailure(vs) == FirstFailure(vs[..i])
    decreases |vs| - i
  {
    if i == |vs| {
      assert vs[..i] == vs;
    } else {
      FirstFailureStep(vs, i);
      FirstFailureSticks(vs, i + 1);
    }
  }

  // ------------------------------------------------------- declaration lists

  /**
   * One field, parameter or local, given the names it must not reuse: an
   * unrecognized type is reported first, then a reused name as `dup`.
   */
  function VarVerdict(types: seq<string>, taken: seq<string>, d: VarDecl, dup: ErrorKind): Outcome {
    if d.typ !in types then Fail(UnknownType)
    else if d.name in taken then Fail(dup)
    else Pass
  }

  /** The verdict on each declaration of a list, against `taken` and the names declared before it. */
  function VarVerdicts(types: seq<string>, taken: seq<string>, ds: seq<VarDecl>, dup: ErrorKind): (r: seq<Outcome>)
    ensures |r| == |ds|
    ensures forall i :: 0 <= i < |ds| ==> r[i] == VarVerdict(types, taken + DeclNames(ds[..i]), ds[i], dup)
  {
    seq(|ds|, i requires 0 <= i < |ds| => VarVerdict(types, taken + DeclNames(ds[..i]), ds[i], dup))
  }

  /** A list of declarations checked in order; the first violation decides. */
  function ListCheck(types: seq<string>, taken: seq<string>, ds: seq<VarDecl>, dup: ErrorKind): (r: Outcome)
    ensures r.Fail? ==> r.error == UnknownType || r.error == dup
  {
    FirstFailure(VarVerdicts(types, taken, ds, dup))
  }

  /** The verdict on the type of each declaration of a list. */
  function TypeVerdicts(types: seq<string>, ds: seq<VarDecl>): (r: seq<Outcome>)
    ensures |r| == |ds|
    ensures forall i :: 0 <= i < |ds| ==> r[i] == Need(ds[i].typ in types, UnknownType)
  {
    seq(|ds|, i requires 0 <= i < |ds| => Need(ds[i].typ in types, UnknownType))
  }

  /**
   * A list passes exactly when every type is recognized, no name is
   * taken, and no name is declared twice.
   */
  lemma ListCheckPasses(types: seq<string>, taken: seq<string>, ds: seq<VarDecl>, dup: ErrorKind)
    ensures ListCheck(types, taken, ds, dup).Pass? <==>
              && (forall i :: 0 <= i < |ds| ==> ds[i].typ in types && ds[i].name !in taken)
              && Distinct(DeclNames(ds))
  {
    var names := DeclNames(ds);
    var vs := VarVerdicts(types, taken, ds, dup);
    DistinctByPrefixes(names);
    forall i | 0 <= i < |ds|
      ensures vs[i].Pass? <==> ds[i].typ in types && ds[i].name !in taken && names[i] !in names[..i]
    {
      assert DeclNames(ds[..i]) == names[..i];
    }
  }

  // ---------------------------------------------------------------- methods

  /**
   * A method of signature `t` that overrides one of signature `s`: the
   * return types must be equal, then the parameter counts, then each
   * parameter type.
   */
  function OverrideCheck(s: Sig, t: Sig): (r: Outcome)
    ensures r.Pass? <==> s == t
    ensures r.Fail? && |s.paramTypes| == |t.paramTypes| && s.returnType == t.returnType ==>
              r == Fail(ParameterTypeMismatch)
  {
    if s.returnType != t.returnType then Fail(ReturnTypeMismatch)
    else if |s.paramTypes| != |t.paramTypes| then Fail(ArityMismatch)
    else if s.paramTypes != t.paramTypes then Fail(ParameterTypeMismatch)
    else Pass
  }

  /**
   * One method of class `cname`, given the names of the methods registered
   * before it and the signature of the nearest ancestor method of that
   * name, if any: return type, duplicate name, the class's own name, the
   * parameters, the override, then the locals (which must not reuse a
   * parameter's name either).
   */
  function MethodCheck(types: seq<string>, own: seq<string>, cname: string, super: Option<Sig>, md: MethodDecl): Outcome {
    if md.returnType !in types then Fail(UnknownType)
    else if md.name in own then Fail(DuplicateMethod)
    else if md.name == cname then Fail(MethodNameCollidesWithClass)
    else SignatureCheck(types, super, md)
  }

  /** The parameters of a method, then its override, then its locals. */
  function SignatureCheck(types: seq<string>, super: Option<Sig>, md: MethodDecl): Outcome {
    var params := ListCheck(types, [], md.params, DuplicateParameter);
    if params.Fail? then params
    else if super.Some? && OverrideCheck(super.value, SigOf(md)).Fail? then OverrideCheck(super.value, SigOf(md))
    else ListCheck(types, DeclNames(md.params), md.locals, DuplicateLocal)
  }

  /**
   * What a method that passes declares: a recognized return type, a new
   * name other than the class's, distinct parameters and locals of
   * recognized types, and the signature of the method it overrides.
   */
  lemma MethodCheckPasses(types: seq<string>, own: seq<string>, cname: string, super: Option<Sig>, md: MethodDecl)
    ensures MethodCheck(types, own, cname, super, md).Pass? <==>
              && md.returnType in types && md.name !in own && md.name != cname
              && (forall i :: 0 <= i < |md.params| ==> md.params[i].typ in types)
              && Distinct(DeclNames(md.params))
              && (super.Some? ==> super.value == SigOf(md))
              && (forall i :: 0 <= i < |md.locals| ==> md.locals[i].typ in types && md.locals[i].name !in DeclNames(md.params))
              && Distinct(DeclNames(md.locals))
  {
    ListCheckPasses(types, [], md.params, DuplicateParameter);
    ListCheckPasses(types, DeclNames(md.params), md.locals, DuplicateLocal);
  }

  /**
   * The verdict on each method of class `cname`, against the names of the
   * methods before it; `supers[q]` is the signature method `q` overrides,
   * if any.
   */
  function MethodVerdicts(types: seq<string>, cname: string, supers: seq<Option<Sig>>, ms: seq<MethodDecl>): (r: seq<Outcome>)
    requires |supers| == |ms|
    ensures |r| == |ms|
    ensures forall q :: 0 <= q < |ms| ==> r[q] == MethodCheck(types, MethodDeclNames(ms[..q]), cname, supers[q], ms[q])
  {
    seq(|ms|, q requires 0 <= q < |ms| => MethodCheck(types, MethodDeclNames(ms[..q]), cname, supers[q], ms[q]))
  }

  /** The methods of a class checked in order; the first violation decides. */
  function MethodsCheck(types: seq<string>, cname: string, supers: seq<Option<Sig>>, ms: seq<MethodDecl>): Outcome
    requires |supers| == |ms|
  {
    FirstFailure(MethodVerdicts(types, cname, supers, ms))
  }

  /**
   * The methods of a class that pass have distinct names other than the
   * class's own, and each one that overrides has the overridden signature.
   */
  lemma MethodsCheckGuarantees(types: seq<string>, cname: string, supers: seq<Option<Sig>>, ms: seq<MethodDecl>)
    requires |supers| == |ms| && MethodsCheck(types, cname, supers, ms).Pass?
    ensures Distinct(MethodDeclNames(ms))
    ensures forall q :: 0 <= q < |ms| ==> ms[q].name != cname && ms[q].returnType in types
    ensures forall q :: 0 <= q < |ms| && supers[q].Some? ==> supers[q].value == SigOf(ms[q])
  {
    assert forall q :: 0 <= q < |ms| ==> MethodVerdicts(types, cname, supers, ms)[q].Pass?;
    forall q | 0 <= q < |ms|
      ensures ms[q].name !in MethodDeclNames(ms[..q]) && ms[q].name != cname && ms[q].returnType in types
      ensures supers[q].Some? ==> supers[q].value == SigOf(ms[q])
    {
      MethodCheckPasses(types, MethodDeclNames(ms[..q]), cname, supers[q], ms[q]);
    }
    forall i, j | 0 <= i < j < |ms| ensures MethodDeclNames(ms)[i] != MethodDeclNames(ms)[j] {
      assert MethodDeclNames(ms[..j])[i] == ms[i].name;
    }
  }

  // ---------------------------------------------------------------- classes

  /** A class declaration: its fields, then its methods. */
  function ClassCheck(types: seq<string>, supers: seq<Option<Sig>>, d: TypeDecl): Outcome
    requires |supers| == |d.methods|
  {
    var fields := ListCheck(types, [], d.fields, DuplicateField);
    if fields.Fail? then fields else MethodsCheck(types, d.name, supers, d.methods)
  }

  /**
   * The main class: its method must not be named after the class, and its
   * locals must have recognized types. The duplicate test on its locals
   * consults the main class's own field list, which is always empty, so
   * it never rejects.
   */
  function MainCheck(types: seq<string>, m: MainClass): (r: Outcome)
    ensures r.Pass? <==> m.name != "main" && forall i :: 0 <= i < |m.locals| ==> m.locals[i].typ in types
  {
    if m.name == "main" then Fail(MethodNameCollidesWithClass) else FirstFailure(TypeVerdicts(types, m.locals))
  }

  /** Two locals of the main method with the same name are accepted. */
  lemma MainLocalDuplicatesAccepted()
    ensures MainCheck(["int"], MainClass("M", "a", [VarDecl("int", "x"), VarDecl("int", "x")], [])) == Pass
  {
  }

  // ------------------------------------------------------ the parent chain

  /**
   * Classes are numbered as in the class list: 0 is the main class and
   * `k + 1` the declaration `k`. The index of the class that class `i`
   * extends; `i` itself when it extends no earlier class.
   */
  function ParentIndexAt(g: Goal, i: nat): (j: nat)
    ensures j <= i
  {
    if 0 < i <= |g.decls| && g.decls[i - 1].ClassExtendsDecl? then
      var j := FirstIndex(ClassNames(g), g.decls[i - 1].superName);
      if j < i then j else i
    else i
  }

  /** The names of the methods class `j` declares. */
  function OwnNamesAt(g: Goal, j: nat): seq<string>
    requires j <= |g.decls|
  {
    if j == 0 then ["main"] else MethodDeclNames(g.decls[j - 1].methods)
  }

  /** The signature of the first method named `n` that class `j` declares. */
  function OwnSigAt(g: Goal, j: nat, n: string): Sig
    requires j <= |g.decls| && n in OwnNamesAt(g, j)
  {
    if j == 0 then MainSig
    else
      var ms := g.decls[j - 1].methods;
      SigOf(ms[FirstIndex(MethodDeclNames(ms), n)])
  }

  /** The signature of method `n` in the nearest strict ancestor of class `i` declaring one. */
  function SuperSigAt(g: Goal, i: nat, n: string): Option<Sig>
    requires i <= |g.decls|
    decreases i
  {
    var j := ParentIndexAt(g, i);
    if j == i then None
    else if n in OwnNamesAt(g, j) then Some(OwnSigAt(g, j, n))
    else SuperSigAt(g, j, n)
  }

  /** For each method of class `i > 0`, the signature it overrides, if any. */
  function DeclSupers(g: Goal, i: nat): (r: seq<Option<Sig>>)
    requires 0 < i <= |g.decls|
    ensures |r| == |g.decls[i - 1].methods|
    ensures forall q :: 0 <= q < |r| ==> r[q] == SuperSigAt(g, i, g.decls[i - 1].methods[q].name)
  {
    var ms := g.decls[i - 1].methods;
    seq(|ms|, q requires 0 <= q < |ms| => SuperSigAt(g, i, ms[q].name))
  }

  // ---------------------------------------------------------- the program

  /** The verdict on each class declaration, with the signatures its methods override. */
  function DeclVerdicts(types: seq<string>, g: Goal): (r: seq<Outcome>)
    ensures |r| == |g.decls|
    ensures forall k :: 0 <= k < |g.decls| ==> r[k] == ClassCheck(types, DeclSupers(g, k + 1), g.decls[k])
  {
    seq(|g.decls|, k requires 0 <= k < |g.decls| => ClassCheck(types, DeclSupers(g, k + 1), g.decls[k]))
  }

  /** The verdict of the second pass on a whole program: the main class, then every other class. */
  function MembersCheck(types: seq<string>, g: Goal): Outcome {
    var m := MainCheck(types, g.main);
    if m.Fail? then m else FirstFailure(DeclVerdicts(types, g))
  }

  /**
   * A program passes the second pass exactly when its main class does and
   * every class passes against the signatures its ancestors declare.
   */
  lemma MembersPass(types: seq<string>, g: Goal)
    ensures MembersCheck(types, g).Pass? <==>
              && MainCheck(types, g.main).Pass?
              && forall k :: 0 <= k < |g.decls| ==> ClassCheck(types, DeclSupers(g, k + 1), g.decls[k]).Pass?
  {
  }

  /**
   * In a program that passes, every method that has the name of a method
   * of an ancestor has that method's signature.
   */
  lemma OverridesExact(types: seq<string>, g: Goal, k: nat, q: nat)
    requires MembersCheck(types, g).Pass?
    requires k < |g.decls| && q < |g.decls[k].methods|
    requires SuperSigAt(g, k + 1, g.decls[k].methods[q].name).Some?
    ensures SuperSigAt(g, k + 1, g.decls[k].methods[q].name).value == SigOf(g.decls[k].methods[q])
  {
    MembersPass(types, g);
    assert ClassCheck(types, DeclSupers(g, k + 1), g.decls[k]).Pass?;
    MethodsCheckGuarantees(types, g.decls[k].name, DeclSupers(g, k + 1), g.decls[k].methods);
  }
}
