/**
 * The second pass, member registration: for every registered class it
 * creates the descriptors of the fields, the methods, their parameters and
 * their locals, checking each one as it goes, and checks every method that
 * shares its name with a method of an ancestor against that method.
 *
 * Each visit is proved against the verdict of the syntax tree alone
 * (`MemberChecks`), and what a visit that passes leaves behind is stated as
 * predicates on the descriptors.
 */
module MemberRegistration {
  import opened Syntax
  import opened Errors
  import opened Descriptors
  import opened SymbolTables
  import opened MemberChecks
  import opened ClassRegistration

  // ------------------------------------------------------ descriptor state

  /** `v` is the descriptor created for declaration `d`, with the flag `init` and offset 0. */
  ghost predicate Describes(v: IdData, d: VarDecl, init: bool)
    reads v
  {
    v.typ == d.typ && v.name == d.name && v.initialized == init && v.offset == 0
  }

  /** `vs` are the descriptors of `ds`, in order. */
  ghost predicate AllDescribe(vs: seq<IdData>, ds: seq<VarDecl>, init: bool)
    reads IdSet(vs)
  {
    |vs| == |ds| && forall q :: 0 <= q < |vs| ==> Describes(vs[q], ds[q], init)
  }

  /** Descriptors of declarations have the declared names and types. */
  lemma DescribedNames(vs: seq<IdData>, ds: seq<VarDecl>, init: bool)
    requires AllDescribe(vs, ds, init)
    ensures Names(vs) == DeclNames(ds) && Types(vs) == DeclTypes(ds)
  {
  }

  lemma DescribeSnoc(vs: seq<IdData>, ds: seq<VarDecl>, v: IdData, d: VarDecl, init: bool)
    requires AllDescribe(vs, ds, init) && Describes(v, d, init)
    ensures AllDescribe(vs + [v], ds + [d], init)
  {
    forall q | 0 <= q < |vs| + 1 ensures Describes((vs + [v])[q], (ds + [d])[q], init) {
      if q < |vs| {
        assert (vs + [v])[q] == vs[q] && (ds + [d])[q] == ds[q];
      }
    }
  }

  /** The combined map after binding each of `vs` in turn; a later binding of a name replaces an earlier one. */
  function Bound(vs: seq<IdData>): map<string, IdData> {
    if vs == [] then map[] else Bound(vs[..|vs| - 1])[vs[|vs| - 1].name := vs[|vs| - 1]]
  }

  lemma BoundSnoc(vs: seq<IdData>, v: IdData)
    ensures Bound(vs + [v]) == Bound(vs)[v.name := v]
  {
    assert (vs + [v])[..|vs|] == vs;
  }

  /** The combined map binds exactly the names of `vs`, each to a descriptor of `vs` of that name. */
  lemma {:induction false} BoundBinds(vs: seq<IdData>)
    ensures forall k :: k in Bound(vs) <==> k in Names(vs)
    ensures forall k :: k in Bound(vs) ==> Bound(vs)[k].name == k && Bound(vs)[k] in vs
  {
    if vs != [] {
      var pre := vs[..|vs| - 1];
      BoundBinds(pre);
      assert Names(vs) == Names(pre) + [vs[|vs| - 1].name];
      assert vs == pre + [vs[|vs| - 1]];
    }
  }

  /** With distinct names, the combined map binds each name to the one descriptor having it. */
  lemma {:induction false} BoundDistinct(vs: seq<IdData>)
    requires Distinct(Names(vs))
    ensures forall q :: 0 <= q < |vs| ==> vs[q].name in Bound(vs) && Bound(vs)[vs[q].name] == vs[q]
  {
    if vs != [] {
      var pre := vs[..|vs| - 1];
      var last := vs[|vs| - 1];
      assert Names(pre) == Names(vs)[..|vs| - 1];
      BoundDistinct(pre);
      forall q | 0 <= q < |vs| - 1 ensures vs[q].name != last.name && vs[q] == pre[q] {
        assert Names(vs)[q] != Names(vs)[|vs| - 1];
      }
    }
  }

  /** The descriptors of the parameters and locals of `m`. */
  ghost function LocalIds(m: MethodData): set<IdData>
    reads m
  {
    IdSet(m.arguments) + IdSet(m.variables)
  }

  /**
   * `m` is the method descriptor created for a method of class `c` with the
   * given return type, name, parameters and locals: parameters initialized,
   * locals not, offset 0, and the combined map built by binding the
   * parameters and then the locals.
   */
  ghost predicate Built(m: MethodData, c: ClassData, returnType: string, name: string,
                        params: seq<VarDecl>, locals: seq<VarDecl>)
    reads m, LocalIds(m)
  {
    && m.classData == c && m.returnType == returnType && m.name == name && m.offset == 0
    && AllDescribe(m.arguments, params, true)
    && AllDescribe(m.variables, locals, false)
    && m.generalVarMap == Bound(m.arguments + m.variables)
  }

  ghost predicate MethodBuilt(m: MethodData, c: ClassData, md: MethodDecl)
    reads m, LocalIds(m)
  {
    Built(m, c, md.returnType, md.name, md.params, md.locals)
  }

  /** The one parameter of every main method. */
  const MainParams: seq<VarDecl> := [VarDecl("String[]", "args")]

  ghost predicate MainBuilt(m: MethodData, c: ClassData, mc: MainClass)
    reads m, LocalIds(m)
  {
    Built(m, c, "void", "main", MainParams, mc.locals)
  }

  /** The parameters and locals of the methods `ms`. */
  ghost function MethodIds(ms: seq<MethodData>): (r: set<IdData>)
    reads MethodSet(ms)
    ensures forall q :: 0 <= q < |ms| ==> LocalIds(ms[q]) <= r
  {
    set m, v | m in MethodSet(ms) && v in LocalIds(m) :: v
  }

  /** `ms` are the descriptors created for the methods `ds` of class `c`, in order. */
  ghost predicate AllBuilt(ms: seq<MethodData>, c: ClassData, ds: seq<MethodDecl>)
    reads MethodSet(ms), MethodIds(ms)
  {
    |ms| == |ds| && forall q :: 0 <= q < |ms| ==> MethodBuilt(ms[q], c, ds[q])
  }

  lemma AllBuiltSnoc(ms: seq<MethodData>, c: ClassData, ds: seq<MethodDecl>, m: MethodData, d: MethodDecl)
    requires AllBuilt(ms, c, ds) && MethodBuilt(m, c, d)
    ensures AllBuilt(ms + [m], c, ds + [d])
  {
    forall q | 0 <= q < |ms| + 1 ensures MethodBuilt((ms + [m])[q], c, (ds + [d])[q]) {
      if q < |ms| {
        assert (ms + [m])[q] == ms[q] && (ds + [d])[q] == ds[q];
      }
    }
  }

  /** The descriptors of one more method declaration, appended to those of the ones before it. */
  lemma AllBuiltStep(built: seq<MethodData>, after: seq<MethodData>, c: ClassData, ds: seq<MethodDecl>, d: MethodDecl)
    requires |after| == |built| + 1 && after[..|built|] == built
    requires AllBuilt(built, c, ds) && MethodBuilt(after[|built|], c, d)
    ensures AllBuilt(after, c, ds + [d])
  {
    AllBuiltSnoc(built, c, ds, after[|built|], d);
    assert built + [after[|built|]] == after;
  }

  /** Descriptors that did not change describe what they described. */
  twostate lemma AllDescribeKept(vs: seq<IdData>)
    requires forall v :: v in vs ==> old(allocated(v)) && unchanged(v)
    ensures forall ds, init :: old(AllDescribe(vs, ds, init)) ==> AllDescribe(vs, ds, init)
  {
    forall ds, init, q | old(AllDescribe(vs, ds, init)) && 0 <= q < |vs| ensures Describes(vs[q], ds[q], init) {
      assert vs[q] in vs;
    }
  }

  /** Method descriptors that did not change, with parameters and locals that did not change, are built as before. */
  twostate lemma AllBuiltKept(ms: seq<MethodData>)
    requires forall m :: m in ms ==> old(allocated(m)) && unchanged(m)
    requires forall m, v :: m in ms && v in old(LocalIds(m)) ==> old(allocated(v)) && unchanged(v)
    ensures forall c, ds :: old(allocated(c)) && old(AllBuilt(ms, c, ds)) ==> AllBuilt(ms, c, ds)
  {
    forall c, ds | old(allocated(c)) && old(AllBuilt(ms, c, ds)) ensures AllBuilt(ms, c, ds) {
      forall q | 0 <= q < |ms| ensures MethodBuilt(ms[q], c, ds[q]) {
        var m := ms[q];
        assert m in ms;
        assert forall v :: v in m.arguments || v in m.variables ==> v in old(LocalIds(m));
        AllDescribeKept(m.arguments);
        AllDescribeKept(m.variables);
      }
    }
  }

  lemma TakeSnoc<T>(s: seq<T>, i: nat)
    requires i < |s|
    ensures s[..i] + [s[i]] == s[..i + 1]
  {
  }

  /** What a class declaration that passes leaves in its descriptor. */
  ghost predicate ClassFilled(c: ClassData, d: TypeDecl)
    reads c, IdSet(c.variables), MethodSet(c.methods), MethodIds(c.methods)
  {
    AllDescribe(c.variables, d.fields, d.ClassExtendsDecl?) && AllBuilt(c.methods, c, d.methods)
  }

  /** What a main class that passes leaves in its descriptor. */
  ghost predicate MainFilled(c: ClassData, mc: MainClass)
    reads c, MethodSet(c.methods), MethodIds(c.methods)
  {
    c.variables == [] && |c.methods| == 1 && MainBuilt(c.methods[0], c, mc)
  }

  // ---------------------------------------------------- overridden methods

  /** What overriding compares of a method descriptor. */
  ghost function SigOfData(m: MethodData): Sig
    reads m
  {
    Sig(m.returnType, Types(m.arguments))
  }

  /** The methods of the classes `cs`. */
  ghost function MethodsOfClasses(cs: seq<ClassData>): (r: set<MethodData>)
    reads ClassSet(cs)
    ensures forall k :: 0 <= k < |cs| ==> MethodSet(cs[k].methods) <= r
  {
    set a, m | a in ClassSet(cs) && m in a.methods :: m
  }

  /** The signature of method `n` in the first of the classes `cs` declaring one. */
  ghost function SigAbove(cs: seq<ClassData>, n: string): Option<Sig>
    reads ClassSet(cs), MethodsOfClasses(cs)
    decreases |cs|
  {
    if cs == [] then None
    else if n in MethodNames(cs[0].methods) then Some(SigOfData(cs[0].CertainMethod(n)))
    else
      assert ClassSet(cs[1..]) <= ClassSet(cs) && MethodsOfClasses(cs[1..]) <= MethodsOfClasses(cs);
      SigAbove(cs[1..], n)
  }

  /** The first class of `cs` declaring `n`, if any, gives the signature. */
  lemma {:induction false} SigAboveOwner(cs: seq<ClassData>, n: string)
    ensures SigAbove(cs, n) ==
              var k := MethodOwnerIndex(cs, n);
              if k < |cs| then Some(SigOfData(cs[k].CertainMethod(n))) else None
    decreases |cs|
  {
    if cs != [] && n !in MethodNames(cs[0].methods) {
      SigAboveOwner(cs[1..], n);
    }
  }

  /** Signatures looked up in classes that did not change, and whose methods did not change, are the same. */
  twostate lemma {:induction false} SigAboveKept(cs: seq<ClassData>)
    requires forall a :: a in cs ==> old(allocated(a)) && unchanged(a)
    requires forall a, m :: a in cs && m in old(a.methods) ==> old(allocated(m)) && unchanged(m)
    ensures forall n :: SigAbove(cs, n) == old(SigAbove(cs, n))
    decreases |cs|
  {
    if cs != [] {
      var a := cs[0];
      assert a in cs;
      assert forall b :: b in cs[1..] ==> b in cs;
      SigAboveKept(cs[1..]);
      forall n ensures SigAbove(cs, n) == old(SigAbove(cs, n)) {
        if n in MethodNames(a.methods) {
          var m := a.CertainMethod(n);
          assert m in old(a.methods);
        }
      }
    }
  }

  /** The signature of method `n` in the nearest strict ancestor of `c` declaring one. */
  ghost function SuperSigOf(c: ClassData, n: string): Option<Sig>
    reads ClassSet(c.ancestors), MethodsOfClasses(c.ancestors)
  {
    SigAbove(c.ancestors, n)
  }

  /** For each of the method declarations `ms`, the signature it would override in `c`. */
  ghost function SupersOf(c: ClassData, ms: seq<MethodDecl>): (r: seq<Option<Sig>>)
    reads ClassSet(c.ancestors), MethodsOfClasses(c.ancestors)
    ensures |r| == |ms|
    ensures forall q :: 0 <= q < |ms| ==> r[q] == SuperSigOf(c, ms[q].name)
  {
    if ms == [] then [] else SupersOf(c, ms[..|ms| - 1]) + [SuperSigOf(c, ms[|ms| - 1].name)]
  }

  /** Looking for method `n` above a class with a parent looks in the parent first, then above it. */
  lemma SuperSigOfUnfolds(c: ClassData, n: string)
    requires Chained(c) && c.parent != null
    ensures SuperSigOf(c, n) ==
              if n in MethodNames(c.parent.methods) then Some(SigOfData(c.parent.CertainMethod(n)))
              else SuperSigOf(c.parent, n)
  {
    ParentChained(c);
  }

  // ------------------------------------------- the registry and the program

  /**
   * The shape of the registry the first pass builds for `g`: the classes of
   * `g` in order, the main class without a parent, and every other class
   * with the parent it declares.
   */
  ghost predicate Declared(st: SymbolTable, g: Goal)
    reads st
  {
    && st.Valid() && st.classes == ClassNames(g)
    && st.classMap[g.main.name].parent == null
    && forall k :: 0 <= k < |g.decls| ==> ParentAsDeclared(st.classMap, g.decls[k])
  }

  /** Class `j` of the registry declares the methods, and the signatures, that class `j` of `g` declares. */
  ghost predicate HeaderAt(g: Goal, j: nat, c: ClassData)
    reads c, MethodSet(c.methods)
  {
    && j <= |g.decls|
    && MethodNames(c.methods) == OwnNamesAt(g, j)
    && forall n :: n in OwnNamesAt(g, j) ==> SigOfData(c.CertainMethod(n)) == OwnSigAt(g, j, n)
  }

  lemma FilledHeader(g: Goal, j: nat, c: ClassData)
    requires 0 < j <= |g.decls| && ClassFilled(c, g.decls[j - 1])
    ensures HeaderAt(g, j, c)
  {
    var ms := g.decls[j - 1].methods;
    assert MethodNames(c.methods) == MethodDeclNames(ms);
    forall n | n in OwnNamesAt(g, j) ensures SigOfData(c.CertainMethod(n)) == OwnSigAt(g, j, n) {
      var k := FirstIndex(MethodDeclNames(ms), n);
      assert c.CertainMethod(n) == c.methods[k];
      assert MethodBuilt(c.methods[k], c, ms[k]);
      DescribedNames(c.methods[k].arguments, ms[k].params, true);
    }
  }

  lemma MainHeader(g: Goal, c: ClassData)
    requires MainFilled(c, g.main)
    ensures HeaderAt(g, 0, c)
  {
    assert MethodNames(c.methods) == ["main"];
    DescribedNames(c.methods[0].arguments, MainParams, true);
  }

  /**
   * The registered classes `cs`, in declaration order, as the first pass
   * left them for `g`: one per class of `g`, each with the parent `g`
   * declares for it, no two at the same position.
   */
  ghost predicate Arranged(g: Goal, cs: seq<ClassData>) {
    && |cs| == 1 + |g.decls|
    && (forall i :: 0 <= i < |cs| ==> Chained(cs[i]))
    && (forall k :: 0 <= k < |g.decls| ==> cs[k + 1].name == g.decls[k].name)
    && (forall i :: 0 <= i < |cs| ==> ParentLink(g, cs, i))
    && (forall i, j :: 0 <= i < |cs| && 0 <= j < |cs| && i != j ==> Unshared(cs, i, j))
  }

  /** Class `i` of `cs` has the parent `g` declares for class `i`. */
  ghost predicate ParentLink(g: Goal, cs: seq<ClassData>, i: nat)
    requires i < |cs| == 1 + |g.decls|
  {
    if ParentIndexAt(g, i) == i then cs[i].parent == null else cs[i].parent == cs[ParentIndexAt(g, i)]
  }

  /** Positions `i` and `j` of `cs` hold different classes. */
  ghost predicate Unshared(cs: seq<ClassData>, i: nat, j: nat)
    requires i < |cs| && j < |cs|
  {
    cs[i] != cs[j]
  }

  /** The table maps the name of the main class to `cs[0]` and that of every class declaration `k` of `g` to `cs[k + 1]`. */
  ghost predicate LooksUp(st: SymbolTable, g: Goal, cs: seq<ClassData>)
    reads st
  {
    && |cs| == 1 + |g.decls|
    && g.main.name in st.classMap && st.classMap[g.main.name] == cs[0] && cs[0].name == g.main.name
    && forall k :: 0 <= k < |g.decls| ==> g.decls[k].name in st.classMap && st.classMap[g.decls[k].name] == cs[k + 1]
  }

  /** Class `i` of a registry shaped like `g` has the parent `g` gives it. */
  lemma ParentAt(st: SymbolTable, g: Goal, cs: seq<ClassData>, i: nat)
    requires Declared(st, g) && cs == st.ClassList() && i < |cs|
    ensures ParentLink(g, cs, i)
  {
    var c := st.ClassAt(i);
    st.ClassAtIndex(i);
    if c.parent != null {
      assert i > 0;
      var d := g.decls[i - 1];
      assert ParentAsDeclared(st.classMap, d);
      assert d.ClassExtendsDecl? && c.parent == st.classMap[d.superName];
      st.ParentBefore(i);
      assert ParentIndexAt(g, i) == FirstIndex(st.classes, c.parent.name);
    } else if i > 0 {
      assert ParentAsDeclared(st.classMap, g.decls[i - 1]);
    }
  }

  /** The first pass leaves the registry arranged as `g` declares it. */
  lemma DeclaredArranged(st: SymbolTable, g: Goal, cs: seq<ClassData>)
    requires Declared(st, g) && cs == st.ClassList()
    ensures Arranged(g, cs) && LooksUp(st, g, cs)
  {
    st.ClassListFacts(cs);
    st.ClassAtIndex(0);
    forall i | 0 <= i < |cs| ensures ParentLink(g, cs, i) {
      ParentAt(st, g, cs, i);
    }
    forall i, j | 0 <= i < |cs| && 0 <= j < |cs| && i != j ensures Unshared(cs, i, j) {
    }
    forall k | 0 <= k < |g.decls|
      ensures cs[k + 1].name == g.decls[k].name
      ensures g.decls[k].name in st.classMap && st.classMap[g.decls[k].name] == cs[k + 1]
    {
      st.ClassAtIndex(k + 1);
    }
  }

  /** Before the second pass every registered class is empty. */
  lemma BlankList(st: SymbolTable, cs: seq<ClassData>)
    requires st.Valid() && AllBlank(st) && cs == st.ClassList()
    ensures forall j :: 0 <= j < |cs| ==> Blank(cs[j])
  {
    forall j | 0 <= j < |cs| ensures Blank(cs[j]) {
      st.ClassAtIndex(j);
    }
  }

  /**
   * Once the classes before class `i` carry their declared methods, the
   * signature class `i` overrides for a name is the one the syntax tree
   * gives it.
   */
  lemma {:induction false} SuperSigsAgree(g: Goal, cs: seq<ClassData>, i: nat, n: string)
    requires Arranged(g, cs) && i < |cs|
    requires forall j :: 0 <= j < i ==> HeaderAt(g, j, cs[j])
    ensures SuperSigOf(cs[i], n) == SuperSigAt(g, i, n)
    decreases i
  {
    var c, j := cs[i], ParentIndexAt(g, i);
    assert ParentLink(g, cs, i);
    if j < i {
      SuperSigOfUnfolds(c, n);
      assert HeaderAt(g, j, cs[j]);
      if n !in OwnNamesAt(g, j) {
        SuperSigsAgree(g, cs, j, n);
      }
    }
  }

  /** Class `j` of the registry holds what the second pass builds for class `j` of `g`. */
  ghost predicate Done(g: Goal, j: nat, c: ClassData)
    reads c, IdSet(c.variables), MethodSet(c.methods), MethodIds(c.methods)
  {
    && j <= |g.decls|
    && if j == 0 then MainFilled(c, g.main) else ClassFilled(c, g.decls[j - 1])
  }

  /** Classes the second pass is done with declare the methods of their declarations. */
  lemma DoneHeaders(g: Goal, cs: seq<ClassData>, k: nat)
    requires k < |cs| && k <= |g.decls|
    requires forall j :: 0 <= j <= k ==> Done(g, j, cs[j])
    ensures forall j :: 0 <= j <= k ==> HeaderAt(g, j, cs[j])
  {
    forall j | 0 <= j <= k ensures HeaderAt(g, j, cs[j]) {
      assert Done(g, j, cs[j]);
      if j == 0 { MainHeader(g, cs[j]); } else { FilledHeader(g, j, cs[j]); }
    }
  }

  /**
   * Once the classes before class `k + 1` are done, the signatures its
   * methods override are the ones the syntax tree gives them.
   */
  lemma DoneSupers(g: Goal, cs: seq<ClassData>, k: nat)
    requires Arranged(g, cs) && k < |g.decls|
    requires forall j :: 0 <= j <= k ==> Done(g, j, cs[j])
    ensures SupersOf(cs[k + 1], g.decls[k].methods) == DeclSupers(g, k + 1)
  {
    DoneHeaders(g, cs, k);
    var ms := g.decls[k].methods;
    var r, e := SupersOf(cs[k + 1], ms), DeclSupers(g, k + 1);
    forall q | 0 <= q < |ms| ensures r[q] == e[q] {
      SuperSigsAgree(g, cs, k + 1, ms[q].name);
    }
  }

  /** A class whose descriptors did not change holds what it held. */
  twostate lemma DoneKept(c: ClassData)
    requires old(allocated(c)) && unchanged(c)
    requires forall v :: v in c.variables ==> old(allocated(v)) && unchanged(v)
    requires forall m :: m in c.methods ==> old(allocated(m)) && unchanged(m)
    requires forall m, v :: m in c.methods && v in old(LocalIds(m)) ==> old(allocated(v)) && unchanged(v)
    ensures forall g, j :: old(Done(g, j, c)) ==> Done(g, j, c)
  {
    AllDescribeKept(c.variables);
    AllBuiltKept(c.methods);
    if |c.methods| == 1 {
      var m := c.methods[0];
      assert m in c.methods;
      assert forall v :: v in m.arguments || v in m.variables ==> v in old(LocalIds(m));
      AllDescribeKept(m.arguments);
      AllDescribeKept(m.variables);
    }
  }

  /** No two of the first `i` classes share a field descriptor. */
  ghost predicate FieldsApart(cs: seq<ClassData>, i: nat)
    requires i <= |cs|
    reads ClassSet(cs[..i])`variables
  {
    forall j1, j2 :: 0 <= j1 < j2 < i ==> IdSet(cs[j1].variables) !! IdSet(cs[j2].variables)
  }

  /** Fields of class `i` that no class before it holds keep the classes up to `i` apart. */
  lemma FieldsApartStep(cs: seq<ClassData>, i: nat)
    requires i < |cs| && FieldsApart(cs, i)
    requires forall j :: 0 <= j < i ==> IdSet(cs[j].variables) !! IdSet(cs[i].variables)
    ensures FieldsApart(cs, i + 1)
  {
  }

  /** A combined map built by binding the parameters and then the locals is consistent. */
  lemma BoundValid(m: MethodData)
    requires m.generalVarMap == Bound(m.arguments + m.variables)
    ensures m.Valid()
  {
    var vs := m.arguments + m.variables;
    BoundBinds(vs);
    forall v | v in m.arguments || v in m.variables ensures v.name in m.generalVarMap {
      assert v in vs;
      var q :| 0 <= q < |vs| && vs[q] == v;
      assert Names(vs)[q] == v.name;
    }
  }

  /** Every registered class is the class at some position of the declaration order. */
  lemma ClassAtCovers(st: SymbolTable)
    requires st.Valid()
    ensures forall c :: c in st.ClassObjs() ==> exists j :: 0 <= j < |st.classes| && st.ClassAt(j) == c
  {
    forall c | c in st.ClassObjs() ensures exists j :: 0 <= j < |st.classes| && st.ClassAt(j) == c {
      var n :| n in st.classMap && st.classMap[n] == c;
      var j := FirstIndex(st.classes, n);
      assert st.ClassAt(j) == c;
    }
  }

  /** The members of a method descriptor that was built for a declaration are consistent. */
  lemma BuiltValid(c: ClassData, ms: seq<MethodData>, ds: seq<MethodDecl>)
    requires AllBuilt(ms, c, ds)
    ensures forall m :: m in ms ==> m.classData == c && m.Valid()
  {
    forall m | m in ms ensures m.classData == c && m.Valid() {
      var q :| 0 <= q < |ms| && ms[q] == m;
      assert MethodBuilt(ms[q], c, ds[q]);
      BoundValid(m);
    }
  }

  /** The members of class declaration `k` after the second pass accepted it are consistent. */
  lemma FilledDeclValid(types: seq<string>, supers: seq<Option<Sig>>, c: ClassData, d: TypeDecl)
    requires |supers| == |d.methods| && ClassCheck(types, supers, d).Pass? && ClassFilled(c, d)
    ensures Distinct(Names(c.variables)) && Distinct(MethodNames(c.methods))
    ensures forall m :: m in c.methods ==> m.classData == c && m.Valid() && m.offset == 0
  {
    DescribedNames(c.variables, d.fields, d.ClassExtendsDecl?);
    ListCheckPasses(types, [], d.fields, DuplicateField);
    MethodsCheckGuarantees(types, d.name, supers, d.methods);
    assert MethodNames(c.methods) == MethodDeclNames(d.methods);
    BuiltValid(c, c.methods, d.methods);
  }

  /** The members of the main class after the second pass accepted it are consistent. */
  lemma FilledMainValid(c: ClassData, mc: MainClass)
    requires MainFilled(c, mc)
    ensures Distinct(Names(c.variables)) && Distinct(MethodNames(c.methods))
    ensures forall m :: m in c.methods ==> m.classData == c && m.Valid() && m.offset == 0
  {
    assert MethodNames(c.methods) == ["main"];
    BoundValid(c.methods[0]);
  }

  /** The members of a class the second pass accepted are consistent, and nothing of it is placed yet. */
  lemma FilledClassValid(st: SymbolTable, g: Goal, j: nat)
    requires Declared(st, g) && MembersCheck(st.validTypes, g).Pass?
    requires j <= |g.decls| && Done(g, j, st.ClassAt(j))
    requires st.ClassAt(j).fieldOffset == 0 && st.ClassAt(j).methodOffset == 0
    ensures var c := st.ClassAt(j);
            && Distinct(Names(c.variables)) && Distinct(MethodNames(c.methods))
            && (forall m :: m in c.methods ==> m.classData == c && m.Valid())
            && Unplaced(c)
  {
    var c := st.ClassAt(j);
    if j == 0 {
      FilledMainValid(c, g.main);
    } else {
      MembersPass(st.validTypes, g);
      FilledDeclValid(st.validTypes, DeclSupers(g, j), c, g.decls[j - 1]);
    }
  }

  /**
   * After a second pass that accepts `g`, the member lists of every class
   * are consistent: distinct field names and method names per class, every
   * method bound to its class with a consistent combined map, no field
   * shared by two classes, and nothing placed yet.
   */
  lemma FilledValid(st: SymbolTable, g: Goal, cs: seq<ClassData>)
    requires Declared(st, g) && MembersCheck(st.validTypes, g).Pass? && cs == st.ClassList()
    requires forall j :: 0 <= j <= |g.decls| ==> Done(g, j, cs[j])
    requires FieldsApart(cs, |cs|)
    requires forall j :: 0 <= j < |cs| ==> cs[j].fieldOffset == 0 && cs[j].methodOffset == 0
    ensures st.MembersValid()
    ensures forall j :: 0 <= j < |cs| ==> Unplaced(cs[j])
  {
    ClassAtCovers(st);
    forall j | 0 <= j < |st.classes|
      ensures var c := st.ClassAt(j);
              && Distinct(Names(c.variables)) && Distinct(MethodNames(c.methods))
              && (forall m :: m in c.methods ==> m.classData == c && m.Valid())
              && Unplaced(c)
    {
      FilledClassValid(st, g, j);
    }
    forall c1, c2, v | c1 in st.ClassObjs() && c2 in st.ClassObjs() && v in c1.variables && v in c2.variables
      ensures c1 == c2
    {
      var j1 :| 0 <= j1 < |st.classes| && st.ClassAt(j1) == c1;
      var j2 :| 0 <= j2 < |st.classes| && st.ClassAt(j2) == c2;
      FieldOwner(cs, j1, j2, v);
    }
  }

  /** A field held by the classes at two positions of classes kept apart is held at one position. */
  lemma FieldOwner(cs: seq<ClassData>, j1: nat, j2: nat, v: IdData)
    requires j1 < |cs| && j2 < |cs| && FieldsApart(cs, |cs|)
    requires v in cs[j1].variables && v in cs[j2].variables
    ensures j1 == j2
  {
    assert v in IdSet(cs[j1].variables) && v in IdSet(cs[j2].variables);
  }

  // ---------------------------------------------------------------- scans

  /** Whether some descriptor of `vs` is named `n`: the scan of the parameters declared so far. */
  method NameDeclared(vs: seq<IdData>, n: string) returns (found: bool)
    ensures found <==> n in Names(vs)
  {
    found := false;
    var index := 0;
    while index < |vs| && !found
      invariant 0 <= index <= |vs|
      invariant found <==> n in Names(vs)[..index]
    {
      assert Names(vs)[..index + 1] == Names(vs)[..index] + [vs[index].name];
      found := vs[index].name == n;
      index := index + 1;
    }
    assert !found ==> Names(vs)[..index] == Names(vs);
  }

  /**
   * The duplicate scan the main visit makes for its local number `i`: it
   * runs over the fields of the class but compares field `i` each round, so
   * it reports a clash exactly when the class has a field and field `i` has
   * the name. The main class never has a field, so it never reports one.
   */
  method MainFieldScan(vs: seq<IdData>, i: nat, n: string) returns (clash: bool)
    requires vs == [] || i < |vs|
    ensures clash <==> vs != [] && vs[i].name == n
  {
    clash := false;
    var index := 0;
    while index < |vs| && !clash
      invariant 0 <= index <= |vs|
      invariant clash <==> 0 < index && vs[i].name == n
    {
      clash := vs[i].name == n;
      index := index + 1;
    }
  }

  // ------------------------------------------------------------ the visitor

  class Visitor2 {
    const symbolTable: SymbolTable

    constructor (symbolTable: SymbolTable)
      ensures this.symbolTable == symbolTable
    {
      this.symbolTable := symbolTable;
    }

    /**
     * The second pass over a whole program: the main class, then every
     * class declaration in order, up to the first that fails. When it
     * passes, every class holds the descriptors of its declaration, and
     * the table is ready for the offset pass.
     */
    method VisitGoal(g: Goal) returns (o: Outcome)
      requires Declared(symbolTable, g) && AllBlank(symbolTable)
      modifies symbolTable.ClassObjs()`variables, symbolTable.ClassObjs()`methods
      ensures o == MembersCheck(symbolTable.validTypes, g)
      ensures o.Pass? ==> forall j :: 0 <= j <= |g.decls| ==> Done(g, j, old(symbolTable.ClassList())[j])
      ensures o.Pass? ==> symbolTable.MembersValid()
      ensures o.Pass? ==> forall j :: 0 <= j < |symbolTable.classes| ==> Unplaced(old(symbolTable.ClassList())[j])
    {
      var st := symbolTable;
      ghost var cs := st.ClassList();
      BlankList(st, cs);
      DeclaredArranged(st, g, cs);
      ghost var types := st.validTypes;
      var main := st.classMap[g.main.name];
      o := VisitMainClass(main, g.main);
      assert o == MainCheck(types, g.main);
      if o.Pass? {
        forall j | 0 < j < |cs| ensures Blank(cs[j]) {
          assert Unshared(cs, j, 0);
        }
        o := VisitDecls(g, cs);
        assert o == FirstFailure(DeclVerdicts(types, g)) == MembersCheck(types, g);
        if o.Pass? {
          forall j | 0 <= j < |cs| ensures cs[j].fieldOffset == 0 && cs[j].methodOffset == 0 {
            assert old(Blank(cs[j]));
          }
          FilledValid(st, g, cs);
        }
      }
    }

    /** Every class declaration of `g` in order, up to the first that fails, once the main class is done. */
    method VisitDecls(g: Goal, ghost cs: seq<ClassData>) returns (o: Outcome)
      requires Arranged(g, cs) && LooksUp(symbolTable, g, cs)
      requires Done(g, 0, cs[0]) && forall j :: 0 < j < |cs| ==> Blank(cs[j])
      modifies symbolTable.ClassObjs()`variables, symbolTable.ClassObjs()`methods
      ensures o == FirstFailure(DeclVerdicts(symbolTable.validTypes, g))
      ensures o.Pass? ==> forall j :: 0 <= j <= |g.decls| ==> Done(g, j, cs[j])
      ensures o.Pass? ==> FieldsApart(cs, |cs|)
    {
      var st := symbolTable;
      ghost var vs := DeclVerdicts(st.validTypes, g);
      o := Pass;
      var k := 0;
      while k < |g.decls| && o.Pass?
        invariant 0 <= k <= |g.decls|
        invariant o == FirstFailure(vs[..k])
        invariant o.Pass? ==> forall j :: 0 <= j <= k ==> Done(g, j, cs[j])
        invariant forall j :: k < j < |cs| ==> Blank(cs[j])
        invariant FieldsApart(cs, k + 1)
      {
        FirstFailureStep(vs, k);
        DoneSupers(g, cs, k);
        o := VisitDeclAt(g, k, cs);
        k := k + 1;
      }
      if o.Fail? {
        FirstFailureSticks(vs, k);
      } else {
        assert vs[..k] == vs;
      }
    }

    /**
     * Class declaration `k` of `g`, once the classes before it are done and
     * the ones after it are still empty; `cs` are the registered classes in
     * declaration order.
     */
    method VisitDeclAt(g: Goal, k: nat, ghost cs: seq<ClassData>) returns (o: Outcome)
      requires k < |g.decls| && Arranged(g, cs) && LooksUp(symbolTable, g, cs)
      requires SupersOf(cs[k + 1], g.decls[k].methods) == DeclSupers(g, k + 1)
      requires forall j :: 0 <= j <= k ==> Done(g, j, cs[j])
      requires forall j :: k + 1 <= j < |cs| ==> Blank(cs[j])
      requires FieldsApart(cs, k + 1)
      modifies ClassSet([cs[k + 1]])`variables, ClassSet([cs[k + 1]])`methods
      ensures o == ClassCheck(symbolTable.validTypes, DeclSupers(g, k + 1), g.decls[k])
      ensures o.Pass? ==> forall j :: 0 <= j <= k + 1 ==> Done(g, j, cs[j])
      ensures forall j :: k + 1 < j < |cs| ==> Blank(cs[j])
      ensures FieldsApart(cs, k + 2)
    {
      var d := g.decls[k];
      var c := symbolTable.classMap[d.name];
      o := VisitTypeDecl(c, d);
      forall j | 0 <= j <= k ensures Done(g, j, cs[j]) {
        assert Unshared(cs, j, k + 1);
        DoneKept(cs[j]);
      }
      forall j | k + 1 < j < |cs| ensures Blank(cs[j]) {
        assert Unshared(cs, j, k + 1);
      }
      forall j | 0 <= j < k + 1 ensures IdSet(cs[j].variables) !! IdSet(c.variables) {
        assert Unshared(cs, j, k + 1);
        assert IdSet(cs[j].variables) == old(IdSet(cs[j].variables));
      }
      FieldsApartStep(cs, k + 1);
    }

    /**
     * A class declaration (the class and class-extends visits): its fields,
     * initialized exactly for a class that extends another, then its
     * methods. Only `c`'s own lists change.
     */
    method VisitTypeDecl(c: ClassData, d: TypeDecl) returns (o: Outcome)
      requires Chained(c) && c.name == d.name && c.variables == [] && c.methods == []
      modifies c`variables, c`methods
      ensures o == ClassCheck(symbolTable.validTypes, old(SupersOf(c, d.methods)), d)
      ensures o.Pass? ==> ClassFilled(c, d)
      ensures forall v :: v in c.variables ==> fresh(v)
    {
      NotOwnAncestor(c);
      ghost var supers := SupersOf(c, d.methods);
      o := VisitClassFields(c, d.fields, d.ClassExtendsDecl?);
      if o.Pass? {
        SigAboveKept(c.ancestors);
        o := VisitMethodDecls(c, d.methods, supers);
      }
    }

    /** The fields of a class, in order, up to the first that fails. */
    method VisitClassFields(c: ClassData, fs: seq<VarDecl>, init: bool) returns (o: Outcome)
      requires c.variables == []
      modifies c`variables
      ensures o == ListCheck(symbolTable.validTypes, [], fs, DuplicateField)
      ensures o.Pass? ==> AllDescribe(c.variables, fs, init)
      ensures forall v :: v in c.variables ==> fresh(v)
    {
      ghost var vs := VarVerdicts(symbolTable.validTypes, [], fs, DuplicateField);
      o := Pass;
      var i := 0;
      while i < |fs| && o.Pass?
        invariant 0 <= i <= |fs|
        invariant o == FirstFailure(vs[..i])
        invariant o.Pass? ==> AllDescribe(c.variables, fs[..i], init)
        invariant forall v :: v in c.variables ==> fresh(v)
      {
        FirstFailureStep(vs, i);
        assert [] + DeclNames(fs[..i]) == DeclNames(fs[..i]);
        o := VisitField(c, fs[i], init, fs[..i]);
        TakeSnoc(fs, i);
        i := i + 1;
      }
      if o.Fail? {
        FirstFailureSticks(vs, i);
      } else {
        assert vs[..i] == vs && fs[..i] == fs;
      }
    }

    /**
     * One field, after the fields `before`: it needs a recognized type and
     * a name no earlier field of the class has, and is then appended.
     */
    method VisitField(c: ClassData, d: VarDecl, init: bool, ghost before: seq<VarDecl>) returns (o: Outcome)
      requires AllDescribe(c.variables, before, init)
      modifies c`variables
      ensures o == VarVerdict(symbolTable.validTypes, DeclNames(before), d, DuplicateField)
      ensures o.Pass? ==> AllDescribe(c.variables, before + [d], init)
      ensures forall v :: v in c.variables ==> v in old(c.variables) || fresh(v)
    {
      DescribedNames(c.variables, before, init);
      if d.typ !in symbolTable.validTypes {
        o := Fail(UnknownType);
      } else {
        var taken := NameDeclared(c.variables, d.name);
        if taken {
          o := Fail(DuplicateField);
        } else {
          var v := new IdData(d.typ, init, d.name, 0);
          DescribeSnoc(c.variables, before, v, d, init);
          c.InsertVariable(v);
          o := Pass;
        }
      }
    }

    /**
     * The main class: its one method `void main(String[] args)` must not
     * be named after the class; the method is appended with its argument,
     * then its locals are registered.
     */
    method VisitMainClass(c: ClassData, mc: MainClass) returns (o: Outcome)
      requires c.name == mc.name && c.variables == [] && c.methods == []
      modifies c`methods
      ensures o == MainCheck(symbolTable.validTypes, mc)
      ensures o.Pass? ==> MainFilled(c, mc)
    {
      if c.name == "main" {
        o := Fail(MethodNameCollidesWithClass);
      } else {
        var defined := c.MethodExists("main");
        if defined {
          o := Fail(DuplicateMethod);
        } else {
          var newMethod := new MethodData(c, "void", "main", 0);
          c.InsertMethod(newMethod);
          o := FillMain(c, newMethod, mc);
        }
      }
    }

    /** The new, empty main method of `c` receives its argument `args`, then its locals. */
    method FillMain(c: ClassData, m: MethodData, mc: MainClass) returns (o: Outcome)
      requires c.variables == []
      requires m.classData == c && m.returnType == "void" && m.name == "main" && m.offset == 0
      requires m.arguments == [] && m.variables == [] && m.generalVarMap == map[]
      modifies m`arguments, m`variables, m`generalVarMap
      ensures o == FirstFailure(TypeVerdicts(symbolTable.validTypes, mc.locals))
      ensures o.Pass? ==> MainBuilt(m, c, mc)
    {
      var newArgument := new IdData("String[]", true, "args", 0);
      m.InsertArgument(newArgument);
      m.InsertIntoGeneralVarMap(newArgument);
      assert m.arguments == [newArgument] && [] + [newArgument] == [newArgument];
      assert AllDescribe(m.arguments, MainParams, true);
      o := VisitMainLocals(c, m, mc.locals);
    }

    /**
     * The parameters of a new method, in order (the parameter-list visits),
     * up to the first that fails.
     */
    method VisitFormalParameters(m: MethodData, ps: seq<VarDecl>) returns (o: Outcome)
      requires m.arguments == [] && m.generalVarMap == map[]
      modifies m`arguments, m`generalVarMap
      ensures o == ListCheck(symbolTable.validTypes, [], ps, DuplicateParameter)
      ensures o.Pass? ==> AllDescribe(m.arguments, ps, true) && m.generalVarMap == Bound(m.arguments)
    {
      ghost var vs := VarVerdicts(symbolTable.validTypes, [], ps, DuplicateParameter);
      o := Pass;
      var i := 0;
      while i < |ps| && o.Pass?
        invariant 0 <= i <= |ps|
        invariant o == FirstFailure(vs[..i])
        invariant o.Pass? ==> AllDescribe(m.arguments, ps[..i], true) && m.generalVarMap == Bound(m.arguments)
      {
        FirstFailureStep(vs, i);
        assert [] + DeclNames(ps[..i]) == DeclNames(ps[..i]);
        o := VisitFormalParameter(m, ps[i], ps[..i]);
        assert ps[..i] + [ps[i]] == ps[..i + 1];
        i := i + 1;
      }
      if o.Fail? {
        FirstFailureSticks(vs, i);
      } else {
        assert vs[..i] == vs && ps[..i] == ps;
      }
    }

    /**
     * One parameter, after the parameters `before`: it needs a recognized
     * type and a name no earlier parameter has, and is then appended
     * initialized and bound in the combined map.
     */
    method VisitFormalParameter(m: MethodData, p: VarDecl, ghost before: seq<VarDecl>) returns (o: Outcome)
      requires AllDescribe(m.arguments, before, true) && m.generalVarMap == Bound(m.arguments)
      modifies m`arguments, m`generalVarMap
      ensures o == VarVerdict(symbolTable.validTypes, DeclNames(before), p, DuplicateParameter)
      ensures o.Pass? ==> AllDescribe(m.arguments, before + [p], true) && m.generalVarMap == Bound(m.arguments)
    {
      DescribedNames(m.arguments, before, true);
      if p.typ !in symbolTable.validTypes {
        o := Fail(UnknownType);
      } else {
        var taken := NameDeclared(m.arguments, p.name);
        if taken {
          o := Fail(DuplicateParameter);
        } else {
          var v := new IdData(p.typ, true, p.name, 0);
          DescribeSnoc(m.arguments, before, v, p, true);
          BoundSnoc(m.arguments, v);
          m.InsertArgument(v);
          m.InsertIntoGeneralVarMap(v);
          o := Pass;
        }
      }
    }

    /** The locals of a method, in order, after its parameters, up to the first that fails. */
    method VisitMethodLocals(m: MethodData, ls: seq<VarDecl>) returns (o: Outcome)
      requires m.variables == [] && m.generalVarMap == Bound(m.arguments)
      modifies m`variables, m`generalVarMap
      ensures o == ListCheck(symbolTable.validTypes, Names(m.arguments), ls, DuplicateLocal)
      ensures o.Pass? ==> AllDescribe(m.variables, ls, false) && m.generalVarMap == Bound(m.arguments + m.variables)
    {
      ghost var vs := VarVerdicts(symbolTable.validTypes, Names(m.arguments), ls, DuplicateLocal);
      o := Pass;
      var i := 0;
      assert m.arguments + m.variables == m.arguments;
      while i < |ls| && o.Pass?
        invariant 0 <= i <= |ls|
        invariant o == FirstFailure(vs[..i])
        invariant o.Pass? ==> AllDescribe(m.variables, ls[..i], false) && m.generalVarMap == Bound(m.arguments + m.variables)
      {
        FirstFailureStep(vs, i);
        o := VisitMethodLocal(m, ls[i], ls[..i]);
        assert ls[..i] + [ls[i]] == ls[..i + 1];
        i := i + 1;
      }
      if o.Fail? {
        FirstFailureSticks(vs, i);
      } else {
        assert vs[..i] == vs && ls[..i] == ls;
      }
    }

    /**
     * One local of a method, after the locals `before`: it needs a
     * recognized type and a name no parameter and no earlier local has, and
     * is then appended uninitialized and bound in the combined map.
     */
    method VisitMethodLocal(m: MethodData, d: VarDecl, ghost before: seq<VarDecl>) returns (o: Outcome)
      requires AllDescribe(m.variables, before, false) && m.generalVarMap == Bound(m.arguments + m.variables)
      modifies m`variables, m`generalVarMap
      ensures o == VarVerdict(symbolTable.validTypes, Names(m.arguments) + DeclNames(before), d, DuplicateLocal)
      ensures o.Pass? ==> AllDescribe(m.variables, before + [d], false) && m.generalVarMap == Bound(m.arguments + m.variables)
    {
      DescribedNames(m.variables, before, false);
      if d.typ !in symbolTable.validTypes {
        o := Fail(UnknownType);
      } else {
        var taken := m.VariableExists(d.name);
        if taken {
          o := Fail(DuplicateLocal);
        } else {
          var v := new IdData(d.typ, false, d.name, 0);
          DescribeSnoc(m.variables, before, v, d, false);
          assert m.arguments + (m.variables + [v]) == (m.arguments + m.variables) + [v];
          BoundSnoc(m.arguments + m.variables, v);
          m.InsertVariable(v);
          m.InsertIntoGeneralVarMap(v);
          o := Pass;
        }
      }
    }

    /** The locals of the main method, in order, up to the first that fails. */
    method VisitMainLocals(c: ClassData, m: MethodData, ls: seq<VarDecl>) returns (o: Outcome)
      requires c.variables == [] && m.variables == [] && m.generalVarMap == Bound(m.arguments)
      modifies m`variables, m`generalVarMap
      ensures o == FirstFailure(TypeVerdicts(symbolTable.validTypes, ls))
      ensures o.Pass? ==> AllDescribe(m.variables, ls, false) && m.generalVarMap == Bound(m.arguments + m.variables)
    {
      ghost var vs := TypeVerdicts(symbolTable.validTypes, ls);
      o := Pass;
      var i := 0;
      assert m.arguments + m.variables == m.arguments;
      while i < |ls| && o.Pass?
        invariant 0 <= i <= |ls|
        invariant o == FirstFailure(vs[..i])
        invariant o.Pass? ==> AllDescribe(m.variables, ls[..i], false) && m.generalVarMap == Bound(m.arguments + m.variables)
      {
        FirstFailureStep(vs, i);
        o := VisitMainLocal(c, m, ls[i], i, ls[..i]);
        assert ls[..i] + [ls[i]] == ls[..i + 1];
        i := i + 1;
      }
      if o.Fail? {
        FirstFailureSticks(vs, i);
      } else {
        assert vs[..i] == vs && ls[..i] == ls;
      }
    }

    /**
     * Local number `i` of the main method, after the locals `before`: it
     * needs a recognized type; the duplicate scan looks at the fields of
     * the main class (none), so it never rejects it. It is then appended
     * uninitialized and bound in the combined map, replacing an earlier
     * binding of its name.
     */
    method VisitMainLocal(c: ClassData, m: MethodData, d: VarDecl, i: nat, ghost before: seq<VarDecl>)
      returns (o: Outcome)
      requires c.variables == []
      requires AllDescribe(m.variables, before, false) && m.generalVarMap == Bound(m.arguments + m.variables)
      modifies m`variables, m`generalVarMap
      ensures o == Need(d.typ in symbolTable.validTypes, UnknownType)
      ensures o.Pass? ==> AllDescribe(m.variables, before + [d], false) && m.generalVarMap == Bound(m.arguments + m.variables)
    {
      if d.typ !in symbolTable.validTypes {
        o := Fail(UnknownType);
      } else {
        var clash := MainFieldScan(c.variables, i, d.name);
        if clash {
          o := Fail(DuplicateField);
        } else {
          var v := new IdData(d.typ, false, d.name, 0);
          DescribeSnoc(m.variables, before, v, d, false);
          assert m.arguments + (m.variables + [v]) == (m.arguments + m.variables) + [v];
          BoundSnoc(m.arguments + m.variables, v);
          m.InsertVariable(v);
          m.InsertIntoGeneralVarMap(v);
          o := Pass;
        }
      }
    }

    /**
     * A new method against the ancestor method it overrides: the return
     * types, then the parameter counts, then the parameter types in order.
     */
    method CompareSignatures(superMethod: MethodData, newMethod: MethodData) returns (o: Outcome)
      ensures o == OverrideCheck(SigOfData(superMethod), SigOfData(newMethod))
    {
      if superMethod.returnType != newMethod.returnType {
        o := Fail(ReturnTypeMismatch);
      } else if |superMethod.arguments| != |newMethod.arguments| {
        o := Fail(ArityMismatch);
      } else {
        o := Pass;
        var i := 0;
        while i < |superMethod.arguments| && o.Pass?
          invariant 0 <= i <= |superMethod.arguments|
          invariant o.Pass? <==> forall j :: 0 <= j < i ==> superMethod.arguments[j].typ == newMethod.arguments[j].typ
          invariant o.Fail? ==> o == Fail(ParameterTypeMismatch)
        {
          if superMethod.arguments[i].typ != newMethod.arguments[i].typ {
            o := Fail(ParameterTypeMismatch);
          }
          i := i + 1;
        }
        if o.Pass? {
          assert Types(superMethod.arguments) == Types(newMethod.arguments);
        } else {
          var j :| 0 <= j < i && superMethod.arguments[j].typ != newMethod.arguments[j].typ;
          assert Types(superMethod.arguments)[j] != Types(newMethod.arguments)[j];
        }
      }
    }

    /**
     * The override check of a new method of `c`: when an ancestor declares
     * a method of its name, the nearest such method must have its
     * signature.
     */
    method CheckPolymorphism(c: ClassData, newMethod: MethodData) returns (o: Outcome)
      requires Chained(c)
      ensures o == match SuperSigOf(c, newMethod.name)
                   case None => Pass
                   case Some(s) => OverrideCheck(s, SigOfData(newMethod))
    {
      var inSuper := symbolTable.MethodExistsInSuper(newMethod.name, c);
      o := Pass;
      if inSuper {
        var superClass := symbolTable.GetSuperMethod(newMethod.name, c);
        var superMethod := superClass.GetCertainMethod(newMethod.name);
        o := CompareSignatures(superMethod, newMethod);
      }
      SigAboveOwner(c.ancestors, newMethod.name);
    }

    /**
     * One method of class `c` (the method-declaration visit): a recognized
     * return type, a name the class has not yet used and that is not the
     * class's own; then the descriptor is built.
     */
    method VisitMethodDecl(c: ClassData, md: MethodDecl, ghost before: seq<MethodDecl>) returns (o: Outcome)
      requires Chained(c) && AllBuilt(c.methods, c, before)
      modifies c`methods
      ensures o == MethodCheck(symbolTable.validTypes, old(MethodNames(c.methods)), c.name,
                               old(SuperSigOf(c, md.name)), md)
      ensures o.Pass? ==> AllBuilt(c.methods, c, before + [md])
    {
      if md.returnType !in symbolTable.validTypes {
        o := Fail(UnknownType);
      } else {
        var defined := c.MethodExists(md.name);
        if defined {
          o := Fail(DuplicateMethod);
        } else if c.name == md.name {
          o := Fail(MethodNameCollidesWithClass);
        } else {
          SigAboveKept(c.ancestors);
          o := BuildMethod(c, md, before);
        }
      }
    }

    /**
     * The rest of the method visit: the descriptor is appended to `c`, then
     * filled in.
     */
    method BuildMethod(c: ClassData, md: MethodDecl, ghost before: seq<MethodDecl>) returns (o: Outcome)
      requires Chained(c) && AllBuilt(c.methods, c, before)
      modifies c`methods
      ensures o == SignatureCheck(symbolTable.validTypes, old(SuperSigOf(c, md.name)), md)
      ensures o.Pass? ==> AllBuilt(c.methods, c, before + [md])
    {
      NotOwnAncestor(c);
      ghost var built := c.methods;
      var newMethod := new MethodData(c, md.returnType, md.name, 0);
      c.InsertMethod(newMethod);
      assert c.methods[..|built|] == built;
      SigAboveKept(c.ancestors);
      o := FillMethod(c, newMethod, md);
      if o.Pass? {
        AllBuiltKept(built);
        AllBuiltStep(built, c.methods, c, before, md);
      }
    }

    /**
     * A new, empty descriptor of method `md` of class `c` receives its
     * parameters; the override is checked; it receives its locals.
     */
    method FillMethod(c: ClassData, m: MethodData, md: MethodDecl) returns (o: Outcome)
      requires Chained(c) && m !in MethodsOfClasses(c.ancestors)
      requires m.classData == c && m.returnType == md.returnType && m.name == md.name && m.offset == 0
      requires m.arguments == [] && m.variables == [] && m.generalVarMap == map[]
      modifies m`arguments, m`variables, m`generalVarMap
      ensures o == SignatureCheck(symbolTable.validTypes, old(SuperSigOf(c, md.name)), md)
      ensures o.Pass? ==> MethodBuilt(m, c, md)
    {
      o := VisitFormalParameters(m, md.params);
      if o.Pass? {
        DescribedNames(m.arguments, md.params, true);
        o := CheckPolymorphism(c, m);
        SigAboveKept(c.ancestors);
        if o.Pass? {
          o := VisitMethodLocals(m, md.locals);
        }
      }
    }

    /** The methods of class `c`, in order, up to the first that fails. */
    method VisitMethodDecls(c: ClassData, ms: seq<MethodDecl>, ghost supers: seq<Option<Sig>>) returns (o: Outcome)
      requires Chained(c) && c.methods == []
      requires |supers| == |ms| && forall q :: 0 <= q < |ms| ==> supers[q] == SuperSigOf(c, ms[q].name)
      modifies c`methods
      ensures o == MethodsCheck(symbolTable.validTypes, c.name, supers, ms)
      ensures o.Pass? ==> AllBuilt(c.methods, c, ms)
    {
      NotOwnAncestor(c);
      ghost var vs := MethodVerdicts(symbolTable.validTypes, c.name, supers, ms);
      o := Pass;
      var i := 0;
      while i < |ms| && o.Pass?
        invariant 0 <= i <= |ms|
        invariant o == FirstFailure(vs[..i])
        invariant forall a :: a in c.ancestors ==> unchanged(a)
        invariant forall a, m :: a in c.ancestors && m in old(a.methods) ==> unchanged(m)
        invariant o.Pass? ==> AllBuilt(c.methods, c, ms[..i])
      {
        FirstFailureStep(vs, i);
        assert MethodNames(c.methods) == MethodDeclNames(ms[..i]);
        SigAboveKept(c.ancestors);
        ghost var v := vs[i];
        assert v == MethodCheck(symbolTable.validTypes, MethodNames(c.methods), c.name, SuperSigOf(c, ms[i].name), ms[i]);
        o := VisitMethodDecl(c, ms[i], ms[..i]);
        assert o == v;
        TakeSnoc(ms, i);
        i := i + 1;
      }
      if o.Fail? {
        FirstFailureSticks(vs, i);
      } else {
        assert vs[..i] == vs && ms[..i] == ms;
      }
    }
  }
}
