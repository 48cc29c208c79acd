/**
 * The first pass: class registration. The main class and then every other
 * class declaration, in order, appends its name to the class list and to the
 * recognized types and maps the name to a new, empty class descriptor. A
 * name already in the class list is rejected; an extending class must name a
 * superclass already in the list, other than itself.
 */
module ClassRegistration {
  import opened Syntax
  import opened Errors
  import opened Descriptors
  import opened SymbolTables

  // ------------------------------------------------------------ the verdict

  /**
   * The verdict on one class declaration, given the names already in the
   * class list. An extending class appends its own name before it looks its
   * superclass up, so `class A extends A` passes the lookup and fails the
   * self-inheritance test.
   */
  function DeclCheck(seen: seq<string>, d: TypeDecl): (r: Outcome)
    ensures r.Pass? <==> d.name !in seen && (d.ClassExtendsDecl? ==> d.superName in seen)
    ensures d.name in seen ==> r == Fail(DuplicateClass)
    ensures r.Fail? && d.name !in seen ==>
              d.ClassExtendsDecl? && r.error == if d.superName == d.name then SelfInheritance else UnknownSuperclass
  {
    if d.name in seen then Fail(DuplicateClass)
    else match d
      case ClassDecl(_, _, _) => Pass
      case ClassExtendsDecl(name, superName, _, _) =>
        if superName !in seen + [name] then Fail(UnknownSuperclass)
        else if superName == name then Fail(SelfInheritance)
        else Pass
  }

  /**
   * The verdict on a run of declarations registered in order after `seen`:
   * that of the first one that fails, else `Pass`.
   */
  function DeclsCheck(seen: seq<string>, ds: seq<TypeDecl>): (r: Outcome)
    ensures ds == [] ==> r == Pass
    decreases |ds|
  {
    if ds == [] then Pass
    else if DeclCheck(seen, ds[0]).Fail? then DeclCheck(seen, ds[0])
    else DeclsCheck(seen + [ds[0].name], ds[1..])
  }

  /** How many declarations of the run pass before the first failure. */
  function Registered(seen: seq<string>, ds: seq<TypeDecl>): (k: nat)
    ensures k <= |ds|
    ensures DeclsCheck(seen, ds).Pass? <==> k == |ds|
    decreases |ds|
  {
    if ds == [] || DeclCheck(seen, ds[0]).Fail? then 0
    else 1 + Registered(seen + [ds[0].name], ds[1..])
  }

  /**
   * The names a run appends to the class list, and to the recognized types,
   * before it stops: those of the declarations that pass, and that of the
   * failing one unless it failed as a duplicate.
   */
  function Appended(seen: seq<string>, ds: seq<TypeDecl>): (r: seq<string>)
    ensures Registered(seen, ds) <= |r| <= Registered(seen, ds) + 1
    decreases |ds|
  {
    if ds == [] then []
    else if DeclCheck(seen, ds[0]) == Fail(DuplicateClass) then []
    else if DeclCheck(seen, ds[0]).Fail? then [ds[0].name]
    else [ds[0].name] + Appended(seen + [ds[0].name], ds[1..])
  }

  /** The verdict on a whole program: the main class first, then the other declarations. */
  function GoalCheck(seen: seq<string>, g: Goal): (r: Outcome)
    ensures g.main.name in seen ==> r == Fail(DuplicateClass)
    ensures r.Pass? <==> g.main.name !in seen && DeclsCheck(seen + [g.main.name], g.decls).Pass?
  {
    if g.main.name in seen then Fail(DuplicateClass) else DeclsCheck(seen + [g.main.name], g.decls)
  }

  /** `Appended` for a whole program. */
  function GoalAppended(seen: seq<string>, g: Goal): (r: seq<string>)
    ensures g.main.name in seen <==> r == []
  {
    if g.main.name in seen then [] else [g.main.name] + Appended(seen + [g.main.name], g.decls)
  }

  // --------------------------------------------------- what the verdict means

  lemma FirstIndexAppend(s: seq<string>, n: string, x: string)
    requires x in s
    ensures FirstIndex(s + [n], x) == FirstIndex(s, x)
  {
    var k := FirstIndex(s, x);
    assert (s + [n])[k] == x;
    assert forall j :: 0 <= j < k ==> (s + [n])[j] != x;
  }

  lemma AppendAssoc(a: seq<string>, b: seq<string>, c: seq<string>)
    ensures a + b + c == a + (b + c)
  {
  }

  /**
   * The names before declaration `i > 0` of a run after `seen` are those
   * before declaration `i - 1` of the rest of the run after `seen` and the
   * first declaration's name.
   */
  lemma NamesShift(seen: seq<string>, ds: seq<TypeDecl>, i: nat)
    requires 0 < i <= |ds|
    ensures seen + TypeDeclNames(ds[..i]) == (seen + [ds[0].name]) + TypeDeclNames(ds[1..][..i - 1])
    ensures i < |ds| ==> ds[1..][i - 1] == ds[i]
  {
    assert ds[1..][..i - 1] == ds[1..i];
    assert TypeDeclNames(ds[..i]) == [ds[0].name] + TypeDeclNames(ds[1..][..i - 1]);
    AppendAssoc(seen, [ds[0].name], TypeDeclNames(ds[1..][..i - 1]));
  }

  /** Each of the first `Registered` declarations passes against the names before it. */
  lemma {:induction false} RegisteredPass(seen: seq<string>, ds: seq<TypeDecl>)
    ensures forall i :: 0 <= i < Registered(seen, ds) ==> DeclCheck(seen + TypeDeclNames(ds[..i]), ds[i]).Pass?
    decreases |ds|
  {
    if ds != [] && DeclCheck(seen, ds[0]).Pass? {
      var seen' := seen + [ds[0].name];
      RegisteredPass(seen', ds[1..]);
      forall i | 0 <= i < Registered(seen, ds) ensures DeclCheck(seen + TypeDeclNames(ds[..i]), ds[i]).Pass? {
        if i == 0 {
          assert seen + TypeDeclNames(ds[..0]) == seen;
        } else {
          NamesShift(seen, ds, i);
        }
      }
    }
  }

  /** When a run stops early, declaration `Registered` fails and gives the run its verdict. */
  lemma {:induction false} RegisteredStop(seen: seq<string>, ds: seq<TypeDecl>)
    requires Registered(seen, ds) < |ds|
    ensures DeclsCheck(seen, ds) == DeclCheck(seen + TypeDeclNames(ds[..Registered(seen, ds)]), ds[Registered(seen, ds)])
    ensures Appended(seen, ds) == TypeDeclNames(ds[..Registered(seen, ds)]) +
              if DeclsCheck(seen, ds) == Fail(DuplicateClass) then [] else [ds[Registered(seen, ds)].name]
    decreases |ds|
  {
    var k := Registered(seen, ds);
    if DeclCheck(seen, ds[0]).Fail? {
      assert seen + TypeDeclNames(ds[..0]) == seen;
      assert TypeDeclNames(ds[..0]) == [];
    } else {
      var seen' := seen + [ds[0].name];
      RegisteredStop(seen', ds[1..]);
      NamesShift(seen, ds, k);
      assert TypeDeclNames(ds[..k]) == [ds[0].name] + TypeDeclNames(ds[1..][..k - 1]) by {
        assert ds[1..][..k - 1] == ds[1..k];
      }
    }
  }

  /** A run that passes appends the names of all its declarations. */
  lemma {:induction false} PassAppendsAll(seen: seq<string>, ds: seq<TypeDecl>)
    requires DeclsCheck(seen, ds).Pass?
    ensures Appended(seen, ds) == TypeDeclNames(ds)
    decreases |ds|
  {
    if ds != [] {
      PassAppendsAll(seen + [ds[0].name], ds[1..]);
      assert TypeDeclNames(ds) == [ds[0].name] + TypeDeclNames(ds[1..]);
    }
  }

  /** A run passes exactly when every declaration passes against the names before it. */
  lemma RunPasses(seen: seq<string>, ds: seq<TypeDecl>)
    ensures DeclsCheck(seen, ds).Pass? <==>
              forall i :: 0 <= i < |ds| ==> DeclCheck(seen + TypeDeclNames(ds[..i]), ds[i]).Pass?
  {
    RegisteredPass(seen, ds);
    if Registered(seen, ds) < |ds| {
      RegisteredStop(seen, ds);
    }
  }

  /**
   * From an empty class list, a program passes the first pass exactly when
   * its class names (main class included) are distinct and every
   * superclass is declared strictly before the class that extends it.
   */
  lemma RegistrationPasses(g: Goal)
    ensures GoalCheck([], g).Pass? <==>
              && Distinct(ClassNames(g))
              && forall i :: 0 <= i < |g.decls| && g.decls[i].ClassExtendsDecl? ==>
                   g.decls[i].superName in ClassNames(g)[..i + 1]
  {
    var names := ClassNames(g);
    var main := [g.main.name];
    assert [] + main == main;
    RunPasses(main, g.decls);
    DistinctByPrefixes(names);
    forall i | 0 <= i < |g.decls| ensures main + TypeDeclNames(g.decls[..i]) == names[..i + 1] {
      assert |TypeDeclNames(g.decls[..i])| == i;
    }
    if GoalCheck([], g).Pass? {
      forall j | 0 < j < |names| ensures names[j] !in names[..j] {
        assert DeclCheck(main + TypeDeclNames(g.decls[..j - 1]), g.decls[j - 1]).Pass?;
      }
      forall i | 0 <= i < |g.decls| && g.decls[i].ClassExtendsDecl? ensures g.decls[i].superName in names[..i + 1] {
        assert DeclCheck(main + TypeDeclNames(g.decls[..i]), g.decls[i]).Pass?;
      }
    }
    if && Distinct(names)
       && forall i :: 0 <= i < |g.decls| && g.decls[i].ClassExtendsDecl? ==> g.decls[i].superName in names[..i + 1]
    {
      forall i | 0 <= i < |g.decls| ensures DeclCheck(main + TypeDeclNames(g.decls[..i]), g.decls[i]).Pass? {
        assert names[i + 1] !in names[..i + 1];
      }
    }
  }

  /** A program that passes appends exactly its class names. */
  lemma GoalAppendsAll(seen: seq<string>, g: Goal)
    requires GoalCheck(seen, g).Pass?
    ensures GoalAppended(seen, g) == ClassNames(g)
  {
    PassAppendsAll(seen + [g.main.name], g.decls);
  }

  /** `class A extends A` after a main class `M` is rejected as self-inheritance, not as an unknown superclass. */
  lemma SelfInheritanceRejected()
    ensures GoalCheck([], Goal(MainClass("M", "args", [], []), [ClassExtendsDecl("A", "A", [], [])])) == Fail(SelfInheritance)
  {
  }

  /**
   * Declaration `i` of a run, reached with the class list `seen`, decides
   * the rest of the run: it fails with the rest's verdict, or passes and the
   * run goes on after it with its name appended.
   */
  lemma StepVerdict(seen: seq<string>, ds: seq<TypeDecl>, i: nat)
    requires i < |ds|
    ensures ds[i..][0] == ds[i] && ds[i..][1..] == ds[i + 1..]
    ensures DeclCheck(seen, ds[i]).Fail? ==>
              && DeclsCheck(seen, ds[i..]) == DeclCheck(seen, ds[i])
              && Registered(seen, ds[i..]) == 0
              && Appended(seen, ds[i..]) == if DeclCheck(seen, ds[i]) == Fail(DuplicateClass) then [] else [ds[i].name]
    ensures DeclCheck(seen, ds[i]).Pass? ==>
              && DeclsCheck(seen, ds[i..]) == DeclsCheck(seen + [ds[i].name], ds[i + 1..])
              && Registered(seen, ds[i..]) == 1 + Registered(seen + [ds[i].name], ds[i + 1..])
              && Appended(seen, ds[i..]) == [ds[i].name] + Appended(seen + [ds[i].name], ds[i + 1..])
  {
    assert ds[i..][1..] == ds[i + 1..];
  }

  // -------------------------------------------------------------- the pass

  /** A descriptor as the pass creates it: no fields, no methods, both cursors 0. */
  ghost predicate Blank(c: ClassData)
    reads c
  {
    c.variables == [] && c.methods == [] && c.fieldOffset == 0 && c.methodOffset == 0
  }

  /** Every class the table maps is still empty. */
  ghost predicate AllBlank(st: SymbolTable)
    reads st, st.classMap.Values
  {
    forall n :: n in st.classMap ==> Blank(st.classMap[n])
  }

  /** In the name map `cm`, the class registered under `d`'s name has the parent `d` declares. */
  ghost predicate ParentAsDeclared(cm: map<string, ClassData>, d: TypeDecl) {
    && d.name in cm
    && match d
       case ClassDecl(_, _, _) => cm[d.name].parent == null
       case ClassExtendsDecl(_, superName, _, _) => superName in cm && cm[d.name].parent == cm[superName]
  }

  /** Mapping a new name keeps every earlier declaration's parent. */
  lemma ParentAsDeclaredKept(cm: map<string, ClassData>, n: string, c: ClassData, d: TypeDecl)
    requires ParentAsDeclared(cm, d) && n !in cm
    ensures ParentAsDeclared(cm[n := c], d)
  {
  }

  /**
   * Appending a new name and mapping it to a descriptor whose parent, if
   * any, is already mapped keeps every ancestor mapped and declared earlier.
   */
  lemma ExtendAncestors(cs0: seq<string>, cm0: map<string, ClassData>, c: ClassData,
                        cs: seq<string>, cm: map<string, ClassData>)
    requires c.name !in cs0
    requires forall n :: n in cm0 <==> n in cs0
    requires forall m, a :: m in cm0 && a in cm0[m].ancestors ==>
               a.name in cm0 && cm0[a.name] == a && FirstIndex(cs0, a.name) < FirstIndex(cs0, m)
    requires c.parent != null ==> c.parent.name in cm0 && cm0[c.parent.name] == c.parent
    requires c.ancestors == if c.parent == null then [] else [c.parent] + c.parent.ancestors
    requires cs == cs0 + [c.name] && cm == cm0[c.name := c]
    ensures forall m, a :: m in cm && a in cm[m].ancestors ==>
              a.name in cm && cm[a.name] == a && FirstIndex(cs, a.name) < FirstIndex(cs, m)
  {
    var n := c.name;
    assert FirstIndex(cs, n) == |cs0|;
    forall m, a | m in cm && a in cm[m].ancestors
      ensures a.name in cm && cm[a.name] == a && FirstIndex(cs, a.name) < FirstIndex(cs, m)
    {
      if m == n {
        var p := c.parent;
        if a != p {
          assert a in cm0[p.name].ancestors;
        }
        FirstIndexAppend(cs0, n, a.name);
      } else {
        assert m in cm0 && a in cm0[m].ancestors;
        FirstIndexAppend(cs0, n, a.name);
        FirstIndexAppend(cs0, n, m);
      }
    }
  }

  /**
   * Appending a new name to the class list and mapping it to a chained
   * descriptor whose parent, if any, is already mapped keeps the table valid.
   */
  lemma RegistryExtended(st: SymbolTable, cs0: seq<string>, cm0: map<string, ClassData>, c: ClassData)
    requires Distinct(cs0) && c.name !in cs0
    requires forall n :: n in cm0 <==> n in cs0
    requires forall n :: n in cm0 ==> cm0[n].name == n && Chained(cm0[n])
    requires forall m, a :: m in cm0 && a in cm0[m].ancestors ==>
               a.name in cm0 && cm0[a.name] == a && FirstIndex(cs0, a.name) < FirstIndex(cs0, m)
    requires c.parent != null ==> c.parent.name in cm0 && cm0[c.parent.name] == c.parent
    requires c.ancestors == if c.parent == null then [] else [c.parent] + c.parent.ancestors
    requires Chained(c)
    requires st.classes == cs0 + [c.name] && st.classMap == cm0[c.name := c]
    requires st.validTypes == BaseTypes + st.classes
    ensures st.Valid()
  {
    DistinctSnoc(cs0, c.name);
    ExtendAncestors(cs0, cm0, c, st.classes, st.classMap);
  }

  class Visitor1 {
    const symbolTable: SymbolTable

    constructor (symbolTable: SymbolTable)
      ensures this.symbolTable == symbolTable
    {
      this.symbolTable := symbolTable;
    }

    /**
     * The whole pass. The class list gets the names appended before the
     * first failure; on `Pass` the table is valid and holds every class of
     * the program, in order, each still empty and with the declared parent.
     * It starts from the table as constructed.
     */
    method VisitGoal(g: Goal) returns (o: Outcome)
      requires symbolTable.Valid() && symbolTable.classes == []
      modifies symbolTable
      ensures o == GoalCheck([], g)
      ensures symbolTable.classes == GoalAppended([], g)
      ensures o.Pass? ==> symbolTable.Valid() && AllBlank(symbolTable)
      ensures o.Pass? ==> g.main.name in symbolTable.classMap && symbolTable.classMap[g.main.name].parent == null
      ensures o.Pass? ==> forall i :: 0 <= i < |g.decls| ==> ParentAsDeclared(symbolTable.classMap, g.decls[i])
    {
      o := VisitMainClass(g.main);
      if o.Pass? {
        o := VisitTypeDecls(g.decls);
      }
    }

    /**
     * The class declarations after the main class, in order, up to the
     * first that fails: the list visit, one declaration and then the rest.
     */
    method VisitTypeDecls(ds: seq<TypeDecl>) returns (o: Outcome)
      requires symbolTable.Valid() && AllBlank(symbolTable)
      modifies symbolTable
      ensures o == DeclsCheck(old(symbolTable.classes), ds)
      ensures symbolTable.classes == old(symbolTable.classes) + Appended(old(symbolTable.classes), ds)
      ensures o.Pass? ==> symbolTable.Valid() && AllBlank(symbolTable)
      ensures o.Pass? ==> forall n :: n in old(symbolTable.classMap) ==>
                n in symbolTable.classMap && symbolTable.classMap[n] == old(symbolTable.classMap[n])
      ensures o.Pass? ==> forall i :: 0 <= i < |ds| ==> ParentAsDeclared(symbolTable.classMap, ds[i])
      decreases |ds|
    {
      if ds == [] {
        o := Pass;
      } else {
        ghost var start := symbolTable.classes;
        StepVerdict(start, ds, 0);
        assert ds[0..] == ds;
        o := VisitTypeDecl(ds[0]);
        if o.Fail? {
          assert start + [] == start;
        } else {
          label Rest:
          ghost var added := Appended(symbolTable.classes, ds[1..]);
          o := VisitTypeDecls(ds[1..]);
          AppendAssoc(start, [ds[0].name], added);
          if o.Pass? {
            forall i | 0 <= i < |ds| ensures ParentAsDeclared(symbolTable.classMap, ds[i]) {
              if i == 0 {
                assert ParentAsDeclared(old@Rest(symbolTable.classMap), ds[0]);
              } else {
                assert ds[1..][i - 1] == ds[i];
              }
            }
          }
        }
      }
    }

    /** One class declaration, dispatched on its kind. */
    method VisitTypeDecl(d: TypeDecl) returns (o: Outcome)
      requires symbolTable.Valid()
      modifies symbolTable
      ensures o == DeclCheck(old(symbolTable.classes), d)
      ensures o == Fail(DuplicateClass) ==> unchanged(symbolTable)
      ensures o.Fail? && o != Fail(DuplicateClass) ==>
                && symbolTable.classes == old(symbolTable.classes) + [d.name]
                && symbolTable.validTypes == old(symbolTable.validTypes) + [d.name]
                && symbolTable.classMap == old(symbolTable.classMap)
      ensures o.Pass? ==>
                && symbolTable.Valid()
                && symbolTable.classes == old(symbolTable.classes) + [d.name]
                && symbolTable.validTypes == old(symbolTable.validTypes) + [d.name]
                && d.name !in old(symbolTable.classMap)
                && symbolTable.classMap == old(symbolTable.classMap)[d.name := symbolTable.classMap[d.name]]
                && (forall n :: n in old(symbolTable.classMap) ==>
                      n in symbolTable.classMap && symbolTable.classMap[n] == old(symbolTable.classMap[n]))
                && fresh(symbolTable.classMap[d.name]) && Blank(symbolTable.classMap[d.name])
                && ParentAsDeclared(symbolTable.classMap, d)
    {
      if d.ClassDecl? {
        o := VisitClassDecl(d);
      } else {
        o := VisitClassExtendsDecl(d);
      }
    }

    /** The main class: rejected as a duplicate, or registered with no parent. */
    method VisitMainClass(m: MainClass) returns (o: Outcome)
      requires symbolTable.Valid()
      modifies symbolTable
      ensures o.Fail? <==> m.name in old(symbolTable.classes)
      ensures o.Fail? ==> o.error == DuplicateClass && unchanged(symbolTable)
      ensures o.Pass? ==>
                && symbolTable.Valid()
                && symbolTable.classes == old(symbolTable.classes) + [m.name]
                && m.name in symbolTable.classMap
                && symbolTable.classMap == old(symbolTable.classMap)[m.name := symbolTable.classMap[m.name]]
                && fresh(symbolTable.classMap[m.name]) && Blank(symbolTable.classMap[m.name])
                && symbolTable.classMap[m.name].parent == null
    {
      var className := m.name;
      if className in symbolTable.classes {
        return Fail(DuplicateClass);
      }
      var classData := new ClassData(null, className, 0);
      Register(classData);
      o := Pass;
    }

    /** A class with no superclass: rejected as a duplicate, or registered with no parent. */
    method VisitClassDecl(d: TypeDecl) returns (o: Outcome)
      requires d.ClassDecl? && symbolTable.Valid()
      modifies symbolTable
      ensures o == DeclCheck(old(symbolTable.classes), d)
      ensures o.Fail? ==> unchanged(symbolTable)
      ensures o.Pass? ==>
                && symbolTable.Valid()
                && symbolTable.classes == old(symbolTable.classes) + [d.name]
                && symbolTable.validTypes == old(symbolTable.validTypes) + [d.name]
                && d.name !in old(symbolTable.classMap)
                && symbolTable.classMap == old(symbolTable.classMap)[d.name := symbolTable.classMap[d.name]]
                && fresh(symbolTable.classMap[d.name]) && Blank(symbolTable.classMap[d.name])
                && ParentAsDeclared(symbolTable.classMap, d)
    {
      var className := d.name;
      if className in symbolTable.classes {
        return Fail(DuplicateClass);
      }
      var classData := new ClassData(null, className, 0);
      Register(classData);
      o := Pass;
    }

    /**
     * A class with a superclass. Its name is appended to both lists before
     * the superclass is looked up, so a failing lookup leaves it there,
     * unmapped.
     */
    method VisitClassExtendsDecl(d: TypeDecl) returns (o: Outcome)
      requires d.ClassExtendsDecl? && symbolTable.Valid()
      modifies symbolTable
      ensures o == DeclCheck(old(symbolTable.classes), d)
      ensures o == Fail(DuplicateClass) ==> unchanged(symbolTable)
      ensures o.Fail? && o != Fail(DuplicateClass) ==>
                && symbolTable.classes == old(symbolTable.classes) + [d.name]
                && symbolTable.validTypes == old(symbolTable.validTypes) + [d.name]
                && symbolTable.classMap == old(symbolTable.classMap)
      ensures o.Pass? ==>
                && symbolTable.Valid()
                && symbolTable.classes == old(symbolTable.classes) + [d.name]
                && symbolTable.validTypes == old(symbolTable.validTypes) + [d.name]
                && d.name !in old(symbolTable.classMap)
                && symbolTable.classMap == old(symbolTable.classMap)[d.name := symbolTable.classMap[d.name]]
                && fresh(symbolTable.classMap[d.name]) && Blank(symbolTable.classMap[d.name])
                && ParentAsDeclared(symbolTable.classMap, d)
    {
      var className := d.name;
      if className in symbolTable.classes {
        return Fail(DuplicateClass);
      }
      symbolTable.validTypes := symbolTable.validTypes + [className];
      symbolTable.classes := symbolTable.classes + [className];
      var superclassName := d.superName;
      if superclassName !in symbolTable.classes {
        return Fail(UnknownSuperclass);
      }
      if superclassName == className {
        return Fail(SelfInheritance);
      }
      var superClass := symbolTable.classMap[superclassName];
      var classData := new ClassData(superClass, className, 0);
      ghost var cs0 := symbolTable.classes[..|symbolTable.classes| - 1];
      assert symbolTable.classes == cs0 + [className];
      RegisterDescriptor(classData, cs0);
      o := Pass;
    }

    /**
     * The registration steps shared by the main and plain classes: append
     * the name to both lists, then map it.
     */
    method Register(classData: ClassData)
      requires symbolTable.Valid() && classData.name !in symbolTable.classes
      requires classData.parent == null && Chained(classData)
      modifies symbolTable
      ensures symbolTable.Valid()
      ensures symbolTable.classes == old(symbolTable.classes) + [classData.name]
      ensures symbolTable.classMap == old(symbolTable.classMap)[classData.name := classData]
    {
      ghost var cs0 := symbolTable.classes;
      symbolTable.validTypes := symbolTable.validTypes + [classData.name];
      symbolTable.classes := symbolTable.classes + [classData.name];
      RegisterDescriptor(classData, cs0);
    }

    /**
     * Maps a descriptor whose name was just appended to both lists. The
     * table is valid again once the parent, if any, is a registered,
     * chained class.
     */
    method RegisterDescriptor(classData: ClassData, ghost cs0: seq<string>)
      requires symbolTable.classes == cs0 + [classData.name] && classData.name !in cs0
      requires symbolTable.validTypes == BaseTypes + symbolTable.classes
      requires Distinct(cs0)
      requires forall n :: n in symbolTable.classMap <==> n in cs0
      requires forall n :: n in symbolTable.classMap ==>
                 symbolTable.classMap[n].name == n && Chained(symbolTable.classMap[n])
      requires forall n, a :: n in symbolTable.classMap && a in symbolTable.classMap[n].ancestors ==>
                 symbolTable.Registered(a) && FirstIndex(cs0, a.name) < FirstIndex(cs0, n)
      requires classData.parent != null ==> symbolTable.Registered(classData.parent)
      requires classData.ancestors == if classData.parent == null then [] else [classData.parent] + classData.parent.ancestors
      requires Chained(classData)
      modifies symbolTable`classMap
      ensures symbolTable.Valid()
      ensures symbolTable.classMap == old(symbolTable.classMap)[classData.name := classData]
    {
      ghost var cm0 := symbolTable.classMap;
      forall m, a | m in cm0 && a in cm0[m].ancestors
        ensures a.name in cm0 && cm0[a.name] == a && FirstIndex(cs0, a.name) < FirstIndex(cs0, m)
      {
        assert symbolTable.Registered(a);
      }
      symbolTable.InsertClass(classData);
      RegistryExtended(symbolTable, cs0, cm0, classData);
    }
  }
}
