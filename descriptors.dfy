/**
 * Descriptors of the symbol table: one per identifier (field, parameter or
 * local), class and method.
 *
 * A descriptor's name, a class's parent link and a method's owner and return
 * type are never written after construction, so they are `const` here; the
 * lists, the flags, the offsets and the cursors are `var` and are updated in
 * place by the passes.
 */
module Descriptors {

  /** Names of a list of identifier descriptors, in order. */
  function Names(vs: seq<IdData>): (r: seq<string>)
    ensures |r| == |vs|
    ensures forall i :: 0 <= i < |vs| ==> r[i] == vs[i].name
  {
    seq(|vs|, i requires 0 <= i < |vs| => vs[i].name)
  }

  /** Declared types of a list of identifier descriptors, in order. */
  function Types(vs: seq<IdData>): (r: seq<string>)
    ensures |r| == |vs|
    ensures forall i :: 0 <= i < |vs| ==> r[i] == vs[i].typ
  {
    seq(|vs|, i requires 0 <= i < |vs| => vs[i].typ)
  }

  /** Names of a list of method descriptors, in order. */
  function MethodNames(ms: seq<MethodData>): (r: seq<string>)
    ensures |r| == |ms|
    ensures forall i :: 0 <= i < |ms| ==> r[i] == ms[i].name
  {
    seq(|ms|, i requires 0 <= i < |ms| => ms[i].name)
  }

  /** No name occurs twice. */
  predicate Distinct(s: seq<string>) {
    forall i, j :: 0 <= i < j < |s| ==> s[i] != s[j]
  }

  /** A list with one more name is distinct exactly when the list is and the name is new. */
  lemma DistinctSnoc(s: seq<string>, n: string)
    ensures Distinct(s + [n]) <==> Distinct(s) && n !in s
  {
    if Distinct(s) && n !in s {
      forall i, j | 0 <= i < j < |s| + 1 ensures (s + [n])[i] != (s + [n])[j] {
        if j == |s| {
          assert (s + [n])[i] == s[i];
        }
      }
    }
    if Distinct(s + [n]) {
      forall i, j | 0 <= i < j < |s| ensures s[i] != s[j] {
        assert (s + [n])[i] == s[i] && (s + [n])[j] == s[j];
      }
      forall i | 0 <= i < |s| ensures s[i] != n {
        assert (s + [n])[i] == s[i] && (s + [n])[|s|] == n;
      }
    }
  }

  /** No name repeats exactly when no name occurs among those before it. */
  lemma {:induction false} DistinctByPrefixes(s: seq<string>)
    ensures Distinct(s) <==> forall j :: 0 <= j < |s| ==> s[j] !in s[..j]
  {
    if !Distinct(s) {
      var a, b :| 0 <= a < b < |s| && s[a] == s[b];
      assert s[..b][a] == s[b];
    }
  }

  /** Position of the first occurrence of `n` in `s`, or `|s|` when there is none. */
  function FirstIndex(s: seq<string>, n: string): (k: nat)
    ensures k <= |s|
    ensures k < |s| <==> n in s
    ensures k < |s| ==> s[k] == n
    ensures forall j :: 0 <= j < k ==> s[j] != n
  {
    if s == [] then 0
    else if s[0] == n then 0
    else 1 + FirstIndex(s[1..], n)
  }

  /** A field, parameter or local variable. */
  class IdData {
    const typ: string
    const name: string
    var initialized: bool
    var offset: int

    constructor (typ: string, initialized: bool, name: string, offset: int)
      ensures this.typ == typ && this.name == name
      ensures this.initialized == initialized && this.offset == offset
    {
      this.typ := typ;
      this.name := name;
      this.initialized := initialized;
      this.offset := offset;
    }

    /** Reads the flag; changes nothing. */
    method GetInitialized() returns (b: bool)
      ensures b == initialized
    {
      b := initialized;
    }

    /** Overwrites the flag and nothing else. */
    method SetInitialized(initialized: bool)
      modifies this`initialized
      ensures this.initialized == initialized
      ensures offset == old(offset)
    {
      this.initialized := initialized;
    }

    /** Overwrites the offset and nothing else. */
    method SetOffset(offset: int)
      modifies this`offset
      ensures this.offset == offset
      ensures initialized == old(initialized)
    {
      this.offset := offset;
    }
  }

  /**
   * `c`'s ghost list of ancestors starts with its parent (and is empty when
   * it has none).
   */
  ghost predicate Link(c: ClassData) {
    if c.parent == null then c.ancestors == [] else c.ancestors != [] && c.ancestors[0] == c.parent
  }

  /**
   * The parent chain of `c` is exactly `c.ancestors`: following parent links
   * from `c` visits `c.ancestors[0]`, `c.ancestors[1]`, ... and then stops.
   */
  ghost predicate Chained(c: ClassData) {
    && Link(c)
    && forall i :: 0 <= i < |c.ancestors| ==>
         Link(c.ancestors[i]) && c.ancestors[i].ancestors == c.ancestors[i + 1..]
  }

  lemma ParentChained(c: ClassData)
    requires Chained(c) && c.parent != null
    ensures Chained(c.parent)
    ensures c.parent.ancestors == c.ancestors[1..]
  {
    var p := c.parent;
    forall i | 0 <= i < |p.ancestors|
      ensures Link(p.ancestors[i]) && p.ancestors[i].ancestors == p.ancestors[i + 1..]
    {
      assert p.ancestors[i] == c.ancestors[i + 1];
      assert c.ancestors[i + 2..] == p.ancestors[i + 1..];
    }
  }

  /** Every ancestor of a chained class is chained and has a suffix of its ancestors. */
  lemma AncestorChained(c: ClassData, i: nat)
    requires Chained(c) && i < |c.ancestors|
    ensures Chained(c.ancestors[i])
    ensures c.ancestors[i].ancestors == c.ancestors[i + 1..]
  {
    var a := c.ancestors[i];
    forall j | 0 <= j < |a.ancestors|
      ensures Link(a.ancestors[j]) && a.ancestors[j].ancestors == a.ancestors[j + 1..]
    {
      assert a.ancestors[j] == c.ancestors[i + 1 + j];
      assert c.ancestors[i + 1 + j + 1..] == a.ancestors[j + 1..];
    }
  }

  /** A class: its parent link, its own fields and methods, and the two layout cursors. */
  class ClassData {
    const parent: ClassData?
    const name: string
    const offset: int
    /** The parent, the parent's parent, and so on (specification only). */
    ghost const ancestors: seq<ClassData>
    var variables: seq<IdData>
    var methods: seq<MethodData>
    var fieldOffset: int
    var methodOffset: int

    constructor (parent: ClassData?, name: string, offset: int)
      ensures this.parent == parent && this.name == name && this.offset == offset
      ensures variables == [] && methods == []
      ensures fieldOffset == 0 && methodOffset == 0
      ensures ancestors == if parent == null then [] else [parent] + parent.ancestors
      ensures parent == null || Chained(parent) ==> Chained(this)
    {
      this.parent := parent;
      this.name := name;
      this.offset := offset;
      ancestors := if parent == null then [] else [parent] + parent.ancestors;
      variables := [];
      methods := [];
      fieldOffset := 0;
      methodOffset := 0;
      new;
      if parent != null && Chained(parent) {
        forall i | 0 <= i < |ancestors|
          ensures Link(ancestors[i]) && ancestors[i].ancestors == ancestors[i + 1..]
        {
          if i > 0 {
            assert ancestors[i] == parent.ancestors[i - 1];
            assert ancestors[i + 1..] == parent.ancestors[i..];
          }
        }
      }
    }

    /** The first field named `n`, or null when the class declares none. */
    ghost function CertainVariable(n: string): (r: IdData?)
      reads this`variables
      ensures r == null <==> n !in Names(variables)
      ensures r != null ==> r.name == n && r in variables
      ensures r != null ==> exists k :: 0 <= k < |variables| && variables[k] == r &&
                                        forall j :: 0 <= j < k ==> variables[j].name != n
    {
      var k := FirstIndex(Names(variables), n);
      if k < |variables| then variables[k] else null
    }

    /** The first method named `n`, or null when the class declares none. */
    ghost function CertainMethod(n: string): (r: MethodData?)
      reads this`methods
      ensures r == null <==> n !in MethodNames(methods)
      ensures r != null ==> r.name == n && r in methods
      ensures r != null ==> exists k :: 0 <= k < |methods| && methods[k] == r &&
                                        forall j :: 0 <= j < k ==> methods[j].name != n
    {
      var k := FirstIndex(MethodNames(methods), n);
      if k < |methods| then methods[k] else null
    }

    /** Appends a field; earlier fields keep their positions. */
    method InsertVariable(v: IdData)
      modifies this`variables
      ensures variables == old(variables) + [v]
    {
      variables := variables + [v];
    }

    /** Appends a method; earlier methods keep their positions. */
    method InsertMethod(m: MethodData)
      modifies this`methods
      ensures methods == old(methods) + [m]
    {
      methods := methods + [m];
    }

    /** Whether some field of this class is named `n`. */
    method VariableExists(n: string) returns (b: bool)
      ensures b <==> n in Names(variables)
    {
      var i := 0;
      while i < |variables|
        invariant 0 <= i <= |variables|
        invariant n !in Names(variables)[..i]
      {
        if variables[i].name == n {
          return true;
        }
        i := i + 1;
      }
      assert Names(variables)[..i] == Names(variables);
      return false;
    }

    /** Whether some method of this class is named `n`. */
    method MethodExists(n: string) returns (b: bool)
      ensures b <==> n in MethodNames(methods)
    {
      var i := 0;
      while i < |methods|
        invariant 0 <= i <= |methods|
        invariant n !in MethodNames(methods)[..i]
      {
        if methods[i].name == n {
          return true;
        }
        i := i + 1;
      }
      assert MethodNames(methods)[..i] == MethodNames(methods);
      return false;
    }

    /** The first field named `n`; null exactly when `VariableExists(n)` is false. */
    method GetCertainVariable(n: string) returns (r: IdData?)
      ensures r == CertainVariable(n)
    {
      var i := 0;
      while i < |variables|
        invariant 0 <= i <= |variables|
        invariant forall j :: 0 <= j < i ==> variables[j].name != n
      {
        if variables[i].name == n {
          assert FirstIndex(Names(variables), n) == i;
          return variables[i];
        }
        i := i + 1;
      }
      return null;
    }

    /** The first method named `n`; null exactly when `MethodExists(n)` is false. */
    method GetCertainMethod(n: string) returns (r: MethodData?)
      ensures r == CertainMethod(n)
    {
      var i := 0;
      while i < |methods|
        invariant 0 <= i <= |methods|
        invariant forall j :: 0 <= j < i ==> methods[j].name != n
      {
        if methods[i].name == n {
          assert FirstIndex(MethodNames(methods), n) == i;
          return methods[i];
        }
        i := i + 1;
      }
      return null;
    }

    method IncFieldOffset(increment: int)
      modifies this`fieldOffset
      ensures fieldOffset == old(fieldOffset) + increment
      ensures methodOffset == old(methodOffset)
    {
      fieldOffset := fieldOffset + increment;
    }

    method SetFieldOffset(fieldOffset: int)
      modifies this`fieldOffset
      ensures this.fieldOffset == fieldOffset
      ensures methodOffset == old(methodOffset)
    {
      this.fieldOffset := fieldOffset;
    }

    method IncMethodOffset(increment: int)
      modifies this`methodOffset
      ensures methodOffset == old(methodOffset) + increment
      ensures fieldOffset == old(fieldOffset)
    {
      methodOffset := methodOffset + increment;
    }

    method SetMethodOffset(methodOffset: int)
      modifies this`methodOffset
      ensures this.methodOffset == methodOffset
      ensures fieldOffset == old(fieldOffset)
    {
      this.methodOffset := methodOffset;
    }
  }

  /** A method: its owner, return type, parameters, locals and the combined name map. */
  class MethodData {
    const classData: ClassData
    const returnType: string
    const name: string
    var offset: int
    var arguments: seq<IdData>
    var variables: seq<IdData>
    var generalVarMap: map<string, IdData>

    constructor (classData: ClassData, returnType: string, name: string, offset: int)
      ensures this.classData == classData && this.returnType == returnType
      ensures this.name == name && this.offset == offset
      ensures arguments == [] && variables == [] && generalVarMap == map[]
      ensures Valid()
    {
      this.classData := classData;
      this.returnType := returnType;
      this.name := name;
      this.offset := offset;
      arguments := [];
      variables := [];
      generalVarMap := map[];
    }

    /**
     * The combined map binds the name of every parameter and local, and binds
     * each name to a parameter or local of that name.
     */
    ghost predicate Valid()
      reads this`arguments, this`variables, this`generalVarMap
    {
      && (forall v :: v in arguments ==> v.name in generalVarMap)
      && (forall v :: v in variables ==> v.name in generalVarMap)
      && (forall k :: k in generalVarMap ==>
            generalVarMap[k].name == k && (generalVarMap[k] in arguments || generalVarMap[k] in variables))
    }

    /** The first local named `n`, else the first parameter named `n`, else null. */
    ghost function CertainVariable(n: string): (r: IdData?)
      reads this`variables, this`arguments
      ensures r == null <==> n !in Names(variables) && n !in Names(arguments)
      ensures r != null ==> r.name == n
      ensures n in Names(variables) ==> r in variables
      ensures n !in Names(variables) && n in Names(arguments) ==> r in arguments
    {
      var k := FirstIndex(Names(variables), n);
      if k < |variables| then variables[k]
      else
        var j := FirstIndex(Names(arguments), n);
        if j < |arguments| then arguments[j] else null
    }

    method InsertArgument(argData: IdData)
      modifies this`arguments
      ensures arguments == old(arguments) + [argData]
    {
      arguments := arguments + [argData];
    }

    method InsertVariable(varData: IdData)
      modifies this`variables
      ensures variables == old(variables) + [varData]
    {
      variables := variables + [varData];
    }

    /** Binds the descriptor's name to it, replacing any earlier binding of that name. */
    method InsertIntoGeneralVarMap(variable: IdData)
      modifies this`generalVarMap
      ensures generalVarMap == old(generalVarMap)[variable.name := variable]
      ensures variable.name in generalVarMap && generalVarMap[variable.name] == variable
      ensures forall k :: k != variable.name ==> (k in generalVarMap <==> k in old(generalVarMap))
      ensures forall k :: k != variable.name && k in generalVarMap ==> generalVarMap[k] == old(generalVarMap)[k]
    {
      generalVarMap := generalVarMap[variable.name := variable];
    }

    /** Whether `n` names a local or a parameter of this method. */
    method VariableExists(n: string) returns (b: bool)
      ensures b <==> n in Names(variables) || n in Names(arguments)
    {
      var i := 0;
      while i < |variables|
        invariant 0 <= i <= |variables|
        invariant n !in Names(variables)[..i]
      {
        if variables[i].name == n {
          return true;
        }
        i := i + 1;
      }
      assert Names(variables)[..i] == Names(variables);
      i := 0;
      while i < |arguments|
        invariant 0 <= i <= |arguments|
        invariant n !in Names(arguments)[..i]
      {
        if arguments[i].name == n {
          return true;
        }
        i := i + 1;
      }
      assert Names(arguments)[..i] == Names(arguments);
      return false;
    }

    /** The first local named `n`, else the first such parameter; null iff `VariableExists(n)` is false. */
    method GetCertainVariable(n: string) returns (r: IdData?)
      ensures r == CertainVariable(n)
    {
      var i := 0;
      while i < |variables|
        invariant 0 <= i <= |variables|
        invariant forall j :: 0 <= j < i ==> variables[j].name != n
      {
        if variables[i].name == n {
          assert FirstIndex(Names(variables), n) == i;
          return variables[i];
        }
        i := i + 1;
      }
      i := 0;
      while i < |arguments|
        invariant 0 <= i <= |arguments|
        invariant forall j :: 0 <= j < i ==> arguments[j].name != n
      {
        if arguments[i].name == n {
          assert FirstIndex(Names(arguments), n) == i;
          return arguments[i];
        }
        i := i + 1;
      }
      return null;
    }

    /** Overwrites the method-table slot and nothing else. */
    method SetOffset(offset: int)
      modifies this`offset
      ensures this.offset == offset
    {
      this.offset := offset;
    }
  }
}
