/**
 * The symbol table shared by the three passes: the recognized type names,
 * the class names in declaration order and the name-to-class map, with the
 * queries that walk a class's parent chain, the offset assignment and the
 * selection of what the report lists.
 */
module SymbolTables {
  import opened Descriptors
  import opened Layout

  /** The types every program knows before any class is registered. */
  const BaseTypes: seq<string> := ["int", "boolean", "int[]"]

  ghost function ClassSet(cs: seq<ClassData>): set<ClassData> {
    set c | c in cs
  }

  ghost function IdSet(vs: seq<IdData>): set<IdData> {
    set v | v in vs
  }

  ghost function MethodSet(ms: seq<MethodData>): set<MethodData> {
    set m | m in ms
  }

  /** Names of a sequence of classes, in order. */
  function ClassNamesOf(cs: seq<ClassData>): (r: seq<string>)
    ensures |r| == |cs|
    ensures forall i :: 0 <= i < |cs| ==> r[i] == cs[i].name
  {
    seq(|cs|, i requires 0 <= i < |cs| => cs[i].name)
  }

  // ------------------------------------------------------ the parent chain

  /** Position of the first class of `cs` declaring a field `n`; `|cs|` when none does. */
  ghost function FieldOwnerIndex(cs: seq<ClassData>, n: string): (k: nat)
    reads ClassSet(cs)`variables
    ensures k <= |cs|
    ensures k < |cs| ==> n in Names(cs[k].variables)
    ensures forall j :: 0 <= j < k ==> n !in Names(cs[j].variables)
  {
    if cs == [] then 0
    else if n in Names(cs[0].variables) then 0
    else 1 + FieldOwnerIndex(cs[1..], n)
  }

  /** Position of the first class of `cs` declaring a method `n`; `|cs|` when none does. */
  ghost function MethodOwnerIndex(cs: seq<ClassData>, n: string): (k: nat)
    reads ClassSet(cs)`methods
    ensures k <= |cs|
    ensures k < |cs| ==> n in MethodNames(cs[k].methods)
    ensures forall j :: 0 <= j < k ==> n !in MethodNames(cs[j].methods)
  {
    if cs == [] then 0
    else if n in MethodNames(cs[0].methods) then 0
    else 1 + MethodOwnerIndex(cs[1..], n)
  }

  /** The nearest strict ancestor of `c` that declares a field `n`, or null. */
  ghost function SuperVariableOwner(c: ClassData, n: string): (r: ClassData?)
    reads ClassSet(c.ancestors)`variables
    ensures r == null <==> forall a :: a in c.ancestors ==> n !in Names(a.variables)
    ensures r != null ==> exists k :: 0 <= k < |c.ancestors| && c.ancestors[k] == r && n in Names(r.variables) &&
                                      forall j :: 0 <= j < k ==> n !in Names(c.ancestors[j].variables)
  {
    var k := FieldOwnerIndex(c.ancestors, n);
    if k < |c.ancestors| then c.ancestors[k] else null
  }

  /** The nearest strict ancestor of `c` that declares a method `n`, or null. */
  ghost function SuperMethodOwner(c: ClassData, n: string): (r: ClassData?)
    reads ClassSet(c.ancestors)`methods
    ensures r == null <==> forall a :: a in c.ancestors ==> n !in MethodNames(a.methods)
    ensures r != null ==> exists k :: 0 <= k < |c.ancestors| && c.ancestors[k] == r && n in MethodNames(r.methods) &&
                                      forall j :: 0 <= j < k ==> n !in MethodNames(c.ancestors[j].methods)
  {
    var k := MethodOwnerIndex(c.ancestors, n);
    if k < |c.ancestors| then c.ancestors[k] else null
  }

  // ---------------------------------------------------------- identifiers

  predicate IsDigit(ch: char) {
    '0' <= ch <= '9'
  }

  /**
   * Text accepted as a decimal integer: not empty, not a lone minus sign,
   * and every character a digit except for an optional leading '-'.
   */
  predicate IsDecimalInteger(s: string) {
    && s != []
    && s != "-"
    && forall k :: 0 <= k < |s| ==> (k == 0 && s[k] == '-') || IsDigit(s[k])
  }

  predicate AllDigits(s: string) {
    forall k :: 0 <= k < |s| ==> IsDigit(s[k])
  }

  /** The two forms a decimal integer takes: digits, or '-' followed by digits. */
  lemma DecimalIntegerForms(s: string)
    ensures IsDecimalInteger(s) <==>
            (s != [] && AllDigits(s)) || (|s| > 1 && s[0] == '-' && AllDigits(s[1..]))
  {
    if IsDecimalInteger(s) && !(s != [] && AllDigits(s)) {
      var k :| 0 <= k < |s| && !IsDigit(s[k]);
      assert k == 0 && s[0] == '-';
      forall j | 0 <= j < |s| - 1 ensures IsDigit(s[1..][j]) {
        assert s[1..][j] == s[j + 1];
      }
    }
    if |s| > 1 && s[0] == '-' && AllDigits(s[1..]) {
      forall j | 0 < j < |s| ensures IsDigit(s[j]) {
        assert s[j] == s[1..][j - 1];
      }
    }
  }

  /** Whether `s` reads as a base-10 integer (ASCII digits). */
  method IsInteger(s: string) returns (b: bool)
    ensures b <==> IsDecimalInteger(s)
  {
    if |s| == 0 {
      return false;
    }
    var i := 0;
    while i < |s|
      invariant 0 <= i <= |s|
      invariant forall k :: 0 <= k < i ==> (k == 0 && s[k] == '-') || IsDigit(s[k])
      invariant i > 0 && s[0] == '-' ==> |s| > 1
    {
      if i == 0 && s[i] == '-' {
        if |s| == 1 {
          return false;
        }
        i := i + 1;
        continue;
      }
      if !IsDigit(s[i]) {
        return false;
      }
      i := i + 1;
    }
    return true;
  }

  // -------------------------------------------------------------- layout

  /**
   * The final field cursor of the first class of a chain `cs` (a class
   * followed by its ancestors), every class starting from cursor 0.
   */
  ghost function FieldCursorAlong(cs: seq<ClassData>): int
    reads ClassSet(cs)`variables
  {
    if cs == [] then 0
    else FieldCursor(|cs| > 1, FieldCursorAlong(cs[1..]), Names(cs[0].variables), Types(cs[0].variables),
                     0, |cs[0].variables|)
  }

  /** The final method cursor of the first class of a chain `cs`. */
  ghost function MethodCursorAlong(cs: seq<ClassData>): int
    reads ClassSet(cs)`methods
  {
    if cs == [] then 0
    else MethodCursor(|cs| > 1, if |cs| > 1 then MethodNames(cs[1].methods) else [], MethodCursorAlong(cs[1..]),
                      MethodNames(cs[0].methods), 0, |cs[0].methods|)
  }

  /** The field cursor `c` is left with by the layout pass. */
  ghost function FinalFieldCursor(c: ClassData): int
    reads ClassSet([c] + c.ancestors)`variables
  {
    FieldCursorAlong([c] + c.ancestors)
  }

  /** The method cursor `c` is left with by the layout pass. */
  ghost function FinalMethodCursor(c: ClassData): int
    reads ClassSet([c] + c.ancestors)`methods
  {
    MethodCursorAlong([c] + c.ancestors)
  }

  /** The method names of the parent of `c`, empty when it has none. */
  ghost function ParentMethodNames(c: ClassData): seq<string>
    reads ClassSet(c.ancestors)`methods
  {
    if c.ancestors == [] then [] else MethodNames(c.ancestors[0].methods)
  }

  /** The offset the layout pass gives field `q` of `c`. */
  ghost function FieldOffsetAt(c: ClassData, q: nat): int
    requires q < |c.variables|
    reads c`variables, ClassSet(c.ancestors)`variables
  {
    FieldOffset(c.ancestors != [], FieldCursorAlong(c.ancestors), Names(c.variables), Types(c.variables), 0, q)
  }

  /** Whether the layout pass gives method `q` of `c` a slot. */
  ghost predicate MethodSlotted(c: ClassData, q: nat)
    requires q < |c.methods|
    reads c`methods, ClassSet(c.ancestors)`methods
  {
    GetsSlot(c.ancestors != [], ParentMethodNames(c), MethodNames(c.methods), q)
  }

  /** The slot the layout pass gives method `q` of `c`, when it gives one. */
  ghost function MethodOffsetAt(c: ClassData, q: nat): int
    requires q < |c.methods|
    reads c`methods, ClassSet(c.ancestors)`methods
  {
    MethodOffset(c.ancestors != [], ParentMethodNames(c), MethodCursorAlong(c.ancestors), MethodNames(c.methods), 0, q)
  }

  /** Every class of a chain is chained, so the parent's final cursors are those of the rest of the chain. */
  lemma ParentFinalCursors(c: ClassData)
    requires Chained(c) && c.parent != null
    ensures FinalFieldCursor(c.parent) == FieldCursorAlong(c.ancestors)
    ensures FinalMethodCursor(c.parent) == MethodCursorAlong(c.ancestors)
    ensures ParentMethodNames(c) == MethodNames(c.parent.methods)
  {
    ParentChained(c);
    assert [c.parent] + c.parent.ancestors == c.ancestors;
  }

  lemma FinalFieldCursorUnfolds(c: ClassData)
    ensures FinalFieldCursor(c) ==
            FieldCursor(c.ancestors != [], FieldCursorAlong(c.ancestors), Names(c.variables), Types(c.variables),
                        0, |c.variables|)
  {
    assert ([c] + c.ancestors)[1..] == c.ancestors;
  }

  lemma FinalMethodCursorUnfolds(c: ClassData)
    ensures FinalMethodCursor(c) ==
            MethodCursor(c.ancestors != [], ParentMethodNames(c), MethodCursorAlong(c.ancestors),
                         MethodNames(c.methods), 0, |c.methods|)
  {
    assert ([c] + c.ancestors)[1..] == c.ancestors;
  }

  /**
   * Everything the offset pass needs to know about one class, as plain
   * values: whether it has a parent, its field names and types, its method
   * names, and the parent's method names and final cursors.
   */
  datatype Plan = Plan(hasParent: bool, fieldNames: seq<string>, fieldTypes: seq<string>, methodNames: seq<string>,
                       parentNames: seq<string>, parentFieldCursor: int, parentMethodCursor: int)
  {
    predicate WellFormed() {
      |fieldNames| == |fieldTypes|
    }

    function FinalFieldCursor(): int
      requires WellFormed()
    {
      FieldCursor(hasParent, parentFieldCursor, fieldNames, fieldTypes, 0, |fieldNames|)
    }

    function FieldOffsetOf(q: nat): int
      requires WellFormed() && q < |fieldNames|
    {
      FieldOffset(hasParent, parentFieldCursor, fieldNames, fieldTypes, 0, q)
    }

    function FinalMethodCursor(): int {
      MethodCursor(hasParent, parentNames, parentMethodCursor, methodNames, 0, |methodNames|)
    }

    predicate Slotted(q: nat)
      requires q < |methodNames|
    {
      GetsSlot(hasParent, parentNames, methodNames, q)
    }

    function SlotOf(q: nat): int
      requires q < |methodNames|
    {
      MethodOffset(hasParent, parentNames, parentMethodCursor, methodNames, 0, q)
    }
  }

  /** The plan of class `c` as its parent chain determines it. */
  ghost function PlanOf(c: ClassData): (r: Plan)
    reads c`variables, c`methods, ClassSet(c.ancestors)`variables, ClassSet(c.ancestors)`methods
    ensures r.WellFormed()
  {
    Plan(c.parent != null, Names(c.variables), Types(c.variables), MethodNames(c.methods),
         ParentMethodNames(c), FieldCursorAlong(c.ancestors), MethodCursorAlong(c.ancestors))
  }

  /** The plan of a chained class gives the cursors and offsets the layout functions on the heap give. */
  lemma PlanMatches(c: ClassData)
    requires Chained(c)
    ensures PlanOf(c).FinalFieldCursor() == FinalFieldCursor(c)
    ensures PlanOf(c).FinalMethodCursor() == FinalMethodCursor(c)
    ensures forall q :: 0 <= q < |c.variables| ==> PlanOf(c).FieldOffsetOf(q) == FieldOffsetAt(c, q)
    ensures forall q :: 0 <= q < |c.methods| ==>
              (PlanOf(c).Slotted(q) <==> MethodSlotted(c, q)) && PlanOf(c).SlotOf(q) == MethodOffsetAt(c, q)
  {
    FinalFieldCursorUnfolds(c);
    FinalMethodCursorUnfolds(c);
  }

  /** The plan of a class takes its parent's final cursors and method names from the parent's plan. */
  lemma PlanOfParent(c: ClassData)
    requires Chained(c) && c.parent != null
    ensures PlanOf(c).parentFieldCursor == PlanOf(c.parent).FinalFieldCursor()
    ensures PlanOf(c).parentMethodCursor == PlanOf(c.parent).FinalMethodCursor()
    ensures PlanOf(c).parentNames == PlanOf(c.parent).methodNames
  {
    ParentChained(c);
    ParentFinalCursors(c);
    PlanMatches(c.parent);
  }

  /** The field lists of `cs`, in order. */
  ghost function VariablesOf(cs: seq<ClassData>): (r: seq<seq<IdData>>)
    reads ClassSet(cs)`variables
    ensures |r| == |cs|
    ensures forall k {:trigger r[k]} :: 0 <= k < |cs| ==> r[k] == cs[k].variables
  {
    if cs == [] then [] else [cs[0].variables] + VariablesOf(cs[1..])
  }

  /** The method lists of `cs`, in order. */
  ghost function MethodsOf(cs: seq<ClassData>): (r: seq<seq<MethodData>>)
    reads ClassSet(cs)`methods
    ensures |r| == |cs|
    ensures forall k {:trigger r[k]} :: 0 <= k < |cs| ==> r[k] == cs[k].methods
  {
    if cs == [] then [] else [cs[0].methods] + MethodsOf(cs[1..])
  }

  /** The plans of `cs`, in order; `pool` holds every class of `cs` and all their ancestors. */
  ghost function PlansOf(cs: seq<ClassData>, pool: set<ClassData>): (r: seq<Plan>)
    requires forall c :: c in cs ==> c in pool && ClassSet(c.ancestors) <= pool
    reads pool`variables, pool`methods
    ensures |r| == |cs|
    ensures forall k {:trigger r[k]} :: 0 <= k < |cs| ==> r[k] == PlanOf(cs[k])
  {
    if cs == [] then [] else [PlanOf(cs[0])] + PlansOf(cs[1..], pool)
  }

  /** A chained class is not among its own ancestors. */
  lemma NotOwnAncestor(c: ClassData)
    requires Chained(c)
    ensures c !in c.ancestors
  {
  }

  /** Fields with distinct names are distinct descriptors. */
  lemma FieldsApartByName(vs: seq<IdData>)
    requires Distinct(Names(vs))
    ensures forall q, r :: 0 <= q < |vs| && 0 <= r < |vs| && q != r ==> vs[q] != vs[r]
  {
    forall q, r | 0 <= q < |vs| && 0 <= r < |vs| && q != r ensures vs[q] != vs[r] {
      assert Names(vs)[q] != Names(vs)[r];
    }
  }

  /**
   * The field half of the offset pass on one class (the first inner loop of
   * the source). `parentCursor` is the final field cursor of the parent.
   */
  method SetFieldOffsets(c: ClassData, ghost parentCursor: int)
    requires Chained(c)
    requires Distinct(Names(c.variables))
    requires c.fieldOffset == 0
    requires c.parent != null ==> c.parent.fieldOffset == parentCursor
    modifies c`fieldOffset, IdSet(c.variables)`offset
    ensures c.fieldOffset == FieldCursor(c.parent != null, parentCursor, Names(c.variables), Types(c.variables),
                                         0, |c.variables|)
    ensures forall q :: 0 <= q < |c.variables| ==>
              c.variables[q].offset == FieldOffset(c.parent != null, parentCursor, Names(c.variables),
                                                   Types(c.variables), 0, q)
  {
    NotOwnAncestor(c);
    var hasParent := c.parent != null;
    var vs := c.variables;
    ghost var names, types := Names(vs), Types(vs);
    ghost var want := seq(|vs|, q requires 0 <= q < |vs| => FieldOffset(hasParent, parentCursor, names, types, 0, q));
    FieldsApartByName(vs);
    var j := 0;
    while j < |vs|
      invariant 0 <= j <= |vs|
      invariant c.fieldOffset == FieldCursor(hasParent, parentCursor, names, types, 0, j)
      invariant forall q :: 0 <= q < j ==> vs[q].offset == want[q]
      invariant hasParent ==> c.parent.fieldOffset == parentCursor
    {
      PlaceField(c, j, parentCursor);
      assert vs[j].offset == want[j];
      j := j + 1;
    }
  }

  /** One turn of the field loop: field `j` of `c` gets its offset and the cursor moves past it. */
  method PlaceField(c: ClassData, j: nat, ghost parentCursor: int)
    requires Chained(c) && j < |c.variables|
    requires c.parent != null ==> c.parent.fieldOffset == parentCursor
    requires c.fieldOffset == FieldCursor(c.parent != null, parentCursor, Names(c.variables), Types(c.variables), 0, j)
    modifies c`fieldOffset, IdSet([c.variables[j]])`offset
    ensures c.fieldOffset == FieldCursor(c.parent != null, parentCursor, Names(c.variables), Types(c.variables), 0, j + 1)
    ensures c.variables[j].offset == FieldOffset(c.parent != null, parentCursor, Names(c.variables), Types(c.variables), 0, j)
  {
    NotOwnAncestor(c);
    var vs := c.variables;
    var currentField := vs[j];
    var size := if currentField.typ == "int" then 4
                else if currentField.typ == "boolean" then 1
                else if currentField.typ == "int[]" then 8
                else 8;
    ghost var names, types := Names(vs), Types(vs);
    ghost var off := FieldOffset(c.parent != null, parentCursor, names, types, 0, j);
    assert FieldCursor(c.parent != null, parentCursor, names, types, 0, j + 1) == off + size;
    if c.parent != null {
      if vs[0].name == currentField.name {
        c.SetFieldOffset(c.parent.fieldOffset);
      }
      currentField.SetOffset(c.fieldOffset);
      c.IncFieldOffset(size);
    } else {
      currentField.SetOffset(c.fieldOffset);
      c.IncFieldOffset(size);
    }
  }

  /**
   * The method half of the offset pass on one class (the second inner loop
   * of the source). `parentNames` and `parentCursor` are the parent's method
   * names and final method cursor.
   */
  method SetMethodOffsets(c: ClassData, ghost parentNames: seq<string>, ghost parentCursor: int)
    requires Chained(c)
    requires Distinct(MethodNames(c.methods))
    requires forall m :: m in c.methods ==> m.classData == c
    requires c.methodOffset == 0
    requires c.parent != null ==> c.parent.methodOffset == parentCursor && MethodNames(c.parent.methods) == parentNames
    modifies c`methodOffset, MethodSet(c.methods)`offset
    ensures c.methodOffset == MethodCursor(c.parent != null, parentNames, parentCursor, MethodNames(c.methods),
                                           0, |c.methods|)
    ensures forall q :: 0 <= q < |c.methods| ==>
              c.methods[q].offset ==
                if GetsSlot(c.parent != null, parentNames, MethodNames(c.methods), q)
                then MethodOffset(c.parent != null, parentNames, parentCursor, MethodNames(c.methods), 0, q)
                else old(c.methods[q].offset)
  {
    NotOwnAncestor(c);
    var hasParent := c.parent != null;
    var ms := c.methods;
    ghost var names := MethodNames(ms);
    var j := 0;
    while j < |ms|
      invariant 0 <= j <= |ms|
      invariant c.methodOffset == MethodCursor(hasParent, parentNames, parentCursor, names, 0, j)
      invariant forall q :: 0 <= q < j && GetsSlot(hasParent, parentNames, names, q) ==>
                  ms[q].offset == MethodOffset(hasParent, parentNames, parentCursor, names, 0, q)
      invariant forall q :: 0 <= q < |ms| && !(q < j && GetsSlot(hasParent, parentNames, names, q)) ==>
                  ms[q].offset == old(ms[q].offset)
      invariant hasParent ==> c.parent.methodOffset == parentCursor
    {
      forall q | 0 <= q < |ms| && q != j ensures ms[q] != ms[j] {
        assert names[q] != names[j];
      }
      PlaceMethod(c, j, parentNames, parentCursor);
      j := j + 1;
    }
  }

  /** One turn of the method loop: method `j` of `c` gets its slot unless it overrides one of the parent's. */
  method PlaceMethod(c: ClassData, j: nat, ghost parentNames: seq<string>, ghost parentCursor: int)
    requires Chained(c) && j < |c.methods| && c.methods[j].classData == c
    requires c.parent != null ==> c.parent.methodOffset == parentCursor && MethodNames(c.parent.methods) == parentNames
    requires c.methodOffset == MethodCursor(c.parent != null, parentNames, parentCursor, MethodNames(c.methods), 0, j)
    modifies c`methodOffset, MethodSet([c.methods[j]])`offset
    ensures c.methodOffset == MethodCursor(c.parent != null, parentNames, parentCursor, MethodNames(c.methods), 0, j + 1)
    ensures c.methods[j].offset ==
              if GetsSlot(c.parent != null, parentNames, MethodNames(c.methods), j)
              then MethodOffset(c.parent != null, parentNames, parentCursor, MethodNames(c.methods), 0, j)
              else old(c.methods[j].offset)
  {
    NotOwnAncestor(c);
    var ms := c.methods;
    var currentMethod := ms[j];
    var methodName := currentMethod.name;
    ghost var names := MethodNames(ms);
    ghost var slot := GetsSlot(c.parent != null, parentNames, names, j);
    ghost var off := MethodOffset(c.parent != null, parentNames, parentCursor, names, 0, j);
    if currentMethod.classData.parent != null {
      var inParent := currentMethod.classData.parent.MethodExists(methodName);
      if !inParent {
        if ms[0].name == currentMethod.name {
          c.SetMethodOffset(c.parent.methodOffset);
        }
        currentMethod.SetOffset(c.methodOffset);
        c.IncMethodOffset(8);
      }
    } else {
      currentMethod.SetOffset(currentMethod.classData.methodOffset);
      currentMethod.classData.IncMethodOffset(8);
    }
    assert slot ==> currentMethod.offset == off && c.methodOffset == off + 8;
  }

  // --------------------------------------------------------------- report

  /** One line of the report: owning class, member name, offset. */
  datatype Entry = Entry(owner: string, name: string, offset: int)

  /** The report of one class: its fields, then the methods it lists. */
  datatype ClassReport = ClassReport(name: string, fields: seq<Entry>, methods: seq<Entry>)

  /** Whether the report lists method `m` of `c`: `c` has no parent, or no ancestor declares the name. */
  ghost predicate Listed(c: ClassData, m: MethodData)
    reads ClassSet(c.ancestors)`methods
  {
    !(c.parent != null && SuperMethodOwner(c, m.name) != null)
  }

  /** The entries of the listed methods among `ms`, in order. */
  ghost function ListedEntries(c: ClassData, ms: seq<MethodData>): (r: seq<Entry>)
    reads ClassSet(c.ancestors)`methods, MethodSet(ms)`offset
    ensures |r| <= |ms|
  {
    if ms == [] then []
    else
      var last := ms[|ms| - 1];
      ListedEntries(c, ms[..|ms| - 1]) + if Listed(c, last) then [Entry(last.classData.name, last.name, last.offset)] else []
  }

  /** Extending the methods by one adds that method's entry exactly when it is listed. */
  lemma ListedEntriesStep(c: ClassData, ms: seq<MethodData>, k: nat)
    requires k < |ms|
    ensures ListedEntries(c, ms[..k + 1]) ==
            ListedEntries(c, ms[..k]) + if Listed(c, ms[k]) then [Entry(ms[k].classData.name, ms[k].name, ms[k].offset)] else []
  {
    assert ms[..k + 1][..k] == ms[..k];
  }

  /**
   * Whether a method is listed, and the entries of the listed methods, depend
   * only on the ancestors' method lists and the methods' offsets.
   */
  twostate lemma ListedFrame(new c: ClassData, new ms: seq<MethodData>)
    requires ms != []
    requires old(allocated(c)) && forall m :: m in ms ==> old(allocated(m))
    requires unchanged(ClassSet(c.ancestors)`methods, MethodSet(ms)`offset)
    ensures Listed(c, ms[|ms| - 1]) == old(Listed(c, ms[|ms| - 1]))
    ensures ListedEntries(c, ms) == old(ListedEntries(c, ms))
  {
  }

  /** The entries of fields `vs` of class `owner`, in order. */
  ghost function FieldEntries(owner: string, vs: seq<IdData>): (r: seq<Entry>)
    reads IdSet(vs)`offset
    ensures |r| == |vs|
    ensures forall j :: 0 <= j < |r| ==> r[j] == Entry(owner, vs[j].name, vs[j].offset)
  {
    if vs == [] then [] else FieldEntries(owner, vs[..|vs| - 1]) + [Entry(owner, vs[|vs| - 1].name, vs[|vs| - 1].offset)]
  }

  /**
   * A method's entry is in the report of its class exactly when the method is
   * listed, and a class without a parent lists all its methods.
   */
  lemma {:induction false} ListedEntriesSelect(c: ClassData, ms: seq<MethodData>, e: Entry)
    ensures e in ListedEntries(c, ms) <==>
            exists m :: m in ms && Listed(c, m) && e == Entry(m.classData.name, m.name, m.offset)
    ensures c.parent == null ==> |ListedEntries(c, ms)| == |ms|
  {
    if ms != [] {
      var init, last := ms[..|ms| - 1], ms[|ms| - 1];
      ListedEntriesSelect(c, init, e);
      assert ms == init + [last];
      if e in ListedEntries(c, ms) && e !in ListedEntries(c, init) {
        assert last in ms;
      }
      if exists m :: m in ms && Listed(c, m) && e == Entry(m.classData.name, m.name, m.offset) {
        var m :| m in ms && Listed(c, m) && e == Entry(m.classData.name, m.name, m.offset);
        if m != last {
          assert m in init;
        }
      }
    }
  }

  /** The report of class `c`. */
  ghost function ReportOf(c: ClassData): ClassReport
    reads c`variables, c`methods, ClassSet(c.ancestors)`methods, IdSet(c.variables)`offset, MethodSet(c.methods)`offset
  {
    ClassReport(c.name, FieldEntries(c.name, c.variables), ListedEntries(c, c.methods))
  }

  /** The report of a class depends only on its members, their offsets and its ancestors' methods. */
  twostate lemma ReportFrame(new c: ClassData)
    requires old(allocated(c))
    requires unchanged(c`variables, c`methods)
    requires unchanged(ClassSet(c.ancestors)`methods, IdSet(c.variables)`offset, MethodSet(c.methods)`offset)
    ensures ReportOf(c) == old(ReportOf(c))
  {
  }

  // ---------------------------------------------------------- the table

  class SymbolTable {
    var validTypes: seq<string>
    var classes: seq<string>
    var classMap: map<string, ClassData>

    constructor ()
      ensures validTypes == BaseTypes && classes == [] && classMap == map[]
    {
      validTypes := BaseTypes;
      classes := [];
      classMap := map[];
    }

    /** Maps the class's name to it, replacing any earlier mapping of that name. */
    method InsertClass(classData: ClassData)
      modifies this`classMap
      ensures classMap == old(classMap)[classData.name := classData]
    {
      classMap := classMap[classData.name := classData];
    }

    /** The class registered under `className`, or null. */
    method GetCertainClass(className: string) returns (c: ClassData?)
      ensures c != null <==> className in classMap
      ensures c != null ==> c == classMap[className]
    {
      c := if className in classMap then classMap[className] else null;
    }

    /** `c` is the class registered under its own name. */
    ghost predicate Registered(c: ClassData)
      reads this`classMap
    {
      c.name in classMap && classMap[c.name] == c
    }

    /** The registered classes. */
    ghost function ClassObjs(): set<ClassData>
      reads this`classMap
    {
      classMap.Values
    }

    /** The methods of the registered classes. */
    ghost function MethodObjs(): set<MethodData>
      reads this`classMap, ClassObjs()`methods
    {
      set c, m | c in ClassObjs() && m in c.methods :: m
    }

    /** The fields of the registered classes. */
    ghost function FieldObjs(): set<IdData>
      reads this`classMap, ClassObjs()`variables
    {
      set c, v | c in ClassObjs() && v in c.variables :: v
    }

    /** The fields of the registered classes and the parameters and locals of their methods. */
    ghost function IdObjs(): set<IdData>
      reads this`classMap, ClassObjs()`variables, ClassObjs()`methods, MethodObjs()`arguments, MethodObjs()`variables
    {
      FieldObjs() + (set m, v | m in MethodObjs() && v in m.arguments :: v)
                  + (set m, v | m in MethodObjs() && v in m.variables :: v)
    }

    /**
     * The registry the first pass builds: the recognized types are the base
     * types followed by the class names, the names are distinct, the map has
     * exactly those keys, every class is registered under its own name and
     * its ancestors are registered classes declared before it.
     */
    ghost predicate Valid()
      reads this
    {
      && validTypes == BaseTypes + classes
      && Distinct(classes)
      && (forall n :: n in classMap <==> n in classes)
      && (forall n :: n in classMap ==> classMap[n].name == n && Chained(classMap[n]))
      && (forall n, a :: n in classMap && a in classMap[n].ancestors ==>
            Registered(a) && FirstIndex(classes, a.name) < FirstIndex(classes, n))
    }

    /**
     * What the second pass adds: within a class the field names and the
     * method names are distinct, every method belongs to its class and keeps
     * its combined map consistent, and no field belongs to two classes.
     */
    ghost predicate MembersValid()
      reads this`classMap, ClassObjs()`variables, ClassObjs()`methods,
            MethodObjs()`arguments, MethodObjs()`variables, MethodObjs()`generalVarMap
    {
      && (forall c :: c in ClassObjs() ==> Distinct(Names(c.variables)) && Distinct(MethodNames(c.methods)))
      && (forall c, m :: c in ClassObjs() && m in c.methods ==> m.classData == c && m.Valid())
      && (forall c1, c2, v :: c1 in ClassObjs() && c2 in ClassObjs() && v in c1.variables && v in c2.variables ==> c1 == c2)
    }

    /** The class at position `i` of the declaration order. */
    ghost function ClassAt(i: nat): ClassData
      requires Valid() && i < |classes|
      reads this
    {
      classMap[classes[i]]
    }

    lemma ClassAtIndex(i: nat)
      requires Valid() && i < |classes|
      ensures Registered(ClassAt(i)) && ClassAt(i).name == classes[i]
      ensures FirstIndex(classes, classes[i]) == i
    {
    }

    /** The ancestors of a registered class are registered and declared earlier. */
    lemma AncestorsBefore(i: nat, a: ClassData)
      requires Valid() && i < |classes| && a in ClassAt(i).ancestors
      ensures Registered(a)
      ensures exists k :: 0 <= k < i && ClassAt(k) == a
    {
      ClassAtIndex(i);
      var n := classes[i];
      assert n in classMap && a in classMap[n].ancestors;
      assert Registered(a) && FirstIndex(classes, a.name) < FirstIndex(classes, n);
      var k := FirstIndex(classes, a.name);
      assert classes[k] == a.name;
      assert ClassAt(k) == a;
    }

    /** The parent of a registered class is registered and declared earlier. */
    lemma ParentBefore(i: nat)
      requires Valid() && i < |classes| && ClassAt(i).parent != null
      ensures FirstIndex(classes, ClassAt(i).parent.name) < i
      ensures ClassAt(FirstIndex(classes, ClassAt(i).parent.name)) == ClassAt(i).parent
    {
      var c := ClassAt(i);
      assert c.parent in c.ancestors;
      ClassAtIndex(i);
      var n := classes[i];
      assert n in classMap && c.parent in classMap[n].ancestors;
      assert Registered(c.parent) && FirstIndex(classes, c.parent.name) < FirstIndex(classes, n);
      var k := FirstIndex(classes, c.parent.name);
      assert classes[k] == c.parent.name;
    }

    /** Whether some strict ancestor of `idClass` is named `identifierType`. */
    method VariableTypePolymorphism(identifierType: string, idClass: ClassData) returns (flag: bool)
      requires Chained(idClass)
      ensures flag <==> identifierType in ClassNamesOf(idClass.ancestors)
    {
      flag := false;
      var idClassParent := idClass.parent;
      ghost var k := 0;
      while idClassParent != null
        invariant 0 <= k <= |idClass.ancestors|
        invariant idClassParent == if k < |idClass.ancestors| then idClass.ancestors[k] else null
        invariant identifierType !in ClassNamesOf(idClass.ancestors)[..k]
        decreases |idClass.ancestors| - k
      {
        if idClassParent.name == identifierType {
          flag := true;
          break;
        } else {
          AncestorChained(idClass, k);
          idClassParent := idClassParent.parent;
          k := k + 1;
        }
      }
      assert !flag ==> ClassNamesOf(idClass.ancestors)[..k] == ClassNamesOf(idClass.ancestors);
    }

    /** Whether some strict ancestor of `fieldClass` declares a field `fieldName`. */
    method VariableExistsInSuper(fieldName: string, fieldClass: ClassData) returns (found: bool)
      requires Chained(fieldClass)
      ensures found <==> exists a :: a in fieldClass.ancestors && fieldName in Names(a.variables)
    {
      var owner := GetSuperVariable(fieldName, fieldClass);
      found := owner != null;
    }

    /** Whether some strict ancestor of `methClass` declares a method `methodName`. */
    method MethodExistsInSuper(methodName: string, methClass: ClassData) returns (flag: bool)
      requires Chained(methClass)
      ensures flag <==> exists a :: a in methClass.ancestors && methodName in MethodNames(a.methods)
    {
      var owner := GetSuperMethod(methodName, methClass);
      flag := owner != null;
    }

    /** The nearest strict ancestor of `methClass` declaring `methodName`; null iff there is none. */
    method GetSuperMethod(methodName: string, methClass: ClassData) returns (r: ClassData?)
      requires Chained(methClass)
      ensures r == SuperMethodOwner(methClass, methodName)
    {
      var methClassParent := methClass.parent;
      ghost var k := 0;
      while methClassParent != null
        invariant 0 <= k <= |methClass.ancestors|
        invariant methClassParent == if k < |methClass.ancestors| then methClass.ancestors[k] else null
        invariant forall j :: 0 <= j < k ==> methodName !in MethodNames(methClass.ancestors[j].methods)
        decreases |methClass.ancestors| - k
      {
        var exists_ := methClassParent.MethodExists(methodName);
        if exists_ {
          assert MethodOwnerIndex(methClass.ancestors, methodName) == k;
          break;
        } else {
          AncestorChained(methClass, k);
          methClassParent := methClassParent.parent;
          k := k + 1;
        }
      }
      r := methClassParent;
    }

    /** The nearest strict ancestor of `varClass` declaring `variableName`; null iff there is none. */
    method GetSuperVariable(variableName: string, varClass: ClassData) returns (r: ClassData?)
      requires Chained(varClass)
      ensures r == SuperVariableOwner(varClass, variableName)
    {
      var varClassParent := varClass.parent;
      ghost var k := 0;
      while varClassParent != null
        invariant 0 <= k <= |varClass.ancestors|
        invariant varClassParent == if k < |varClass.ancestors| then varClass.ancestors[k] else null
        invariant forall j :: 0 <= j < k ==> variableName !in Names(varClass.ancestors[j].variables)
        decreases |varClass.ancestors| - k
      {
        var exists_ := varClassParent.VariableExists(variableName);
        if exists_ {
          assert FieldOwnerIndex(varClass.ancestors, variableName) == k;
          break;
        } else {
          AncestorChained(varClass, k);
          varClassParent := varClassParent.parent;
          k := k + 1;
        }
      }
      r := varClassParent;
    }

    /**
     * The report: one entry per class after the main class, in declaration
     * order, listing its fields and the methods no ancestor declares.
     */
    method PrintSymbolTable() returns (report: seq<ClassReport>)
      requires Valid()
      ensures |report| == if classes == [] then 0 else |classes| - 1
      ensures forall i :: 0 <= i < |report| ==> report[i] == old(ReportOf(ClassAt(i + 1)))
    {
      ghost var want := seq(|classes|, k requires 0 <= k < |classes| && Valid() reads * => ReportOf(ClassAt(k)));
      report := [];
      var classNum := |classes|;
      var i := 1;
      while i < classNum
        invariant 1 <= i <= if classNum == 0 then 1 else classNum
        invariant |report| == i - 1
        invariant forall k :: 0 <= k < i - 1 ==> report[k] == want[k + 1]
      {
        var currentClass := classMap[classes[i]];
        ClassAtIndex(i);
        var classReport := ReportClass(currentClass);
        ReportFrame(currentClass);
        report := report + [classReport];
        i := i + 1;
      }
    }

    /** The report of one class: its fields, then the methods it lists. */
    method ReportClass(currentClass: ClassData) returns (r: ClassReport)
      requires Chained(currentClass)
      ensures r == ReportOf(currentClass)
    {
      var fields := ReportFields(currentClass);
      label Listing:
      var methods := ReportMethods(currentClass);
      ReportFrame@Listing(currentClass);
      r := ClassReport(currentClass.name, fields, methods);
    }

    /** The entries of the fields of `currentClass` (the first inner loop of the report). */
    method ReportFields(currentClass: ClassData) returns (fields: seq<Entry>)
      ensures fields == FieldEntries(currentClass.name, currentClass.variables)
    {
      fields := [];
      var j := 0;
      while j < |currentClass.variables|
        invariant 0 <= j <= |currentClass.variables|
        invariant fields == FieldEntries(currentClass.name, currentClass.variables[..j])
      {
        var v := currentClass.variables[j];
        assert currentClass.variables[..j + 1][..j] == currentClass.variables[..j];
        fields := fields + [Entry(currentClass.name, v.name, v.offset)];
        j := j + 1;
      }
      assert currentClass.variables[..j] == currentClass.variables;
    }

    /**
     * The entries of the methods of `currentClass` the report lists (the
     * second inner loop): all of them when it has no parent, otherwise those
     * no ancestor declares.
     */
    method ReportMethods(currentClass: ClassData) returns (methods: seq<Entry>)
      requires Chained(currentClass)
      ensures methods == ListedEntries(currentClass, currentClass.methods)
    {
      methods := [];
      var ms := currentClass.methods;
      var k := 0;
      while k < |ms|
        invariant 0 <= k <= |ms| && ms == currentClass.methods
        invariant methods == ListedEntries(currentClass, ms[..k])
      {
        var currentMethod := ms[k];
        ListedEntriesStep(currentClass, ms, k);
        label Before:
        var inSuper := false;
        if currentClass.parent != null {
          inSuper := MethodExistsInSuper(currentMethod.name, currentClass);
        }
        ListedFrame@Before(currentClass, ms[..k + 1]);
        if !(currentClass.parent != null && inSuper) {
          methods := methods + [Entry(currentMethod.classData.name, currentMethod.name, currentMethod.offset)];
        }
        k := k + 1;
      }
      assert ms[..k] == ms;
    }

    /** The plans of the classes, in declaration order. */
    ghost function Plans(): (r: seq<Plan>)
      requires Valid()
      reads this, ClassObjs()`variables, ClassObjs()`methods
      ensures |r| == |classes|
      ensures forall k :: 0 <= k < |classes| ==> r[k] == PlanOf(ClassAt(k))
    {
      AllAncestorsRegistered();
      PlansOf(ClassList(), ClassObjs())
    }

    /** The ancestors of the class at position `k` are registered. */
    lemma AncestorsRegistered(k: nat)
      requires Valid() && k < |classes|
      ensures ClassSet(ClassAt(k).ancestors) <= ClassObjs()
    {
      forall a | a in ClassSet(ClassAt(k).ancestors) ensures a in ClassObjs() {
        AncestorsBefore(k, a);
      }
    }

    /** Every registered class and every ancestor of one is in the map. */
    lemma AllAncestorsRegistered()
      requires Valid()
      ensures forall c :: c in ClassList() ==> c in ClassObjs() && ClassSet(c.ancestors) <= ClassObjs()
    {
      forall c | c in ClassList() ensures c in ClassObjs() && ClassSet(c.ancestors) <= ClassObjs() {
        var k :| 0 <= k < |classes| && ClassList()[k] == c;
        ClassAtIndex(k);
        AncestorsRegistered(k);
      }
    }

    /** The registered classes, in declaration order. */
    ghost function ClassList(): (r: seq<ClassData>)
      requires Valid()
      reads this
      ensures |r| == |classes|
      ensures forall k :: 0 <= k < |classes| ==> r[k] == ClassAt(k)
    {
      seq(|classes|, k requires 0 <= k < |classes| && Valid() reads this => ClassAt(k))
    }

    /** For each class in declaration order, the position of its parent (0 when it has none). */
    ghost function ParentIndexes(): (r: seq<int>)
      requires Valid()
      reads this
      ensures |r| == |classes|
    {
      seq(|classes|, k requires 0 <= k < |classes| && Valid() reads this =>
            if ClassAt(k).parent != null then FirstIndex(classes, ClassAt(k).parent.name) else 0)
    }

    /** Distinct positions hold distinct registered, chained classes. */
    lemma ClassListFacts(objs: seq<ClassData>)
      requires Valid() && objs == ClassList()
      ensures forall k :: 0 <= k < |objs| ==> objs[k] in ClassObjs() && Chained(objs[k])
      ensures forall k1, k2 :: 0 <= k1 < |objs| && 0 <= k2 < |objs| && k1 != k2 ==> objs[k1] != objs[k2]
    {
      forall k | 0 <= k < |objs| ensures objs[k] in ClassObjs() && Chained(objs[k]) {
        ClassAtIndex(k);
      }
      forall k1, k2 | 0 <= k1 < |objs| && 0 <= k2 < |objs| && k1 != k2 ensures objs[k1] != objs[k2] {
        ClassAtIndex(k1);
        ClassAtIndex(k2);
      }
    }

    /**
     * After the second pass, two classes share no field, every method
     * belongs to its class, names are distinct within a class, and every
     * member is one the offset pass may write.
     */
    lemma MemberListFacts(objs: seq<ClassData>)
      requires Valid() && MembersValid() && objs == ClassList()
      ensures forall k1, k2 :: 0 <= k1 < |objs| && 0 <= k2 < |objs| && k1 != k2 ==>
                IdSet(objs[k1].variables) !! IdSet(objs[k2].variables)
      ensures forall k1, k2 :: 0 <= k1 < |objs| && 0 <= k2 < |objs| && k1 != k2 ==>
                MethodSet(objs[k1].methods) !! MethodSet(objs[k2].methods)
      ensures forall k, m :: 0 <= k < |objs| && m in objs[k].methods ==> m.classData == objs[k]
      ensures forall k :: 0 <= k < |objs| ==>
                && Distinct(Names(objs[k].variables)) && Distinct(MethodNames(objs[k].methods))
                && IdSet(objs[k].variables) <= FieldObjs()
                && MethodSet(objs[k].methods) <= MethodObjs()
    {
      ClassListFacts(objs);
      forall k1, k2 | 0 <= k1 < |objs| && 0 <= k2 < |objs| && k1 != k2
        ensures IdSet(objs[k1].variables) !! IdSet(objs[k2].variables)
      {
        forall v | v in IdSet(objs[k1].variables) ensures v !in IdSet(objs[k2].variables) {
          assert v in objs[k1].variables;
        }
      }
      forall k1, k2 | 0 <= k1 < |objs| && 0 <= k2 < |objs| && k1 != k2
        ensures MethodSet(objs[k1].methods) !! MethodSet(objs[k2].methods)
      {
        forall m | m in MethodSet(objs[k1].methods) ensures m !in MethodSet(objs[k2].methods) {
          assert m in objs[k1].methods && m.classData == objs[k1] != objs[k2] && objs[k2] in ClassObjs();
        }
      }
    }

    /** Each plan describes its class, and takes its parent's cursors and names from the parent's plan. */
    lemma PlanListFacts(objs: seq<ClassData>, plans: seq<Plan>)
      requires Valid() && objs == ClassList() && plans == Plans()
      ensures forall k :: 0 <= k < |objs| ==>
                && plans[k].WellFormed()
                && plans[k].hasParent == (objs[k].parent != null)
                && plans[k].fieldNames == Names(objs[k].variables) && plans[k].fieldTypes == Types(objs[k].variables)
                && plans[k].methodNames == MethodNames(objs[k].methods)
      ensures forall k :: 0 <= k < |objs| && objs[k].parent != null ==>
                && FirstIndex(classes, objs[k].parent.name) < k
                && objs[FirstIndex(classes, objs[k].parent.name)] == objs[k].parent
                && plans[k].parentFieldCursor == plans[FirstIndex(classes, objs[k].parent.name)].FinalFieldCursor()
                && plans[k].parentMethodCursor == plans[FirstIndex(classes, objs[k].parent.name)].FinalMethodCursor()
                && plans[k].parentNames == plans[FirstIndex(classes, objs[k].parent.name)].methodNames
    {
      forall k | 0 <= k < |objs| && objs[k].parent != null
        ensures FirstIndex(classes, objs[k].parent.name) < k
        ensures objs[FirstIndex(classes, objs[k].parent.name)] == objs[k].parent
        ensures plans[k].parentFieldCursor == plans[FirstIndex(classes, objs[k].parent.name)].FinalFieldCursor()
        ensures plans[k].parentMethodCursor == plans[FirstIndex(classes, objs[k].parent.name)].FinalMethodCursor()
        ensures plans[k].parentNames == plans[FirstIndex(classes, objs[k].parent.name)].methodNames
      {
        ParentBefore(k);
        ClassAtIndex(k);
        PlanOfParent(ClassAt(k));
      }
    }

    /** The fields of the registered classes, in declaration order. */
    ghost function FieldLists(): (r: seq<seq<IdData>>)
      requires Valid()
      reads this, ClassObjs()`variables
      ensures |r| == |classes|
      ensures forall k :: 0 <= k < |classes| ==> r[k] == ClassAt(k).variables
    {
      ClassListFacts(ClassList());
      VariablesOf(ClassList())
    }

    /** The methods of the registered classes, in declaration order. */
    ghost function MethodLists(): (r: seq<seq<MethodData>>)
      requires Valid()
      reads this, ClassObjs()`methods
      ensures |r| == |classes|
      ensures forall k :: 0 <= k < |classes| ==> r[k] == ClassAt(k).methods
    {
      ClassListFacts(ClassList());
      MethodsOf(ClassList())
    }

    /** A table that has been through the second pass is prepared for the offset pass. */
    lemma PreparedAfterMembers()
      requires Valid() && MembersValid()
      ensures Prepared(ClassList(), FieldLists(), MethodLists(), Plans(), ParentIndexes())
      ensures forall k :: 0 <= k < |classes| ==>
                IdSet(FieldLists()[k]) <= FieldObjs() && MethodSet(MethodLists()[k]) <= MethodObjs()
    {
      var objs, vars, meths, plans, parents := ClassList(), FieldLists(), MethodLists(), Plans(), ParentIndexes();
      ClassListFacts(objs);
      MemberListFacts(objs);
      PlanListFacts(objs, plans);
      ParentFacts(objs, plans, parents);
      assert forall k :: 0 <= k < |objs| ==> vars[k] == objs[k].variables && meths[k] == objs[k].methods;
      PreparedIntro(objs, vars, meths, plans, parents);
    }

    /** Each class's parent sits at the recorded position, and the class's plan takes the parent's plan. */
    lemma ParentFacts(objs: seq<ClassData>, plans: seq<Plan>, parents: seq<int>)
      requires Valid() && objs == ClassList() && plans == Plans() && parents == ParentIndexes()
      ensures forall k :: 0 <= k < |objs| && objs[k].parent != null ==>
                && 0 <= parents[k] < k && objs[parents[k]] == objs[k].parent
                && plans[k].parentFieldCursor == plans[parents[k]].FinalFieldCursor()
                && plans[k].parentMethodCursor == plans[parents[k]].FinalMethodCursor()
                && plans[k].parentNames == plans[parents[k]].methodNames
    {
      PlanListFacts(objs, plans);
      forall k | 0 <= k < |objs| && objs[k].parent != null
        ensures && 0 <= parents[k] < k && objs[parents[k]] == objs[k].parent
                && plans[k].parentFieldCursor == plans[parents[k]].FinalFieldCursor()
                && plans[k].parentMethodCursor == plans[parents[k]].FinalMethodCursor()
                && plans[k].parentNames == plans[parents[k]].methodNames
      {
        assert parents[k] == FirstIndex(classes, objs[k].parent.name);
      }
    }

    /**
     * The offset pass: classes in declaration order, each class's fields and
     * methods in order. It expects the table the second pass leaves, where
     * every cursor and every method offset is still 0. Afterwards every
     * class holds the cursors its plan determines, every field the offset
     * its plan assigns, and every method given a slot its slot; a method
     * given no slot keeps offset 0. `PlanMatches` relates the plan to the
     * layout functions on the parent chain.
     */
    method SetOffsets()
      requires Valid() && MembersValid()
      requires forall k :: 0 <= k < |classes| ==> Unplaced(ClassAt(k))
      modifies ClassObjs()`fieldOffset, ClassObjs()`methodOffset, FieldObjs()`offset, MethodObjs()`offset
      ensures forall k :: 0 <= k < |classes| ==>
                ClassAt(k).fieldOffset == PlanOf(ClassAt(k)).FinalFieldCursor() &&
                ClassAt(k).methodOffset == PlanOf(ClassAt(k)).FinalMethodCursor()
      ensures forall k, q :: 0 <= k < |classes| && 0 <= q < |ClassAt(k).variables| ==>
                ClassAt(k).variables[q].offset == PlanOf(ClassAt(k)).FieldOffsetOf(q)
      ensures forall k, q :: 0 <= k < |classes| && 0 <= q < |ClassAt(k).methods| ==>
                ClassAt(k).methods[q].offset ==
                  if PlanOf(ClassAt(k)).Slotted(q) then PlanOf(ClassAt(k)).SlotOf(q) else 0
    {
      ghost var objs, vars, meths, plans := ClassList(), FieldLists(), MethodLists(), Plans();
      PreparedAfterMembers();
      forall k | 0 <= k < |classes| ensures classMap[classes[k]] == objs[k] {
        ClassAtIndex(k);
      }
      LayOutClasses(objs, vars, meths, plans, ParentIndexes(), FieldObjs(), MethodObjs());
      LaidOutAll(objs, plans);
    }

    /** Once every class of the snapshot is laid out by its plan, every registered class is laid out by its own plan. */
    twostate lemma LaidOutAll(new objs: seq<ClassData>, new plans: seq<Plan>)
      requires old(Valid()) && objs == old(ClassList()) && plans == old(Plans())
      requires unchanged(this) && unchanged(old(ClassObjs())`variables, old(ClassObjs())`methods)
      requires forall k :: 0 <= k < |objs| ==> CursorsSet(objs[k], plans[k]) && MembersPlaced(objs[k], plans[k])
      ensures Valid()
      ensures forall k :: 0 <= k < |classes| ==>
                CursorsSet(ClassAt(k), PlanOf(ClassAt(k))) && MembersPlaced(ClassAt(k), PlanOf(ClassAt(k)))
    {
      forall k | 0 <= k < |classes|
        ensures CursorsSet(ClassAt(k), PlanOf(ClassAt(k))) && MembersPlaced(ClassAt(k), PlanOf(ClassAt(k)))
      {
        assert ClassAt(k) == objs[k];
        PlanUnchanged(k);
      }
    }

    /** The plan of a class depends on members only, which the offset pass does not change. */
    twostate lemma PlanUnchanged(k: nat)
      requires old(Valid()) && k < |classes|
      requires unchanged(this) && unchanged(old(ClassObjs())`variables, old(ClassObjs())`methods)
      ensures Valid() && old(Plans()[k]) == PlanOf(ClassAt(k))
    {
      AncestorsRegistered(k);
    }

    /** The loop of the offset pass, over classes prepared for it. */
    method LayOutClasses(ghost objs: seq<ClassData>, ghost vars: seq<seq<IdData>>, ghost meths: seq<seq<MethodData>>,
                         ghost plans: seq<Plan>, ghost parents: seq<int>,
                         ghost fields: set<IdData>, ghost methods: set<MethodData>)
      requires Prepared(objs, vars, meths, plans, parents)
      requires |classes| == |objs|
      requires forall k :: 0 <= k < |classes| ==> classes[k] in classMap && classMap[classes[k]] == objs[k]
      requires forall k :: 0 <= k < |objs| ==> objs[k].variables == vars[k] && objs[k].methods == meths[k]
      requires forall k :: 0 <= k < |objs| ==> IdSet(vars[k]) <= fields && MethodSet(meths[k]) <= methods
      requires forall k :: 0 <= k < |objs| ==> Unplaced(objs[k])
      modifies ClassSet(objs)`fieldOffset, ClassSet(objs)`methodOffset, fields`offset, methods`offset
      ensures forall k :: 0 <= k < |objs| ==> CursorsSet(objs[k], plans[k]) && MembersPlaced(objs[k], plans[k])
    {
      var i := 0;
      while i < |classes|
        invariant 0 <= i <= |classes|
        invariant forall k :: 0 <= k < i ==> CursorsSet(objs[k], plans[k]) && MembersPlaced(objs[k], plans[k])
        invariant forall k :: i <= k < |objs| ==> Unplaced(objs[k])
      {
        var currentClass := classMap[classes[i]];
        LayOutNext(currentClass, objs, vars, meths, plans, parents, fields, methods, i);
        i := i + 1;
      }
    }
  }

  // ----------------------------------------------------- laying out a class

  /** The facts about the table the second pass leaves, restated on the snapshot. */
  lemma PreparedIntro(objs: seq<ClassData>, vars: seq<seq<IdData>>, meths: seq<seq<MethodData>>,
                      plans: seq<Plan>, parents: seq<int>)
    requires |objs| == |vars| == |meths| == |plans| == |parents|
    requires forall k :: 0 <= k < |objs| ==> vars[k] == objs[k].variables && meths[k] == objs[k].methods
    requires forall k1, k2 :: 0 <= k1 < |objs| && 0 <= k2 < |objs| && k1 != k2 ==> objs[k1] != objs[k2]
    requires forall k1, k2 :: 0 <= k1 < |objs| && 0 <= k2 < |objs| && k1 != k2 ==>
               IdSet(objs[k1].variables) !! IdSet(objs[k2].variables)
    requires forall k1, k2 :: 0 <= k1 < |objs| && 0 <= k2 < |objs| && k1 != k2 ==>
               MethodSet(objs[k1].methods) !! MethodSet(objs[k2].methods)
    requires forall k, m :: 0 <= k < |objs| && m in objs[k].methods ==> m.classData == objs[k]
    requires forall k :: 0 <= k < |objs| ==>
               && Chained(objs[k]) && Distinct(Names(objs[k].variables)) && Distinct(MethodNames(objs[k].methods))
    requires forall k :: 0 <= k < |objs| ==>
               && plans[k].WellFormed()
               && plans[k].hasParent == (objs[k].parent != null)
               && plans[k].fieldNames == Names(objs[k].variables) && plans[k].fieldTypes == Types(objs[k].variables)
               && plans[k].methodNames == MethodNames(objs[k].methods)
    requires forall k :: 0 <= k < |objs| && objs[k].parent != null ==>
               && 0 <= parents[k] < k && objs[parents[k]] == objs[k].parent
               && plans[k].parentFieldCursor == plans[parents[k]].FinalFieldCursor()
               && plans[k].parentMethodCursor == plans[parents[k]].FinalMethodCursor()
               && plans[k].parentNames == plans[parents[k]].methodNames
    ensures Prepared(objs, vars, meths, plans, parents)
  {
    forall k | 0 <= k < |objs| ensures Ready(objs[k], vars[k], meths[k], plans[k]) { }
  }

  /**
   * One iteration of the offset pass: lays out class `i` of the snapshot,
   * whose parent (earlier in the list) is already laid out, and leaves every
   * other class as it was.
   */
  method LayOutNext(currentClass: ClassData, ghost objs: seq<ClassData>, ghost vars: seq<seq<IdData>>,
                    ghost meths: seq<seq<MethodData>>, ghost plans: seq<Plan>, ghost parents: seq<int>,
                    ghost fields: set<IdData>, ghost methods: set<MethodData>, i: nat)
    requires Prepared(objs, vars, meths, plans, parents)
    requires i < |objs| && currentClass == objs[i]
    requires forall k :: 0 <= k < |objs| ==> objs[k].variables == vars[k] && objs[k].methods == meths[k]
    requires IdSet(vars[i]) <= fields && MethodSet(meths[i]) <= methods
    requires forall k :: 0 <= k < i ==> CursorsSet(objs[k], plans[k]) && MembersPlaced(objs[k], plans[k])
    requires forall k :: i <= k < |objs| ==> Unplaced(objs[k])
    modifies ClassSet(objs)`fieldOffset, ClassSet(objs)`methodOffset, fields`offset, methods`offset
    ensures forall k :: 0 <= k <= i ==> CursorsSet(objs[k], plans[k]) && MembersPlaced(objs[k], plans[k])
    ensures forall k :: i < k < |objs| ==> Unplaced(objs[k])
  {
    assert Ready(objs[i], vars[i], meths[i], plans[i]);
    assert currentClass.parent != null ==>
             currentClass.parent == objs[parents[i]] && CursorsSet(objs[parents[i]], plans[parents[i]]);
    LayOutClass(currentClass, plans[i]);
    LaidOutStep(objs, vars, meths, plans, i);
  }

  /**
   * One step of the offset pass: the fields, then the methods of `c`, whose
   * parent (if any) is already laid out. Afterwards `c` and its members
   * hold what `plan` determines.
   */
  method LayOutClass(c: ClassData, ghost plan: Plan)
    requires Ready(c, c.variables, c.methods, plan) && plan.WellFormed()
    requires Unplaced(c)
    requires c.parent != null ==>
               && c.parent.fieldOffset == plan.parentFieldCursor
               && c.parent.methodOffset == plan.parentMethodCursor
               && MethodNames(c.parent.methods) == plan.parentNames
    modifies c`fieldOffset, c`methodOffset, IdSet(c.variables)`offset, MethodSet(c.methods)`offset
    ensures CursorsSet(c, plan) && MembersPlaced(c, plan)
    ensures forall d: ClassData :: old(allocated(d)) && d != c ==>
              d.fieldOffset == old(d.fieldOffset) && d.methodOffset == old(d.methodOffset)
    ensures forall v: IdData :: old(allocated(v)) && v !in c.variables ==> v.offset == old(v.offset)
    ensures forall m: MethodData :: old(allocated(m)) && m !in c.methods ==> m.offset == old(m.offset)
  {
    NotOwnAncestor(c);
    SetFieldOffsets(c, plan.parentFieldCursor);
    SetMethodOffsets(c, plan.parentNames, plan.parentMethodCursor);
  }

  /** Neither cursor of `c` has moved and none of its methods has a slot yet. */
  ghost predicate Unplaced(c: ClassData)
    reads c`fieldOffset, c`methodOffset, c`methods, MethodSet(c.methods)`offset
  {
    && c.fieldOffset == 0 && c.methodOffset == 0
    && forall q :: 0 <= q < |c.methods| ==> c.methods[q].offset == 0
  }

  /** The cursors of `c` are the final cursors of `plan`. */
  ghost predicate CursorsSet(c: ClassData, plan: Plan)
    reads c`fieldOffset, c`methodOffset
  {
    plan.WellFormed() && c.fieldOffset == plan.FinalFieldCursor() && c.methodOffset == plan.FinalMethodCursor()
  }

  /**
   * Every field of `c` has the offset `plan` assigns it; every method has
   * its slot if the plan gives it one, and 0 otherwise.
   */
  ghost predicate MembersPlaced(c: ClassData, plan: Plan)
    reads c`variables, c`methods, IdSet(c.variables)`offset, MethodSet(c.methods)`offset
  {
    && plan.WellFormed() && |plan.fieldNames| == |c.variables| && |plan.methodNames| == |c.methods|
    && (forall q :: 0 <= q < |c.variables| ==> c.variables[q].offset == plan.FieldOffsetOf(q))
    && (forall q :: 0 <= q < |c.methods| ==> c.methods[q].offset == if plan.Slotted(q) then plan.SlotOf(q) else 0)
  }

  /**
   * One iteration of the offset pass keeps the loop's invariant: when only
   * class `i` was touched and it is now laid out, the classes before it
   * stay laid out and the classes after it stay untouched.
   */
  twostate lemma LaidOutStep(new objs: seq<ClassData>, new vars: seq<seq<IdData>>, new meths: seq<seq<MethodData>>,
                             new plans: seq<Plan>, i: int)
    requires |objs| == |vars| == |meths| == |plans| && 0 <= i < |objs|
    requires forall k :: 0 <= k < |objs| ==> old(allocated(objs[k]))
    requires forall k :: 0 <= k < |objs| ==>
               old(objs[k].variables) == vars[k] == objs[k].variables && old(objs[k].methods) == meths[k] == objs[k].methods
    requires forall k1, k2 :: 0 <= k1 < |objs| && 0 <= k2 < |objs| && k1 != k2 ==> objs[k1] != objs[k2]
    requires forall k1, k2 :: 0 <= k1 < |vars| && 0 <= k2 < |vars| && k1 != k2 ==> IdSet(vars[k1]) !! IdSet(vars[k2])
    requires forall k1, k2 :: 0 <= k1 < |meths| && 0 <= k2 < |meths| && k1 != k2 ==> MethodSet(meths[k1]) !! MethodSet(meths[k2])
    requires forall k :: 0 <= k < i ==> old(CursorsSet(objs[k], plans[k]) && MembersPlaced(objs[k], plans[k]))
    requires forall k :: i < k < |objs| ==> old(Unplaced(objs[k]))
    requires CursorsSet(objs[i], plans[i]) && MembersPlaced(objs[i], plans[i])
    requires forall d: ClassData :: old(allocated(d)) && d != objs[i] ==>
               d.fieldOffset == old(d.fieldOffset) && d.methodOffset == old(d.methodOffset)
    requires forall v: IdData :: old(allocated(v)) && v !in objs[i].variables ==> v.offset == old(v.offset)
    requires forall m: MethodData :: old(allocated(m)) && m !in objs[i].methods ==> m.offset == old(m.offset)
    ensures forall k :: 0 <= k <= i ==> CursorsSet(objs[k], plans[k]) && MembersPlaced(objs[k], plans[k])
    ensures forall k :: i < k < |objs| ==> Unplaced(objs[k])
  {
    forall k | 0 <= k < i ensures CursorsSet(objs[k], plans[k]) && MembersPlaced(objs[k], plans[k]) {
      assert IdSet(vars[k]) !! IdSet(vars[i]) && MethodSet(meths[k]) !! MethodSet(meths[i]);
      PlacedKept(objs[k], plans[k]);
    }
    forall k | i < k < |objs| ensures Unplaced(objs[k]) {
      assert MethodSet(meths[k]) !! MethodSet(meths[i]);
      UnplacedKept(objs[k]);
    }
  }

  /** A laid-out class stays laid out while nothing it reads changes. */
  twostate lemma PlacedKept(d: ClassData, new plan: Plan)
    requires old(CursorsSet(d, plan) && MembersPlaced(d, plan))
    requires old(d.variables) == d.variables && old(d.methods) == d.methods
    requires unchanged(d`fieldOffset, d`methodOffset)
    requires unchanged(IdSet(d.variables)`offset, MethodSet(d.methods)`offset)
    ensures CursorsSet(d, plan) && MembersPlaced(d, plan)
  {
  }

  /** A class not laid out yet stays so while nothing it reads changes. */
  twostate lemma UnplacedKept(d: ClassData)
    requires old(Unplaced(d))
    requires old(d.methods) == d.methods
    requires unchanged(d`fieldOffset, d`methodOffset)
    requires unchanged(MethodSet(d.methods)`offset)
    ensures Unplaced(d)
  {
  }

  /**
   * Class `c`, with fields `vs` and methods `ms`, can be laid out by `plan`:
   * its parent chain is well formed, its names are distinct, its methods
   * belong to it, and the plan describes it.
   */
  ghost predicate Ready(c: ClassData, vs: seq<IdData>, ms: seq<MethodData>, plan: Plan) {
    && Chained(c)
    && Distinct(Names(vs)) && Distinct(MethodNames(ms))
    && (forall m :: m in ms ==> m.classData == c)
    && plan.hasParent == (c.parent != null)
    && plan.fieldNames == Names(vs) && plan.fieldTypes == Types(vs)
    && plan.methodNames == MethodNames(ms)
  }

  /**
   * What the offset pass relies on, stated on the classes `objs` in
   * declaration order, their fields `vars`, their methods `meths` and their
   * plans: distinct positions hold distinct classes that share no field,
   * every method belongs to its class, names are distinct within a class,
   * each plan describes its class, and a class's parent sits at an earlier
   * position `parents[k]` whose plan supplies the parent's cursors and names.
   */
  ghost predicate Prepared(objs: seq<ClassData>, vars: seq<seq<IdData>>, meths: seq<seq<MethodData>>,
                           plans: seq<Plan>, parents: seq<int>)
  {
    && |objs| == |vars| == |meths| == |plans| == |parents|
    && (forall k1, k2 :: 0 <= k1 < |objs| && 0 <= k2 < |objs| && k1 != k2 ==> objs[k1] != objs[k2])
    && (forall k1, k2 :: 0 <= k1 < |vars| && 0 <= k2 < |vars| && k1 != k2 ==> IdSet(vars[k1]) !! IdSet(vars[k2]))
    && (forall k1, k2 :: 0 <= k1 < |meths| && 0 <= k2 < |meths| && k1 != k2 ==> MethodSet(meths[k1]) !! MethodSet(meths[k2]))
    && (forall k :: 0 <= k < |objs| ==>
          plans[k].WellFormed() && |plans[k].fieldNames| == |vars[k]| && |plans[k].methodNames| == |meths[k]|)
    && (forall k {:trigger Ready(objs[k], vars[k], meths[k], plans[k])} :: 0 <= k < |objs| ==>
          Ready(objs[k], vars[k], meths[k], plans[k]))
    && (forall k {:trigger parents[k]} :: 0 <= k < |objs| && objs[k].parent != null ==>
          && 0 <= parents[k] < k
          && objs[parents[k]] == objs[k].parent
          && plans[k].parentFieldCursor == plans[parents[k]].FinalFieldCursor()
          && plans[k].parentMethodCursor == plans[parents[k]].FinalMethodCursor()
          && plans[k].parentNames == MethodNames(meths[parents[k]]))
  }
}
