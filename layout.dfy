/**
 * The offset arithmetic of the layout pass, on plain values: one class at a
 * time, given what the class inherits (whether it has a parent, and the
 * parent's final cursors and method names).
 *
 * Fields: a field takes the cursor as its offset and advances it by its
 * size. A class with a parent first copies the parent's final cursor, but
 * only when it reaches the field whose name is that of its first field.
 * Methods: a slot is 8 bytes. In a class with a parent, a method whose name
 * the parent declares is skipped (its offset is left alone), and the copy of
 * the parent's method cursor happens only at the method named like the first
 * method, and only when that method is new.
 */
module Layout {

  /** Byte size of a field of type `t`: int 4, boolean 1, int[] 8, any class 8. */
  function FieldSize(t: string): nat {
    if t == "int" then 4
    else if t == "boolean" then 1
    else if t == "int[]" then 8
    else 8
  }

  /** Size of one method-table slot. */
  const MethodSlotSize: nat := 8

  lemma FieldSizes(t: string)
    ensures t == "int" ==> FieldSize(t) == 4
    ensures t == "boolean" ==> FieldSize(t) == 1
    ensures t == "int[]" ==> FieldSize(t) == 8
    ensures t != "int" && t != "boolean" ==> FieldSize(t) == 8
    ensures FieldSize(t) > 0
  {
  }

  /** Sum of the sizes of `types`. */
  function SizeSum(types: seq<string>): (r: nat)
    ensures types != [] ==> r > 0
  {
    if types == [] then 0 else SizeSum(types[..|types| - 1]) + FieldSize(types[|types| - 1])
  }

  // ---------------------------------------------------------------- fields

  /**
   * The class's field cursor after its first `j` fields. `start` is the
   * cursor before the loop; `hasParent`/`parentCursor` describe the parent.
   */
  function FieldCursor(hasParent: bool, parentCursor: int, names: seq<string>, types: seq<string>,
                       start: int, j: nat): int
    requires |names| == |types| && j <= |names|
    decreases j, 0
  {
    if j == 0 then start
    else FieldOffset(hasParent, parentCursor, names, types, start, j - 1) + FieldSize(types[j - 1])
  }

  /** The offset given to field `j`. */
  function FieldOffset(hasParent: bool, parentCursor: int, names: seq<string>, types: seq<string>,
                       start: int, j: nat): int
    requires |names| == |types| && j < |names|
    decreases j, 1
  {
    if hasParent && names[0] == names[j] then parentCursor
    else FieldCursor(hasParent, parentCursor, names, types, start, j)
  }

  /** A parentless class lays its fields out back to back from the start cursor. */
  lemma {:induction false} ParentlessFieldOffsets(names: seq<string>, types: seq<string>, start: int, j: nat)
    requires |names| == |types| && j <= |names|
    ensures FieldCursor(false, 0, names, types, start, j) == start + SizeSum(types[..j])
    ensures j < |names| ==> FieldOffset(false, 0, names, types, start, j) == start + SizeSum(types[..j])
  {
    if j > 0 {
      ParentlessFieldOffsets(names, types, start, j - 1);
      assert types[..j][..j - 1] == types[..j - 1];
    }
  }

  /**
   * With distinct names, a class with a parent and at least one field starts
   * at the parent's cursor, and each later field sits right after the
   * previous one.
   */
  lemma {:induction false} ParentedFieldOffsets(parentCursor: int, names: seq<string>, types: seq<string>,
                                                start: int, j: nat)
    requires |names| == |types| && j < |names|
    requires forall a, b :: 0 <= a < b < |names| ==> names[a] != names[b]
    ensures FieldOffset(true, parentCursor, names, types, start, j) == parentCursor + SizeSum(types[..j])
    ensures FieldCursor(true, parentCursor, names, types, start, j + 1) == parentCursor + SizeSum(types[..j + 1])
  {
    if j > 0 {
      ParentedFieldOffsets(parentCursor, names, types, start, j - 1);
      assert names[0] != names[j];
      assert types[..j][..j - 1] == types[..j - 1];
    }
    assert types[..j + 1][..j] == types[..j];
  }

  /** A class with a parent but no fields is never seeded: its cursor stays where it started. */
  lemma EmptyClassKeepsCursor(hasParent: bool, parentCursor: int, start: int)
    ensures FieldCursor(hasParent, parentCursor, [], [], start, 0) == start
  {
  }

  // --------------------------------------------------------------- methods

  /**
   * The class's method cursor after its first `j` methods. `parentNames` are
   * the names the parent declares.
   */
  function MethodCursor(hasParent: bool, parentNames: seq<string>, parentCursor: int, names: seq<string>,
                        start: int, j: nat): int
    requires j <= |names|
    decreases j
  {
    if j == 0 then start
    else
      var before := MethodCursor(hasParent, parentNames, parentCursor, names, start, j - 1);
      if !hasParent then before + MethodSlotSize
      else if names[j - 1] in parentNames then before
      else (if names[0] == names[j - 1] then parentCursor else before) + MethodSlotSize
  }

  /** Whether method `j` is given a slot (it is not an override of a parent's method). */
  predicate GetsSlot(hasParent: bool, parentNames: seq<string>, names: seq<string>, j: nat)
    requires j < |names|
  {
    !hasParent || names[j] !in parentNames
  }

  /** The slot given to method `j`, meaningful when `GetsSlot` holds. */
  function MethodOffset(hasParent: bool, parentNames: seq<string>, parentCursor: int, names: seq<string>,
                        start: int, j: nat): int
    requires j < |names|
  {
    var before := MethodCursor(hasParent, parentNames, parentCursor, names, start, j);
    if hasParent && names[0] == names[j] then parentCursor else before
  }

  /** A parentless class numbers its methods start, start + 8, start + 16, ... */
  lemma {:induction false} ParentlessMethodOffsets(names: seq<string>, start: int, j: nat)
    requires j <= |names|
    ensures MethodCursor(false, [], 0, names, start, j) == start + MethodSlotSize * j
    ensures j < |names| ==> MethodOffset(false, [], 0, names, start, j) == start + MethodSlotSize * j
  {
    if j > 0 {
      ParentlessMethodOffsets(names, start, j - 1);
    }
  }

  /** An override of a parent's method leaves the cursor where it was. */
  lemma OverrideTakesNoSlot(parentNames: seq<string>, parentCursor: int, names: seq<string>, start: int, j: nat)
    requires j < |names| && names[j] in parentNames
    ensures MethodCursor(true, parentNames, parentCursor, names, start, j + 1)
         == MethodCursor(true, parentNames, parentCursor, names, start, j)
  {
  }

  /**
   * Every slot is 8 bytes: a new method advances the cursor by exactly 8
   * from the offset it was given.
   */
  lemma NewMethodTakesOneSlot(hasParent: bool, parentNames: seq<string>, parentCursor: int, names: seq<string>,
                              start: int, j: nat)
    requires j < |names| && GetsSlot(hasParent, parentNames, names, j)
    ensures MethodCursor(hasParent, parentNames, parentCursor, names, start, j + 1)
         == MethodOffset(hasParent, parentNames, parentCursor, names, start, j) + MethodSlotSize
  {
  }

  /**
   * With distinct names, the parent's cursor is copied exactly when the first
   * method is new; when the first method overrides, the new methods are
   * numbered from the start cursor instead.
   */
  lemma {:induction false} ParentedMethodSeeding(parentNames: seq<string>, parentCursor: int, names: seq<string>,
                                                 start: int, j: nat)
    requires 0 < j <= |names|
    requires forall a, b :: 0 <= a < b < |names| ==> names[a] != names[b]
    ensures names[0] !in parentNames ==>
      MethodCursor(true, parentNames, parentCursor, names, start, j)
        == parentCursor + MethodSlotSize * NewCount(parentNames, names[..j])
    ensures names[0] in parentNames ==>
      MethodCursor(true, parentNames, parentCursor, names, start, j)
        == start + MethodSlotSize * NewCount(parentNames, names[..j])
  {
    if j > 1 {
      ParentedMethodSeeding(parentNames, parentCursor, names, start, j - 1);
      assert names[0] != names[j - 1];
      assert names[..j][..j - 1] == names[..j - 1];
    } else {
      assert names[..1][..0] == [];
    }
  }

  /** How many of `names` the parent does not declare. */
  function NewCount(parentNames: seq<string>, names: seq<string>): (r: nat)
    ensures r <= |names|
  {
    if names == [] then 0
    else NewCount(parentNames, names[..|names| - 1]) + (if names[|names| - 1] in parentNames then 0 else 1)
  }
}
