# MiniJava semantic analysis, modelled in Dafny

This project models the semantic-analysis core of a MiniJava front end and
proves what each part guarantees. The front end has three passes over a
parsed program:

1. Class registration. The first visitor registers each class name and
   checks that it is new. For an extending class it also checks that the
   superclass is declared and is not the class itself.
2. Member registration. The second visitor fills each class descriptor
   with its fields and methods, and each method descriptor with its
   parameters, its locals and their combined name map. Along the way it
   checks:
   - that every type is recognized;
   - that no name is declared twice;
   - that an overriding method has exactly the signature of the method
     it overrides.
3. Type checking. The third visitor types every expression, checks every
   statement and return expression, and marks a variable initialized when
   an assignment to it passes.

Two table operations sit beside the passes:

- `setOffsets` lays out field offsets (4/1/8/8 bytes) and method-table
  slots (8 bytes each);
- `printSymbolTable` selects what the table report shows.

Most of the model is imperative, because the source updates objects in
place:

- Descriptors are Dafny classes: `Data`, `IdData`, `ClassData`,
  `MethodData` and `SymbolTable`. Their ordered lists are `seq` fields,
  and the name→class map and a method's combined variable map are `map`
  fields.
- Each visitor is a class whose methods change the table.

Every such method carries a contract. Either its `ensures` state a
property outright, or they tie the result and the new state to a ghost
specification function:

- `GoalCheck` and `GoalAppended` for pass 1;
- `MembersCheck`, `ClassCheck`, `MethodCheck` and `ListCheck` for pass 2;
- `ExprType`, `StmtEffect`, `MethodEffect` and `ProgramEffect` for pass 3;
- `PlanOf` for the offsets;
- `ReportOf` for the report.

Lemmas then prove what the program promises about those functions.

Every rejection, which the source reports by printing a message and
exiting, becomes an `ErrorKind` inside a `Result` or `Outcome` value.

Files:

| file | module | contents |
|---|---|---|
| errors.dfy | `Errors` | error kinds, `Result`, `Outcome` |
| ast.dfy | `Syntax` | the program as a datatype that mirrors the grammar |
| data.dfy | `Data` | the `Data` base descriptor |
| descriptors.dfy | `Descriptors` | `IdData`, `ClassData`, `MethodData` |
| layout.dfy | `Layout` | the arithmetic of field and method layout |
| symbol_table.dfy | `SymbolTables` | the table, the ancestor queries, `isInteger`, the offsets, the report |
| pass1.dfy | `ClassRegistration` | the first visitor |
| member_checks.dfy | `MemberChecks` | the verdicts of the second pass as values |
| pass2.dfy | `MemberRegistration` | the second visitor |
| pass3.dfy | `TypeChecking` | the typing functions and the third visitor |
| pass3_facts.dfy | `TypeCheckingFacts` | the typing table and statement rules, proved about those functions |

## Model

| member | source | states |
|---|---|---|
| Data.Data.constructor | minijava_compiler/Data.java:3-5 | the new descriptor holds exactly the given name and offset |
| Data.Data.GetName | minijava_compiler/Data.java:7-9 | returns the stored name and changes nothing |
| Data.Data.GetOffset | minijava_compiler/Data.java:11-13 | returns the stored offset and changes nothing |
| Data.Data.SetName | minijava_compiler/Data.java:15-17 | a later GetName returns the new name; the offset is unchanged |
| Data.Data.SetOffset | minijava_compiler/Data.java:19-21 | a later GetOffset returns the new offset; the name is unchanged |
| Descriptors.IdData.constructor | minijava_compiler/IdData.java:7-12 | stores exactly the given type, name, initialized flag and offset; type and name are constants, so they never change afterwards |
| Descriptors.IdData.GetInitialized | minijava_compiler/IdData.java:18-20 | returns the flag as last set by the constructor or SetInitialized |
| Descriptors.IdData.SetInitialized | minijava_compiler/IdData.java:22-24 | changes only the flag; the offset is unchanged, and type and name are constants |
| Descriptors.IdData.SetOffset | minijava_compiler/Data.java:19-21 | changes only the offset; the flag is unchanged |
| Descriptors.Names | minijava_compiler/ClassData.java:41-55 | the names of a descriptor list, position by position |
| Descriptors.Types | minijava_compiler/Visitor2.java:355-364 | the declared types of a descriptor list, position by position |
| Descriptors.MethodNames | minijava_compiler/ClassData.java:57-71 | the names of a method list, position by position |
| Descriptors.DistinctSnoc | minijava_compiler/Visitor1.java:54-63 | a name list extended by one name has no repeats exactly when the list has none and the name is new |
| Descriptors.DistinctByPrefixes | minijava_compiler/Visitor2.java:188-196 | a list has no repeats exactly when no entry occurs among the entries before it, which is the check a per-declaration scan makes |
| Descriptors.FirstIndex | minijava_compiler/ClassData.java:73-86 | the position of the first occurrence of a name, and the length of the list exactly when the name is absent |
| Descriptors.ParentChained | minijava_compiler/SymbolTable.java:60-70 | the parent of a chained class is chained too, and its ancestors are the child's ancestors after the first |
| Descriptors.AncestorChained | minijava_compiler/SymbolTable.java:99-111 | every ancestor of a chained class is chained, and its own ancestors are the suffix after it |
| Descriptors.ClassData.constructor | minijava_compiler/ClassData.java:11-19 | the new class has the given parent, name and offset, empty field and method lists and both cursors at 0; its ancestor list is its parent followed by the parent's ancestors |
| Descriptors.ClassData.CertainVariable | minijava_compiler/ClassData.java:88-101 | the first field of that name; null exactly when no field has the name |
| Descriptors.ClassData.CertainMethod | minijava_compiler/ClassData.java:73-86 | the first method of that name; null exactly when no method has the name |
| Descriptors.ClassData.InsertVariable | minijava_compiler/ClassData.java:29-31 | appends the field at the end and keeps the earlier fields in order |
| Descriptors.ClassData.InsertMethod | minijava_compiler/ClassData.java:37-39 | appends the method at the end and keeps the earlier methods in order |
| Descriptors.ClassData.VariableExists | minijava_compiler/ClassData.java:41-55 | true exactly when some field of the class has the name |
| Descriptors.ClassData.MethodExists | minijava_compiler/ClassData.java:57-71 | true exactly when some method of the class has the name |
| Descriptors.ClassData.GetCertainVariable | minijava_compiler/ClassData.java:88-101 | returns the first field of that name, and null exactly when VariableExists is false |
| Descriptors.ClassData.GetCertainMethod | minijava_compiler/ClassData.java:73-86 | returns the first method of that name, and null exactly when MethodExists is false |
| Descriptors.ClassData.IncFieldOffset | minijava_compiler/ClassData.java:103-105 | adds the increment to the field cursor; the method cursor is unchanged |
| Descriptors.ClassData.SetFieldOffset | minijava_compiler/ClassData.java:107-109 | overwrites the field cursor; the method cursor is unchanged |
| Descriptors.ClassData.IncMethodOffset | minijava_compiler/ClassData.java:111-113 | adds the increment to the method cursor; the field cursor is unchanged |
| Descriptors.ClassData.SetMethodOffset | minijava_compiler/ClassData.java:115-117 | overwrites the method cursor; the field cursor is unchanged |
| Descriptors.MethodData.constructor | minijava_compiler/MethodData.java:11-19 | stores owner, return type, name and offset, with empty parameter list, local list and combined map (owner, return type and name are constants) |
| Descriptors.MethodData.CertainVariable | minijava_compiler/MethodData.java:79-103 | the first local of that name, else the first parameter of that name; null exactly when neither list has the name |
| Descriptors.MethodData.InsertArgument | minijava_compiler/MethodData.java:33-35 | appends the parameter, keeping the earlier ones in order |
| Descriptors.MethodData.InsertVariable | minijava_compiler/MethodData.java:41-43 | appends the local, keeping the earlier ones in order |
| Descriptors.MethodData.InsertIntoGeneralVarMap | minijava_compiler/MethodData.java:49-51 | binds the descriptor's name to it, replacing any earlier binding, and leaves every other binding as it was |
| Descriptors.MethodData.VariableExists | minijava_compiler/MethodData.java:53-77 | true exactly when the name is a local or a parameter |
| Descriptors.MethodData.GetCertainVariable | minijava_compiler/MethodData.java:79-103 | returns the first matching local, else the first matching parameter, and null exactly when VariableExists is false |
| Descriptors.MethodData.SetOffset | minijava_compiler/Data.java:19-21 | overwrites the offset (inherited from Data), leaving the lists unchanged |
| Layout.FieldSizes | minijava_compiler/SymbolTable.java:197-284 | a field of type int takes 4 bytes, boolean 1, int[] 8 and any other type 8 |
| Layout.SizeSum | minijava_compiler/SymbolTable.java:194-285 | the bytes a non-empty field list takes are positive |
| Layout.ParentlessFieldOffsets | minijava_compiler/SymbolTable.java:214-217 | in a class without a parent, each field's offset is the start cursor plus the sizes of the fields before it |
| Layout.ParentedFieldOffsets | minijava_compiler/SymbolTable.java:199-212 | in a class with a parent and distinct field names, each field's offset is the parent's final cursor plus the sizes of the fields before it |
| Layout.EmptyClassKeepsCursor | minijava_compiler/SymbolTable.java:194-202 | a class without fields never reseeds its cursor, so a parented class without fields keeps its start cursor of 0 |
| Layout.ParentlessMethodOffsets | minijava_compiler/SymbolTable.java:311-315 | a class without a parent numbers its methods start, start+8, start+16, ... |
| Layout.OverrideTakesNoSlot | minijava_compiler/SymbolTable.java:294-296 | a method whose name the immediate parent declares leaves the method cursor where it was |
| Layout.NewMethodTakesOneSlot | minijava_compiler/SymbolTable.java:305-308 | a method that gets a slot advances the cursor by exactly 8 past its own offset |
| Layout.ParentedMethodSeeding | minijava_compiler/SymbolTable.java:298-303 | in a parented class, the cursor counts 8 per new method from the parent's cursor when the first method is new, and from the start cursor when the first method overrides |
| Layout.NewCount | minijava_compiler/SymbolTable.java:294-296 | the number of methods that take a slot is at most the number of methods |
| SymbolTables.ClassNamesOf | minijava_compiler/SymbolTable.java:62-63 | the names of a class list, position by position |
| SymbolTables.FieldOwnerIndex | minijava_compiler/SymbolTable.java:138-147 | the first position in a class list whose class declares the field, or the length when none does |
| SymbolTables.MethodOwnerIndex | minijava_compiler/SymbolTable.java:120-129 | the first position in a class list whose class declares the method, or the length when none does |
| SymbolTables.SuperVariableOwner | minijava_compiler/SymbolTable.java:134-150 | the nearest strict ancestor declaring the field; null exactly when no strict ancestor declares it |
| SymbolTables.SuperMethodOwner | minijava_compiler/SymbolTable.java:116-132 | the nearest strict ancestor declaring the method; null exactly when no strict ancestor declares it |
| SymbolTables.DecimalIntegerForms | minijava_compiler/SymbolTable.java:44-54 | an accepted text is a non-empty digit string, or a minus sign followed by a non-empty digit string |
| SymbolTables.IsInteger | minijava_compiler/SymbolTable.java:40-54 | false for the empty text and for a lone minus sign; otherwise true exactly when every character is a digit except an optional leading minus |
| SymbolTables.ParentFinalCursors | minijava_compiler/SymbolTable.java:204 | the cursors a class is seeded from are its parent's final cursors, and the names its slots are checked against are the parent's method names |
| SymbolTables.FinalFieldCursorUnfolds | minijava_compiler/SymbolTable.java:194-285 | a class's final field cursor is what its field loop computes from its parent's final cursor |
| SymbolTables.FinalMethodCursorUnfolds | minijava_compiler/SymbolTable.java:288-316 | a class's final method cursor is what its method loop computes from its parent's cursor and method names |
| SymbolTables.PlanOf | minijava_compiler/SymbolTable.java:190-191 | the layout plan of a class has one type per field name |
| SymbolTables.PlanMatches | minijava_compiler/SymbolTable.java:190-317 | a class's plan gives the same final cursors, field offsets, slot choices and slot offsets as the per-class definitions |
| SymbolTables.PlanOfParent | minijava_compiler/SymbolTable.java:204 | a class's plan is seeded from its parent's plan: its final cursors and method names |
| SymbolTables.NotOwnAncestor | minijava_compiler/Visitor1.java:147-151 | a chained class is never its own ancestor |
| SymbolTables.FieldsApartByName | minijava_compiler/Visitor2.java:188-196 | fields with distinct names are distinct descriptors |
| SymbolTables.SetFieldOffsets | minijava_compiler/SymbolTable.java:194-285 | the class's field cursor and every field's offset are the ones the layout functions give, seeded from the parent's cursor |
| SymbolTables.PlaceField | minijava_compiler/SymbolTable.java:195-284 | one field: its offset and the advanced cursor as the layout functions give them |
| SymbolTables.SetMethodOffsets | minijava_compiler/SymbolTable.java:288-316 | the method cursor and the offset of every method that gets a slot are the layout functions'; a method that overrides one of the immediate parent keeps its offset |
| SymbolTables.PlaceMethod | minijava_compiler/SymbolTable.java:289-315 | one method: its slot (or unchanged offset) and the advanced cursor |
| SymbolTables.ListedEntries | minijava_compiler/SymbolTable.java:173-178 | the report lists at most one entry per method |
| SymbolTables.ListedEntriesStep | minijava_compiler/SymbolTable.java:174-177 | one more method adds its (owner, name, offset) entry exactly when it is selected |
| SymbolTables.FieldEntries | minijava_compiler/SymbolTable.java:166-168 | one (class, name, offset) entry per field, in field order |
| SymbolTables.ListedEntriesSelect | minijava_compiler/SymbolTable.java:173-178 | an entry is reported exactly when it is that of a selected method; a parentless class reports all its methods |
| SymbolTables.SymbolTable.constructor | minijava_compiler/SymbolTable.java:8-17 | a fresh table recognizes int, boolean and int[] and has no classes and an empty map |
| SymbolTables.SymbolTable.InsertClass | minijava_compiler/SymbolTable.java:31-33 | binds the class's name to it and changes nothing else |
| SymbolTables.SymbolTable.GetCertainClass | minijava_compiler/SymbolTable.java:35-37 | the class bound to the name; null exactly when the name is not bound |
| SymbolTables.SymbolTable.ClassAtIndex | minijava_compiler/Visitor1.java:60-69 | the class at each position is registered under the name at that position, and the first occurrence of that name is at that position |
| SymbolTables.SymbolTable.AncestorsBefore | minijava_compiler/Visitor1.java:141-156 | every ancestor of a class is registered at an earlier position |
| SymbolTables.SymbolTable.ParentBefore | minijava_compiler/Visitor1.java:141-156 | a class's parent sits at an earlier position of the class list |
| SymbolTables.SymbolTable.VariableTypePolymorphism | minijava_compiler/SymbolTable.java:57-73 | true exactly when some strict ancestor of the class, from its parent up and never the class itself, has the name |
| SymbolTables.SymbolTable.VariableExistsInSuper | minijava_compiler/SymbolTable.java:75-94 | true exactly when some strict ancestor declares a field of the name |
| SymbolTables.SymbolTable.MethodExistsInSuper | minijava_compiler/SymbolTable.java:96-114 | true exactly when some strict ancestor declares a method of the name |
| SymbolTables.SymbolTable.GetSuperMethod | minijava_compiler/SymbolTable.java:116-132 | the nearest strict ancestor declaring the method, and null exactly when MethodExistsInSuper is false |
| SymbolTables.SymbolTable.GetSuperVariable | minijava_compiler/SymbolTable.java:134-150 | the nearest strict ancestor declaring the field, and null exactly when VariableExistsInSuper is false |
| SymbolTables.SymbolTable.PrintSymbolTable | minijava_compiler/SymbolTable.java:153-182 | one report per class except the first (the main class), in declaration order, each the class's ReportOf |
| SymbolTables.SymbolTable.ReportClass | minijava_compiler/SymbolTable.java:157-179 | the report of one class: all its fields, then its selected methods |
| SymbolTables.SymbolTable.ReportFields | minijava_compiler/SymbolTable.java:166-168 | every field with its offset, in order |
| SymbolTables.SymbolTable.ReportMethods | minijava_compiler/SymbolTable.java:173-178 | the methods of a parentless class, and of a parented class only those no ancestor also declares, each with its offset |
| SymbolTables.SymbolTable.Plans | minijava_compiler/SymbolTable.java:190-191 | one layout plan per class, in declaration order |
| SymbolTables.SymbolTable.AncestorsRegistered | minijava_compiler/Visitor1.java:153-158 | every ancestor of a registered class is registered |
| SymbolTables.SymbolTable.AllAncestorsRegistered | minijava_compiler/Visitor1.java:153-158 | every class of the list is registered, and so are its ancestors |
| SymbolTables.SymbolTable.ClassList | minijava_compiler/SymbolTable.java:190-191 | the registered classes, in declaration order |
| SymbolTables.SymbolTable.ParentIndexes | minijava_compiler/SymbolTable.java:204 | one parent position per class |
| SymbolTables.SymbolTable.ClassListFacts | minijava_compiler/Visitor1.java:54-69 | the classes sit at distinct positions, each registered and chained |
| SymbolTables.SymbolTable.MemberListFacts | minijava_compiler/Visitor2.java:200-202 | distinct classes share no field and no method descriptor, each method belongs to its class, and names are distinct within a class |
| SymbolTables.SymbolTable.PlanListFacts | minijava_compiler/SymbolTable.java:204 | each plan describes its class, and a parented class's plan is seeded from the plan of the parent at an earlier position |
| SymbolTables.SymbolTable.FieldLists | minijava_compiler/SymbolTable.java:194 | the field list of each class, in declaration order |
| SymbolTables.SymbolTable.MethodLists | minijava_compiler/SymbolTable.java:288 | the method list of each class, in declaration order |
| SymbolTables.SymbolTable.PreparedAfterMembers | minijava_compiler/SymbolTable.java:190-191 | after member registration the table meets what the offset pass relies on |
| SymbolTables.SymbolTable.ParentFacts | minijava_compiler/SymbolTable.java:204 | a parented class's parent position is earlier, and that plan supplies its seed cursors and names |
| SymbolTables.SymbolTable.SetOffsets | minijava_compiler/SymbolTable.java:184-318 | every class's cursors and every field's offset are the ones its plan gives; a method gets its plan's slot when it is new relative to the immediate parent, and keeps offset 0 otherwise |
| SymbolTables.SymbolTable.LayOutClasses | minijava_compiler/SymbolTable.java:190-317 | after the class loop, every class is laid out by its plan |
| SymbolTables.PreparedIntro | minijava_compiler/SymbolTable.java:190-191 | the facts the offset pass relies on, assembled from their parts |
| SymbolTables.LayOutNext | minijava_compiler/SymbolTable.java:190-191 | one more class is laid out; the later classes are still unplaced |
| SymbolTables.LayOutClass | minijava_compiler/SymbolTable.java:193-316 | one class is laid out by its plan, and no other class, field or method changes |
| ClassRegistration.DeclCheck | minijava_compiler/Visitor1.java:93-161 | a declaration passes exactly when its name is new and, when it extends, its superclass has been declared; otherwise it fails as a duplicate, or with self-inheritance when the superclass is the class itself, or with an unknown superclass |
| ClassRegistration.DeclsCheck | minijava_compiler/Visitor1.java:23-25 | an empty list of declarations passes |
| ClassRegistration.Registered | minijava_compiler/Visitor1.java:23-25 | the number of declarations registered before the first failure; all of them exactly when the list passes |
| ClassRegistration.Appended | minijava_compiler/Visitor1.java:133-136 | the names appended before stopping: the registered ones plus, at most, the failing extends declaration's own name |
| ClassRegistration.GoalCheck | minijava_compiler/Visitor1.java:18-27 | a program passes exactly when its main class name is new and its class declarations pass after it |
| ClassRegistration.GoalAppended | minijava_compiler/Visitor1.java:18-27 | nothing is appended exactly when the main class name is already taken |
| ClassRegistration.FirstIndexAppend | minijava_compiler/Visitor1.java:63 | appending a name keeps the position of every name already present |
| ClassRegistration.NamesShift | minijava_compiler/Visitor1.java:23-25 | the names seen after a prefix of the declarations, computed from its first declaration onward |
| ClassRegistration.RegisteredPass | minijava_compiler/Visitor1.java:93-161 | every registered declaration passed against the names registered before it |
| ClassRegistration.RegisteredStop | minijava_compiler/Visitor1.java:127-145 | a failing list fails with the verdict on its first failing declaration, and has appended that declaration's name except when it was a duplicate |
| ClassRegistration.PassAppendsAll | minijava_compiler/Visitor1.java:60-63 | a list that passes appends every class name, in order |
| ClassRegistration.RunPasses | minijava_compiler/Visitor1.java:23-25 | a list passes exactly when each declaration passes against the names before it |
| ClassRegistration.RegistrationPasses | minijava_compiler/Visitor1.java:18-161 | a program passes pass 1 exactly when all class names are distinct and every superclass is declared before its subclass, or is the subclass itself, which the self-inheritance check then rejects |
| ClassRegistration.GoalAppendsAll | minijava_compiler/Visitor1.java:18-27 | a program that passes has every class name in `classes`, the main class at position 0 |
| ClassRegistration.SelfInheritanceRejected | minijava_compiler/Visitor1.java:133-151 | `class A extends A` passes the existence check, because its own name is appended first, and fails as self-inheritance |
| ClassRegistration.StepVerdict | minijava_compiler/Visitor1.java:23-25 | how the list verdict, count and appended names continue from one declaration to the rest |
| ClassRegistration.ParentAsDeclaredKept | minijava_compiler/Visitor1.java:158 | mapping a new name keeps every earlier declaration's parent link |
| ClassRegistration.ExtendAncestors | minijava_compiler/Visitor1.java:153-158 | after a new class is inserted, every ancestor of a registered class is still registered before it |
| ClassRegistration.RegistryExtended | minijava_compiler/Visitor1.java:60-69 | registering a new class whose parent is registered keeps the table well formed |
| ClassRegistration.Visitor1.constructor | minijava_compiler/Visitor1.java:9-11 | the visitor works on the given table |
| ClassRegistration.Visitor1.VisitGoal | minijava_compiler/Visitor1.java:18-28 | the pass fails exactly as GoalCheck says and leaves `classes` as GoalAppended says; on success the main class is parentless and each class has the parent its declaration names |
| ClassRegistration.Visitor1.VisitTypeDecls | minijava_compiler/Visitor1.java:23-25 | the declarations in order, stopping at the first failure; earlier bindings are kept and `classes` only grows |
| ClassRegistration.Visitor1.VisitTypeDecl | minijava_compiler/Visitor1.java:78-82 | the verdict is DeclCheck's; a duplicate changes nothing, a bad superclass appends the name only, and a pass appends the name to both lists and maps it to a new, empty, zero-cursor descriptor |
| ClassRegistration.Visitor1.VisitMainClass | minijava_compiler/Visitor1.java:50-72 | fails exactly when the name is taken and then changes nothing; otherwise registers a parentless, empty descriptor |
| ClassRegistration.Visitor1.VisitClassDecl | minijava_compiler/Visitor1.java:93-113 | a new name is appended and registered with a parentless, empty descriptor; a taken name fails and changes nothing |
| ClassRegistration.Visitor1.VisitClassExtendsDecl | minijava_compiler/Visitor1.java:125-161 | a new name is appended before the superclass lookup; a missing or self superclass fails after that; a pass registers a descriptor whose parent is the superclass's descriptor |
| ClassRegistration.Visitor1.Register | minijava_compiler/Visitor1.java:60-69 | appends the name to both lists and maps it to the descriptor, keeping the table well formed |
| ClassRegistration.Visitor1.RegisterDescriptor | minijava_compiler/Visitor1.java:158 | maps the name to the descriptor, keeping the table well formed |
| MemberChecks.FirstFailure | minijava_compiler/Visitor2.java:172-203 | the first failing verdict in order; a pass exactly when every verdict passes |
| MemberChecks.FirstFailureStep | minijava_compiler/Visitor2.java:172-203 | one more verdict counts only while nothing has failed yet |
| MemberChecks.FirstFailureSticks | minijava_compiler/Visitor2.java:185 | once a prefix fails, the later verdicts do not matter |
| MemberChecks.VarVerdicts | minijava_compiler/Visitor2.java:181-196 | each declaration is judged on its type first, then against the taken names and the names declared before it |
| MemberChecks.ListCheck | minijava_compiler/Visitor2.java:172-203 | a list of declarations fails only with an unknown type or with the list's duplicate kind |
| MemberChecks.TypeVerdicts | minijava_compiler/Visitor2.java:110-115 | each main-method local is judged on its type alone |
| MemberChecks.ListCheckPasses | minijava_compiler/Visitor2.java:181-196 | a list passes exactly when every type is recognized, no name is taken and the names are distinct |
| MemberChecks.OverrideCheck | minijava_compiler/Visitor2.java:343-364 | passes exactly when the two signatures are equal; with equal return types and counts, a failure is a parameter type mismatch |
| MemberChecks.MethodCheckPasses | minijava_compiler/Visitor2.java:295-406 | a method passes exactly when its return type is recognized, its name is new and differs from the class name, its parameters and locals are distinct and recognized with no local reusing a parameter name, and an overridden signature equals its own |
| MemberChecks.MethodVerdicts | minijava_compiler/Visitor2.java:207-209 | each method is judged against the method names declared before it and its super signature |
| MemberChecks.MethodsCheckGuarantees | minijava_compiler/Visitor2.java:207-209 | methods that pass have distinct names, none equal to the class name, recognized return types, and exactly the signatures they override |
| MemberChecks.MainCheck | minijava_compiler/Visitor2.java:51-138 | the main class passes exactly when it is not itself named `main` and every local's type is recognized |
| MemberChecks.MainLocalDuplicatesAccepted | minijava_compiler/Visitor2.java:117-125 | two main-method locals of the same name are accepted, because the duplicate scan reads the main class's empty field list |
| MemberChecks.ParentIndexAt | minijava_compiler/Visitor1.java:141-156 | the position of a class's parent is at or before its own |
| MemberChecks.DeclSupers | minijava_compiler/Visitor2.java:338-341 | for each method of a class, the signature of the nearest ancestor method of that name, if any |
| MemberChecks.DeclVerdicts | minijava_compiler/Visitor2.java:158-269 | one verdict per class declaration, against its own ancestors' signatures |
| MemberChecks.MembersPass | minijava_compiler/Visitor2.java:19-29 | a program passes pass 2 exactly when its main class and every class declaration pass |
| MemberChecks.OverridesExact | minijava_compiler/Visitor2.java:338-366 | in a program that passes, every overriding method has exactly the signature of the method it overrides |
| MemberRegistration.DescribedNames | minijava_compiler/Visitor2.java:200-202 | descriptors built from declarations have their names and types |
| MemberRegistration.DescribeSnoc | minijava_compiler/Visitor2.java:202 | one more appended descriptor describes one more declaration |
| MemberRegistration.BoundSnoc | minijava_compiler/MethodData.java:49-51 | inserting one more descriptor rebinds only its name |
| MemberRegistration.BoundBinds | minijava_compiler/MethodData.java:49-51 | the combined map binds exactly the names of the inserted descriptors, each to a descriptor of that name |
| MemberRegistration.BoundDistinct | minijava_compiler/MethodData.java:49-51 | with distinct names, the combined map binds each name to its own descriptor |
| MemberRegistration.MethodIds | minijava_compiler/MethodData.java:6-7 | the parameters and locals of a list of methods |
| MemberRegistration.AllBuiltSnoc | minijava_compiler/Visitor2.java:325-327 | appending one more built method keeps the list built |
| MemberRegistration.AllBuiltStep | minijava_compiler/Visitor2.java:325-327 | a method list with one more built method is built for one more declaration |
| MemberRegistration.MethodsOfClasses | minijava_compiler/ClassData.java:6 | the methods of a list of classes |
| MemberRegistration.SigAboveOwner | minijava_compiler/Visitor2.java:338-341 | the signature found above a class is that of the nearest ancestor declaring the method, or none |
| MemberRegistration.SupersOf | minijava_compiler/Visitor2.java:338-341 | the super signature of each method of a list |
| MemberRegistration.SuperSigOfUnfolds | minijava_compiler/SymbolTable.java:116-132 | the super signature comes from the parent if it declares the name, else from further up |
| MemberRegistration.FilledHeader | minijava_compiler/Visitor1.java:107 | a filled class declaration still has its registered header |
| MemberRegistration.MainHeader | minijava_compiler/Visitor1.java:66 | the filled main class still has its registered header |
| MemberRegistration.ParentAt | minijava_compiler/Visitor1.java:153-156 | each class's parent is the class its declaration extends |
| MemberRegistration.DeclaredArranged | minijava_compiler/Visitor2.java:161-162 | after pass 1, the descriptors in class order have the declared names, parents and ancestors and are distinct |
| MemberRegistration.BlankList | minijava_compiler/Visitor1.java:66-69 | after pass 1 every descriptor is still empty |
| MemberRegistration.SuperSigsAgree | minijava_compiler/Visitor2.java:338-341 | the super signature read from the descriptors equals the one computed from the declarations |
| MemberRegistration.DoneHeaders | minijava_compiler/Visitor2.java:19-29 | every class filled so far keeps its header |
| MemberRegistration.DoneSupers | minijava_compiler/Visitor2.java:338-341 | the super signatures of a class's methods, read from filled ancestors, are the declared ones |
| MemberRegistration.FieldsApartStep | minijava_compiler/Visitor2.java:200 | the fields of different classes are distinct descriptors, one class further |
| MemberRegistration.BoundValid | minijava_compiler/MethodData.java:49-51 | a method whose map binds its parameters and locals, with distinct names, is well formed |
| MemberRegistration.ClassAtCovers | minijava_compiler/SymbolTable.java:5-6 | every registered class sits at some position of `classes` |
| MemberRegistration.BuiltValid | minijava_compiler/Visitor2.java:325-327 | every built method belongs to its class and is well formed |
| MemberRegistration.FilledDeclValid | minijava_compiler/Visitor2.java:158-269 | a filled class has distinct field and method names, and well-formed methods at offset 0 |
| MemberRegistration.FilledMainValid | minijava_compiler/Visitor2.java:51-138 | the filled main class has distinct names and a well-formed `main` at offset 0 |
| MemberRegistration.FilledClassValid | minijava_compiler/Visitor2.java:158-269 | a class of a filled table is well formed and not yet laid out |
| MemberRegistration.FilledValid | minijava_compiler/Visitor2.java:19-29 | a filled table's members are well formed and not yet laid out |
| MemberRegistration.FieldOwner | minijava_compiler/Visitor2.java:200 | a field belongs to one class only |
| MemberRegistration.NameDeclared | minijava_compiler/Visitor2.java:188-196 | true exactly when some descriptor of the list has the name |
| MemberRegistration.MainFieldScan | minijava_compiler/Visitor2.java:117-125 | the scan reports a clash exactly when the list is non-empty and the entry at the outer loop's index has the name, whatever the inner index |
| MemberRegistration.Visitor2.constructor | minijava_compiler/Visitor2.java:10-12 | the visitor works on the given table |
| MemberRegistration.Visitor2.VisitGoal | minijava_compiler/Visitor2.java:19-29 | the pass fails exactly as MembersCheck says; on success every class is filled as declared, the table's members are well formed, and nothing is laid out yet |
| MemberRegistration.Visitor2.VisitDecls | minijava_compiler/Visitor2.java:24-26 | the class declarations in order, up to the first failure |
| MemberRegistration.Visitor2.VisitDeclAt | minijava_compiler/Visitor2.java:144-148 | one class declaration is judged by ClassCheck, and the later classes stay empty |
| MemberRegistration.Visitor2.VisitTypeDecl | minijava_compiler/Visitor2.java:158-269 | the verdict is ClassCheck's against the ancestors' signatures; on success the class holds its fields (initialized exactly when the class extends another) and its methods |
| MemberRegistration.Visitor2.VisitClassFields | minijava_compiler/Visitor2.java:167-204 | the fields in order, judged by ListCheck; on success each field is described by its declaration |
| MemberRegistration.Visitor2.VisitField | minijava_compiler/Visitor2.java:174-202 | one field fails on an unknown type or on a name among the class's own earlier fields; otherwise it is appended |
| MemberRegistration.Visitor2.VisitMainClass | minijava_compiler/Visitor2.java:51-93 | the verdict is MainCheck's; on success the class holds one method `main` returning void |
| MemberRegistration.Visitor2.FillMain | minijava_compiler/Visitor2.java:80-135 | `main` gets one initialized parameter `args : String[]`, then its locals, judged on type only |
| MemberRegistration.Visitor2.VisitFormalParameters | minijava_compiler/Visitor2.java:412-476 | the parameters in order, judged by ListCheck; on success they are initialized descriptors bound in the combined map |
| MemberRegistration.Visitor2.VisitFormalParameter | minijava_compiler/Visitor2.java:423-457 | one parameter fails on an unknown type or a repeated name; otherwise it is appended initialized and bound |
| MemberRegistration.Visitor2.VisitMethodLocals | minijava_compiler/Visitor2.java:369-403 | the locals in order, judged against the parameter names; on success they are uninitialized descriptors bound in the combined map |
| MemberRegistration.Visitor2.VisitMethodLocal | minijava_compiler/Visitor2.java:376-401 | one local fails on an unknown type or a name clashing with a parameter or earlier local; otherwise it is appended uninitialized and bound |
| MemberRegistration.Visitor2.VisitMainLocals | minijava_compiler/Visitor2.java:96-135 | the main-method locals in order, judged on type only |
| MemberRegistration.Visitor2.VisitMainLocal | minijava_compiler/Visitor2.java:101-134 | one main-method local fails only on an unknown type; otherwise it is appended uninitialized and bound |
| MemberRegistration.Visitor2.CompareSignatures | minijava_compiler/Visitor2.java:343-364 | the verdict is OverrideCheck's on the two methods' signatures |
| MemberRegistration.Visitor2.CheckPolymorphism | minijava_compiler/Visitor2.java:338-366 | passes when no ancestor declares the name; otherwise judges the signature against the nearest ancestor's |
| MemberRegistration.Visitor2.VisitMethodDecl | minijava_compiler/Visitor2.java:295-327 | the verdict is MethodCheck's in the source's order (return type, duplicate, class name, then signature); on success the method is appended and built |
| MemberRegistration.Visitor2.BuildMethod | minijava_compiler/Visitor2.java:324-332 | a new method descriptor is appended and filled, judged by SignatureCheck |
| MemberRegistration.Visitor2.FillMethod | minijava_compiler/Visitor2.java:330-403 | the parameters, then the override check, then the locals, judged by SignatureCheck |
| MemberRegistration.Visitor2.VisitMethodDecls | minijava_compiler/Visitor2.java:207-209 | the methods of a class in order, judged by MethodsCheck |
| TypeChecking.MethodInScope | minijava_compiler/Visitor3.java:141-143 | a method a registered class declares is in scope for type checking |
| TypeChecking.FieldLookup | minijava_compiler/Visitor3.java:779-782 | a field found for a name has that name and belongs to the class or one of its ancestors |
| TypeChecking.Lookup | minijava_compiler/Visitor3.java:777-782 | a descriptor found for a name has that name and is one the method can see |
| TypeChecking.Callee | minijava_compiler/Visitor3.java:609-624 | a method found for a call has the called name |
| TypeChecking.CalleeListed | minijava_compiler/Visitor3.java:604-624 | the method a call on a registered class runs belongs to a registered class |
| TypeChecking.ListTypes | minijava_compiler/Visitor3.java:706-723 | typed arguments come one type per expression |
| TypeChecking.RunAll | minijava_compiler/Visitor3.java:180-186 | a run of checks passes exactly when every check passes |
| TypeChecking.RunAllStep | minijava_compiler/Visitor3.java:180-186 | one more check runs only when the run so far passed |
| TypeChecking.RunAllSticks | minijava_compiler/Visitor3.java:180-186 | once a prefix fails, the later checks are never run |
| TypeChecking.StoreMarksNothing | minijava_compiler/Visitor3.java:317-375 | an array assignment and a print mark nothing initialized |
| TypeChecking.ListTypesSticks | minijava_compiler/Visitor3.java:715-720 | once a prefix of the arguments fails to type, so does the whole list, with the same violation |
| TypeChecking.CoversAll | minijava_compiler/Visitor3.java:17-27 | a set holding every descriptor of the table covers what any method can name |
| TypeChecking.ScopeWithin | minijava_compiler/Visitor3.java:777-782 | every descriptor a method can name is a descriptor of the table |
| TypeChecking.Visitor3.constructor | minijava_compiler/Visitor3.java:7-11 | the visitor works on the given table |
| TypeChecking.Visitor3.Assignable | minijava_compiler/Visitor3.java:216-229 | true exactly when the types are equal or the value's registered class has the target as a strict ancestor |
| TypeChecking.Visitor3.FindField | minijava_compiler/Visitor3.java:779-782 | the class's own first field of the name, else the nearest ancestor's |
| TypeChecking.Visitor3.FindVariable | minijava_compiler/Visitor3.java:777-782 | the method's local or parameter of the name first, then the fields |
| TypeChecking.Visitor3.ResolveName | minijava_compiler/Visitor3.java:769-787 | the type of what the string names, or the string itself when it names nothing |
| TypeChecking.Visitor3.VisitExpression | minijava_compiler/Visitor3.java:431-433 | the type ExprType gives, or its first violation |
| TypeChecking.Visitor3.VisitAnd | minijava_compiler/Visitor3.java:440-453 | the typing of `&&` as ExprType gives it |
| TypeChecking.Visitor3.VisitIntOperator | minijava_compiler/Visitor3.java:460-537 | the typing of `<`, `+`, `-` and `*` as ExprType gives it |
| TypeChecking.Visitor3.VisitArrayLength | minijava_compiler/Visitor3.java:544-555 | the typing of `.length` as ExprType gives it |
| TypeChecking.Visitor3.VisitArrayLookup | minijava_compiler/Visitor3.java:563-580 | the typing of `a[i]` as ExprType gives it |
| TypeChecking.Visitor3.VisitMessageSend | minijava_compiler/Visitor3.java:590-600 | the receiver is typed, `this` resolved to the enclosing class, then the call typed as SendType gives it |
| TypeChecking.Visitor3.VisitSend | minijava_compiler/Visitor3.java:602-677 | the type of a call on a receiver class, as SendType gives it |
| TypeChecking.Visitor3.FindCalledMethod | minijava_compiler/Visitor3.java:609-624 | the receiver class's own method of the name, else the nearest ancestor's, else null |
| TypeChecking.Visitor3.VisitCall | minijava_compiler/Visitor3.java:626-676 | the called method's return type once the arguments check, as CallType gives it |
| TypeChecking.Visitor3.CheckArguments | minijava_compiler/Visitor3.java:646-672 | passes exactly when each argument type, with `this` resolved, is equal or upcast to its parameter's type |
| TypeChecking.Visitor3.VisitExpressionList | minijava_compiler/Visitor3.java:683-701 | the types of the first argument and the rest, in order, up to the first violation |
| TypeChecking.Visitor3.VisitExpressionTail | minijava_compiler/Visitor3.java:706-723 | the types of the remaining arguments, in order, up to the first violation |
| TypeChecking.Visitor3.VisitClause | minijava_compiler/Visitor3.java:737-757 | the type of a clause as ClauseType gives it |
| TypeChecking.Visitor3.VisitPrimary | minijava_compiler/Visitor3.java:769-787 | the type of a primary expression: its alternative's result, resolved as a name |
| TypeChecking.Visitor3.VisitAlternative | minijava_compiler/Visitor3.java:792-868 | what a literal, identifier, `this`, allocation or bracket produces before name resolution |
| TypeChecking.Visitor3.CheckAssignedValue | minijava_compiler/Visitor3.java:209-229 | the value's violation, else a pass exactly when its type with `this` resolved fits the target type |
| TypeChecking.Visitor3.VisitStatement | minijava_compiler/Visitor3.java:170-173 | the outcome StmtEffect gives, and exactly the descriptors it marks become initialized |
| TypeChecking.Visitor3.VisitBlock | minijava_compiler/Visitor3.java:180-186 | the statements of a block in order, up to the first failure, with their marks |
| TypeChecking.Visitor3.VisitStatements | minijava_compiler/Visitor3.java:181-183 | a statement list in order, up to the first failure; a descriptor is initialized afterwards exactly when it was before or a passing assignment marked it |
| TypeChecking.Visitor3.VisitAssignment | minijava_compiler/Visitor3.java:194-306 | an unresolvable target fails; otherwise the value is checked against the target type and, on a pass, the resolved descriptor is marked initialized |
| TypeChecking.Visitor3.CheckAssignment | minijava_compiler/Visitor3.java:202-303 | finds the target in scope order and checks the value against its type; an unknown target fails |
| TypeChecking.Visitor3.CheckLocalAssignment | minijava_compiler/Visitor3.java:203-232 | a local or parameter target is checked against its binding in the combined map; the descriptor marked is the first local, else parameter, of the name |
| TypeChecking.Visitor3.CheckFieldAssignment | minijava_compiler/Visitor3.java:235-303 | a field target is the class's own field, else the nearest ancestor's; none fails as unknown |
| TypeChecking.Visitor3.VisitArrayAssignment | minijava_compiler/Visitor3.java:317-363 | fails on an unresolvable target, a target that is not `int[]`, an index not `int` or a value not `int`, in that order |
| TypeChecking.Visitor3.CheckStoredValue | minijava_compiler/Visitor3.java:346-360 | the index must be `int`, then the value must be `int` |
| TypeChecking.Visitor3.VisitPrint | minijava_compiler/Visitor3.java:372-375 | fails only when the printed expression fails to type |
| TypeChecking.Visitor3.CheckCondition | minijava_compiler/Visitor3.java:388-392 | a condition passes exactly when it types as `boolean` |
| TypeChecking.Visitor3.VisitIf | minijava_compiler/Visitor3.java:386-398 | a boolean condition, then both branches in order, with their marks |
| TypeChecking.Visitor3.VisitBranches | minijava_compiler/Visitor3.java:394-395 | the then-branch, then, unless it failed, the else-branch |
| TypeChecking.Visitor3.VisitWhile | minijava_compiler/Visitor3.java:407-418 | a boolean condition, then the body once, with its marks |
| TypeChecking.Visitor3.CheckReturn | minijava_compiler/Visitor3.java:149-154 | passes exactly when the return expression's type is the declared return type, with no upcast and no `this` resolution |
| TypeChecking.Visitor3.VisitMethodDeclaration | minijava_compiler/Visitor3.java:135-160 | the method's statements, then its return check, as MethodEffect gives them, with their marks |
| TypeChecking.Visitor3.VisitMethodBody | minijava_compiler/Visitor3.java:145-154 | the body statements in order, then, unless they failed, the return check |
| TypeChecking.Visitor3.VisitMethodDeclarations | minijava_compiler/Visitor3.java:90-91 | a class's methods in order, up to the first failure |
| TypeChecking.Visitor3.VisitTypeDeclaration | minijava_compiler/Visitor3.java:70-118 | a class declaration's methods, as DeclEffect gives them |
| TypeChecking.Visitor3.VisitTypeDeclarations | minijava_compiler/Visitor3.java:22-24 | the class declarations in order, up to the first failure |
| TypeChecking.Visitor3.VisitMainClass | minijava_compiler/Visitor3.java:49-64 | the statements of `main`, as MainEffect gives them |
| TypeChecking.Visitor3.VisitGoal | minijava_compiler/Visitor3.java:17-27 | the pass ends as ProgramEffect says; afterwards a descriptor of the table is initialized exactly when it was before or a passing assignment marked it |
| TypeCheckingFacts.AndTyping | minijava_compiler/Visitor3.java:440-453 | `&&` types exactly when both operands are boolean, giving boolean; an operand's violation is passed on |
| TypeCheckingFacts.NotTyping | minijava_compiler/Visitor3.java:745-757 | `!` types exactly when its operand is boolean, giving boolean; any other operand type fails |
| TypeCheckingFacts.IntOperatorTyping | minijava_compiler/Visitor3.java:460-537 | `<`, `+`, `-` and `*` type exactly when both operands are int, giving boolean for `<` and int otherwise; other operand types fail |
| TypeCheckingFacts.LengthTyping | minijava_compiler/Visitor3.java:544-555 | `.length` types exactly when its operand is `int[]`, giving int |
| TypeCheckingFacts.LookupTyping | minijava_compiler/Visitor3.java:563-580 | `a[i]` types exactly when `a` is `int[]` and `i` is int, giving int; a non-array fails before the index is checked |
| TypeCheckingFacts.IdentifierTyping | minijava_compiler/Visitor3.java:769-787 | an identifier names a local or parameter first, then an own field, then the nearest ancestor's field; a name nothing declares comes out as itself |
| TypeCheckingFacts.LiteralTyping | minijava_compiler/Visitor3.java:792-822 | an integer literal is int, true and false are boolean, and `this` is the transient type `this`, unless a variable of that name shadows them |
| TypeCheckingFacts.ArrayAllocationTyping | minijava_compiler/Visitor3.java:831-841 | `new int[e]` types exactly when `e` is int, giving `int[]` |
| TypeCheckingFacts.AllocationTyping | minijava_compiler/Visitor3.java:849-859 | `new C()` types exactly when `C` is registered, giving `C` unless a variable named `C` shadows it |
| TypeCheckingFacts.BracketTyping | minijava_compiler/Visitor3.java:866-868 | `(e)` has the type of `e` |
| TypeCheckingFacts.CallTyping | minijava_compiler/Visitor3.java:602-677 | an unregistered receiver class and a method neither it nor an ancestor declares fail; without an argument list the call gives the return type unchecked; with one, a method without parameters fails, and otherwise the call types exactly when the counts match and each argument with `this` resolved fits its parameter, giving the return type |
| TypeCheckingFacts.SendTyping | minijava_compiler/Visitor3.java:590-600 | a receiver's violation is passed on, and a `this` receiver calls into the enclosing class |
| TypeCheckingFacts.CalleeNearest | minijava_compiler/Visitor3.java:609-624 | a call runs the receiver class's own method when it has one, else that of the nearest ancestor declaring the name; none exactly when no class on the chain declares it |
| TypeCheckingFacts.CompatibleReflexive | minijava_compiler/Visitor3.java:216 | every type fits itself |
| TypeCheckingFacts.CompatibleUpcast | minijava_compiler/Visitor3.java:216-228 | a different type fits exactly when it is a registered class with an ancestor of the target name |
| TypeCheckingFacts.AssignRule | minijava_compiler/Visitor3.java:194-306 | an unresolvable target fails as unknown; otherwise the assignment passes exactly when the value types and fits the target type with `this` resolved; it marks the resolved descriptor exactly when it passes |
| TypeCheckingFacts.ArrayAssignRule | minijava_compiler/Visitor3.java:317-363 | an array assignment passes exactly when the target is an `int[]` variable and index and value are int, and it marks nothing |
| TypeCheckingFacts.ConditionRule | minijava_compiler/Visitor3.java:386-418 | `if` and `while` pass only with a boolean condition; an `if` with one passes exactly when both branches do, and a `while` with one is checked as its body |
| TypeCheckingFacts.ReturnRule | minijava_compiler/Visitor3.java:149-154 | the return check passes exactly when the expression's type is the declared return type, and marks nothing |
| TypeCheckingFacts.ReturnThisRejected | minijava_compiler/Visitor3.java:149-154 | `return this;` is rejected, because the transient type `this` is not resolved at the return check |
| TypeCheckingFacts.RunAllMarksWithin | minijava_compiler/Visitor3.java:180-186 | a run of checks marks only what its checks mark |
| TypeCheckingFacts.MarksWithinScope | minijava_compiler/Visitor3.java:194-418 | checking a statement marks only descriptors the method can see |
| TypeCheckingFacts.StatementsMarkWithinScope | minijava_compiler/Visitor3.java:180-186 | checking a statement list marks only descriptors the method can see |
| TypeCheckingFacts.ProgramMarksDescriptors | minijava_compiler/Visitor3.java:17-27 | type checking a program marks only descriptors of the table |

## Left out

- The driver (reading files, building the parser, per-file exception handling) is not part of this model; the program arrives as a `Syntax.Goal` value.
- The generated syntax-tree classes and their depth-first visitor framework are not modelled; the `Syntax` datatypes mirror the grammar and the visitors dispatch by `match`.
- Error messages and exit statuses are not modelled. Every exit becomes one `ErrorKind`, so the differing `exit(1)` and `exit(-1)` calls are not told apart.
- printSymbolTable's text is not modelled: its string building, number formatting and console output. `PrintSymbolTable` returns the selected entries as (owner, name, offset) values per class.
- A call whose receiver type is not a registered class dereferences null in the source. The model reports that case as `UnknownClass`.
- `IsInteger` accepts only the ASCII digits `0`-`9`. The source's `Character.digit` also accepts other Unicode decimal digits.
- The source evaluates a method's return expression a second time after the return check. The model evaluates it once. The second evaluation only re-types an expression, and typing marks nothing.
- `SymbolTables.SymbolTable.SetOffsets` requires that all cursors start at 0. The source does not reset the cursors of parentless classes, so a second run would continue from the old values. The driver calls it once.
- No offset or cursor wraps around: integers are unbounded, while the source uses 32-bit `int`.
- `Data.Data.SetName` is modelled on the stand-alone `Data` class only. Dafny classes here have no subclassing. The name, type, owner, return type and parent of the other descriptors are constants, because the source never writes them after construction.
- Calls pass their argument types as a sequence. The source joins them into a space-separated string and splits it again, and for type names, which never contain spaces, that round trip gives back the same sequence.
- TypeChecking.Visitor3.VisitGoal requires that every class and method the program declares is registered, as passes 1 and 2 leave the table. Only then is the third pass run.
- MemberRegistration.MainFieldScan requires a valid index whenever the field list is non-empty. The source would throw there instead, but the main class has no fields, so that case never arises.
- TypeChecking.Visitor3.VisitArrayAssignment and TypeChecking.Visitor3.VisitPrint state only the outcome in their own contracts. That these statements mark nothing is proved separately, by `TypeChecking.StoreMarksNothing`.
- TypeCheckingFacts.LiteralTyping and TypeCheckingFacts.AllocationTyping state the literal types only when no visible variable shares the produced name. The source resolves every primary's result as a name, so such a variable's type replaces the literal's (`IdentifierTyping` covers that case).
- Two `setOffsets` behaviours are modelled as written:
  - A parented class without fields is never seeded from its parent, so its cursor stays 0 (`Layout.EmptyClassKeepsCursor`).
  - When a class's first method overrides one of its parent's, the method cursor is not seeded either (`Layout.ParentedMethodSeeding`).
- Visitor methods take a ghost set of descriptors whose flags they may change. That set is the table's descriptors, or a set covering the method's scope.
