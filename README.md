# Fusion schema traversal and decision engine, in Dafny

Fusion turns an XML Schema type graph, held in memory, into an example XML
document. This project models the heart of that: the engine that walks the
type graph depth first and finds every place where a caller could decide
which implementation of a complex type to follow.

Three parts are modelled.

- **The registry** (`Core.kt`). `KnownBuildingBlocks` keeps two maps:
  - from `QName` to structures;
  - from `QName` to top-level elements.

  Adding an entry overwrites any entry with the same name. The registry also
  answers lookups and the direct-subtype query. `ElementStack` is the older
  element stack, with its own path rendering and recursion guard.
- **The path stack and decisions** (`ElementTraverser.kt`, lines 1-93):
  - `TrackStack` renders a canonical path such as `/a/b[impl=X]`, and
    answers the recursion-guard query;
  - `Decisions` returns the first implementation decision whose path matches;
  - `PossibleOptions` collects every fork the traversal signals.
- **The traversal** (`ElementTraverser.kt`, lines 105-246). `ElementTraverser`:
  - pushes the element;
  - resolves its structure;
  - expands a complex type into all its concrete implementations,
    transitively over `extensionOf`;
  - follows the decided implementation, or all of them after signalling a
    fork;
  - descends into sequence and choice groups, skipping fields that the
    recursion guard stops;
  - pops what it pushed.

It also models the regex-override lookup of `RenderingConfig.kt`.

The traversal is stated twice:
- the pure functions `ElementRun`, `ImplementationsRun`, `FollowRun`,
  `ChildrenRun`, `GroupRun` and `ChildRun` say what a walk reports: the forks
  it signals, in order, and the error that ends it, if any;
- the methods of the class `ElementTraverser` work on a mutable `TrackStack`
  and an appended `options` log, and each is proved to report exactly what
  its function says.

The module `TraversalProperties` proves what the reports mean:
- every fork lists the names of all implementations of some complex type
  that has several;
- a decision for the current path makes the traversal follow exactly the
  decided type, without a fork;
- without a decision, all implementations are followed;
- a missing type stops the walk with an error.

The code has an oddity, modelled as written: `traverseElement` pushes the
element (`ElementTraverser.kt:114`), and `traverseComplexTypeChildren`
pushes it again (`ElementTraverser.kt:157`). So a complex element appears
twice in nested paths. The impl marker lands on the lower of the two copies.

The declarations of `ComplexType`, `SequenceOfElements`, `ChoiceOfElements`,
`Trackable` and `KnownBuildingBlocks.getParentTypesFor` are not part of this
model's sources. They are modelled from their use in `ElementTraverser.kt`:
- `ComplexType(name, children, isAbstract, extensionOf)` is shaped like
  `GroupOfSimpleFields` (`Core.kt:60-67`);
- the parent types are the chain of registered types that a type extends,
  root first;
- `Trackable.shortName()` is taken to be the display name of an element, and
  "Sequence" or "Choice" for a group. The group names are assumed.

## Model

| member | source | states |
|---|---|---|
| Core.ElementStack.constructor | src/main/kotlin/be/geoffrey/fusion/Core.kt:69-70 | A new element stack is empty. |
| Core.ElementStack.IsEmpty | src/main/kotlin/be/geoffrey/fusion/Core.kt:72 | True exactly when the stack holds no element. |
| Core.ElementStack.Size | src/main/kotlin/be/geoffrey/fusion/Core.kt:74 | The number of elements on the stack. It is 0 exactly when the stack is empty. |
| Core.ElementStack.Push | src/main/kotlin/be/geoffrey/fusion/Core.kt:76 | The stack grows by exactly the pushed item on top. |
| Core.ElementStack.Pop | src/main/kotlin/be/geoffrey/fusion/Core.kt:78-84 | On a non-empty stack: returns the last item and removes only it. On an empty stack: returns None and the stack stays empty. |
| Core.ElementStack.Peek | src/main/kotlin/be/geoffrey/fusion/Core.kt:86 | Returns the top item without removing it. Returns None exactly when the stack is empty. |
| Core.ElementStack.VisualizePath | src/main/kotlin/be/geoffrey/fusion/Core.kt:88-96 | The empty stack renders as "/", a single element as "/" and its display name. A deeper stack renders as the path of everything below the top, then "/" and the top's display name. |
| Core.PathOfPush | src/main/kotlin/be/geoffrey/fusion/Core.kt:88-96 | Pushing extends the visualized path by "/" and the pushed element's display name: the local name of a top-level element, the name of a field. |
| Core.VisualizePathExample | src/main/kotlin/be/geoffrey/fusion/Core.kt:88-96 | A stack holding only the top-level element `element` renders as "/element". |
| Core.VisualizeNestedPathExample | src/main/kotlin/be/geoffrey/fusion/Core.kt:88-96 | Pushing the field `AField` on top renders "/element/AField". |
| Core.OccurrencesPush | src/main/kotlin/be/geoffrey/fusion/Core.kt:100-108 | The element stack's guard counts every entry whose structure reference is the type, top-level elements included. A push adds one to the count exactly when the pushed entry refers to that type. |
| Core.OccurrencesCountsPositions | src/main/kotlin/be/geoffrey/fusion/Core.kt:103-105 | The guard's count is the number of stack positions whose structure reference is the type. |
| Core.ElementStack.RecursionWillStartWhenAdding | src/main/kotlin/be/geoffrey/fusion/Core.kt:100-108 | True exactly when at least `maxDepth` (by default 2) stack positions refer to the added element's type. |
| Core.PathIndicationScenario | src/test/kotlin/be/geoffrey/fusion/ElementStackTest.kt:8-21 | Pushing a top-level element `element` and the field `AField` renders "/element/AField". After a pop it renders "/element". |
| Core.RecursionScenario | src/test/kotlin/be/geoffrey/fusion/ElementStackTest.kt:23-37 | With one `AField` of the type on the stack, adding another does not trip the guard. With a second copy pushed, it does. |
| Core.RecursionGuardExample | src/main/kotlin/be/geoffrey/fusion/Core.kt:100-108 | One earlier field of the type gives a count of 1, below the default depth 2. Two such fields give 2, which trips the guard. |
| Core.KnownBuildingBlocks.constructor | src/main/kotlin/be/geoffrey/fusion/Core.kt:119-128 | The registry holds the default structures, each under its own name, with the last one added under a name winning. It holds no elements. |
| Core.KnownBuildingBlocks.AddStructure | src/main/kotlin/be/geoffrey/fusion/Core.kt:130-132 | The structure is stored under its own QName, overwriting. Looking that name up returns it, every other name looks up as before, and the elements are untouched. |
| Core.KnownBuildingBlocks.AddElement | src/main/kotlin/be/geoffrey/fusion/Core.kt:134-136 | The element is stored under its name, overwriting. Looking that name up returns it, every other name looks up as before, and the structures are untouched. |
| Core.KnownBuildingBlocks.AddAllOfOther | src/main/kotlin/be/geoffrey/fusion/Core.kt:138-146 | Both maps become the receiver's map overridden by the other's: on a shared name the incoming entry wins, and names only the receiver holds keep their entries. The other registry is not modified. |
| Core.KnownBuildingBlocks.AddStructures | src/main/kotlin/be/geoffrey/fusion/Core.kt:139-141 | Adding every structure of a map, in its iteration order, leaves the receiver's structures overridden by that map. |
| Core.KnownBuildingBlocks.AddElements | src/main/kotlin/be/geoffrey/fusion/Core.kt:143-145 | Adding every element of a map, in its iteration order, leaves the receiver's elements overridden by that map. |
| Core.KnownBuildingBlocks.GetElement | src/main/kotlin/be/geoffrey/fusion/Core.kt:148-150 | Returns the element stored under the name, and None exactly when there is none. In a valid registry the element found has that name. |
| Core.KnownBuildingBlocks.GetStructure | src/main/kotlin/be/geoffrey/fusion/Core.kt:152-154 | Returns the structure stored under the name, and None exactly when there is none. In a valid registry the structure found has that name. |
| Core.KnownBuildingBlocks.GetStructureByPartOfName | src/main/kotlin/be/geoffrey/fusion/Core.kt:156-164 | A result is a stored structure whose name is in the namespace and contains the fragment, and it is the first such name in iteration order. None is returned exactly when no stored name matches. |
| Core.KnownBuildingBlocks.GetConcreteImplementationsFor | src/main/kotlin/be/geoffrey/fusion/Core.kt:166-170 | Lists exactly the registered complex types whose `extensionOf` is the name, abstract or not, each once. |
| Core.SubtypesInExactly | src/main/kotlin/be/geoffrey/fusion/Core.kt:166-170 | The filter over the iteration order keeps a type exactly when it is a stored complex type that directly extends the name. |
| Core.SubtypesInDistinct | src/main/kotlin/be/geoffrey/fusion/Core.kt:166-170 | When the iteration order lists each name once, no type is listed twice. |
| Core.XmlBuildingBlocks | src/main/kotlin/be/geoffrey/fusion/Core.kt:111-117 | A fresh registry resolves XML Schema `string`, `boolean` and `int` to the string, boolean and number fields, and holds no elements. |
| Tracking.TrackStack.constructor | src/main/kotlin/be/geoffrey/fusion/ElementTraverser.kt:5-7 | A new path stack is empty. |
| Tracking.TrackStack.Size | src/main/kotlin/be/geoffrey/fusion/ElementTraverser.kt:11 | The number of entries on the stack. |
| Tracking.TrackStack.Push | src/main/kotlin/be/geoffrey/fusion/ElementTraverser.kt:13 | The stack grows by exactly one entry, with empty metadata. |
| Tracking.TrackStack.PushWithMarker | src/main/kotlin/be/geoffrey/fusion/ElementTraverser.kt:15-17 | The stack grows by exactly one entry, carrying the given marker. |
| Tracking.TrackStack.Pop | src/main/kotlin/be/geoffrey/fusion/ElementTraverser.kt:19-25 | On a non-empty stack: returns the last pair and removes only it. On an empty stack: returns None and the stack stays empty. |
| Tracking.TrackStack.SetCurrentImplementationMarker | src/main/kotlin/be/geoffrey/fusion/ElementTraverser.kt:53-56 | Sets the marker of the current (top) entry's metadata. Every other entry is unchanged. |
| Tracking.TrackStack.ToString | src/main/kotlin/be/geoffrey/fusion/ElementTraverser.kt:27-38 | The empty stack renders as "/", a single entry as "/" and its label. A deeper stack renders as the path of everything below the top, then "/" and the top's label. |
| Tracking.PathStringPush | src/main/kotlin/be/geoffrey/fusion/ElementTraverser.kt:27-38 | The empty stack renders as "/". Pushing extends the path by "/" and the entry's label: its short name, then "[impl=<local name>]" when it carries a marker. |
| Tracking.MarkerShowsLocalNameOnly | src/main/kotlin/be/geoffrey/fusion/ElementTraverser.kt:32-34 | A marked entry renders its short name then "[impl=" + local name + "]". Two markers that differ only in namespace render alike. |
| Tracking.ElementOccurrencesPush | src/main/kotlin/be/geoffrey/fusion/ElementTraverser.kt:40-51 | A push adds one to the guard's count exactly when the entry is a field of the type. Top-level elements and groups never count. |
| Tracking.ElementOccurrencesCountsPositions | src/main/kotlin/be/geoffrey/fusion/ElementTraverser.kt:40-51 | The guard's count is the number of stack positions holding a field whose structure reference is the type. |
| Tracking.TrackStack.RecursionWillStartWhenAdding | src/main/kotlin/be/geoffrey/fusion/ElementTraverser.kt:40-51 | True exactly when at least `maxDepth` (by default 2) stack positions hold a field of the added element's type. |
| Tracking.ElementOccurrencesIgnoreMarkers | src/main/kotlin/be/geoffrey/fusion/ElementTraverser.kt:40-51 | Setting a marker does not change the guard's count. |
| Tracking.WithMarkerTwice | src/main/kotlin/be/geoffrey/fusion/ElementTraverser.kt:129-131 | Setting the marker again replaces the previous one, so only the last implementation followed shows. |
| Tracking.GetImplementationDecision | src/main/kotlin/be/geoffrey/fusion/ElementTraverser.kt:67-71 | A decision found is one of the decisions, and its path is the queried path. |
| Tracking.GetImplementationDecisionFirst | src/main/kotlin/be/geoffrey/fusion/ElementTraverser.kt:67-71 | The decision found is the first in list order whose path matches. None is returned exactly when no decision has that path. |
| Hierarchy.MoreSpecificSound | src/main/kotlin/be/geoffrey/fusion/ElementTraverser.kt:197-208 | Every type listed extends the given type, directly or through a chain of registered types. |
| Hierarchy.MoreSpecificComplete | src/main/kotlin/be/geoffrey/fusion/ElementTraverser.kt:197-208 | Every registered type that extends the given type, directly or transitively, is listed. |
| Hierarchy.MoreSpecificClosed | src/main/kotlin/be/geoffrey/fusion/ElementTraverser.kt:197-208 | A registered direct subtype of a listed type is itself listed. |
| Hierarchy.DescendantsSource | src/main/kotlin/be/geoffrey/fusion/ElementTraverser.kt:201-206 | Every type gathered from the direct subtypes comes from one of them: it is among that subtype's own more-specific types. |
| Hierarchy.DescendantsIncludes | src/main/kotlin/be/geoffrey/fusion/ElementTraverser.kt:201-206 | Every more-specific type of each direct subtype is gathered. |
| Hierarchy.NotSelfExtending | src/main/kotlin/be/geoffrey/fusion/ElementTraverser.kt:197-208 | No registered type extends itself, so a type is never among its own more-specific types. |
| Hierarchy.SiblingsUnrelated | src/main/kotlin/be/geoffrey/fusion/ElementTraverser.kt:197-208 | Two direct subtypes of the same type never extend one another. |
| Hierarchy.AncestorsChain | src/main/kotlin/be/geoffrey/fusion/ElementTraverser.kt:197-208 | Each type names a single parent, so of two types that one type extends, one extends the other. |
| Hierarchy.MoreSpecificDistinct | src/main/kotlin/be/geoffrey/fusion/ElementTraverser.kt:197-208 | The more-specific types are listed without repeats. |
| Hierarchy.DescendantsDistinct | src/main/kotlin/be/geoffrey/fusion/ElementTraverser.kt:201-206 | The types gathered from distinct direct subtypes are listed without repeats: their subtrees are disjoint. |
| Hierarchy.AllConcreteExactly | src/main/kotlin/be/geoffrey/fusion/ElementTraverser.kt:186-195 | The implementations are the type itself, first, exactly when it is not abstract. After it come exactly the registered types that reach it through `extensionOf`. No implementation is listed twice, so the list length counts distinct types. |
| Hierarchy.ParentTypesAreAncestors | src/main/kotlin/be/geoffrey/fusion/ElementTraverser.kt:210-222 | Every parent type whose children are inherited is one that the type extends. |
| Hierarchy.ParentTypesComplete | src/main/kotlin/be/geoffrey/fusion/ElementTraverser.kt:210-222 | Every registered type that the type extends is a parent type whose children are inherited. |
| Traversal.DecidePaths | src/main/kotlin/be/geoffrey/fusion/ElementTraverser.kt:147-153 | Without a decision for the path, every possible implementation is kept. With one, exactly the decided type is kept when it is a registered complex type. Otherwise the result is the error for a decided type that is not complex. |
| Traversal.Fork | src/main/kotlin/be/geoffrey/fusion/ElementTraverser.kt:123-125 | At most one fork is signalled, and one is signalled exactly when more than one path is followed. |
| Traversal.FollowRunStops | src/main/kotlin/be/geoffrey/fusion/ElementTraverser.kt:127-136 | Once following an implementation fails, following more of them reports nothing further and keeps that error. |
| Traversal.GroupRunStops | src/main/kotlin/be/geoffrey/fusion/ElementTraverser.kt:227-244 | Once a child fails, the children after it report nothing further and the error is kept. |
| Traversal.FollowedKeepsBelow | src/main/kotlin/be/geoffrey/fusion/ElementTraverser.kt:127-136 | Following implementations only re-marks the top entry: the stack keeps its height and everything below the top. |
| Traversal.OpenPush | src/main/kotlin/be/geoffrey/fusion/ElementTraverser.kt:40-51 | Pushing an entry never reopens a type the guard has closed. Only a field can close one. |
| Traversal.OpenMarked | src/main/kotlin/be/geoffrey/fusion/ElementTraverser.kt:129-131 | Setting a marker on the top entry leaves the set of types the guard still lets through unchanged. |
| Traversal.FieldCloses | src/main/kotlin/be/geoffrey/fusion/ElementTraverser.kt:112-162 | A field of a registered type that passes the guard (lines 229-233) is pushed twice: once by the element walk (line 114) and once by the children walk (line 157). After both pushes the guard stops every further field of that type, so a self-referencing field nests only once. The type was open before and is closed after, so strictly fewer types stay open. |
| Traversal.StructureRunFuel | src/main/kotlin/be/geoffrey/fusion/ElementTraverser.kt:116-142 | With fuel past the number of types the guard lets through, walking a structure never runs out of fuel. |
| Traversal.ImplementationsRunFuel | src/main/kotlin/be/geoffrey/fusion/ElementTraverser.kt:120-136 | Likewise for picking and following implementations. |
| Traversal.FollowRunFuel | src/main/kotlin/be/geoffrey/fusion/ElementTraverser.kt:127-136 | Likewise for following each implementation in turn. |
| Traversal.ChildrenRunFuel | src/main/kotlin/be/geoffrey/fusion/ElementTraverser.kt:155-162 | Likewise for walking a complex type's children. |
| Traversal.GroupRunFuel | src/main/kotlin/be/geoffrey/fusion/ElementTraverser.kt:224-245 | Likewise for walking a group's children. |
| Traversal.ChildRunFuel | src/main/kotlin/be/geoffrey/fusion/ElementTraverser.kt:229-240 | Likewise for one child: a field the guard lets through closes its type before the walk goes deeper. |
| Traversal.EnoughFuel | src/main/kotlin/be/geoffrey/fusion/ElementTraverser.kt:112-145 | Fuel two past the number of open types is enough for an element walk to end for a reason of the program's own. |
| Traversal.EnoughFuelFromScratch | src/main/kotlin/be/geoffrey/fusion/ElementTraverser.kt:112-145 | From an empty stack, fuel two past the number of registered types is enough: the Kotlin walk always terminates. |
| Traversal.StructureRunSameFuel | src/main/kotlin/be/geoffrey/fusion/ElementTraverser.kt:116-142 | Past the bound, more fuel gives the same structure walk. |
| Traversal.ImplementationsRunSameFuel | src/main/kotlin/be/geoffrey/fusion/ElementTraverser.kt:120-136 | Past the bound, more fuel gives the same implementations walk. |
| Traversal.FollowRunSameFuel | src/main/kotlin/be/geoffrey/fusion/ElementTraverser.kt:127-136 | Past the bound, more fuel gives the same walk over the followed implementations. |
| Traversal.ChildrenRunSameFuel | src/main/kotlin/be/geoffrey/fusion/ElementTraverser.kt:155-162 | Past the bound, more fuel gives the same children walk. |
| Traversal.GroupRunSameFuel | src/main/kotlin/be/geoffrey/fusion/ElementTraverser.kt:224-245 | Past the bound, more fuel gives the same group walk. |
| Traversal.ChildRunSameFuel | src/main/kotlin/be/geoffrey/fusion/ElementTraverser.kt:229-240 | Past the bound, more fuel gives the same walk of one child. |
| Traversal.ElementRunSameFuel | src/main/kotlin/be/geoffrey/fusion/ElementTraverser.kt:112-145 | Any two amounts of fuel past the bound give the same forks and the same error, so the bound stands in for Kotlin's unbounded recursion. |
| Traversal.ElementTraverser.constructor | src/main/kotlin/be/geoffrey/fusion/ElementTraverser.kt:105-106 | The traverser reads the given registry and decisions, and starts with no recorded choices. |
| Traversal.ElementTraverser.GetChoices | src/main/kotlin/be/geoffrey/fusion/ElementTraverser.kt:90-92 | Returns the recorded choices, in the order they were signalled. |
| Traversal.ElementTraverser.SignalThatChoosingAnImplementationIsPossible | src/main/kotlin/be/geoffrey/fusion/ElementTraverser.kt:85-88 | Appends `ImplementationChoice(path of the stack, possibilities)` to the recorded choices. |
| Traversal.ElementTraverser.TraverseElement | src/main/kotlin/be/geoffrey/fusion/ElementTraverser.kt:112-145 | Reports exactly the forks, in order, and the error of the walk `ElementRun` defines. When no error occurs, the stack is back to what it was. |
| Traversal.ElementTraverser.TraverseStructure | src/main/kotlin/be/geoffrey/fusion/ElementTraverser.kt:116-142 | A missing structure gives the error for an unregistered type. A simple field reports nothing. A complex type follows its implementations. All of this is as `StructureRun` defines it, and below the top the stack is kept. |
| Traversal.ElementTraverser.TraverseImplementations | src/main/kotlin/be/geoffrey/fusion/ElementTraverser.kt:120-136 | Picks the paths to follow with the decisions, then signals and follows them, reporting what `ImplementationsRun` defines. |
| Traversal.ElementTraverser.SignalAndFollow | src/main/kotlin/be/geoffrey/fusion/ElementTraverser.kt:123-136 | Signals a fork at the current path exactly when more than one path is followed, then follows each path in order. |
| Traversal.ElementTraverser.FollowImplementations | src/main/kotlin/be/geoffrey/fusion/ElementTraverser.kt:127-136 | Follows every path in order, stopping at the first error, and reports what `FollowRun` defines. Afterwards the top entry carries the last marker set. |
| Traversal.ElementTraverser.FollowNext | src/main/kotlin/be/geoffrey/fusion/ElementTraverser.kt:127-136 | One iteration of the loop: extends the report and the stack state from the first i paths followed to the first i + 1. |
| Traversal.ElementTraverser.FollowImplementation | src/main/kotlin/be/geoffrey/fusion/ElementTraverser.kt:129-135 | Marks the top entry with the implementation's name only when several implementations were possible, then descends into it. |
| Traversal.ElementTraverser.TraverseComplexTypeChildren | src/main/kotlin/be/geoffrey/fusion/ElementTraverser.kt:155-162 | An abstract type is skipped. Otherwise the element is pushed again, the type's children, inherited ones included, are walked, and the stack is restored. |
| Traversal.ElementTraverser.TraverseChoice | src/main/kotlin/be/geoffrey/fusion/ElementTraverser.kt:164-173 | Pushes the choice group, walks all of its children when it has any, and restores the stack. |
| Traversal.ElementTraverser.TraverseSequence | src/main/kotlin/be/geoffrey/fusion/ElementTraverser.kt:175-184 | Pushes the sequence group, walks all of its children when it has any, and restores the stack. |
| Traversal.ElementTraverser.TraverseGroupChildren | src/main/kotlin/be/geoffrey/fusion/ElementTraverser.kt:224-245 | Walks the children in order, stopping at the first error. The stack is the same afterwards. |
| Traversal.ElementTraverser.TraverseChild | src/main/kotlin/be/geoffrey/fusion/ElementTraverser.kt:229-240 | A field that the recursion guard stops is skipped. Any other field is traversed as an element, and a sequence or choice is walked as a group. |
| Traversal.ElementTraverser.AllConcreteImplementations | src/main/kotlin/be/geoffrey/fusion/ElementTraverser.kt:186-195 | Returns `AllConcrete`: the type unless abstract, then its more-specific types. `Hierarchy.AllConcreteExactly` characterises that list. |
| Traversal.ElementTraverser.FindAllMoreSpecificImplementations | src/main/kotlin/be/geoffrey/fusion/ElementTraverser.kt:197-208 | Returns the direct subtypes, then the more-specific types of each in turn. The `Hierarchy` lemmas show that this is exactly the transitive subtypes. |
| Traversal.ElementTraverser.AllChildrenIncludingOnesFromParentTypes | src/main/kotlin/be/geoffrey/fusion/ElementTraverser.kt:210-222 | Returns the children of every parent type, root first, followed by the type's own children. |
| Traversal.PossibleOptions | src/main/kotlin/be/geoffrey/fusion/ElementTraverser.kt:73-93 | The choices collected for a top-level element on a fresh stack are the forks of its walk, in the order they were signalled. The walk never runs out of its fuel bound. |
| TraversalProperties.ForkOfAll | src/main/kotlin/be/geoffrey/fusion/ElementTraverser.kt:120-125 | A fork over all implementations of a type that has several lists their names, each once. |
| TraversalProperties.ElementRunForks | src/main/kotlin/be/geoffrey/fusion/ElementTraverser.kt:120-125 | Every choice a walk records lists exactly the names of all implementations of some registered complex type that has more than one, and no name appears twice. |
| TraversalProperties.ForkNeedsAlternatives | src/main/kotlin/be/geoffrey/fusion/ElementTraverser.kt:120-125 | A walk that records a choice has met a complex type with several implementations. |
| TraversalProperties.NoForkWithoutAlternatives | src/main/kotlin/be/geoffrey/fusion/ElementTraverser.kt:120-125 | When every complex type has at most one implementation, no choice is recorded. |
| TraversalProperties.DecidePathsNarrows | src/main/kotlin/be/geoffrey/fusion/ElementTraverser.kt:147-153 | The decided paths are either all possible implementations or a single one. |
| TraversalProperties.FirstDecisionIsFollowed | src/main/kotlin/be/geoffrey/fusion/ElementTraverser.kt:120-136 | When the first decision for the current path names a complex type, exactly that type is followed, with no fork signalled. When it names anything else, the walk fails. |
| TraversalProperties.UndecidedFollowsAll | src/main/kotlin/be/geoffrey/fusion/ElementTraverser.kt:120-136 | Without a decision for the current path, every implementation is followed in order. The fork fires exactly when there are several. |
| TraversalProperties.MissingTypeFails | src/main/kotlin/be/geoffrey/fusion/ElementTraverser.kt:114-117 | An element whose structure is not registered ends the walk with the not-found error, naming the element and the reference, and nothing is signalled. |
| RenderingConfig.GetRegexValueForType | src/main/kotlin/be/geoffrey/fusion/RenderingConfig.kt:6-8 | Returns the value of the first entry for the type. Returns None exactly when no entry has that type. |
| RenderingConfig.ResultIsConfigured | src/main/kotlin/be/geoffrey/fusion/RenderingConfig.kt:3-8 | A value found is one of the configured values. |
| RenderingConfig.AppendKeepsFoundValue | src/main/kotlin/be/geoffrey/fusion/RenderingConfig.kt:7 | An earlier entry shadows later ones: appending entries never changes a value found. |
| RenderingConfig.AppendAfterMiss | src/main/kotlin/be/geoffrey/fusion/RenderingConfig.kt:7 | When the configuration has no entry for the type, the appended entries alone decide the answer. |

## Left out

- Nesting bound. Each walk function takes a `fuel` bound, which the Kotlin recursion does not have, and would fail with `OutOfFuel` if it ran out. The Kotlin walk always ends: every field the guard lets through closes its type. `EnoughFuelFromScratch` proves that fuel of two more than the number of registered types is never used up. `ElementRunSameFuel` proves that more fuel changes nothing. `PossibleOptions` uses that bound, so `OutOfFuel` never reaches its caller.
- Acyclic inheritance. Every `extensionOf` link in the registry must be acyclic, witnessed by a ghost `rank`. The Kotlin subtype search (`ElementTraverser.kt:197-208`) loops forever only when it starts from a type on a cycle, because the parent of every type on a cycle is on it too. A cycle that the walk never meets is harmless in Kotlin, but the model requires the whole registry to be acyclic. The parent-type lookup is not part of this model's sources, so whether it terminates on a cycle is not modelled.
- Errors. The `IllegalArgumentException` for a missing structure (`ElementTraverser.kt:116-117`) becomes the `TypeNotFound` error value. The `ClassCastException` on a decision that names no complex type becomes `DecidedTypeNotComplex`. The `else` branch that throws "blahoe" (`ElementTraverser.kt:141`) cannot be reached, because a structure is either a simple field or a complex type. Likewise the "Unknown type" throw of `visualizePath` (`Core.kt:93`) cannot be reached, because an element is either top-level or a field.
- Stack after an error. When a walk ends with an error, the model says nothing about the stack. In Kotlin the exception leaves the pushed entries in place.
- Hash map order. The iteration order of each `HashMap` is an explicit `order` sequence that lists every key once. Its order is unspecified: adding an entry promises nothing about where its key lands. Within one state, this order decides the order of `getConcreteImplementationsFor`, `getStructureByPartOfName` and `addAllOfOther`.
- Helper methods. The single Kotlin function `traverseElement` is split into helper methods: `TraverseStructure`, `TraverseImplementations`, `SignalAndFollow`, `FollowImplementations`, `FollowNext` and `FollowImplementation`, and each corresponds to a block of `traverseElement`.
- Registry snapshot. The traverser reads its registry through a ghost snapshot, `types`, taken at construction. Changing the registry during a walk is not modelled.
- Logging. The `println` calls and the default hook's printing are left out.
- `getCurrentElementMetadata` on an empty stack throws in Kotlin. In the model, `SetCurrentImplementationMarker` requires a non-empty stack; the traversal always has one.
- Other decision and choice kinds. Choice indices and occurrence counts do not exist in `ElementTraverser.kt` and are not modelled.
- Out of scope. Schema parsing (`Parsing.kt`), rendering (`Rendering.kt`), the user interface and the test drivers are not part of this model.
- `ElementStack.toString` is a plain delegation to Kotlin's list `toString` and is left out.
