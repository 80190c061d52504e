/**
 * The schema model and the in-memory type registry (Core.kt): qualified names,
 * local and top-level elements, the structures a schema defines, the older
 * element stack, and the registry `KnownBuildingBlocks` with its defaults.
 */
module Core {
  import opened Wrappers
  import opened Strings

  /** Namespace of the built-in XML Schema types. */
  const XMLNS: string := "http://www.w3.org/2001/XMLSchema"

  datatype QName = QName(namespace: string, name: string)

  /** A local field inside a complex type: its name and the structure it refers to. */
  datatype Element = Element(name: string, elementType: QName)

  /** A globally declared element, the entry point of a traversal. */
  datatype TopLevelElement = TopLevelElement(name: QName, elementType: QName)

  /** What can be traversed as an element: a local field or a top-level element. */
  datatype ElementBase = Local(element: Element) | TopLevel(top: TopLevelElement)
  {
    /** A local field shows its own name, a top-level element its local name only. */
    function DisplayName(): string
    {
      match this
      case Local(e) => e.name
      case TopLevel(t) => t.name.name
    }

    function StructureReference(): QName
    {
      match this
      case Local(e) => e.elementType
      case TopLevel(t) => t.elementType
    }
  }

  /** A child in the content model of a complex type. */
  datatype StructureElement =
    | Field(element: Element)
    | SequenceOf(items: seq<StructureElement>)
    | ChoiceOf(items: seq<StructureElement>)

  /** The leaf kinds of simple fields. */
  datatype SimpleKind =
    | StringKind
    | BooleanKind
    | NumberKind
    | RegexKind(pattern: string)
    | EnumKind(possibleValues: seq<string>)
    | UnknownKind(unknownType: QName)

  datatype ComplexType = ComplexType(
    name: QName,
    children: seq<StructureElement>,
    isAbstract: bool,
    extensionOf: Option<QName>)

  /** A named definition the registry stores: a simple leaf or a complex type. */
  datatype Structure = SimpleField(fieldName: QName, kind: SimpleKind) | Group(complex: ComplexType)
  {
    function QNameOf(): QName
    {
      match this
      case SimpleField(n, _) => n
      case Group(t) => t.name
    }
  }

  // ---------------------------------------------------------------------------
  // ElementStack: the older path stack

  /** The names along a stack, bottom first. */
  function DisplayNames(elements: seq<ElementBase>): (names: seq<string>)
    ensures |names| == |elements|
    ensures forall i :: 0 <= i < |elements| ==> names[i] == elements[i].DisplayName()
  {
    seq(|elements|, i requires 0 <= i < |elements| => elements[i].DisplayName())
  }

  /** The rendered path of a stack of elements: "/" followed by the names joined with "/". */
  function PathOf(elements: seq<ElementBase>): string
  {
    "/" + Join(DisplayNames(elements), "/")
  }

  /** How many entries of the stack refer to the structure `ref`, of whatever kind. */
  function Occurrences(elements: seq<ElementBase>, ref: QName): nat
  {
    if elements == [] then 0
    else Occurrences(elements[..|elements| - 1], ref)
         + (if elements[|elements| - 1].StructureReference() == ref then 1 else 0)
  }

  class ElementStack {
    var elements: seq<ElementBase>

    constructor ()
      ensures elements == []
    {
      elements := [];
    }

    function IsEmpty(): (r: bool)
      reads this
      ensures r <==> elements == []
    {
      |elements| == 0
    }

    function Size(): (n: nat)
      reads this
      ensures n == |elements|
      ensures n == 0 <==> IsEmpty()
    {
      |elements|
    }

    method Push(item: ElementBase)
      modifies this
      ensures elements == old(elements) + [item]
    {
      elements := elements + [item];
    }

    /** Removes and returns the top entry; on an empty stack returns None and changes nothing. */
    method Pop() returns (item: Option<ElementBase>)
      modifies this
      ensures old(elements) == [] ==> item == None && elements == []
      ensures old(elements) != [] ==>
                item == Some(old(elements)[|old(elements)| - 1])
                && elements == old(elements)[..|old(elements)| - 1]
    {
      if |elements| == 0 {
        item := None;
      } else {
        item := Some(elements[|elements| - 1]);
        elements := elements[..|elements| - 1];
      }
    }

    /** The top entry without removing it, None on an empty stack. */
    function Peek(): (item: Option<ElementBase>)
      reads this
      ensures item.None? <==> elements == []
      ensures item.Some? ==> item.value == elements[|elements| - 1] && item.value in elements
    {
      if |elements| == 0 then None else Some(elements[|elements| - 1])
    }

    /**
     * The path of the stack: "/" alone when it is empty, otherwise the path of the entries
     * below the top, then "/" and the top entry's name.
     */
    function VisualizePath(): (path: string)
      reads this
      ensures elements == [] ==> path == "/"
      ensures |elements| == 1 ==> path == "/" + elements[0].DisplayName()
      ensures |elements| > 1 ==>
                path == PathOf(elements[..|elements| - 1]) + "/" + elements[|elements| - 1].DisplayName()
    {
      if elements == [] then PathOf(elements)
      else
        var n := |elements| - 1;
        PathOfPush(elements[..n], elements[n]);
        assert elements[..n] + [elements[n]] == elements;
        PathOf(elements)
    }

    /** True when at least `maxDepth` entries, of whatever kind, already refer to the type of `element`. */
    function RecursionWillStartWhenAdding(element: Element, maxDepth: int := 2): (r: bool)
      reads this
      ensures r <==> |set i | 0 <= i < |elements| && elements[i].StructureReference() == element.elementType| >= maxDepth
    {
      OccurrencesCountsPositions(elements, element.elementType);
      Occurrences(elements, element.elementType) >= maxDepth
    }
  }

  /** Pushing extends the visualized path by "/" and the pushed entry's name. */
  lemma PathOfPush(elements: seq<ElementBase>, item: ElementBase)
    ensures PathOf(elements + [item]) ==
              if elements == [] then "/" + item.DisplayName()
              else PathOf(elements) + "/" + item.DisplayName()
  {
    var names := DisplayNames(elements + [item]);
    assert names == DisplayNames(elements) + [item.DisplayName()];
    if elements != [] {
      JoinSnoc(DisplayNames(elements), "/", item.DisplayName());
    }
  }

  /** Pushing counts one more occurrence exactly when the pushed entry refers to `ref`. */
  lemma {:induction false} OccurrencesPush(elements: seq<ElementBase>, item: ElementBase, ref: QName)
    ensures Occurrences(elements + [item], ref)
            == Occurrences(elements, ref) + (if item.StructureReference() == ref then 1 else 0)
  {
    assert (elements + [item])[..|elements|] == elements;
  }

  /** The guard's count is the number of stack positions whose entry refers to `ref`. */
  lemma {:induction false} OccurrencesCountsPositions(elements: seq<ElementBase>, ref: QName)
    ensures Occurrences(elements, ref) == |set i | 0 <= i < |elements| && elements[i].StructureReference() == ref|
  {
    if elements != [] {
      var n := |elements| - 1;
      var prefix := elements[..n];
      OccurrencesCountsPositions(prefix, ref);
      var before := set i | 0 <= i < |prefix| && prefix[i].StructureReference() == ref;
      var after := set i | 0 <= i < |elements| && elements[i].StructureReference() == ref;
      if elements[n].StructureReference() == ref {
        assert after == before + {n};
      } else {
        assert after == before;
      }
    }
  }

  /** The path of the element stack holding one top-level element. */
  lemma VisualizePathExample()
    ensures PathOf([TopLevel(TopLevelElement(QName("a", "element"), QName("a", "b")))]) == "/element"
  {
    var top := TopLevel(TopLevelElement(QName("a", "element"), QName("a", "b")));
    PathOfPush([], top);
    assert [] + [top] == [top];
  }

  /** The path of the element stack after pushing a field on top of the top-level element. */
  lemma VisualizeNestedPathExample()
    ensures PathOf([TopLevel(TopLevelElement(QName("a", "element"), QName("a", "b"))),
                    Local(Element("AField", QName("does not", "matter")))]) == "/element/AField"
  {
    var top := TopLevel(TopLevelElement(QName("a", "element"), QName("a", "b")));
    var field := Local(Element("AField", QName("does not", "matter")));
    VisualizePathExample();
    PathOfPush([top], field);
    assert [top] + [field] == [top, field];
  }

  /** One earlier occurrence of the type does not trip the guard; a second one does. */
  lemma RecursionGuardExample()
    ensures var top := TopLevel(TopLevelElement(QName("a", "element"), QName("a", "b")));
            var field := Element("AField", QName("does not", "matter"));
            Occurrences([top, Local(field)], field.elementType) == 1
            && Occurrences([top, Local(field), Local(field)], field.elementType) == 2
  {
    var top := TopLevel(TopLevelElement(QName("a", "element"), QName("a", "b")));
    var field := Element("AField", QName("does not", "matter"));
    OccurrencesPush([], top, field.elementType);
    OccurrencesPush([top], Local(field), field.elementType);
    OccurrencesPush([top, Local(field)], Local(field), field.elementType);
    assert [] + [top] == [top];
    assert [top] + [Local(field)] == [top, Local(field)];
    assert [top, Local(field)] + [Local(field)] == [top, Local(field), Local(field)];
  }

  /** Pushing a top-level element and a field shows both in the path; popping the field leaves the first. */
  method PathIndicationScenario() returns (nested: string, popped: string)
    ensures nested == "/element/AField"
    ensures popped == "/element"
  {
    var element1 := TopLevel(TopLevelElement(QName("a", "element"), QName("a", "b")));
    var element2 := Local(Element("AField", QName("does not", "matter")));
    var stack := new ElementStack();
    stack.Push(element1);
    stack.Push(element2);
    VisualizeNestedPathExample();
    nested := stack.VisualizePath();
    var _ := stack.Pop();
    VisualizePathExample();
    popped := stack.VisualizePath();
  }

  /** With one field of a type on the stack the guard stays quiet; a second copy of it trips the guard. */
  method RecursionScenario() returns (before: bool, after: bool)
    ensures !before
    ensures after
  {
    var element1 := TopLevel(TopLevelElement(QName("a", "element"), QName("a", "b")));
    var element2 := Element("AField", QName("does not", "matter"));
    var stack := new ElementStack();
    stack.Push(element1);
    stack.Push(Local(element2));
    RecursionGuardExample();
    assert stack.elements == [element1, Local(element2)];
    before := stack.RecursionWillStartWhenAdding(element2);
    stack.Push(Local(element2));
    assert stack.elements == [element1, Local(element2), Local(element2)];
    after := stack.RecursionWillStartWhenAdding(element2);
  }

  // ---------------------------------------------------------------------------
  // KnownBuildingBlocks: the registry

  /** `order` lists each key of `keys` exactly once: the fixed iteration order of a hash map. */
  ghost predicate Enumerates<K(!new)>(order: seq<K>, keys: set<K>)
  {
    && (forall i, j :: 0 <= i < j < |order| ==> order[i] != order[j])
    && (forall k :: k in order <==> k in keys)
  }

  /** Structures stored one after the other by their own names: the last one stored under a name wins. */
  function Indexed(structures: seq<Structure>): (m: map<QName, Structure>)
    ensures forall k :: k in m ==> m[k].QNameOf() == k
    ensures forall s :: s in structures ==> s.QNameOf() in m
  {
    if structures == [] then map[]
    else
      var last := structures[|structures| - 1];
      Indexed(structures[..|structures| - 1])[last.QNameOf() := last]
  }

  /** `name`'s namespace is `namespace` and its local name contains `partOfName`. */
  predicate NameMatches(name: QName, namespace: string, partOfName: string)
  {
    name.namespace == namespace && Contains(name.name, partOfName)
  }

  /** The complex types listed by `order` in `structures` that directly extend `name`, in that order. */
  function SubtypesIn(order: seq<QName>, structures: map<QName, Structure>, name: QName): (r: seq<ComplexType>)
    requires forall k :: k in structures ==> structures[k].QNameOf() == k
    ensures forall t :: t in r ==> t.extensionOf == Some(name) && t.name in structures && structures[t.name] == Group(t)
  {
    if order == [] then []
    else
      var rest := SubtypesIn(order[..|order| - 1], structures, name);
      var k := order[|order| - 1];
      if k in structures && structures[k].Group? && structures[k].complex.extensionOf == Some(name)
      then rest + [structures[k].complex]
      else rest
  }

  /** `SubtypesIn` lists exactly the complex types named in `order` that directly extend `name`. */
  lemma {:induction false} SubtypesInExactly(order: seq<QName>, structures: map<QName, Structure>, name: QName)
    requires forall k :: k in structures ==> structures[k].QNameOf() == k
    ensures forall t :: t in SubtypesIn(order, structures, name) <==>
              t.name in order && t.name in structures && structures[t.name] == Group(t) && t.extensionOf == Some(name)
  {
    if order != [] {
      var prefix := order[..|order| - 1];
      SubtypesInExactly(prefix, structures, name);
      assert forall q :: q in order <==> q in prefix || q == order[|order| - 1];
    }
  }

  /** When `order` names each structure once, so does `SubtypesIn`. */
  lemma {:induction false} SubtypesInDistinct(order: seq<QName>, structures: map<QName, Structure>, name: QName)
    requires forall k :: k in structures ==> structures[k].QNameOf() == k
    requires forall i, j :: 0 <= i < j < |order| ==> order[i] != order[j]
    ensures forall i, j :: 0 <= i < j < |SubtypesIn(order, structures, name)| ==>
              SubtypesIn(order, structures, name)[i].name != SubtypesIn(order, structures, name)[j].name
  {
    if order != [] {
      var prefix := order[..|order| - 1];
      var k := order[|order| - 1];
      SubtypesInDistinct(prefix, structures, name);
      SubtypesInExactly(prefix, structures, name);
      var rest := SubtypesIn(prefix, structures, name);
      var r := SubtypesIn(order, structures, name);
      assert k !in prefix by {
        forall i | 0 <= i < |prefix| ensures prefix[i] != k {
          assert prefix[i] == order[i];
        }
      }
      forall i, j | 0 <= i < j < |r| ensures r[i].name != r[j].name {
        if j == |rest| {
          assert r[i] == rest[i] && rest[i] in rest;
          assert r[j] == structures[k].complex;
        }
      }
    }
  }

  /** The structures of a registry together with the order its hash map enumerates their names in. */
  datatype TypeTable = TypeTable(structures: map<QName, Structure>, order: seq<QName>)
  {
    /** Every structure is stored under its own name, and `order` lists each name once. */
    ghost predicate WellFormed()
    {
      && (forall k :: k in structures ==> structures[k].QNameOf() == k)
      && Enumerates(order, structures.Keys)
    }

    function Get(name: QName): Option<Structure>
    {
      if name in structures then Some(structures[name]) else None
    }

    /** The registered complex types that directly extend `name`, in enumeration order. */
    function Subtypes(name: QName): (r: seq<ComplexType>)
      requires WellFormed()
      ensures forall t :: t in r ==> t.name in structures && structures[t.name] == Group(t) && t.extensionOf == Some(name)
    {
      SubtypesIn(order, structures, name)
    }
  }

  class KnownBuildingBlocks {
    var knownStructures: map<QName, Structure>
    /**
     * The iteration order of `knownStructures`. A hash map orders its keys by hash bucket,
     * so the contracts promise only that each key is listed once, never which order.
     */
    var structureOrder: seq<QName>
    var knownElements: map<QName, TopLevelElement>
    /** The iteration order of `knownElements`, likewise unspecified. */
    var elementOrder: seq<QName>

    /** Every entry is stored under its own name; the orders enumerate the keys. */
    ghost predicate Valid()
      reads this
    {
      && (forall k :: k in knownStructures ==> knownStructures[k].QNameOf() == k)
      && (forall k :: k in knownElements ==> knownElements[k].name == k)
      && Enumerates(structureOrder, knownStructures.Keys)
      && Enumerates(elementOrder, knownElements.Keys)
    }

    /** A registry holding the default structures, added in order. */
    constructor (defaultStructures: seq<Structure>)
      ensures Valid()
      ensures knownStructures == Indexed(defaultStructures)
      ensures knownElements == map[]
    {
      knownStructures, structureOrder := map[], [];
      knownElements, elementOrder := map[], [];
      new;
      var i := 0;
      while i < |defaultStructures|
        invariant 0 <= i <= |defaultStructures|
        invariant Valid()
        invariant knownStructures == Indexed(defaultStructures[..i])
        invariant knownElements == map[]
      {
        AddStructure(defaultStructures[i]);
        assert defaultStructures[..i + 1][..i] == defaultStructures[..i];
        i := i + 1;
      }
      assert defaultStructures[..i] == defaultStructures;
    }

    /** The structure stored under `name`, None when there is none. */
    function GetStructure(name: QName): (r: Option<Structure>)
      reads this
      ensures r.Some? <==> name in knownStructures
      ensures r.Some? ==> r.value == knownStructures[name]
      ensures Valid() && r.Some? ==> r.value.QNameOf() == name
    {
      if name in knownStructures then Some(knownStructures[name]) else None
    }

    /** The top-level element stored under `name`, None when there is none. */
    function GetElement(name: QName): (r: Option<TopLevelElement>)
      reads this
      ensures r.Some? <==> name in knownElements
      ensures r.Some? ==> r.value == knownElements[name]
      ensures Valid() && r.Some? ==> r.value.name == name
    {
      if name in knownElements then Some(knownElements[name]) else None
    }

    /** Stores `structure` under its name, overwriting any earlier entry with that name. */
    method AddStructure(structure: Structure)
      requires Valid()
      modifies this
      ensures Valid()
      ensures knownStructures == old(knownStructures)[structure.QNameOf() := structure]
      ensures knownElements == old(knownElements) && elementOrder == old(elementOrder)
      ensures GetStructure(structure.QNameOf()) == Some(structure)
      ensures forall k :: k != structure.QNameOf() ==> GetStructure(k) == old(GetStructure(k))
    {
      var key := structure.QNameOf();
      if key !in knownStructures {
        structureOrder := structureOrder + [key];
      }
      knownStructures := knownStructures[key := structure];
    }

    /** Stores `element` under its name, overwriting any earlier entry with that name. */
    method AddElement(element: TopLevelElement)
      requires Valid()
      modifies this
      ensures Valid()
      ensures knownElements == old(knownElements)[element.name := element]
      ensures knownStructures == old(knownStructures) && structureOrder == old(structureOrder)
      ensures GetElement(element.name) == Some(element)
      ensures forall k :: k != element.name ==> GetElement(k) == old(GetElement(k))
    {
      if element.name !in knownElements {
        elementOrder := elementOrder + [element.name];
      }
      knownElements := knownElements[element.name := element];
    }

    /** Adds every structure and element of `other`; on a name both hold, `other`'s entry wins. */
    method AddAllOfOther(other: KnownBuildingBlocks)
      requires Valid() && other.Valid()
      modifies this
      ensures Valid()
      ensures knownStructures == old(knownStructures) + old(other.knownStructures)
      ensures knownElements == old(knownElements) + old(other.knownElements)
      ensures other != this ==> unchanged(other)
    {
      var elements, eOrder := other.knownElements, other.elementOrder;
      AddStructures(other.knownStructures, other.structureOrder);
      AddElements(elements, eOrder);
    }

    /** Adds the structures of `structures` in the order `order` enumerates them. */
    method AddStructures(structures: map<QName, Structure>, order: seq<QName>)
      requires Valid()
      requires forall k :: k in structures ==> structures[k].QNameOf() == k
      requires Enumerates(order, structures.Keys)
      modifies this
      ensures Valid()
      ensures knownStructures == old(knownStructures) + structures
      ensures knownElements == old(knownElements) && elementOrder == old(elementOrder)
    {
      ghost var base := knownStructures;
      ghost var done: set<QName> := {};
      var i := 0;
      while i < |order|
        invariant 0 <= i <= |order|
        invariant Valid()
        invariant done <= structures.Keys
        invariant forall j :: 0 <= j < i ==> order[j] in done
        invariant knownStructures.Keys == base.Keys + done
        invariant forall k :: k in done ==> knownStructures[k] == structures[k]
        invariant forall k :: k in base && k !in done ==> knownStructures[k] == base[k]
        invariant knownElements == old(knownElements) && elementOrder == old(elementOrder)
      {
        AddStructure(structures[order[i]]);
        done := done + {order[i]};
        i := i + 1;
      }
      assert done == structures.Keys;
    }

    /** Adds the elements of `elements` in the order `order` enumerates them. */
    method AddElements(elements: map<QName, TopLevelElement>, order: seq<QName>)
      requires Valid()
      requires forall k :: k in elements ==> elements[k].name == k
      requires Enumerates(order, elements.Keys)
      modifies this
      ensures Valid()
      ensures knownElements == old(knownElements) + elements
      ensures knownStructures == old(knownStructures) && structureOrder == old(structureOrder)
    {
      ghost var base := knownElements;
      ghost var done: set<QName> := {};
      var i := 0;
      while i < |order|
        invariant 0 <= i <= |order|
        invariant Valid()
        invariant done <= elements.Keys
        invariant forall j :: 0 <= j < i ==> order[j] in done
        invariant knownElements.Keys == base.Keys + done
        invariant forall k :: k in done ==> knownElements[k] == elements[k]
        invariant forall k :: k in base && k !in done ==> knownElements[k] == base[k]
        invariant knownStructures == old(knownStructures) && structureOrder == old(structureOrder)
      {
        AddElement(elements[order[i]]);
        done := done + {order[i]};
        i := i + 1;
      }
      assert done == elements.Keys;
    }

    /** Some structure whose name lies in `namespace` and contains `partOfName`, the first in iteration order. */
    method GetStructureByPartOfName(namespace: string, partOfName: string) returns (r: Option<Structure>)
      requires Valid()
      ensures r.Some? ==> exists k :: k in knownStructures && NameMatches(k, namespace, partOfName)
                                      && knownStructures[k] == r.value
      ensures r.None? <==> forall k :: k in knownStructures ==> !NameMatches(k, namespace, partOfName)
      ensures r.Some? ==> exists i :: 0 <= i < |structureOrder| && NameMatches(structureOrder[i], namespace, partOfName)
                                      && r.value == knownStructures[structureOrder[i]]
                                      && forall j :: 0 <= j < i ==> !NameMatches(structureOrder[j], namespace, partOfName)
    {
      var i := 0;
      while i < |structureOrder|
        invariant 0 <= i <= |structureOrder|
        invariant forall j :: 0 <= j < i ==> !NameMatches(structureOrder[j], namespace, partOfName)
      {
        var name := structureOrder[i];
        if name.namespace == namespace && Contains(name.name, partOfName) {
          assert NameMatches(name, namespace, partOfName);
          return Some(knownStructures[name]);
        }
        i := i + 1;
      }
      return None;
    }

    /** The complex types that directly extend `name`, abstract or not. */
    function GetConcreteImplementationsFor(name: QName): (r: seq<ComplexType>)
      reads this
      requires Table().WellFormed()
      ensures forall t :: t in r <==>
                t.name in knownStructures && knownStructures[t.name] == Group(t) && t.extensionOf == Some(name)
      ensures forall i, j :: 0 <= i < j < |r| ==> r[i].name != r[j].name
    {
      SubtypesInExactly(structureOrder, knownStructures, name);
      SubtypesInDistinct(structureOrder, knownStructures, name);
      Table().Subtypes(name)
    }

    /** The structures held, with their enumeration order. */
    function Table(): TypeTable
      reads this
    {
      TypeTable(knownStructures, structureOrder)
    }
  }

  /** A registry preloaded with the XML Schema string, boolean and int types. */
  method XmlBuildingBlocks() returns (blocks: KnownBuildingBlocks)
    ensures fresh(blocks) && blocks.Valid()
    ensures blocks.GetStructure(QName(XMLNS, "string")) == Some(SimpleField(QName(XMLNS, "string"), StringKind))
    ensures blocks.GetStructure(QName(XMLNS, "boolean")) == Some(SimpleField(QName(XMLNS, "boolean"), BooleanKind))
    ensures blocks.GetStructure(QName(XMLNS, "int")) == Some(SimpleField(QName(XMLNS, "int"), NumberKind))
    ensures blocks.knownElements == map[]
  {
    var defaults := [SimpleField(QName(XMLNS, "string"), StringKind),
                     SimpleField(QName(XMLNS, "boolean"), BooleanKind),
                     SimpleField(QName(XMLNS, "int"), NumberKind)];
    blocks := new KnownBuildingBlocks(defaults);
    assert defaults[..2][..1] == defaults[..1] && defaults[..2] == defaults[..3][..2];
    assert Indexed(defaults[..1]) == map[QName(XMLNS, "string") := defaults[0]];
  }
}
