/**
 * The traversal's path stack, the decisions a caller supplies and the forks the
 * traversal reports (ElementTraverser.kt, lines 1-93).
 */
module Tracking {
  import opened Wrappers
  import opened Strings
  import opened Core

  /** What the traversal pushes: an element, or a sequence or choice group it descends into. */
  datatype Trackable =
    | Tracked(base: ElementBase)
    | SequenceNode(items: seq<StructureElement>)
    | ChoiceNode(items: seq<StructureElement>)
  {
    /** The name a path shows for this entry. */
    function ShortName(): string
    {
      match this
      case Tracked(b) => b.DisplayName()
      case SequenceNode(_) => "Sequence"
      case ChoiceNode(_) => "Choice"
    }
  }

  /** Per-entry metadata: the implementation chosen for the entry, if one was marked. */
  datatype StackMetadata = StackMetadata(concreteImplementationMarker: Option<QName>)

  datatype StackEntry = StackEntry(item: Trackable, metadata: StackMetadata)

  /** A fork the traversal found: at `path`, any of `choices` can be followed. */
  datatype ImplementationChoice = ImplementationChoice(path: string, choices: seq<QName>)

  /** A caller's resolution of the fork at `path`: follow `decision`. */
  datatype ImplementationDecision = ImplementationDecision(path: string, decision: QName)

  /** How an entry appears in a path: its short name, then "[impl=<local name>]" when marked. */
  function Label(entry: StackEntry): string
  {
    entry.item.ShortName()
    + match entry.metadata.concreteImplementationMarker
      case Some(marker) => "[impl=" + marker.name + "]"
      case None => ""
  }

  function Labels(entries: seq<StackEntry>): (labels: seq<string>)
    ensures |labels| == |entries|
    ensures forall i :: 0 <= i < |entries| ==> labels[i] == Label(entries[i])
  {
    seq(|entries|, i requires 0 <= i < |entries| => Label(entries[i]))
  }

  /** The canonical path string of a stack: "/" and the labels joined with "/". */
  function PathString(entries: seq<StackEntry>): string
  {
    "/" + Join(Labels(entries), "/")
  }

  /** The entry is a local element (not a top-level element, not a group) that refers to `ref`. */
  predicate IsElementOfType(entry: StackEntry, ref: QName)
  {
    entry.item.Tracked? && entry.item.base.Local? && entry.item.base.element.elementType == ref
  }

  /** How many entries are local elements that refer to the structure `ref`. */
  function ElementOccurrences(entries: seq<StackEntry>, ref: QName): nat
  {
    if entries == [] then 0
    else ElementOccurrences(entries[..|entries| - 1], ref)
         + (if IsElementOfType(entries[|entries| - 1], ref) then 1 else 0)
  }

  /** The recursion guard: `maxDepth` local elements of the same type are already on the stack. */
  predicate RecursionWillStart(entries: seq<StackEntry>, element: Element, maxDepth: int)
  {
    ElementOccurrences(entries, element.elementType) >= maxDepth
  }

  /** `entries` with the top entry's marker replaced by `marker`. */
  function WithMarker(entries: seq<StackEntry>, marker: QName): (r: seq<StackEntry>)
    requires entries != []
  {
    entries[..|entries| - 1] + [StackEntry(entries[|entries| - 1].item, StackMetadata(Some(marker)))]
  }

  /** Setting the marker again replaces the previous one: only the last marker shows. */
  lemma WithMarkerTwice(entries: seq<StackEntry>, first: QName, second: QName)
    requires entries != []
    ensures WithMarker(WithMarker(entries, first), second) == WithMarker(entries, second)
  {
  }

  class TrackStack {
    var elements: seq<StackEntry>

    constructor ()
      ensures elements == []
    {
      elements := [];
    }

    function Size(): (n: nat)
      reads this
      ensures n == |elements|
    {
      |elements|
    }

    /** Pushes `item` with empty metadata. */
    method Push(item: Trackable)
      modifies this
      ensures elements == old(elements) + [StackEntry(item, StackMetadata(None))]
    {
      elements := elements + [StackEntry(item, StackMetadata(None))];
    }

    /** Pushes `item` with the given implementation marker. */
    method PushWithMarker(item: Trackable, concreteImplementationIndication: Option<QName>)
      modifies this
      ensures elements == old(elements) + [StackEntry(item, StackMetadata(concreteImplementationIndication))]
    {
      elements := elements + [StackEntry(item, StackMetadata(concreteImplementationIndication))];
    }

    /** Removes and returns the top pair; on an empty stack returns None and changes nothing. */
    method Pop() returns (entry: Option<StackEntry>)
      modifies this
      ensures old(elements) == [] ==> entry == None && elements == []
      ensures old(elements) != [] ==>
                entry == Some(old(elements)[|old(elements)| - 1])
                && elements == old(elements)[..|old(elements)| - 1]
    {
      if |elements| == 0 {
        entry := None;
      } else {
        entry := Some(elements[|elements| - 1]);
        elements := elements[..|elements| - 1];
      }
    }

    /**
     * The canonical path: "/" alone for the empty stack, otherwise the path of the entries
     * below the top, then "/" and the top entry's label.
     */
    function ToString(): (path: string)
      reads this
      ensures elements == [] ==> path == "/"
      ensures |elements| == 1 ==> path == "/" + Label(elements[0])
      ensures |elements| > 1 ==>
                path == PathString(elements[..|elements| - 1]) + "/" + Label(elements[|elements| - 1])
    {
      if elements == [] then PathString(elements)
      else
        var n := |elements| - 1;
        PathStringPush(elements[..n], elements[n]);
        assert elements[..n] + [elements[n]] == elements;
        PathString(elements)
    }

    /** True when at least `maxDepth` entries are local elements of the type of `element`. */
    function RecursionWillStartWhenAdding(element: Element, maxDepth: int := 2): (r: bool)
      reads this
      ensures r <==> |set i | 0 <= i < |elements| && IsElementOfType(elements[i], element.elementType)| >= maxDepth
    {
      ElementOccurrencesCountsPositions(elements, element.elementType);
      RecursionWillStart(elements, element, maxDepth)
    }

    /** Marks the top entry as resolved to the implementation `marker`. */
    method SetCurrentImplementationMarker(marker: QName)
      requires elements != []
      modifies this
      ensures elements == WithMarker(old(elements), marker)
    {
      var top := elements[|elements| - 1];
      elements := elements[..|elements| - 1] + [StackEntry(top.item, StackMetadata(Some(marker)))];
    }
  }

  /** The first decision in list order whose path is `path`, None when no decision targets it. */
  function GetImplementationDecision(decisions: seq<ImplementationDecision>, path: string)
    : (r: Option<ImplementationDecision>)
    ensures r.Some? ==> r.value in decisions && r.value.path == path
  {
    if decisions == [] then None
    else if decisions[0].path == path then Some(decisions[0])
    else GetImplementationDecision(decisions[1..], path)
  }

  /** The decision found is the first one for `path`, and none is found exactly when no decision targets `path`. */
  lemma {:induction false} GetImplementationDecisionFirst(decisions: seq<ImplementationDecision>, path: string)
    ensures GetImplementationDecision(decisions, path).None? <==> forall i :: 0 <= i < |decisions| ==> decisions[i].path != path
    ensures GetImplementationDecision(decisions, path).Some? ==>
              exists i :: 0 <= i < |decisions| && decisions[i] == GetImplementationDecision(decisions, path).value
                          && forall j :: 0 <= j < i ==> decisions[j].path != path
  {
    if decisions != [] && decisions[0].path != path {
      GetImplementationDecisionFirst(decisions[1..], path);
      assert forall i :: 1 <= i < |decisions| ==> decisions[i] == decisions[1..][i - 1];
      var r := GetImplementationDecision(decisions, path);
      if r.Some? {
        var k :| 0 <= k < |decisions[1..]| && decisions[1..][k] == r.value
                  && forall j :: 0 <= j < k ==> decisions[1..][j].path != path;
        assert decisions[k + 1] == r.value;
      }
    }
  }

  // ---------------------------------------------------------------------------
  // Properties of paths and of the guard

  /** Pushing extends the path string by "/" and the new entry's label (the empty stack renders as "/"). */
  lemma PathStringPush(entries: seq<StackEntry>, entry: StackEntry)
    ensures PathString([]) == "/"
    ensures PathString(entries + [entry]) ==
              if entries == [] then "/" + Label(entry)
              else PathString(entries) + "/" + Label(entry)
  {
    assert Labels(entries + [entry]) == Labels(entries) + [Label(entry)];
    if entries != [] {
      JoinSnoc(Labels(entries), "/", Label(entry));
    }
  }

  /** The impl marker shows only the marker's local name: two markers that differ only in namespace render alike. */
  lemma MarkerShowsLocalNameOnly(item: Trackable, namespace1: string, namespace2: string, name: string)
    ensures Label(StackEntry(item, StackMetadata(Some(QName(namespace1, name)))))
            == Label(StackEntry(item, StackMetadata(Some(QName(namespace2, name)))))
            == item.ShortName() + "[impl=" + name + "]"
  {
  }

  /**
   * Pushing counts one more occurrence for the guard exactly when the pushed entry is a
   * local element of type `ref`: top-level elements and groups never count.
   */
  lemma {:induction false} ElementOccurrencesPush(entries: seq<StackEntry>, entry: StackEntry, ref: QName)
    ensures ElementOccurrences(entries + [entry], ref)
            == ElementOccurrences(entries, ref)
               + (if IsElementOfType(entry, ref) then 1 else 0)
  {
    assert (entries + [entry])[..|entries|] == entries;
  }

  /** Markers do not affect the guard: it looks only at the entries' items. */
  lemma {:induction false} ElementOccurrencesIgnoreMarkers(entries: seq<StackEntry>, marker: QName, ref: QName)
    requires entries != []
    ensures ElementOccurrences(WithMarker(entries, marker), ref) == ElementOccurrences(entries, ref)
  {
    var m := WithMarker(entries, marker);
    assert m[..|m| - 1] == entries[..|entries| - 1];
  }

  /** The guard counts local elements whose type is `ref`: the count is the size of that set of positions. */
  lemma {:induction false} ElementOccurrencesCountsPositions(entries: seq<StackEntry>, ref: QName)
    ensures ElementOccurrences(entries, ref) == |set i | 0 <= i < |entries| && IsElementOfType(entries[i], ref)|
  {
    if entries != [] {
      var n := |entries| - 1;
      var prefix := entries[..n];
      ElementOccurrencesCountsPositions(prefix, ref);
      var before := set i | 0 <= i < |prefix| && IsElementOfType(prefix[i], ref);
      var after := set i | 0 <= i < |entries| && IsElementOfType(entries[i], ref);
      if IsElementOfType(entries[n], ref) {
        assert after == before + {n};
      } else {
        assert after == before;
      }
    }
  }
}
