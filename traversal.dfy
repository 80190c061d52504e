/**
 * The depth-first walk over the type graph (ElementTraverser.kt, lines 73-246).
 *
 * The functions `ElementRun`, `FollowRun`, `ChildrenRun`, `GroupRun` and `ChildRun`
 * say what one traversal step reports: the forks it signals, in order, and the
 * error that ends it, if any. The class `ElementTraverser` is the traverser itself,
 * pushing and popping a `TrackStack`, and its methods are proved to report exactly that.
 */
module Traversal {
  import opened Wrappers
  import opened Core
  import opened Tracking
  import opened Hierarchy

  /** Why a traversal stops. */
  datatype TraversalError =
    | TypeNotFound(displayName: string, ref: QName)  // an element's structure is not registered
    | DecidedTypeNotComplex(decided: QName)          // a decision names no registered complex type
    | OutOfFuel                                      // the nesting bound of the model was reached

  /** The forks signalled, in order, and the error that ended the walk, if any. */
  datatype Run = Run(signals: seq<ImplementationChoice>, error: Option<TraversalError>)

  /** `first` signalled, then `rest`. */
  function Then(first: seq<ImplementationChoice>, rest: Run): Run
  {
    Run(first + rest.signals, rest.error)
  }

  /** Signalling `first` after `reported`, then what `rest` signals, reports `reported` followed by `Then(first, rest)`. */
  lemma ThenAfter(reported: seq<ImplementationChoice>, first: seq<ImplementationChoice>, rest: Run)
    ensures reported + first + rest.signals == reported + Then(first, rest).signals
  {
  }

  /** Following implementations changes only the top entry of the stack. */
  lemma FollowedKeepsBelow(pushed: seq<StackEntry>, paths: seq<ComplexType>, n: nat, marked: bool)
    requires pushed != [] && n <= |paths|
    ensures |Followed(pushed, paths, n, marked)| == |pushed|
    ensures Followed(pushed, paths, n, marked)[..|pushed| - 1] == pushed[..|pushed| - 1]
  {
  }

  /** The default depth of the recursion guard. */
  const MaxDepth: int := 2

  function Names(types: seq<ComplexType>): (names: seq<QName>)
    ensures |names| == |types|
    ensures forall i :: 0 <= i < |types| ==> names[i] == types[i].name
  {
    seq(|types|, i requires 0 <= i < |types| => types[i].name)
  }

  /** The stack entry pushed for an element, with no marker yet. */
  function EntryFor(element: ElementBase): StackEntry
  {
    StackEntry(Tracked(element), StackMetadata(None))
  }

  /** The stack an implementation is followed on: the top entry carries the marker when several were possible. */
  function MarkedStack(pushed: seq<StackEntry>, implementation: ComplexType, marked: bool): seq<StackEntry>
    requires pushed != []
  {
    if marked then WithMarker(pushed, implementation.name) else pushed
  }

  /** The stack once the first `n` implementations in `paths` were followed: the top entry keeps the last marker set. */
  function Followed(pushed: seq<StackEntry>, paths: seq<ComplexType>, n: nat, marked: bool): (r: seq<StackEntry>)
    requires pushed != [] && n <= |paths|
  {
    if n == 0 then pushed else MarkedStack(pushed, paths[n - 1], marked)
  }

  // ---------------------------------------------------------------------------
  // Sizes, for termination

  function Size(children: seq<StructureElement>): nat
  {
    if children == [] then 0
    else Size(children[..|children| - 1]) + ItemSize(children[|children| - 1]) + 1
  }

  function ItemSize(child: StructureElement): (n: nat)
    ensures n >= 1
  {
    match child
    case Field(_) => 1
    case SequenceOf(items) => Size(items) + 1
    case ChoiceOf(items) => Size(items) + 1
  }

  lemma {:induction false} ItemSizeBelow(children: seq<StructureElement>, i: nat)
    requires i < |children|
    ensures ItemSize(children[i]) < Size(children)
  {
    if i < |children| - 1 {
      ItemSizeBelow(children[..|children| - 1], i);
    }
  }

  // ---------------------------------------------------------------------------
  // What a traversal reports

  /**
   * The implementations to follow at `path`: the decided type when a decision targets
   * the path (an error when it names no registered complex type), otherwise all of them.
   */
  function DecidePaths(db: TypeTable, decisions: seq<ImplementationDecision>, path: string,
                       allPossible: seq<ComplexType>): (r: Result<seq<ComplexType>, TraversalError>)
    requires db.WellFormed()
    ensures GetImplementationDecision(decisions, path).None? ==> r == Success(allPossible)
    ensures GetImplementationDecision(decisions, path).Some? ==>
              var decided := GetImplementationDecision(decisions, path).value.decision;
              if decided in db.structures && db.structures[decided].Group?
              then r.Success? && |r.value| == 1 && r.value[0].name == decided && Registered(db, r.value[0])
              else r == Failure(DecidedTypeNotComplex(decided))
  {
    match GetImplementationDecision(decisions, path)
    case None => Success(allPossible)
    case Some(decision) =>
      match db.Get(decision.decision)
      case Some(Group(decidedType)) => Success([decidedType])
      case _ => Failure(DecidedTypeNotComplex(decision.decision))
  }

  /** Traversing `element` on the stack `stack` (traverseElement): push it, then walk its structure. */
  function ElementRun(db: TypeTable, rank: map<QName, nat>, decisions: seq<ImplementationDecision>,
                      stack: seq<StackEntry>, element: ElementBase, fuel: nat): Run
    requires Acyclic(db, rank)
    decreases fuel, 0, 0
  {
    if fuel == 0 then Run([], Some(OutOfFuel))
    else StructureRun(db, rank, decisions, stack + [EntryFor(element)], element, fuel - 1)
  }

  /**
   * Walking the structure `element` refers to, with `element` on top of `pushed`: an error when it
   * is not registered, nothing for a simple type, and every implementation of a complex type.
   */
  function StructureRun(db: TypeTable, rank: map<QName, nat>, decisions: seq<ImplementationDecision>,
                        pushed: seq<StackEntry>, element: ElementBase, fuel: nat): Run
    requires Acyclic(db, rank) && pushed != []
    decreases fuel, 4, 0
  {
    var ref := element.StructureReference();
    match db.Get(ref)
    case None => Run([], Some(TypeNotFound(element.DisplayName(), ref)))
    case Some(SimpleField(_, _)) => Run([], None)
    case Some(Group(t)) => ImplementationsRun(db, rank, decisions, pushed, element, AllConcrete(db, rank, t), fuel)
  }

  /** The fork signalled at `path` before following `pathsToFollow`: one when more than one remains. */
  function Fork(path: string, pathsToFollow: seq<ComplexType>): (r: seq<ImplementationChoice>)
    ensures |r| <= 1
    ensures r != [] <==> |pathsToFollow| > 1
  {
    if |pathsToFollow| > 1 then [ImplementationChoice(path, Names(pathsToFollow))] else []
  }

  /**
   * Choosing which of the `possibleImplementations` to follow for the element on top of `pushed`:
   * the decided one, or else all of them, signalling a fork when more than one remains.
   */
  function ImplementationsRun(db: TypeTable, rank: map<QName, nat>, decisions: seq<ImplementationDecision>,
                              pushed: seq<StackEntry>, element: ElementBase,
                              possibleImplementations: seq<ComplexType>, fuel: nat): Run
    requires Acyclic(db, rank) && pushed != []
    requires forall u :: u in possibleImplementations ==> Registered(db, u)
    decreases fuel, 3, 0
  {
    var path := PathString(pushed);
    match DecidePaths(db, decisions, path, possibleImplementations)
    case Failure(err) => Run([], Some(err))
    case Success(pathsToFollow) =>
      Then(Fork(path, pathsToFollow),
           FollowRun(db, rank, decisions, pushed, element, pathsToFollow, |pathsToFollow|, |possibleImplementations| > 1, fuel))
  }

  /** Following the first `n` implementations in `pathsToFollow` in turn, marking each first when `marked`. */
  function FollowRun(db: TypeTable, rank: map<QName, nat>, decisions: seq<ImplementationDecision>,
                     pushed: seq<StackEntry>, element: ElementBase, pathsToFollow: seq<ComplexType>, n: nat,
                     marked: bool, fuel: nat): Run
    requires Acyclic(db, rank) && pushed != [] && n <= |pathsToFollow|
    requires forall t :: t in pathsToFollow ==> Registered(db, t)
    decreases fuel, 2, n
  {
    if n == 0 then Run([], None)
    else
      var before := FollowRun(db, rank, decisions, pushed, element, pathsToFollow, n - 1, marked, fuel);
      if before.error.Some? then before
      else
        var next := pathsToFollow[n - 1];
        Then(before.signals, ChildrenRun(db, rank, decisions, MarkedStack(pushed, next, marked), element, next, fuel))
  }

  /** Descending into the content of implementation `t`, unless it is abstract (traverseComplexTypeChildren). */
  function ChildrenRun(db: TypeTable, rank: map<QName, nat>, decisions: seq<ImplementationDecision>,
                       stack: seq<StackEntry>, element: ElementBase, t: ComplexType, fuel: nat): Run
    requires Acyclic(db, rank) && Registered(db, t)
    decreases fuel, 1, 0
  {
    if t.isAbstract then Run([], None)
    else GroupRun(db, rank, decisions, stack + [EntryFor(element)], AllChildren(db, rank, t), fuel)
  }

  /** Traversing `children` in order on `stack`, stopping at the first error (traverseGroupChildren). */
  function GroupRun(db: TypeTable, rank: map<QName, nat>, decisions: seq<ImplementationDecision>,
                    stack: seq<StackEntry>, children: seq<StructureElement>, fuel: nat): Run
    requires Acyclic(db, rank)
    decreases fuel, 0, Size(children)
  {
    if children == [] then Run([], None)
    else
      var before := GroupRun(db, rank, decisions, stack, children[..|children| - 1], fuel);
      if before.error.Some? then before
      else Then(before.signals, ChildRun(db, rank, decisions, stack, children[|children| - 1], fuel))
  }

  /**
   * Traversing one child: an element unless the recursion guard holds for it, a sequence
   * or choice group by pushing it and walking its items.
   */
  function ChildRun(db: TypeTable, rank: map<QName, nat>, decisions: seq<ImplementationDecision>,
                    stack: seq<StackEntry>, child: StructureElement, fuel: nat): Run
    requires Acyclic(db, rank)
    decreases fuel, 0, ItemSize(child)
  {
    match child
    case Field(e) =>
      if RecursionWillStart(stack, e, MaxDepth) then Run([], None)
      else ElementRun(db, rank, decisions, stack, Local(e), fuel)
    case SequenceOf(items) =>
      if |items| > 0
      then GroupRun(db, rank, decisions, stack + [StackEntry(SequenceNode(items), StackMetadata(None))], items, fuel)
      else Run([], None)
    case ChoiceOf(items) =>
      if |items| > 0
      then GroupRun(db, rank, decisions, stack + [StackEntry(ChoiceNode(items), StackMetadata(None))], items, fuel)
      else Run([], None)
  }

  // ---------------------------------------------------------------------------
  // An error ends the walk: what follows it is never reported

  lemma {:induction false} FollowRunStops(db: TypeTable, rank: map<QName, nat>,
                                          decisions: seq<ImplementationDecision>, pushed: seq<StackEntry>,
                                          element: ElementBase, paths: seq<ComplexType>, k: nat, n: nat,
                                          marked: bool, fuel: nat)
    requires Acyclic(db, rank) && pushed != [] && k <= n <= |paths|
    requires forall t :: t in paths ==> Registered(db, t)
    requires FollowRun(db, rank, decisions, pushed, element, paths, k, marked, fuel).error.Some?
    ensures FollowRun(db, rank, decisions, pushed, element, paths, n, marked, fuel)
            == FollowRun(db, rank, decisions, pushed, element, paths, k, marked, fuel)
  {
    if k < n {
      FollowRunStops(db, rank, decisions, pushed, element, paths, k, n - 1, marked, fuel);
    }
  }

  lemma {:induction false} GroupRunStops(db: TypeTable, rank: map<QName, nat>,
                                         decisions: seq<ImplementationDecision>, stack: seq<StackEntry>,
                                         children: seq<StructureElement>, k: nat, fuel: nat)
    requires Acyclic(db, rank) && k <= |children|
    requires GroupRun(db, rank, decisions, stack, children[..k], fuel).error.Some?
    ensures GroupRun(db, rank, decisions, stack, children, fuel)
            == GroupRun(db, rank, decisions, stack, children[..k], fuel)
    decreases |children| - k
  {
    if k < |children| {
      assert children[..|children| - 1][..k] == children[..k];
      GroupRunStops(db, rank, decisions, stack, children[..|children| - 1], k, fuel);
    } else {
      assert children[..k] == children;
    }
  }

  // ---------------------------------------------------------------------------
  // Enough fuel: the nesting bound is never what ends a walk
  //
  // A field of complex type T is on the stack twice while its children are walked
  // (pushed by the walk of the element and again by the walk of its implementation),
  // so the recursion guard lets no further field of type T through below it. Each
  // entered field therefore closes one registered name, and a walk from a stack on
  // which n names are still open nests at most n + 1 elements deep.

  /** The registered names whose fields the recursion guard still lets through on `stack`. */
  ghost function Open(db: TypeTable, stack: seq<StackEntry>): set<QName>
  {
    set k | k in db.structures && ElementOccurrences(stack, k) < 2
  }

  lemma {:induction false} SubsetSize<T>(a: set<T>, b: set<T>)
    requires a <= b
    ensures |a| <= |b|
    decreases a
  {
    if a != {} {
      var x :| x in a;
      SubsetSize(a - {x}, b - {x});
    }
  }

  /** Pushing never opens a name; pushing anything but a local element closes none. */
  lemma OpenPush(db: TypeTable, stack: seq<StackEntry>, entry: StackEntry)
    ensures Open(db, stack + [entry]) <= Open(db, stack)
    ensures !(entry.item.Tracked? && entry.item.base.Local?) ==> Open(db, stack + [entry]) == Open(db, stack)
  {
    forall k
      ensures ElementOccurrences(stack + [entry], k)
              == ElementOccurrences(stack, k) + (if IsElementOfType(entry, k) then 1 else 0)
    {
      ElementOccurrencesPush(stack, entry, k);
    }
  }

  /** The marker an implementation sets on the top entry opens or closes nothing. */
  lemma OpenMarked(db: TypeTable, pushed: seq<StackEntry>, t: ComplexType, marked: bool, entry: StackEntry)
    requires pushed != []
    ensures Open(db, MarkedStack(pushed, t, marked) + [entry]) == Open(db, pushed + [entry])
  {
    if marked {
      forall k
        ensures ElementOccurrences(MarkedStack(pushed, t, marked) + [entry], k) == ElementOccurrences(pushed + [entry], k)
      {
        ElementOccurrencesIgnoreMarkers(pushed, t.name, k);
        ElementOccurrencesPush(WithMarker(pushed, t.name), entry, k);
        ElementOccurrencesPush(pushed, entry, k);
      }
    }
  }

  /**
   * Walking a field that passes the guard closes its type: with the field pushed twice, the
   * guard stops every further field of that type, so a self-referencing field nests only once,
   * and the open names shrink by at least one.
   */
  lemma FieldCloses(db: TypeTable, stack: seq<StackEntry>, e: Element)
    requires e.elementType in db.structures && !RecursionWillStart(stack, e, MaxDepth)
    ensures RecursionWillStart(stack + [EntryFor(Local(e))] + [EntryFor(Local(e))], e, MaxDepth)
    ensures e.elementType in Open(db, stack)
    ensures e.elementType !in Open(db, stack + [EntryFor(Local(e))] + [EntryFor(Local(e))])
    ensures |Open(db, stack + [EntryFor(Local(e))] + [EntryFor(Local(e))])| < |Open(db, stack)|
  {
    var entry := EntryFor(Local(e));
    var t := e.elementType;
    OpenPush(db, stack, entry);
    OpenPush(db, stack + [entry], entry);
    ElementOccurrencesPush(stack, entry, t);
    ElementOccurrencesPush(stack + [entry], entry, t);
    var inner := Open(db, stack + [entry] + [entry]);
    assert t in Open(db, stack) && t !in inner;
    SubsetSize(inner, Open(db, stack) - {t});
  }

  lemma {:induction false} StructureRunFuel(db: TypeTable, rank: map<QName, nat>, decisions: seq<ImplementationDecision>,
                                            pushed: seq<StackEntry>, element: ElementBase, fuel: nat)
    requires Acyclic(db, rank) && pushed != []
    requires fuel >= |Open(db, pushed + [EntryFor(element)])| + 1
    ensures StructureRun(db, rank, decisions, pushed, element, fuel).error != Some(OutOfFuel)
    decreases fuel, 4, 0
  {
    match db.Get(element.StructureReference())
    case None =>
    case Some(SimpleField(_, _)) =>
    case Some(Group(t)) =>
      ImplementationsRunFuel(db, rank, decisions, pushed, element, AllConcrete(db, rank, t), fuel);
  }

  lemma {:induction false} ImplementationsRunFuel(db: TypeTable, rank: map<QName, nat>,
                                                  decisions: seq<ImplementationDecision>, pushed: seq<StackEntry>,
                                                  element: ElementBase, possible: seq<ComplexType>, fuel: nat)
    requires Acyclic(db, rank) && pushed != []
    requires forall u :: u in possible ==> Registered(db, u)
    requires fuel >= |Open(db, pushed + [EntryFor(element)])| + 1
    ensures ImplementationsRun(db, rank, decisions, pushed, element, possible, fuel).error != Some(OutOfFuel)
    decreases fuel, 3, 0
  {
    match DecidePaths(db, decisions, PathString(pushed), possible)
    case Failure(_) =>
    case Success(paths) =>
      FollowRunFuel(db, rank, decisions, pushed, element, paths, |paths|, |possible| > 1, fuel);
  }

  lemma {:induction false} FollowRunFuel(db: TypeTable, rank: map<QName, nat>, decisions: seq<ImplementationDecision>,
                                         pushed: seq<StackEntry>, element: ElementBase, paths: seq<ComplexType>,
                                         n: nat, marked: bool, fuel: nat)
    requires Acyclic(db, rank) && pushed != [] && n <= |paths|
    requires forall t :: t in paths ==> Registered(db, t)
    requires fuel >= |Open(db, pushed + [EntryFor(element)])| + 1
    ensures FollowRun(db, rank, decisions, pushed, element, paths, n, marked, fuel).error != Some(OutOfFuel)
    decreases fuel, 2, n
  {
    if n > 0 {
      FollowRunFuel(db, rank, decisions, pushed, element, paths, n - 1, marked, fuel);
      var next := paths[n - 1];
      OpenMarked(db, pushed, next, marked, EntryFor(element));
      ChildrenRunFuel(db, rank, decisions, MarkedStack(pushed, next, marked), element, next, fuel);
    }
  }

  lemma {:induction false} ChildrenRunFuel(db: TypeTable, rank: map<QName, nat>, decisions: seq<ImplementationDecision>,
                                           stack: seq<StackEntry>, element: ElementBase, t: ComplexType, fuel: nat)
    requires Acyclic(db, rank) && Registered(db, t)
    requires fuel >= |Open(db, stack + [EntryFor(element)])| + 1
    ensures ChildrenRun(db, rank, decisions, stack, element, t, fuel).error != Some(OutOfFuel)
    decreases fuel, 1, 0
  {
    if !t.isAbstract {
      GroupRunFuel(db, rank, decisions, stack + [EntryFor(element)], AllChildren(db, rank, t), fuel);
    }
  }

  lemma {:induction false} GroupRunFuel(db: TypeTable, rank: map<QName, nat>, decisions: seq<ImplementationDecision>,
                                        stack: seq<StackEntry>, children: seq<StructureElement>, fuel: nat)
    requires Acyclic(db, rank)
    requires fuel >= |Open(db, stack)| + 1
    ensures GroupRun(db, rank, decisions, stack, children, fuel).error != Some(OutOfFuel)
    decreases fuel, 0, Size(children)
  {
    if children != [] {
      ItemSizeBelow(children, |children| - 1);
      GroupRunFuel(db, rank, decisions, stack, children[..|children| - 1], fuel);
      ChildRunFuel(db, rank, decisions, stack, children[|children| - 1], fuel);
    }
  }

  lemma {:induction false} ChildRunFuel(db: TypeTable, rank: map<QName, nat>, decisions: seq<ImplementationDecision>,
                                        stack: seq<StackEntry>, child: StructureElement, fuel: nat)
    requires Acyclic(db, rank)
    requires fuel >= |Open(db, stack)| + 1
    ensures ChildRun(db, rank, decisions, stack, child, fuel).error != Some(OutOfFuel)
    decreases fuel, 0, ItemSize(child)
  {
    match child
    case Field(e) =>
      if !RecursionWillStart(stack, e, MaxDepth) {
        var pushed := stack + [EntryFor(Local(e))];
        assert ElementRun(db, rank, decisions, stack, Local(e), fuel)
               == StructureRun(db, rank, decisions, pushed, Local(e), fuel - 1);
        if e.elementType in db.structures {
          FieldCloses(db, stack, e);
          StructureRunFuel(db, rank, decisions, pushed, Local(e), fuel - 1);
        }
      }
    case SequenceOf(items) =>
      var entry := StackEntry(SequenceNode(items), StackMetadata(None));
      OpenPush(db, stack, entry);
      GroupRunFuel(db, rank, decisions, stack + [entry], items, fuel);
    case ChoiceOf(items) =>
      var entry := StackEntry(ChoiceNode(items), StackMetadata(None));
      OpenPush(db, stack, entry);
      GroupRunFuel(db, rank, decisions, stack + [entry], items, fuel);
  }

  /**
   * Fuel of two more than the number of open names is enough: the walk ends for a reason
   * of its own, never because the nesting bound was reached.
   */
  lemma EnoughFuel(db: TypeTable, rank: map<QName, nat>, decisions: seq<ImplementationDecision>,
                   stack: seq<StackEntry>, element: ElementBase, fuel: nat)
    requires Acyclic(db, rank)
    requires fuel >= |Open(db, stack)| + 2
    ensures ElementRun(db, rank, decisions, stack, element, fuel).error != Some(OutOfFuel)
  {
    var entry := EntryFor(element);
    OpenPush(db, stack, entry);
    OpenPush(db, stack + [entry], entry);
    SubsetSize(Open(db, stack + [entry] + [entry]), Open(db, stack));
    StructureRunFuel(db, rank, decisions, stack + [entry], element, fuel - 1);
  }

  /** From the empty stack every registered name is open, so the number of structures plus two suffices. */
  lemma EnoughFuelFromScratch(db: TypeTable, rank: map<QName, nat>, decisions: seq<ImplementationDecision>,
                              element: ElementBase, fuel: nat)
    requires Acyclic(db, rank)
    requires fuel >= |db.structures| + 2
    ensures ElementRun(db, rank, decisions, [], element, fuel).error != Some(OutOfFuel)
  {
    SubsetSize(Open(db, []), db.structures.Keys);
    EnoughFuel(db, rank, decisions, [], element, fuel);
  }

  // Once the fuel is enough, more of it changes nothing: the walk is the program's own.

  lemma {:induction false} StructureRunSameFuel(db: TypeTable, rank: map<QName, nat>,
                                                decisions: seq<ImplementationDecision>, pushed: seq<StackEntry>,
                                                element: ElementBase, fuel: nat, more: nat)
    requires Acyclic(db, rank) && pushed != []
    requires fuel >= |Open(db, pushed + [EntryFor(element)])| + 1 && more >= fuel
    ensures StructureRun(db, rank, decisions, pushed, element, more)
            == StructureRun(db, rank, decisions, pushed, element, fuel)
    decreases fuel, 4, 0
  {
    match db.Get(element.StructureReference())
    case None =>
    case Some(SimpleField(_, _)) =>
    case Some(Group(t)) =>
      ImplementationsRunSameFuel(db, rank, decisions, pushed, element, AllConcrete(db, rank, t), fuel, more);
  }

  lemma {:induction false} ImplementationsRunSameFuel(db: TypeTable, rank: map<QName, nat>,
                                                      decisions: seq<ImplementationDecision>, pushed: seq<StackEntry>,
                                                      element: ElementBase, possible: seq<ComplexType>,
                                                      fuel: nat, more: nat)
    requires Acyclic(db, rank) && pushed != []
    requires forall u :: u in possible ==> Registered(db, u)
    requires fuel >= |Open(db, pushed + [EntryFor(element)])| + 1 && more >= fuel
    ensures ImplementationsRun(db, rank, decisions, pushed, element, possible, more)
            == ImplementationsRun(db, rank, decisions, pushed, element, possible, fuel)
    decreases fuel, 3, 0
  {
    match DecidePaths(db, decisions, PathString(pushed), possible)
    case Failure(_) =>
    case Success(paths) =>
      FollowRunSameFuel(db, rank, decisions, pushed, element, paths, |paths|, |possible| > 1, fuel, more);
  }

  lemma {:induction false} FollowRunSameFuel(db: TypeTable, rank: map<QName, nat>,
                                             decisions: seq<ImplementationDecision>, pushed: seq<StackEntry>,
                                             element: ElementBase, paths: seq<ComplexType>, n: nat, marked: bool,
                                             fuel: nat, more: nat)
    requires Acyclic(db, rank) && pushed != [] && n <= |paths|
    requires forall t :: t in paths ==> Registered(db, t)
    requires fuel >= |Open(db, pushed + [EntryFor(element)])| + 1 && more >= fuel
    ensures FollowRun(db, rank, decisions, pushed, element, paths, n, marked, more)
            == FollowRun(db, rank, decisions, pushed, element, paths, n, marked, fuel)
    decreases fuel, 2, n
  {
    if n > 0 {
      FollowRunSameFuel(db, rank, decisions, pushed, element, paths, n - 1, marked, fuel, more);
      var next := paths[n - 1];
      OpenMarked(db, pushed, next, marked, EntryFor(element));
      ChildrenRunSameFuel(db, rank, decisions, MarkedStack(pushed, next, marked), element, next, fuel, more);
    }
  }

  lemma {:induction false} ChildrenRunSameFuel(db: TypeTable, rank: map<QName, nat>,
                                               decisions: seq<ImplementationDecision>, stack: seq<StackEntry>,
                                               element: ElementBase, t: ComplexType, fuel: nat, more: nat)
    requires Acyclic(db, rank) && Registered(db, t)
    requires fuel >= |Open(db, stack + [EntryFor(element)])| + 1 && more >= fuel
    ensures ChildrenRun(db, rank, decisions, stack, element, t, more)
            == ChildrenRun(db, rank, decisions, stack, element, t, fuel)
    decreases fuel, 1, 0
  {
    if !t.isAbstract {
      GroupRunSameFuel(db, rank, decisions, stack + [EntryFor(element)], AllChildren(db, rank, t), fuel, more);
    }
  }

  lemma {:induction false} GroupRunSameFuel(db: TypeTable, rank: map<QName, nat>,
                                            decisions: seq<ImplementationDecision>, stack: seq<StackEntry>,
                                            children: seq<StructureElement>, fuel: nat, more: nat)
    requires Acyclic(db, rank)
    requires fuel >= |Open(db, stack)| + 1 && more >= fuel
    ensures GroupRun(db, rank, decisions, stack, children, more) == GroupRun(db, rank, decisions, stack, children, fuel)
    decreases fuel, 0, Size(children)
  {
    if children != [] {
      ItemSizeBelow(children, |children| - 1);
      GroupRunSameFuel(db, rank, decisions, stack, children[..|children| - 1], fuel, more);
      ChildRunSameFuel(db, rank, decisions, stack, children[|children| - 1], fuel, more);
    }
  }

  lemma {:induction false} ChildRunSameFuel(db: TypeTable, rank: map<QName, nat>,
                                            decisions: seq<ImplementationDecision>, stack: seq<StackEntry>,
                                            child: StructureElement, fuel: nat, more: nat)
    requires Acyclic(db, rank)
    requires fuel >= |Open(db, stack)| + 1 && more >= fuel
    ensures ChildRun(db, rank, decisions, stack, child, more) == ChildRun(db, rank, decisions, stack, child, fuel)
    decreases fuel, 0, ItemSize(child)
  {
    match child
    case Field(e) =>
      if !RecursionWillStart(stack, e, MaxDepth) {
        var pushed := stack + [EntryFor(Local(e))];
        assert ElementRun(db, rank, decisions, stack, Local(e), fuel)
               == StructureRun(db, rank, decisions, pushed, Local(e), fuel - 1);
        assert ElementRun(db, rank, decisions, stack, Local(e), more)
               == StructureRun(db, rank, decisions, pushed, Local(e), more - 1);
        if e.elementType in db.structures {
          FieldCloses(db, stack, e);
          StructureRunSameFuel(db, rank, decisions, pushed, Local(e), fuel - 1, more - 1);
        }
      }
    case SequenceOf(items) =>
      var entry := StackEntry(SequenceNode(items), StackMetadata(None));
      OpenPush(db, stack, entry);
      GroupRunSameFuel(db, rank, decisions, stack + [entry], items, fuel, more);
    case ChoiceOf(items) =>
      var entry := StackEntry(ChoiceNode(items), StackMetadata(None));
      OpenPush(db, stack, entry);
      GroupRunSameFuel(db, rank, decisions, stack + [entry], items, fuel, more);
  }

  /** Any two amounts of fuel past the bound give the same walk: same forks, same error. */
  lemma ElementRunSameFuel(db: TypeTable, rank: map<QName, nat>, decisions: seq<ImplementationDecision>,
                           stack: seq<StackEntry>, element: ElementBase, fuel: nat, more: nat)
    requires Acyclic(db, rank)
    requires fuel >= |Open(db, stack)| + 2 && more >= fuel
    ensures ElementRun(db, rank, decisions, stack, element, more) == ElementRun(db, rank, decisions, stack, element, fuel)
  {
    var entry := EntryFor(element);
    OpenPush(db, stack, entry);
    OpenPush(db, stack + [entry], entry);
    SubsetSize(Open(db, stack + [entry] + [entry]), Open(db, stack));
    StructureRunSameFuel(db, rank, decisions, stack + [entry], element, fuel - 1, more - 1);
  }

  // ---------------------------------------------------------------------------
  // The traverser

  /**
   * Walks the type graph of `typeDb` depth first, following the implementations
   * `decisions` pick, and records every fork it finds in `options`.
   */
  class ElementTraverser {
    const typeDb: KnownBuildingBlocks
    const decisions: seq<ImplementationDecision>
    /** Witnesses that the registry's extension links are acyclic. */
    ghost const rank: map<QName, nat>
    /** The registry's structures, as the traversal reads them. */
    ghost const types: TypeTable
    /** The forks signalled so far, in order. */
    var options: seq<ImplementationChoice>

    ghost predicate Valid()
      reads typeDb
    {
      types == typeDb.Table() && Acyclic(types, rank)
    }

    constructor (typeDb: KnownBuildingBlocks, decisions: seq<ImplementationDecision>, ghost rank: map<QName, nat>)
      requires Acyclic(typeDb.Table(), rank)
      ensures Valid()
      ensures this.typeDb == typeDb && this.decisions == decisions && this.rank == rank
      ensures options == []
    {
      this.typeDb := typeDb;
      this.decisions := decisions;
      this.rank := rank;
      this.types := typeDb.Table();
      options := [];
    }

    /** The fork hook: records that at the stack's current path any of `possibilities` can be chosen. */
    method SignalThatChoosingAnImplementationIsPossible(stack: TrackStack, possibilities: seq<QName>)
      modifies this`options
      ensures options == old(options) + [ImplementationChoice(stack.ToString(), possibilities)]
    {
      options := options + [ImplementationChoice(stack.ToString(), possibilities)];
    }

    function GetChoices(): (r: seq<ImplementationChoice>)
      reads this
      ensures r == options
    {
      options
    }

    /** Traverses `element`, and everything below it, on `stack`. */
    method TraverseElement(element: ElementBase, stack: TrackStack, fuel: nat) returns (error: Option<TraversalError>)
      requires Valid()
      modifies this`options, stack
      ensures options == old(options) + ElementRun(types, rank, decisions, old(stack.elements), element, fuel).signals
      ensures error == ElementRun(types, rank, decisions, old(stack.elements), element, fuel).error
      ensures error.None? ==> stack.elements == old(stack.elements)
      decreases fuel, 0, 0, 0
    {
      if fuel == 0 {
        return Some(OutOfFuel);
      }
      stack.Push(Tracked(element));
      error := TraverseStructure(stack, element, fuel - 1);
      if error.Some? {
        return;
      }
      ghost var top := stack.elements;
      assert top[..|top| - 1] == old(stack.elements);
      var _ := stack.Pop();
    }

    /** Walks the structure the element on top of `stack` refers to. */
    method TraverseStructure(stack: TrackStack, element: ElementBase, fuel: nat) returns (error: Option<TraversalError>)
      requires Valid() && stack.elements != []
      modifies this`options, stack
      ensures options == old(options) + StructureRun(types, rank, decisions, old(stack.elements), element, fuel).signals
      ensures error == StructureRun(types, rank, decisions, old(stack.elements), element, fuel).error
      ensures error.None? ==> |stack.elements| == |old(stack.elements)|
                              && stack.elements[..|stack.elements| - 1] == old(stack.elements)[..|stack.elements| - 1]
      decreases fuel, 4, 0, 0
    {
      var ref := element.StructureReference();
      assert typeDb.GetStructure(ref) == types.Get(ref);
      match typeDb.GetStructure(ref) {
      case None =>
        return Some(TypeNotFound(element.DisplayName(), ref));
      case Some(SimpleField(_, _)) =>
        return None;
      case Some(Group(structure)) =>
        assert typeDb.knownStructures[ref].QNameOf() == ref;
        var possibleImplementations := AllConcreteImplementations(structure);
        error := TraverseImplementations(possibleImplementations, stack, element, fuel);
      }
    }

    /** Decides which of `possibleImplementations` to follow for the element on top of `stack`, and follows them. */
    method TraverseImplementations(possibleImplementations: seq<ComplexType>, stack: TrackStack, element: ElementBase,
                                   fuel: nat) returns (error: Option<TraversalError>)
      requires Valid() && stack.elements != []
      requires forall u :: u in possibleImplementations ==> Registered(types, u)
      modifies this`options, stack
      ensures options == old(options)
                         + ImplementationsRun(types, rank, decisions, old(stack.elements), element, possibleImplementations, fuel).signals
      ensures error == ImplementationsRun(types, rank, decisions, old(stack.elements), element, possibleImplementations, fuel).error
      ensures error.None? ==> |stack.elements| == |old(stack.elements)|
                              && stack.elements[..|stack.elements| - 1] == old(stack.elements)[..|stack.elements| - 1]
      decreases fuel, 3, 0, 0
    {
      var decided := DecidePaths(typeDb.Table(), decisions, stack.ToString(), possibleImplementations);
      if decided.Failure? {
        return Some(decided.error);
      }
      error := SignalAndFollow(decided.value, |possibleImplementations| > 1, stack, element, fuel);
    }

    /** Signals a fork when more than one of `pathsToFollow` remains, then follows each of them. */
    method SignalAndFollow(pathsToFollow: seq<ComplexType>, marked: bool, stack: TrackStack,
                           element: ElementBase, fuel: nat) returns (error: Option<TraversalError>)
      requires Valid() && stack.elements != []
      requires forall t :: t in pathsToFollow ==> Registered(types, t)
      modifies this`options, stack
      ensures options == old(options) + Then(Fork(PathString(old(stack.elements)), pathsToFollow),
                                             FollowRun(types, rank, decisions, old(stack.elements), element,
                                                       pathsToFollow, |pathsToFollow|, marked, fuel)).signals
      ensures error == FollowRun(types, rank, decisions, old(stack.elements), element,
                                 pathsToFollow, |pathsToFollow|, marked, fuel).error
      ensures error.None? ==> |stack.elements| == |old(stack.elements)|
                              && stack.elements[..|stack.elements| - 1] == old(stack.elements)[..|stack.elements| - 1]
      decreases fuel, 2, 0, 1
    {
      ghost var pushed := stack.elements;
      if |pathsToFollow| > 1 {
        SignalThatChoosingAnImplementationIsPossible(stack, Names(pathsToFollow));
      }
      ghost var signalled := options;
      error := FollowImplementations(pathsToFollow, marked, stack, element, fuel);
      ThenAfter(old(options), Fork(PathString(pushed), pathsToFollow),
                FollowRun(types, rank, decisions, pushed, element, pathsToFollow, |pathsToFollow|, marked, fuel));
      if error.None? {
        FollowedKeepsBelow(pushed, pathsToFollow, |pathsToFollow|, marked);
      }
    }

    /**
     * Follows each implementation in turn on the stack whose top entry is `element`,
     * first marking the top entry with it when `marked`.
     */
    method FollowImplementations(pathsToFollow: seq<ComplexType>, marked: bool, stack: TrackStack,
                                 element: ElementBase, fuel: nat) returns (error: Option<TraversalError>)
      requires Valid() && stack.elements != []
      requires forall t :: t in pathsToFollow ==> Registered(types, t)
      modifies this`options, stack
      ensures options == old(options) + FollowRun(types, rank, decisions, old(stack.elements), element,
                                                  pathsToFollow, |pathsToFollow|, marked, fuel).signals
      ensures error == FollowRun(types, rank, decisions, old(stack.elements), element,
                                 pathsToFollow, |pathsToFollow|, marked, fuel).error
      ensures error.None? ==> stack.elements == Followed(old(stack.elements), pathsToFollow, |pathsToFollow|, marked)
      decreases fuel, 2, 0, 0
    {
      ghost var pushed := stack.elements;
      error := None;
      var i := 0;
      while i < |pathsToFollow|
        invariant 0 <= i <= |pathsToFollow|
        invariant options == old(options) + FollowRun(types, rank, decisions, pushed, element,
                                                      pathsToFollow, i, marked, fuel).signals
        invariant FollowRun(types, rank, decisions, pushed, element, pathsToFollow, i, marked, fuel).error.None?
        invariant stack.elements == Followed(pushed, pathsToFollow, i, marked)
        invariant error.None?
      {
        error := FollowNext(pathsToFollow, i, marked, stack, element, fuel, pushed, old(options));
        if error.Some? {
          FollowRunStops(types, rank, decisions, pushed, element, pathsToFollow, i + 1, |pathsToFollow|, marked, fuel);
          return;
        }
        i := i + 1;
      }
    }

    /** Follows implementation `i` of `pathsToFollow` once the ones before it were followed from `pushed`. */
    method FollowNext(pathsToFollow: seq<ComplexType>, i: nat, marked: bool, stack: TrackStack,
                      element: ElementBase, fuel: nat, ghost pushed: seq<StackEntry>,
                      ghost reported: seq<ImplementationChoice>) returns (error: Option<TraversalError>)
      requires Valid() && pushed != [] && i < |pathsToFollow|
      requires forall t :: t in pathsToFollow ==> Registered(types, t)
      requires FollowRun(types, rank, decisions, pushed, element, pathsToFollow, i, marked, fuel).error.None?
      requires options == reported + FollowRun(types, rank, decisions, pushed, element, pathsToFollow, i, marked, fuel).signals
      requires stack.elements == Followed(pushed, pathsToFollow, i, marked)
      modifies this`options, stack
      ensures options == reported + FollowRun(types, rank, decisions, pushed, element, pathsToFollow, i + 1, marked, fuel).signals
      ensures error == FollowRun(types, rank, decisions, pushed, element, pathsToFollow, i + 1, marked, fuel).error
      ensures error.None? ==> stack.elements == Followed(pushed, pathsToFollow, i + 1, marked)
      decreases fuel, 1, 0, 2
    {
      var possibleType := pathsToFollow[i];
      if marked && i > 0 {
        WithMarkerTwice(pushed, pathsToFollow[i - 1].name, possibleType.name);
      }
      ghost var before := FollowRun(types, rank, decisions, pushed, element, pathsToFollow, i, marked, fuel);
      ghost var next := ChildrenRun(types, rank, decisions, MarkedStack(pushed, possibleType, marked), element, possibleType, fuel);
      ThenAfter(reported, before.signals, next);
      error := FollowImplementation(possibleType, marked, stack, element, fuel);
    }

    /** Marks the top entry with `possibleType` when `marked`, then follows that implementation. */
    method FollowImplementation(possibleType: ComplexType, marked: bool, stack: TrackStack, element: ElementBase, fuel: nat)
      returns (error: Option<TraversalError>)
      requires Valid() && Registered(types, possibleType) && stack.elements != []
      modifies this`options, stack
      ensures options == old(options) + ChildrenRun(types, rank, decisions, MarkedStack(old(stack.elements), possibleType, marked),
                                                    element, possibleType, fuel).signals
      ensures error == ChildrenRun(types, rank, decisions, MarkedStack(old(stack.elements), possibleType, marked),
                                   element, possibleType, fuel).error
      ensures error.None? ==> stack.elements == MarkedStack(old(stack.elements), possibleType, marked)
      decreases fuel, 1, 0, 1
    {
      if marked {
        stack.SetCurrentImplementationMarker(possibleType.name);
      }
      error := TraverseComplexTypeChildren(possibleType, stack, element, fuel);
    }

    /** Pushes the element again and walks the content of `possibleType`, unless that type is abstract. */
    method TraverseComplexTypeChildren(possibleType: ComplexType, stack: TrackStack, element: ElementBase, fuel: nat)
      returns (error: Option<TraversalError>)
      requires Valid() && Registered(types, possibleType)
      modifies this`options, stack
      ensures options == old(options)
                         + ChildrenRun(types, rank, decisions, old(stack.elements), element, possibleType, fuel).signals
      ensures error == ChildrenRun(types, rank, decisions, old(stack.elements), element, possibleType, fuel).error
      ensures error.None? ==> stack.elements == old(stack.elements)
      decreases fuel, 1, 0, 0
    {
      error := None;
      if !possibleType.isAbstract {
        stack.Push(Tracked(element));
        var children := AllChildrenIncludingOnesFromParentTypes(possibleType);
        error := TraverseGroupChildren(children, stack, fuel);
        if error.Some? {
          return;
        }
        var _ := stack.Pop();
      }
    }

    /** Pushes a choice group and walks all of its items. */
    method TraverseChoice(stack: TrackStack, child: StructureElement, fuel: nat) returns (error: Option<TraversalError>)
      requires Valid() && child.ChoiceOf?
      modifies this`options, stack
      ensures options == old(options) + ChildRun(types, rank, decisions, old(stack.elements), child, fuel).signals
      ensures error == ChildRun(types, rank, decisions, old(stack.elements), child, fuel).error
      ensures error.None? ==> stack.elements == old(stack.elements)
      decreases fuel, 0, ItemSize(child), 0
    {
      error := None;
      stack.Push(ChoiceNode(child.items));
      if |child.items| > 0 {
        error := TraverseGroupChildren(child.items, stack, fuel);
        if error.Some? {
          return;
        }
      }
      var _ := stack.Pop();
    }

    /** Pushes a sequence group and walks its items in order. */
    method TraverseSequence(stack: TrackStack, child: StructureElement, fuel: nat) returns (error: Option<TraversalError>)
      requires Valid() && child.SequenceOf?
      modifies this`options, stack
      ensures options == old(options) + ChildRun(types, rank, decisions, old(stack.elements), child, fuel).signals
      ensures error == ChildRun(types, rank, decisions, old(stack.elements), child, fuel).error
      ensures error.None? ==> stack.elements == old(stack.elements)
      decreases fuel, 0, ItemSize(child), 0
    {
      error := None;
      stack.Push(SequenceNode(child.items));
      if |child.items| > 0 {
        error := TraverseGroupChildren(child.items, stack, fuel);
        if error.Some? {
          return;
        }
      }
      var _ := stack.Pop();
    }

    /** Walks `children` in order, skipping each element the recursion guard stops. */
    method TraverseGroupChildren(children: seq<StructureElement>, stack: TrackStack, fuel: nat)
      returns (error: Option<TraversalError>)
      requires Valid()
      modifies this`options, stack
      ensures options == old(options) + GroupRun(types, rank, decisions, old(stack.elements), children, fuel).signals
      ensures error == GroupRun(types, rank, decisions, old(stack.elements), children, fuel).error
      ensures error.None? ==> stack.elements == old(stack.elements)
      decreases fuel, 0, Size(children), 0
    {
      error := None;
      var i := 0;
      while i < |children|
        invariant 0 <= i <= |children|
        invariant stack.elements == old(stack.elements)
        invariant options == old(options) + GroupRun(types, rank, decisions, old(stack.elements), children[..i], fuel).signals
        invariant GroupRun(types, rank, decisions, old(stack.elements), children[..i], fuel).error.None?
        invariant error.None?
      {
        var child := children[i];
        ItemSizeBelow(children, i);
        assert children[..i + 1][..i] == children[..i];
        error := TraverseChild(child, stack, fuel);
        if error.Some? {
          GroupRunStops(types, rank, decisions, old(stack.elements), children, i + 1, fuel);
          return;
        }
        i := i + 1;
      }
      assert children[..i] == children;
    }

    /** Traverses one child of a group: an element the recursion guard admits, a sequence or a choice. */
    method TraverseChild(child: StructureElement, stack: TrackStack, fuel: nat) returns (error: Option<TraversalError>)
      requires Valid()
      modifies this`options, stack
      ensures options == old(options) + ChildRun(types, rank, decisions, old(stack.elements), child, fuel).signals
      ensures error == ChildRun(types, rank, decisions, old(stack.elements), child, fuel).error
      ensures error.None? ==> stack.elements == old(stack.elements)
      decreases fuel, 0, ItemSize(child), 1
    {
      error := None;
      match child {
        case Field(e) =>
          if !stack.RecursionWillStartWhenAdding(e) {
            error := TraverseElement(Local(e), stack, fuel);
          }
        case SequenceOf(_) =>
          error := TraverseSequence(stack, child, fuel);
        case ChoiceOf(_) =>
          error := TraverseChoice(stack, child, fuel);
      }
    }

    /** Every implementation `structure` can take: itself unless abstract, then all its subtypes. */
    method AllConcreteImplementations(structure: ComplexType) returns (possibilities: seq<ComplexType>)
      requires Valid() && Registered(types, structure)
      ensures possibilities == AllConcrete(types, rank, structure)
    {
      possibilities := [];
      if !structure.isAbstract {
        possibilities := possibilities + [structure];
      }
      var more := FindAllMoreSpecificImplementations(structure);
      possibilities := possibilities + more;
    }

    /** The direct subtypes of `structure`, followed by the subtypes of each of them in turn. */
    method FindAllMoreSpecificImplementations(structure: ComplexType) returns (implementations: seq<ComplexType>)
      requires Valid() && Registered(types, structure)
      ensures implementations == MoreSpecific(types, rank, structure)
      decreases Below(types, rank, structure.name)
    {
      var myConcreteImplementations := typeDb.GetConcreteImplementationsFor(structure.name);
      var tmp := [];
      var i := 0;
      while i < |myConcreteImplementations|
        invariant 0 <= i <= |myConcreteImplementations|
        invariant tmp == Descendants(types, rank, structure.name, myConcreteImplementations[..i])
      {
        var implementation := myConcreteImplementations[i];
        BelowShrinks(types, rank, structure.name, implementation);
        var more := FindAllMoreSpecificImplementations(implementation);
        assert myConcreteImplementations[..i + 1][..i] == myConcreteImplementations[..i];
        tmp := tmp + more;
        i := i + 1;
      }
      assert myConcreteImplementations[..i] == myConcreteImplementations;
      implementations := myConcreteImplementations + tmp;
    }

    /** The children of every ancestor of `structure`, root first, then its own. */
    method AllChildrenIncludingOnesFromParentTypes(structure: ComplexType) returns (elements: seq<StructureElement>)
      requires Valid() && Registered(types, structure)
      ensures elements == AllChildren(types, rank, structure)
    {
      var parents := ParentTypes(typeDb.Table(), rank, structure);
      elements := [];
      var i := 0;
      while i < |parents|
        invariant 0 <= i <= |parents|
        invariant elements == ChildrenOf(parents[..i])
      {
        assert parents[..i + 1][..i] == parents[..i];
        elements := elements + parents[i].children;
        i := i + 1;
      }
      assert parents[..i] == parents;
      elements := elements + structure.children;
    }
  }

  /**
   * The forks found when traversing `element` from an empty stack under `decisions`
   * (PossibleOptions), with the error that ended the traversal, if any. The walk is
   * given fuel of two more than the number of registered types, which EnoughFuelFromScratch
   * shows is never used up, and ElementRunSameFuel shows that any larger amount gives
   * the same forks and the same error.
   */
  method PossibleOptions(typeDb: KnownBuildingBlocks, element: TopLevelElement, decisions: seq<ImplementationDecision>,
                         ghost rank: map<QName, nat>)
    returns (choices: seq<ImplementationChoice>, error: Option<TraversalError>)
    requires Acyclic(typeDb.Table(), rank)
    ensures choices == ElementRun(typeDb.Table(), rank, decisions, [], TopLevel(element), |typeDb.knownStructures| + 2).signals
    ensures error == ElementRun(typeDb.Table(), rank, decisions, [], TopLevel(element), |typeDb.knownStructures| + 2).error
    ensures error != Some(OutOfFuel)
  {
    var fuel := |typeDb.knownStructures| + 2;
    EnoughFuelFromScratch(typeDb.Table(), rank, decisions, TopLevel(element), fuel);
    var traverser := new ElementTraverser(typeDb, decisions, rank);
    var stack := new TrackStack();
    error := traverser.TraverseElement(TopLevel(element), stack, fuel);
    choices := traverser.GetChoices();
  }
}
