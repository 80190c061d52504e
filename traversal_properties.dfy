/**
 * What a traversal can report, proved over the functions of `Traversal`:
 * a fork is only ever signalled where a complex type has several implementations
 * and no decision picks one, and it lists exactly the names of those implementations.
 */
module TraversalProperties {
  import opened Wrappers
  import opened Core
  import opened Tracking
  import opened Hierarchy
  import opened Traversal

  /**
   * `c` lists the names of every implementation of some registered complex type that has several,
   * each name once.
   */
  ghost predicate IsFork(db: TypeTable, rank: map<QName, nat>, c: ImplementationChoice)
    requires Acyclic(db, rank)
  {
    && (exists t :: Registered(db, t) && |AllConcrete(db, rank, t)| > 1 && c.choices == Names(AllConcrete(db, rank, t)))
    && (forall i, j :: 0 <= i < j < |c.choices| ==> c.choices[i] != c.choices[j])
  }

  ghost predicate AllForks(db: TypeTable, rank: map<QName, nat>, signals: seq<ImplementationChoice>)
    requires Acyclic(db, rank)
  {
    forall i :: 0 <= i < |signals| ==> IsFork(db, rank, signals[i])
  }

  lemma AllForksAppend(db: TypeTable, rank: map<QName, nat>, a: seq<ImplementationChoice>, b: seq<ImplementationChoice>)
    requires Acyclic(db, rank) && AllForks(db, rank, a) && AllForks(db, rank, b)
    ensures AllForks(db, rank, a + b)
  {
    forall i | 0 <= i < |a + b|
      ensures IsFork(db, rank, (a + b)[i])
    {
      if i >= |a| {
        assert (a + b)[i] == b[i - |a|];
      }
    }
  }

  /** The decision for `path`, when there is one, leaves a single implementation; otherwise all remain. */
  lemma DecidePathsNarrows(db: TypeTable, decisions: seq<ImplementationDecision>, path: string, all: seq<ComplexType>)
    requires db.WellFormed()
    ensures DecidePaths(db, decisions, path, all).Success? ==>
              DecidePaths(db, decisions, path, all).value == all || |DecidePaths(db, decisions, path, all).value| == 1
  {
  }

  /** The fork over all implementations of a type that has several is a fork in the sense of `IsFork`. */
  lemma ForkOfAll(db: TypeTable, rank: map<QName, nat>, t: ComplexType, path: string)
    requires Acyclic(db, rank) && Registered(db, t) && |AllConcrete(db, rank, t)| > 1
    ensures IsFork(db, rank, ImplementationChoice(path, Names(AllConcrete(db, rank, t))))
  {
    AllConcreteExactly(db, rank, t);
  }

  lemma {:induction false} ElementRunForks(db: TypeTable, rank: map<QName, nat>, decisions: seq<ImplementationDecision>,
                                           stack: seq<StackEntry>, element: ElementBase, fuel: nat)
    requires Acyclic(db, rank)
    ensures AllForks(db, rank, ElementRun(db, rank, decisions, stack, element, fuel).signals)
    decreases fuel, 0, 0
  {
    if fuel > 0 {
      StructureRunForks(db, rank, decisions, stack + [EntryFor(element)], element, fuel - 1);
    }
  }

  lemma {:induction false} StructureRunForks(db: TypeTable, rank: map<QName, nat>, decisions: seq<ImplementationDecision>,
                                             pushed: seq<StackEntry>, element: ElementBase, fuel: nat)
    requires Acyclic(db, rank) && pushed != []
    ensures AllForks(db, rank, StructureRun(db, rank, decisions, pushed, element, fuel).signals)
    decreases fuel, 4, 0
  {
    var ref := element.StructureReference();
    match db.Get(ref)
    case None =>
    case Some(SimpleField(_, _)) =>
    case Some(Group(t)) =>
      ImplementationsRunForks(db, rank, decisions, pushed, element, t, fuel);
  }

  lemma {:induction false} ImplementationsRunForks(db: TypeTable, rank: map<QName, nat>,
                                                   decisions: seq<ImplementationDecision>, pushed: seq<StackEntry>,
                                                   element: ElementBase, t: ComplexType, fuel: nat)
    requires Acyclic(db, rank) && pushed != [] && Registered(db, t)
    ensures AllForks(db, rank, ImplementationsRun(db, rank, decisions, pushed, element, AllConcrete(db, rank, t), fuel).signals)
    decreases fuel, 3, 0
  {
    var all := AllConcrete(db, rank, t);
    var path := PathString(pushed);
    DecidePathsNarrows(db, decisions, path, all);
    match DecidePaths(db, decisions, path, all)
    case Failure(_) =>
    case Success(paths) =>
      var fork := Fork(path, paths);
      if fork != [] {
        ForkOfAll(db, rank, t, path);
        assert IsFork(db, rank, fork[0]);
      }
      FollowRunForks(db, rank, decisions, pushed, element, paths, |paths|, |all| > 1, fuel);
      AllForksAppend(db, rank, fork,
                     FollowRun(db, rank, decisions, pushed, element, paths, |paths|, |all| > 1, fuel).signals);
  }

  lemma {:induction false} FollowRunForks(db: TypeTable, rank: map<QName, nat>, decisions: seq<ImplementationDecision>,
                                          pushed: seq<StackEntry>, element: ElementBase, paths: seq<ComplexType>,
                                          n: nat, marked: bool, fuel: nat)
    requires Acyclic(db, rank) && pushed != [] && n <= |paths|
    requires forall t :: t in paths ==> Registered(db, t)
    ensures AllForks(db, rank, FollowRun(db, rank, decisions, pushed, element, paths, n, marked, fuel).signals)
    decreases fuel, 2, n
  {
    if n > 0 {
      FollowRunForks(db, rank, decisions, pushed, element, paths, n - 1, marked, fuel);
      var before := FollowRun(db, rank, decisions, pushed, element, paths, n - 1, marked, fuel);
      if before.error.None? {
        var next := paths[n - 1];
        ChildrenRunForks(db, rank, decisions, MarkedStack(pushed, next, marked), element, next, fuel);
        AllForksAppend(db, rank, before.signals,
                       ChildrenRun(db, rank, decisions, MarkedStack(pushed, next, marked), element, next, fuel).signals);
      }
    }
  }

  lemma {:induction false} ChildrenRunForks(db: TypeTable, rank: map<QName, nat>, decisions: seq<ImplementationDecision>,
                                            stack: seq<StackEntry>, element: ElementBase, t: ComplexType, fuel: nat)
    requires Acyclic(db, rank) && Registered(db, t)
    ensures AllForks(db, rank, ChildrenRun(db, rank, decisions, stack, element, t, fuel).signals)
    decreases fuel, 1, 0
  {
    if !t.isAbstract {
      GroupRunForks(db, rank, decisions, stack + [EntryFor(element)], AllChildren(db, rank, t), fuel);
    }
  }

  lemma {:induction false} GroupRunForks(db: TypeTable, rank: map<QName, nat>, decisions: seq<ImplementationDecision>,
                                         stack: seq<StackEntry>, children: seq<StructureElement>, fuel: nat)
    requires Acyclic(db, rank)
    ensures AllForks(db, rank, GroupRun(db, rank, decisions, stack, children, fuel).signals)
    decreases fuel, 0, Size(children)
  {
    if children != [] {
      var prefix := children[..|children| - 1];
      var last := children[|children| - 1];
      ItemSizeBelow(children, |children| - 1);
      GroupRunForks(db, rank, decisions, stack, prefix, fuel);
      var before := GroupRun(db, rank, decisions, stack, prefix, fuel);
      if before.error.None? {
        ChildRunForks(db, rank, decisions, stack, last, fuel);
        AllForksAppend(db, rank, before.signals, ChildRun(db, rank, decisions, stack, last, fuel).signals);
      }
    }
  }

  lemma {:induction false} ChildRunForks(db: TypeTable, rank: map<QName, nat>, decisions: seq<ImplementationDecision>,
                                         stack: seq<StackEntry>, child: StructureElement, fuel: nat)
    requires Acyclic(db, rank)
    ensures AllForks(db, rank, ChildRun(db, rank, decisions, stack, child, fuel).signals)
    decreases fuel, 0, ItemSize(child)
  {
    match child
    case Field(e) =>
      if !RecursionWillStart(stack, e, MaxDepth) {
        ElementRunForks(db, rank, decisions, stack, Local(e), fuel);
      }
    case SequenceOf(items) =>
      if |items| > 0 {
        GroupRunForks(db, rank, decisions, stack + [StackEntry(SequenceNode(items), StackMetadata(None))], items, fuel);
      }
    case ChoiceOf(items) =>
      if |items| > 0 {
        GroupRunForks(db, rank, decisions, stack + [StackEntry(ChoiceNode(items), StackMetadata(None))], items, fuel);
      }
  }

  /** A traversal that signals anything has met a complex type with several implementations. */
  lemma ForkNeedsAlternatives(db: TypeTable, rank: map<QName, nat>, decisions: seq<ImplementationDecision>,
                              stack: seq<StackEntry>, element: ElementBase, fuel: nat)
    requires Acyclic(db, rank)
    ensures ElementRun(db, rank, decisions, stack, element, fuel).signals != [] ==>
              exists t :: Registered(db, t) && |AllConcrete(db, rank, t)| > 1
  {
    ElementRunForks(db, rank, decisions, stack, element, fuel);
    var signals := ElementRun(db, rank, decisions, stack, element, fuel).signals;
    if signals != [] {
      assert IsFork(db, rank, signals[0]);
    }
  }

  /** Where every complex type has at most one implementation, a traversal signals no fork at all. */
  lemma NoForkWithoutAlternatives(db: TypeTable, rank: map<QName, nat>, decisions: seq<ImplementationDecision>,
                                  stack: seq<StackEntry>, element: ElementBase, fuel: nat)
    requires Acyclic(db, rank)
    requires forall t :: Registered(db, t) ==> |AllConcrete(db, rank, t)| <= 1
    ensures ElementRun(db, rank, decisions, stack, element, fuel).signals == []
  {
    ForkNeedsAlternatives(db, rank, decisions, stack, element, fuel);
  }

  /**
   * The first decision whose path is the current path picks the implementation: exactly the
   * decided type is followed, without a fork, or the traversal fails when it is not a complex type.
   */
  lemma {:induction false} FirstDecisionIsFollowed(db: TypeTable, rank: map<QName, nat>,
                                                   decisions: seq<ImplementationDecision>, pushed: seq<StackEntry>,
                                                   element: ElementBase, possible: seq<ComplexType>, fuel: nat, i: nat)
    requires Acyclic(db, rank) && pushed != []
    requires forall u :: u in possible ==> Registered(db, u)
    requires i < |decisions| && decisions[i].path == PathString(pushed)
    requires forall j :: 0 <= j < i ==> decisions[j].path != PathString(pushed)
    ensures match db.Get(decisions[i].decision)
            case Some(Group(t)) =>
              ImplementationsRun(db, rank, decisions, pushed, element, possible, fuel)
              == FollowRun(db, rank, decisions, pushed, element, [t], 1, |possible| > 1, fuel)
            case _ =>
              ImplementationsRun(db, rank, decisions, pushed, element, possible, fuel)
              == Run([], Some(DecidedTypeNotComplex(decisions[i].decision)))
  {
    var path := PathString(pushed);
    GetImplementationDecisionFirst(decisions, path);
    var k :| 0 <= k < |decisions| && decisions[k] == GetImplementationDecision(decisions, path).value
             && forall j :: 0 <= j < k ==> decisions[j].path != path;
    assert decisions[k].path == path;
    assert k == i;
    match db.Get(decisions[i].decision)
    case Some(Group(t)) =>
      var follow := FollowRun(db, rank, decisions, pushed, element, [t], 1, |possible| > 1, fuel);
      assert [] + follow.signals == follow.signals;
    case _ =>
  }

  /** Without a decision for the current path every implementation is followed, after a fork when there are several. */
  lemma UndecidedFollowsAll(db: TypeTable, rank: map<QName, nat>, decisions: seq<ImplementationDecision>,
                            pushed: seq<StackEntry>, element: ElementBase, possible: seq<ComplexType>, fuel: nat)
    requires Acyclic(db, rank) && pushed != []
    requires forall u :: u in possible ==> Registered(db, u)
    requires forall j :: 0 <= j < |decisions| ==> decisions[j].path != PathString(pushed)
    ensures ImplementationsRun(db, rank, decisions, pushed, element, possible, fuel)
            == Then(Fork(PathString(pushed), possible),
                    FollowRun(db, rank, decisions, pushed, element, possible, |possible|, |possible| > 1, fuel))
    ensures Fork(PathString(pushed), possible) != [] <==> |possible| > 1
  {
    GetImplementationDecisionFirst(decisions, PathString(pushed));
  }

  /** An element whose structure is not registered stops the traversal with an error, and nothing is signalled. */
  lemma MissingTypeFails(db: TypeTable, rank: map<QName, nat>, decisions: seq<ImplementationDecision>,
                         stack: seq<StackEntry>, element: ElementBase, fuel: nat)
    requires Acyclic(db, rank) && fuel > 0
    requires element.StructureReference() !in db.structures
    ensures ElementRun(db, rank, decisions, stack, element, fuel)
            == Run([], Some(TypeNotFound(element.DisplayName(), element.StructureReference())))
  {
  }
}
