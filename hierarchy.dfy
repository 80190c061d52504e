/**
 * The inheritance queries the traversal makes against the registry
 * (ElementTraverser.kt, lines 186-222): every concrete implementation of a
 * complex type, its ancestors, and the children it inherits.
 */
module Hierarchy {
  import opened Wrappers
  import opened Core

  /** `t` is the complex type the registry stores under `t`'s own name. */
  ghost predicate Registered(db: TypeTable, t: ComplexType)
  {
    t.name in db.structures && db.structures[t.name] == Group(t)
  }

  /** The registered complex type that `t` names as the type it extends. */
  ghost predicate HasRegisteredParent(db: TypeTable, t: ComplexType)
  {
    t.extensionOf.Some? && t.extensionOf.value in db.structures
    && db.structures[t.extensionOf.value].Group?
  }

  /**
   * `rank` witnesses that `extensionOf` links between registered types are acyclic:
   * every registered name has a rank, and a type ranks above the registered type it extends.
   */
  ghost predicate Ranked(db: TypeTable, rank: map<QName, nat>)
  {
    && (forall k :: k in db.structures ==> k in rank)
    && (forall k :: k in db.structures && db.structures[k].Group?
                    && db.structures[k].complex.extensionOf.Some?
                    && db.structures[k].complex.extensionOf.value in db.structures
                    ==> rank[db.structures[k].complex.extensionOf.value] < rank[k])
  }

  /** The registry is well formed and its extension links are acyclic. */
  ghost predicate Acyclic(db: TypeTable, rank: map<QName, nat>)
  {
    db.WellFormed() && Ranked(db, rank)
  }

  /** The registered names ranked above `name`: the types that may still lie below it. */
  ghost function Below(db: TypeTable, rank: map<QName, nat>, name: QName): set<QName>
  {
    set k | k in db.structures && k in rank && name in rank && rank[k] > rank[name]
  }

  /** A direct subtype leaves strictly fewer names that may lie below it. */
  lemma BelowShrinks(db: TypeTable, rank: map<QName, nat>, parent: QName, t: ComplexType)
    requires Acyclic(db, rank) && Registered(db, t) && parent in db.structures
    requires t.extensionOf == Some(parent)
    ensures Below(db, rank, t.name) < Below(db, rank, parent)
  {
    assert db.structures[t.name].complex == t;
    assert t.name in Below(db, rank, parent);
  }

  /** The parent type `t` extends, when it is registered. */
  ghost function ParentOf(db: TypeTable, t: ComplexType): (p: ComplexType)
    requires db.WellFormed() && HasRegisteredParent(db, t)
    ensures Registered(db, p) && p.name == t.extensionOf.value
  {
    db.structures[t.extensionOf.value].complex
  }

  /**
   * Every type that extends `t`, directly or through other types: first `t`'s direct
   * subtypes, then the subtypes of each of those in turn.
   */
  function MoreSpecific(db: TypeTable, ghost rank: map<QName, nat>, t: ComplexType): (r: seq<ComplexType>)
    requires Acyclic(db, rank) && Registered(db, t)
    ensures forall u :: u in r ==> Registered(db, u)
    decreases Below(db, rank, t.name), 1, 0
  {
    var direct := db.Subtypes(t.name);
    direct + Descendants(db, rank, t.name, direct)
  }

  /** The concatenated `MoreSpecific` lists of the direct subtypes `ts` of `parent`, in order. */
  function Descendants(db: TypeTable, ghost rank: map<QName, nat>, parent: QName, ts: seq<ComplexType>)
    : (r: seq<ComplexType>)
    requires Acyclic(db, rank) && parent in db.structures
    requires forall u :: u in ts ==> Registered(db, u) && u.extensionOf == Some(parent)
    ensures forall u :: u in r ==> Registered(db, u)
    decreases Below(db, rank, parent), 0, |ts|
  {
    if ts == [] then []
    else
      var last := ts[|ts| - 1];
      BelowShrinks(db, rank, parent, last);
      Descendants(db, rank, parent, ts[..|ts| - 1]) + MoreSpecific(db, rank, last)
  }

  /** Every implementation a complex type can take: the type itself unless abstract, then all its subtypes. */
  function AllConcrete(db: TypeTable, ghost rank: map<QName, nat>, t: ComplexType): (r: seq<ComplexType>)
    requires Acyclic(db, rank) && Registered(db, t)
    ensures forall u :: u in r ==> Registered(db, u)
  {
    (if t.isAbstract then [] else [t]) + MoreSpecific(db, rank, t)
  }

  /** `u` extends the type named `name`, directly or through a chain of registered types. */
  ghost predicate ExtendsTransitively(db: TypeTable, rank: map<QName, nat>, u: ComplexType, name: QName)
    requires Acyclic(db, rank) && Registered(db, u)
    decreases rank[u.name]
  {
    u.extensionOf == Some(name)
    || (HasRegisteredParent(db, u) && ExtendsTransitively(db, rank, ParentOf(db, u), name))
  }

  /** The ancestors of `t`, nearest last: the chain of registered types `t` extends. */
  function ParentTypes(db: TypeTable, ghost rank: map<QName, nat>, t: ComplexType): (r: seq<ComplexType>)
    requires Acyclic(db, rank) && Registered(db, t)
    ensures forall u :: u in r ==> Registered(db, u)
    decreases rank[t.name]
  {
    if t.extensionOf.Some? && t.extensionOf.value in db.structures
       && db.structures[t.extensionOf.value].Group?
    then
      var parent := db.structures[t.extensionOf.value].complex;
      ParentTypes(db, rank, parent) + [parent]
    else []
  }

  /** The children of `types`, one type after the other. */
  function ChildrenOf(types: seq<ComplexType>): seq<StructureElement>
  {
    if types == [] then [] else ChildrenOf(types[..|types| - 1]) + types[|types| - 1].children
  }

  /** The content of `t` with everything it inherits: the ancestors' children, root first, then its own. */
  function AllChildren(db: TypeTable, ghost rank: map<QName, nat>, t: ComplexType): seq<StructureElement>
    requires Acyclic(db, rank) && Registered(db, t)
  {
    ChildrenOf(ParentTypes(db, rank, t)) + t.children
  }

  // ---------------------------------------------------------------------------
  // What the queries compute

  /** Whatever `Descendants` lists comes from the `MoreSpecific` list of one of `ts`: index `i`. */
  lemma {:induction false} DescendantsSource(db: TypeTable, rank: map<QName, nat>, parent: QName,
                                             ts: seq<ComplexType>, u: ComplexType) returns (i: nat)
    requires Acyclic(db, rank) && parent in db.structures
    requires forall v :: v in ts ==> Registered(db, v) && v.extensionOf == Some(parent)
    requires u in Descendants(db, rank, parent, ts)
    ensures i < |ts| && u in MoreSpecific(db, rank, ts[i])
  {
    var n := |ts| - 1;
    var prefix := ts[..n];
    if u in Descendants(db, rank, parent, prefix) {
      i := DescendantsSource(db, rank, parent, prefix, u);
      assert prefix[i] == ts[i];
    } else {
      i := n;
    }
  }

  /** `Descendants` lists everything in the `MoreSpecific` list of each of `ts`. */
  lemma {:induction false} DescendantsIncludes(db: TypeTable, rank: map<QName, nat>, parent: QName,
                                               ts: seq<ComplexType>, i: nat, u: ComplexType)
    requires Acyclic(db, rank) && parent in db.structures
    requires forall v :: v in ts ==> Registered(db, v) && v.extensionOf == Some(parent)
    requires i < |ts| && u in MoreSpecific(db, rank, ts[i])
    ensures u in Descendants(db, rank, parent, ts)
  {
    var n := |ts| - 1;
    if i < n {
      var prefix := ts[..n];
      assert prefix[i] == ts[i];
      DescendantsIncludes(db, rank, parent, prefix, i, u);
    }
  }

  /** Extension is transitive: below a type that extends `name` is still below `name`. */
  lemma {:induction false} ExtendsThrough(db: TypeTable, rank: map<QName, nat>, u: ComplexType,
                                          d: ComplexType, name: QName)
    requires Acyclic(db, rank) && Registered(db, u) && Registered(db, d)
    requires ExtendsTransitively(db, rank, u, d.name) && d.extensionOf == Some(name)
    ensures ExtendsTransitively(db, rank, u, name)
    decreases rank[u.name]
  {
    if u.extensionOf == Some(d.name) {
      assert HasRegisteredParent(db, u) && ParentOf(db, u) == d;
    } else {
      var p := ParentOf(db, u);
      assert rank[p.name] < rank[u.name];
      ExtendsThrough(db, rank, p, d, name);
    }
  }

  /** A type ranks above every registered type it extends; in particular no type extends itself. */
  lemma {:induction false} ExtendsRaisesRank(db: TypeTable, rank: map<QName, nat>, u: ComplexType, name: QName)
    requires Acyclic(db, rank) && Registered(db, u) && name in db.structures
    requires ExtendsTransitively(db, rank, u, name)
    ensures rank[name] < rank[u.name]
    decreases rank[u.name]
  {
    if u.extensionOf != Some(name) {
      var p := ParentOf(db, u);
      ExtendsRaisesRank(db, rank, p, name);
    }
  }

  /** Everything `MoreSpecific` lists extends `t`. */
  lemma {:induction false} MoreSpecificSound(db: TypeTable, rank: map<QName, nat>, t: ComplexType)
    requires Acyclic(db, rank) && Registered(db, t)
    ensures forall u :: u in MoreSpecific(db, rank, t) ==> ExtendsTransitively(db, rank, u, t.name)
    decreases Below(db, rank, t.name)
  {
    var direct := db.Subtypes(t.name);
    forall u | u in MoreSpecific(db, rank, t)
      ensures ExtendsTransitively(db, rank, u, t.name)
    {
      if u !in direct {
        var i := DescendantsSource(db, rank, t.name, direct, u);
        BelowShrinks(db, rank, t.name, direct[i]);
        MoreSpecificSound(db, rank, direct[i]);
        ExtendsThrough(db, rank, u, direct[i], t.name);
      }
    }
  }

  /** A registered direct subtype of anything `MoreSpecific` lists is listed too. */
  lemma {:induction false} MoreSpecificClosed(db: TypeTable, rank: map<QName, nat>, t: ComplexType,
                                              v: ComplexType, u: ComplexType)
    requires Acyclic(db, rank) && Registered(db, t) && Registered(db, u)
    requires v in MoreSpecific(db, rank, t) && u.extensionOf == Some(v.name)
    ensures u in MoreSpecific(db, rank, t)
    decreases Below(db, rank, t.name)
  {
    var direct := db.Subtypes(t.name);
    if v in direct {
      var i :| 0 <= i < |direct| && direct[i] == v;
      SubtypesInExactly(db.order, db.structures, v.name);
      assert u in db.Subtypes(v.name);
      assert u in MoreSpecific(db, rank, direct[i]);
      DescendantsIncludes(db, rank, t.name, direct, i, u);
    } else {
      var i := DescendantsSource(db, rank, t.name, direct, v);
      BelowShrinks(db, rank, t.name, direct[i]);
      MoreSpecificClosed(db, rank, direct[i], v, u);
      DescendantsIncludes(db, rank, t.name, direct, i, u);
    }
  }

  /** Every registered type that extends `t` is listed by `MoreSpecific`. */
  lemma {:induction false} MoreSpecificComplete(db: TypeTable, rank: map<QName, nat>, t: ComplexType, u: ComplexType)
    requires Acyclic(db, rank) && Registered(db, t) && Registered(db, u)
    requires ExtendsTransitively(db, rank, u, t.name)
    ensures u in MoreSpecific(db, rank, t)
    decreases rank[u.name]
  {
    if u.extensionOf != Some(t.name) {
      var p := ParentOf(db, u);
      MoreSpecificComplete(db, rank, t, p);
      MoreSpecificClosed(db, rank, t, p, u);
    } else {
      SubtypesInExactly(db.order, db.structures, t.name);
      assert u in db.Subtypes(t.name);
    }
  }

  /** No two types of `ts` share a name. */
  ghost predicate DistinctNames(ts: seq<ComplexType>)
  {
    forall i, j :: 0 <= i < j < |ts| ==> ts[i].name != ts[j].name
  }

  lemma AppendDistinct(a: seq<ComplexType>, b: seq<ComplexType>)
    requires DistinctNames(a) && DistinctNames(b)
    requires forall u, v :: u in a && v in b ==> u.name != v.name
    ensures DistinctNames(a + b)
  {
    forall i, j | 0 <= i < j < |a + b|
      ensures (a + b)[i].name != (a + b)[j].name
    {
      if i >= |a| {
        assert (a + b)[i] == b[i - |a|] && (a + b)[j] == b[j - |a|];
      } else if j >= |a| {
        assert (a + b)[i] in a && (a + b)[j] in b;
      }
    }
  }

  /** No registered type extends itself. */
  lemma NotSelfExtending(db: TypeTable, rank: map<QName, nat>, u: ComplexType)
    requires Acyclic(db, rank) && Registered(db, u)
    ensures !ExtendsTransitively(db, rank, u, u.name)
  {
    if ExtendsTransitively(db, rank, u, u.name) {
      ExtendsRaisesRank(db, rank, u, u.name);
    }
  }

  /** Two direct subtypes of `t` never extend one another (nor themselves). */
  lemma SiblingsUnrelated(db: TypeTable, rank: map<QName, nat>, t: ComplexType, a: ComplexType, b: ComplexType)
    requires Acyclic(db, rank) && Registered(db, t) && Registered(db, a) && Registered(db, b)
    requires a.extensionOf == Some(t.name) && b.extensionOf == Some(t.name)
    ensures !ExtendsTransitively(db, rank, a, b.name)
  {
    assert HasRegisteredParent(db, a) && ParentOf(db, a) == t;
    if ExtendsTransitively(db, rank, t, b.name) {
      ExtendsThrough(db, rank, t, b, t.name);
    }
    NotSelfExtending(db, rank, t);
  }

  /**
   * A type extends its ancestors along a single chain, because each type names one parent:
   * of two types it extends, one extends the other.
   */
  lemma {:induction false} AncestorsChain(db: TypeTable, rank: map<QName, nat>, u: ComplexType, a: ComplexType, b: ComplexType)
    requires Acyclic(db, rank) && Registered(db, u) && Registered(db, a) && Registered(db, b)
    requires ExtendsTransitively(db, rank, u, a.name) && ExtendsTransitively(db, rank, u, b.name)
    ensures a == b || ExtendsTransitively(db, rank, a, b.name) || ExtendsTransitively(db, rank, b, a.name)
    decreases rank[u.name]
  {
    if u.extensionOf == Some(a.name) {
      if u.extensionOf != Some(b.name) {
        assert ParentOf(db, u) == a;
      }
    } else if u.extensionOf == Some(b.name) {
      assert ParentOf(db, u) == b;
    } else {
      AncestorsChain(db, rank, ParentOf(db, u), a, b);
    }
  }

  /** `MoreSpecific` lists each type once. */
  lemma {:induction false} MoreSpecificDistinct(db: TypeTable, rank: map<QName, nat>, t: ComplexType)
    requires Acyclic(db, rank) && Registered(db, t)
    ensures DistinctNames(MoreSpecific(db, rank, t))
    decreases Below(db, rank, t.name), 1, 0
  {
    var direct := db.Subtypes(t.name);
    var below := Descendants(db, rank, t.name, direct);
    SubtypesInDistinct(db.order, db.structures, t.name);
    DescendantsDistinct(db, rank, t, direct);
    forall u, v | u in direct && v in below
      ensures u.name != v.name
    {
      var i := DescendantsSource(db, rank, t.name, direct, v);
      BelowShrinks(db, rank, t.name, direct[i]);
      MoreSpecificSound(db, rank, direct[i]);
      if u.name == v.name {
        assert u == v;
        SiblingsUnrelated(db, rank, t, v, direct[i]);
      }
    }
    AppendDistinct(direct, below);
  }

  /** The `MoreSpecific` lists of distinct direct subtypes of `t` are disjoint, and each lists a type once. */
  lemma {:induction false} DescendantsDistinct(db: TypeTable, rank: map<QName, nat>, t: ComplexType, ts: seq<ComplexType>)
    requires Acyclic(db, rank) && Registered(db, t)
    requires forall u :: u in ts ==> Registered(db, u) && u.extensionOf == Some(t.name)
    requires DistinctNames(ts)
    ensures DistinctNames(Descendants(db, rank, t.name, ts))
    decreases Below(db, rank, t.name), 0, |ts|
  {
    if ts != [] {
      var n := |ts| - 1;
      var prefix := ts[..n];
      var last := ts[n];
      assert forall i :: 0 <= i < n ==> prefix[i] == ts[i];
      DescendantsDistinct(db, rank, t, prefix);
      BelowShrinks(db, rank, t.name, last);
      MoreSpecificDistinct(db, rank, last);
      MoreSpecificSound(db, rank, last);
      var earlier := Descendants(db, rank, t.name, prefix);
      forall u, v | u in earlier && v in MoreSpecific(db, rank, last)
        ensures u.name != v.name
      {
        var i := DescendantsSource(db, rank, t.name, prefix, u);
        BelowShrinks(db, rank, t.name, prefix[i]);
        MoreSpecificSound(db, rank, prefix[i]);
        if u.name == v.name {
          assert u == v && prefix[i].name != last.name;
          AncestorsChain(db, rank, u, prefix[i], last);
          SiblingsUnrelated(db, rank, t, prefix[i], last);
          SiblingsUnrelated(db, rank, t, last, prefix[i]);
        }
      }
      AppendDistinct(earlier, MoreSpecific(db, rank, last));
    }
  }

  /**
   * The implementations of `t` are `t` itself, first, exactly when it is not abstract,
   * followed by exactly the registered types that reach `t` through `extensionOf`,
   * each listed once.
   */
  lemma AllConcreteExactly(db: TypeTable, rank: map<QName, nat>, t: ComplexType)
    requires Acyclic(db, rank) && Registered(db, t)
    ensures forall u :: u in AllConcrete(db, rank, t) <==>
              (u == t && !t.isAbstract) || (Registered(db, u) && ExtendsTransitively(db, rank, u, t.name))
    ensures t in AllConcrete(db, rank, t) <==> !t.isAbstract
    ensures !t.isAbstract ==> AllConcrete(db, rank, t)[0] == t
    ensures forall i, j :: 0 <= i < j < |AllConcrete(db, rank, t)| ==> AllConcrete(db, rank, t)[i].name != AllConcrete(db, rank, t)[j].name
  {
    MoreSpecificSound(db, rank, t);
    MoreSpecificDistinct(db, rank, t);
    NotSelfExtending(db, rank, t);
    AppendDistinct(if t.isAbstract then [] else [t], MoreSpecific(db, rank, t));
    forall u | Registered(db, u) && ExtendsTransitively(db, rank, u, t.name)
      ensures u in MoreSpecific(db, rank, t)
    {
      MoreSpecificComplete(db, rank, t, u);
    }
    if t in MoreSpecific(db, rank, t) {
      ExtendsRaisesRank(db, rank, t, t.name);
    }
  }

  /** Every ancestor `ParentTypes` lists is a type that `t` extends. */
  lemma {:induction false} ParentTypesAreAncestors(db: TypeTable, rank: map<QName, nat>, t: ComplexType)
    requires Acyclic(db, rank) && Registered(db, t)
    ensures forall u :: u in ParentTypes(db, rank, t) ==> ExtendsTransitively(db, rank, t, u.name)
    decreases rank[t.name]
  {
    if HasRegisteredParent(db, t) {
      var parent := ParentOf(db, t);
      ParentTypesAreAncestors(db, rank, parent);
      forall u | u in ParentTypes(db, rank, parent)
        ensures ExtendsTransitively(db, rank, t, u.name)
      {
        assert ExtendsTransitively(db, rank, parent, u.name);
      }
    }
  }

  /** Every registered type that `t` extends is among the ancestors `ParentTypes` lists. */
  lemma {:induction false} ParentTypesComplete(db: TypeTable, rank: map<QName, nat>, t: ComplexType, u: ComplexType)
    requires Acyclic(db, rank) && Registered(db, t) && Registered(db, u)
    requires ExtendsTransitively(db, rank, t, u.name)
    ensures u in ParentTypes(db, rank, t)
    decreases rank[t.name]
  {
    var parent := ParentOf(db, t);
    if t.extensionOf != Some(u.name) {
      ParentTypesComplete(db, rank, parent, u);
    }
  }
}
