/** What buildHierarchy guarantees about the forest it returns and about the
    records it removes from the shared source. */
module HierarchyFacts {
  import opened Values
  import opened Hierarchy

  /** The source keys of a forest, parent before children, siblings in order. */
  function Preorder(ns: seq<Node>): seq<nat>
    decreases ns
  {
    if ns == [] then []
    else
      var n := ns[|ns| - 1];
      Preorder(ns[..|ns| - 1]) + [n.key] + Preorder(n.children)
  }

  /** The source keys of the top-level nodes of a forest. */
  function Roots(ns: seq<Node>): seq<nat>
  {
    if ns == [] then [] else Roots(ns[..|ns| - 1]) + [ns[|ns| - 1].key]
  }

  predicate Distinct(s: seq<nat>) {
    forall i, j :: 0 <= i < j < |s| ==> s[i] != s[j]
  }

  /** Every node of the forest stands at a level whose parent id its record
      names: its record has an id, its normalised parent is `parentId`, its item
      is the formatter's array without 'children', and its children are
      attached at the level of its own id. */
  ghost predicate Attached(src: Input, parentId: Option<Scalar>, ns: seq<Node>)
    decreases ns
  {
    forall i :: 0 <= i < |ns| ==>
      && ns[i].key < |src.entries|
      && src.IsChild(ns[i].key, parentId)
      && src.Shown(ns[i].key)
      && ns[i].item == src.format(src.entries[ns[i].key]).value - {"children"}
      && Attached(src, src.Id(ns[i].key), ns[i].children)
  }

  /** At every level, siblings appear in the order of their source keys. */
  ghost predicate Ordered(ns: seq<Node>)
    decreases ns
  {
    && (forall i, j :: 0 <= i < j < |ns| ==> ns[i].key < ns[j].key)
    && (forall i :: 0 <= i < |ns| ==> Ordered(ns[i].children))
  }

  /** No node occurs inside its own subtree. */
  ghost predicate NotBelowItself(ns: seq<Node>)
    decreases ns
  {
    forall i :: 0 <= i < |ns| ==>
      ns[i].key !in Preorder(ns[i].children) && NotBelowItself(ns[i].children)
  }

  /** The keys that one call consumes (removes from the shared source). */
  ghost function Consumed(live: set<nat>, r: Outcome): set<nat> {
    live - r.live
  }

  ghost predicate UniqueIds(src: Input) {
    forall a, b ::
      0 <= a < |src.entries| && 0 <= b < |src.entries| && src.Id(a).Some? && src.Id(a) == src.Id(b)
      ==> a == b
  }

  /** No record in `snap` has `parentId` as its own id: true of the top level
      (ids are never null) and, when ids are unique, of every nested level. */
  ghost predicate LevelOk(src: Input, parentId: Option<Scalar>, snap: set<nat>) {
    forall e :: e in snap && e < |src.entries| && src.Id(e).Some? ==> src.Id(e) != parentId
  }

  /** Keys of the snapshot at or after k that have already left the source are
      not children of this level. */
  ghost predicate Pending(src: Input, parentId: Option<Scalar>, snap: set<nat>, k: nat, live: set<nat>) {
    forall j :: k <= j < |src.entries| && j in snap && j !in live ==> !src.IsChild(j, parentId)
  }

  /** The reference definition of one level: the keys from k on that are still
      in the source, are children of `parentId` and are formatted, in key order. */
  function Siblings(src: Input, parentId: Option<Scalar>, live: set<nat>, k: nat): seq<nat>
    requires k <= |src.entries|
    decreases |src.entries| - k
  {
    if k == |src.entries| then []
    else if k in live && src.IsChild(k, parentId) && src.Shown(k) then [k] + Siblings(src, parentId, live, k + 1)
    else Siblings(src, parentId, live, k + 1)
  }

  /** The reference level lists exactly the live, kept children from k on, in increasing key order. */
  lemma {:induction false} SiblingsSpec(src: Input, parentId: Option<Scalar>, live: set<nat>, k: nat)
    requires k <= |src.entries|
    ensures var s := Siblings(src, parentId, live, k);
      && (forall j :: j in s <==> k <= j < |src.entries| && j in live && src.IsChild(j, parentId) && src.Shown(j))
      && (forall i, j :: 0 <= i < j < |s| ==> s[i] < s[j])
  {
    SiblingsMembers(src, parentId, live, k);
    SiblingsIncreasing(src, parentId, live, k);
  }

  lemma {:induction false} SiblingsMembers(src: Input, parentId: Option<Scalar>, live: set<nat>, k: nat)
    requires k <= |src.entries|
    ensures forall j :: j in Siblings(src, parentId, live, k) <==>
      k <= j < |src.entries| && j in live && src.IsChild(j, parentId) && src.Shown(j)
    decreases |src.entries| - k
  {
    if k < |src.entries| {
      SiblingsMembers(src, parentId, live, k + 1);
    }
  }

  /** Strictly increasing. */
  ghost predicate Increasing(s: seq<nat>) {
    forall i, j :: 0 <= i < j < |s| ==> s[i] < s[j]
  }

  lemma {:induction false} SiblingsIncreasing(src: Input, parentId: Option<Scalar>, live: set<nat>, k: nat)
    requires k <= |src.entries|
    ensures Increasing(Siblings(src, parentId, live, k))
    decreases |src.entries| - k
  {
    if k < |src.entries| {
      SiblingsIncreasing(src, parentId, live, k + 1);
      SiblingsMembers(src, parentId, live, k + 1);
      var later := Siblings(src, parentId, live, k + 1);
      if k in live && src.IsChild(k, parentId) && src.Shown(k) {
        var s := [k] + later;
        assert Siblings(src, parentId, live, k) == s;
        forall i, j | 0 <= i < j < |s|
          ensures s[i] < s[j]
        {
          assert s[j] == later[j - 1] && later[j - 1] in later;
          if i > 0 {
            assert s[i] == later[i - 1];
          }
        }
      } else {
        assert Siblings(src, parentId, live, k) == later;
      }
    }
  }


  // ---------------------------------------------------------------------------
  // Facts that hold of every input

  /** One step of the loop at a key it passes over. */
  lemma UnfoldSkip(src: Input, pid: Option<Scalar>, snap: set<nat>, k: nat, acc: seq<Node>, live: set<nat>)
    requires k < |src.entries| && live <= snap && (k !in snap || !src.IsChild(k, pid))
    ensures Scan(src, pid, snap, k, acc, live) == Scan(src, pid, snap, k + 1, acc, live)
  {
  }

  /** One step of the loop at a child the formatter rejects. */
  lemma UnfoldHidden(src: Input, pid: Option<Scalar>, snap: set<nat>, k: nat, acc: seq<Node>, live: set<nat>)
    requires k < |src.entries| && live <= snap && k in snap && src.IsChild(k, pid) && !src.Shown(k)
    ensures live - {k} <= snap
    ensures Scan(src, pid, snap, k, acc, live) == Scan(src, pid, snap, k + 1, acc, live - {k})
  {
  }

  /** One step of the loop at a child the formatter keeps. */
  lemma UnfoldShown(src: Input, pid: Option<Scalar>, snap: set<nat>, k: nat, acc: seq<Node>, live: set<nat>)
    requires k < |src.entries| && live <= snap && k in snap && src.IsChild(k, pid) && src.Shown(k)
    ensures var rest := live - {k};
      var sub := Build(src, src.Id(k), rest);
      var node := Node(k, src.format(src.entries[k]).value - {"children"}, sub.nodes);
      && rest <= snap && sub.live <= snap
      && Scan(src, pid, snap, k, acc, live) == Scan(src, pid, snap, k + 1, acc + [node], sub.live)
  {
  }

  lemma {:induction false} ScanAttached(src: Input, pid: Option<Scalar>, snap: set<nat>, k: nat,
                                        acc: seq<Node>, live: set<nat>)
    requires k <= |src.entries| && live <= snap
    requires Attached(src, pid, acc)
    ensures Attached(src, pid, Scan(src, pid, snap, k, acc, live).nodes)
    decreases |snap|, |src.entries| - k
  {
    if k == |src.entries| {
    } else if k !in snap || !src.IsChild(k, pid) {
      UnfoldSkip(src, pid, snap, k, acc, live);
      ScanAttached(src, pid, snap, k + 1, acc, live);
    } else if !src.Shown(k) {
      UnfoldHidden(src, pid, snap, k, acc, live);
      ScanAttached(src, pid, snap, k + 1, acc, live - {k});
    } else {
      var rest := live - {k};
      var f := src.format(src.entries[k]).value;
      Shrinks(live, snap, k);
      UnfoldShown(src, pid, snap, k, acc, live);
      ScanAttached(src, src.Id(k), rest, 0, [], rest);
      var sub := Build(src, src.Id(k), rest);
      ScanAttached(src, pid, snap, k + 1, acc + [Node(k, f - {"children"}, sub.nodes)], sub.live);
    }
  }

  /** Every node returned by a call is a formatted child of that call's parent
      id, and its children were built with its own id, at every depth. */
  lemma BuildAttached(src: Input, parentId: Option<Scalar>, live: set<nat>)
    ensures Attached(src, parentId, Build(src, parentId, live).nodes)
  {
    ScanAttached(src, parentId, live, 0, [], live);
  }

  lemma PreorderAppend(acc: seq<Node>, n: Node)
    ensures Preorder(acc + [n]) == Preorder(acc) + [n.key] + Preorder(n.children)
    ensures Roots(acc + [n]) == Roots(acc) + [n.key]
  {
    assert (acc + [n])[..|acc|] == acc;
  }

  lemma {:induction false} ScanOrdered(src: Input, pid: Option<Scalar>, snap: set<nat>, k: nat,
                                       acc: seq<Node>, live: set<nat>)
    requires k <= |src.entries| && live <= snap
    requires Ordered(acc) && forall i :: 0 <= i < |acc| ==> acc[i].key < k
    ensures Ordered(Scan(src, pid, snap, k, acc, live).nodes)
    decreases |snap|, |src.entries| - k
  {
    if k == |src.entries| {
    } else if k !in snap || !src.IsChild(k, pid) {
      UnfoldSkip(src, pid, snap, k, acc, live);
      ScanOrdered(src, pid, snap, k + 1, acc, live);
    } else if !src.Shown(k) {
      UnfoldHidden(src, pid, snap, k, acc, live);
      ScanOrdered(src, pid, snap, k + 1, acc, live - {k});
    } else {
      var rest := live - {k};
      var f := src.format(src.entries[k]).value;
      Shrinks(live, snap, k);
      UnfoldShown(src, pid, snap, k, acc, live);
      ScanOrdered(src, src.Id(k), rest, 0, [], rest);
      var sub := Build(src, src.Id(k), rest);
      ScanOrdered(src, pid, snap, k + 1, acc + [Node(k, f - {"children"}, sub.nodes)], sub.live);
    }
  }

  /** At every depth, siblings come out in the order of the source. */
  lemma SiblingsInSourceOrder(src: Input, parentId: Option<Scalar>, live: set<nat>)
    ensures Ordered(Build(src, parentId, live).nodes)
  {
    ScanOrdered(src, parentId, live, 0, [], live);
  }

  lemma {:induction false} ScanConsumesIdentified(src: Input, pid: Option<Scalar>, snap: set<nat>, k: nat,
                                                  acc: seq<Node>, live: set<nat>)
    requires k <= |src.entries| && live <= snap
    ensures forall x :: x in live - Scan(src, pid, snap, k, acc, live).live ==>
      x < |src.entries| && src.Id(x).Some?
    decreases |snap|, |src.entries| - k
  {
    if k == |src.entries| {
    } else if k !in snap || !src.IsChild(k, pid) {
      UnfoldSkip(src, pid, snap, k, acc, live);
      ScanConsumesIdentified(src, pid, snap, k + 1, acc, live);
    } else {
      var rest := live - {k};
      var later: Outcome;
      if !src.Shown(k) {
        later := Scan(src, pid, snap, k + 1, acc, rest);
        ScanConsumesIdentified(src, pid, snap, k + 1, acc, rest);
        assert forall x :: x in rest - later.live ==> x < |src.entries| && src.Id(x).Some?;
      } else {
        var f := src.format(src.entries[k]).value;
        Shrinks(live, snap, k);
        UnfoldShown(src, pid, snap, k, acc, live);
        ScanConsumesIdentified(src, src.Id(k), rest, 0, [], rest);
        var sub := Build(src, src.Id(k), rest);
        later := Scan(src, pid, snap, k + 1, acc + [Node(k, f - {"children"}, sub.nodes)], sub.live);
        ScanConsumesIdentified(src, pid, snap, k + 1, acc + [Node(k, f - {"children"}, sub.nodes)], sub.live);
        forall x | x in rest - later.live
          ensures x < |src.entries| && src.Id(x).Some?
        {
          if x in sub.live {
            assert x in sub.live - later.live;
          } else {
            assert x in rest - sub.live;
          }
        }
      }
      assert Scan(src, pid, snap, k, acc, live) == later;
      forall x | x in live - later.live
        ensures x < |src.entries| && src.Id(x).Some?
      {
        if x != k {
          assert x in rest - later.live;
        }
      }
    }
  }

  lemma {:induction false} ScanRemovesEmitted(src: Input, pid: Option<Scalar>, snap: set<nat>, k: nat,
                                              acc: seq<Node>, live: set<nat>)
    requires k <= |src.entries| && live <= snap
    requires forall x :: x in Preorder(acc) ==> x !in live
    requires NotBelowItself(acc)
    ensures var r := Scan(src, pid, snap, k, acc, live);
      && (forall x :: x in Preorder(r.nodes) ==> x !in r.live && (x in snap || x in Preorder(acc)))
      && NotBelowItself(r.nodes)
    decreases |snap|, |src.entries| - k, 1
  {
    if k == |src.entries| {
    } else if k !in snap || !src.IsChild(k, pid) {
      UnfoldSkip(src, pid, snap, k, acc, live);
      ScanRemovesEmitted(src, pid, snap, k + 1, acc, live);
    } else if !src.Shown(k) {
      UnfoldHidden(src, pid, snap, k, acc, live);
      ScanRemovesEmitted(src, pid, snap, k + 1, acc, live - {k});
    } else {
      RemovesEmittedShown(src, pid, snap, k, acc, live);
    }
  }

  /** The step of ScanRemovesEmitted at a kept child. */
  lemma {:induction false} RemovesEmittedShown(src: Input, pid: Option<Scalar>, snap: set<nat>, k: nat,
                                               acc: seq<Node>, live: set<nat>)
    requires k < |src.entries| && live <= snap && k in snap && src.IsChild(k, pid) && src.Shown(k)
    requires forall x :: x in Preorder(acc) ==> x !in live
    requires NotBelowItself(acc)
    ensures var r := Scan(src, pid, snap, k, acc, live);
      && (forall x :: x in Preorder(r.nodes) ==> x !in r.live && (x in snap || x in Preorder(acc)))
      && NotBelowItself(r.nodes)
    decreases |snap|, |src.entries| - k, 0
  {
    var rest := live - {k};
    Shrinks(live, snap, k);
    UnfoldShown(src, pid, snap, k, acc, live);
    ScanRemovesEmitted(src, src.Id(k), rest, 0, [], rest);
    var sub := Build(src, src.Id(k), rest);
    var node := Node(k, src.format(src.entries[k]).value - {"children"}, sub.nodes);
    PreorderAppend(acc, node);
    ScanRemovesEmitted(src, pid, snap, k + 1, acc + [node], sub.live);
  }


  lemma {:induction false} ScanEmits(src: Input, pid: Option<Scalar>, snap: set<nat>, k: nat,
                                     acc: seq<Node>, live: set<nat>)
    requires k <= |src.entries| && live <= snap
    ensures var r := Scan(src, pid, snap, k, acc, live);
      && (forall x :: x in Preorder(acc) ==> x in Preorder(r.nodes))
      && (forall x :: x in live - r.live && x < |src.entries| && src.Shown(x) ==> x in Preorder(r.nodes))
    decreases |snap|, |src.entries| - k
  {
    if k == |src.entries| {
    } else if k !in snap || !src.IsChild(k, pid) {
      UnfoldSkip(src, pid, snap, k, acc, live);
      ScanEmits(src, pid, snap, k + 1, acc, live);
    } else if !src.Shown(k) {
      UnfoldHidden(src, pid, snap, k, acc, live);
      ScanEmits(src, pid, snap, k + 1, acc, live - {k});
    } else {
      var rest := live - {k};
      var f := src.format(src.entries[k]).value;
      Shrinks(live, snap, k);
      UnfoldShown(src, pid, snap, k, acc, live);
      ScanEmits(src, src.Id(k), rest, 0, [], rest);
      var sub := Build(src, src.Id(k), rest);
      var node := Node(k, f - {"children"}, sub.nodes);
      PreorderAppend(acc, node);
      ScanEmits(src, pid, snap, k + 1, acc + [node], sub.live);
    }
  }

  /** The records a call emits are exactly the records it consumed whose
      formatter returned an array; a consumed record always had an id; and no
      record is emitted inside its own subtree. */
  lemma EmittedAreConsumed(src: Input, parentId: Option<Scalar>, live: set<nat>)
    ensures var r := Build(src, parentId, live);
      && (forall x :: x in Consumed(live, r) ==> x < |src.entries| && src.Id(x).Some?)
      && (forall x :: x in Preorder(r.nodes) <==> x in Consumed(live, r) && src.Shown(x))
      && NotBelowItself(r.nodes)
  {
    var r := Build(src, parentId, live);
    ScanConsumesIdentified(src, parentId, live, 0, [], live);
    ScanRemovesEmitted(src, parentId, live, 0, [], live);
    ScanEmits(src, parentId, live, 0, [], live);
    BuildAttached(src, parentId, live);
    forall x | x in Preorder(r.nodes)
      ensures x < |src.entries| && src.Shown(x)
    {
      AttachedShown(src, parentId, r.nodes, x);
    }
  }

  lemma {:induction false} AttachedShown(src: Input, pid: Option<Scalar>, ns: seq<Node>, x: nat)
    requires Attached(src, pid, ns) && x in Preorder(ns)
    ensures x < |src.entries| && src.Id(x).Some? && src.Shown(x)
    decreases ns
  {
    var n := ns[|ns| - 1];
    var init := ns[..|ns| - 1];
    assert Attached(src, pid, init);
    if x in Preorder(init) {
      AttachedShown(src, pid, init, x);
    } else if x != n.key {
      AttachedShown(src, src.Id(n.key), n.children, x);
    }
  }

  // ---------------------------------------------------------------------------
  // One level, exactly

  /** A call whose level is `q`'s never removes a record whose parent is `q`
      when `q` is neither its own parent id nor the id of any record it can reach. */
  lemma {:induction false} Spares(src: Input, pid: Option<Scalar>, snap: set<nat>, k: nat,
                                  acc: seq<Node>, live: set<nat>, q: Option<Scalar>)
    requires k <= |src.entries| && live <= snap
    requires q != pid && LevelOk(src, q, snap)
    ensures forall j :: j in live && j < |src.entries| && src.Parent(j) == q ==>
      j in Scan(src, pid, snap, k, acc, live).live
    decreases |snap|, |src.entries| - k
  {
    if k == |src.entries| {
    } else if k !in snap || !src.IsChild(k, pid) {
      UnfoldSkip(src, pid, snap, k, acc, live);
      Spares(src, pid, snap, k + 1, acc, live, q);
    } else if !src.Shown(k) {
      UnfoldHidden(src, pid, snap, k, acc, live);
      Spares(src, pid, snap, k + 1, acc, live - {k}, q);
    } else {
      var rest := live - {k};
      var f := src.format(src.entries[k]).value;
      Shrinks(live, snap, k);
      UnfoldShown(src, pid, snap, k, acc, live);
      Spares(src, src.Id(k), rest, 0, [], rest, q);
      var sub := Build(src, src.Id(k), rest);
      Spares(src, pid, snap, k + 1, acc + [Node(k, f - {"children"}, sub.nodes)], sub.live, q);
    }
  }

  /** A matching key of the snapshot is still in the source when the loop
      reaches it, and the recursion into it removes no later sibling. */
  lemma StepKeepsPending(src: Input, pid: Option<Scalar>, snap: set<nat>, k: nat, live: set<nat>)
    requires k < |src.entries| && live <= snap && k in snap && src.IsChild(k, pid)
    requires LevelOk(src, pid, snap) && Pending(src, pid, snap, k, live)
    ensures k in live
    ensures Pending(src, pid, snap, k + 1, live - {k})
    ensures var rest := live - {k};
      var sub := Build(src, src.Id(k), rest);
      && Pending(src, pid, snap, k + 1, sub.live)
      && forall j :: j in rest && j < |src.entries| && src.Parent(j) == pid ==> j in sub.live
  {
    var rest := live - {k};
    assert LevelOk(src, pid, rest);
    Spares(src, src.Id(k), rest, 0, [], rest, pid);
  }

  /** The top-level keys a loop adds from key k on are the reference siblings of
      its snapshot: the loop decides by the snapshot, not by what is left in the
      source. */
  lemma {:induction false} ScanLevelRoots(src: Input, pid: Option<Scalar>, snap: set<nat>, k: nat,
                                          acc: seq<Node>, live: set<nat>)
    requires k <= |src.entries| && live <= snap
    ensures Roots(Scan(src, pid, snap, k, acc, live).nodes) == Roots(acc) + Siblings(src, pid, snap, k)
    decreases |src.entries| - k
  {
    if k == |src.entries| {
    } else if k !in snap || !src.IsChild(k, pid) {
      UnfoldSkip(src, pid, snap, k, acc, live);
      ScanLevelRoots(src, pid, snap, k + 1, acc, live);
    } else if !src.Shown(k) {
      UnfoldHidden(src, pid, snap, k, acc, live);
      ScanLevelRoots(src, pid, snap, k + 1, acc, live - {k});
    } else {
      var rest := live - {k};
      Shrinks(live, snap, k);
      UnfoldShown(src, pid, snap, k, acc, live);
      var sub := Build(src, src.Id(k), rest);
      var node := Node(k, src.format(src.entries[k]).value - {"children"}, sub.nodes);
      ScanLevelRoots(src, pid, snap, k + 1, acc + [node], sub.live);
      PreorderAppend(acc, node);
      assert Siblings(src, pid, snap, k) == [k] + Siblings(src, pid, snap, k + 1);
      assert Roots(acc + [node]) + Siblings(src, pid, snap, k + 1) == Roots(acc) + Siblings(src, pid, snap, k);
    }
  }

  /** A loop removes every child of its level that is still in the source from
      key k on, kept or not. */
  lemma {:induction false} ScanLevelConsumes(src: Input, pid: Option<Scalar>, snap: set<nat>, k: nat,
                                             acc: seq<Node>, live: set<nat>)
    requires k <= |src.entries| && live <= snap
    ensures forall j :: k <= j < |src.entries| && j in live && src.IsChild(j, pid) ==>
      j !in Scan(src, pid, snap, k, acc, live).live
    decreases |src.entries| - k
  {
    if k == |src.entries| {
    } else if k !in snap || !src.IsChild(k, pid) {
      UnfoldSkip(src, pid, snap, k, acc, live);
      ScanLevelConsumes(src, pid, snap, k + 1, acc, live);
    } else if !src.Shown(k) {
      UnfoldHidden(src, pid, snap, k, acc, live);
      ScanLevelConsumes(src, pid, snap, k + 1, acc, live - {k});
    } else {
      var rest := live - {k};
      Shrinks(live, snap, k);
      UnfoldShown(src, pid, snap, k, acc, live);
      var sub := Build(src, src.Id(k), rest);
      var node := Node(k, src.format(src.entries[k]).value - {"children"}, sub.nodes);
      ScanLevelConsumes(src, pid, snap, k + 1, acc + [node], sub.live);
    }
  }

  /** One level exactly, for any parent id: the call returns as its top level,
      in source order, precisely the records of the source that have an id,
      whose normalised parent is `parentId` and that the formatter keeps; and it
      consumes every record with an id and that parent, kept or not. */
  lemma LevelExact(src: Input, parentId: Option<Scalar>, live: set<nat>)
    ensures var r := Build(src, parentId, live);
      && Roots(r.nodes) == Siblings(src, parentId, live, 0)
      && forall j :: j in live && j < |src.entries| && src.IsChild(j, parentId) ==> j in Consumed(live, r)
  {
    ScanLevelRoots(src, parentId, live, 0, [], live);
    ScanLevelConsumes(src, parentId, live, 0, [], live);
  }

  /** At the top level every record with an id whose parent field is missing,
      null, 0, '' or '0' is consumed, and is a root exactly when the formatter
      keeps it (LevelExact gives the roots' order). */
  lemma FalsyParentsAreRoots(src: Input, live: set<nat>, j: nat)
    requires j in live && j < |src.entries| && src.Id(j).Some?
    requires src.parentField !in src.entries[j] || Falsy(src.entries[j][src.parentField])
    ensures var r := Build(src, None, live);
      && j in Consumed(live, r)
      && (j in Roots(r.nodes) <==> src.Shown(j))
  {
    LevelExact(src, None, live);
    SiblingsSpec(src, None, live, 0);
  }

  // ---------------------------------------------------------------------------
  // The whole forest, when ids are unique

  /** With unique ids, a nested level's parent id is the id of no record left in its source. */
  lemma NestedLevelOk(src: Input, k: nat, rest: set<nat>)
    requires UniqueIds(src) && k < |src.entries| && src.Id(k).Some? && k !in rest
    ensures LevelOk(src, src.Id(k), rest)
  {
  }

  lemma DistinctJoin(a: seq<nat>, k: nat, b: seq<nat>)
    requires Distinct(a) && Distinct(b) && k !in a && k !in b
    requires forall x :: x in b ==> x !in a
    ensures Distinct(a + [k] + b)
  {
    var s := a + [k] + b;
    forall i, j | 0 <= i < j < |s| ensures s[i] != s[j] {
      if j >= |a| + 1 && i < |a| {
        assert s[j] in b;
      }
    }
  }

  /** The step of ScanDistinct at a kept child, given the claim for its subtree. */
  lemma DistinctStep(src: Input, k: nat, acc: seq<Node>, live: set<nat>, node: Node)
    requires k < |src.entries| && k in live
    requires var rest := live - {k};
      var sub := Build(src, src.Id(k), rest);
      && node.key == k && node.children == sub.nodes
      && Distinct(Preorder(sub.nodes))
      && (forall x :: x in Preorder(sub.nodes) ==> x !in sub.live && x in rest)
    requires Distinct(Preorder(acc)) && forall x :: x in Preorder(acc) ==> x !in live
    ensures Distinct(Preorder(acc + [node]))
    ensures forall x :: x in Preorder(acc + [node]) ==> x !in Build(src, src.Id(k), live - {k}).live
  {
    PreorderAppend(acc, node);
    DistinctJoin(Preorder(acc), k, Preorder(node.children));
  }

  /** With unique ids, a level's loop from key k on keeps the pre-order of what
      it has built free of repeats. */
  lemma {:induction false} ScanDistinct(src: Input, pid: Option<Scalar>, snap: set<nat>, k: nat,
                                        acc: seq<Node>, live: set<nat>)
    requires k <= |src.entries| && live <= snap
    requires UniqueIds(src) && LevelOk(src, pid, snap) && Pending(src, pid, snap, k, live)
    requires Distinct(Preorder(acc)) && forall x :: x in Preorder(acc) ==> x !in live
    ensures Distinct(Preorder(Scan(src, pid, snap, k, acc, live).nodes))
    decreases |snap|, |src.entries| - k, 1
  {
    if k == |src.entries| {
    } else if k !in snap || !src.IsChild(k, pid) {
      UnfoldSkip(src, pid, snap, k, acc, live);
      ScanDistinct(src, pid, snap, k + 1, acc, live);
    } else if !src.Shown(k) {
      UnfoldHidden(src, pid, snap, k, acc, live);
      StepKeepsPending(src, pid, snap, k, live);
      ScanDistinct(src, pid, snap, k + 1, acc, live - {k});
    } else {
      DistinctShown(src, pid, snap, k, acc, live);
    }
  }

  /** The step of ScanDistinct at a kept child: the subtree is built, then the loop goes on. */
  lemma {:induction false} DistinctShown(src: Input, pid: Option<Scalar>, snap: set<nat>, k: nat,
                                         acc: seq<Node>, live: set<nat>)
    requires k < |src.entries| && live <= snap && k in snap && src.IsChild(k, pid) && src.Shown(k)
    requires UniqueIds(src) && LevelOk(src, pid, snap) && Pending(src, pid, snap, k, live)
    requires Distinct(Preorder(acc)) && forall x :: x in Preorder(acc) ==> x !in live
    ensures Distinct(Preorder(Scan(src, pid, snap, k, acc, live).nodes))
    decreases |snap|, |src.entries| - k, 0
  {
    var rest := live - {k};
    Shrinks(live, snap, k);
    UnfoldShown(src, pid, snap, k, acc, live);
    StepKeepsPending(src, pid, snap, k, live);
    NestedLevelOk(src, k, rest);
    ScanDistinct(src, src.Id(k), rest, 0, [], rest);
    ScanRemovesEmitted(src, src.Id(k), rest, 0, [], rest);
    var sub := Build(src, src.Id(k), rest);
    var node := Node(k, src.format(src.entries[k]).value - {"children"}, sub.nodes);
    DistinctStep(src, k, acc, live, node);
    ScanDistinct(src, pid, snap, k + 1, acc + [node], sub.live);
  }


  /** With unique ids, no record appears twice anywhere in the forest. */
  lemma NoDuplicates(src: Input, live: set<nat>)
    requires UniqueIds(src)
    ensures Distinct(Preorder(Build(src, None, live).nodes))
  {
    ScanDistinct(src, None, live, 0, [], live);
  }

  /** Every record whose parent is the id of a consumed, kept record has been consumed too. */
  ghost predicate ChildrenGone(src: Input, live: set<nat>, after: set<nat>) {
    forall p, x ::
      (p in live && p !in after && p < |src.entries| && src.Shown(p)
       && x in live && x < |src.entries| && src.IsChild(x, src.Id(p))) ==> x !in after
  }

  lemma ChildrenStep(src: Input, pid: Option<Scalar>, snap: set<nat>, k: nat, live: set<nat>, later: set<nat>)
    requires k < |src.entries| && k in live && src.Shown(k)
    requires var rest := live - {k};
      var sub := Build(src, src.Id(k), rest);
      && later <= sub.live
      && (forall j :: j in rest && j < |src.entries| && src.IsChild(j, src.Id(k)) ==> j !in sub.live)
      && ChildrenGone(src, rest, sub.live)
      && ChildrenGone(src, sub.live, later)
    ensures ChildrenGone(src, live, later)
  {
  }

  lemma {:induction false} ScanChildrenGone(src: Input, pid: Option<Scalar>, snap: set<nat>, k: nat,
                                            acc: seq<Node>, live: set<nat>)
    requires k <= |src.entries| && live <= snap
    requires UniqueIds(src) && LevelOk(src, pid, snap) && Pending(src, pid, snap, k, live)
    ensures ChildrenGone(src, live, Scan(src, pid, snap, k, acc, live).live)
    decreases |snap|, |src.entries| - k, 1
  {
    if k == |src.entries| {
    } else if k !in snap || !src.IsChild(k, pid) {
      UnfoldSkip(src, pid, snap, k, acc, live);
      ScanChildrenGone(src, pid, snap, k + 1, acc, live);
    } else if !src.Shown(k) {
      UnfoldHidden(src, pid, snap, k, acc, live);
      StepKeepsPending(src, pid, snap, k, live);
      ScanChildrenGone(src, pid, snap, k + 1, acc, live - {k});
      HiddenChildrenGone(src, k, live, Scan(src, pid, snap, k + 1, acc, live - {k}).live);
    } else {
      ChildrenGoneShown(src, pid, snap, k, acc, live);
    }
  }

  /** Consuming a rejected record keeps the claim: its children are not looked for. */
  lemma HiddenChildrenGone(src: Input, k: nat, live: set<nat>, later: set<nat>)
    requires k < |src.entries| && !src.Shown(k)
    requires later <= live - {k} && ChildrenGone(src, live - {k}, later)
    ensures ChildrenGone(src, live, later)
  {
  }

  /** The step of ScanChildrenGone at a kept child. */
  lemma {:induction false} ChildrenGoneShown(src: Input, pid: Option<Scalar>, snap: set<nat>, k: nat,
                                             acc: seq<Node>, live: set<nat>)
    requires k < |src.entries| && live <= snap && k in snap && src.IsChild(k, pid) && src.Shown(k)
    requires UniqueIds(src) && LevelOk(src, pid, snap) && Pending(src, pid, snap, k, live)
    ensures ChildrenGone(src, live, Scan(src, pid, snap, k, acc, live).live)
    decreases |snap|, |src.entries| - k, 0
  {
    var rest := live - {k};
    Shrinks(live, snap, k);
    UnfoldShown(src, pid, snap, k, acc, live);
    StepKeepsPending(src, pid, snap, k, live);
    NestedLevelOk(src, k, rest);
    ScanChildrenGone(src, src.Id(k), rest, 0, [], rest);
    ScanLevelConsumes(src, src.Id(k), rest, 0, [], rest);
    var sub := Build(src, src.Id(k), rest);
    var node := Node(k, src.format(src.entries[k]).value - {"children"}, sub.nodes);
    var later := Scan(src, pid, snap, k + 1, acc + [node], sub.live);
    ScanChildrenGone(src, pid, snap, k + 1, acc + [node], sub.live);
    ChildrenStep(src, pid, snap, k, live, later.live);
  }


  // ---------------------------------------------------------------------------
  // Records that are skipped, and records whose subtree is dropped

  /** A record without an id is never consumed and never appears in the result. */
  lemma MissingIdNeverAppears(src: Input, parentId: Option<Scalar>, live: set<nat>, j: nat)
    requires j < |src.entries| && src.Id(j).None?
    ensures var r := Build(src, parentId, live);
      && j !in Preorder(r.nodes)
      && (j in live ==> j in r.live)
  {
    EmittedAreConsumed(src, parentId, live);
  }

  /** A node stands either at the level its parent value names, or below a node
      of the same forest whose id is that parent value. */
  lemma {:induction false} AttachedParent(src: Input, pid: Option<Scalar>, ns: seq<Node>, x: nat)
    requires Attached(src, pid, ns) && x in Preorder(ns)
    ensures x < |src.entries|
    ensures src.Parent(x) == pid ||
      exists y :: y in Preorder(ns) && y < |src.entries| && src.Id(y) == src.Parent(x)
    decreases ns
  {
    var last := ns[|ns| - 1];
    var init := ns[..|ns| - 1];
    assert Attached(src, pid, init);
    assert Preorder(ns) == Preorder(init) + [last.key] + Preorder(last.children);
    if x in Preorder(init) {
      AttachedParent(src, pid, init, x);
      if src.Parent(x) != pid {
        var y :| y in Preorder(init) && y < |src.entries| && src.Id(y) == src.Parent(x);
        assert y in Preorder(ns);
      }
    } else if x != last.key {
      AttachedParent(src, src.Id(last.key), last.children, x);
      if src.Parent(x) == src.Id(last.key) {
        assert last.key in Preorder(ns);
      } else {
        var y :| y in Preorder(last.children) && y < |src.entries| && src.Id(y) == src.Parent(x);
        assert y in Preorder(ns);
      }
    }
  }

  /** Every returned record with a non-null parent has, somewhere in the forest,
      a returned record whose id is that parent value. */
  lemma ParentIsReturned(src: Input, live: set<nat>, x: nat)
    requires x < |src.entries| && src.Parent(x).Some?
    requires x in Preorder(Build(src, None, live).nodes)
    ensures exists y ::
      (y in Preorder(Build(src, None, live).nodes) && y < |src.entries| && src.Id(y) == src.Parent(x))
  {
    BuildAttached(src, None, live);
    AttachedParent(src, None, Build(src, None, live).nodes, x);
  }

  /** A chain of records, each the parent of the next. */
  ghost predicate Lineage(src: Input, path: seq<nat>) {
    && (forall i :: 0 <= i < |path| ==> path[i] < |src.entries|)
    && (forall i :: 0 <= i < |path| - 1 ==>
          src.Id(path[i]).Some? && src.Parent(path[i + 1]) == src.Id(path[i]))
  }

  /** When the formatter returns no array for a record, with unique ids, none
      of that record's descendants appears in the result either. */
  lemma {:induction false} RejectedDropsSubtree(src: Input, live: set<nat>, path: seq<nat>)
    requires UniqueIds(src) && |path| >= 1 && Lineage(src, path) && !src.Shown(path[0])
    ensures path[|path| - 1] !in Preorder(Build(src, None, live).nodes)
    decreases |path|
  {
    var r := Build(src, None, live);
    if |path| == 1 {
      EmittedAreConsumed(src, None, live);
    } else {
      var init := path[..|path| - 1];
      assert Lineage(src, init);
      RejectedDropsSubtree(src, live, init);
      var x := path[|path| - 1];
      var p := path[|path| - 2];
      if x in Preorder(r.nodes) {
        ParentIsReturned(src, live, x);
        assert false;
      }
    }
  }

  // ---------------------------------------------------------------------------
  // A well-formed source is nested completely

  /** Every record has an id, and every non-null parent value is the id of a
      record `up[x]` that is shallower by `depth`: the parent links form a forest. */
  ghost predicate Rooted(src: Input, up: seq<nat>, depth: seq<nat>) {
    && |up| == |src.entries| && |depth| == |src.entries|
    && forall x :: 0 <= x < |src.entries| ==>
      && src.Id(x).Some?
      && (src.Parent(x).Some? ==>
            up[x] < |src.entries| && src.Id(up[x]) == src.Parent(x) && depth[up[x]] < depth[x])
  }

  ghost predicate AllShown(src: Input) {
    forall x :: 0 <= x < |src.entries| ==> src.Shown(x)
  }

  lemma {:induction false} ConsumedByDepth(src: Input, up: seq<nat>, depth: seq<nat>, d: nat, x: nat)
    requires UniqueIds(src) && Rooted(src, up, depth) && AllShown(src)
    requires x < |src.entries| && depth[x] <= d
    ensures x !in Build(src, None, Range(|src.entries|)).live
    decreases d
  {
    var live := Range(|src.entries|);
    assert LevelOk(src, None, live);
    if src.Parent(x).None? {
      LevelExact(src, None, live);
      assert src.IsChild(x, None);
    } else {
      var p := up[x];
      ConsumedByDepth(src, up, depth, d - 1, p);
      ScanChildrenGone(src, None, live, 0, [], live);
      assert src.IsChild(x, src.Id(p));
    }
  }

  /** On a fresh source whose records all have unique ids, whose parent values
      all name records and form no cycle, and which the formatter all keeps,
      the result holds every record exactly once and the source ends empty. */
  lemma WellFormedSourceNestsCompletely(src: Input, up: seq<nat>, depth: seq<nat>)
    requires UniqueIds(src) && Rooted(src, up, depth) && AllShown(src)
    ensures var r := Build(src, None, Range(|src.entries|));
      && r.live == {}
      && Distinct(Preorder(r.nodes))
      && forall x :: x in Preorder(r.nodes) <==> 0 <= x < |src.entries|
  {
    var live := Range(|src.entries|);
    var r := Build(src, None, live);
    forall x: nat | x < |src.entries|
      ensures x in live && x !in r.live
    {
      ConsumedByDepth(src, up, depth, depth[x], x);
    }
    EmittedAreConsumed(src, None, live);
    forall x: nat
      ensures x in Preorder(r.nodes) <==> x < |src.entries|
    {
      if x < |src.entries| {
        assert x in Consumed(live, r) && src.Shown(x);
      }
    }
    NoDuplicates(src, live);
  }
}
