/** parseHierarchy: the inverse direction, a nested forest flattened back into
    one record per node, each told its parent's id and its rank among its
    siblings. Only what the repository's tests pin down is modelled: the
    records that come out, as a multiset. */
module Parse {
  import opened Values
  import opened Hierarchy

  /** What the per-node callback receives about one node: its id, the id of
      the node it was nested in (or the default parent value at the top
      level), and its zero-based position among its siblings. */
  datatype Flat = Flat(id: Scalar, parent: Option<Scalar>, rank: nat)

  /** Every node of the forest carries the id key. */
  ghost predicate Keyed(ts: seq<Tree>, idKey: string)
    decreases ts
  {
    forall i :: 0 <= i < |ts| ==> idKey in ts[i].item && Keyed(ts[i].children, idKey)
  }

  /** The number of nodes of a forest. */
  function Size(ts: seq<Tree>): nat
    decreases ts
  {
    if ts == [] then 0 else Size(ts[..|ts| - 1]) + 1 + Size(ts[|ts| - 1].children)
  }

  /** The flattened forest, parent before its children. The order is this
      model's choice: what stands for parseHierarchy's promises is stated up to
      order, and the lemmas that fix an order are steps of those proofs. */
  function Flatten(ts: seq<Tree>, idKey: string, parent: Option<Scalar>): seq<Flat>
    requires Keyed(ts, idKey)
    decreases ts
  {
    if ts == [] then []
    else
      var t := ts[|ts| - 1];
      assert Keyed(ts[..|ts| - 1], idKey);
      Flatten(ts[..|ts| - 1], idKey, parent)
        + [Flat(t.item[idKey], parent, |ts| - 1)]
        + Flatten(t.children, idKey, Some(t.item[idKey]))
  }

  /** One record per node. */
  lemma {:induction false} OneRecordPerNode(ts: seq<Tree>, idKey: string, parent: Option<Scalar>)
    requires Keyed(ts, idKey)
    ensures |Flatten(ts, idKey, parent)| == Size(ts)
    decreases ts
  {
    if ts != [] {
      assert Keyed(ts[..|ts| - 1], idKey);
      OneRecordPerNode(ts[..|ts| - 1], idKey, parent);
      OneRecordPerNode(ts[|ts| - 1].children, idKey, Some(ts[|ts| - 1].item[idKey]));
    }
  }

  /** The i-th node of a level is flattened with the level's parent value and
      rank i, and its whole subtree is flattened with its own id as parent. */
  lemma {:induction false} LevelRecords(ts: seq<Tree>, idKey: string, parent: Option<Scalar>, i: nat)
    requires Keyed(ts, idKey) && i < |ts|
    ensures var t := ts[i];
      var all := multiset(Flatten(ts, idKey, parent));
      && Flat(t.item[idKey], parent, i) in all
      && multiset(Flatten(t.children, idKey, Some(t.item[idKey]))) <= all
    decreases ts
  {
    var init := ts[..|ts| - 1];
    assert Keyed(init, idKey);
    var t := ts[|ts| - 1];
    assert Flatten(ts, idKey, parent) == Flatten(init, idKey, parent)
      + [Flat(t.item[idKey], parent, |ts| - 1)] + Flatten(t.children, idKey, Some(t.item[idKey]));
    if i < |ts| - 1 {
      assert ts[i] == init[i];
      LevelRecords(init, idKey, parent, i);
    }
  }

  /** Every record's parent is either the top level's parent value or the id
      of another record produced. */
  lemma {:induction false} RecordsComeFromNodes(ts: seq<Tree>, idKey: string, parent: Option<Scalar>, f: Flat)
    requires Keyed(ts, idKey) && f in Flatten(ts, idKey, parent)
    ensures f.parent == parent || exists g :: g in Flatten(ts, idKey, parent) && Some(g.id) == f.parent
    decreases ts
  {
    var init := ts[..|ts| - 1];
    assert Keyed(init, idKey);
    var t := ts[|ts| - 1];
    var own := Flat(t.item[idKey], parent, |ts| - 1);
    var all := Flatten(ts, idKey, parent);
    assert all == Flatten(init, idKey, parent) + [own] + Flatten(t.children, idKey, Some(t.item[idKey]));
    if f in Flatten(init, idKey, parent) {
      RecordsComeFromNodes(init, idKey, parent, f);
      if f.parent != parent {
        var g :| g in Flatten(init, idKey, parent) && Some(g.id) == f.parent;
        assert g in all;
      }
    } else if f != own {
      RecordsComeFromNodes(t.children, idKey, Some(t.item[idKey]), f);
      if f.parent == Some(t.item[idKey]) {
        assert own in all;
      } else {
        var g :| g in Flatten(t.children, idKey, Some(t.item[idKey])) && Some(g.id) == f.parent;
        assert g in all;
      }
    }
  }

  // ---------------------------------------------------------------------------
  // The repository's test cases

  /** A test record: the id under `idKey` and, when the test gives one, the
      parent under 'parent_id'. */
  function Item(idKey: string, withParent: bool, id: int, parent: int): Record {
    if withParent then map[idKey := Int(id), "parent_id" := Int(parent)] else map[idKey := Int(id)]
  }

  function Tr(idKey: string, withParent: bool, id: int, parent: int, children: seq<Tree>): Tree {
    Tree(Item(idKey, withParent, id, parent), children)
  }

  /** The children of node 1 in the tests: 11 (with child 8) and 6. */
  function UnderOneForest(idKey: string, withParent: bool): seq<Tree> {
    [Tr(idKey, withParent, 11, 1, [Tr(idKey, withParent, 8, 11, [])]), Tr(idKey, withParent, 6, 1, [])]
  }

  /** The children of node 2 in the tests: 10 (with child 3). */
  function UnderTwoForest(idKey: string, withParent: bool): seq<Tree> {
    [Tr(idKey, withParent, 10, 2, [Tr(idKey, withParent, 3, 10, [])])]
  }

  /** The three-level forest of the tests: ids 1 (11 (8), 6), 2 (10 (3)), 4, 5, 7, 9. */
  function ThreeLevels(idKey: string, withParent: bool): seq<Tree> {
    [ Tr(idKey, withParent, 1, 0, UnderOneForest(idKey, withParent)),
      Tr(idKey, withParent, 2, 0, UnderTwoForest(idKey, withParent)),
      Tr(idKey, withParent, 4, 0, []), Tr(idKey, withParent, 5, 0, []),
      Tr(idKey, withParent, 7, 0, []), Tr(idKey, withParent, 9, 0, []) ]
  }

  /** Flattening a level that ends in `t`. */
  lemma FlattenSnoc(ts: seq<Tree>, t: Tree, idKey: string, parent: Option<Scalar>)
    requires Keyed(ts, idKey) && idKey in t.item && Keyed(t.children, idKey)
    ensures Keyed(ts + [t], idKey)
    ensures Flatten(ts + [t], idKey, parent) == Flatten(ts, idKey, parent)
      + [Flat(t.item[idKey], parent, |ts|)] + Flatten(t.children, idKey, Some(t.item[idKey]))
  {
    assert (ts + [t])[..|ts|] == ts;
  }

  /** A single-node level under `parent`. */
  lemma Single(t: Tree, idKey: string, parent: Option<Scalar>)
    requires idKey in t.item && Keyed(t.children, idKey)
    ensures Keyed([t], idKey)
    ensures Flatten([t], idKey, parent) ==
      [Flat(t.item[idKey], parent, 0)] + Flatten(t.children, idKey, Some(t.item[idKey]))
  {
    FlattenSnoc([], t, idKey, parent);
    assert [] + [t] == [t];
  }

  lemma UnderOne(idKey: string, withParent: bool)
    requires withParent ==> idKey != "parent_id"
    ensures Keyed(UnderOneForest(idKey, withParent), idKey)
    ensures Flatten(UnderOneForest(idKey, withParent), idKey, Some(Int(1))) ==
      [Flat(Int(11), Some(Int(1)), 0), Flat(Int(8), Some(Int(11)), 0), Flat(Int(6), Some(Int(1)), 1)]
  {
    var eleven := Tr(idKey, withParent, 11, 1, [Tr(idKey, withParent, 8, 11, [])]);
    Single(Tr(idKey, withParent, 8, 11, []), idKey, Some(Int(11)));
    Single(eleven, idKey, Some(Int(1)));
    FlattenSnoc([eleven], Tr(idKey, withParent, 6, 1, []), idKey, Some(Int(1)));
    assert [eleven] + [Tr(idKey, withParent, 6, 1, [])] == UnderOneForest(idKey, withParent);
  }

  lemma UnderTwo(idKey: string, withParent: bool)
    requires withParent ==> idKey != "parent_id"
    ensures Keyed(UnderTwoForest(idKey, withParent), idKey)
    ensures Flatten(UnderTwoForest(idKey, withParent), idKey, Some(Int(2))) ==
      [Flat(Int(10), Some(Int(2)), 0), Flat(Int(3), Some(Int(10)), 0)]
  {
    Single(Tr(idKey, withParent, 3, 10, []), idKey, Some(Int(10)));
    Single(Tr(idKey, withParent, 10, 2, [Tr(idKey, withParent, 3, 10, [])]), idKey, Some(Int(2)));
  }

  /** Nodes 1 and 2 with their subtrees, under the default parent value `top`. */
  lemma FirstTwo(idKey: string, withParent: bool, top: Option<Scalar>)
    requires withParent ==> idKey != "parent_id"
    ensures var ts := [Tr(idKey, withParent, 1, 0, UnderOneForest(idKey, withParent)),
                       Tr(idKey, withParent, 2, 0, UnderTwoForest(idKey, withParent))];
      && Keyed(ts, idKey)
      && Flatten(ts, idKey, top) == [
        Flat(Int(1), top, 0), Flat(Int(11), Some(Int(1)), 0), Flat(Int(8), Some(Int(11)), 0),
        Flat(Int(6), Some(Int(1)), 1), Flat(Int(2), top, 1), Flat(Int(10), Some(Int(2)), 0),
        Flat(Int(3), Some(Int(10)), 0)]
  {
    var one := Tr(idKey, withParent, 1, 0, UnderOneForest(idKey, withParent));
    var two := Tr(idKey, withParent, 2, 0, UnderTwoForest(idKey, withParent));
    UnderOne(idKey, withParent);
    UnderTwo(idKey, withParent);
    Single(one, idKey, top);
    FlattenSnoc([one], two, idKey, top);
    assert [one] + [two] == [one, two];
  }

  /** A leaf appended to a top-level forest flattens to one more record. */
  lemma AppendLeaf(ts: seq<Tree>, id: int, idKey: string, withParent: bool, top: Option<Scalar>)
    requires withParent ==> idKey != "parent_id"
    requires Keyed(ts, idKey)
    ensures Keyed(ts + [Tr(idKey, withParent, id, 0, [])], idKey)
    ensures Flatten(ts + [Tr(idKey, withParent, id, 0, [])], idKey, top)
      == Flatten(ts, idKey, top) + [Flat(Int(id), top, |ts|)]
  {
    var leaf := Tr(idKey, withParent, id, 0, []);
    FlattenSnoc(ts, leaf, idKey, top);
    assert Flatten(leaf.children, idKey, Some(leaf.item[idKey])) == [];
  }

  /** The three-level forest flattened under the default parent value `top`,
      in this model's order (a step towards the multiset statements below). */
  lemma ThreeLevelsInOrder(idKey: string, withParent: bool, top: Option<Scalar>)
    requires withParent ==> idKey != "parent_id"
    ensures Keyed(ThreeLevels(idKey, withParent), idKey)
    ensures Flatten(ThreeLevels(idKey, withParent), idKey, top) == [
      Flat(Int(1), top, 0), Flat(Int(11), Some(Int(1)), 0), Flat(Int(8), Some(Int(11)), 0),
      Flat(Int(6), Some(Int(1)), 1), Flat(Int(2), top, 1), Flat(Int(10), Some(Int(2)), 0),
      Flat(Int(3), Some(Int(10)), 0), Flat(Int(4), top, 2), Flat(Int(5), top, 3),
      Flat(Int(7), top, 4), Flat(Int(9), top, 5)]
  {
    var l2 := [Tr(idKey, withParent, 1, 0, UnderOneForest(idKey, withParent)),
               Tr(idKey, withParent, 2, 0, UnderTwoForest(idKey, withParent))];
    FirstTwo(idKey, withParent, top);
    var f2 := Flatten(l2, idKey, top);
    var l3 := l2 + [Tr(idKey, withParent, 4, 0, [])];
    AppendLeaf(l2, 4, idKey, withParent, top);
    var l4 := l3 + [Tr(idKey, withParent, 5, 0, [])];
    AppendLeaf(l3, 5, idKey, withParent, top);
    var l5 := l4 + [Tr(idKey, withParent, 7, 0, [])];
    AppendLeaf(l4, 7, idKey, withParent, top);
    var l6 := l5 + [Tr(idKey, withParent, 9, 0, [])];
    AppendLeaf(l5, 9, idKey, withParent, top);
    assert l6 == ThreeLevels(idKey, withParent);
    assert Flatten(l6, idKey, top)
      == f2 + [Flat(Int(4), top, 2)] + [Flat(Int(5), top, 3)] + [Flat(Int(7), top, 4)] + [Flat(Int(9), top, 5)];
  }

  /** The test case with a null default parent value: the records that come
      out, as a multiset, are those the test expects with their ranks and
      parents; the test compares them without regard to order. */
  lemma ThreeLevelsFlattened()
    ensures Keyed(ThreeLevels("id", true), "id")
    ensures multiset(Flatten(ThreeLevels("id", true), "id", None)) == multiset{
      Flat(Int(1), None, 0), Flat(Int(11), Some(Int(1)), 0), Flat(Int(8), Some(Int(11)), 0),
      Flat(Int(6), Some(Int(1)), 1), Flat(Int(2), None, 1), Flat(Int(10), Some(Int(2)), 0),
      Flat(Int(3), Some(Int(10)), 0), Flat(Int(4), None, 2), Flat(Int(5), None, 3),
      Flat(Int(7), None, 4), Flat(Int(9), None, 5)}
  {
    ThreeLevelsInOrder("id", true, None);
  }

  /** The test case with the id under 'key', no parent field in the records,
      and 0 as the default parent value. */
  lemma AlternateKeysFlattened()
    ensures Keyed(ThreeLevels("key", false), "key")
    ensures multiset(Flatten(ThreeLevels("key", false), "key", Some(Int(0)))) == multiset{
      Flat(Int(1), Some(Int(0)), 0), Flat(Int(11), Some(Int(1)), 0), Flat(Int(8), Some(Int(11)), 0),
      Flat(Int(6), Some(Int(1)), 1), Flat(Int(2), Some(Int(0)), 1), Flat(Int(10), Some(Int(2)), 0),
      Flat(Int(3), Some(Int(10)), 0), Flat(Int(4), Some(Int(0)), 2), Flat(Int(5), Some(Int(0)), 3),
      Flat(Int(7), Some(Int(0)), 4), Flat(Int(9), Some(Int(0)), 5)}
  {
    ThreeLevelsInOrder("key", false, Some(Int(0)));
  }
}
