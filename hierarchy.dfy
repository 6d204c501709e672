/** buildHierarchy: a flat source of records, each with an id field and a parent
    field, turned into a nested forest by one depth-first pass that removes every
    matched record from the shared source before recursing into it. */
module Hierarchy {
  import opened Values

  /** One item of the result: the formatter's array, whose 'children' key holds
      the list built beneath it. */
  datatype Tree = Tree(item: Record, children: seq<Tree>)

  /** The shape of a result: each node also carries the source key that the
      loop visited when it formatted the node. */
  datatype Node = Node(key: nat, item: Record, children: seq<Node>)

  /** What one call leaves behind: the nodes it built, and the keys still in
      the shared source afterwards. */
  datatype Outcome = Outcome(nodes: seq<Node>, live: set<nat>)

  /** The arguments that every recursive call passes on unchanged. */
  datatype Input = Input(
    entries: seq<Record>,
    format: Record -> Option<Record>,
    idField: string,
    parentField: string)
  {
    function Id(k: nat): Option<Scalar>
      requires k < |entries|
    {
      IdOf(entries[k], idField)
    }

    function Parent(k: nat): Option<Scalar>
      requires k < |entries|
    {
      ParentOf(entries[k], parentField)
    }

    /** The entry at key k is a direct child at the level of `parentId`. */
    predicate IsChild(k: nat, parentId: Option<Scalar>)
      requires k < |entries|
    {
      Id(k).Some? && Parent(k) == parentId
    }

    /** The formatter returns an array for the entry at key k. */
    predicate Shown(k: nat)
      requires k < |entries|
    {
      format(entries[k]).Some?
    }
  }

  /** `isset($item[$idField])`, with the value. */
  function IdOf(r: Record, idField: string): (id: Option<Scalar>)
    ensures id.Some? <==> idField in r
    ensures id.Some? ==> id.value == r[idField]
  {
    if idField in r then Some(r[idField]) else None
  }

  /** `$item[$parentField] ?? null`, with every falsy value turned into null. */
  function ParentOf(r: Record, parentField: string): (p: Option<Scalar>)
    ensures p.None? <==> parentField !in r || Falsy(r[parentField])
    ensures p.Some? ==> p.value == r[parentField]
  {
    if parentField in r && !Falsy(r[parentField]) then Some(r[parentField]) else None
  }

  /** The keys 0 .. n-1 of a freshly collected source. */
  function Range(n: nat): (s: set<nat>)
    ensures forall k: nat :: k in s <==> k < n
  {
    if n == 0 then {} else Range(n - 1) + {n - 1}
  }

  lemma {:induction false} SubsetCard(a: set<nat>, b: set<nat>)
    requires a <= b
    ensures |a| <= |b|
  {
    if a != {} {
      var x :| x in a;
      SubsetCard(a - {x}, b - {x});
    }
  }

  /** Removing a key that the snapshot held leaves fewer keys than the snapshot. */
  lemma Shrinks(live: set<nat>, snap: set<nat>, k: nat)
    requires live <= snap && k in snap
    ensures |live - {k}| < |snap|
  {
    SubsetCard(live - {k}, snap - {k});
  }

  /** One call `buildHierarchy(source, ..., parentId)` on a source whose keys
      are `live`: the loop of that call, started on a snapshot of `live`. */
  function Build(src: Input, parentId: Option<Scalar>, live: set<nat>): (r: Outcome)
    ensures r.live <= live
    decreases |live|, 1
  {
    Scan(src, parentId, live, 0, [], live)
  }

  /** The loop of one call from key k on: `snap` is the snapshot the loop
      iterates, `acc` the children collected so far and `live` the keys still
      in the shared source. */
  function Scan(src: Input, parentId: Option<Scalar>, snap: set<nat>, k: nat,
                acc: seq<Node>, live: set<nat>): (r: Outcome)
    requires k <= |src.entries| && live <= snap
    ensures r.live <= live
    decreases |snap|, 0, |src.entries| - k
  {
    if k == |src.entries| then Outcome(acc, live)
    else if k !in snap || !src.IsChild(k, parentId) then
      Scan(src, parentId, snap, k + 1, acc, live)
    else
      var rest := live - {k};
      match src.format(src.entries[k])
      case None => Scan(src, parentId, snap, k + 1, acc, rest)
      case Some(f) =>
        Shrinks(live, snap, k);
        var sub := Build(src, src.Id(k), rest);
        Scan(src, parentId, snap, k + 1, acc + [Node(k, f - {"children"}, sub.nodes)], sub.live)
  }

  /** The arrays a list of nodes stands for: the shape without the source keys. */
  function Render(ns: seq<Node>): (ts: seq<Tree>)
    ensures |ts| == |ns|
    decreases ns
  {
    if ns == [] then []
    else
      var n := ns[|ns| - 1];
      Render(ns[..|ns| - 1]) + [Tree(n.item, Render(n.children))]
  }

  /** The source collection, shared by every level of the recursion: its
      entries never change, and `live` holds the keys not yet unset. */
  class Collection {
    const entries: seq<Record>
    var live: set<nat>

    constructor (entries: seq<Record>)
      ensures this.entries == entries && live == Range(|entries|)
    {
      this.entries := entries;
      live := Range(|entries|);
    }
  }

  /** buildHierarchy: every level removes the records it matches from the
      shared source, and iterates the keys present when its loop began. */
  method BuildHierarchy(source: Collection, format: Record -> Option<Record>,
                        idField: string := "id", parentField: string := "parent_id",
                        parentId: Option<Scalar> := None) returns (children: seq<Tree>)
    modifies source
    ensures var r := Build(Input(source.entries, format, idField, parentField), parentId, old(source.live));
            children == Render(r.nodes) && source.live == r.live
    decreases |source.live|
  {
    ghost var src := Input(source.entries, format, idField, parentField);
    var snapshot := source.live;
    children := [];
    ghost var shape: seq<Node> := [];
    var k := 0;
    while k < |source.entries|
      invariant k <= |source.entries|
      invariant source.live <= snapshot
      invariant children == Render(shape)
      invariant Scan(src, parentId, snapshot, k, shape, source.live) == Build(src, parentId, snapshot)
    {
      var item := source.entries[k];
      if k in snapshot && IdOf(item, idField).Some? && ParentOf(item, parentField) == parentId {
        source.live := source.live - {k};
        var formatted := format(item);
        if formatted.Some? {
          ghost var before := source.live;
          Shrinks(before + {k}, snapshot, k);
          assert before + {k} - {k} == before;
          var grandchildren := BuildHierarchy(source, format, idField, parentField, IdOf(item, idField));
          ghost var sub := Build(src, src.Id(k), before);
          children := children + [Tree(formatted.value - {"children"}, grandchildren)];
          shape := shape + [Node(k, formatted.value - {"children"}, sub.nodes)];
        }
      }
      k := k + 1;
    }
  }
}
