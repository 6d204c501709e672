/** Building a forest from flat records and flattening it again gives back
    every record's id and parent, once each, when the records form a forest. */
module RoundTrip {
  import opened Values
  import opened Hierarchy
  import opened HierarchyFacts
  import opened Parse

  /** An id and the parent it is attached under. */
  datatype Link = Link(id: Scalar, parent: Option<Scalar>)

  /** The links that flattening reports, ranks dropped. */
  function Links(fs: seq<Flat>): (ls: seq<Link>)
    ensures |ls| == |fs|
  {
    seq(|fs|, i requires 0 <= i < |fs| => Link(fs[i].id, fs[i].parent))
  }

  /** The link that record x of the source declares: its id and its normalised parent. */
  function LinkOf(src: Input, x: nat): Link
    requires x < |src.entries| && src.Id(x).Some?
  {
    Link(src.Id(x).value, src.Parent(x))
  }

  ghost predicate Identified(src: Input, keys: seq<nat>) {
    forall i :: 0 <= i < |keys| ==> keys[i] < |src.entries| && src.Id(keys[i]).Some?
  }

  /** The links the records at `keys` declare, in that order. */
  function SourceLinks(src: Input, keys: seq<nat>): (ls: seq<Link>)
    requires Identified(src, keys)
    ensures |ls| == |keys|
  {
    seq(|keys|, i requires 0 <= i < |keys| && Identified(src, keys) => LinkOf(src, keys[i]))
  }

  /** The formatter keeps the id field of every record it accepts. */
  ghost predicate KeepsId(src: Input) {
    && src.idField != "children"
    && forall r :: src.idField in r && src.format(r).Some? ==>
         src.idField in src.format(r).value && src.format(r).value[src.idField] == r[src.idField]
  }

  lemma LinksJoin(a: seq<Flat>, f: Flat, b: seq<Flat>)
    ensures Links(a + [f] + b) == Links(a) + [Link(f.id, f.parent)] + Links(b)
  {
  }

  lemma SourceLinksJoin(src: Input, a: seq<nat>, k: nat, b: seq<nat>)
    requires Identified(src, a) && Identified(src, b) && k < |src.entries| && src.Id(k).Some?
    ensures Identified(src, a + [k] + b)
    ensures SourceLinks(src, a + [k] + b) == SourceLinks(src, a) + [LinkOf(src, k)] + SourceLinks(src, b)
  {
    var s := a + [k] + b;
    assert Identified(src, s) by {
      forall i | 0 <= i < |s| ensures s[i] < |src.entries| && src.Id(s[i]).Some? {
        if i > |a| {
          assert s[i] == b[i - |a| - 1];
        }
      }
    }
  }

  /** The step of FlattenRendered at the last node of a level. */
  lemma LinksStep(src: Input, pid: Option<Scalar>, init: seq<Node>, n: Node)
    requires KeepsId(src) && n.key < |src.entries| && src.IsChild(n.key, pid) && src.Shown(n.key)
    requires n.item == src.format(src.entries[n.key]).value - {"children"}
    requires Keyed(Render(init), src.idField) && Identified(src, Preorder(init))
    requires Keyed(Render(n.children), src.idField) && Identified(src, Preorder(n.children))
    requires Links(Flatten(Render(init), src.idField, pid)) == SourceLinks(src, Preorder(init))
    requires Links(Flatten(Render(n.children), src.idField, src.Id(n.key))) == SourceLinks(src, Preorder(n.children))
    ensures Keyed(Render(init + [n]), src.idField)
    ensures Identified(src, Preorder(init + [n]))
    ensures Links(Flatten(Render(init + [n]), src.idField, pid)) == SourceLinks(src, Preorder(init + [n]))
  {
    var ns := init + [n];
    assert ns[..|ns| - 1] == init && ns[|ns| - 1] == n;
    assert n == ns[|init|];
    var t := Tree(n.item, Render(n.children));
    assert Render(ns) == Render(init) + [t];
    assert src.idField in t.item && t.item[src.idField] == src.Id(n.key).value;
    FlattenSnoc(Render(init), t, src.idField, pid);
    PreorderAppend(init, n);
    var left := Flatten(Render(init), src.idField, pid);
    var right := Flatten(t.children, src.idField, src.Id(n.key));
    var own := Flat(t.item[src.idField], pid, |Render(init)|);
    assert Flatten(Render(ns), src.idField, pid) == left + [own] + right;
    LinksJoin(left, own, right);
    SourceLinksJoin(src, Preorder(init), n.key, Preorder(n.children));
  }

  /** Flattening the rendered forest reports, node by node, the link each
      node's record declares; the order is that of the reference flattening,
      pre-order, which is this model's choice. */
  lemma {:induction false} FlattenRendered(src: Input, pid: Option<Scalar>, ns: seq<Node>)
    requires KeepsId(src) && Attached(src, pid, ns)
    ensures Keyed(Render(ns), src.idField)
    ensures Identified(src, Preorder(ns))
    ensures Links(Flatten(Render(ns), src.idField, pid)) == SourceLinks(src, Preorder(ns))
    decreases ns
  {
    if ns != [] {
      var init := ns[..|ns| - 1];
      var n := ns[|ns| - 1];
      assert ns == init + [n];
      assert Attached(src, pid, init);
      FlattenRendered(src, pid, init);
      FlattenRendered(src, src.Id(n.key), n.children);
      assert n == ns[|ns| - 1];
      LinksStep(src, pid, init, n);
    }
  }

  /** Flattening the rendered forest reports each node's id and normalised
      parent, once per node, up to order. */
  lemma FlattenedLinks(src: Input, pid: Option<Scalar>, ns: seq<Node>)
    requires KeepsId(src) && Attached(src, pid, ns)
    ensures Keyed(Render(ns), src.idField)
    ensures Identified(src, Preorder(ns))
    ensures multiset(Links(Flatten(Render(ns), src.idField, pid))) == multiset(SourceLinks(src, Preorder(ns)))
  {
    FlattenRendered(src, pid, ns);
  }

  function Elems(s: seq<nat>): set<nat> {
    set x | x in s
  }

  lemma {:induction false} DistinctCard(s: seq<nat>)
    requires Distinct(s)
    ensures |Elems(s)| == |s|
    decreases |s|
  {
    if s != [] {
      var t := s[..|s| - 1];
      var last := s[|s| - 1];
      assert s == t + [last];
      assert Distinct(t);
      DistinctCard(t);
      ElemsSnoc(t, last);
      LastIsNew(s);
    }
  }

  lemma ElemsSnoc(t: seq<nat>, x: nat)
    ensures Elems(t + [x]) == Elems(t) + {x}
  {
    forall y ensures y in Elems(t + [x]) <==> y in Elems(t) || y == x {
      assert y in t + [x] <==> y in t || y == x;
    }
  }

  lemma LastIsNew(s: seq<nat>)
    requires Distinct(s) && s != []
    ensures s[|s| - 1] !in Elems(s[..|s| - 1])
  {
  }


  lemma {:induction false} RangeCard(n: nat)
    ensures |Range(n)| == n
  {
    if n == 0 {
      assert Range(n) == {};
    } else {
      var below := Range(n - 1);
      RangeCard(n - 1);
      assert Range(n) == below + {n - 1};
      assert n - 1 !in below;
    }
  }

  /** A distinct sequence whose elements are exactly 0 .. n-1 has length n. */
  lemma DistinctLength(s: seq<nat>, n: nat)
    requires Distinct(s) && forall x :: x in s <==> 0 <= x < n
    ensures |s| == n
  {
    DistinctCard(s);
    RangeCard(n);
    assert Elems(s) == Range(n);
  }

  /** Links reported for a sequence of keys that lists each record once. */
  lemma CoverLinks(src: Input, keys: seq<nat>, ls: seq<Link>)
    requires Identified(src, keys) && ls == SourceLinks(src, keys)
    requires forall x :: x in keys <==> 0 <= x < |src.entries|
    requires forall x :: 0 <= x < |src.entries| ==> src.Id(x).Some?
    ensures forall x :: 0 <= x < |src.entries| ==> LinkOf(src, x) in ls
    ensures forall l :: l in ls ==> exists x :: 0 <= x < |src.entries| && l == LinkOf(src, x)
  {
    forall x | 0 <= x < |src.entries|
      ensures LinkOf(src, x) in ls
    {
      assert x in keys;
      var i :| 0 <= i < |keys| && keys[i] == x;
      assert ls[i] == LinkOf(src, x);
    }
    forall l | l in ls
      ensures exists x :: 0 <= x < |src.entries| && l == LinkOf(src, x)
    {
      var i :| 0 <= i < |ls| && ls[i] == l;
      assert keys[i] in keys;
    }
  }

  /** On a fresh source whose records have unique ids, name existing parents
      without cycles and are all kept by a formatter that keeps ids: flattening
      the built forest under a null default parent reports every record's id
      and parent, nothing else, and one record per source record. */
  lemma BuildThenParse(src: Input, up: seq<nat>, depth: seq<nat>)
    requires UniqueIds(src) && Rooted(src, up, depth) && AllShown(src) && KeepsId(src)
    ensures var r := Build(src, None, Range(|src.entries|));
      && Keyed(Render(r.nodes), src.idField)
      && var flat := Flatten(Render(r.nodes), src.idField, None);
      && |flat| == |src.entries|
      && (forall x :: 0 <= x < |src.entries| ==> LinkOf(src, x) in Links(flat))
      && (forall l :: l in Links(flat) ==> exists x :: 0 <= x < |src.entries| && l == LinkOf(src, x))
  {
    var r := Build(src, None, Range(|src.entries|));
    WellFormedSourceNestsCompletely(src, up, depth);
    BuildAttached(src, None, Range(|src.entries|));
    FlattenRendered(src, None, r.nodes);
    DistinctLength(Preorder(r.nodes), |src.entries|);
    CoverLinks(src, Preorder(r.nodes), Links(Flatten(Render(r.nodes), src.idField, None)));
  }
}
