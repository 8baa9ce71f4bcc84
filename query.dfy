/** The part-one query: the total size of the directories that are smaller
    than a fixed threshold. */
module Query {
  import opened Tree
  import opened Paths

  /** Directories strictly below this size are counted. */
  const THRESHOLD: nat := 100000

  /** sum_directories_part_one as a recursive definition: nothing for a file;
      for a directory, its own size when that is below the threshold, plus what
      each child contributes, children taken left to right. A small directory's
      own size and every child's answer are part of the answer. */
  function SmallDirTotal(item: Item): (r: nat)
    ensures item.Directory? && Size(item) < THRESHOLD ==> Size(item) <= r
    ensures item.Directory? ==> forall k :: 0 <= k < |item.items| ==> SmallDirTotal(item.items[k]) <= r
    decreases item, 1
  {
    match item
    case File(_, _) => 0
    case Directory(_, items) =>
      (if Size(item) < THRESHOLD then Size(item) else 0) + SmallDirTotals(items)
  }

  function SmallDirTotals(items: seq<Item>): (r: nat)
    ensures forall k :: 0 <= k < |items| ==> SmallDirTotal(items[k]) <= r
    decreases items, 0
  {
    if items == [] then 0
    else SmallDirTotals(items[..|items| - 1]) + SmallDirTotal(items[|items| - 1])
  }

  /** Every item of a subtree, the subtree's root first (depth-first pre-order). */
  function Nodes(item: Item): seq<Item>
    decreases item, 1
  {
    match item
    case File(_, _) => [item]
    case Directory(_, items) => [item] + NodesOf(items)
  }

  function NodesOf(items: seq<Item>): seq<Item>
    decreases items, 0
  {
    if items == [] then []
    else NodesOf(items[..|items| - 1]) + Nodes(items[|items| - 1])
  }

  /** What one node of the tree adds to the answer: its size when it is a
      directory below the threshold, nothing otherwise. */
  function Counted(node: Item): nat
  {
    if node.Directory? && Size(node) < THRESHOLD then Size(node) else 0
  }

  /** The answer read directly off a flat list of nodes. */
  function SumCounted(nodes: seq<Item>): nat
  {
    if nodes == [] then 0 else Counted(nodes[0]) + SumCounted(nodes[1..])
  }

  lemma {:induction false} SumCountedConcat(a: seq<Item>, b: seq<Item>)
    ensures SumCounted(a + b) == SumCounted(a) + SumCounted(b)
    decreases |a|
  {
    if a == [] {
      assert a + b == b;
    } else {
      assert (a + b)[1..] == a[1..] + b;
      SumCountedConcat(a[1..], b);
    }
  }

  /** The recursive query equals the sum of the sizes of all directory nodes of
      the subtree, the root included, whose size is below the threshold; file
      sizes never enter directly. */
  lemma {:induction false} SmallDirTotalIsSumOverNodes(item: Item)
    ensures SmallDirTotal(item) == SumCounted(Nodes(item))
    decreases item, 1
  {
    match item
    case File(_, _) =>
      assert Nodes(item) == [item];
    case Directory(_, items) =>
      SmallDirTotalsIsSumOverNodes(items);
      SumCountedConcat([item], NodesOf(items));
  }

  lemma {:induction false} SmallDirTotalsIsSumOverNodes(items: seq<Item>)
    ensures SmallDirTotals(items) == SumCounted(NodesOf(items))
    decreases items, 0
  {
    if items != [] {
      var last := items[|items| - 1];
      SmallDirTotalsIsSumOverNodes(items[..|items| - 1]);
      SmallDirTotalIsSumOverNodes(last);
      SumCountedConcat(NodesOf(items[..|items| - 1]), Nodes(last));
    }
  }

  /** The index path of every node of a subtree, in the order `Nodes` lists
      the nodes. */
  function NodePaths(item: Item): seq<seq<nat>>
    decreases item, 1
  {
    match item
    case File(_, _) => [[]]
    case Directory(_, items) => [[]] + ChildNodePaths(items)
  }

  function ChildNodePaths(items: seq<Item>): seq<seq<nat>>
    decreases items, 0
  {
    if items == [] then []
    else ChildNodePaths(items[..|items| - 1]) + Under(|items| - 1, NodePaths(items[|items| - 1]))
  }

  /** The paths `ps` taken from child `i`. */
  function Under(i: nat, ps: seq<seq<nat>>): seq<seq<nat>>
  {
    seq(|ps|, k requires 0 <= k < |ps| => [i] + ps[k])
  }

  /** No path is listed twice. */
  predicate Distinct(ps: seq<seq<nat>>)
  {
    forall a, b :: 0 <= a < b < |ps| ==> ps[a] != ps[b]
  }

  /** The k-th node is the node at the k-th path. */
  lemma {:induction false} NodePathsMatchNodes(item: Item)
    ensures |NodePaths(item)| == |Nodes(item)|
    ensures forall k :: 0 <= k < |NodePaths(item)| ==>
      ValidPath(item, NodePaths(item)[k]) && At(item, NodePaths(item)[k]) == Nodes(item)[k]
    decreases item, 1
  {
    match item
    case File(_, _) =>
    case Directory(_, items) =>
      ChildNodePathsMatchNodes(items);
      var ps := NodePaths(item);
      forall k | 0 <= k < |ps| ensures ValidPath(item, ps[k]) && At(item, ps[k]) == Nodes(item)[k] {
        if k > 0 {
          assert ps[k] == ChildNodePaths(items)[k - 1];
        }
      }
  }

  lemma {:induction false} ChildNodePathsMatchNodes(items: seq<Item>)
    ensures |ChildNodePaths(items)| == |NodesOf(items)|
    ensures forall k :: 0 <= k < |ChildNodePaths(items)| ==>
      var p := ChildNodePaths(items)[k];
      p != [] && p[0] < |items| && ValidPath(items[p[0]], p[1..]) && At(items[p[0]], p[1..]) == NodesOf(items)[k]
    decreases items, 0
  {
    if items != [] {
      var n := |items| - 1;
      var front, last := items[..n], items[n];
      ChildNodePathsMatchNodes(front);
      NodePathsMatchNodes(last);
      var fp, lp := ChildNodePaths(front), Under(n, NodePaths(last));
      var ps := ChildNodePaths(items);
      assert ps == fp + lp;
      forall k | 0 <= k < |ps|
        ensures var p := ps[k];
          p != [] && p[0] < |items| && ValidPath(items[p[0]], p[1..]) && At(items[p[0]], p[1..]) == NodesOf(items)[k]
      {
        if k < |fp| {
          assert ps[k] == fp[k];
          assert front[fp[k][0]] == items[fp[k][0]];
        } else {
          var p := NodePaths(last)[k - |fp|];
          assert ps[k] == [n] + p;
          assert ([n] + p)[1..] == p;
        }
      }
    }
  }

  /** Every path that can be followed from the item is listed. */
  lemma {:induction false} NodePathsComplete(item: Item, q: seq<nat>)
    requires ValidPath(item, q)
    ensures q in NodePaths(item)
    decreases item
  {
    if q != [] {
      NodePathsComplete(item.items[q[0]], q[1..]);
      ChildNodePathsComplete(item.items, q[0], q[1..]);
      assert q == [q[0]] + q[1..];
    }
  }

  lemma {:induction false} ChildNodePathsComplete(items: seq<Item>, i: nat, q: seq<nat>)
    requires i < |items| && q in NodePaths(items[i])
    ensures [i] + q in ChildNodePaths(items)
    decreases |items|
  {
    var n := |items| - 1;
    var ps := NodePaths(items[n]);
    if i == n {
      var k :| 0 <= k < |ps| && ps[k] == q;
      assert Under(n, ps)[k] == [i] + q;
    } else {
      assert items[..n][i] == items[i];
      ChildNodePathsComplete(items[..n], i, q);
    }
  }

  /** Listing paths under a child keeps them distinct. */
  lemma UnderDistinct(i: nat, ps: seq<seq<nat>>)
    requires Distinct(ps)
    ensures Distinct(Under(i, ps))
  {
    forall a, b | 0 <= a < b < |ps| ensures Under(i, ps)[a] != Under(i, ps)[b] {
      assert Under(i, ps)[a][1..] == ps[a] && Under(i, ps)[b][1..] == ps[b];
    }
  }

  /** No path is listed twice. */
  lemma {:induction false} NodePathsDistinct(item: Item)
    ensures Distinct(NodePaths(item))
    decreases item, 1
  {
    match item
    case File(_, _) =>
    case Directory(_, items) =>
      ChildNodePathsDistinct(items);
      ChildNodePathsMatchNodes(items);
      var cs := ChildNodePaths(items);
      var ps := NodePaths(item);
      forall a, b | 0 <= a < b < |ps| ensures ps[a] != ps[b] {
        assert ps[b] == cs[b - 1];
        if a > 0 {
          assert ps[a] == cs[a - 1];
        }
      }
  }

  lemma {:induction false} ChildNodePathsDistinct(items: seq<Item>)
    ensures Distinct(ChildNodePaths(items))
    decreases items, 0
  {
    if items != [] {
      var n := |items| - 1;
      var front, last := items[..n], items[n];
      ChildNodePathsDistinct(front);
      ChildNodePathsMatchNodes(front);
      NodePathsDistinct(last);
      UnderDistinct(n, NodePaths(last));
      var fp, lp := ChildNodePaths(front), Under(n, NodePaths(last));
      var ps := ChildNodePaths(items);
      assert ps == fp + lp;
      forall a, b | 0 <= a < b < |ps| ensures ps[a] != ps[b] {
        if b < |fp| {
          assert ps[a] == fp[a] && ps[b] == fp[b];
        } else if a < |fp| {
          assert ps[a] == fp[a] && fp[a][0] < n;
          assert ps[b] == lp[b - |fp|] && lp[b - |fp|][0] == n;
        } else {
          assert ps[a] == lp[a - |fp|] && ps[b] == lp[b - |fp|];
        }
      }
    }
  }

  /** The nodes the query sums over are exactly the subtrees reached by the
      valid index paths, each path once: position k of `Nodes` is the node at
      path k, the paths are pairwise different, and every valid path is among
      them. */
  lemma NodesAreAllSubtreesOnce(item: Item, q: seq<nat>)
    requires ValidPath(item, q)
    ensures |NodePaths(item)| == |Nodes(item)| && Distinct(NodePaths(item))
    ensures forall k :: 0 <= k < |NodePaths(item)| ==>
      ValidPath(item, NodePaths(item)[k]) && At(item, NodePaths(item)[k]) == Nodes(item)[k]
    ensures exists k :: 0 <= k < |Nodes(item)| && NodePaths(item)[k] == q && Nodes(item)[k] == At(item, q)
  {
    NodePathsMatchNodes(item);
    NodePathsDistinct(item);
    NodePathsComplete(item, q);
  }

  /** sum_directories_part_one: measures the item, counts it when it is a small
      directory, then adds each child's answer in an accumulator loop. */
  method SumDirectoriesPartOne(item: Item) returns (total: nat)
    ensures total == SmallDirTotal(item)
    ensures total == SumCounted(Nodes(item))
    decreases item
  {
    total := 0;
    var size := GetSize(item);
    if item.Directory? {
      var items := item.items;
      if size < THRESHOLD {
        total := total + size;
      }
      for k := 0 to |items|
        invariant total == (if Size(item) < THRESHOLD then Size(item) else 0) + SmallDirTotals(items[..k])
      {
        var sub := SumDirectoriesPartOne(items[k]);
        assert items[..k + 1][..k] == items[..k];
        total := total + sub;
      }
      assert items[..|items|] == items;
    }
    SmallDirTotalIsSumOverNodes(item);
  }
}
