/** files.py: `datamerge` gathers every dataset under some HDF5 paths,
    breadth first, into one array of rows; `dataread` descends to a group,
    picks the children whose integer names lie in a range and merges them.
    The HDF5 file is an immutable tree of groups and datasets; a path is the
    list of names that the source joins with "/". */
module Files {
  import opened Wrappers

  /** One row of a dataset and of the merged array: three columns. */
  datatype Row3 = Row3(c0: int, c1: int, c2: int)

  /** An HDF5 object: a dataset holding rows, or a group whose entries are
      listed in the order `keys()` yields them. */
  datatype Node = Dataset(rows: seq<Row3>) | Group(entries: seq<Entry>)
  datatype Entry = Entry(name: string, node: Node)

  type Path = seq<string>

  // ------------------------------------------------------------ the tree

  /** The number of objects in a subtree. */
  function Size(n: Node): (s: nat)
    ensures s >= 1
    decreases n
  {
    match n
    case Dataset(_) => 1
    case Group(es) => 1 + EntriesSize(es)
  }

  function EntriesSize(es: seq<Entry>): nat
    decreases es
  {
    if es == [] then 0 else Size(es[0].node) + EntriesSize(es[1..])
  }

  /** Names within a group are distinct, in every group of the tree: the
      HDF5 library refuses a second link of the same name. */
  predicate WellFormed(n: Node)
    decreases n
  {
    match n
    case Dataset(_) => true
    case Group(es) =>
      (forall i, j :: 0 <= i < j < |es| ==> es[i].name != es[j].name)
      && (forall i :: 0 <= i < |es| ==> WellFormed(es[i].node))
  }

  /** The entry a name refers to within a group. */
  function Child(es: seq<Entry>, name: string): (c: Option<Node>)
    ensures c.Some? ==> exists i :: 0 <= i < |es| && es[i].name == name && es[i].node == c.value
  {
    if es == [] then None
    else if es[0].name == name then Some(es[0].node)
    else Child(es[1..], name)
  }

  /** `node[path]`: KeyError when a name is missing or a dataset stands
      where a group is needed. */
  function Lookup(n: Node, path: Path): Result<Node>
    decreases |path|
  {
    if path == [] then Ok(n)
    else match n
      case Dataset(_) => Err(KeyError)
      case Group(es) =>
        match Child(es, path[0])
        case None => Err(KeyError)
        case Some(c) => Lookup(c, path[1..])
  }

  /** What a path names, or an empty dataset when it names nothing. */
  function NodeAt(root: Node, path: Path): (n: Node)
    ensures Lookup(root, path).Ok? ==> n == Lookup(root, path).value
  {
    match Lookup(root, path)
    case Ok(n) => n
    case Err(_) => Dataset([])
  }

  /** The objects a list of paths name, or None when one of them is
      missing. */
  function ResolveAll(root: Node, paths: seq<Path>): (r: Option<seq<Node>>)
    ensures r.Some? <==> forall k :: 0 <= k < |paths| ==> Lookup(root, paths[k]).Ok?
    ensures r.Some? ==> |r.value| == |paths| && forall k :: 0 <= k < |paths| ==> r.value[k] == Lookup(root, paths[k]).value
  {
    if forall k :: 0 <= k < |paths| ==> Lookup(root, paths[k]).Ok?
    then Some(seq(|paths|, k requires 0 <= k < |paths| => NodeAt(root, paths[k])))
    else None
  }

  // ------------------------------------------------- breadth-first order

  /** The children of a group, in `keys()` order. */
  function Kids(es: seq<Entry>): (ns: seq<Node>)
    ensures |ns| == |es| && forall i :: 0 <= i < |es| ==> ns[i] == es[i].node
  {
    seq(|es|, i requires 0 <= i < |es| => es[i].node)
  }

  function QueueSize(queue: seq<Node>): nat
    decreases |queue|
  {
    if queue == [] then 0 else Size(queue[0]) + QueueSize(queue[1..])
  }

  lemma {:induction false} QueueSizeAppend(a: seq<Node>, b: seq<Node>)
    ensures QueueSize(a + b) == QueueSize(a) + QueueSize(b)
    decreases |a|
  {
    if a == [] {
      assert a + b == b;
    } else {
      assert (a + b)[0] == a[0] && (a + b)[1..] == a[1..] + b;
      QueueSizeAppend(a[1..], b);
    }
  }

  lemma {:induction false} KidsSize(es: seq<Entry>)
    ensures QueueSize(Kids(es)) == EntriesSize(es)
    decreases |es|
  {
    if es != [] {
      assert Kids(es)[1..] == Kids(es[1..]);
      KidsSize(es[1..]);
    }
  }

  /** The datasets reached from a worklist, in the order the source visits
      them: a dataset at the front is collected, a group at the front is
      replaced by its children at the back. */
  function Visit(queue: seq<Node>): seq<seq<Row3>>
    decreases QueueSize(queue)
  {
    if queue == [] then []
    else match queue[0]
      case Dataset(rows) => [rows] + Visit(queue[1..])
      case Group(es) =>
        QueueSizeAppend(queue[1..], Kids(es));
        KidsSize(es);
        Visit(queue[1..] + Kids(es))
  }

  /** The rows of a list of datasets, one after another. */
  function Flatten(dsets: seq<seq<Row3>>): (rows: seq<Row3>)
    decreases |dsets|
  {
    if dsets == [] then [] else dsets[0] + Flatten(dsets[1..])
  }

  /** `size`: the total number of rows of a list of datasets. */
  function TotalRows(dsets: seq<seq<Row3>>): nat
    decreases |dsets|
  {
    if dsets == [] then 0 else |dsets[0]| + TotalRows(dsets[1..])
  }

  lemma {:induction false} FlattenAppend(a: seq<seq<Row3>>, b: seq<seq<Row3>>)
    ensures Flatten(a + b) == Flatten(a) + Flatten(b)
    ensures TotalRows(a + b) == TotalRows(a) + TotalRows(b)
    decreases |a|
  {
    if a == [] {
      assert a + b == b;
    } else {
      assert (a + b)[0] == a[0] && (a + b)[1..] == a[1..] + b;
      FlattenAppend(a[1..], b);
    }
  }

  /** The merged array has exactly as many rows as the datasets together. */
  lemma {:induction false} FlattenLength(dsets: seq<seq<Row3>>)
    ensures |Flatten(dsets)| == TotalRows(dsets)
    decreases |dsets|
  {
    if dsets != [] {
      FlattenLength(dsets[1..]);
    }
  }

  /** Dataset `k` occupies the rows from the total of those before it,
      consecutively and in its own order. */
  lemma FlattenBlock(dsets: seq<seq<Row3>>, k: nat, j: nat)
    requires k < |dsets| && j < |dsets[k]|
    ensures TotalRows(dsets[..k]) + j < |Flatten(dsets)|
    ensures Flatten(dsets)[TotalRows(dsets[..k]) + j] == dsets[k][j]
  {
    assert dsets == dsets[..k] + ([dsets[k]] + dsets[k + 1..]);
    FlattenAppend(dsets[..k], [dsets[k]] + dsets[k + 1..]);
    FlattenLength(dsets[..k]);
    assert Flatten([dsets[k]] + dsets[k + 1..]) == dsets[k] + Flatten(dsets[k + 1..]) by {
      assert ([dsets[k]] + dsets[k + 1..])[1..] == dsets[k + 1..];
    }
  }

  /** The datasets of a subtree, collected depth first: an independent
      reference order against which the breadth-first visit is compared. */
  function TreeDatasets(n: Node): seq<seq<Row3>>
    decreases n
  {
    match n
    case Dataset(rows) => [rows]
    case Group(es) => EntriesDatasets(es)
  }

  function EntriesDatasets(es: seq<Entry>): seq<seq<Row3>>
    decreases es
  {
    if es == [] then [] else TreeDatasets(es[0].node) + EntriesDatasets(es[1..])
  }

  /** The datasets under every node of a worklist, depth first. */
  function QueueDatasets(queue: seq<Node>): seq<seq<Row3>>
    decreases |queue|
  {
    if queue == [] then [] else TreeDatasets(queue[0]) + QueueDatasets(queue[1..])
  }

  lemma {:induction false} QueueDatasetsAppend(a: seq<Node>, b: seq<Node>)
    ensures QueueDatasets(a + b) == QueueDatasets(a) + QueueDatasets(b)
    decreases |a|
  {
    if a == [] {
      assert a + b == b;
    } else {
      assert (a + b)[0] == a[0] && (a + b)[1..] == a[1..] + b;
      QueueDatasetsAppend(a[1..], b);
    }
  }

  lemma {:induction false} KidsDatasets(es: seq<Entry>)
    ensures QueueDatasets(Kids(es)) == EntriesDatasets(es)
    decreases |es|
  {
    if es != [] {
      assert Kids(es)[1..] == Kids(es[1..]);
      KidsDatasets(es[1..]);
    }
  }

  /** No dataset and no row is lost or repeated: the visit collects exactly
      the datasets under the worklist, each as often as it occurs there, and
      its rows are exactly theirs; only the order differs from a depth-first
      collection. */
  lemma {:induction false} VisitDatasets(queue: seq<Node>)
    ensures multiset(Visit(queue)) == multiset(QueueDatasets(queue))
    ensures multiset(Flatten(Visit(queue))) == multiset(Flatten(QueueDatasets(queue)))
    decreases QueueSize(queue)
  {
    if queue != [] {
      var rest := queue[1..];
      match queue[0] {
        case Dataset(rows) =>
          VisitDatasets(rest);
          assert ([rows] + Visit(rest))[1..] == Visit(rest);
          assert ([rows] + QueueDatasets(rest))[1..] == QueueDatasets(rest);
        case Group(es) =>
          QueueSizeAppend(rest, Kids(es));
          KidsSize(es);
          VisitDatasets(rest + Kids(es));
          QueueDatasetsAppend(rest, Kids(es));
          KidsDatasets(es);
          FlattenAppend(QueueDatasets(rest), EntriesDatasets(es));
          FlattenAppend(EntriesDatasets(es), QueueDatasets(rest));
      }
    }
  }

  /** The rows of the datasets standing in a worklist, in order. */
  function Tops(queue: seq<Node>): seq<seq<Row3>>
    decreases |queue|
  {
    if queue == [] then []
    else match queue[0]
      case Dataset(rows) => [rows] + Tops(queue[1..])
      case Group(_) => Tops(queue[1..])
  }

  /** The children of the groups standing in a worklist, in order. */
  function NextLevel(queue: seq<Node>): seq<Node>
    decreases |queue|
  {
    if queue == [] then []
    else match queue[0]
      case Dataset(_) => NextLevel(queue[1..])
      case Group(es) => Kids(es) + NextLevel(queue[1..])
  }

  /** Breadth first: whatever waits behind them, the datasets of a worklist
      come first and the children of its groups are visited after the rest. */
  lemma {:induction false} VisitLevel(queue: seq<Node>, behind: seq<Node>)
    ensures Visit(queue + behind) == Tops(queue) + Visit(behind + NextLevel(queue))
    decreases |queue|
  {
    if queue == [] {
      assert queue + behind == behind && behind + [] == behind;
    } else {
      var rest := queue[1..];
      assert (queue + behind)[0] == queue[0] && (queue + behind)[1..] == rest + behind;
      match queue[0]
      case Dataset(rows) =>
        VisitLevel(rest, behind);
        assert [rows] + (Tops(rest) + Visit(behind + NextLevel(rest)))
               == ([rows] + Tops(rest)) + Visit(behind + NextLevel(rest));
      case Group(es) =>
        assert (rest + behind) + Kids(es) == rest + (behind + Kids(es));
        VisitLevel(rest, behind + Kids(es));
        assert (behind + Kids(es)) + NextLevel(rest) == behind + (Kids(es) + NextLevel(rest));
    }
  }

  /** The whole visit, level by level. */
  lemma VisitByLevels(queue: seq<Node>)
    ensures Visit(queue) == Tops(queue) + Visit(NextLevel(queue))
  {
    VisitLevel(queue, []);
    assert queue + [] == queue && [] + NextLevel(queue) == NextLevel(queue);
  }

  // ------------------------------------------------------------ datamerge

  /** The paths `items[i] + "/" + key` for the keys of a group. */
  function ChildPaths(p: Path, es: seq<Entry>): (ps: seq<Path>)
    ensures |ps| == |es| && forall k :: 0 <= k < |es| ==> ps[k] == p + [es[k].name]
  {
    seq(|es|, k requires 0 <= k < |es| => p + [es[k].name])
  }

  /** Looking up one name more goes one group deeper. */
  lemma {:induction false} LookupAppend(n: Node, p: Path, name: string)
    ensures Lookup(n, p + [name])
            == match Lookup(n, p)
               case Err(e) => Err(e)
               case Ok(m) => Lookup(m, [name])
    decreases |p|
  {
    if p != [] {
      assert (p + [name])[0] == p[0] && (p + [name])[1..] == p[1..] + [name];
      match n
      case Dataset(_) =>
      case Group(es) =>
        match Child(es, p[0])
        case None =>
        case Some(c) => LookupAppend(c, p[1..], name);
    }
  }

  /** What a path names in a well-formed tree is well formed. */
  lemma {:induction false} LookupWellFormed(n: Node, p: Path)
    requires WellFormed(n) && Lookup(n, p).Ok?
    ensures WellFormed(Lookup(n, p).value)
    decreases |p|
  {
    if p != [] {
      var es := n.entries;
      var c := Child(es, p[0]).value;
      var i :| 0 <= i < |es| && es[i].name == p[0] && es[i].node == c;
      LookupWellFormed(c, p[1..]);
    }
  }

  /** In a group with distinct names, each name finds its own entry. */
  lemma {:induction false} ChildOfName(es: seq<Entry>, k: nat)
    requires k < |es| && forall i, j :: 0 <= i < j < |es| ==> es[i].name != es[j].name
    ensures Child(es, es[k].name) == Some(es[k].node)
    decreases |es|
  {
    if k > 0 {
      assert es[0].name != es[k].name;
      assert es[1..][k - 1] == es[k];
      ChildOfName(es[1..], k - 1);
    }
  }

  /** The paths the source appends for a group name exactly its children. */
  lemma ChildPathsResolve(root: Node, p: Path, es: seq<Entry>)
    requires WellFormed(root) && Lookup(root, p) == Ok(Group(es))
    ensures ResolveAll(root, ChildPaths(p, es)) == Some(Kids(es))
  {
    LookupWellFormed(root, p);
    var ps := ChildPaths(p, es);
    forall k | 0 <= k < |es|
      ensures Lookup(root, ps[k]) == Ok(es[k].node)
    {
      LookupAppend(root, p, es[k].name);
      ChildOfName(es, k);
      assert [es[k].name][1..] == [];
    }
    var r := ResolveAll(root, ps);
    assert r.Some? && |r.value| == |Kids(es)|;
    assert r.value == Kids(es);
  }

  /** The nodes of a worklist split as the worklist does. */
  lemma ResolveAllAppend(root: Node, a: seq<Path>, b: seq<Path>)
    requires ResolveAll(root, a).Some? && ResolveAll(root, b).Some?
    ensures ResolveAll(root, a + b) == Some(ResolveAll(root, a).value + ResolveAll(root, b).value)
  {
    var want := ResolveAll(root, a).value + ResolveAll(root, b).value;
    forall k | 0 <= k < |a + b|
      ensures Lookup(root, (a + b)[k]).Ok? && want[k] == Lookup(root, (a + b)[k]).value
    {
      if k >= |a| {
        assert (a + b)[k] == b[k - |a|];
      } else {
        assert (a + b)[k] == a[k];
      }
    }
    assert ResolveAll(root, a + b).value == want;
  }

  /** What is left of the worklist, measured by the size of the subtrees
      its paths name (a path that names nothing counts one). */
  function PendingSize(root: Node, paths: seq<Path>): nat
    decreases |paths|
  {
    if paths == [] then 0
    else (match Lookup(root, paths[0]) case Ok(n) => Size(n) case Err(_) => 1) + PendingSize(root, paths[1..])
  }

  lemma {:induction false} PendingSizeResolved(root: Node, paths: seq<Path>)
    requires ResolveAll(root, paths).Some?
    ensures PendingSize(root, paths) == QueueSize(ResolveAll(root, paths).value)
    decreases |paths|
  {
    if paths != [] {
      assert ResolveAll(root, paths[1..]).value == ResolveAll(root, paths).value[1..];
      PendingSizeResolved(root, paths[1..]);
    }
  }

  lemma {:induction false} PendingSizeAppend(root: Node, a: seq<Path>, b: seq<Path>)
    ensures PendingSize(root, a + b) == PendingSize(root, a) + PendingSize(root, b)
    decreases |a|
  {
    if a == [] {
      assert a + b == b;
    } else {
      assert (a + b)[0] == a[0] && (a + b)[1..] == a[1..] + b;
      PendingSizeAppend(root, a[1..], b);
    }
  }

  /** One step of the worklist: a group's paths replace it at the back, and
      the measure goes down. */
  lemma GroupStep(root: Node, items: seq<Path>, i: nat, es: seq<Entry>)
    requires WellFormed(root) && i < |items| && Lookup(root, items[i]) == Ok(Group(es))
    ensures var later := items[i + 1..] + ChildPaths(items[i], es);
            && PendingSize(root, later) < PendingSize(root, items[i..])
            && (ResolveAll(root, items[i..]).Some? ==>
                  && ResolveAll(root, later).Some?
                  && Visit(ResolveAll(root, later).value) == Visit(ResolveAll(root, items[i..]).value))
  {
    var rest, kids := items[i + 1..], ChildPaths(items[i], es);
    ChildPathsResolve(root, items[i], es);
    PendingSizeAppend(root, rest, kids);
    PendingSizeResolved(root, kids);
    KidsSize(es);
    assert items[i..][1..] == rest;
    if ResolveAll(root, items[i..]).Some? {
      assert ResolveAll(root, rest).Some?;
      ResolveAllAppend(root, rest, kids);
      var queue := ResolveAll(root, items[i..]).value;
      assert queue[0] == Group(es) && queue[1..] == ResolveAll(root, rest).value;
    }
  }

  /** One step of the worklist over a dataset. */
  lemma DatasetStep(root: Node, items: seq<Path>, i: nat, rows: seq<Row3>)
    requires i < |items| && Lookup(root, items[i]) == Ok(Dataset(rows))
    ensures PendingSize(root, items[i + 1..]) < PendingSize(root, items[i..])
    ensures ResolveAll(root, items[i..]).Some? ==>
              && ResolveAll(root, items[i + 1..]).Some?
              && Visit(ResolveAll(root, items[i..]).value) == [rows] + Visit(ResolveAll(root, items[i + 1..]).value)
  {
    assert items[i..][1..] == items[i + 1..];
    if ResolveAll(root, items[i..]).Some? {
      assert ResolveAll(root, items[i + 1..]).value == ResolveAll(root, items[i..]).value[1..];
    }
  }

  /** The inner loop of `datamerge`: one path per key of the group, in
      order, at the back of the worklist. */
  method AppendChildPaths(items: seq<Path>, p: Path, es: seq<Entry>) returns (grown: seq<Path>)
    ensures grown == items + ChildPaths(p, es)
  {
    grown := items;
    for j := 0 to |es|
      invariant grown == items + ChildPaths(p, es)[..j]
    {
      grown := grown + [p + [es[j].name]];
      assert ChildPaths(p, es)[..j + 1] == ChildPaths(p, es)[..j] + [p + [es[j].name]];
    }
    assert ChildPaths(p, es)[..|es|] == ChildPaths(p, es);
  }

  /** The state of the `while` loop of `datamerge` after `i` items: the
      given paths still head the worklist, every path looked at and every
      path appended names something, and the datasets collected followed by
      those reached from the rest of the worklist are those reached from the
      given paths. */
  ghost predicate Collecting(h5g: Node, items0: seq<Path>, items: seq<Path>, i: nat, dsets: seq<seq<Row3>>)
  {
    && |items0| <= |items| && i <= |items| && items[..|items0|] == items0
    && (forall k :: 0 <= k < i ==> Lookup(h5g, items[k]).Ok?)
    && (forall k :: |items0| <= k < |items| ==> Lookup(h5g, items[k]).Ok?)
    && (ResolveAll(h5g, items0).Some? ==>
          && ResolveAll(h5g, items[i..]).Some?
          && dsets + Visit(ResolveAll(h5g, items[i..]).value) == Visit(ResolveAll(h5g, items0).value))
  }

  lemma CollectingStarts(h5g: Node, items0: seq<Path>)
    ensures Collecting(h5g, items0, items0, 0, [])
  {
    assert items0[0..] == items0 && items0[..|items0|] == items0;
  }

  /** Collecting a dataset keeps the loop state and shrinks the worklist. */
  lemma CollectingDataset(h5g: Node, items0: seq<Path>, items: seq<Path>, i: nat, dsets: seq<seq<Row3>>, rows: seq<Row3>)
    requires Collecting(h5g, items0, items, i, dsets)
    requires i < |items| && Lookup(h5g, items[i]) == Ok(Dataset(rows))
    ensures Collecting(h5g, items0, items, i + 1, dsets + [rows])
    ensures PendingSize(h5g, items[i + 1..]) < PendingSize(h5g, items[i..])
    ensures TotalRows(dsets + [rows]) == TotalRows(dsets) + |rows|
  {
    FlattenAppend(dsets, [rows]);
    assert TotalRows([rows]) == |rows|;
    DatasetStep(h5g, items, i, rows);
    if ResolveAll(h5g, items0).Some? {
      var later := Visit(ResolveAll(h5g, items[i + 1..]).value);
      assert (dsets + [rows]) + later == dsets + ([rows] + later);
    }
  }

  /** Expanding a group keeps the loop state and shrinks the worklist. */
  lemma CollectingGroup(h5g: Node, items0: seq<Path>, items: seq<Path>, i: nat, dsets: seq<seq<Row3>>, es: seq<Entry>)
    requires WellFormed(h5g) && Collecting(h5g, items0, items, i, dsets)
    requires i < |items| && Lookup(h5g, items[i]) == Ok(Group(es))
    ensures var grown := items + ChildPaths(items[i], es);
            && Collecting(h5g, items0, grown, i + 1, dsets)
            && PendingSize(h5g, grown[i + 1..]) < PendingSize(h5g, items[i..])
  {
    GroupStep(h5g, items, i, es);
    ChildPathsResolve(h5g, items[i], es);
    var kids := ChildPaths(items[i], es);
    var grown := items + kids;
    assert grown[i + 1..] == items[i + 1..] + kids;
    assert grown[..|items0|] == items[..|items0|];
    forall k | 0 <= k < i + 1 ensures Lookup(h5g, grown[k]).Ok? {
      assert grown[k] == items[k];
    }
    forall k | |items0| <= k < |grown| ensures Lookup(h5g, grown[k]).Ok? {
      if k >= |items| {
        assert grown[k] == kids[k - |items|];
      } else {
        assert grown[k] == items[k];
      }
    }
  }

  /** A path that names nothing is one of the given ones. */
  lemma CollectingMissing(h5g: Node, items0: seq<Path>, items: seq<Path>, i: nat, dsets: seq<seq<Row3>>)
    requires Collecting(h5g, items0, items, i, dsets)
    requires i < |items| && Lookup(h5g, items[i]).Err?
    ensures ResolveAll(h5g, items0).None?
  {
    assert i < |items0| && items0[i] == items[i];
  }

  /** With the worklist exhausted, the datasets collected are all of them. */
  lemma CollectingDone(h5g: Node, items0: seq<Path>, items: seq<Path>, dsets: seq<seq<Row3>>)
    requires Collecting(h5g, items0, items, |items|, dsets)
    ensures ResolveAll(h5g, items0).Some?
    ensures dsets == Visit(ResolveAll(h5g, items0).value)
  {
    forall k | 0 <= k < |items0| ensures Lookup(h5g, items0[k]).Ok? {
      assert items[k] == items0[k];
    }
    assert items[|items|..] == [] && dsets + [] == dsets;
  }

  /** The `while` loop of `datamerge`: KeyError when one of the given paths
      names nothing; otherwise the datasets under them, breadth first, and
      their total number of rows. */
  method CollectDatasets(h5g: Node, items0: seq<Path>) returns (r: Result<seq<seq<Row3>>>, size: nat)
    requires WellFormed(h5g)
    ensures ResolveAll(h5g, items0).None? ==> r == Err(KeyError)
    ensures ResolveAll(h5g, items0).Some? ==> r == Ok(Visit(ResolveAll(h5g, items0).value)) && size == TotalRows(r.value)
  {
    var items := items0;
    var i := 0;
    var dsets: seq<seq<Row3>> := [];
    size := 0;
    CollectingStarts(h5g, items0);
    while i < |items|
      invariant Collecting(h5g, items0, items, i, dsets)
      invariant size == TotalRows(dsets)
      decreases PendingSize(h5g, items[i..])
    {
      match Lookup(h5g, items[i]) {
        case Err(_) =>
          CollectingMissing(h5g, items0, items, i, dsets);
          return Err(KeyError), size;
        case Ok(Dataset(rows)) =>
          CollectingDataset(h5g, items0, items, i, dsets, rows);
          dsets := dsets + [rows];
          size := size + |rows|;
        case Ok(Group(es)) =>
          CollectingGroup(h5g, items0, items, i, dsets, es);
          items := AppendChildPaths(items, items[i], es);
      }
      i := i + 1;
    }
    CollectingDone(h5g, items0, items, dsets);
    r := Ok(dsets);
  }

  /** One more dataset of the list: its rows follow those before it. */
  lemma FlattenStep(dsets: seq<seq<Row3>>, k: nat)
    requires k < |dsets|
    ensures Flatten(dsets[..k + 1]) == Flatten(dsets[..k]) + dsets[k]
    ensures TotalRows(dsets[..k + 1]) == TotalRows(dsets[..k]) + |dsets[k]| <= TotalRows(dsets)
  {
    assert dsets[..k + 1] == dsets[..k] + [dsets[k]];
    FlattenAppend(dsets[..k], [dsets[k]]);
    assert dsets == dsets[..k + 1] + dsets[k + 1..];
    FlattenAppend(dsets[..k + 1], dsets[k + 1..]);
    assert Flatten([dsets[k]]) == dsets[k] by {
      assert [dsets[k]][1..] == [];
    }
  }

  /** The copy of `datamerge`: an array of `size` zero rows, each dataset
      written over the next block of it. */
  method CopyBlocks(dsets: seq<seq<Row3>>, size: nat) returns (rows: seq<Row3>)
    requires size == TotalRows(dsets)
    ensures rows == Flatten(dsets)
  {
    var dta := new Row3[size](_ => Row3(0, 0, 0));
    var start := 0;
    for k := 0 to |dsets|
      invariant start == TotalRows(dsets[..k]) <= size
      invariant dta[..start] == Flatten(dsets[..k])
    {
      var dset := dsets[k];
      var l := |dset|;
      FlattenStep(dsets, k);
      ghost var done := dta[..start];
      forall j | 0 <= j < l {
        dta[start + j] := dset[j];
      }
      assert dta[..start + l] == done + dset;
      start := start + l;
    }
    assert dsets[..|dsets|] == dsets;
    rows := dta[..];
  }

  /** `datamerge(h5g, *items)`: KeyError when one of the given paths names
      nothing; otherwise the rows of every dataset under them, in
      breadth-first order, one dataset after another. */
  method DataMerge(h5g: Node, items0: seq<Path>) returns (r: Result<seq<Row3>>)
    requires WellFormed(h5g)
    ensures ResolveAll(h5g, items0).None? ==> r == Err(KeyError)
    ensures ResolveAll(h5g, items0).Some? ==> r == Ok(Flatten(Visit(ResolveAll(h5g, items0).value)))
  {
    var collected, size := CollectDatasets(h5g, items0);
    if collected.Err? {
      return Err(collected.error);
    }
    var rows := CopyBlocks(collected.value, size);
    r := Ok(rows);
  }

  // ------------------------------------------------------------- dataread

  /** An argument of `dataread`: a path to descend, or a list of limits. */
  datatype Arg = Name(path: Path) | Limits(bounds: seq<int>)

  predicate IsDigit(c: char) {
    '0' <= c <= '9'
  }

  /** The value of a string of decimal digits, read left to right. */
  function DigitsValue(s: string): nat
    requires forall i :: 0 <= i < |s| ==> IsDigit(s[i])
    decreases |s|
  {
    if s == [] then 0
    else DigitsValue(s[..|s| - 1]) * 10 + DigitOf(s[|s| - 1])
  }

  function DigitOf(c: char): (d: nat)
    requires IsDigit(c)
    ensures d < 10
  {
    c as int - '0' as int
  }

  predicate AllDigits(s: string) {
    |s| > 0 && forall i :: 0 <= i < |s| ==> IsDigit(s[i])
  }

  /** `int(k)`: an optional sign and decimal digits, or None where Python
      raises ValueError. */
  function ParseInt(s: string): Option<int> {
    if |s| > 0 && s[0] == '-' && AllDigits(s[1..]) then Some(0 - DigitsValue(s[1..]) as int)
    else if |s| > 0 && s[0] == '+' && AllDigits(s[1..]) then Some(DigitsValue(s[1..]))
    else if AllDigits(s) then Some(DigitsValue(s))
    else None
  }

  /** The decimal name of a natural number, as groups numbered in order are
      named. */
  function Decimal(n: nat): (s: string)
    ensures AllDigits(s)
    decreases n
  {
    var last := ('0' as int + n % 10) as char;
    if n < 10 then [last] else Decimal(n / 10) + [last]
  }

  /** Reading a number's decimal name gives the number back. */
  lemma {:induction false} DecimalRoundTrip(n: nat)
    ensures ParseInt(Decimal(n)) == Some(n)
    ensures DigitsValue(Decimal(n)) == n
    decreases n
  {
    var s := Decimal(n);
    assert IsDigit(s[0]);
    assert DigitOf(s[|s| - 1]) == n % 10;
    assert s[0] != '-' && s[0] != '+' && AllDigits(s);
    if n >= 10 {
      DecimalRoundTrip(n / 10);
      assert s[..|s| - 1] == Decimal(n / 10);
    } else {
      assert s[..|s| - 1] == [];
      assert DigitsValue(s) == n;
      assert ParseInt(s) == Some(DigitsValue(s));
    }
  }

  /** The result of the scan from some point on, behind the keys already
      selected. */
  function Behind(gr: seq<string>, r: Result<seq<string>>): Result<seq<string>> {
    match r
    case Err(e) => Err(e)
    case Ok(rest) => Ok(gr + rest)
  }

  /** The scan of `dataread` over the keys in `keys()` order: ValueError at
      the first name that is not an integer, IndexError when the limits are
      too short to compare with, a stop at the first key above `lim[1]`, and
      every key from `lim[0]` on selected before that. */
  function SelectKeys(keys: seq<string>, lim: seq<int>): Result<seq<string>>
    decreases |keys|
  {
    if keys == [] then Ok([])
    else match ParseInt(keys[0])
      case None => Err(ValueError)
      case Some(v) =>
        if |lim| < 2 then Err(IndexError)
        else if v > lim[1] then Ok([])
        else Behind(if v >= lim[0] then [keys[0]] else [], SelectKeys(keys[1..], lim))
  }

  /** The `for k in g.keys()` loop of `dataread`, with its early `break`. */
  method ScanKeys(keys: seq<string>, lim: seq<int>) returns (r: Result<seq<string>>)
    ensures r == SelectKeys(keys, lim)
  {
    var gr: seq<string> := [];
    var n := 0;
    assert keys[0..] == keys;
    match SelectKeys(keys, lim) {
      case Err(_) =>
      case Ok(all) => assert [] + all == all;
    }
    while n < |keys|
      invariant n <= |keys|
      invariant SelectKeys(keys, lim) == Behind(gr, SelectKeys(keys[n..], lim))
    {
      assert keys[n..][0] == keys[n] && keys[n..][1..] == keys[n + 1..];
      var k := ParseInt(keys[n]);
      if k.None? {
        return Err(ValueError);
      }
      if |lim| < 2 {
        return Err(IndexError);
      }
      if k.value > lim[1] {
        assert gr + [] == gr;
        return Ok(gr);
      }
      if k.value >= lim[0] {
        match SelectKeys(keys[n + 1..], lim) {
          case Err(_) =>
          case Ok(rest) => assert gr + ([keys[n]] + rest) == (gr + [keys[n]]) + rest;
        }
        gr := gr + [keys[n]];
      } else {
        match SelectKeys(keys[n + 1..], lim) {
          case Err(_) =>
          case Ok(rest) => assert [] + rest == rest;
        }
      }
      n := n + 1;
    }
    assert keys[n..] == [] && gr + [] == gr;
    r := Ok(gr);
  }

  /** Every key selected is an integer within the limits, and one of the
      keys. */
  lemma {:induction false} SelectedInRange(keys: seq<string>, lim: seq<int>)
    requires SelectKeys(keys, lim).Ok?
    ensures forall k :: k in SelectKeys(keys, lim).value ==>
              && k in keys
              && ParseInt(k).Some? && |lim| >= 2
              && lim[0] <= ParseInt(k).value <= lim[1]
    decreases |keys|
  {
    if keys != [] {
      var v := ParseInt(keys[0]).value;
      if v <= lim[1] {
        SelectedInRange(keys[1..], lim);
      }
    }
  }

  /** The scan stops at the first key above `lim[1]`: what follows it, even
      a name that is no integer, is never read. */
  lemma {:induction false} StopsAtFirstAbove(keys: seq<string>, lim: seq<int>, j: nat)
    requires |lim| >= 2 && j < |keys|
    requires forall i :: 0 <= i < j ==> ParseInt(keys[i]).Some?
    requires ParseInt(keys[j]).Some? && ParseInt(keys[j]).value > lim[1]
    ensures SelectKeys(keys, lim) == SelectKeys(keys[..j], lim)
    decreases j
  {
    if j > 0 {
      assert keys[..j][0] == keys[0] && keys[..j][1..] == keys[1..][..j - 1];
      StopsAtFirstAbove(keys[1..], lim, j - 1);
    }
  }

  /** When no key lies above `lim[1]` and every name is an integer, the
      scan selects exactly the keys from `lim[0]` on. */
  lemma {:induction false} SelectsAllInRange(keys: seq<string>, lim: seq<int>)
    requires |lim| >= 2
    requires forall i :: 0 <= i < |keys| ==> ParseInt(keys[i]).Some? && ParseInt(keys[i]).value <= lim[1]
    ensures SelectKeys(keys, lim).Ok?
    ensures forall k :: k in SelectKeys(keys, lim).value <==> k in keys && lim[0] <= ParseInt(k).value
    decreases |keys|
  {
    if keys != [] {
      assert forall i :: 0 <= i < |keys[1..]| ==> keys[1..][i] == keys[i + 1];
      SelectsAllInRange(keys[1..], lim);
      assert keys == [keys[0]] + keys[1..];
    }
  }

  /** Group names `keys()` yields in name order need not be in numeric
      order: with groups "1", "10" and "2" and limits [0, 5], the scan stops
      at "10" and never selects "2". */
  lemma NameOrderSkips()
    ensures SelectKeys(["1", "10", "2"], [0, 5]) == Ok(["1"])
  {
    var keys: seq<string> := ["1", "10", "2"];
    DecimalRoundTrip(1);
    DecimalRoundTrip(10);
    assert Decimal(1) == "1" && Decimal(10) == "10";
    assert keys[1..] == ["10", "2"] && keys[1..][0] == "10";
    assert SelectKeys(keys[1..], [0, 5]) == Ok([]);
    assert ["1"] + [] == ["1"];
  }

  /** `g[args[arg]]` for each argument in turn: a list where a name is
      expected is a TypeError. */
  function Descend(g: Node, args: seq<Arg>): Result<Node>
    decreases |args|
  {
    if args == [] then Ok(g)
    else match args[0]
      case Limits(_) => Err(TypeError)
      case Name(p) =>
        match Lookup(g, p)
        case Err(e) => Err(e)
        case Ok(c) => Descend(c, args[1..])
  }

  /** The `for arg in range(0, len(args)-1)` loop of `dataread`. */
  method DescendAll(f: Node, args: seq<Arg>) returns (r: Result<Node>)
    requires WellFormed(f)
    ensures r == Descend(f, args)
    ensures r.Ok? ==> WellFormed(r.value)
  {
    var g := f;
    assert args[0..] == args;
    for arg := 0 to |args|
      invariant Descend(f, args) == Descend(g, args[arg..])
      invariant WellFormed(g)
    {
      assert args[arg..][0] == args[arg] && args[arg..][1..] == args[arg + 1..];
      match args[arg] {
        case Limits(_) =>
          return Err(TypeError);
        case Name(p) =>
          var next := Lookup(g, p);
          if next.Err? {
            return Err(next.error);
          }
          LookupWellFormed(g, p);
          g := next.value;
      }
    }
    assert args[|args|..] == [];
    r := Ok(g);
  }

  /** The arguments with the default limits [0, 9999] appended when the last
      one is not a list. */
  function WithLimits(args: seq<Arg>): (full: seq<Arg>)
    requires args != []
    ensures |full| > 0 && full[|full| - 1].Limits?
    ensures full[..|full| - 1] == if args[|args| - 1].Limits? then args[..|args| - 1] else args
  {
    if args[|args| - 1].Limits? then args else args + [Limits([0, 9999])]
  }

  function Names(es: seq<Entry>): (ns: seq<string>)
    ensures |ns| == |es| && forall i :: 0 <= i < |es| ==> ns[i] == es[i].name
  {
    seq(|es|, i requires 0 <= i < |es| => es[i].name)
  }

  /** The selected keys as the single-name paths `datamerge` receives. */
  function Singles(keys: seq<string>): (ps: seq<Path>)
    ensures |ps| == |keys| && forall i :: 0 <= i < |keys| ==> ps[i] == [keys[i]]
  {
    seq(|keys|, i requires 0 <= i < |keys| => [keys[i]])
  }

  /** What `dataread(f, *args)` returns. */
  function ReadResult(f: Node, args: seq<Arg>): Result<seq<Row3>> {
    if args == [] then Err(IndexError)
    else
      var full := WithLimits(args);
      match Descend(f, full[..|full| - 1])
      case Err(e) => Err(e)
      case Ok(g) =>
        match g
        case Dataset(_) => Err(AttributeError)
        case Group(es) =>
          match SelectKeys(Names(es), full[|full| - 1].bounds)
          case Err(e) => Err(e)
          case Ok(sel) =>
            match ResolveAll(g, Singles(sel))
            case None => Err(KeyError)
            case Some(ns) => Ok(Flatten(Visit(ns)))
  }

  /** `dataread(f, *args)`. */
  method DataRead(f: Node, args: seq<Arg>) returns (r: Result<seq<Row3>>)
    requires WellFormed(f)
    ensures r == ReadResult(f, args)
  {
    if args == [] {
      return Err(IndexError);
    }
    var full := args;
    if !full[|full| - 1].Limits? {
      full := full + [Limits([0, 9999])];
    }
    var m := |full| - 1;
    var reached := DescendAll(f, full[..m]);
    if reached.Err? {
      return Err(reached.error);
    }
    var g := reached.value;
    var lim := full[m].bounds;
    if g.Dataset? {
      return Err(AttributeError);
    }
    var gr := ScanKeys(Names(g.entries), lim);
    if gr.Err? {
      return Err(gr.error);
    }
    r := DataMerge(g, Singles(gr.value));
  }

  /** Leaving the limits out reads the range [0, 9999]. */
  lemma DefaultLimits(f: Node, args: seq<Arg>)
    requires args != [] && !args[|args| - 1].Limits?
    ensures ReadResult(f, args) == ReadResult(f, args + [Limits([0, 9999])])
  {
    var full := args + [Limits([0, 9999])];
    assert WithLimits(full) == full;
  }

  /** Every name of a group finds a child. */
  lemma {:induction false} ChildOfAnyName(es: seq<Entry>, name: string)
    requires name in Names(es)
    ensures Child(es, name).Some?
    decreases |es|
  {
    if es[0].name != name {
      assert Names(es[1..]) == Names(es)[1..];
      ChildOfAnyName(es[1..], name);
    }
  }

  /** The keys `dataread` selects always name children of the group, so the
      merge of them never raises KeyError, and its rows are exactly those of
      the datasets under the selected children, each as often as it occurs. */
  lemma ReadMerges(f: Node, args: seq<Arg>)
    requires args != []
    requires var full := WithLimits(args);
             && Descend(f, full[..|full| - 1]).Ok?
             && Descend(f, full[..|full| - 1]).value.Group?
             && SelectKeys(Names(Descend(f, full[..|full| - 1]).value.entries), full[|full| - 1].bounds).Ok?
    ensures var full := WithLimits(args);
            var g := Descend(f, full[..|full| - 1]).value;
            var sel := SelectKeys(Names(g.entries), full[|full| - 1].bounds).value;
            && ResolveAll(g, Singles(sel)).Some?
            && ReadResult(f, args) == Ok(Flatten(Visit(ResolveAll(g, Singles(sel)).value)))
            && multiset(Visit(ResolveAll(g, Singles(sel)).value)) == multiset(QueueDatasets(ResolveAll(g, Singles(sel)).value))
            && multiset(ReadResult(f, args).value) == multiset(Flatten(QueueDatasets(ResolveAll(g, Singles(sel)).value)))
  {
    var full := WithLimits(args);
    var g := Descend(f, full[..|full| - 1]).value;
    var lim := full[|full| - 1].bounds;
    var sel := SelectKeys(Names(g.entries), lim).value;
    SelectedInRange(Names(g.entries), lim);
    forall k | 0 <= k < |sel| ensures Lookup(g, Singles(sel)[k]).Ok? {
      assert sel[k] in sel;
      ChildOfAnyName(g.entries, sel[k]);
      assert Singles(sel)[k][1..] == [];
    }
    VisitDatasets(ResolveAll(g, Singles(sel)).value);
  }
}
