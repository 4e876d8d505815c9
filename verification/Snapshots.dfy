/**
 * Snapshot generations of the base tree, and the implied directories that make each of them
 * closed under parents.
 */
module Snapshots {
  import opened Paths
  import opened Model

  datatype Listed = Listed(path: Path, node: BaseNode)

  function PathsOf(nodes: seq<Listed>): set<Path> {
    set i | 0 <= i < |nodes| :: nodes[i].path
  }

  /** The paths still to be looked at. */
  function PathsFrom(nodes: seq<Listed>, i: nat): set<Path> {
    set j | i <= j < |nodes| :: nodes[j].path
  }

  predicate DistinctPaths(nodes: seq<Listed>) {
    forall i, j :: 0 <= i < j < |nodes| ==> nodes[i].path != nodes[j].path
  }

  const IMPLIED_DIR := BaseNode(DirType, 493, NoOid)

  /** filepath.Dir, which stays at the root. */
  function DirOf(p: Path): Path {
    if p == ROOT then ROOT else Parent(p)
  }

  /** `seen` is closed under parents, but for the explicit paths still to be looked at. */
  ghost predicate ClosedBut(seen: set<Path>, todo: set<Path>) {
    ROOT in seen && forall p :: p in seen && p !in todo ==> DirOf(p) in seen
  }

  /** The listing with the implied directories gathered so far behind it. */
  ghost predicate Extends(nodes: seq<Listed>, out: seq<Listed>, seen: set<Path>) {
    && nodes <= out && seen == PathsOf(out) + {ROOT}
    && (forall k :: |nodes| <= k < |out| ==>
       out[k].node == IMPLIED_DIR && out[k].path != ROOT && AboveSome(nodes, out[k].path))
    && (DistinctPaths(nodes) ==> DistinctPaths(out))
  }

  ghost predicate AboveSome(nodes: seq<Listed>, p: Path) {
    exists i :: 0 <= i < |nodes| && StrictlyUnder(nodes[i].path, p)
  }

  /** addImplicitDirs */
  method AddImplicitDirs(nodes: seq<Listed>) returns (out: seq<Listed>)
    ensures nodes <= out
    ensures forall k :: |nodes| <= k < |out| ==>
        out[k].node == IMPLIED_DIR && out[k].path != ROOT && AboveSome(nodes, out[k].path)
    ensures DistinctPaths(nodes) ==> DistinctPaths(out)
    ensures forall p :: p in PathsOf(out) && p != ROOT && Parent(p) != ROOT ==> Parent(p) in PathsOf(out)
  {
    var seen := {ROOT} + set i | 0 <= i < |nodes| :: nodes[i].path;
    out := nodes;
    for i := 0 to |nodes|
      invariant Extends(nodes, out, seen)
      invariant ClosedBut(seen, PathsFrom(nodes, i))
    {
      var d := DirOf(nodes[i].path);
      ghost var todo := PathsFrom(nodes, i);
      ghost var below := nodes[i].path;
      while d != ROOT && d !in seen
        invariant Extends(nodes, out, seen)
        invariant below in seen && d == DirOf(below) && (below == nodes[i].path || StrictlyUnder(nodes[i].path, below))
        invariant below == nodes[i].path || DirOf(nodes[i].path) in seen
        invariant ClosedBut(seen, todo + {below})
        decreases |d|
      {
        assert StrictlyUnder(nodes[i].path, d) by { if below != nodes[i].path { assert nodes[i].path[..|d|] == d; } }
        ghost var before := out;
        out := out + [Listed(d, IMPLIED_DIR)];
        AppendExtends(nodes, before, seen, d);
        seen, below := seen + {d}, d;
        d := DirOf(d);
      }
      ClosedAfter(seen, todo, below, nodes, i);
    }
    ghost var todo := PathsFrom(nodes, |nodes|);
    assert todo == {};
    forall p | p in PathsOf(out) && p != ROOT && Parent(p) != ROOT ensures Parent(p) in PathsOf(out) {
      assert p in seen && p !in todo && DirOf(p) == Parent(p);
    }
  }

  lemma AppendExtends(nodes: seq<Listed>, out: seq<Listed>, seen: set<Path>, d: Path)
    requires Extends(nodes, out, seen) && d !in seen && d != ROOT && AboveSome(nodes, d)
    ensures Extends(nodes, out + [Listed(d, IMPLIED_DIR)], seen + {d})
  {
    var out' := out + [Listed(d, IMPLIED_DIR)];
    assert forall k :: 0 <= k < |out| ==> out'[k] == out[k];
    assert out'[|out|].path == d;
    assert forall k :: 0 <= k < |out| ==> out[k].path in seen;
    forall p | p in PathsOf(out) + {d} ensures p in PathsOf(out') {
      if p in PathsOf(out) {
        var k :| 0 <= k < |out| && out[k].path == p;
        assert out'[k].path == p;
      }
    }
  }

  lemma ClosedAfter(seen: set<Path>, todo: set<Path>, below: Path, nodes: seq<Listed>, i: nat)
    requires i < |nodes| && todo == PathsFrom(nodes, i)
    requires below in seen && (DirOf(below) == ROOT || DirOf(below) in seen)
    requires ClosedBut(seen, todo + {below})
    requires below == nodes[i].path || DirOf(nodes[i].path) in seen
    ensures ClosedBut(seen, PathsFrom(nodes, i + 1))
  {
  }

  // ---------- From listings to base trees ----------

  /** The rows of one generation. */
  ghost predicate Holds(nodes: seq<Listed>, base: Base) {
    && base.Keys == PathsOf(nodes)
    && forall i :: 0 <= i < |nodes| ==> nodes[i].path in base && base[nodes[i].path] == nodes[i].node
  }

  /** What Git lists: distinct sound entries, and whatever lies above another entry is a directory. */
  ghost predicate GitListing(nodes: seq<Listed>) {
    && DistinctPaths(nodes)
    && (forall i :: 0 <= i < |nodes| ==> WellFormedNode(nodes[i].node))
    && (forall i, j :: 0 <= i < |nodes| && 0 <= j < |nodes| && StrictlyUnder(nodes[i].path, nodes[j].path) ==>
          nodes[j].node.typ.DirType?)
    && ROOT in PathsOf(nodes)
  }

  /** A listing completed with its implied directories is a well-formed base. */
  lemma CompletedListingIsWellFormed(nodes: seq<Listed>, out: seq<Listed>, base: Base)
    requires GitListing(nodes) && nodes <= out && Holds(out, base)
    requires forall k :: |nodes| <= k < |out| ==> out[k].node == IMPLIED_DIR && AboveSome(nodes, out[k].path)
    requires forall p :: p in PathsOf(out) && p != ROOT && Parent(p) != ROOT ==> Parent(p) in PathsOf(out)
    ensures WellFormedBase(base)
  {
    forall p | p in base ensures WellFormedNode(base[p]) {
      var k :| 0 <= k < |out| && out[k].path == p;
      assert k < |nodes| ==> out[k] == nodes[k];
    }
    forall p | p in base && p != ROOT ensures Parent(p) in base && base[Parent(p)].typ.DirType? {
      var up := Parent(p);
      var r :| 0 <= r < |nodes| && nodes[r].path == ROOT;
      assert out[r].path == ROOT;
      var k :| 0 <= k < |out| && out[k].path == up;
      if k < |nodes| {
        var i :| 0 <= i < |out| && out[i].path == p;
        BelowSomeEntry(nodes, out, i);
        var j :| 0 <= j < |nodes| && Under(nodes[j].path, p);
        assert StrictlyUnder(nodes[j].path, up) by { assert nodes[j].path[..|up|] == up; }
        assert out[k] == nodes[k];
      }
    }
  }

  lemma BelowSomeEntry(nodes: seq<Listed>, out: seq<Listed>, i: nat)
    requires nodes <= out && i < |out|
    requires forall k :: |nodes| <= k < |out| ==> AboveSome(nodes, out[k].path)
    ensures exists j :: 0 <= j < |nodes| && Under(nodes[j].path, out[i].path)
  {
    if i < |nodes| {
      assert Under(nodes[i].path, out[i].path);
    } else {
      assert AboveSome(nodes, out[i].path);
      var j :| 0 <= j < |nodes| && StrictlyUnder(nodes[j].path, out[i].path);
      assert Under(nodes[j].path, out[i].path);
    }
  }

  // ---------- Generations ----------

  type Generation = nat

  type Rows = map<(Generation, Path), BaseNode>

  /** The base tree a generation holds. */
  function TreeOf(rows: Rows, gen: Generation): Base {
    map k | k in rows && k.0 == gen :: k.1 := rows[k]
  }

  /** The rows of a transaction that replaces one generation by the first `i` entries of a listing. */
  ghost predicate Inserted(tx: Rows, rows: Rows, gen: Generation, nodes: seq<Listed>, i: nat)
    requires i <= |nodes|
  {
    && (forall j, k :: 0 <= j < k < i ==> nodes[j].path != nodes[k].path)
    && (forall p :: (gen, p) in tx <==> exists j :: 0 <= j < i && nodes[j].path == p)
    && (forall j :: 0 <= j < i ==> (gen, nodes[j].path) in tx && tx[(gen, nodes[j].path)] == nodes[j].node)
    && (forall g, p :: g != gen ==> ((g, p) in tx <==> (g, p) in rows) && ((g, p) in tx ==> tx[(g, p)] == rows[(g, p)]))
  }

  lemma InsertedTrees(tx: Rows, rows: Rows, gen: Generation, nodes: seq<Listed>)
    requires Inserted(tx, rows, gen, nodes, |nodes|)
    ensures DistinctPaths(nodes) && Holds(nodes, TreeOf(tx, gen))
    ensures forall g :: g != gen ==> TreeOf(tx, g) == TreeOf(rows, g)
  {
    var tree := TreeOf(tx, gen);
    forall p ensures p in tree <==> p in PathsOf(nodes) { assert p in tree <==> (gen, p) in tx; }
    forall g | g != gen ensures TreeOf(tx, g) == TreeOf(rows, g) {
      forall p ensures p in TreeOf(tx, g) <==> p in TreeOf(rows, g) { assert p in TreeOf(tx, g) <==> (g, p) in tx; }
    }
  }

  /** The inserts of one transaction; a path listed twice breaks the primary key. */
  method InsertAll(rows: Rows, gen: Generation, nodes: seq<Listed>) returns (ok: bool, tx: Rows)
    ensures ok <==> DistinctPaths(nodes)
    ensures ok ==> Inserted(tx, rows, gen, nodes, |nodes|)
  {
    tx := map k | k in rows && k.0 != gen :: rows[k];
    for i := 0 to |nodes|
      invariant Inserted(tx, rows, gen, nodes, i)
    {
      if (gen, nodes[i].path) in tx { return false, tx; }
      InsertedOneMore(tx, rows, gen, nodes, i);
      tx := tx[(gen, nodes[i].path) := nodes[i].node];
    }
    ok := true;
  }

  lemma InsertedOneMore(tx: Rows, rows: Rows, gen: Generation, nodes: seq<Listed>, i: nat)
    requires i < |nodes| && Inserted(tx, rows, gen, nodes, i) && (gen, nodes[i].path) !in tx
    ensures Inserted(tx[(gen, nodes[i].path) := nodes[i].node], rows, gen, nodes, i + 1)
  {
  }

  /** A new generation comes after every generation before it. */
  predicate Advances(current: Option<Generation>, gen: Generation) {
    current.Some? ==> gen > current.value
  }

  /** Whatever a reader may still be looking at stays. */
  ghost predicate KeepsKnown(current: Option<Generation>, before: Rows, after: Rows) {
    forall g: Generation :: current.Some? && g <= current.value ==> TreeOf(after, g) == TreeOf(before, g)
  }

  class SnapshotStore {
    var rows: Rows
    var current: Option<Generation>

    constructor ()
      ensures rows == map[] && current == None
    {
      rows, current := map[], None;
    }

    ghost function Tree(gen: Generation): Base
      reads this
    {
      TreeOf(rows, gen)
    }

    function NextGeneration(): Generation
      reads this
    {
      if current.None? then 1 else current.value + 1
    }

    /** One transaction: unless the database fails, listings without repetitions are published. */
    method PublishGeneration(nodes: seq<Listed>, fault: bool) returns (published: bool, gen: Generation)
      modifies this
      ensures published <==> !fault && DistinctPaths(nodes)
      ensures !published ==> rows == old(rows) && current == old(current)
      ensures published ==> gen == old(NextGeneration()) && current == Some(gen)
      ensures published ==> Holds(nodes, Tree(gen))
      ensures published ==> forall g :: g != gen ==> Tree(g) == old(Tree(g))
      ensures published ==> Advances(old(current), gen) && KeepsKnown(old(current), old(rows), rows)
    {
      gen := NextGeneration();
      if fault { return false, gen; }
      var tx;
      published, tx := InsertAll(rows, gen, nodes);
      if published {
        InsertedTrees(tx, rows, gen, nodes);
        rows, current := tx, Some(gen);
      }
    }

    /** A new generation from what Git lists: the tree a resolver will look names up in is well formed. */
    method PublishListing(nodes: seq<Listed>, fault: bool) returns (published: bool, gen: Generation)
      modifies this
      ensures !fault && DistinctPaths(nodes) ==> published
      ensures !published ==> rows == old(rows) && current == old(current)
      ensures published ==> current == Some(gen) && forall g :: g != gen ==> Tree(g) == old(Tree(g))
      ensures published ==> Advances(old(current), gen) && KeepsKnown(old(current), old(rows), rows)
      ensures published ==> forall i :: 0 <= i < |nodes| ==>
          nodes[i].path in Tree(gen) && Tree(gen)[nodes[i].path] == nodes[i].node
      ensures published && GitListing(nodes) ==> WellFormedBase(Tree(gen))
    {
      var completed := AddImplicitDirs(nodes);
      published, gen := PublishGeneration(completed, fault);
      if published {
        forall i | 0 <= i < |nodes| ensures nodes[i].path in Tree(gen) && Tree(gen)[nodes[i].path] == nodes[i].node {
          assert completed[i] == nodes[i];
        }
        if GitListing(nodes) { CompletedListingIsWellFormed(nodes, completed, Tree(gen)); }
      }
    }

    method LookupNode(gen: Generation, path: Path) returns (found: Option<BaseNode>)
      ensures found.Some? <==> path in Tree(gen)
      ensures found.Some? ==> found.value == Tree(gen)[path]
    {
      found := if (gen, path) in rows then Some(rows[(gen, path)]) else None;
    }

    method PruneGenerations(keepFrom: int)
      modifies this
      ensures current == old(current)
      ensures forall g: Generation :: Tree(g) == if keepFrom <= 1 || g >= keepFrom then old(Tree(g)) else map[]
    {
      if keepFrom <= 1 { return; }
      rows := map k | k in rows && k.0 >= keepFrom :: rows[k];
    }
  }

  datatype Publication = Publication(nodes: seq<Listed>, fault: bool)

  /**
   * Over every sequence of publications, failed ones among them: no generation number is handed
   * out twice, and every generation published holds its listing to the end.
   */
  method PublishAll(store: SnapshotStore, all: seq<Publication>) returns (gens: seq<Option<Generation>>)
    modifies store
    ensures |gens| == |all|
    ensures forall i :: 0 <= i < |all| ==> (gens[i].Some? <==> !all[i].fault && DistinctPaths(all[i].nodes))
    ensures forall i, j :: 0 <= i < j < |all| && gens[i].Some? && gens[j].Some? ==> gens[i].value < gens[j].value
    ensures forall i :: 0 <= i < |all| && gens[i].Some? ==>
              Advances(old(store.current), gens[i].value) && Holds(all[i].nodes, store.Tree(gens[i].value))
    ensures KeepsKnown(old(store.current), old(store.rows), store.rows)
  {
    gens := [];
    for k := 0 to |all|
      invariant |gens| == k && NotBefore(old(store.current), store.current)
      invariant forall i :: 0 <= i < k ==> (gens[i].Some? <==> !all[i].fault && DistinctPaths(all[i].nodes))
      invariant forall i, j :: 0 <= i < j < k && gens[i].Some? && gens[j].Some? ==> gens[i].value < gens[j].value
      invariant forall i :: 0 <= i < k && gens[i].Some? ==> NotBefore(gens[i], store.current)
      invariant forall i :: 0 <= i < k && gens[i].Some? ==>
                  Advances(old(store.current), gens[i].value) && Holds(all[i].nodes, store.Tree(gens[i].value))
      invariant KeepsKnown(old(store.current), old(store.rows), store.rows)
    {
      var published, gen := store.PublishGeneration(all[k].nodes, all[k].fault);
      gens := gens + [if published then Some(gen) else None];
    }
  }

  predicate NotBefore(first: Option<Generation>, later: Option<Generation>) {
    first.Some? ==> later.Some? && first.value <= later.value
  }
}
