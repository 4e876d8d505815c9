/** Strict lexicographic order on names, and sorting by it. */
module Names {
  predicate Before(a: string, b: string) {
    if b == "" then false
    else if a == "" then true
    else if a[0] != b[0] then a[0] < b[0]
    else Before(a[1..], b[1..])
  }

  lemma {:induction false} BeforeIsTotal(a: string, b: string)
    ensures Before(a, b) || Before(b, a) || a == b
    ensures !(Before(a, b) && Before(b, a))
    ensures !Before(a, a)
    decreases |a|
  {
    if a != "" { BeforeIsTotal(a[1..], a[1..]); }
    if a != "" && b != "" {
      BeforeIsTotal(a[1..], b[1..]);
      assert a == [a[0]] + a[1..] && b == [b[0]] + b[1..];
    }
  }

  lemma {:induction false} BeforeIsTransitive(a: string, b: string, c: string)
    requires Before(a, b) && Before(b, c)
    ensures Before(a, c)
  {
    if a != "" && a[0] == b[0] && b[0] == c[0] { BeforeIsTransitive(a[1..], b[1..], c[1..]); }
  }

  /** The names agree up to some place, where the first ends or has the smaller character. */
  ghost predicate BeforeAt(a: string, b: string, i: nat) {
    i <= |a| && i < |b| && a[..i] == b[..i] && (i == |a| || a[i] < b[i])
  }

  lemma {:induction false} BeforeIff(a: string, b: string)
    ensures Before(a, b) <==> exists i: nat :: BeforeAt(a, b, i)
  {
    if b == "" {
    } else if a == "" {
      assert BeforeAt(a, b, 0);
    } else if a[0] != b[0] {
      assert a[0] < b[0] ==> BeforeAt(a, b, 0);
      forall i: nat | BeforeAt(a, b, i) ensures a[0] < b[0] { assert i > 0 ==> a[..i][0] == b[..i][0]; }
    } else {
      BeforeIff(a[1..], b[1..]);
      if Before(a[1..], b[1..]) {
        var i: nat :| BeforeAt(a[1..], b[1..], i);
        assert a[..i + 1] == [a[0]] + a[1..][..i] && b[..i + 1] == [b[0]] + b[1..][..i];
        assert BeforeAt(a, b, i + 1);
      }
      forall i: nat | BeforeAt(a, b, i) ensures Before(a[1..], b[1..]) {
        assert i > 0;
        assert a[1..][..i - 1] == a[..i][1..] && b[1..][..i - 1] == b[..i][1..];
        assert BeforeAt(a[1..], b[1..], i - 1);
      }
    }
  }

  ghost predicate StrictlySorted(names: seq<string>) {
    forall i, j :: 0 <= i < j < |names| ==> Before(names[i], names[j])
  }

  method Least(names: set<string>) returns (least: string)
    requires names != {}
    ensures least in names
    ensures forall n :: n in names && n != least ==> Before(least, n)
  {
    least :| least in names;
    var rest := names - {least};
    while rest != {}
      invariant least in names && rest <= names && least !in rest
      invariant forall n :: n in names - rest && n != least ==> Before(least, n)
    {
      var n :| n in rest;
      rest := rest - {n};
      BeforeIsTotal(n, least);
      if Before(n, least) {
        forall m | m in names - rest && m != n ensures Before(n, m) {
          if m != least { BeforeIsTransitive(n, least, m); }
        }
        least := n;
      }
    }
  }

  method Sort(names: set<string>) returns (sorted: seq<string>)
    ensures StrictlySorted(sorted)
    ensures forall n :: n in sorted <==> n in names
  {
    sorted := [];
    var rest := names;
    while rest != {}
      invariant rest <= names && StrictlySorted(sorted)
      invariant forall n :: n in sorted <==> n in names - rest
      invariant forall i, n :: 0 <= i < |sorted| && n in rest ==> Before(sorted[i], n)
    {
      var least := Least(rest);
      rest := rest - {least};
      sorted := sorted + [least];
    }
  }
}

/** Merged directory listings. */
module Listing {
  import opened Paths
  import opened Model
  import opened Overlays
  import opened Names

  /** Where a listed name comes from: its own row, the base, or only rows further down. */
  datatype ChildSource = FromRow(e: Entry) | FromBase(n: BaseNode) | Synthetic
  {
    function Type(): NodeType {
      match this
      case FromRow(e) => e.NodeType()
      case FromBase(n) => n.typ
      case Synthetic => DirType
    }
  }

  datatype ReaddirEntry = ReaddirEntry(name: string, source: ChildSource)

  predicate HasDeeperRow(rows: map<Path, Entry>, p: Path) {
    exists q :: q in rows && StrictlyUnder(q, p)
  }

  /** A name with neither row nor base node, but with rows below it. */
  predicate OrphanName(ov: Overlay, base: Base, p: Path) {
    p !in ov.rows && p !in base && HasDeeperRow(ov.rows, p)
  }

  /** What a listing of the parent says about `p`. */
  function ChildAt(ov: Overlay, base: Base, p: Path): Option<ChildSource> {
    if p in ov.rows then if ov.rows[p].IsDeleted() then None else Some(FromRow(ov.rows[p]))
    else if p in base then Some(FromBase(base[p]))
    else if HasDeeperRow(ov.rows, p) then Some(Synthetic)
    else None
  }

  /** A name is listed exactly when its path resolves or it is an orphan; resolving names keep their type. */
  lemma ListedIffResolves(ov: Overlay, base: Base, p: Path)
    ensures ChildAt(ov, base, p).Some? <==> Resolve(ov, base, p).Some? || OrphanName(ov, base, p)
    ensures Resolve(ov, base, p).Some? ==> ChildAt(ov, base, p).value.Type() == TypeOf(Resolve(ov, base, p).value)
  {
  }

  function TypeOf(node: Node): NodeType {
    match node
    case DirNode => DirType
    case FileNode(_, _) => FileType
    case LinkNode(_) => LinkType
  }

  /** ListChildren of the snapshot. */
  function BaseChildren(base: Base, path: Path): set<Path> {
    set p | p in base && p != ROOT && Parent(p) == path
  }

  /** A prefix query may return more than the rows below the path (LIKE wildcards, case folding), never less. */
  ghost predicate CoversRowsUnder(rows: map<Path, Entry>, path: Path, matched: seq<Path>) {
    && (forall p :: p in matched ==> p in rows)
    && (forall p :: p in rows && StrictlyUnder(p, path) ==> p in matched)
  }

  /** What the map of names must hold for `name` once the rows in `done` have been looked at. */
  ghost predicate NameSettled(ov: Overlay, base: Base, path: Path, done: seq<Path>, found: map<string, ChildSource>,
      name: string) {
    var c := path + [name];
    var fromBase := if c in base then Some(FromBase(base[c])) else None;
    var now := if name in found then Some(found[name]) else None;
    var touched := exists q :: q in done && Under(q, c);
    if c in ov.rows then
      if ov.rows[c].IsDeleted() then now == if c in done then None else fromBase
      else now == if touched then Some(FromRow(ov.rows[c])) else fromBase
    else if c in base then now == fromBase
    else now == if touched then Some(Synthetic) else None
  }

  method BaseNames(base: Base, path: Path) returns (found: map<string, ChildSource>)
    ensures forall name :: name in found <==> path + [name] in base
    ensures forall name :: name in found ==> found[name] == FromBase(base[path + [name]])
  {
    found := map[];
    var rest := BaseChildren(base, path);
    while rest != {}
      invariant rest <= BaseChildren(base, path)
      invariant forall name :: name in found <==> path + [name] in BaseChildren(base, path) - rest
      invariant forall name :: name in found ==> found[name] == FromBase(base[path + [name]])
    {
      var c :| c in rest;
      assert c == path + [BaseName(c)];
      found := found[BaseName(c) := FromBase(base[c])];
      rest := rest - {c};
    }
    forall name | path + [name] in base ensures name in found {
      assert Parent(path + [name]) == path;
    }
  }

  /** readdirTypedAt */
  method ReaddirTyped(ov: Overlay, base: Base, path: Path, matched: seq<Path>) returns (out: seq<ReaddirEntry>)
    requires CoversRowsUnder(ov.rows, path, matched)
    ensures forall i, j :: 0 <= i < j < |out| ==> Before(out[i].name, out[j].name)
    ensures forall i :: 0 <= i < |out| ==> ChildAt(ov, base, path + [out[i].name]) == Some(out[i].source)
    ensures forall name :: ChildAt(ov, base, path + [name]).Some? ==> exists i :: 0 <= i < |out| && out[i].name == name
  {
    var found := BaseNames(base, path);
    for i := 0 to |matched|
      invariant forall name :: NameSettled(ov, base, path, matched[..i], found, name)
    {
      var p := matched[i];
      ghost var before := found;
      if StrictlyUnder(p, path) {
        var name := p[|path|];
        var c := path + [name];
        if ov.rows[p].IsDeleted() && p == c {
          found := found - {name};
        } else if c in ov.rows {
          if !ov.rows[c].IsDeleted() { found := found[name := FromRow(ov.rows[c])]; }
        } else if name !in found {
          found := found[name := Synthetic];
        }
      }
      ghost var done := matched[..i + 1];
      forall name ensures NameSettled(ov, base, path, done, found, name) {
        NameStaysSettled(ov, base, path, matched, i, before, found, name);
      }
    }
    assert matched[..|matched|] == matched;
    var names := Sort(found.Keys);
    out := [];
    for i := 0 to |names|
      invariant |out| == i
      invariant forall j :: 0 <= j < i ==> names[j] in found && out[j] == ReaddirEntry(names[j], found[names[j]])
    {
      out := out + [ReaddirEntry(names[i], found[names[i]])];
    }
    forall name
      ensures ChildAt(ov, base, path + [name]) == if name in found then Some(found[name]) else None
    {
      SettledIsChildAt(ov, base, path, matched, found, name);
    }
    forall name | ChildAt(ov, base, path + [name]).Some? ensures exists i :: 0 <= i < |out| && out[i].name == name {
      assert name in names;
      var i :| 0 <= i < |names| && names[i] == name;
      assert out[i].name == name;
    }
  }

  /** One loop step: the row at `matched[i]` settles the name it lies under and no other. */
  lemma NameStaysSettled(ov: Overlay, base: Base, path: Path, matched: seq<Path>, i: nat,
                         before: map<string, ChildSource>, after: map<string, ChildSource>, name: string)
    requires i < |matched| && matched[i] in ov.rows
    requires NameSettled(ov, base, path, matched[..i], before, name)
    requires var p, c := matched[i], path + [name];
             var was := if name in before then Some(before[name]) else None;
             var now := if name in after then Some(after[name]) else None;
             now == if !Under(p, c) then was
                    else if ov.rows[p].IsDeleted() && p == c then None
                    else if c in ov.rows then if ov.rows[c].IsDeleted() then was else Some(FromRow(ov.rows[c]))
                    else if was.None? then Some(Synthetic) else was
    ensures NameSettled(ov, base, path, matched[..i + 1], after, name)
  {
  }

  lemma SettledIsChildAt(ov: Overlay, base: Base, path: Path, matched: seq<Path>, found: map<string, ChildSource>,
      name: string)
    requires CoversRowsUnder(ov.rows, path, matched)
    requires NameSettled(ov, base, path, matched, found, name)
    ensures ChildAt(ov, base, path + [name]) == if name in found then Some(found[name]) else None
  {
    var c := path + [name];
    if c in ov.rows {
      assert StrictlyUnder(c, path) && c in matched && Under(c, c);
    } else {
      if q :| q in ov.rows && StrictlyUnder(q, c) {
        assert StrictlyUnder(q, path) && q in matched && Under(q, c);
      }
      if q :| q in matched && Under(q, c) {
        UnderSplits(q, c);
        assert q in ov.rows && StrictlyUnder(q, c);
      }
    }
  }
}
