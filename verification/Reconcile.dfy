/**
 * Reconciling the overlay with a new base snapshot: what happens to each row, what a user
 * sees before and after, and the normal form the table ends in.
 */
module Reconciles {
  import opened Paths
  import opened Model
  import opened Overlays

  function SourcePath(p: Path, e: Entry): Path {
    if e.target.Origin? then e.target.path else p
  }

  predicate SameSource(e: Entry, n: BaseNode) {
    e.sourceOid == n.oid && e.sourceMode == n.mode
  }

  function WithSource(e: Entry, n: BaseNode): Entry {
    e.(sourceOid := n.oid, sourceMode := n.mode)
  }

  function AsCreate(e: Entry): Entry {
    e.(kind := Create, sourceOid := NoOid, sourceMode := 0)
  }

  /** overlayEntryMatchesBase */
  predicate Matches(e: Entry, files: map<BackingId, Backing>, n: BaseNode) {
    && (n.mode == 0 || Perm(e.mode) == Perm(n.mode))
    && match if e.kind.Symlink? then (if e.target.LinkText? then Data(e.target.text) else Unreadable)
             else BackingContent(files, e.backing)
       case Data(data) => HashesTo(data, n.oid)
       case _ => false
  }

  /** Sources of renames that the new base no longer tracks. */
  function StaleSources(rows: map<Path, Entry>, base: Base): set<Path> {
    set p | p in rows && rows[p].kind.Rename? && SourcePath(p, rows[p]) !in base :: SourcePath(p, rows[p])
  }

  /** A whiteout that a chain of renames left naming some other path. */
  predicate ForeignWhiteout(p: Path, e: Entry) {
    e.IsDeleted() && e.target.Origin? && e.target.path != p
  }

  datatype Fate = Keep | Drop | Rebased(e: Entry)

  function RebaseOnto(e: Entry, files: map<BackingId, Backing>, n: BaseNode): Fate {
    if SameSource(e, n) then Keep
    else if Matches(e, files, n) then Drop
    else Rebased(WithSource(e, n))
  }

  function RenameFate(p: Path, e: Entry, files: map<BackingId, Backing>, base: Base): Fate {
    var source := SourcePath(p, e);
    if source in base then if SameSource(e, base[source]) then Keep else Rebased(WithSource(e, base[source]))
    else if p !in base then Rebased(AsCreate(e).(target := NoTarget))
    else if Matches(e, files, base[p]) then Drop
    else Rebased(WithSource(e, base[p]).(kind := Modify, target := NoTarget))
  }

  function FateOf(p: Path, e: Entry, files: map<BackingId, Backing>, base: Base, stale: set<Path>): Fate {
    match e.kind
    case Modify => if p !in base then Rebased(AsCreate(e)) else RebaseOnto(e, files, base[p])
    case Rename => RenameFate(p, e, files, base)
    case Delete =>
      if ForeignWhiteout(p, e) || p in stale || (e.target.Origin? && e.target.path in stale) || p !in base
      then Drop else Keep
    case Create =>
      if p !in base then Keep
      else if Matches(e, files, base[p]) then Drop
      else Rebased(WithSource(e, base[p]).(kind := Modify))
    case Mkdir => if p in base && base[p].typ.DirType? then Drop else Keep
    case Symlink => if p in base && base[p].typ.LinkType? then RebaseOnto(e, files, base[p]) else Keep
  }

  function RowFate(ov: Overlay, base: Base, p: Path): Fate
    requires p in ov.rows
  {
    FateOf(p, ov.rows[p], ov.files, base, StaleSources(ov.rows, base))
  }

  function RowAfter(e: Entry, fate: Fate): Entry {
    if fate.Rebased? then fate.e else e
  }

  function DroppedBackings(ov: Overlay, base: Base): set<BackingId> {
    set p | p in ov.rows && RowFate(ov, base, p).Drop? && ov.rows[p].backing.Some? :: ov.rows[p].backing.value
  }

  /** ReconcileChecked, when no lookup fails. */
  function Reconcile(ov: Overlay, base: Base): Overlay {
    Overlay(
      map p | p in ov.rows && !RowFate(ov, base, p).Drop? :: RowAfter(ov.rows[p], RowFate(ov, base, p)),
      ov.files - DroppedBackings(ov, base),
      ov.next)
  }

  // ---------- What a user sees ----------

  /** Foreign whiteouts sit only where the base has no node. */
  ghost predicate ForeignWhiteoutsClear(rows: map<Path, Entry>, base: Base) {
    forall p :: p in rows && ForeignWhiteout(p, rows[p]) ==> p !in base
  }

  lemma SurvivorKeepsLayer(ov: Overlay, base: Base, p: Path)
    requires Owned(ov) && p in ov.rows && !RowFate(ov, base, p).Drop?
    ensures LayerAt(Reconcile(ov, base), p) == LayerAt(ov, p)
    ensures RowOwned(Reconcile(ov, base).rows[p], Reconcile(ov, base).files)
    ensures Reconcile(ov, base).rows[p].backing == ov.rows[p].backing
  {
    assert RowOwned(ov.rows[p], ov.files);
  }

  lemma ReconcileKeepsOwned(ov: Overlay, base: Base)
    requires Owned(ov)
    ensures Owned(Reconcile(ov, base))
  {
    var after := Reconcile(ov, base);
    forall p | p in after.rows
      ensures RowOwned(after.rows[p], after.files) && after.rows[p].backing == ov.rows[p].backing
    {
      SurvivorKeepsLayer(ov, base, p);
    }
  }

  /** Rows reconcile would look at again: all creates, modifies of another base version, renames whose source is
      gone. */
  predicate SourceMoved(p: Path, e: Entry, base: Base)
    requires p in base
  {
    match e.kind
    case Create => true
    case Modify => !SameSource(e, base[p])
    case Rename => SourcePath(p, e) !in base
    case _ => false
  }

  /**
   * A file without permission bits over a tracked link whose text is the file's content: content
   * and permission bits agree, and the comparison with the base looks at nothing else.
   */
  predicate Confusable(ov: Overlay, base: Base, p: Path) {
    && p in ov.rows && Perm(ov.rows[p].mode) == 0
    && p in base && base[p].typ.LinkType? && SourceMoved(p, ov.rows[p], base)
    && var content := BackingContent(ov.files, ov.rows[p].backing);
       content.Data? && HashesTo(content.data, base[p].oid)
  }

  ghost predicate NoneConfusable(ov: Overlay, base: Base) {
    forall p :: !Confusable(ov, base, p)
  }

  /** A live row is dropped only where the base shows the very same node, or a link it was taken for. */
  lemma DroppedRowIsInBase(ov: Overlay, base: Base, p: Path)
    requires Owned(ov) && WellFormedBase(base)
    requires Live(ov, p) && RowFate(ov, base, p).Drop?
    ensures p in base
    ensures LayerAt(ov, p) == Shown(BaseShows(base[p])) <==> !Confusable(ov, base, p)
  {
    assert RowOwned(ov.rows[p], ov.files) && WellFormedNode(base[p]);
  }

  /** Edits that have been committed leave the overlay: exactly which file rows are dropped. */
  lemma DroppedIffCommitted(ov: Overlay, base: Base, p: Path)
    requires Owned(ov) && WellFormedBase(base)
    requires Live(ov, p) && ov.rows[p].NodeType().FileType?
    ensures RowFate(ov, base, p).Drop? <==>
              && p in base && base[p].oid.Blob? && SourceMoved(p, ov.rows[p], base)
              && (LayerAt(ov, p) == Shown(BaseShows(base[p])) || Confusable(ov, base, p))
  {
    assert RowOwned(ov.rows[p], ov.files) && (p in base ==> WellFormedNode(base[p]));
  }

  /** Committed links leave it, too, and so do directories that have become tracked. */
  lemma DroppedLinkIffCommitted(ov: Overlay, base: Base, p: Path)
    requires Owned(ov) && WellFormedBase(base)
    requires Live(ov, p) && ov.rows[p].NodeType().LinkType?
    ensures RowFate(ov, base, p).Drop? <==>
              && p in base && base[p].typ.LinkType? && base[p].oid.Blob? && !SameSource(ov.rows[p], base[p])
              && Perm(ov.rows[p].mode) == 0 && LayerAt(ov, p) == Shown(BaseShows(base[p]))
  {
    assert RowOwned(ov.rows[p], ov.files) && (p in base ==> WellFormedNode(base[p]));
  }

  lemma DroppedDirectoryIffTracked(ov: Overlay, base: Base, p: Path)
    requires Owned(ov) && WellFormedBase(base)
    requires Live(ov, p) && ov.rows[p].NodeType().DirType?
    ensures RowFate(ov, base, p).Drop? <==> p in base && LayerAt(ov, p) == Shown(BaseShows(base[p]))
  {
    assert RowOwned(ov.rows[p], ov.files);
  }

  /** A whiteout is dropped only if it is foreign or there is nothing left to hide. */
  lemma DroppedWhiteoutHidNothing(ov: Overlay, base: Base, p: Path)
    requires p in ov.rows && ov.rows[p].IsDeleted() && RowFate(ov, base, p).Drop?
    ensures ForeignWhiteout(p, ov.rows[p]) || p !in base
  {
  }

  /** Reconcile changes what a path shows in exactly two cases. */
  lemma ReconcileViewAt(ov: Overlay, base: Base, p: Path)
    requires Owned(ov) && WellFormedBase(base)
    ensures Resolve(Reconcile(ov, base), base, p) == Resolve(ov, base, p) <==>
              !(p in ov.rows && ForeignWhiteout(p, ov.rows[p]) && p in base) && !Confusable(ov, base, p)
  {
    if p in ov.rows {
      if !RowFate(ov, base, p).Drop? {
        SurvivorKeepsLayer(ov, base, p);
        KeptIsNotConfusable(ov, base, p);
      } else if ov.rows[p].IsDeleted() {
        DroppedWhiteoutHidNothing(ov, base, p);
      } else {
        DroppedRowIsInBase(ov, base, p);
      }
    }
  }

  lemma KeptIsNotConfusable(ov: Overlay, base: Base, p: Path)
    requires Owned(ov) && WellFormedBase(base) && p in ov.rows && !RowFate(ov, base, p).Drop?
    ensures !Confusable(ov, base, p)
    ensures p in base ==> !ForeignWhiteout(p, ov.rows[p])
  {
    assert RowOwned(ov.rows[p], ov.files) && (p in base ==> WellFormedNode(base[p]));
  }

  /** Reconcile shows the same tree over the new base exactly when no foreign whiteout hides a base node and no file is
      taken for a link. */
  lemma ReconcileKeepsViewIff(ov: Overlay, base: Base)
    requires Owned(ov) && WellFormedBase(base)
    ensures SameView(ov, Reconcile(ov, base), base) <==>
        ForeignWhiteoutsClear(ov.rows, base) && NoneConfusable(ov, base)
  {
    forall p
      ensures Resolve(Reconcile(ov, base), base, p) == Resolve(ov, base, p) <==>
                !(p in ov.rows && ForeignWhiteout(p, ov.rows[p]) && p in base) && !Confusable(ov, base, p)
    {
      ReconcileViewAt(ov, base, p);
    }
  }

  // ---------- Normal form ----------

  predicate NormalRow(p: Path, e: Entry, base: Base) {
    match e.kind
    case Modify => p in base && SameSource(e, base[p])
    case Rename => SourcePath(p, e) in base && SameSource(e, base[SourcePath(p, e)])
    case Delete => p in base && !ForeignWhiteout(p, e)
    case Create => p !in base
    case Mkdir => !(p in base && base[p].typ.DirType?)
    case Symlink => p in base && base[p].typ.LinkType? ==> SameSource(e, base[p])
  }

  ghost predicate NormalForm(ov: Overlay, base: Base) {
    forall p :: p in ov.rows ==> NormalRow(p, ov.rows[p], base)
  }

  lemma ReconcileNormalizes(ov: Overlay, base: Base)
    ensures NormalForm(Reconcile(ov, base), base)
  {
  }

  /** The normal forms are exactly the tables a reconcile leaves alone. */
  lemma NormalFormIffFixpoint(ov: Overlay, base: Base)
    ensures NormalForm(ov, base) <==> Reconcile(ov, base) == ov
  {
    if NormalForm(ov, base) {
      assert StaleSources(ov.rows, base) == {};
      forall p | p in ov.rows ensures RowFate(ov, base, p).Keep? {
        assert NormalRow(p, ov.rows[p], base);
      }
      assert DroppedBackings(ov, base) == {};
      assert Reconcile(ov, base).rows == ov.rows;
    }
    if Reconcile(ov, base) == ov { ReconcileNormalizes(ov, base); }
  }

  /** A second reconcile against the same base changes nothing. */
  lemma ReconcileIdempotent(ov: Overlay, base: Base)
    ensures Reconcile(Reconcile(ov, base), base) == Reconcile(ov, base)
  {
    ReconcileNormalizes(ov, base);
    NormalFormIffFixpoint(Reconcile(ov, base), base);
  }

  /** In normal form no whiteout is foreign, so one more generation is shown faithfully. */
  lemma NormalFormHasNoForeignWhiteouts(ov: Overlay, base: Base, newer: Base)
    requires NormalForm(ov, base)
    ensures ForeignWhiteoutsClear(ov.rows, newer)
  {
  }

  // ---------- No user edit is lost across HEAD changes ----------

  /** Reconciling with one generation after another, with no user operation in between. */
  function Switches(ov: Overlay, bases: seq<Base>): Overlay
    decreases |bases|
  {
    if bases == [] then ov else Switches(Reconcile(ov, bases[0]), bases[1..])
  }

  ghost predicate WellFormedGenerations(bases: seq<Base>) {
    forall i :: 0 <= i < |bases| ==> WellFormedBase(bases[i])
  }

  /** Once a row is gone, later switches show there what their generation tracks. */
  lemma {:induction false} GoneRowStaysGone(ov: Overlay, bases: seq<Base>, p: Path)
    requires p !in ov.rows
    ensures p !in Switches(ov, bases).rows
    ensures forall base: Base ::
              Resolve(Switches(ov, bases), base, p) == if p in base then Some(BaseShows(base[p])) else None
    decreases |bases|
  {
    if bases != [] { GoneRowStaysGone(Reconcile(ov, bases[0]), bases[1..], p); }
  }

  /** What a user made and then committed: the base shows it, and the row came from elsewhere. */
  ghost predicate Committed(ov: Overlay, base: Base, p: Path)
    requires p in ov.rows
  {
    && p in base && LayerAt(ov, p) == Shown(BaseShows(base[p]))
    && match base[p].typ
       case DirType => true
       case LinkType => base[p].oid.Blob? && !SameSource(ov.rows[p], base[p]) && Perm(ov.rows[p].mode) == 0
       case FileType => base[p].oid.Blob? && SourceMoved(p, ov.rows[p], base)
  }

  /**
   * A committed file, link or directory belongs to the base from then on: after any later switches
   * its path shows what the generation tracks, and nothing where it tracks nothing.
   */
  lemma CommittedFollowsBase(ov: Overlay, bases: seq<Base>, p: Path)
    requires Owned(ov) && Live(ov, p) && bases != [] && WellFormedGenerations(bases) && Committed(ov, bases[0], p)
    ensures p !in Switches(ov, bases).rows
    ensures var now := bases[|bases| - 1];
            Resolve(Switches(ov, bases), now, p) == if p in now then Some(BaseShows(now[p])) else None
  {
    assert RowOwned(ov.rows[p], ov.files);
    match ov.rows[p].NodeType() {
      case FileType => DroppedIffCommitted(ov, bases[0], p);
      case LinkType => DroppedLinkIffCommitted(ov, bases[0], p);
      case DirType => DroppedDirectoryIffTracked(ov, bases[0], p);
    }
    GoneRowStaysGone(Reconcile(ov, bases[0]), bases[1..], p);
  }

  ghost predicate CommittedIn(bases: seq<Base>, p: Path, node: Node) {
    exists i :: 0 <= i < |bases| && p in bases[i] && BaseShows(bases[i][p]) == node
  }

  /** At some generation the row, as the switches before it left it, is taken for a link. */
  ghost predicate ConfusedIn(ov: Overlay, bases: seq<Base>, p: Path) {
    exists i :: 0 <= i < |bases| && ConfusedAt(ov, bases, p, i)
  }

  lemma {:induction false} SwitchesOneMore(ov: Overlay, bases: seq<Base>, i: nat)
    requires i < |bases|
    ensures Switches(ov, bases[..i + 1]) == Reconcile(Switches(ov, bases[..i]), bases[i])
    decreases |bases|
  {
    assert bases[..i + 1][0] == bases[0] && bases[..i + 1][1..] == bases[1..][..i];
    if i == 0 {
      assert bases[1..][..0] == [];
    } else {
      SwitchesOneMore(Reconcile(ov, bases[0]), bases[1..], i - 1);
      assert bases[..i][1..] == bases[1..][..i - 1];
    }
  }

  /** A row that survived some switches shows what it showed before them. */
  lemma {:induction false} SurvivorsUnchanged(ov: Overlay, bases: seq<Base>, p: Path)
    requires Owned(ov) && Live(Switches(ov, bases), p)
    ensures Live(ov, p) && LayerAt(Switches(ov, bases), p) == LayerAt(ov, p)
    decreases |bases|
  {
    if bases != [] {
      ReconcileKeepsOwned(ov, bases[0]);
      SurvivorsUnchanged(Reconcile(ov, bases[0]), bases[1..], p);
      SurvivorKeepsLayer(ov, bases[0], p);
    }
  }

  /** The i-th switch keeps the edit on show, be it in the overlay or by then in the base. */
  ghost predicate KeptAt(ov: Overlay, bases: seq<Base>, p: Path, i: nat)
    requires Live(ov, p) && i < |bases|
  {
    Live(Switches(ov, bases[..i]), p) ==>
      Resolve(Switches(ov, bases[..i + 1]), bases[i], p) == Some(LayerAt(ov, p).node)
  }

  ghost predicate ConfusedAt(ov: Overlay, bases: seq<Base>, p: Path, i: nat)
    requires i < |bases|
  {
    Confusable(Switches(ov, bases[..i]), bases[i], p)
  }

  lemma KeptAtIff(ov: Overlay, bases: seq<Base>, p: Path, i: nat)
    requires Owned(ov) && Live(ov, p) && WellFormedGenerations(bases) && i < |bases|
    ensures KeptAt(ov, bases, p, i) <==> !ConfusedAt(ov, bases, p, i)
  {
    var now := Switches(ov, bases[..i]);
    SwitchesKeepOwned(ov, bases[..i]);
    SwitchesOneMore(ov, bases, i);
    if Live(now, p) {
      SurvivorsUnchanged(ov, bases[..i], p);
      ReconcileViewAt(now, bases[i], p);
    }
  }

  /**
   * No edit is lost: over any sequence of generation switches a live row stays on show until it
   * is committed, if and only if it is never taken for a link.
   */
  lemma NoEditLostIff(ov: Overlay, bases: seq<Base>, p: Path)
    requires Owned(ov) && Live(ov, p) && WellFormedGenerations(bases)
    ensures (forall i :: 0 <= i < |bases| ==> KeptAt(ov, bases, p, i)) <==> !ConfusedIn(ov, bases, p)
  {
    forall i | 0 <= i < |bases| ensures KeptAt(ov, bases, p, i) <==> !ConfusedAt(ov, bases, p, i) {
      KeptAtIff(ov, bases, p, i);
    }
  }

  /**
   * In the end a live row still shows what it showed, or it was dropped at a generation whose
   * base shows the same node there, or it was taken for a link.
   */
  lemma {:induction false} NoEditLost(ov: Overlay, bases: seq<Base>, p: Path)
    requires Owned(ov) && Live(ov, p) && WellFormedGenerations(bases)
    ensures Owned(Switches(ov, bases))
    ensures || LayerAt(Switches(ov, bases), p) == LayerAt(ov, p)
            || CommittedIn(bases, p, LayerAt(ov, p).node)
            || ConfusedIn(ov, bases, p)
    decreases |bases|
  {
    if bases != [] {
      var next := Reconcile(ov, bases[0]);
      ReconcileKeepsOwned(ov, bases[0]);
      if RowFate(ov, bases[0], p).Drop? {
        DroppedRowIsInBase(ov, bases[0], p);
        SwitchesKeepOwned(next, bases[1..]);
        assert ConfusedAt(ov, bases, p, 0) <==> Confusable(ov, bases[0], p) by { assert bases[..0] == []; }
      } else {
        SurvivorKeepsLayer(ov, bases[0], p);
        NoEditLost(next, bases[1..], p);
        LaterGenerations(ov, bases, p, LayerAt(ov, p).node);
      }
    }
  }

  lemma LaterGenerations(ov: Overlay, bases: seq<Base>, p: Path, node: Node)
    requires bases != []
    ensures CommittedIn(bases[1..], p, node) ==> CommittedIn(bases, p, node)
    ensures ConfusedIn(Reconcile(ov, bases[0]), bases[1..], p) ==> ConfusedIn(ov, bases, p)
  {
    if i :| 0 <= i < |bases[1..]| && p in bases[1..][i] && BaseShows(bases[1..][i][p]) == node {
      assert bases[i + 1] == bases[1..][i];
    }
    if i :| 0 <= i < |bases[1..]| && ConfusedAt(Reconcile(ov, bases[0]), bases[1..], p, i) {
      assert bases[..i + 1][0] == bases[0] && bases[..i + 1][1..] == bases[1..][..i];
      assert ConfusedAt(ov, bases, p, i + 1);
    }
  }

  lemma {:induction false} SwitchesKeepOwned(ov: Overlay, bases: seq<Base>)
    requires Owned(ov)
    ensures Owned(Switches(ov, bases))
    decreases |bases|
  {
    if bases != [] {
      ReconcileKeepsOwned(ov, bases[0]);
      SwitchesKeepOwned(Reconcile(ov, bases[0]), bases[1..]);
    }
  }
}
