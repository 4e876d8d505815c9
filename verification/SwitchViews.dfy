/** Generation switches and the shape of the view: exactly when the view over the new base is a tree. */
module SwitchViews {
  import opened Paths
  import opened Model
  import opened Overlays
  import opened Reconciles
  import opened RenameViews

  /** A row that hides or replaces the base after the switch, too: any but a foreign whiteout. */
  predicate Covers(rows: map<Path, Entry>, p: Path) {
    p in rows && !ForeignWhiteout(p, rows[p])
  }

  predicate VisibleAfter(rows: map<Path, Entry>, newer: Base, p: Path) {
    if Covers(rows, p) then !rows[p].IsDeleted() else p in newer
  }

  predicate DirectoryAfter(rows: map<Path, Entry>, newer: Base, p: Path) {
    if Covers(rows, p) then rows[p].kind.Mkdir? else p in newer && newer[p].typ.DirType?
  }

  /** What a caller can look up before it switches: every node that stays has a directory above it. */
  predicate FitsTree(rows: map<Path, Entry>, newer: Base) {
    forall p :: p in rows.Keys + newer.Keys && p != ROOT && VisibleAfter(rows, newer, p) ==>
      DirectoryAfter(rows, newer, Parent(p))
  }

  lemma SwitchShows(ov: Overlay, newer: Base, p: Path)
    requires Owned(ov) && WellFormedBase(newer)
    ensures Resolve(Reconcile(ov, newer), newer, p).Some? <==> VisibleAfter(ov.rows, newer, p)
    ensures Resolve(Reconcile(ov, newer), newer, p) == Some(DirNode) <==> DirectoryAfter(ov.rows, newer, p)
  {
    if p in ov.rows {
      if !RowFate(ov, newer, p).Drop? {
        SurvivorKeepsLayer(ov, newer, p);
        KeptIsNotConfusable(ov, newer, p);
      } else if !ov.rows[p].IsDeleted() {
        DroppedKeepsSort(ov, newer, p);
      }
    }
  }

  /** What a dropped row gives way to is a directory exactly if the row was one. */
  lemma DroppedKeepsSort(ov: Overlay, newer: Base, p: Path)
    requires Owned(ov) && WellFormedBase(newer) && Live(ov, p) && RowFate(ov, newer, p).Drop?
    ensures p in newer && (newer[p].typ.DirType? <==> ov.rows[p].kind.Mkdir?)
  {
    assert RowOwned(ov.rows[p], ov.files) && WellFormedNode(newer[p]);
  }

  /** The view after a switch is a tree if and only if what stays visible has directories above it. */
  lemma SwitchKeepsTreeIff(ov: Overlay, newer: Base)
    requires Owned(ov) && WellFormedBase(newer)
    ensures TreeShaped(Reconcile(ov, newer), newer) <==> FitsTree(ov.rows, newer)
  {
    forall p
      ensures Resolve(Reconcile(ov, newer), newer, p).Some? <==> VisibleAfter(ov.rows, newer, p)
      ensures Resolve(Reconcile(ov, newer), newer, p) == Some(DirNode) <==> DirectoryAfter(ov.rows, newer, p)
    {
      SwitchShows(ov, newer, p);
    }
  }
}
