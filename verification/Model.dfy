/** Entities shared by the overlay, the snapshot and the merged view. */
module Model {
  import opened Paths

  newtype byte = x: int | 0 <= x < 256

  type Bytes = seq<byte>

  datatype Option<+T> = None | Some(value: T)

  /**
   * Object ids.  Hashing is modelled as injective: a blob id is its content, so the test
   * "the hash of this content is that id" is an equality.  Other covers ids of trees and
   * commits, which no blob hash ever equals.
   */
  datatype Oid = NoOid | Blob(content: Bytes) | Other(id: nat)

  predicate HashesTo(content: Bytes, oid: Oid) {
    oid.Blob? && oid.content == content
  }

  datatype NodeType = FileType | DirType | LinkType

  datatype BaseNode = BaseNode(typ: NodeType, mode: nat, oid: Oid)

  /** The tracked entries of one snapshot generation. */
  type Base = map<Path, BaseNode>

  datatype Kind = Create | Modify | Delete | Rename | Mkdir | Symlink

  /** The target_path column: empty, the path a row came from, or a link's text. */
  datatype Target = NoTarget | Origin(path: Path) | LinkText(text: Bytes)

  type BackingId = nat

  datatype Entry = Entry(
    kind: Kind,
    backing: Option<BackingId>,
    mode: nat,
    size: nat,
    sourceOid: Oid,
    sourceMode: nat,
    target: Target)
  {
    predicate IsDeleted() { kind.Delete? }

    function NodeType(): NodeType {
      match kind
      case Mkdir => DirType
      case Symlink => LinkType
      case _ => FileType
    }
  }

  /** A backing object in the upper directory: a file with its bytes, or a directory. */
  datatype Backing = FileObj(data: Bytes) | DirObj

  const MAX_SYMLINK_TARGET_BYTES := 4096

  const LINK_MODE := 0xA000  // octal 120000

  /** mode & 0o777 */
  function Perm(mode: nat): nat {
    mode % 512
  }

  /** mode &^ 0o777 | perm & 0o777 */
  function WithPerm(mode: nat, perm: nat): (r: nat)
    ensures Perm(r) == Perm(perm) && r / 512 == mode / 512
  {
    mode - mode % 512 + perm % 512
  }

  /** Git trees carry 040000, which has no permission bits; directories get 0755. */
  function NormalizeGitDirMode(mode: nat): (r: nat)
    ensures Perm(mode) != 0 ==> r == mode
    ensures (mode / 4096) % 16 == 4 ==> Perm(r) != 0
  {
    if (mode / 4096) % 16 == 4 && Perm(mode) == 0 then 493 else mode
  }

  /** normalizeMode of the resolver. */
  function NormalizeMode(mode: nat, typ: NodeType): (r: nat)
    ensures Perm(r) != 0 && (Perm(mode) != 0 ==> r == mode)
  {
    if typ.DirType? && Perm(mode) == 0 then 493
    else if !typ.DirType? && Perm(mode) == 0 then 420
    else mode
  }

  /** What a reader finds in a node; an id that names no blob cannot be read. */
  datatype Content = Data(data: Bytes) | Unreadable

  /** One node as a user sees it: timestamps and directory or link permissions are left out. */
  datatype Node = DirNode | FileNode(content: Content, perm: nat) | LinkNode(content: Content)

  function OidContent(oid: Oid): Content {
    match oid
    case NoOid => Data([])
    case Blob(content) => Data(content)
    case Other(_) => Unreadable
  }

  function BaseShows(n: BaseNode): Node {
    match n.typ
    case DirType => DirNode
    case LinkType => LinkNode(OidContent(n.oid))
    case FileType => FileNode(OidContent(n.oid), Perm(NormalizeMode(n.mode, n.typ)))
  }

  /**
   * Snapshot generations are closed under parents (addImplicitDirs), parents are directories,
   * links carry Git's link mode, directories (gitlinks are listed as such) carry no blob id, and
   * files, which are blobs or have no id, have permission bits.
   */
  ghost predicate WellFormedBase(base: Base) {
    && (forall p :: p in base && p != ROOT ==> Parent(p) in base && base[Parent(p)].typ.DirType?)
    && (forall p :: p in base ==> WellFormedNode(base[p]))
  }

  predicate WellFormedNode(n: BaseNode) {
    match n.typ
    case DirType => !n.oid.Blob?
    case LinkType => n.mode == LINK_MODE
    case FileType => !n.oid.Other? && Perm(n.mode) != 0
  }

  /** In a well-formed base every ancestor of a tracked path is tracked. */
  lemma {:induction false} BaseHoldsAncestors(base: Base, path: Path, root: Path)
    requires WellFormedBase(base) && path in base && Under(path, root)
    ensures root in base
    ensures root != path ==> base[root].typ.DirType?
    decreases |path|
  {
    if path != root {
      var up := Parent(path);
      assert root <= up;
      BaseHoldsAncestors(base, up, root);
    }
  }

  /** pwrite: bytes between the old end and the offset read as zero. */
  function Spliced(was: Bytes, off: nat, data: Bytes): Bytes {
    if data == [] then was
    else Resized(was, off) + data + (if off + |data| < |was| then was[off + |data|..] else [])
  }

  /** truncate(2): cut, or extend with zeros. */
  function Resized(was: Bytes, size: nat): (r: Bytes)
    ensures |r| == size
    ensures forall i :: 0 <= i < size ==> r[i] == if i < |was| then was[i] else 0
  {
    if size <= |was| then was[..size] else was + seq(size - |was|, _ => 0 as byte)
  }

  /** What a write leaves behind, byte by byte: the data where it was put, the rest as before. */
  lemma SplicedReads(was: Bytes, off: nat, data: Bytes)
    requires data != []
    ensures |Spliced(was, off, data)| == if |was| <= off + |data| then off + |data| else |was|
    ensures Spliced(was, off, data)[off..off + |data|] == data
    ensures forall i :: 0 <= i < |Spliced(was, off, data)| && !(off <= i < off + |data|) ==>
              Spliced(was, off, data)[i] == if i < |was| then was[i] else 0
  {
  }
}
