/**
 The reversible file actions, the backups they take, and the restoration that undo performs.
 */
module FileActions {
  import opened Prelude
  import opened FileTree

  datatype FileAction =
    | ReadFile(path: Target)
    | WriteFile(path: Target, content: string)
    | MakeDirectory(path: Target, parents: bool, existOk: bool)
    | Move(source: Target, target: Target)
    | Delete(path: Target)

  /** A backup row: the path, and everything that was at or under it, if it existed. */
  datatype Backup = Backup(path: Target, saved: Option<Tree>)

  /** What a dispatch leaves behind: the tree, the backup rows it wrote, and whether it completed. */
  datatype Effect = Effect(tree: Tree, rows: seq<Backup>, ok: bool)

  /** The policy's size limit, as a test on what would be backed up. */
  type Limit = Tree -> bool

  function BackupOf(t: Tree, p: Target): Backup {
    Backup(p, if p in t then Some(Subtree(t, p)) else None)
  }

  predicate Fits(t: Tree, p: Path, limit: Limit) {
    p in t ==> limit(Subtree(t, p))
  }

  function Failed(t: Tree, rows: seq<Backup>): Effect {
    Effect(t, rows, false)
  }

  predicate IsFile(t: Tree, p: Path) {
    p in t && t[p].File?
  }

  predicate IsDirectory(t: Tree, p: Path) {
    p in t && t[p] == Dir
  }

  /** `file.write`: back up, create missing parents, replace the file atomically. */
  function Write(t: Tree, p: Target, content: string, limit: Limit): Effect {
    if !Fits(t, p, limit) then Failed(t, [])
    else if BlockedBy(t, p) then Failed(t, [BackupOf(t, p)])
    else if IsDirectory(t, p) then Failed(WithParents(t, p), [BackupOf(t, p)])
    else Effect(WithParents(t, p)[p := File(content)], [BackupOf(t, p)], true)
  }

  function MakeDir(t: Tree, p: Target, parents: bool, existOk: bool, limit: Limit): Effect {
    if !Fits(t, p, limit) then Failed(t, [])
    else if p in t then Effect(t, [BackupOf(t, p)], existOk && t[p] == Dir)
    else if parents then
      if BlockedBy(t, p) then Failed(t, [BackupOf(t, p)])
      else Effect(WithParents(t, p)[p := Dir], [BackupOf(t, p)], true)
    else if !IsDirectory(t, Parent(p)) then Failed(t, [BackupOf(t, p)])
    else Effect(t[p := Dir], [BackupOf(t, p)], true)
  }

  function NewKeys(t: Tree, source: Path, landing: Path): set<Path> {
    set q | q in t && Under(source, q) :: landing + q[|source|..]
  }

  /** Renames everything at or under `source` to the same place at or under `landing`. */
  function Renamed(t: Tree, source: Path, landing: Path): Tree {
    Removed(t, source)
    + (map r | r in NewKeys(t, source, landing) && source + r[|landing|..] in t :: t[source + r[|landing|..]])
  }

  /** Where `shutil.move` puts the source: inside the target when the target is a directory. */
  function Landing(t: Tree, source: Target, target: Target): Target {
    if IsDirectory(t, target) && source != target then target + [source[|source| - 1]] else target
  }

  /** `shutil.move` once the target's parents exist; `None` when it raises, having changed nothing. */
  function Moved(t: Tree, source: Target, target: Target): Option<Tree>
    requires source in t
  {
    var landing := Landing(t, source, target);
    if landing == source && source == target then Some(t)
    else if IsDirectory(t, target) && landing in t then None
    else if t[source].File? then Some(Removed(t, source)[landing := t[source]])
    else if Under(source, landing) || landing in t then None
    else Some(Renamed(t, source, landing))
  }

  /** `file.move`: back up source then target, create the target's missing parents, move. */
  function MoveTo(t: Tree, source: Target, target: Target, limit: Limit): Effect {
    if source !in t || !Fits(t, source, limit) then Failed(t, [])
    else if !Fits(t, target, limit) then Failed(t, [BackupOf(t, source)])
    else
      var rows := [BackupOf(t, source), BackupOf(t, target)];
      if BlockedBy(t, target) then Failed(t, rows)
      else
        match Moved(WithParents(t, target), source, target)
        case None => Failed(WithParents(t, target), rows)
        case Some(after) => Effect(after, rows, true)
  }

  function DeleteTree(t: Tree, p: Target, limit: Limit): Effect {
    if p !in t || !Fits(t, p, limit) then Failed(t, [])
    else Effect(Removed(t, p), [BackupOf(t, p)], true)
  }

  function Dispatch(t: Tree, a: FileAction, limit: Limit): Effect {
    match a
    case ReadFile(p) => Effect(t, [], IsFile(t, p))
    case WriteFile(p, content) => Write(t, p, content, limit)
    case MakeDirectory(p, parents, existOk) => MakeDir(t, p, parents, existOk, limit)
    case Move(source, target) => MoveTo(t, source, target, limit)
    case Delete(p) => DeleteTree(t, p, limit)
  }

  // ---------- restoration ----------

  datatype Restoration = Restoration(tree: Tree, ok: bool)

  /** One backup row: clear the path, then copy back what was saved; it stops when a parent cannot be created. */
  function RestoreRow(t: Tree, row: Backup): Restoration {
    var cleared := Removed(t, row.path);
    match row.saved
    case None => Restoration(cleared, true)
    case Some(saved) =>
      if BlockedBy(cleared, row.path) then Restoration(cleared, false)
      else Restoration(WithParents(cleared, row.path) + saved, true)
  }

  /** All rows of an action, highest ordinal first. */
  function RestoreRows(t: Tree, rows: seq<Backup>): Restoration
    decreases |rows|
  {
    if rows == [] then Restoration(t, true)
    else
      var first := RestoreRow(t, rows[|rows| - 1]);
      if !first.ok then first else RestoreRows(first.tree, rows[..|rows| - 1])
  }
}
