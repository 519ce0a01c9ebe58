/** The repository values the external-tool workflows read and produce: paths
    inside a tree, the values stored at them, and trees themselves. Object ids
    are whatever the store hands out. */
module Repo {

  /** A path inside the repository, as its components; the root is `[]`. */
  type RepoPath = seq<string>

  type FileId = nat
  type ConflictId = nat
  type TreeId = nat

  /** What a tree holds at a path. */
  datatype TreeValue =
    | File(fileId: FileId, executable: bool)
    | Symlink(target: string)
    | Subtree(treeId: TreeId)
    | GitSubmodule(commit: nat)
    | Conflict(conflictId: ConflictId)

  /** A stored tree: its id and the value at each path it holds. */
  datatype Tree = Tree(id: TreeId, entries: map<RepoPath, TreeValue>)

  /** A failure reported by the store. */
  datatype BackendError = BackendError(message: string)
}
