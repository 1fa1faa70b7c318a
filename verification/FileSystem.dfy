// One volume as the bridge sees it: directory entries over an inode table.
module FileSystem {
  import opened Wrappers

  type Ino = nat

  // A directory entry: the inode of the directory that holds it, and its base name.  Keying
  // entries by the holder's inode makes a renamed directory carry its contents along.
  datatype Name = Name(dir: Ino, base: string)

  // File contents are represented by their SHA-256 digest.
  datatype Node = File(digest: string) | Directory | Special

  // A private directory made by mkdtemp, and the journal owner that made it.
  datatype Container = Container(ino: Ino, owner: string)

  // `nodes` only grows: an inode number is never reused, even after its last name is gone.
  // `containers` remembers every private directory ever made, `removed` every directory inode
  // the bridge ever removed.
  datatype Disk = Disk(names: map<Name, Ino>, nodes: map<Ino, Node>,
                       containers: map<Name, Container>, removed: set<Ino>)

  datatype FileIdentity = FileIdentity(ino: Ino, digest: string)

  const MOVE_PREFIX := ".nsn-move-"
  const REMOVE_PREFIX := ".nsn-remove-"

  predicate PrivateBase(base: string) {
    MOVE_PREFIX <= base || REMOVE_PREFIX <= base
  }

  predicate IsContainer(k: Disk, ino: Ino) {
    exists n :: n in k.containers && k.containers[n].ino == ino
  }

  // Names that users and other programs work with.
  predicate Public(k: Disk, n: Name) {
    n.dir in k.nodes && !PrivateBase(n.base) && !IsContainer(k, n.dir)
  }

  ghost predicate Reachable(k: Disk, ino: Ino) {
    exists n :: n in k.names && k.names[n] == ino
  }

  predicate Holds(k: Disk, n: Name, ino: Ino) {
    n in k.names && k.names[n] == ino
  }

  predicate Empty(k: Disk, ino: Ino) {
    forall n :: n in k.names ==> n.dir != ino
  }

  predicate WellFormed(k: Disk) {
    && (forall n :: n in k.names ==> n.dir in k.nodes && k.names[n] in k.nodes)
    && (forall n :: n in k.names && PrivateBase(n.base) && !IsContainer(k, n.dir) ==>
          n in k.containers && k.names[n] == k.containers[n].ino)
    && (forall m, n | m in k.names && n in k.names && k.names[m] == k.names[n] ::
          k.nodes[k.names[m]].Directory? ==> m == n)
    && (forall n | n in k.containers :: k.containers[n].ino in k.nodes && k.nodes[k.containers[n].ino].Directory?)
    && (forall m, n | m in k.containers && n in k.containers :: k.containers[m].ino == k.containers[n].ino ==> m == n)
    && (forall n :: n in k.names ==> k.names[n] !in k.removed)
    && k.removed <= k.nodes.Keys
  }

  // ---- what a system call reads ----

  function StatAt(k: Disk, n: Name): Option<Node> {
    if n in k.names && k.names[n] in k.nodes then Some(k.nodes[k.names[n]]) else None
  }

  // physicalFileIdentity: a regular file's inode and the digest of its bytes, one atomic read.
  function FileIdentityAt(k: Disk, n: Name): Option<FileIdentity> {
    var found := StatAt(k, n);
    if found.Some? && found.value.File? then Some(FileIdentity(k.names[n], found.value.digest)) else None
  }

  // samePhysicalIdentity on a real directory.
  predicate DirectoryAt(k: Disk, n: Name, ino: Ino) {
    StatAt(k, n) == Some(Directory) && k.names[n] == ino
  }

  // ---- what a system call changes ----

  datatype Syscall =
    | Link(from: Name, to: Name)
    | Rename(from: Name, to: Name)
    | Unlink(target: Name)
    | Mkdir(target: Name, ino: Ino)
    | Mkdtemp(target: Name, ino: Ino, owner: string)
    | Rmdir(target: Name)
    | Create(target: Name, ino: Ino, node: Node)  // open(O_CREAT | O_EXCL), one step of a recursive copy

  // None is an error return, which changes nothing.
  function Perform(k: Disk, call: Syscall): Option<Disk> {
    match call
    case Link(from, to) =>  // refuses an occupied name, and never links a directory
      if StatAt(k, from).Some? && to !in k.names && !StatAt(k, from).value.Directory?
      then Some(k.(names := k.names[to := k.names[from]])) else None
    case Rename(from, to) =>  // moves whatever the name denotes at that instant
      if from in k.names then Some(k.(names := (k.names - {from})[to := k.names[from]])) else None
    case Unlink(n) =>
      if StatAt(k, n).Some? && !StatAt(k, n).value.Directory? then Some(k.(names := k.names - {n})) else None
    case Mkdir(n, ino) =>  // exclusive, like link()
      if n in k.names then None
      else Some(k.(names := k.names[n := ino], nodes := k.nodes[ino := Directory]))
    case Mkdtemp(n, ino, owner) =>
      if n in k.names then None
      else Some(k.(names := k.names[n := ino], nodes := k.nodes[ino := Directory],
                   containers := k.containers[n := Container(ino, owner)]))
    case Rmdir(n) =>
      if StatAt(k, n) == Some(Directory) && Empty(k, k.names[n])
      then Some(k.(names := k.names - {n}, removed := k.removed + {k.names[n]})) else None
    case Create(n, ino, node) =>
      if n in k.names then None
      else Some(k.(names := k.names[n := ino], nodes := k.nodes[ino := node]))
  }
}
