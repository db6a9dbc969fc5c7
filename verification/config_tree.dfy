/** The hierarchical configuration tree the decorator wraps. The tree is a
    library collaborator whose internals are not part of this model, so the
    way it joins a key onto a path, enumerates children and hands out change
    tokens is a parameter (`Tree`); the scalar values live in a `Store` keyed
    by full path, shared by every node of one tree. */
module ConfigTree {
  import opened Wrappers

  /** A node's own name, unique among its siblings. */
  type Key = string

  /** A node's position from the root; the root's path is the empty string. */
  type Path = string

  /** One addressable point of the tree: its key and its full path. */
  datatype Node = Node(key: Key, path: Path)

  /** Scalar values by matching key (see `Tree.fold`). A missing entry and
      an entry holding `None` both read as null; writing null keeps the
      entry with `None`. */
  type Store = map<Path, Option<string>>

  /** An opaque change-notification handle. */
  datatype ChangeToken = ChangeToken(generation: nat)

  /** The library behaviour the model leaves abstract: how a child key is
      joined onto a parent path, which key a node at a given path reports
      (the library takes the path's last segment), how a path is reduced to
      the key its value is stored under (the library's providers match keys
      ignoring case), which child keys a node has in a given store (in the
      library's order), and the token signalling a reload. */
  datatype Tree = Tree(
    combine: (Path, Key) -> Path,
    sectionKey: Path -> Key,
    fold: Path -> Path,
    childKeys: (Store, Path) -> seq<Key>,
    reloadToken: ChangeToken)

  /** The scalar stored for `path`, or null. */
  function Lookup(tree: Tree, store: Store, path: Path): Option<string>
  {
    if tree.fold(path) in store then store[tree.fold(path)] else None
  }

  /** Stores `value` for `path`. */
  function Assign(tree: Tree, store: Store, path: Path, value: Option<string>): Store
  {
    store[tree.fold(path) := value]
  }

  /** `node.Value` (get). */
  function GetValue(tree: Tree, store: Store, node: Node): Option<string>
  {
    Lookup(tree, store, node.path)
  }

  /** `node.Value` (set). */
  function SetValue(tree: Tree, store: Store, node: Node, value: Option<string>): Store
  {
    Assign(tree, store, node.path, value)
  }

  /** `node[key]` (get): the scalar at the child path. */
  function GetItem(tree: Tree, store: Store, node: Node, key: Key): Option<string>
  {
    Lookup(tree, store, tree.combine(node.path, key))
  }

  /** `node[key]` (set): writes the scalar at the child path. */
  function SetItem(tree: Tree, store: Store, node: Node, key: Key, value: Option<string>): Store
  {
    Assign(tree, store, tree.combine(node.path, key), value)
  }

  /** `node.GetSection(key)`: never fails; an absent key yields an empty node. */
  function GetSection(tree: Tree, node: Node, key: Key): Node
  {
    var path := tree.combine(node.path, key);
    Node(tree.sectionKey(path), path)
  }

  /** `node.GetChildren()`: one node per child key, in the tree's order. */
  function GetChildren(tree: Tree, store: Store, node: Node): seq<Node>
  {
    var keys := tree.childKeys(store, node.path);
    seq(|keys|, i requires 0 <= i < |keys| => GetSection(tree, node, keys[i]))
  }

  /** `node.GetReloadToken()`. */
  function GetReloadToken(tree: Tree, node: Node): ChangeToken
  {
    tree.reloadToken
  }
}
