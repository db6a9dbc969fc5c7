/** Properties relating several decorator operations: write-then-read round
    trips, the identifier each access path uses, and structural fidelity
    with the wrapped tree. */
module SectionProperties {
  import opened Wrappers
  import ConfigTree
  import opened ProtectedSection

  /** Writing `s` through `Value` and reading `Value` back on the same
      instance yields `s`, and the protector then exists exactly once. */
  lemma ValueRoundTrip(tree: ConfigTree.Tree, store: ConfigTree.Store, w: Section, s: string)
    requires w.Valid() && w.provider.RoundTrips()
    ensures var written := SetValue(tree, store, w, Some(s));
            var read := GetValue(tree, written.store, written.self);
            read.value == Success(Some(s)) && read.self.providerCalls == 1
  {
  }

  /** Writing `s` through `this[key]` and reading `this[key]` back on the
      same instance yields `s`: both directions use this node's protector. */
  lemma ItemRoundTrip(tree: ConfigTree.Tree, store: ConfigTree.Store, w: Section, key: ConfigTree.Key, s: string)
    requires w.Valid() && w.provider.RoundTrips()
    ensures var written := SetItem(tree, store, w, key, Some(s));
            var read := GetItem(tree, written.store, written.self, key);
            read.value == Success(Some(s)) && read.self.providerCalls == 1
  {
  }

  /** A value written through one instance is read back by any other
      instance over the same node, such as one obtained by navigating to
      the same path again: instances share no state but the store. */
  lemma RewrappedReadBack(tree: ConfigTree.Tree, store: ConfigTree.Store, w: Section, other: Section, s: string)
    requires w.Valid() && other.Valid() && w.provider.RoundTrips()
    requires other.provider == w.provider && other.inner == w.inner
    ensures var written := SetValue(tree, store, w, Some(s));
            GetValue(tree, written.store, other).value == Success(Some(s))
  {
  }

  /** A ciphertext made for the child's full path (as a value produced
      offline for `section:key` is) is decrypted by navigating to the child
      and reading its `Value`. */
  lemma ChildValueReadsPathProtected(tree: ConfigTree.Tree, store: ConfigTree.Store, w: Section, key: ConfigTree.Key, s: string)
    requires w.Valid() && w.provider.RoundTrips()
    requires ConfigTree.Lookup(tree, store, tree.combine(w.inner.path, key)) ==
             Some(w.provider.seal(tree.combine(w.inner.path, key), s))
    ensures GetValue(tree, store, GetSection(tree, w, key)).value == Success(Some(s))
  {
  }

  /** Matching keys are not matching purposes: when two paths find the
      same stored entry (the library ignores case) but differ as strings,
      a value protected for one is rejected when read through the other,
      under a provider that isolates purposes. */
  lemma MatchingPathOtherPurposeUnreadable(tree: ConfigTree.Tree, store: ConfigTree.Store, w: Section, written: ConfigTree.Path, s: string)
    requires w.Valid() && w.provider.IsolatesPurposes()
    requires tree.fold(written) == tree.fold(w.inner.path) && written != w.inner.path
    requires ConfigTree.Lookup(tree, store, written) == Some(w.provider.seal(written, s))
    ensures GetValue(tree, store, w).value.Failure?
  {
  }

  /** The indexer does not agree with navigation: `this[key]` protects with
      this node's path, `GetSection(key).Value` unprotects the same stored
      entry with the child's path, so under a provider that isolates
      purposes a value written one way cannot be read the other way. */
  lemma ItemWriteUnreadableAsChildValue(tree: ConfigTree.Tree, store: ConfigTree.Store, w: Section, key: ConfigTree.Key, s: string)
    requires w.Valid() && w.provider.IsolatesPurposes()
    requires tree.combine(w.inner.path, key) != w.inner.path
    ensures var written := SetItem(tree, store, w, key, Some(s));
            GetValue(tree, written.store, GetSection(tree, written.self, key)).value.Failure?
  {
  }

  /** The converse: a value protected for the child's path, which
      `GetSection(key).Value` reads, is rejected by `this[key]`. */
  lemma ChildProtectedUnreadableThroughItem(tree: ConfigTree.Tree, store: ConfigTree.Store, w: Section, key: ConfigTree.Key, s: string)
    requires w.Valid() && w.provider.IsolatesPurposes()
    requires tree.combine(w.inner.path, key) != w.inner.path
    requires ConfigTree.Lookup(tree, store, tree.combine(w.inner.path, key)) ==
             Some(w.provider.seal(tree.combine(w.inner.path, key), s))
    ensures GetItem(tree, store, w, key).value.Failure?
  {
  }

  /** Both ways of reading a child's scalar agree on null: the parent
      instance is returned unchanged, whatever the state of its protector,
      and the navigated child creates no protector. */
  lemma NullChildReadsAgree(tree: ConfigTree.Tree, store: ConfigTree.Store, w: Section, key: ConfigTree.Key)
    requires w.Valid()
    requires ConfigTree.Lookup(tree, store, tree.combine(w.inner.path, key)).None?
    ensures GetItem(tree, store, w, key) == Read(Success(None), w)
    ensures var child := GetValue(tree, store, GetSection(tree, w, key));
            child.value == Success(None) && child.self.providerCalls == 0
  {
  }

  /** Navigation keeps `Key` and `Path`: the instance `GetSection(key)`
      returns reports the path the wrapped tree combines and the key the
      tree assigns to that path, and reads and writes never change an
      instance's identity or its reload token. */
  lemma IdentityForwarded(tree: ConfigTree.Tree, store: ConfigTree.Store, w: Section, key: ConfigTree.Key, value: Option<string>)
    requires w.Valid()
    ensures Path(GetSection(tree, w, key)) == tree.combine(Path(w), key)
    ensures Key(GetSection(tree, w, key)) == tree.sectionKey(tree.combine(Path(w), key))
    ensures GetReloadToken(tree, GetSection(tree, w, key)) == GetReloadToken(tree, w)
    ensures Key(GetValue(tree, store, w).self) == Key(w) && Path(GetValue(tree, store, w).self) == Path(w)
    ensures Key(SetValue(tree, store, w, value).self) == Key(w) && Path(SetValue(tree, store, w, value).self) == Path(w)
    ensures Key(GetItem(tree, store, w, key).self) == Key(w) && Path(GetItem(tree, store, w, key).self) == Path(w)
    ensures Key(SetItem(tree, store, w, key, value).self) == Key(w) && Path(SetItem(tree, store, w, key, value).self) == Path(w)
  {
  }

  /** The keys of a sequence of instances, as each reports it. */
  function KeysOf(sections: seq<Section>): seq<ConfigTree.Key>
  {
    seq(|sections|, i requires 0 <= i < |sections| => Key(sections[i]))
  }

  /** The paths of a sequence of instances, as each reports it. */
  function PathsOf(sections: seq<Section>): seq<ConfigTree.Path>
  {
    seq(|sections|, i requires 0 <= i < |sections| => Path(sections[i]))
  }

  /** `GetChildren()` mirrors the wrapped node's children: the same keys and
      paths in the same order, every instance new and without a protector. */
  lemma ChildrenMirrorTree(tree: ConfigTree.Tree, store: ConfigTree.Store, w: Section)
    ensures var children := GetChildren(tree, store, w);
            var nodes := ConfigTree.GetChildren(tree, store, w.inner);
            && KeysOf(children) == seq(|nodes|, i requires 0 <= i < |nodes| => nodes[i].key)
            && PathsOf(children) == seq(|nodes|, i requires 0 <= i < |nodes| => nodes[i].path)
            && forall i :: 0 <= i < |children| ==> children[i].providerCalls == 0
  {
  }
}
