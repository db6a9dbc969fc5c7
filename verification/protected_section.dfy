/** `ProtectedConfigurationSection`: a decorator over one configuration node
    that forwards navigation unchanged and passes every scalar through a
    protector derived lazily from the wrapped node's path.

    An instance is a value: every operation that may create the protector
    returns the instance as it is afterwards, next to its result. The store
    is shared by all instances over one tree, so writes return it too. */
module ProtectedSection {
  import opened Wrappers
  import opened DataProtection
  import ConfigTree

  /** One decorator instance: the shared provider, the wrapped node, the
      lazy protector slot, and how many times this instance has called the
      provider. */
  datatype Section = Section(
    provider: Provider,
    inner: ConfigTree.Node,
    slot: Option<Protector>,
    providerCalls: nat)
  {
    /** What the lazily initialised field guarantees: the provider has been
        called at most once, exactly when the slot is filled, and the
        protector in the slot was derived from the wrapped node's path. */
    ghost predicate Valid()
    {
      && providerCalls <= 1
      && (slot.None? <==> providerCalls == 0)
      && (slot.Some? ==> slot.value.purpose == inner.path)
    }
  }

  /** The outcome of a scalar read: the plaintext (or null, or the error
      `Unprotect` raised) and the instance after the read. */
  datatype Read = Read(value: Result<Option<string>, CryptoError>, self: Section)

  /** The outcome of a scalar write: the underlying store and the instance
      after the write. */
  datatype Write = Write(store: ConfigTree.Store, self: Section)

  /** The constructor: stores its two arguments and derives nothing. */
  function Wrap(provider: Provider, inner: ConfigTree.Node): (w: Section)
    ensures w.Valid()
    ensures w.provider == provider && w.inner == inner
    ensures w.providerCalls == 0
  {
    Section(provider, inner, None, 0)
  }

  /** `_protector.Value`: the protector in the slot, creating it from the
      wrapped node's path on first use. */
  function LazyProtector(w: Section): (r: (Protector, Section))
    requires w.Valid()
    ensures r.0.purpose == w.inner.path
    ensures w.slot.Some? ==> r.0 == w.slot.value && r.1 == w
    ensures r.1 == w.(slot := Some(r.0), providerCalls := 1)
    ensures r.1.Valid()
  {
    match w.slot
    case Some(p) => (p, w)
    case None =>
      var p := w.provider.CreateProtector(w.inner.path);
      (p, w.(slot := Some(p), providerCalls := w.providerCalls + 1))
  }

  /** `GetProtectedValue`: null stays null without touching the protector;
      a present value is unprotected, and a failure is not caught. */
  function GetProtectedValue(w: Section, raw: Option<string>): (r: Read)
    requires w.Valid()
    ensures r.self.Valid() && r.self.inner == w.inner && r.self.provider == w.provider
    ensures raw.None? ==> r == Read(Success(None), w)
    ensures raw.Some? ==>
      var plain := w.provider.unseal(w.inner.path, raw.value);
      && r.self.providerCalls == 1
      && (r.value.Success? <==> plain.Success?)
      && (plain.Success? ==> r.value.value == Some(plain.value))
      && (plain.Failure? ==> r.value.error == plain.error)
  {
    match raw
    case None => Read(Success(None), w)
    case Some(ciphertext) =>
      var (protector, w') := LazyProtector(w);
      match protector.Unprotect(w.provider, ciphertext)
      case Success(plaintext) => Read(Success(Some(plaintext)), w')
      case Failure(e) => Read(Failure(e), w')
  }

  /** The `value switch` of both setters: protect a string, pass null. */
  function ProtectedForStore(w: Section, value: Option<string>): (r: (Option<string>, Section))
    requires w.Valid()
    ensures r.1.Valid() && r.1.inner == w.inner && r.1.provider == w.provider
    ensures value.None? ==> r == (None, w)
    ensures value.Some? ==>
      r.0 == Some(w.provider.seal(w.inner.path, value.value)) && r.1.providerCalls == 1
  {
    match value
    case None => (None, w)
    case Some(s) =>
      var (protector, w') := LazyProtector(w);
      (Some(protector.Protect(w.provider, s)), w')
  }

  /** `Value` (get). */
  function GetValue(tree: ConfigTree.Tree, store: ConfigTree.Store, w: Section): (r: Read)
    requires w.Valid()
    ensures r.self.Valid() && r.self.inner == w.inner && r.self.provider == w.provider
    ensures ConfigTree.Lookup(tree, store, w.inner.path).None? ==> r == Read(Success(None), w)
    ensures ConfigTree.Lookup(tree, store, w.inner.path).Some? ==>
      var plain := w.provider.unseal(w.inner.path, ConfigTree.Lookup(tree, store, w.inner.path).value);
      && r.self.providerCalls == 1
      && (plain.Success? ==> r.value == Success(Some(plain.value)))
      && (plain.Failure? ==> r.value == Failure(plain.error))
  {
    GetProtectedValue(w, ConfigTree.GetValue(tree, store, w.inner))
  }

  /** `Value` (set). The entry is stored under the node's matching key; the
      protector's purpose is the node's path as navigated. */
  function SetValue(tree: ConfigTree.Tree, store: ConfigTree.Store, w: Section, value: Option<string>): (r: Write)
    requires w.Valid()
    ensures r.self.Valid() && r.self.inner == w.inner && r.self.provider == w.provider
    ensures r.store.Keys == store.Keys + {tree.fold(w.inner.path)}
    ensures forall p :: p in store && p != tree.fold(w.inner.path) ==> r.store[p] == store[p]
    ensures forall q :: tree.fold(q) != tree.fold(w.inner.path) ==>
      ConfigTree.Lookup(tree, r.store, q) == ConfigTree.Lookup(tree, store, q)
    ensures value.None? ==> ConfigTree.Lookup(tree, r.store, w.inner.path) == None && r.self == w
    ensures value.Some? ==>
      ConfigTree.Lookup(tree, r.store, w.inner.path) == Some(w.provider.seal(w.inner.path, value.value)) &&
      r.self.providerCalls == 1
  {
    var (stored, w') := ProtectedForStore(w, value);
    Write(ConfigTree.SetValue(tree, store, w.inner, stored), w')
  }

  /** `this[key]` (get): reads the child's scalar but unprotects it with
      this instance's protector, derived from this node's path. */
  function GetItem(tree: ConfigTree.Tree, store: ConfigTree.Store, w: Section, key: ConfigTree.Key): (r: Read)
    requires w.Valid()
    ensures r.self.Valid() && r.self.inner == w.inner && r.self.provider == w.provider
    ensures ConfigTree.Lookup(tree, store, tree.combine(w.inner.path, key)).None? ==> r == Read(Success(None), w)
    ensures ConfigTree.Lookup(tree, store, tree.combine(w.inner.path, key)).Some? ==>
      var plain := w.provider.unseal(w.inner.path, ConfigTree.Lookup(tree, store, tree.combine(w.inner.path, key)).value);
      && r.self.providerCalls == 1
      && (plain.Success? ==> r.value == Success(Some(plain.value)))
      && (plain.Failure? ==> r.value == Failure(plain.error))
  {
    GetProtectedValue(w, ConfigTree.GetItem(tree, store, w.inner, key))
  }

  /** `this[key]` (set): writes the child's scalar, protected with this
      instance's protector, derived from this node's path. */
  function SetItem(tree: ConfigTree.Tree, store: ConfigTree.Store, w: Section, key: ConfigTree.Key, value: Option<string>): (r: Write)
    requires w.Valid()
    ensures r.self.Valid() && r.self.inner == w.inner && r.self.provider == w.provider
    ensures r.store.Keys == store.Keys + {tree.fold(tree.combine(w.inner.path, key))}
    ensures forall p :: p in store && p != tree.fold(tree.combine(w.inner.path, key)) ==> r.store[p] == store[p]
    ensures forall q :: tree.fold(q) != tree.fold(tree.combine(w.inner.path, key)) ==>
      ConfigTree.Lookup(tree, r.store, q) == ConfigTree.Lookup(tree, store, q)
    ensures value.None? ==> ConfigTree.Lookup(tree, r.store, tree.combine(w.inner.path, key)) == None && r.self == w
    ensures value.Some? ==>
      ConfigTree.Lookup(tree, r.store, tree.combine(w.inner.path, key)) == Some(w.provider.seal(w.inner.path, value.value)) &&
      r.self.providerCalls == 1
  {
    var (stored, w') := ProtectedForStore(w, value);
    Write(ConfigTree.SetItem(tree, store, w.inner, key, stored), w')
  }

  /** `Key`: the wrapped node's key. */
  function Key(w: Section): (r: ConfigTree.Key)
    ensures r == w.inner.key
  {
    w.inner.key
  }

  /** `Path`: the wrapped node's path, which is also the purpose of this
      instance's protector once it exists. */
  function Path(w: Section): (r: ConfigTree.Path)
    ensures r == w.inner.path
    ensures w.Valid() && w.slot.Some? ==> w.slot.value.purpose == r
  {
    w.inner.path
  }

  /** `GetReloadToken()`: the wrapped node's token. */
  function GetReloadToken(tree: ConfigTree.Tree, w: Section): (r: ConfigTree.ChangeToken)
    ensures r == ConfigTree.GetReloadToken(tree, w.inner)
  {
    ConfigTree.GetReloadToken(tree, w.inner)
  }

  /** `GetSection(key)`: a new instance, with the same provider, over the
      node the wrapped node returns; this instance is not touched. */
  function GetSection(tree: ConfigTree.Tree, w: Section, key: ConfigTree.Key): (r: Section)
    ensures r.Valid() && r.providerCalls == 0 && r.provider == w.provider
    ensures r.inner == ConfigTree.GetSection(tree, w.inner, key)
  {
    Wrap(w.provider, ConfigTree.GetSection(tree, w.inner, key))
  }

  /** The `Select` of `GetChildren()`: one new instance per node, in order. */
  function WrapAll(provider: Provider, nodes: seq<ConfigTree.Node>): (r: seq<Section>)
    ensures |r| == |nodes|
    ensures forall i :: 0 <= i < |r| ==>
      r[i].Valid() && r[i].providerCalls == 0 && r[i].provider == provider && r[i].inner == nodes[i]
  {
    if |nodes| == 0 then [] else [Wrap(provider, nodes[0])] + WrapAll(provider, nodes[1..])
  }

  /** `GetChildren()`: the wrapped node's children, each in a new instance. */
  function GetChildren(tree: ConfigTree.Tree, store: ConfigTree.Store, w: Section): (r: seq<Section>)
    ensures |r| == |tree.childKeys(store, w.inner.path)|
    ensures forall i :: 0 <= i < |r| ==>
      r[i].Valid() && r[i].providerCalls == 0 && r[i].provider == w.provider &&
      r[i].inner == ConfigTree.GetSection(tree, w.inner, tree.childKeys(store, w.inner.path)[i])
  {
    WrapAll(w.provider, ConfigTree.GetChildren(tree, store, w.inner))
  }
}
