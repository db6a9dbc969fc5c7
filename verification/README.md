# Protected configuration section — a Dafny model

This project models `ProtectedConfigurationSection`, the decorator that lets
an application keep secrets encrypted inside an ordinary hierarchical
configuration source. The decorator wraps one configuration node. It
forwards navigation (`Key`, `Path`, `GetSection`, `GetChildren`,
`GetReloadToken`) unchanged. Every non-null scalar read goes
through `IDataProtector.Unprotect` and every string write through
`Protect`; null passes through untouched in both directions. The
protector is created lazily, once per instance, from the wrapped node's
`Path`.

Files and modules:

- `wrappers.dfy` (`Wrappers`): `Option` stands for a nullable string.
  `Result` stands for a value or the exception an operation throws.
- `config_tree.dfy` (`ConfigTree`): the wrapped configuration tree. Nodes are
  `Node(key, path)`. Scalars live in a `Store`, a map from matching key to a
  nullable string shared by the whole tree. The library behaviour the
  decorator relies on but does not define is the parameter `Tree`:
  - how a key is joined onto a path (`combine`);
  - which key a node at a path reports (`sectionKey`; the library takes the last path segment);
  - how a path is reduced to the key its value is stored under (`fold`; the library ignores case);
  - which child keys a node has, and the reload token.
- `data_protection.dfy` (`DataProtection`): the provider and its protectors.
  A provider is a pair of functions `seal(purpose, plaintext)` and
  `unseal(purpose, ciphertext)`. `unseal` returns a `Result` so that a
  decryption failure can propagate. What a real provider guarantees is
  stated as two predicates that lemmas take as hypotheses. `RoundTrips`: a
  protector decrypts what a protector of the same purpose encrypted.
  `IsolatesPurposes`: a protector rejects ciphertext made under another purpose.
- `protected_section.dfy` (`ProtectedSection`): the decorator. An instance is
  the value `Section(provider, inner, slot, providerCalls)`. `slot` is the
  `Lazy<IDataProtector>`. `providerCalls` counts this instance's calls to
  `CreateProtector`. `Valid` is the invariant the lazy field keeps: at most
  one call, made exactly when the slot is filled, with the wrapped node's path
  as the purpose. `Wrap` establishes it and every operation preserves it.
  Operations that may create the protector return the instance as it is
  afterwards. Writes also return the updated store.
- `section_properties.dfy` (`SectionProperties`): lemmas relating several
  operations.
- `access_history.dfy` (`AccessHistory`): a history of scalar accesses on one
  instance. Its lemmas state laziness over the instance's whole life.

The indexer is reproduced as written. `this[key]` reads and writes the
child's stored scalar, but it protects and unprotects with this instance's
protector, whose purpose is this node's own `Path`. `GetSection(key).Value`
uses the child's protector, whose purpose is the child's path.
`ItemWriteUnreadableAsChildValue` and `ChildProtectedUnreadableThroughItem`
prove that, under a provider that isolates purposes, a value written one way
cannot be read the other way.

One consequence concerns the intended end-to-end use, in which an operator
stores a value at `db:password` encrypted for the purpose `db:password`. Reading it back works
through `GetSection("password").Value` on the `db` section
(`ChildValueReadsPathProtected`). It does not work through the indexer
`db["password"]`, which unprotects with the purpose `db`
(`ChildProtectedUnreadableThroughItem`). The model follows the code.

## Model

| member | source | states |
|---|---|---|
| ProtectedSection.Wrap | ConfigDataProtection/ProtectedConfigurationExtensions.cs:27-33 | Construction makes no provider call and leaves the protector uncreated. The instance satisfies the lazy-field invariant, so the purpose it will later use is the wrapped node's `Path`. |
| ProtectedSection.LazyProtector | ConfigDataProtection/ProtectedConfigurationExtensions.cs:25-32 | `_protector.Value` yields a protector whose purpose is the wrapped node's path. An existing protector is returned unchanged without a new call. Afterwards the provider has been called exactly once in total. |
| ProtectedSection.GetProtectedValue | ConfigDataProtection/ProtectedConfigurationExtensions.cs:66-71 | Null yields null and leaves the instance untouched. A present value yields what `Unprotect` under the node's path yields. A failure is returned as that same error, not swallowed. |
| ProtectedSection.ProtectedForStore | ConfigDataProtection/ProtectedConfigurationExtensions.cs:46-50 | The setters' `value switch`: null passes through without touching the protector. A string becomes its ciphertext under the node's path, and the protector then exists. |
| ProtectedSection.GetValue | ConfigDataProtection/ProtectedConfigurationExtensions.cs:56-58 | Reading `Value` over a null or missing stored scalar returns null and creates no protector. Over a present scalar, it returns the plaintext, or the error, that unprotecting it under the node's path gives. |
| ProtectedSection.SetValue | ConfigDataProtection/ProtectedConfigurationExtensions.cs:59-63 | Writing `Value` stores null unencrypted without creating the protector, or stores the ciphertext made under the node's path. The entry goes under the node's matching key, and no entry under another matching key changes. |
| ProtectedSection.GetItem | ConfigDataProtection/ProtectedConfigurationExtensions.cs:43-45 | `this[key]` reads the child path's scalar. Null returns null without a protector. A present value is unprotected under this node's own path, not the child's. |
| ProtectedSection.SetItem | ConfigDataProtection/ProtectedConfigurationExtensions.cs:46-50 | `this[key] = v` writes the child path's scalar: null unencrypted, a string protected under this node's own path. No entry under another matching key changes. |
| ProtectedSection.Key | ConfigDataProtection/ProtectedConfigurationExtensions.cs:53 | `Key` reports the wrapped node's key. What navigation and scalar access do to it is proved in `IdentityForwarded`. |
| ProtectedSection.Path | ConfigDataProtection/ProtectedConfigurationExtensions.cs:54 | `Path` reports the wrapped node's path. For a valid instance it is also the purpose of the protector once created (line 32). What navigation and scalar access do to it is proved in `IdentityForwarded`. |
| ProtectedSection.GetReloadToken | ConfigDataProtection/ProtectedConfigurationExtensions.cs:41 | `GetReloadToken()` returns the wrapped node's token unchanged. `IdentityForwarded` proves a navigated instance reports the same token. |
| ProtectedSection.GetSection | ConfigDataProtection/ProtectedConfigurationExtensions.cs:35-36 | Returns a new instance over exactly the node the wrapped tree returns for the key. It has the same provider and no protector. |
| ProtectedSection.WrapAll | ConfigDataProtection/ProtectedConfigurationExtensions.cs:39 | The `Select` gives one new instance per node, in the same order and count. Each has the shared provider and no protector. |
| ProtectedSection.GetChildren | ConfigDataProtection/ProtectedConfigurationExtensions.cs:38-39 | One new instance per child key of the wrapped node, in the tree's order. Each wraps the tree's child node and has no protector. |
| SectionProperties.ValueRoundTrip | ConfigDataProtection/ProtectedConfigurationExtensions.cs:56-71 | Given a round-tripping provider, writing `s` to `Value` and reading `Value` back on the same instance yields `s`. The provider has then been called exactly once. |
| SectionProperties.ItemRoundTrip | ConfigDataProtection/ProtectedConfigurationExtensions.cs:43-51 | Given a round-tripping provider, writing `s` to `this[key]` and reading `this[key]` back yields `s`. Both directions use the own-path protector. |
| SectionProperties.RewrappedReadBack | ConfigDataProtection/ProtectedConfigurationExtensions.cs:27-36 | A value written through one instance is read back by any other instance over the same node, such as a freshly navigated one. |
| SectionProperties.ChildValueReadsPathProtected | ConfigDataProtection/ProtectedConfigurationExtensions.cs:35-36 | A scalar encrypted for the child's full path is decrypted by `GetSection(key).Value`. |
| SectionProperties.MatchingPathOtherPurposeUnreadable | ConfigDataProtection/ProtectedConfigurationExtensions.cs:32 | Under a provider that isolates purposes, a value protected for one path is rejected when read through another path. This holds even when the second path finds the same stored entry, as paths differing only in case do, because the purpose is the path as navigated. |
| SectionProperties.ItemWriteUnreadableAsChildValue | ConfigDataProtection/ProtectedConfigurationExtensions.cs:46-48 | Under a provider that isolates purposes, a string written through `this[key]` fails when read through `GetSection(key).Value`. This holds whenever the child path differs from the parent's. |
| SectionProperties.ChildProtectedUnreadableThroughItem | ConfigDataProtection/ProtectedConfigurationExtensions.cs:43-45 | Under a provider that isolates purposes, a scalar encrypted for the child's path fails when read through `this[key]`. |
| SectionProperties.NullChildReadsAgree | ConfigDataProtection/ProtectedConfigurationExtensions.cs:45 | Over a null child scalar, `this[key]` and `GetSection(key).Value` both return null. The parent instance is returned unchanged, whatever the state of its protector, and the navigated child creates no protector. |
| SectionProperties.IdentityForwarded | ConfigDataProtection/ProtectedConfigurationExtensions.cs:35-54 | A navigated instance reports the tree's combined path, the key the tree assigns to that path, and the parent's reload token. Reads and writes through `Value` and `this[key]` never change an instance's `Key` or `Path`. |
| SectionProperties.ChildrenMirrorTree | ConfigDataProtection/ProtectedConfigurationExtensions.cs:38-39 | The children's keys and paths equal the wrapped node's children's keys and paths, in the same order. Every child instance starts without a protector. |
| AccessHistory.Step | ConfigDataProtection/ProtectedConfigurationExtensions.cs:43-64 | After one scalar access, the instance still has no protector exactly when it had none before and the access met only nulls. |
| AccessHistory.RunIsLazy | ConfigDataProtection/ProtectedConfigurationExtensions.cs:25-71 | Over any history of accesses, the provider is called at most once and a created protector is never lost. The protector is created exactly when some access wrote a string or read a non-null stored value. |
| AccessHistory.ProtectorReused | ConfigDataProtection/ProtectedConfigurationExtensions.cs:32-69 | Once created, the protector stays in the slot through any later history, and the provider is not called again. |

## Left out

- `ConfigureProtected`: dependency-injection registration. Its `Get<TOptions>()` is reflection-based binding inside a library that is not part of this model.
- `ConfigCreator/Program.cs`: console hosting, output and process exit. Its argument pattern requires three arguments and discards the first, although its usage text (Program.cs:9) shows two. It is not modelled. The property it relies on is covered by `ChildValueReadsPathProtected`: a value encrypted for a path is read back by navigating to that path.
- The cryptography and key derivation of the provider. `seal` and `unseal` are parameters, and their round-trip and isolation properties are hypotheses.
- Thread safety of `Lazy<T>`. The model is sequential, and the lazy slot is an `Option` field.
- The configuration library's internals: path joining, the key a path reports, case-insensitive key matching, child enumeration and reload tokens. They are the `Tree` parameter.
- Object identity. Instances are values, so "a new instance" means one built by `Wrap`: empty slot, zero provider calls. Two instances over the same node are independent because each carries its own slot.
- `GetReloadToken`: a pure passthrough, stated as such in `IdentityForwarded`. The token itself is opaque.
- Exceptions from the provider. `CreateProtector` and `Protect` are total here, but in the library either can throw, for example when the key ring is unavailable. A throwing `Protect` in a setter leaves the store unwritten. `Lazy<T>` caches an exception from `CreateProtector` and rethrows it on every later access without calling the provider again. None of these failure paths is modelled. Only `Unprotect` can fail.
- ProtectedSection.SetValue and ProtectedSection.SetItem: the stored ciphertext is `seal(path, s)`, one fixed string, because `seal` is a function. The library's `Protect` is randomised, so it only promises some ciphertext that `Unprotect` under the same purpose turns back into `s`. The exact-ciphertext clauses hold for the model, not for the library. The round-trip lemmas state what the library does promise.
- ProtectedSection.GetChildren: the source returns a deferred `Select`, so each enumeration re-reads the tree and builds new instances. The model returns one finished sequence for the store as it is at the call. Calling it again on a changed store gives the new children.
- A failed read throws in the source. In `AccessHistory.Run` it is recorded as that access's outcome and the history continues. This is the same as a caller that catches the exception and goes on.
