# Hugula data binding: context propagation in `BindableObject`

This project models the part of Hugula's data-binding layer that decides when a node re-applies its
bindings: the `BindableObject` base class. A node holds its own context, a context inherited from
an ancestor (which wins whenever it is present), a one-shot force flag, a parent, a target, the
declared list of bindings and a name index over them. The model covers the `context` and
`inheritedContext` setters, inherited-context propagation with its special case for a `"context"`
binding that derives a sub-context, the default re-application pass, the name lookup, the two-way
write-back path, the equality-guarded setter, the `enabled`/`tag` setters and teardown.

Modules:

- `Wrappers`: `Option`. `None` stands for C#'s `null` context.
- `Bindings`: the `Binding` collaborator at its interface only. Its `propertyName`, `path` and
  `mode` are constants, because the node never writes them. Its `target` and `context` are
  fields the node assigns.
- `BindingIndex`: the dictionary that `GetBinding` fills (`Indexed`), the lookup in it (`Find`),
  the "last declaration for a name" reference definition (`LastNamed`), and the lemmas that
  connect them.
- `Propagation`: the reserved names, the `Event` record of outgoing calls, and the call
  sequences of the re-application pass (`ApplyPass`) and of teardown (`DisposeAll`), with their
  order and counting lemmas.
- `Databinding`: the class `BindableObject`, one method per operation, each proved against
  those functions.
- `Scenarios`: client methods that use only the contracts. They walk the equality guard, the
  force flag, the derived-context branch, the pass-through branch, two-way write-back, lookup
  override and teardown.

How the model represents calls and values:

- **Calls recorded in order.** A node's effect on the outside world is a sequence of calls. The
  ghost field `trace` records, in order, every call the node makes:
  - `Apply`, `Unapply` and `Dispose` on a binding. An `Apply` or `Unapply` also records the
    target and context the binding held at that moment.
  - The two overridable hooks.
  - Every `PropertyChanged` it raises.

  Contracts therefore state exactly which calls happen and in which order. For example,
  `OnBindingContextChanging` always comes before any `Apply`, and a two-way `Apply` always comes
  before its notification.
- **Applied once per occurrence.** When the same binding object occurs twice in the list, the
  source applies it twice. The trace states that exactly. Under `Distinct`, "each binding
  exactly once" follows as a lemma (`ApplyPassOnce`, `DisposeAllOnce`).
- **Contexts.** A context is `Option<C>` over any type `C` with equality. Dafny's `==` on `C`
  stands for `Object.Equals`, so for `Option<C>` it matches `Object.Equals(a, b)` with `null`
  on either side.
- **Caller member names are explicit.** The implicit `[CallerMemberName]` names are passed as
  arguments: `"context"` from the `context` setter and `"inheritedContext"` from the
  `inheritedContext` setter.
- **The index as written.** `m_IsbindingsDictionary` is never set to true. So `GetBinding`
  re-inserts every list entry on every call and never removes an entry. The model does the
  same. `IndexedIdempotent` proves that, while the list is unchanged, this gives the same
  dictionary as building it once. The index is not cleared by `OnDestroy`. A binding it still
  holds after teardown stays reachable: `SetInheritedContext` may still unapply and apply a stale
  `"context"` binding. Its frame therefore includes the index's values (`Reachable()`).

Behaviours of the code worth noting:

- **`enabled` and `tag` setters.** They do not go through the equality-guarded `SetProperty`.
  They assign and always notify.
- **Name index.** It is not a one-time cache (see above).
- **`SetParent`.** It can be called any number of times.

## Model

| member | source | states |
|---|---|---|
| `Databinding.BindableObject.constructor` | Client/Assets/Hugula/Databinding/BindableObject.cs:36-105 | a loaded node has its declared bindings and its serialized parent and target, no local or inherited context, the force flag cleared and an empty index |
| `Databinding.BindableObject.Context` | Client/Assets/Hugula/Databinding/BindableObject.cs:49 | the effective context is the inherited context whenever one is present, and the local context otherwise |
| `Databinding.BindableObject.SetContext` | Client/Assets/Hugula/Databinding/BindableObject.cs:48-59 | a value equal to the local context without the force flag changes no field, no binding and records no call; otherwise the flag ends false, the inherited context None, the local and effective context the new value, the calls are the pre-change hook, a "context" notification only when the local value really differed, then the full re-application pass against the new value, and every non-context binding targets the node with that context |
| `Databinding.BindableObject.SetInheritedContextProperty` | Client/Assets/Hugula/Databinding/BindableObject.cs:64-72 | an equal value changes nothing; a different one is stored, followed by exactly an "inheritedContext" notification and the inherited-context hook, with no binding applied |
| `Databinding.BindableObject.SetInheritedContext` | Client/Assets/Hugula/Databinding/BindableObject.cs:132-145 | the local context never changes; an equal value without `force` changes no field and no reachable binding; otherwise the inherited context becomes the value (so it is the effective context when present), the index is refilled, and either a "context" binding with a non-identity path is the only binding touched (hook, then Unapply while the binding still holds its previous target and context, then an initial Apply seeing this node and the effective context) or the hook is followed by the full re-application pass and nothing outside the list is touched |
| `Databinding.BindableObject.PropagateInheritedContext` | Client/Assets/Hugula/Databinding/BindableObject.cs:135-143 | the index is refilled; the calls are the pre-change hook and then, for a "context" binding with a non-identity path, only its Unapply seeing its previous target and context and its initial Apply seeing the node and the effective context, otherwise exactly the default pass; no binding outside the ones named is touched |
| `Databinding.BindableObject.ReapplyContextBinding` | Client/Assets/Hugula/Databinding/BindableObject.cs:137-141 | the derived-context binding is unapplied while it still holds its previous target and context, then pointed at the node and the effective context, then applied as an initial application seeing them |
| `Databinding.BindableObject.OnBindingContextChanged` | Client/Assets/Hugula/Databinding/BindableObject.cs:150-161 | the calls made are exactly the pass over the list in list order: each binding not named "context" ends targeting the node with its effective context and gets one non-initial Apply seeing them; bindings named "context" keep their target and context |
| `Databinding.BindableObject.GetBinding` | Client/Assets/Hugula/Databinding/BindableObject.cs:104-116 | the index becomes the old one with every list entry re-inserted in order (no key lost); the result is the last listed binding of that name when the list declares one, else what the index already held (null when nothing was indexed); a missing name is not an error |
| `Databinding.BindableObject.SetParent` | Client/Assets/Hugula/Databinding/BindableObject.cs:124-126 | the parent becomes the given node and nothing else changes |
| `Databinding.BindableObject.OnPropertyChanged` | Client/Assets/Hugula/Databinding/BindableObject.cs:163-165 | exactly one notification carrying the given name is raised |
| `Databinding.BindableObject.OnPropertyChangedBindingApply` | Client/Assets/Hugula/Databinding/BindableObject.cs:168-174 | the index is refilled; the binding found for the name is applied non-initially only when its mode is "twoway", and before the notification, which is raised in every case |
| `Databinding.BindableObject.SetProperty` | Client/Assets/Hugula/Databinding/BindableObject.cs:176-183 | reports a change exactly when the stored and new values differ; the storage ends holding the new value; exactly one notification with the given name is raised on a change and none otherwise |
| `Databinding.BindableObject.SetEnabled` | Client/Assets/Hugula/Databinding/BindableObject.cs:18-24 | stores the value and always raises one "enabled" notification |
| `Databinding.BindableObject.SetTag` | Client/Assets/Hugula/Databinding/BindableObject.cs:26-32 | stores the value and always raises one "tag" notification |
| `Databinding.BindableObject.OnBindingContextChanging` | Client/Assets/Hugula/Databinding/BindableObject.cs:146-148 | the pre-change hook has no effect beyond its own call |
| `Databinding.BindableObject.OnInheritedContextChanged` | Client/Assets/Hugula/Databinding/BindableObject.cs:128-130 | the inherited-context hook has no effect beyond its own call |
| `Databinding.BindableObject.OnDestroy` | Client/Assets/Hugula/Databinding/BindableObject.cs:191-200 | the calls made are one Dispose per list entry in list order; afterwards the list is empty and the target, both contexts (so the effective context) and the parent are null, while the force flag, index, `enabled` and `tag` are as they were |
| `BindingIndex.Find` | Client/Assets/Hugula/Databinding/BindableObject.cs:113-115 | the lookup yields null exactly when the name has no entry, and the entry otherwise |
| `BindingIndex.Indexed` | Client/Assets/Hugula/Databinding/BindableObject.cs:109-110 | filling the dictionary from a list keeps every earlier key and gives every listed property name an entry |
| `BindingIndex.LastNamed` | Client/Assets/Hugula/Databinding/BindableObject.cs:109-110 | a binding it finds is in the list and carries the requested name |
| `BindingIndex.LastNamedAbsent` | Client/Assets/Hugula/Databinding/BindableObject.cs:109-115 | it finds nothing exactly when no listed binding carries the name |
| `BindingIndex.LastNamedIsLast` | Client/Assets/Hugula/Databinding/BindableObject.cs:109-115 | what it finds sits at a position after which no listed binding carries that name, so the last declaration wins |
| `BindingIndex.IndexedFind` | Client/Assets/Hugula/Databinding/BindableObject.cs:107-116 | after indexing a list, looking a name up gives the last binding the list declares for it, and the earlier dictionary entry only when the list declares none |
| `BindingIndex.IndexedKeys` | Client/Assets/Hugula/Databinding/BindableObject.cs:105-111 | indexing keeps every earlier key and adds exactly the listed property names: the dictionary is never cleared |
| `BindingIndex.IndexedIdempotent` | Client/Assets/Hugula/Databinding/BindableObject.cs:104-111 | re-indexing an unchanged list leaves the dictionary as it was, so re-filling on every lookup behaves like a cache built once |
| `Propagation.ApplyPassSplit` | Client/Assets/Hugula/Databinding/BindableObject.cs:152-160 | the pass runs in list order: the pass over a list is the pass over any prefix followed by the pass over the rest |
| `Propagation.ApplyPassCalls` | Client/Assets/Hugula/Databinding/BindableObject.cs:152-160 | the pass makes no call other than a non-initial Apply of a listed binding not named "context", against the node and the effective context |
| `Propagation.ApplyPassCount` | Client/Assets/Hugula/Databinding/BindableObject.cs:152-160 | the pass applies a binding once per occurrence in the list, and never when it is named "context" |
| `Propagation.ApplyPassOnce` | Client/Assets/Hugula/Databinding/BindableObject.cs:152-160 | over a list without repeats, every non-context binding is applied exactly once and a "context" binding never |
| `Propagation.DisposeAllAt` | Client/Assets/Hugula/Databinding/BindableObject.cs:192-193 | teardown makes one call per list entry, the i-th being the Dispose of the i-th binding |
| `Propagation.DisposeAllOnce` | Client/Assets/Hugula/Databinding/BindableObject.cs:192-193 | over a list without repeats, every listed binding is disposed exactly once and no other binding is |

## Left out

- Unity `MonoBehaviour` behaviour behind `base.enabled` and `base.tag` (enabling and disabling a component, tag validation): they are modelled as plain fields.
- `Start`, the `[SerializeField]`/`[HideInInspector]` attributes and `GetTarget<T>`. These are engine and reflection behaviour. The `target` property is a plain field.
- `Binding.Apply`, `Unapply` and `Dispose` internals (path evaluation, writing into targets, subscriptions): `Binding.cs` is not part of this model. Each call is only recorded. Re-entrant writes back into the node during an `Apply` are not modelled. Neither is an exception escaping one.
- `Apply()` without an argument is modelled as `Apply(false)`. This assumes the parameter defaults to `false`, which cannot be checked because `Binding.cs` is not part of this model.
- Subscribers of `PropertyChanged`: raising the event is recorded whether or not anyone is subscribed. What subscriber code does is not modelled.
- Overrides of the virtual hooks and of `SetInheritedContext`/`OnBindingContextChanged` in subclasses: only the base behaviour is modelled.
- The tree owner that walks children and calls `SetInheritedContext`: it is not part of this model.
- `targetName`, `binderType` and the commented-out `SetBinding`: they carry no logic.
- A null `bindings` list: the list is a sequence, as the engine's loader always supplies one.
- Databinding.BindableObject.SetProperty: reference identity is not distinguished from `Object.Equals`. When the force flag re-assigns a context that is `Equals`-equal but a different object, the source keeps the old object. The model cannot tell the two apart.

## Vocabulary

"Effective context" is `Context()`: the inherited context when present, otherwise the local one.
"Pass" is one run of the default re-application loop.
