/**
 * A bindable node: its own context, the context inherited from an ancestor, a one-shot
 * force flag, a parent reference, a target, and the declared list of bindings with the
 * name index that GetBinding fills. Every call the node makes on a collaborator, and every
 * PropertyChanged it raises, is appended to the ghost `trace` in the order made.
 */
module Databinding {
  import opened Wrappers
  import opened Bindings
  import opened BindingIndex
  import opened Propagation

  class BindableObject<C(==)> {
    var parent: BindableObject?<C>
    /** The locally set context (m_Context). */
    var localContext: Option<C>
    /** The context supplied by an ancestor (m_InheritedContext). */
    var inheritedContext: Option<C>
    var forceContextChanged: bool
    var target: object?
    var bindings: seq<Binding<C>>
    /** The name index (m_BindingsDic); GetBinding adds to it and nothing clears it. */
    var bindingsIndex: map<string, Binding<C>>
    var enabled: bool
    var tag: string
    ghost var trace: seq<Event<C>>

    /** A node as the engine loads it: the declared bindings and the serialized parent and
        target; no context yet, the force flag down and the index empty. */
    constructor (bindings: seq<Binding<C>>, parent: BindableObject?<C>, target: object?, enabled: bool, tag: string)
      ensures this.bindings == bindings && this.enabled == enabled && this.tag == tag
      ensures this.parent == parent && this.target == target && bindingsIndex == map[]
      ensures localContext == None && inheritedContext == None && !forceContextChanged
      ensures trace == []
    {
      this.parent := parent;
      localContext := None;
      inheritedContext := None;
      forceContextChanged := false;
      this.target := target;
      this.bindings := bindings;
      bindingsIndex := map[];
      this.enabled := enabled;
      this.tag := tag;
      trace := [];
    }

    /** The effective context (the `context` getter): the inherited one when there is one. */
    function Context(): (r: Option<C>)
      reads this`inheritedContext, this`localContext
      ensures inheritedContext.Some? ==> r == inheritedContext
      ensures inheritedContext.None? ==> r == localContext
    {
      if inheritedContext.Some? then inheritedContext else localContext
    }

    /** The bindings the node can reach: the declared list and whatever the index still holds. */
    ghost function Reachable(): set<Binding<C>>
      reads this`bindings, this`bindingsIndex
    {
      (set b | b in bindings) + bindingsIndex.Values
    }

    /** After a "context changed" pass over `bs`: every binding not named "context" targets
        this node with its effective context; those named "context" are as they were. */
    twostate predicate Reapplied(bs: seq<Binding<C>>)
      reads this, bs
    {
      forall b :: b in bs ==>
        if b.propertyName != ContextProperty then b.target == this && b.context == Context()
        else b.target == old(b.target) && b.context == old(b.context)
    }

    /** The bindings of `bs` keep the target and context they had. */
    twostate predicate Untouched(bs: set<Binding<C>>)
      reads bs
    {
      forall b :: b in bs ==> b.target == old(b.target) && b.context == old(b.context)
    }

    /** Raise PropertyChanged for `propertyName`. */
    method OnPropertyChanged(propertyName: string)
      modifies this`trace
      ensures trace == old(trace) + [Notified(propertyName)]
    {
      trace := trace + [Notified(propertyName)];
    }

    /** The pre-change hook; it does nothing by default, so only the call is recorded. */
    method OnBindingContextChanging()
      modifies this`trace
      ensures trace == old(trace) + [ContextChanging]
    {
      trace := trace + [ContextChanging];
    }

    /** The hook run after the inheritedContext property changes; only the call is recorded. */
    method OnInheritedContextChanged()
      modifies this`trace
      ensures trace == old(trace) + [InheritedContextChanged]
    {
      trace := trace + [InheritedContextChanged];
    }

    /** The equality-guarded setter: `stored` is what the caller's storage holds afterwards. */
    method SetProperty<T(==)>(storage: T, value: T, propertyName: string) returns (changed: bool, stored: T)
      modifies this`trace
      ensures changed <==> storage != value
      ensures stored == value
      ensures trace == old(trace) + if changed then [Notified(propertyName)] else []
    {
      if storage == value {
        return false, storage;
      }
      stored := value;
      OnPropertyChanged(propertyName);
      changed := true;
    }

    /** The `enabled` setter: assigns and always notifies, with no equality guard. */
    method SetEnabled(value: bool)
      modifies this`enabled, this`trace
      ensures enabled == value
      ensures trace == old(trace) + [Notified(EnabledProperty)]
    {
      enabled := value;
      OnPropertyChanged(EnabledProperty);
    }

    /** The `tag` setter: assigns and always notifies, with no equality guard. */
    method SetTag(value: string)
      modifies this`tag, this`trace
      ensures tag == value
      ensures trace == old(trace) + [Notified(TagProperty)]
    {
      tag := value;
      OnPropertyChanged(TagProperty);
    }

    method SetParent(parent: BindableObject?<C>)
      modifies this`parent
      ensures this.parent == parent
    {
      this.parent := parent;
    }

    /** Fill the index from the list in list order, then look `property` up. A name the list
        does not declare yields whatever the index already held for it, usually null. */
    method GetBinding(property: string) returns (binding: Binding?<C>)
      modifies this`bindingsIndex
      ensures bindingsIndex == Indexed(old(bindingsIndex), bindings)
      ensures old(bindingsIndex).Keys <= bindingsIndex.Keys
      ensures binding == Find(bindingsIndex, property)
      ensures LastNamed(bindings, property) != null ==> binding == LastNamed(bindings, property)
      ensures LastNamed(bindings, property) == null ==> binding == Find(old(bindingsIndex), property)
    {
      for i := 0 to |bindings|
        invariant bindingsIndex == Indexed(old(bindingsIndex), bindings[..i])
      {
        var item := bindings[i];
        assert bindings[..i + 1][..i] == bindings[..i];
        bindingsIndex := bindingsIndex[item.propertyName := item];
      }
      assert bindings[..|bindings|] == bindings;
      IndexedKeys(old(bindingsIndex), bindings);
      IndexedFind(old(bindingsIndex), bindings, property);
      binding := Find(bindingsIndex, property);
    }

    /** The default post-change pass: in list order, each binding not named "context" is
        pointed at this node and its effective context, then applied. */
    method OnBindingContextChanged()
      modifies this`trace, bindings
      ensures trace == old(trace) + ApplyPass(bindings, this, Context())
      ensures Reapplied(bindings)
    {
      for i := 0 to |bindings|
        invariant trace == old(trace) + ApplyPass(bindings[..i], this, Context())
        invariant forall b :: b in bindings[..i] && b.propertyName != ContextProperty ==>
          b.target == this && b.context == Context()
        invariant forall b :: b in bindings && b.propertyName == ContextProperty ==>
          b.target == old(b.target) && b.context == old(b.context)
      {
        var binding := bindings[i];
        assert bindings[..i + 1][..i] == bindings[..i];
        if binding.propertyName != ContextProperty {
          binding.target := this;
          binding.context := Context();
          trace := trace + [Applied(binding, false, binding.target, binding.context)];
        }
      }
      assert bindings[..|bindings|] == bindings;
    }

    /** The `context` setter: proceeds when the value differs from the local context or the
        force flag is set; it then clears the flag and the inherited context, notifies
        "context" only if the local value really changed, and re-applies the bindings. */
    method SetContext(value: Option<C>)
      modifies this`localContext, this`inheritedContext, this`forceContextChanged, this`trace, bindings
      ensures old(localContext) == value && !old(forceContextChanged) ==>
        unchanged(this) && Untouched(set b | b in bindings)
      ensures old(localContext) != value || old(forceContextChanged) ==>
        && localContext == value && inheritedContext == None && !forceContextChanged
        && Context() == value
        && trace == old(trace) + [ContextChanging]
                   + (if old(localContext) != value then [Notified(ContextProperty)] else [])
                   + ApplyPass(bindings, this, value)
        && Reapplied(bindings)
    {
      if localContext != value || forceContextChanged {
        forceContextChanged := false;
        inheritedContext := None;
        OnBindingContextChanging();
        var changed;
        changed, localContext := SetProperty(localContext, value, ContextProperty);
        OnBindingContextChanged();
      }
    }

    /** The `inheritedContext` setter: on a real change, assigns, notifies "inheritedContext"
        and runs the inherited-context hook; it re-applies no binding. */
    method SetInheritedContextProperty(value: Option<C>)
      modifies this`inheritedContext, this`trace
      ensures old(inheritedContext) == value ==> unchanged(this)
      ensures old(inheritedContext) != value ==>
        && inheritedContext == value
        && trace == old(trace) + [Notified(InheritedContextProperty), InheritedContextChanged]
    {
      if inheritedContext != value {
        var changed;
        changed, inheritedContext := SetProperty(inheritedContext, value, InheritedContextProperty);
        OnInheritedContextChanged();
      }
    }

    /** The derived-context branch of SetInheritedContext: unapply the binding while it still
        holds its previous target and context, then point it at this node and its effective
        context, then apply it as an initial application. */
    method ReapplyContextBinding(binding: Binding<C>)
      modifies this`trace, binding
      ensures trace == old(trace) + [Unapplied(binding, old(binding.target), old(binding.context)),
                                     Applied(binding, true, this, Context())]
      ensures binding.target == this && binding.context == Context()
    {
      trace := trace + [Unapplied(binding, binding.target, binding.context)];
      binding.target := this;
      binding.context := Context();
      trace := trace + [Applied(binding, true, binding.target, binding.context)];
    }

    /** What SetInheritedContext does once its guard passes and the inherited context is
        assigned: the pre-change hook, then either the derived-context branch for a binding
        found under "context" with a path other than ".", or the default pass. */
    method PropagateInheritedContext()
      modifies this`bindingsIndex, this`trace, Reachable()
      ensures bindingsIndex == Indexed(old(bindingsIndex), bindings)
      ensures
        var contextBinding := Find(bindingsIndex, ContextProperty);
        if contextBinding != null && contextBinding.path != IdentityPath then
          && trace == old(trace) + [ContextChanging,
                                    Unapplied(contextBinding, old(contextBinding.target), old(contextBinding.context)),
                                    Applied(contextBinding, true, this, Context())]
          && contextBinding.target == this && contextBinding.context == Context()
          && Untouched(old(Reachable()) - {contextBinding})
        else
          && trace == old(trace) + [ContextChanging] + ApplyPass(bindings, this, Context())
          && Reapplied(bindings)
          && Untouched(old(Reachable()) - set b | b in bindings)
    {
      OnBindingContextChanging();
      var contextBinding := GetBinding(ContextProperty);
      if contextBinding != null && contextBinding.path != IdentityPath {
        ReapplyContextBinding(contextBinding);
      } else {
        OnBindingContextChanged();
      }
    }

    /** Called by the tree owner when an ancestor's context changes. Proceeds when the value
        differs from the inherited context or `force` is set; it then assigns the inherited
        context without notifying. A binding found under "context" with a path other than "."
        is unapplied, pointed at this node and its effective context and applied as an initial
        application, and nothing else is applied; otherwise the default pass runs. */
    method SetInheritedContext(value: Option<C>, force: bool)
      modifies this`inheritedContext, this`bindingsIndex, this`trace, Reachable()
      ensures localContext == old(localContext)
      ensures old(inheritedContext) == value && !force ==>
        unchanged(this) && Untouched(old(Reachable()))
      ensures old(inheritedContext) != value || force ==>
        inheritedContext == value && Context() == (if value.Some? then value else localContext) &&
        bindingsIndex == Indexed(old(bindingsIndex), bindings)
      ensures old(inheritedContext) != value || force ==>
        var contextBinding := Find(bindingsIndex, ContextProperty);
        if contextBinding != null && contextBinding.path != IdentityPath then
          && trace == old(trace) + [ContextChanging,
                                    Unapplied(contextBinding, old(contextBinding.target), old(contextBinding.context)),
                                    Applied(contextBinding, true, this, Context())]
          && contextBinding.target == this && contextBinding.context == Context()
          && Untouched(old(Reachable()) - {contextBinding})
        else
          && trace == old(trace) + [ContextChanging] + ApplyPass(bindings, this, Context())
          && Reapplied(bindings)
          && Untouched(old(Reachable()) - set b | b in bindings)
    {
      if inheritedContext != value || force {
        inheritedContext := value;
        PropagateInheritedContext();
      }
    }

    /** Raise PropertyChanged for `propertyName`, first applying (not as an initial
        application) the binding indexed under that name when its mode is two-way. */
    method OnPropertyChangedBindingApply(propertyName: string)
      modifies this`bindingsIndex, this`trace
      ensures bindingsIndex == Indexed(old(bindingsIndex), bindings)
      ensures var binding := Find(bindingsIndex, propertyName);
        trace == old(trace)
                 + (if binding != null && binding.mode == TwoWayMode
                    then [Applied(binding, false, binding.target, binding.context)] else [])
                 + [Notified(propertyName)]
    {
      var binding := GetBinding(propertyName);
      if binding != null && binding.mode == TwoWayMode {
        trace := trace + [Applied(binding, false, binding.target, binding.context)];
      }
      trace := trace + [Notified(propertyName)];
    }

    /** Teardown: dispose every listed binding in list order, empty the list and drop the
        target, both contexts and the parent. The index is left as it was. */
    method OnDestroy()
      modifies this
      ensures trace == old(trace) + DisposeAll(old(bindings))
      ensures bindings == [] && target == null && parent == null
      ensures localContext == None && inheritedContext == None && Context() == None
      ensures bindingsIndex == old(bindingsIndex) && forceContextChanged == old(forceContextChanged)
      ensures enabled == old(enabled) && tag == old(tag)
    {
      for i := 0 to |bindings|
        modifies this`trace
        invariant trace == old(trace) + DisposeAll(bindings[..i])
      {
        assert bindings[..i + 1][..i] == bindings[..i];
        trace := trace + [Disposed(bindings[i])];
      }
      assert bindings[..|bindings|] == bindings;
      bindings := [];
      target := null;
      localContext := None;
      inheritedContext := None;
      parent := null;
    }
  }
}
