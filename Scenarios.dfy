/**
 * Clients of the bindable node that use nothing but the contracts of its operations:
 * each method walks one behaviour of the engine and asserts what its callers may rely on.
 */
module Scenarios {
  import opened Wrappers
  import opened Bindings
  import opened BindingIndex
  import opened Propagation
  import opened Databinding

  /** A root whose context is set twice to the same value, then to a new one. */
  method RootContext()
  {
    var title := new Binding<int>("text", "name", "oneway");
    var root := new BindableObject<int>([title], null, null, true, "Untagged");
    root.SetContext(Some(1));
    assert title.target == root && title.context == Some(1);

    ghost var before := root.trace;
    root.SetContext(Some(1));
    assert root.trace == before;

    root.SetContext(Some(2));
    assert title.context == Some(2);
    assert [title][..0] == [];
    assert root.trace == before + [ContextChanging, Notified(ContextProperty), Applied(title, false, root, Some(2))];
  }

  /** A child that receives its parent's context as its inherited context, once; the same
      value a second time changes nothing. */
  method ChildInheritsContext()
  {
    var root := new BindableObject<int>([], null, null, true, "Untagged");
    root.SetContext(Some(2));
    var caption := new Binding<int>("text", "caption", "oneway");
    var child := new BindableObject<int>([caption], null, null, true, "Untagged");
    child.SetParent(root);
    assert [caption][..0] == [];
    child.SetInheritedContext(Some(2), false);
    assert child.Context() == Some(2);
    assert caption.target == child && caption.context == Some(2);
    assert child.trace == [ContextChanging, Applied(caption, false, child, Some(2))];

    ghost var settled := child.trace;
    child.SetInheritedContext(Some(2), false);
    assert child.trace == settled;
  }

  /** With the force flag set, assigning the same local context re-applies the bindings
      without a "context" notification, and clears the flag. */
  method ForcedReassignment()
  {
    var title := new Binding<int>("text", "name", "oneway");
    var node := new BindableObject<int>([title], null, null, true, "Untagged");
    node.SetContext(Some(7));
    node.forceContextChanged := true;
    ghost var before := node.trace;
    node.SetContext(Some(7));
    assert !node.forceContextChanged;
    assert [title][..0] == [];
    assert node.trace == before + [ContextChanging, Applied(title, false, node, Some(7))];
  }

  /** A node that derives its context through a "context" binding with a sub-path: inheriting
      a context unapplies that binding while it still holds the previous context, then
      re-applies it, and nothing else. */
  method DerivedContext()
  {
    var derive := new Binding<int>(ContextProperty, "sub.path", "oneway");
    var title := new Binding<int>("text", "name", "oneway");
    var node := new BindableObject<int>([derive, title], null, null, true, "Untagged");
    assert [derive, title][..1] == [derive];
    assert [derive][..0] == [];
    node.SetInheritedContext(Some(3), false);
    assert node.trace == [ContextChanging, Unapplied(derive, null, None), Applied(derive, true, node, Some(3))];
    assert title.target == null;

    assert Indexed(map[], [derive]) == map[ContextProperty := derive];
    assert node.bindingsIndex == map[ContextProperty := derive, "text" := title];
    ghost var first := node.trace;
    node.SetInheritedContext(Some(4), false);
    assert node.trace == first + [ContextChanging, Unapplied(derive, node, Some(3)), Applied(derive, true, node, Some(4))];
  }

  /** With the identity path the ordinary bindings are applied and the context binding is
      left alone. */
  method PassThroughContext()
  {
    var same := new Binding<int>(ContextProperty, IdentityPath, "oneway");
    var title := new Binding<int>("text", "name", "oneway");
    var node := new BindableObject<int>([same, title], null, null, true, "Untagged");
    assert [same, title][..1] == [same];
    assert [same][..0] == [];
    assert Indexed(map[], [same]) == map[ContextProperty := same];
    assert Indexed(map[], [same, title]) == map[ContextProperty := same, "text" := title];
    assert ApplyPass([same], node, Some(3)) == [];
    node.SetInheritedContext(Some(3), false);
    assert node.trace == [ContextChanging, Applied(title, false, node, Some(3))];
    assert same.target == null;
  }

  /** Only a two-way binding is applied by the notify-and-apply path, and before the event. */
  method TwoWayWriteBack()
  {
    var edit := new Binding<int>("value", "amount", TwoWayMode);
    var show := new Binding<int>("subtitle", "title", "oneway");
    var node := new BindableObject<int>([edit, show], null, null, true, "Untagged");
    assert [edit, show][..1] == [edit];
    assert [edit][..0] == [];
    node.OnPropertyChangedBindingApply("value");
    assert node.trace == [Applied(edit, false, null, None), Notified("value")];
    node.OnPropertyChangedBindingApply("subtitle");
    assert node.trace == [Applied(edit, false, null, None), Notified("value"), Notified("subtitle")];
  }

  /** Two declarations for one name: the later one is found; an undeclared name is not. */
  method LookupOverride()
  {
    var first := new Binding<int>("text", "a", "oneway");
    var second := new Binding<int>("text", "b", "oneway");
    var node := new BindableObject<int>([first, second], null, null, true, "Untagged");
    assert [first, second][..1] == [first];
    assert [first][..0] == [];
    assert Indexed(map[], [first]) == map["text" := first];
    assert Indexed(map[], [first, second]) == map["text" := second];
    var found := node.GetBinding("text");
    assert found == second;
    assert node.bindingsIndex == map["text" := second];
    var missing := node.GetBinding("color");
    assert missing == null;
  }

  /** Teardown disposes each binding once, in list order, and drops every reference. */
  method Teardown()
  {
    var first := new Binding<int>("text", "a", "oneway");
    var second := new Binding<int>("color", "b", "oneway");
    var node := new BindableObject<int>([first, second], null, null, true, "Untagged");
    ghost var before := node.trace;
    assert [first, second][..1] == [first];
    assert [first][..0] == [];
    assert DisposeAll([first]) == [Disposed(first)];
    node.OnDestroy();
    assert node.trace == before + [Disposed(first), Disposed(second)];
    assert node.bindings == [] && node.Context() == None && node.parent == null;
  }
}
