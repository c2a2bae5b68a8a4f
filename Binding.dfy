/**
 * The Binding collaborator, at its interface only: the declared property name, path and
 * mode, and the target and context that a bindable node assigns before applying it.
 * How a binding evaluates its path and writes into its target is not part of this model;
 * the calls a node makes on a binding are recorded in the node's trace instead.
 */
module Bindings {
  import opened Wrappers

  class Binding<C(==)> {
    /** Declared once, when the node's binding list is loaded; never written by the node. */
    const propertyName: string
    const path: string
    const mode: string

    /** Assigned by the node before it applies the binding. */
    var target: object?
    var context: Option<C>

    constructor (propertyName: string, path: string, mode: string)
      ensures this.propertyName == propertyName && this.path == path && this.mode == mode
      ensures target == null && context == None
    {
      this.propertyName := propertyName;
      this.path := path;
      this.mode := mode;
      target := null;
      context := None;
    }
  }
}
