/** The `nzStringTemplateOutlet` directive: its inputs, the output it keeps in
    its view container, and how it answers a change notification. The view
    container, embedded views and component references stand for Angular's;
    only what the directive does with them is modelled. */
module OutletDirective {
  import opened JsObject
  import opened OutletContent

  /** One call the directive makes on its view container. */
  datatype Op =
    | Clear
    | CreateComponent(component: nat)
    | CreateView(template: nat, context: Ctx)

  /** How many outputs the container holds after the calls in `log`. */
  function Outputs(log: seq<Op>): (n: nat)
    ensures n <= |log|
    ensures log != [] && log[|log| - 1].Clear? ==> n == 0
    ensures log != [] && !log[|log| - 1].Clear? ==> n >= 1
  {
    if log == [] then 0
    else if log[|log| - 1].Clear? then 0
    else Outputs(log[..|log| - 1]) + 1
  }

  /** Clearing and then creating one output leaves exactly one output alive,
      whatever was there before. */
  lemma RecreateLeavesOne(log: seq<Op>, create: Op)
    requires !create.Clear?
    ensures Outputs(log + [Clear, create]) == 1
  {
  }

  /** An embedded view: the template it was created from and its live context
      object, shared by reference with the view's bindings. */
  class EmbeddedView {
    const template: nat
    const context: ContextObject

    constructor (template: nat, context: ContextObject)
      ensures this.template == template && this.context == context
    {
      this.template, this.context := template, context;
    }
  }

  /** A created component. The context it receives through `NZ_OUTLET_CONTEXT`
      is a read-through proxy over `source`, the object captured at creation. */
  class ComponentRef {
    const component: nat
    const source: ContextObject

    constructor (component: nat, source: ContextObject)
      ensures this.component == component && this.source == source
    {
      this.component, this.source := component, source;
    }

    /** What the component reads for key `k` through the proxy: the current
        property of the captured object. */
    function InjectedValue(k: string): (v: Value)
      reads source
      ensures k in source.props ==> v == source.props[k]
      ensures k !in source.props ==> v == Undefined
    {
      Read(source.props, k)
    }
  }

  /** The host location; `log` records every call made on it. */
  class ViewContainer {
    var log: seq<Op>

    constructor ()
      ensures log == []
    {
      log := [];
    }

    method Clear()
      modifies this
      ensures log == old(log) + [Op.Clear]
    {
      log := log + [Op.Clear];
    }

    method CreateEmbeddedView(template: nat, context: ContextObject) returns (v: EmbeddedView)
      modifies this
      ensures fresh(v) && v.template == template && v.context == context
      ensures log == old(log) + [CreateView(template, context.props)]
    {
      v := new EmbeddedView(template, context);
      log := log + [CreateView(template, context.props)];
    }

    method CreateComponent(component: nat, source: ContextObject) returns (c: ComponentRef)
      modifies this
      ensures fresh(c) && c.component == component && c.source == source
      ensures log == old(log) + [Op.CreateComponent(component)]
    {
      c := new ComponentRef(component, source);
      log := log + [Op.CreateComponent(component)];
    }
  }

  /** The first loop of `updateContext()`: `delete o[k]` for each key of
      `Object.keys(o)`, which leaves `o` empty. */
  method DeleteEachKey(o: ContextObject)
    requires o.Valid()
    modifies o
    ensures o.Valid() && o.props == map[] && o.keys == []
  {
    var ks := o.Keys();
    var i := 0;
    while i < |ks|
      invariant 0 <= i <= |ks|
      invariant o.Valid() && o.keys == ks[i..]
    {
      o.Delete(ks[i]);
      i := i + 1;
    }
    assert o.props == map[] by {
      assert forall k :: k !in o.props;
    }
  }

  /** The second loop of `updateContext()`: `o[k] = n[k]` for each key of
      `Object.keys(n)`, taken after the first loop. Into an empty `o` this
      copies `n` exactly, key order included; when `n` is `o` itself it has
      no keys left and nothing is copied. */
  method AssignEachKey(o: ContextObject, n: ContextObject)
    requires o.Valid() && n.Valid() && o.props == map[] && o.keys == []
    modifies o
    ensures o.Valid()
    ensures o.props == old(n.props) && o.keys == old(n.keys)
  {
    ghost var target, targetKeys := n.props, n.keys;
    var ks := n.Keys();
    var j := 0;
    while j < |ks|
      invariant 0 <= j <= |ks|
      invariant n == o ==> ks == []
      invariant n != o ==> n.props == target && n.keys == targetKeys == ks
      invariant o.Valid() && o.keys == ks[..j]
      invariant forall k :: k in o.props ==> k in target && o.props[k] == target[k]
    {
      var v := n.Get(ks[j]);
      o.Put(ks[j], v);
      j := j + 1;
    }
    assert o.props.Keys == target.Keys;
  }

  class StringTemplateOutlet {
    /** `nzStringTemplateOutletContext`; `null` when undefined. */
    var context: ContextObject?
    /** `nzStringTemplateOutlet`. */
    var content: Content
    var componentRef: ComponentRef?
    var templateViewRef: EmbeddedView?
    const viewContainer: ViewContainer
    /** The template the directive is placed on. */
    const templateRef: nat

    /** The live view's context object, when there is a view. */
    ghost function LiveContext(): set<object>
      reads this
    {
      if templateViewRef != null then {templateViewRef.context} else {}
    }

    ghost predicate Valid()
      reads this, context, LiveContext()
    {
      && (context != null ==> context.Valid())
      && (templateViewRef != null ==> templateViewRef.context.Valid())
    }

    constructor (viewContainer: ViewContainer, templateRef: nat)
      ensures Valid()
      ensures content.Other? && content.v == Str("")
      ensures context == null && componentRef == null && templateViewRef == null
      ensures this.viewContainer == viewContainer && this.templateRef == templateRef
    {
      this.viewContainer, this.templateRef := viewContainer, templateRef;
      content := Other(Str(""));
      context := null;
      componentRef, templateViewRef := null, null;
    }

    /** The context input as a value. */
    function ContextInput(): (input: Option<Ctx>)
      reads this, context
    {
      if context == null then None else Some(context.props)
    }

    /** The properties `getContext()` gives. */
    ghost function NewContext(): (m: Ctx)
      reads this, context
    {
      ContextFor(content, ContextInput())
    }

    /** The key order `getContext()` gives. */
    ghost function NewKeys(): (ks: seq<string>)
      reads this, context
    {
      ContextKeysFor(content, if context != null then context.keys else [])
    }

    /** `getContext()` hands back the live view's own context object. */
    ghost predicate Aliased()
      reads this
    {
      templateViewRef != null && IsTemplate(content) && context == templateViewRef.context
    }

    /** The decision `ngOnChanges(change)` takes in the current state. */
    ghost function OutcomeOf(change: Option<ContentChange>): (o: Outcome)
      reads this
    {
      Dispatch(change, content, componentRef != null, templateViewRef != null)
    }

    /** `getContext()`: for template content the context input object itself
        (or a new `{}`), otherwise a new `{$implicit, nzStringTemplateOutlet}`. */
    method GetContext() returns (r: ContextObject)
      requires Valid()
      ensures r.Valid() && r.props == NewContext() && r.keys == NewKeys()
      ensures IsTemplate(content) && context != null ==> r == context
      ensures !(IsTemplate(content) && context != null) ==> fresh(r)
    {
      if IsTemplate(content) {
        if context != null {
          r := context;
        } else {
          r := new ContextObject.Init([], map[]);
        }
      } else if IsFunction(content) {
        var val := content.f(ContextInput());
        r := new ContextObject.Init([ImplicitKey, OutletKey], map[ImplicitKey := val, OutletKey := val]);
      } else {
        var val := AsValue(content);
        r := new ContextObject.Init([ImplicitKey, OutletKey], map[ImplicitKey := val, OutletKey := val]);
      }
    }

    /** `updateContext()`: empties the live view's context object key by key,
        then copies `getContext()` into it key by key. The view keeps its
        object; when that object is `getContext()`'s own result it ends empty. */
    method UpdateContext()
      requires Valid()
      modifies LiveContext()
      ensures Valid()
      ensures templateViewRef != null && !old(Aliased()) ==>
        templateViewRef.context.props == old(NewContext()) && templateViewRef.context.keys == old(NewKeys())
      ensures templateViewRef != null && old(Aliased()) ==>
        templateViewRef.context.props == map[] && templateViewRef.context.keys == []
    {
      var newCtx := GetContext();
      var oldCtx: ContextObject;
      if templateViewRef != null {
        oldCtx := templateViewRef.context;
      } else {
        oldCtx := new ContextObject.Init([], map[]);
      }
      // `if (newCtx)` always holds: getContext() returns an object.
      DeleteEachKey(oldCtx);
      AssignEachKey(oldCtx, newCtx);
    }

    /** `createTemplateOutlet()`: an embedded view of `getTemplate()` with the
        context `getContext()`. */
    method CreateTemplateOutlet()
      requires Valid()
      modifies this`templateViewRef, viewContainer
      ensures Valid()
      ensures templateViewRef != null && fresh(templateViewRef)
      ensures templateViewRef.template == TemplateFor(content, templateRef)
      ensures templateViewRef.context.props == NewContext() && templateViewRef.context.keys == NewKeys()
      ensures IsTemplate(content) && context != null ==> templateViewRef.context == context
      ensures !(IsTemplate(content) && context != null) ==> fresh(templateViewRef.context)
      ensures viewContainer.log == old(viewContainer.log) + [CreateView(TemplateFor(content, templateRef), NewContext())]
    {
      var ctx := GetContext();
      templateViewRef := viewContainer.CreateEmbeddedView(TemplateFor(content, templateRef), ctx);
    }

    /** `createComponentOutlet()`: a component of the descriptor's type whose
        injected context reads through to the context input (or a new `{}`). */
    method CreateComponentOutlet()
      requires Valid() && IsComponent(content)
      modifies this`componentRef, viewContainer
      ensures Valid()
      ensures componentRef != null && fresh(componentRef) && componentRef.component == content.component
      ensures context != null ==> componentRef.source == context
      ensures context == null ==> fresh(componentRef.source) && componentRef.source.props == map[] && componentRef.source.keys == []
      ensures viewContainer.log == old(viewContainer.log) + [Op.CreateComponent(content.component)]
    {
      var source: ContextObject;
      if context != null {
        source := context;
      } else {
        source := new ContextObject.Init([], map[]);
      }
      componentRef := viewContainer.CreateComponent(content.component, source);
    }

    /** `ngOnChanges`: Angular has already stored the new inputs; `change` is
        the `content` entry of `SimpleChanges`, `None` when only the context
        changed. The inputs themselves are never written here. */
    method NgOnChanges(change: Option<ContentChange>)
      requires Valid()
      modifies this`componentRef, this`templateViewRef, viewContainer, LiveContext()
      ensures Valid()
      ensures old(OutcomeOf(change)) == Keep ==>
        && viewContainer.log == old(viewContainer.log)
        && componentRef == old(componentRef) && templateViewRef == old(templateViewRef)
        && (templateViewRef != null ==> unchanged(templateViewRef.context))
      ensures old(OutcomeOf(change)) == Patch ==>
        && viewContainer.log == old(viewContainer.log)
        && componentRef == old(componentRef) && templateViewRef == old(templateViewRef) != null
        && (old(Aliased()) ==> templateViewRef.context.props == map[] && templateViewRef.context.keys == [])
        && (!old(Aliased()) ==>
              templateViewRef.context.props == old(NewContext()) && templateViewRef.context.keys == old(NewKeys()))
      ensures old(OutcomeOf(change)) == Recreate && IsComponent(content) ==>
        && viewContainer.log == old(viewContainer.log) + [Clear, CreateComponent(content.component)]
        && componentRef != null && fresh(componentRef) && componentRef.component == content.component
        && (context != null ==> componentRef.source == context)
        && (context == null ==> fresh(componentRef.source) && componentRef.source.props == map[] && componentRef.source.keys == [])
        && templateViewRef == old(templateViewRef)
      ensures old(OutcomeOf(change)) == Recreate && !IsComponent(content) ==>
        && viewContainer.log == old(viewContainer.log) + [Clear, CreateView(TemplateFor(content, templateRef), old(NewContext()))]
        && templateViewRef != null && fresh(templateViewRef)
        && templateViewRef.template == TemplateFor(content, templateRef)
        && templateViewRef.context.props == old(NewContext()) && templateViewRef.context.keys == old(NewKeys())
        && (IsTemplate(content) && context != null ==> templateViewRef.context == context)
        && (!(IsTemplate(content) && context != null) ==> fresh(templateViewRef.context))
        && componentRef == old(componentRef)
      ensures old(OutcomeOf(change)) == Recreate && old(templateViewRef) != null ==>
        unchanged(old(templateViewRef).context)
      ensures old(OutcomeOf(change)) == Recreate ==> Outputs(viewContainer.log) == 1
    {
      if change.None? {
        if IsComponent(content) && componentRef != null {
          // the component's injected context already reads the context object
          return;
        } else if IsTemplate(content) && templateViewRef != null {
          UpdateContext();
          return;
        }
      } else if
        && !change.value.firstChange
        && templateViewRef != null
        && (IsFunction(content) || IsOtherType(content))
        && (IsFunction(change.value.previousValue) || IsOtherType(change.value.previousValue))
      {
        UpdateContext();
        return;
      }
      viewContainer.Clear();
      if IsComponent(content) {
        CreateComponentOutlet();
      } else {
        CreateTemplateOutlet();
      }
      RecreateLeavesOne(old(viewContainer.log), viewContainer.log[|viewContainer.log| - 1]);
    }
  }
}
