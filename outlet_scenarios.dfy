/** Short runs of the directive through several change notifications, as
    Angular would drive it, and what each run leaves behind. */
module OutletScenarios {
  import opened JsObject
  import opened OutletContent
  import opened OutletDirective

  /** A template outlet rendered once, by its first notification, on the
      context object `a`: its view shares `a` itself. */
  method RenderTemplateOn(a: ContextObject) returns (outlet: StringTemplateOutlet)
    requires a.Valid()
    ensures fresh(outlet) && fresh(outlet.viewContainer)
    ensures outlet.Valid() && outlet.content.Template? && outlet.context == a
    ensures outlet.templateViewRef != null && fresh(outlet.templateViewRef) && outlet.templateViewRef.context == a
    ensures unchanged(a)
  {
    var container := new ViewContainer();
    outlet := new StringTemplateOutlet(container, 0);
    outlet.content := Template(1);
    outlet.context := a;
    assert outlet.OutcomeOf(Some(ContentChange(Other(Str("")), true))) == Recreate;
    outlet.NgOnChanges(Some(ContentChange(Other(Str("")), true)));
  }

  /** A template outlet whose context input goes from `a` to `b` and back to
      `a`. The view was built on `a` itself; the first patch rewrites `a` to
      hold `b`'s properties, and the second finds `getContext()` returning the
      view's own object, so deleting its keys first leaves nothing to copy. */
  method RebindingContextEmptiesView() returns (viewContext: Ctx, aAfter: Ctx)
    ensures viewContext == map[]
    ensures aAfter == map[]
  {
    var a := new ContextObject.Init(["x"], map["x" := Num(1)]);
    var b := new ContextObject.Init(["y"], map["y" := Num(2)]);
    var outlet := RenderTemplateOn(a);
    var view := outlet.templateViewRef;
    outlet.context := b;
    assert outlet.Valid() && outlet.OutcomeOf(None) == Patch && !outlet.Aliased();
    outlet.NgOnChanges(None);
    assert outlet.templateViewRef == view && a.props == map["y" := Num(2)];
    outlet.context := a;
    assert outlet.Valid() && outlet.OutcomeOf(None) == Patch && outlet.Aliased();
    outlet.NgOnChanges(None);
    viewContext := outlet.templateViewRef.context.props;
    aAfter := a.props;
  }

  /** Switching from one plain value to another keeps the view and its context
      object and only recomputes `$implicit`. */
  method PlainSwitchPatchesView() returns (log: seq<Op>, sameView: bool, sameObject: bool, implicit: Value)
    ensures sameView && sameObject
    ensures implicit == Str("b")
    ensures log == [Clear, CreateView(0, map[ImplicitKey := Str("a"), OutletKey := Str("a")])]
  {
    var container := new ViewContainer();
    var outlet := new StringTemplateOutlet(container, 0);
    outlet.content := Other(Str("a"));
    outlet.NgOnChanges(Some(ContentChange(Other(Str("")), true)));
    var first := outlet.templateViewRef;
    var firstContext := first.context;
    outlet.content := Other(Str("b"));
    outlet.NgOnChanges(Some(ContentChange(Other(Str("a")), false)));
    sameView := outlet.templateViewRef == first;
    sameObject := outlet.templateViewRef.context == firstContext;
    implicit := Read(outlet.templateViewRef.context.props, ImplicitKey);
    log := container.log;
  }

  /** A component outlet whose context input is replaced by another object: the
      context-only change does nothing, so the component keeps reading the
      object it captured at creation. */
  method ComponentKeepsCapturedContext() returns (log: seq<Op>, seen: Value)
    ensures seen == Num(1)
    ensures log == [Clear, CreateComponent(7)]
  {
    var container := new ViewContainer();
    var outlet := new StringTemplateOutlet(container, 0);
    var a := new ContextObject.Init(["x"], map["x" := Num(1)]);
    var b := new ContextObject.Init(["x"], map["x" := Num(2)]);
    outlet.content := Component(7);
    outlet.context := a;
    outlet.NgOnChanges(Some(ContentChange(Other(Str("")), true)));
    outlet.context := b;
    outlet.NgOnChanges(None);
    seen := outlet.componentRef.InjectedValue("x");
    log := container.log;
  }
}
