/** What `nzStringTemplateOutlet` may be bound to, how it is classified, the
    context object and template an embedded view is built from, and the rule by
    which a change notification is answered. All of it is pure case analysis. */
module OutletContent {
  import opened JsObject

  /** The two keys of the context built for non-template content. */
  const ImplicitKey: string := "$implicit"
  const OutletKey: string := "nzStringTemplateOutlet"

  /** A value that is not an `NzComponentOutlet`. */
  type PlainValue = v: Value | !v.Descriptor? witness Undefined

  /** The `nzStringTemplateOutlet` input, one constructor per runtime test:
      a `TemplateRef`, an `NzComponentOutlet`, a function of the context, or
      anything else (strings, numbers, other objects). */
  datatype Content =
    | Template(template: nat)
    | Component(component: nat)
    | Func(f: Option<Ctx> -> Value)
    | Other(v: PlainValue)

  /** `obj instanceof TemplateRef`: a template is neither a component
      descriptor nor a function. */
  predicate IsTemplate(c: Content)
    ensures IsTemplate(c) ==> !c.Component? && !c.Func?
  {
    c.Template?
  }

  /** `obj instanceof NzComponentOutlet`: a descriptor is neither a template
      nor a function. */
  predicate IsComponent(c: Content)
    ensures IsComponent(c) ==> !c.Template? && !c.Func?
  {
    c.Component?
  }

  /** `typeof obj === 'function'`: a function is neither a template nor a
      component descriptor. */
  predicate IsFunction(c: Content)
    ensures IsFunction(c) ==> !c.Template? && !c.Component?
  {
    c.Func?
  }

  /** Defined, as in the directive, by what it is not; that leaves exactly the
      plain values. */
  predicate IsOtherType(c: Content)
    ensures IsOtherType(c) <==> c.Other?
  {
    !IsTemplate(c) && !IsComponent(c) && !IsFunction(c)
  }

  /** Content whose rendering goes through the default template with a
      recomputed `$implicit`: switching among these never needs a new view. */
  predicate IsFunctionOrOther(c: Content) {
    IsFunction(c) || IsOtherType(c)
  }

  function Count(b: bool): (n: nat) {
    if b then 1 else 0
  }

  /** Every content value falls in exactly one of the four classes, and the
      negative definition of "other" picks out exactly the `Other` constructor. */
  lemma KindsPartition(c: Content)
    ensures Count(IsTemplate(c)) + Count(IsComponent(c)) + Count(IsFunction(c)) + Count(IsOtherType(c)) == 1
    ensures IsOtherType(c) <==> c.Other?
  {
  }

  /** The content itself as a JavaScript value. */
  function AsValue(c: Content): (v: Value)
    requires IsComponent(c) || IsOtherType(c)
    ensures IsComponent(c) ==> v == Descriptor(c.component)
    ensures IsOtherType(c) ==> v == c.v
  {
    if IsComponent(c) then Descriptor(c.component) else c.v
  }

  /** `getContext()`: the properties of the context object for an embedded view,
      given the content and the context input (`None` when it is undefined). */
  function ContextFor(c: Content, context: Option<Ctx>): (r: Ctx)
    ensures IsTemplate(c) && context.Some? ==> r == context.value
    ensures IsTemplate(c) && context.None? ==> r == map[]
    ensures !IsTemplate(c) ==> r.Keys == {ImplicitKey, OutletKey}
    ensures IsFunction(c) ==> r[ImplicitKey] == c.f(context) && r[OutletKey] == c.f(context)
    ensures IsOtherType(c) ==> r[ImplicitKey] == c.v && r[OutletKey] == c.v
    ensures IsComponent(c) ==> r[ImplicitKey] == Descriptor(c.component) && r[OutletKey] == Descriptor(c.component)
  {
    if IsTemplate(c) then
      if context.Some? then context.value else map[]
    else if IsFunction(c) then
      var val := c.f(context);
      map[ImplicitKey := val, OutletKey := val]
    else
      map[ImplicitKey := AsValue(c), OutletKey := AsValue(c)]
  }

  /** The order in which `getContext()`'s result lists its keys, given that of
      the context input (`[]` when it is undefined). */
  function ContextKeysFor(c: Content, contextKeys: seq<string>): (r: seq<string>)
    ensures IsTemplate(c) ==> r == contextKeys
    ensures !IsTemplate(c) ==> r == [ImplicitKey, OutletKey]
  {
    if IsTemplate(c) then contextKeys else [ImplicitKey, OutletKey]
  }

  /** The key order and the properties of `getContext()` agree whenever those of
      the context input do. */
  lemma ContextKeysMatch(c: Content, context: Option<Ctx>, contextKeys: seq<string>)
    requires context.Some? ==> KeysMatch(contextKeys, context.value)
    requires context.None? ==> contextKeys == []
    ensures KeysMatch(ContextKeysFor(c, contextKeys), ContextFor(c, context))
  {
  }

  /** `getTemplate()`: the content when it is a template, the directive's own
      template otherwise. */
  function TemplateFor(c: Content, defaultTemplate: nat): (r: nat)
    ensures IsTemplate(c) ==> r == c.template
    ensures !IsTemplate(c) ==> r == defaultTemplate
  {
    if IsTemplate(c) then c.template else defaultTemplate
  }

  /** The `content` entry of Angular's `SimpleChanges`. */
  datatype ContentChange = ContentChange(previousValue: Content, firstChange: bool)

  /** How `ngOnChanges` answers: leave the output alone, patch the live view's
      context in place, or clear the container and create a new output. */
  datatype Outcome = Keep | Patch | Recreate

  /** The decision `ngOnChanges` takes; `change` is `None` when the content input
      did not change (only the context did). */
  function Dispatch(change: Option<ContentChange>, c: Content, hasComponentRef: bool, hasTemplateViewRef: bool): (o: Outcome)
    ensures o == Keep ==> change.None? && IsComponent(c) && hasComponentRef
    ensures o == Patch ==> hasTemplateViewRef && !IsComponent(c)
    ensures change.Some? && change.value.firstChange ==> o == Recreate
  {
    if change.None? then
      if IsComponent(c) && hasComponentRef then Keep
      else if IsTemplate(c) && hasTemplateViewRef then Patch
      else Recreate
    else if
      && !change.value.firstChange
      && hasTemplateViewRef
      && IsFunctionOrOther(c)
      && IsFunctionOrOther(change.value.previousValue)
    then Patch
    else Recreate
  }

  /** A context-only change leaves the output alone exactly when the content is
      a component and a component has been created. */
  lemma KeepExactly(change: Option<ContentChange>, c: Content, hasComponentRef: bool, hasTemplateViewRef: bool)
    ensures Dispatch(change, c, hasComponentRef, hasTemplateViewRef) == Keep
        <==> change.None? && IsComponent(c) && hasComponentRef
  {
  }

  /** The live view is patched in place exactly on a context-only change of
      template content, or on a later content change between two
      function-or-other values, and in both cases only when a view exists. */
  lemma PatchExactly(change: Option<ContentChange>, c: Content, hasComponentRef: bool, hasTemplateViewRef: bool)
    ensures Dispatch(change, c, hasComponentRef, hasTemplateViewRef) == Patch
        <==> || (change.None? && IsTemplate(c) && hasTemplateViewRef)
             || (&& change.Some? && !change.value.firstChange && hasTemplateViewRef
                 && IsFunctionOrOther(c) && IsFunctionOrOther(change.value.previousValue))
  {
  }

  /** A context-only change with function or other content is not caught by
      either context-only branch and recreates the view. */
  lemma ContextOnlyPlainRecreates(c: Content, hasComponentRef: bool, hasTemplateViewRef: bool)
    requires IsFunctionOrOther(c)
    ensures Dispatch(None, c, hasComponentRef, hasTemplateViewRef) == Recreate
  {
  }

  /** A content change to or from a template or a component (a plain value
      replaced by a template, one component by another, ...) recreates. */
  lemma KindChangeRecreates(previous: Content, firstChange: bool, c: Content, hasComponentRef: bool, hasTemplateViewRef: bool)
    requires !IsFunctionOrOther(previous) || !IsFunctionOrOther(c)
    ensures Dispatch(Some(ContentChange(previous, firstChange)), c, hasComponentRef, hasTemplateViewRef) == Recreate
  {
  }
}
