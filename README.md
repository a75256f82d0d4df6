# nzStringTemplateOutlet, modelled in Dafny

A model of the `nzStringTemplateOutlet` structural directive of ng-zorro-antd
(`components/core/outlet/string_template_outlet.directive.ts`). The directive
renders its `nzStringTemplateOutlet` input (a string or other plain value, a
function of the context, a `TemplateRef`, or an `NzComponentOutlet` component
descriptor) into its view container. When its inputs change it either leaves
the output alone, patches the live view's context object in place, or clears
the container and creates one new output.

The project has four modules:

- `JsObject` (`js_object.dfy`): JavaScript values and plain objects.
  `ContextObject` is a mutable object with its own enumerable keys in
  insertion order. It has `Object.keys`, property reads (`undefined` when the
  object has no own property of that name), `delete` and assignment.
- `OutletContent` (`outlet_content.dfy`): the pure part. It holds the
  `Content` datatype and the four classifiers `IsTemplate`, `IsComponent`,
  `IsFunction` and `IsOtherType`. `ContextFor` is `getContext()`,
  `ContextKeysFor` is the key order of its result, and `TemplateFor` is
  `getTemplate()`. `Dispatch` is the three-way decision `ngOnChanges` makes.
- `OutletDirective` (`outlet_directive.dfy`): the imperative part.
  `ViewContainer` stands for Angular's view container and keeps a log of
  the calls made on it. `EmbeddedView` and `ComponentRef` stand for the created
  outputs. `StringTemplateOutlet` is the directive class, with the fields
  `context`, `content`, `componentRef` and `templateViewRef`. It has the methods
  `GetContext`, `UpdateContext` (its two `forEach` loops are `DeleteEachKey`
  and `AssignEachKey`), `CreateTemplateOutlet`, `CreateComponentOutlet` and
  `NgOnChanges`.
- `OutletScenarios` (`outlet_scenarios.dfy`): three short runs through several
  notifications, and the first render of a template outlet that one of them
  starts from. Each is proved to end in a stated state.

Modelling choices:

- The context input is a reference (`ContextObject?`, where `null` is
  `undefined`), not a value. For template content, `getContext()` returns that
  very object, and a view created from it shares it. So the model can say
  which object `updateContext()` changes. It also shows the aliasing case.
  When the view's context object is the object `getContext()` returns, the
  first loop deletes its keys, and the second loop, which reads
  `Object.keys` afterwards, has nothing to copy. The view's context ends empty
  (`UpdateContext`, `RebindingContextEmptiesView`).
- A content function is a pure Dafny function from the context input to a
  value. Templates and component types are known by numeric identities.
- `SimpleChanges` is reduced to its `content` entry, `Option<ContentChange>`.
  `None` means only the context input changed. The caller writes the new
  inputs into `content` and `context` before calling `NgOnChanges`, as Angular
  does.
- `viewContainerRef.clear()` does not reset `componentRef` or
  `templateViewRef`. `NgOnChanges` states that the reference it does not
  recreate keeps its old value, stale or not.

Behaviour of the code worth noting:

- A change of content between two function-or-other values patches in place
  only when it is not the first change and a view exists
  (string_template_outlet.directive.ts:58-65).
- A context-only change with function or other content is caught by neither
  context-only branch, so it recreates the view
  (string_template_outlet.directive.ts:50-57, `ContextOnlyPlainRecreates`).
- The container holds one output after every recreation
  (`Outputs(log) == 1`). The directive's two reference fields do not follow
  it: the one not recreated keeps its old value.
- The comment at string_template_outlet.directive.ts:52 says the injected
  context of the component is already bound with the context. That is true of
  the object the component captured at creation (line 76), not of the input.
  On a context-only change with component content nothing happens, so when
  the context input is replaced by a new object the component does not see it
  (`ComponentKeepsCapturedContext`). Only changes made in place to the old
  object reach it.

## Model

| member | source | states |
|---|---|---|
| `JsObject.Without` | components/core/outlet/string_template_outlet.directive.ts:39-41 | deleting a key removes exactly that key from the key order and keeps the keys distinct; deleting a missing key changes nothing, deleting the first key leaves the rest |
| `JsObject.WithoutAt` | components/core/outlet/string_template_outlet.directive.ts:39-41 | deleting the key at any position of a distinct key list leaves exactly the keys before it followed by the keys after it, each in their old order |
| `JsObject.ContextObject.Init` | components/core/outlet/string_template_outlet.directive.ts:106-117 | an object literal (`{}`, `{$implicit, nzStringTemplateOutlet}`) has exactly the given properties, with its keys in the order written |
| `JsObject.ContextObject.Get` | components/core/outlet/string_template_outlet.directive.ts:43 | reading `newCtx[propName]` gives the own property, `undefined` when the object has no own property of that name |
| `JsObject.ContextObject.Keys` | components/core/outlet/string_template_outlet.directive.ts:39 | `Object.keys` lists every own key exactly once, in insertion order |
| `JsObject.ContextObject.Delete` | components/core/outlet/string_template_outlet.directive.ts:40 | `delete` removes the key from the properties and from the key order, nothing else |
| `JsObject.ContextObject.Put` | components/core/outlet/string_template_outlet.directive.ts:43 | assignment sets the property; a new key goes to the end of the key order, an existing one stays in place |
| `OutletContent.IsTemplate` | components/core/outlet/string_template_outlet.directive.ts:131-133 | a template is neither a component descriptor nor a function |
| `OutletContent.IsComponent` | components/core/outlet/string_template_outlet.directive.ts:135-137 | a component descriptor is neither a template nor a function |
| `OutletContent.IsFunction` | components/core/outlet/string_template_outlet.directive.ts:139-141 | a function is neither a template nor a component descriptor |
| `OutletContent.IsOtherType` | components/core/outlet/string_template_outlet.directive.ts:143-145 | the negation of the other three holds exactly for plain values |
| `OutletContent.KindsPartition` | components/core/outlet/string_template_outlet.directive.ts:131-145 | every content value satisfies exactly one of the four classifiers, and `isOtherType`, defined by negation, holds exactly for plain values |
| `OutletContent.ContextFor` | components/core/outlet/string_template_outlet.directive.ts:104-119 | template content gives the context input, or `{}` when it is undefined; function content `f` gives exactly the keys `$implicit` and `nzStringTemplateOutlet`, both `f(context)`; any other content `v` gives those two keys, both `v` |
| `OutletContent.ContextKeysFor` | components/core/outlet/string_template_outlet.directive.ts:105-117 | the key order of `getContext()`'s result: the context input's own order for template content, otherwise `$implicit` then `nzStringTemplateOutlet` |
| `OutletContent.ContextKeysMatch` | components/core/outlet/string_template_outlet.directive.ts:104-119 | the key order and the properties of `getContext()`'s result list the same keys, each once |
| `OutletContent.TemplateFor` | components/core/outlet/string_template_outlet.directive.ts:96-102 | the content itself when it is a template, the directive's own template otherwise |
| `OutletContent.Dispatch` | components/core/outlet/string_template_outlet.directive.ts:50-66 | the output is left alone only on a context-only change with component content and a component; a patch needs a view and never happens for component content; a first content change always recreates |
| `OutletContent.KeepExactly` | components/core/outlet/string_template_outlet.directive.ts:50-53 | the output is left alone if and only if only the context changed, the content is a component and a component exists |
| `OutletContent.PatchExactly` | components/core/outlet/string_template_outlet.directive.ts:54-65 | the view is patched in place if and only if there is a view and either only the context changed with template content, or a non-first content change goes from function-or-other to function-or-other |
| `OutletContent.ContextOnlyPlainRecreates` | components/core/outlet/string_template_outlet.directive.ts:50-57 | a context-only change with function or other content recreates, whatever references exist |
| `OutletContent.KindChangeRecreates` | components/core/outlet/string_template_outlet.directive.ts:58-73 | a content change whose old or new value is a template or a component recreates |
| `OutletDirective.Outputs` | components/core/outlet/string_template_outlet.directive.ts:67-93 | the container holds at most as many outputs as calls were made on it, none right after a clear and at least one right after a creation |
| `OutletDirective.RecreateLeavesOne` | components/core/outlet/string_template_outlet.directive.ts:67-72 | clearing and then creating one output leaves exactly one output in the container, whatever it held before |
| `OutletDirective.ComponentRef.InjectedValue` | components/core/outlet/string_template_outlet.directive.ts:76-84 | the injected context reads each key from the object captured when the component was created, `undefined` when that object has no own property `k` |
| `OutletDirective.ViewContainer.Clear` | components/core/outlet/string_template_outlet.directive.ts:67 | a clear is logged |
| `OutletDirective.ViewContainer.CreateEmbeddedView` | components/core/outlet/string_template_outlet.directive.ts:93 | a new view of the given template, sharing the given context object, is logged with that object's properties |
| `OutletDirective.ViewContainer.CreateComponent` | components/core/outlet/string_template_outlet.directive.ts:88-89 | a new component of the given type, reading the given object, is logged |
| `OutletDirective.DeleteEachKey` | components/core/outlet/string_template_outlet.directive.ts:39-41 | deleting each key of `Object.keys(o)` empties `o` |
| `OutletDirective.AssignEachKey` | components/core/outlet/string_template_outlet.directive.ts:42-44 | copying each key of `Object.keys(n)` into an empty `o` makes `o` equal to `n`, properties and key order; when `n` is `o`, `o` stays empty |
| `OutletDirective.StringTemplateOutlet.constructor` | components/core/outlet/string_template_outlet.directive.ts:27-33 | content starts as `''`, context undefined, no component and no view |
| `OutletDirective.StringTemplateOutlet.GetContext` | components/core/outlet/string_template_outlet.directive.ts:104-119 | for template content with a context input, that very object; otherwise a new object; its properties are those of `ContextFor` and its key order that of `ContextKeysFor` |
| `OutletDirective.StringTemplateOutlet.UpdateContext` | components/core/outlet/string_template_outlet.directive.ts:35-46 | only the live view's context object changes; it ends with exactly the keys, values and key order of `getContext()`, or empty when it is `getContext()`'s own result |
| `OutletDirective.StringTemplateOutlet.CreateTemplateOutlet` | components/core/outlet/string_template_outlet.directive.ts:92-94 | only `templateViewRef` and the container change; a new view of `getTemplate()` is created and logged, with `getContext()`'s object and properties |
| `OutletDirective.StringTemplateOutlet.CreateComponentOutlet` | components/core/outlet/string_template_outlet.directive.ts:75-90 | only `componentRef` and the container change; a new component of the descriptor's type is created and logged, reading the context input or a new `{}` with no properties and no keys |
| `OutletDirective.StringTemplateOutlet.NgOnChanges` | components/core/outlet/string_template_outlet.directive.ts:48-73 | the inputs are never written. Keep: nothing changes. Patch: no container call, both references kept, the live context patched as `UpdateContext` states. Recreate: the log gains exactly a clear and one creation (component for component content, else a view of `getTemplate()`/`getContext()`), only the matching reference is replaced, the other keeps its old value, the old view's context object is left as it was, and the container holds one output |
| `OutletScenarios.RenderTemplateOn` | components/core/outlet/string_template_outlet.directive.ts:67-73 | the first notification of a template outlet on a context object `a` creates a view that shares `a` itself and leaves `a` as it was |
| `OutletScenarios.RebindingContextEmptiesView` | components/core/outlet/string_template_outlet.directive.ts:35-46 | a template outlet whose context goes from `a` to `b` and back to `a` ends with an empty view context, and `a` itself emptied |
| `OutletScenarios.PlainSwitchPatchesView` | components/core/outlet/string_template_outlet.directive.ts:58-65 | switching from one plain value to another keeps the view and its context object, and `$implicit` becomes the new value; the container log is exactly the first notification's clear and view creation, so the patch makes no container call |
| `OutletScenarios.ComponentKeepsCapturedContext` | components/core/outlet/string_template_outlet.directive.ts:50-53 | after the context input is replaced by a new object, the component still reads the old object's values, and the container log is exactly one clear and one component creation |

## Left out

- Angular's `Injector.create`, `ComponentFactoryResolver`, `createComponent` and `createEmbeddedView` (string_template_outlet.directive.ts:77-89, 93) are framework calls. They appear only as the log entries of `ViewContainer` and as fresh `ComponentRef`/`EmbeddedView` objects. The parent injector is not modelled.
- The `Proxy` wrapper and the `NZ_OUTLET_CONTEXT` token (lines 82-84, 147) are reduced to `ComponentRef.InjectedValue`, a read of the captured object. Dynamic property interception and dependency injection are not modelled.
- Change detection, and when Angular calls `ngOnChanges`, are outside the model. The call and its `SimpleChanges` entry are inputs.
- Content functions are pure. Their side effects are not modelled.
- The runtime `instanceof` and `typeof` tests are replaced by the constructors of `Content`.
- `NzStringTemplateOutletContext` and `NzComponentOutlet` (lines 121-129) are plain data holders. `NzComponentOutlet` is the `Component` constructor; the other is not modelled.
- The context input is an object or undefined. A primitive context (a falsy `0` or `''` that `this.context || {}` would replace) is not modelled.
- ContextObject, ComponentRef.InjectedValue: every context object is a plain, extensible object whose properties are all own, enumerable, writable data properties with string keys. Inherited properties are not modelled, so a read of a key such as `toString` gives `undefined` where JavaScript finds `Object.prototype.toString`. Frozen or sealed objects and read-only or non-configurable properties are not modelled either, so `Delete` and `Put` never fail where the module's strict-mode `delete oldCtx[k]` and `oldCtx[k] = ...` (lines 40, 43) throw a `TypeError`. Symbol keys, non-enumerable properties and accessors (getters and setters) are left out.
- JavaScript lists integer-like keys before the other keys. `ContextObject` keeps plain insertion order for all keys.
- `CreateComponentOutlet` requires component content. The source casts `this.content` without a test and calls it only after `isComponent` holds.
- `UpdateContext` with no live view patches a throwaway `{}` in the source. The model does the same, so it states nothing about that case. `ngOnChanges` never reaches it.
