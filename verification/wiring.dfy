/**
  src/quart_injector/wiring.py: wrapping one callable for injection (`wrap` and
  `_wrap_view_class`) and wiring a whole application (`wire`).

  What the Python code learns by reflection or by calling foreign code is a
  parameter here: `introspect` stands for unwinding `__wrapped__` and reading
  the closure of the innermost function with `inspect.getclosurevars`, and
  `decorate` stands for calling one entry of a view class's `decorators`.
 */
module Wiring {
  import opened Wrappers
  import opened HookTree
  import opened Quart
  import opened RequestScope

  /** The exceptions wrapping can raise. */
  datatype WrapError =
    | RuntimeError(message: string)   // positional `class_args` given to `as_view`
    | KeyError(key: string)           // no `class_kwargs` among the recovered nonlocals

  const PositionalArgsMessage: string :=
    "cannot pass positional args to View.as_view() when using quart-injector"

  /** The nonlocals recovered from the innermost function of an `as_view` result; `None` when a name is absent. */
  datatype Nonlocals = Nonlocals(classArgs: Option<seq<Obj>>, classKwargs: Option<map<string, Obj>>)

  /** `if closure.nonlocals.get("class_args")`: present and a non-empty tuple. */
  predicate HasPositionalArgs(found: Nonlocals)
  {
    found.classArgs.Some? && |found.classArgs.value| > 0
  }

  /** `for decorator in decorators: view = decorator(view)`. */
  function ApplyDecorators(f: Fn, ds: seq<Decorator>, decorate: (Decorator, Fn) -> Fn): Fn
    decreases |ds|
  {
    if ds == [] then f else ApplyDecorators(decorate(ds[0], f), ds[1..], decorate)
  }

  /**
    Decorators apply in list order, each to the result of the ones before it:
    the last decorator of the list is the outermost wrapper.
   */
  lemma {:induction false} ApplyDecoratorsLast(f: Fn, ds: seq<Decorator>, d: Decorator, decorate: (Decorator, Fn) -> Fn)
    decreases |ds|
    ensures ApplyDecorators(f, ds + [d], decorate) == decorate(d, ApplyDecorators(f, ds, decorate))
  {
    if ds == [] {
      assert [d][1..] == [];
    } else {
      assert (ds + [d])[1..] == ds[1..] + [d];
      ApplyDecoratorsLast(decorate(ds[0], f), ds[1..], d, decorate);
    }
  }

  /**
    The `view` closure before any decorator sees it: it builds `cls` from
    `class_kwargs` on every call. When the class has decorators it already
    carries the class's name and module, so decorators that copy metadata copy
    the class's.
   */
  function InnerView(cls: ViewClass, classKwargs: map<string, Obj>): (f: Fn)
    ensures f.body == Construct(cls, classKwargs)
    ensures f.attrs.viewClass.None?
    ensures cls.decorators != [] ==> f.attrs.name == cls.name && f.attrs.moduleName == cls.moduleName
  {
    var plain := Attrs("view", None, "quart_injector.wiring", None, None, None);
    Fn(Construct(cls, classKwargs),
       if cls.decorators == [] then plain else plain.(name := cls.name, moduleName := cls.moduleName))
  }

  /**
    `_wrap_view_class`. Positional construction arguments are refused before
    anything is built; missing `class_kwargs` is a `KeyError`. Otherwise the
    result constructs the class with its keyword arguments on every call, is
    wrapped by the class's decorators in order, and carries the class's name,
    doc, module, `view_class`, `methods` and `provide_automatic_options`.
   */
  function WrapViewClass(cls: ViewClass, found: Nonlocals, decorate: (Decorator, Fn) -> Fn): (r: Result<Fn, WrapError>)
    ensures r.Failure? <==> HasPositionalArgs(found) || found.classKwargs.None?
    ensures HasPositionalArgs(found) ==> r == Failure(RuntimeError(PositionalArgsMessage))
    ensures !HasPositionalArgs(found) && found.classKwargs.None? ==> r == Failure(KeyError("class_kwargs"))
    ensures r.Success? ==>
      r.value.attrs == Attrs(cls.name, cls.doc, cls.moduleName, Some(cls), cls.methods, cls.provideAutomaticOptions)
    ensures r.Success? ==>
      r.value.body == ApplyDecorators(InnerView(cls, found.classKwargs.value), cls.decorators, decorate).body
    ensures r.Success? && cls.decorators == [] ==> r.value.body == Construct(cls, found.classKwargs.value)
  {
    if HasPositionalArgs(found) then Failure(RuntimeError(PositionalArgsMessage))
    else if found.classKwargs.None? then Failure(KeyError("class_kwargs"))
    else
      var view := ApplyDecorators(InnerView(cls, found.classKwargs.value), cls.decorators, decorate);
      Success(Fn(view.body, view.attrs.(
        viewClass := Some(cls),
        name := cls.name,
        doc := cls.doc,
        moduleName := cls.moduleName,
        methods := cls.methods,
        provideAutomaticOptions := cls.provideAutomaticOptions)))
  }

  /**
    `wrap`: a callable with `view_class` goes through `_wrap_view_class`; any
    other callable becomes one that calls it through the container and, by
    `functools.wraps`, carries its metadata. Only the class path can fail.
   */
  function Wrap(f: Fn, introspect: Fn -> Nonlocals, decorate: (Decorator, Fn) -> Fn): (r: Result<Fn, WrapError>)
    ensures r.Failure? <==> f.attrs.viewClass.Some? && (HasPositionalArgs(introspect(f)) || introspect(f).classKwargs.None?)
    ensures f.attrs.viewClass.None? ==> r == Success(Fn(Inject(f), f.attrs))
    ensures r.Success? ==> r.value.attrs.viewClass == f.attrs.viewClass
    ensures f.attrs.viewClass.Some? ==> r == WrapViewClass(f.attrs.viewClass.value, introspect(f), decorate)
    ensures r.Success? && f.attrs.viewClass.Some? ==>
      var cls := f.attrs.viewClass.value;
      && r.value.body == ApplyDecorators(InnerView(cls, introspect(f).classKwargs.value), cls.decorators, decorate).body
      && r.value.attrs.name == cls.name
      && r.value.attrs.doc == cls.doc
      && r.value.attrs.moduleName == cls.moduleName
      && r.value.attrs.methods == cls.methods
      && r.value.attrs.provideAutomaticOptions == cls.provideAutomaticOptions
  {
    if f.attrs.viewClass.Some? then WrapViewClass(f.attrs.viewClass.value, introspect(f), decorate)
    else Success(Fn(Inject(f), f.attrs))
  }

  /** The `wrap` that `wire` applies to every hook, with its reflection and decorator calls fixed. */
  function Wrapper(introspect: Fn -> Nonlocals, decorate: (Decorator, Fn) -> Fn): Fn -> Result<Fn, WrapError>
  {
    f => Wrap(f, introspect, decorate)
  }

  /**
    A class-based view built with positional arguments is refused by `wrap`
    itself, before any call; with keyword arguments only it is accepted.
   */
  lemma PositionalArgsRefused(f: Fn, introspect: Fn -> Nonlocals, decorate: (Decorator, Fn) -> Fn)
    requires f.attrs.viewClass.Some? && introspect(f).classKwargs.Some?
    ensures Wrap(f, introspect, decorate).Failure? <==> HasPositionalArgs(introspect(f))
    ensures HasPositionalArgs(introspect(f)) ==>
      Wrap(f, introspect, decorate) == Failure(RuntimeError(PositionalArgsMessage))
  {
  }

  /** The `modules` argument of `wire`, by the shapes its code tells apart. */
  datatype ModulesArg =
    | NoModules                   // `None`, the default
    | One(m: Module)              // a single configuration function or module: not iterable
    | ListOf(ms: seq<Module>)     // a list, or any other iterable with `insert` (`deque`, `UserList`)
    | TupleOf(ms: seq<Module>)    // a sized iterable without `insert`: a tuple, a set, a dict's keys

  /** The modules the caller asked for, in the caller's order. */
  function UserModules(arg: ModulesArg): seq<Module>
  {
    match arg
    case NoModules => []
    case One(m) => [m]
    case ListOf(ms) => ms
    case TupleOf(ms) => ms
  }

  datatype ModulesError = NoInsertMethod   // `AttributeError`: the iterable has no `insert` method

  /**
    The module list as `wire` builds it, literally: falsy arguments become `[]`,
    a non-iterable module becomes `[m]`, and then `modules.insert(0, QuartModule(app))`,
    which fails on an iterable without an `insert` method.
   */
  function NormaliseModulesAsWritten(arg: ModulesArg): (r: Result<seq<Module>, ModulesError>)
    ensures r.Success? ==> r.value == [QuartModule] + UserModules(arg)
    ensures r.Failure? <==> arg.TupleOf? && arg.ms != []
  {
    match arg
    case NoModules => Success([QuartModule])
    case One(m) => Success([QuartModule, m])
    case ListOf(ms) => Success([QuartModule] + ms)
    case TupleOf(ms) => if ms == [] then Success([QuartModule]) else Failure(NoInsertMethod)
  }

  /** A non-empty tuple of modules, an iterable as `wire`'s signature allows, is refused by the code as written. */
  lemma TupleOfModulesRefused(m: Module)
    ensures NormaliseModulesAsWritten(TupleOf([m])) == Failure(NoInsertMethod)
    ensures NormaliseModules(TupleOf([m])) == [QuartModule, m]
  {
  }

  /**
    The module list `wire` evidently intends: the default module first, so that
    the caller's bindings override it, then the caller's modules in order,
    whatever kind of iterable they came in.
   */
  function NormaliseModules(arg: ModulesArg): (r: seq<Module>)
    ensures |r| == 1 + |UserModules(arg)|
    ensures r[0] == QuartModule
    ensures forall i :: 0 <= i < |UserModules(arg)| ==> r[i + 1] == UserModules(arg)[i]
  {
    match arg
    case NoModules => [QuartModule]
    case One(m) => [QuartModule, m]
    case ListOf(ms) => [QuartModule] + ms
    case TupleOf(ms) => [QuartModule] + ms
  }

  /** Wherever the code as written succeeds, it builds the intended list; it fails only on non-empty tuples. */
  lemma NormaliseModulesAgrees(arg: ModulesArg)
    ensures NormaliseModulesAsWritten(arg).Success? ==> NormaliseModulesAsWritten(arg).value == NormaliseModules(arg)
    ensures !(arg.TupleOf? && arg.ms != []) ==> NormaliseModulesAsWritten(arg) == Success(NormaliseModules(arg))
  {
  }

  /** Every hook `wire` hands to `wrap`, in the order it hands them over. */
  function AllTargets(app: App): seq<Fn>
  {
    Targets(app.afterRequest) + (Targets(app.afterWebsocket) + (Targets(app.beforeRequest)
      + (Targets(app.beforeWebsocket) + (Targets(app.errorHandlerSpec) + (Targets(app.teardownRequest)
      + (Targets(app.teardownWebsocket) + (Targets(app.templateContextProcessors) + Targets(app.viewFunctions))))))))
  }

  /** The first failure over all registries is that of the first registry that has one. */
  lemma AllTargetsFirstError(app: App, w: Fn -> Result<Fn, WrapError>)
    ensures
      var h := Targets(app.templateContextProcessors) + Targets(app.viewFunctions);
      var g := Targets(app.teardownWebsocket) + h;
      var f := Targets(app.teardownRequest) + g;
      var e := Targets(app.errorHandlerSpec) + f;
      var d := Targets(app.beforeWebsocket) + e;
      var c := Targets(app.beforeRequest) + d;
      var b := Targets(app.afterWebsocket) + c;
      && AllTargets(app) == Targets(app.afterRequest) + b
      && FirstError(AllTargets(app), w) == OrElse(FirstError(Targets(app.afterRequest), w), FirstError(b, w))
      && FirstError(b, w) == OrElse(FirstError(Targets(app.afterWebsocket), w), FirstError(c, w))
      && FirstError(c, w) == OrElse(FirstError(Targets(app.beforeRequest), w), FirstError(d, w))
      && FirstError(d, w) == OrElse(FirstError(Targets(app.beforeWebsocket), w), FirstError(e, w))
      && FirstError(e, w) == OrElse(FirstError(Targets(app.errorHandlerSpec), w), FirstError(f, w))
      && FirstError(f, w) == OrElse(FirstError(Targets(app.teardownRequest), w), FirstError(g, w))
      && FirstError(g, w) == OrElse(FirstError(Targets(app.teardownWebsocket), w), FirstError(h, w))
      && FirstError(h, w) == OrElse(FirstError(Targets(app.templateContextProcessors), w), FirstError(Targets(app.viewFunctions), w))
  {
    var h := Targets(app.templateContextProcessors) + Targets(app.viewFunctions);
    var g := Targets(app.teardownWebsocket) + h;
    var f := Targets(app.teardownRequest) + g;
    var e := Targets(app.errorHandlerSpec) + f;
    var d := Targets(app.beforeWebsocket) + e;
    var c := Targets(app.beforeRequest) + d;
    var b := Targets(app.afterWebsocket) + c;
    FirstErrorConcat(Targets(app.afterRequest), b, w);
    FirstErrorConcat(Targets(app.afterWebsocket), c, w);
    FirstErrorConcat(Targets(app.beforeRequest), d, w);
    FirstErrorConcat(Targets(app.beforeWebsocket), e, w);
    FirstErrorConcat(Targets(app.errorHandlerSpec), f, w);
    FirstErrorConcat(Targets(app.teardownRequest), g, w);
    FirstErrorConcat(Targets(app.teardownWebsocket), h, w);
    FirstErrorConcat(Targets(app.templateContextProcessors), Targets(app.viewFunctions), w);
  }

  function OrElse<E>(a: Option<E>, b: Option<E>): Option<E>
  {
    if a.Some? then a else b
  }

  /** `u` is `t` rewritten by `_wire_collection`: the same shape, every visited hook wrapped. */
  predicate Rewritten(t: Registry, u: Registry, w: Fn -> Result<Fn, WrapError>)
  {
    SameShape(t, u) && WrappedEach(Targets(t), Targets(u), w)
  }

  /**
    `u` is the dict of lists `t` with every hook wrapped and then `hook`, itself
    unwrapped, in front of the app-level hooks. `u` is still a dict of lists, and
    its keys are those of `t`, with the app-level key `None` added last if `t`
    lacked it.
   */
  ghost predicate RewrittenBehind(t: Registry, u: Registry, hook: Fn, w: Fn -> Result<Fn, WrapError>)
  {
    && t.Dict? && u.Dict?
    && IsHookRegistry(u)
    && Keys(u.entries) == (if NoneKey in Keys(t.entries) then Keys(t.entries) else Keys(t.entries) + [NoneKey])
    && |HooksAt(u.entries, NoneKey)| == |HooksAt(t.entries, NoneKey)| + 1
    && HooksAt(u.entries, NoneKey)[0] == hook
    && WrappedEach(HooksAt(t.entries, NoneKey), HooksAt(u.entries, NoneKey)[1..], w)
    && forall k :: k != NoneKey ==> WrappedEach(HooksAt(t.entries, k), HooksAt(u.entries, k), w)
  }

  /** Rewriting a dict of lists and then putting a hook in front leaves that hook unwrapped and first. */
  lemma WireThenBind(t: Registry, w: Fn -> Result<Fn, WrapError>, hook: Fn)
    requires IsHookRegistry(t) && WireTree(t, w).Success?
    ensures IsHookRegistry(WireTree(t, w).value)
    ensures RewrittenBehind(t, InsertHook(WireTree(t, w).value, NoneKey, hook), hook, w)
  {
    var u := WireTree(t, w).value;
    SameShapeKeys(t.entries, u.entries);
    WireHooksAt(t, w, NoneKey);
    var v := InsertHook(u, NoneKey, hook);
    assert HooksAt(v.entries, NoneKey)[1..] == HooksAt(u.entries, NoneKey);
    forall k | k != NoneKey
      ensures WrappedEach(HooksAt(t.entries, k), HooksAt(v.entries, k), w)
    {
      WireHooksAt(t, w, k);
    }
  }

  /**
    `wire`: build the container from the normalised modules, attach it to the
    app, rewrite the nine hook registries one after the other, then bind the
    scope hooks. The first exception `wrap` raises escapes.
   */
  function Wire(app: App, modules: ModulesArg, autoBind: bool, parent: Option<Obj>,
                introspect: Fn -> Nonlocals, decorate: (Decorator, Fn) -> Fn): (r: Result<App, WrapError>)
    requires ScopeHooksReady(app)
    ensures r.Failure? ==> FirstError(AllTargets(app), Wrapper(introspect, decorate)) == Some(r.error)
    ensures r.Success? ==> FirstError(AllTargets(app), Wrapper(introspect, decorate)) == None
    ensures r.Success? ==> r.value.injector == Some(Container(NormaliseModules(modules), autoBind, parent))
    ensures r.Success? ==>
      var w := Wrapper(introspect, decorate);
      && Rewritten(app.afterRequest, r.value.afterRequest, w)
      && Rewritten(app.afterWebsocket, r.value.afterWebsocket, w)
      && Rewritten(app.errorHandlerSpec, r.value.errorHandlerSpec, w)
      && Rewritten(app.templateContextProcessors, r.value.templateContextProcessors, w)
      && Rewritten(app.viewFunctions, r.value.viewFunctions, w)
      && RewrittenBehind(app.beforeRequest, r.value.beforeRequest, BeforeFunc, w)
      && RewrittenBehind(app.beforeWebsocket, r.value.beforeWebsocket, BeforeFunc, w)
      && RewrittenBehind(app.teardownRequest, r.value.teardownRequest, TeardownFunc, w)
      && RewrittenBehind(app.teardownWebsocket, r.value.teardownWebsocket, TeardownFunc, w)
  {
    var container := Container(NormaliseModules(modules), autoBind, parent);
    var w := Wrapper(introspect, decorate);
    AllTargetsFirstError(app, w);
    var afterRequest :- WireTree(app.afterRequest, w);
    var afterWebsocket :- WireTree(app.afterWebsocket, w);
    var beforeRequest :- WireTree(app.beforeRequest, w);
    var beforeWebsocket :- WireTree(app.beforeWebsocket, w);
    var errorHandlerSpec :- WireTree(app.errorHandlerSpec, w);
    var teardownRequest :- WireTree(app.teardownRequest, w);
    var teardownWebsocket :- WireTree(app.teardownWebsocket, w);
    var templateContextProcessors :- WireTree(app.templateContextProcessors, w);
    var viewFunctions :- WireTree(app.viewFunctions, w);
    WireThenBind(app.beforeRequest, w, BeforeFunc);
    WireThenBind(app.beforeWebsocket, w, BeforeFunc);
    WireThenBind(app.teardownRequest, w, TeardownFunc);
    WireThenBind(app.teardownWebsocket, w, TeardownFunc);
    Success(BindScope(App(afterRequest, afterWebsocket, beforeRequest, beforeWebsocket, errorHandlerSpec,
                          teardownRequest, teardownWebsocket, templateContextProcessors, viewFunctions,
                          Some(container))))
  }
}
