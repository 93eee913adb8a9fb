/**
  The parts of a Quart application and of Python callables that the wiring reads
  and writes. Everything else about the framework (routing, dispatch, the event
  loop) stays outside the model.
 */
module Quart {
  import opened Wrappers
  import opened HookTree

  /** An opaque Python object, known only by its identity. */
  datatype Obj = Obj(id: nat)

  /** An entry of a view class's `decorators` list, known only by its identity. */
  datatype Decorator = Decorator(id: nat)

  /** The class attributes of a `quart.views.View` subclass that wiring reads. */
  datatype ViewClass = ViewClass(
    name: string,
    doc: Option<string>,
    moduleName: string,
    methods: Option<seq<string>>,
    provideAutomaticOptions: Option<bool>,
    decorators: seq<Decorator>)

  /**
    The attributes of a callable. The framework reads `methods` and
    `provide_automatic_options` with `getattr(f, name, None)`, so an absent
    attribute and one set to `None` are the same `None` here.
   */
  datatype Attrs = Attrs(
    name: string,
    doc: Option<string>,
    moduleName: string,
    viewClass: Option<ViewClass>,
    methods: Option<seq<string>>,
    provideAutomaticOptions: Option<bool>)

  /** What calling the callable does, as far as the wiring decides it. */
  datatype Body =
    | Code(id: nat)                                        // code written elsewhere
    | Inject(target: Fn)                                   // call `target` through `container.call_with_injection`
    | Construct(cls: ViewClass, classKwargs: map<string, Obj>)  // build `cls` with `class_kwargs` per call, then dispatch
    | PushScope                                            // `before_func` of bind_scope
    | PopScope                                             // `teardown_func` of bind_scope

  datatype Fn = Fn(body: Body, attrs: Attrs)

  /** Dict keys of the registries: `None` for the app itself, blueprint and endpoint names, error codes, exception classes. */
  datatype Key = NoneKey | Str(s: string) | Int(n: int) | ExceptionClass(name: string)

  /** A configuration module handed to the container; `QuartModule` is the one wiring adds for the app itself. */
  datatype Module = QuartModule | UserModule(id: nat)

  /** An `injector.Injector` as constructed: its modules in order, `auto_bind` and `parent`. */
  datatype Container = Container(modules: seq<Module>, autoBind: bool, parent: Option<Obj>)

  type Registry = Tree<Key, Fn>

  /** The hook registries the wiring rewrites, and `app.extensions["injector"]`. */
  datatype App = App(
    afterRequest: Registry,
    afterWebsocket: Registry,
    beforeRequest: Registry,
    beforeWebsocket: Registry,
    errorHandlerSpec: Registry,
    teardownRequest: Registry,
    teardownWebsocket: Registry,
    templateContextProcessors: Registry,
    viewFunctions: Registry,
    injector: Option<Container>)
}
