# quart-injector, modelled in Dafny

quart-injector plugs an `injector` container into a Quart application. It has
two cores:

- **The request scope** (`src/quart_injector/scope.py`). `RequestScope` keeps one
  stack of frames per task. A frame maps a dependency key to a cached provider.
  `push` opens an empty frame and `pop` throws the top frame away. `get(key,
  provider)` returns the provider cached in the top frame. On a miss it invokes
  the factory once, caches the instance and returns it. `bind_scope` puts the
  push hook in front of the app's before-request and before-websocket lists. It
  puts the pop hook in front of its teardown lists.
- **The wiring** (`src/quart_injector/wiring.py`). `wrap` turns a callable into
  one that gets its dependencies from the container. Class-based views are
  rebuilt from their keyword construction arguments and re-decorated.
  `_wire_collection` rewrites a nested dict/list hook registry without changing
  its shape. `wire` builds the module list with the app's default module first,
  rewrites all nine registries and then binds the scope.

The project has five modules:

- `Wrappers` (wrappers.dfy): `Option`, and `Result` for raised exceptions.
- `HookTree` (hook_tree.dfy): registries as trees and `_wire_collection`.
- `Quart` (quart.dfy): the app, callables and their attributes.
- `RequestScope` (scope.dfy): the frame stack, `get`, traces of one task, and `bind_scope`.
- `Wiring` (wiring.dfy): `wrap`, `_wrap_view_class` and `wire`.

Object identity is explicit. The scope state logs every factory invocation in
order, and the instance made by invocation `i` is named `i`. "Same instance"
is equality of names, and a fresh instance is the log's length. Code the
project cannot see becomes a parameter:

- `introspect` stands for the `__wrapped__` unwinding plus `inspect.getclosurevars`.
- `decorate` stands for calling one of a view class's decorators.
- `wrap` is a parameter of `WireTree`.

## Model

| member | source | states |
|---|---|---|
| RequestScope.Configure | src/quart_injector/scope.py:21-22 | A new scope has no frames and no factory invocations, and is valid. |
| RequestScope.Push | src/quart_injector/scope.py:24-28 | Push adds one empty frame on top. The frames below and the invocation log are unchanged, and validity is kept. |
| RequestScope.Pop | src/quart_injector/scope.py:30-34 | Pop needs a frame. It removes exactly the top one, keeps the frames below and keeps validity. |
| RequestScope.PopPush | src/quart_injector/scope.py:24-34 | Popping right after a push restores the scope exactly. |
| RequestScope.Get | src/quart_injector/scope.py:36-44 | Get fails exactly when no frame is active. A hit returns the cached instance and changes nothing, with no factory call. A miss calls the factory once, for that key, and returns a fresh instance, now cached under the key in the top frame. This holds for a factory with no request-scoped dependencies of its own; see "## Left out". Lower frames and the depth are unchanged, and validity is kept. |
| RequestScope.SameFrameSameInstance | tests/test_request_scope.py:56-72 | A second get of a key, with no push or pop between, returns the identical instance and leaves the state unchanged. |
| RequestScope.NextRequestFreshInstance | tests/test_request_scope.py:75-94 | Take get, pop, push, get of one key. The new frame does not hold the key, and the second instance differs from the first. |
| RequestScope.RunKeepsValid | src/quart_injector/scope.py:24-44 | Over any sequence of push/pop/get the scope stays valid: instances in different frames or under different keys never share an identity. The invocation log only grows, so a later factory invocation never gets an identity handed out before. |
| RequestScope.PopRetires | src/quart_injector/scope.py:30-44 | Once the request that got an instance is popped, no frame holds that instance any more, and it was handed out before. |
| RequestScope.RunKeepsRetired | src/quart_injector/scope.py:24-44 | No sequence of push/pop/get brings a retired instance back into any frame. |
| RequestScope.RetiredNeverReturns | src/quart_injector/scope.py:36-44 | `get` of any key never hands out a retired instance: a hit returns what a frame holds, and a miss returns a fresh identity. |
| RequestScope.PoppedInstanceNeverReturns | src/quart_injector/scope.py:24-44 | An instance got in a frame that is then popped is never handed out again. After any later pushes, pops and gets, a `get` of any key in any frame yields a different instance. |
| RequestScope.RunDepth | src/quart_injector/scope.py:24-34 | After any successful sequence of operations, stack depth = starting depth + pushes − pops. |
| RequestScope.ResolveAll | src/quart_injector/scope.py:36-44 | Resolve a series of keys in one frame. Equal keys give equal instances, and keys cached beforehand keep their instance. The factory runs exactly once for each key the frame lacked and never for the others. Lower frames are untouched. |
| RequestScope.BindScope | src/quart_injector/scope.py:50-76 | The push hook becomes element 0 of both app-level before-lists and the pop hook element 0 of both teardown-lists. Earlier hooks keep their order, one place later. Other keys and other registries are unchanged, and the key order is kept, with `None` added last if it was missing. |
| HookTree.InsertFront | src/quart_injector/scope.py:72-76 | `insert(0, x)` on a `defaultdict(list)` entry puts `x` in front of that key's hooks. A missing key is added at the end, and every other key is unchanged. |
| HookTree.WrapAll | src/quart_injector/wiring.py:103 | The list comprehension either wraps every element, in order, or raises the failure of the first element `wrap` rejects. |
| HookTree.WireTree | src/quart_injector/wiring.py:90-103 | Fails exactly with the first failure among the visited values. On success the result has the same shape and each visited value is replaced by its wrap. A value that is neither dict nor list comes back unchanged. |
| HookTree.WireEntries | src/quart_injector/wiring.py:95-100 | The dict loop keeps the keys in order and the shape of every value. Its failure is the first failure among the visited values. |
| HookTree.WireDictLookup | src/quart_injector/wiring.py:95-100 | A rewritten dict keeps its key sequence. Under each key, a list or dict value is rewritten recursively and any other value `v` becomes `wrap(v)`. |
| HookTree.WireListItems | src/quart_injector/wiring.py:102-103 | A rewritten list succeeds exactly when every element wraps. It keeps its length and order, and each element is wrapped, not recursed into. |
| HookTree.WireHooksAt | src/quart_injector/wiring.py:95-103 | Rewriting a dict of lists keeps it a dict of lists. The hooks under every key come back wrapped, in order. |
| Wiring.InnerView | src/quart_injector/wiring.py:38-47 | The inner view builds the class from `class_kwargs` on every call. When the class has decorators, it carries the class's name and module before they run. |
| Wiring.ApplyDecoratorsLast | src/quart_injector/wiring.py:48-49 | Decorators apply in list order, each to the previous result, so the last one is outermost. |
| Wiring.WrapViewClass | src/quart_injector/wiring.py:19-58 | With introspection and decorators that do not raise, it fails exactly on positional args (the RuntimeError and its message, checked first) or missing `class_kwargs` (KeyError). On success it is the decorated inner view. It carries the class's name, doc, module, `view_class`, `methods` and `provide_automatic_options`. |
| Wiring.Wrap | src/quart_injector/wiring.py:61-87 | With introspection and decorators that do not raise, it fails only on the class path, and only for positional args or missing kwargs. A callable without `view_class` becomes a call through the container with its metadata copied. A callable with `view_class` takes the class path and its result is exactly `_wrap_view_class`'s. That is the decorated view that builds the class per call, with the class's name, doc, module, methods and automatic-options flag. `view_class` is kept. |
| Wiring.PositionalArgsRefused | tests/test_wrap.py:149-184 | A class view with keyword args recovered is refused by `wrap` exactly when it has positional args. The refusal is the documented RuntimeError. |
| Wiring.NormaliseModulesAsWritten | src/quart_injector/wiring.py:124-130 | As written: the default module comes first, then the user's modules in order. It fails exactly for a non-empty tuple, which has no `insert`. |
| Wiring.TupleOfModulesRefused | src/quart_injector/wiring.py:127-130 | A one-element tuple of modules makes the code as written raise. The corrected list is the default module followed by that module. |
| Wiring.NormaliseModules | src/quart_injector/wiring.py:124-130 | The default module is at index 0, followed by the user's modules in order: none, the single module, or the iterable's. |
| Wiring.NormaliseModulesAgrees | src/quart_injector/wiring.py:124-130 | Wherever the code as written succeeds it builds the corrected list. It succeeds on everything but non-empty tuples. |
| Wiring.WireThenBind | src/quart_injector/wiring.py:136-146 | Rewriting a dict of lists, then inserting a scope hook, leaves the hook unwrapped at index 0. Every earlier hook is wrapped behind it. The result is still a dict of lists with the same keys in order, plus `None` at the end if it was missing. |
| Wiring.Wire | src/quart_injector/wiring.py:124-146 | Takes the corrected module list, so a tuple of modules is accepted (see "## Findings"). Given that, it fails exactly with the first wrap failure over the nine registries, in the order they are rewritten. On success the container holds the normalised modules, `auto_bind` and `parent`, and the five plain registries are rewritten in shape. The four scope-bound registries stay dicts of lists with their keys kept (`None` added if missing). They carry the unwrapped scope hook first, followed by their wrapped hooks. |

## Left out

- Task-local isolation of the `LocalStack` between concurrent requests. That is a property of an unseen library. The model holds one task's stack.
- The `injector` library: providers, `InstanceProvider`, `call_with_injection`, `create_object`, auto-binding and `UnsatisfiedRequirement`. A provider is a factory that yields a fresh identity. A wrapped callable records what it would call (`Inject`, `Construct`) instead of running it.
- `request = injector.ScopeDecorator(RequestScope)`, a one-line binding to the foreign library.
- The `__wrapped__` unwinding loop and `inspect.getclosurevars`. Their result is the `introspect` parameter.
- `app.ensure_async`, `async`/`await` and calling the wrapped views. This is framework plumbing.
- `src/quart_injector/module.py` (`QuartModule`). It only binds framework globals and appears here as the constant `QuartModule`.
- The order in which Quart runs its hook lists. Whether teardown lists run in reverse is decided in Quart, not here. So `BindScope` states list contents, not which hook runs last.
- RequestScope.Get: a provider's own dependencies are not modelled. In the source, `provider.get(self.injector)` can resolve request-scoped dependencies through the same scope. Those are cached in the same top frame before the key itself, and each runs its own factory. The model's factory has no scoped dependencies, so a miss adds exactly one key and one invocation. A get with nested scoped resolutions is equivalent to the gets of those dependencies, in resolution order, followed by this get.
- Wiring.WrapViewClass: `introspect` and `decorate` are total here. In the source, `inspect.getclosurevars` raises `TypeError` on a callable that is not a Python function. A decorator is user code and may raise. The `setattr` calls fail on a decorated object that refuses attributes. None of these failures is modelled. The contract's failure cases are exactly the two the wrapper itself raises.
- Wiring.Wrap: inherits the same omission from `WrapViewClass`. Its failures are only the two that the view-class path raises on its own.
- RequestScope.Pop: requires a non-empty stack, because every pop in the code follows a push. What the unseen `LocalStack` does on an empty pop is not modelled. In `Step`, a pop on an empty stack counts as an error, like `get`.
- Wiring.Wire: on failure it returns only the error. Python rewrites in place, so by then the container is attached and the earlier registries are already rewritten. That partial state is not modelled. `wrap` on its own fails before building anything. `Wire` also builds its container from the corrected module list (`NormaliseModules`). So where the source raises `AttributeError` on a non-empty tuple of modules, before any container is built or any registry is rewritten, `Wire` goes on and succeeds if every hook wraps. That failure is modelled only by `NormaliseModulesAsWritten`.
- Wiring.NormaliseModules: `wire` also inserts the default module into the caller's own list, a side effect on the argument. That side effect is not modelled.
- Generators and other unsized iterables given as `modules`. A generator is truthy even when empty, so it fails like a non-empty tuple.
- A `view_class` attribute set to `None`, and other objects without the attributes Quart gives views.
- Python's separate `None`-valued and absent `methods` / `provide_automatic_options` attributes are one `None` here. Quart reads both through `getattr(..., None)`.

## Findings

| source | as written | input that shows it | evidently intended | confidence | as-written member | corrected member |
|---|---|---|---|---|---|---|
| src/quart_injector/wiring.py:124-130 | `wire` turns falsy or non-iterable `modules` into a list, then calls `modules.insert(0, ...)`. A tuple, set or other iterable without `insert` fails there. | `wire(app, (configure,))`: a tuple is an `Iterable`, as the signature and docstring allow, so it is not wrapped in a list, and `tuple.insert` raises `AttributeError` | any iterable of modules is accepted and keeps its order after the default module | medium; not executed | Wiring.NormaliseModulesAsWritten (Wiring.TupleOfModulesRefused exhibits it) | Wiring.NormaliseModules (used by Wiring.Wire) |
