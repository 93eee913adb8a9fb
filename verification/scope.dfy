/**
  The request scope of src/quart_injector/scope.py: a stack of frames, each
  caching one provider per dependency key, and `bind_scope`, which installs the
  push and pop hooks on an application.

  Object identity is made explicit. A scope carries the log `made` of every
  factory invocation so far, in order: the instance produced by invocation `i`
  is named `i` and `made[i]` is the key it was produced for. "The same
  instance" is equality of names, a fresh instance is `|made|`, and the number
  of factory invocations is `|made|`.
 */
module RequestScope {
  import opened Wrappers
  import opened HookTree
  import opened Quart

  type Instance = nat

  /** `frames` is the `LocalStack` of one task, bottom first; the top frame is the last. */
  datatype Scope<K> = Scope(frames: seq<map<K, Instance>>, made: seq<K>)

  datatype ScopeError = NoActiveScope

  /** A successful `get`: the scope afterwards and the provider handed back. */
  datatype Got<K> = Got(scope: Scope<K>, instance: Instance)

  /**
    Every cached instance was produced by a factory invocation for its own key,
    and no instance sits in two places: distinct frames, or distinct keys of one
    frame, never share an identity.
   */
  ghost predicate Valid<K>(s: Scope<K>)
  {
    && (forall i, k | 0 <= i < |s.frames| && k in s.frames[i] ::
          s.frames[i][k] < |s.made| && s.made[s.frames[i][k]] == k)
    && (forall i, j, k, k' | 0 <= i < |s.frames| && 0 <= j < |s.frames| && k in s.frames[i] && k' in s.frames[j] ::
          s.frames[i][k] == s.frames[j][k'] ==> i == j && k == k')
  }

  function Top<K>(s: Scope<K>): map<K, Instance>
    requires s.frames != []
  {
    s.frames[|s.frames| - 1]
  }

  /** `configure`: a fresh, empty stack. */
  function Configure<K>(): (s: Scope<K>)
    ensures Valid(s) && s.frames == [] && s.made == []
  {
    Scope([], [])
  }

  /** `push`: one new empty frame on top; the frames below and the invocation log stay as they were. */
  function Push<K>(s: Scope<K>): (r: Scope<K>)
    ensures |r.frames| == |s.frames| + 1
    ensures Top(r) == map[]
    ensures forall i :: 0 <= i < |s.frames| ==> r.frames[i] == s.frames[i]
    ensures r.made == s.made
    ensures Valid(s) ==> Valid(r)
  {
    Scope(s.frames + [map[]], s.made)
  }

  /** `pop`: the top frame and everything cached in it are gone; the frames below stay as they were. */
  function Pop<K>(s: Scope<K>): (r: Scope<K>)
    requires s.frames != []
    ensures |r.frames| == |s.frames| - 1
    ensures forall i :: 0 <= i < |r.frames| ==> r.frames[i] == s.frames[i]
    ensures r.made == s.made
    ensures Valid(s) ==> Valid(r)
  {
    Scope(s.frames[..|s.frames| - 1], s.made)
  }

  /**
    `get(key, provider)`. With no frame on the stack `top` is `None` and the
    lookup fails. A key cached in the top frame gives back the cached provider
    without invoking the factory and without changing anything. Otherwise the
    factory is invoked exactly once, for `k`, and its fresh instance is cached
    under `k` in the top frame and given back. Only the top frame ever changes.
   */
  function Get<K>(s: Scope<K>, k: K): (r: Result<Got<K>, ScopeError>)
    ensures r.Failure? <==> s.frames == []
    ensures r.Success? && k in Top(s) ==> r.value == Got(s, Top(s)[k])
    ensures r.Success? && k !in Top(s) ==>
      r.value.instance == |s.made| && r.value.scope.made == s.made + [k]
    ensures r.Success? ==>
      var t := r.value.scope;
      && |t.frames| == |s.frames|
      && (forall i :: 0 <= i < |s.frames| - 1 ==> t.frames[i] == s.frames[i])
      && Top(t).Keys == Top(s).Keys + {k}
      && Top(t)[k] == r.value.instance
      && (forall k' :: k' in Top(s) ==> Top(t)[k'] == Top(s)[k'])
    ensures r.Success? && Valid(s) ==> Valid(r.value.scope)
  {
    if s.frames == [] then Failure(NoActiveScope)
    else
      var top := Top(s);
      if k in top then Success(Got(s, top[k]))
      else
        var newId := |s.made|;
        var t := Scope(s.frames[..|s.frames| - 1] + [top[k := newId]], s.made + [k]);
        assert Valid(s) ==> Valid(t) by {
          if Valid(s) {
            FreshIsNew(s, k);
          }
        }
        Success(Got(t, newId))
  }

  /** Caching the next fresh instance under a key missing from the top frame keeps the scope valid. */
  lemma FreshIsNew<K>(s: Scope<K>, k: K)
    requires Valid(s) && s.frames != [] && k !in Top(s)
    ensures Valid(Scope(s.frames[..|s.frames| - 1] + [Top(s)[k := |s.made|]], s.made + [k]))
  {
    var n := |s.frames| - 1;
    var t := Scope(s.frames[..n] + [Top(s)[k := |s.made|]], s.made + [k]);
    FreshSlots(s, k);
    forall i, k1 | 0 <= i < |t.frames| && k1 in t.frames[i]
      ensures t.frames[i][k1] < |t.made| && t.made[t.frames[i][k1]] == k1
    {
      if (i, k1) != (n, k) {
        assert t.made[s.frames[i][k1]] == s.made[s.frames[i][k1]];
      }
    }
    forall i, j, k1, k2 | 0 <= i < |t.frames| && 0 <= j < |t.frames| && k1 in t.frames[i] && k2 in t.frames[j]
      ensures t.frames[i][k1] == t.frames[j][k2] ==> i == j && k1 == k2
    {
      if (i, k1) != (n, k) && (j, k2) != (n, k) {
        assert t.frames[i][k1] == s.frames[i][k1] && t.frames[j][k2] == s.frames[j][k2];
      }
    }
  }

  /** After caching the fresh instance, the new slot holds `|s.made|` and every other slot holds what it held in `s`. */
  lemma FreshSlots<K>(s: Scope<K>, k: K)
    requires Valid(s) && s.frames != [] && k !in Top(s)
    ensures
      var n := |s.frames| - 1;
      var t := Scope(s.frames[..n] + [Top(s)[k := |s.made|]], s.made + [k]);
      && |t.frames| == |s.frames|
      && k in t.frames[n] && t.frames[n][k] == |s.made|
      && (forall i, k1 | 0 <= i < |t.frames| && k1 in t.frames[i] && (i, k1) != (n, k) ::
            k1 in s.frames[i] && t.frames[i][k1] == s.frames[i][k1] && t.frames[i][k1] < |s.made|)
  {
    var n := |s.frames| - 1;
    var t := Scope(s.frames[..n] + [Top(s)[k := |s.made|]], s.made + [k]);
    assert forall i :: 0 <= i < n ==> t.frames[i] == s.frames[i];
    assert t.frames[n] == Top(s)[k := |s.made|];
  }

  /** Popping what was just pushed gives back the scope as it was. */
  lemma PopPush<K>(s: Scope<K>)
    ensures Pop(Push(s)) == s
  {
    assert (s.frames + [map[]])[..|s.frames|] == s.frames;
  }

  /** A second `get` of the same key, with no push or pop between, yields the identical instance and changes nothing. */
  lemma SameFrameSameInstance<K>(s: Scope<K>, k: K)
    requires Get(s, k).Success?
    ensures Get(Get(s, k).value.scope, k) == Success(Get(s, k).value)
  {
  }

  /**
    A request that gets `k`, ends (pop) and is followed by a new request
    (push) that gets `k` again yields a different instance: the new frame is
    empty, so the factory is invoked again.
   */
  lemma NextRequestFreshInstance<K>(s: Scope<K>, k: K)
    requires Valid(s) && s.frames != []
    ensures
      var first := Get(s, k).value;
      var next := Push(Pop(first.scope));
      && Get(next, k).Success?
      && k !in Top(next)
      && Get(next, k).value.instance != first.instance
  {
  }

  /** One scope operation of a task: `push`, `pop`, or `get(k, provider)`. */
  datatype Op<K> = PushOp | PopOp | GetOp(key: K)

  /** `pop` on an empty stack is a programmer error, like `get` with no frame. */
  function Step<K>(s: Scope<K>, op: Op<K>): Result<Scope<K>, ScopeError>
  {
    match op
    case PushOp => Success(Push(s))
    case PopOp => if s.frames == [] then Failure(NoActiveScope) else Success(Pop(s))
    case GetOp(k) =>
      var g :- Get(s, k);
      Success(g.scope)
  }

  function Run<K>(s: Scope<K>, ops: seq<Op<K>>): Result<Scope<K>, ScopeError>
    decreases |ops|
  {
    if ops == [] then Success(s)
    else
      var s' :- Step(s, ops[0]);
      Run(s', ops[1..])
  }

  /** One operation keeps the scope valid and only extends the invocation log. */
  lemma StepKeepsValid<K>(s: Scope<K>, op: Op<K>)
    requires Valid(s) && Step(s, op).Success?
    ensures Valid(Step(s, op).value)
    ensures |s.made| <= |Step(s, op).value.made| && Step(s, op).value.made[..|s.made|] == s.made
  {
  }

  /**
    Along any run of one task the scope stays valid, so instances in different
    frames never share an identity, and the invocation log only grows, so an
    identity handed out once is never handed out for a later factory invocation.
   */
  lemma {:induction false} RunKeepsValid<K>(s: Scope<K>, ops: seq<Op<K>>)
    requires Valid(s) && Run(s, ops).Success?
    decreases |ops|
    ensures Valid(Run(s, ops).value)
    ensures |s.made| <= |Run(s, ops).value.made| && Run(s, ops).value.made[..|s.made|] == s.made
  {
    if ops != [] {
      StepKeepsValid(s, ops[0]);
      var s' := Step(s, ops[0]).value;
      RunKeepsValid(s', ops[1..]);
      var r := Run(s', ops[1..]).value;
      assert r.made[..|s.made|] == r.made[..|s'.made|][..|s.made|];
    }
  }

  /** Along any run of one task the stack depth grows by the pushes and shrinks by the pops. */
  lemma {:induction false} RunDepth<K>(s: Scope<K>, ops: seq<Op<K>>)
    requires Run(s, ops).Success?
    decreases |ops|
    ensures |Run(s, ops).value.frames| == |s.frames| + multiset(ops)[PushOp] - multiset(ops)[PopOp]
  {
    if ops != [] {
      var s' := Step(s, ops[0]).value;
      RunDepth(s', ops[1..]);
      assert ops == [ops[0]] + ops[1..];
      assert multiset(ops) == multiset{ops[0]} + multiset(ops[1..]);
    }
  }

  /** `x` was handed out earlier and no frame holds it any more: its request has ended. */
  ghost predicate Retired<K>(s: Scope<K>, x: Instance)
  {
    && x < |s.made|
    && (forall i, k | 0 <= i < |s.frames| && k in s.frames[i] :: s.frames[i][k] != x)
  }

  /** No operation brings a retired instance back: a hit returns what a frame holds, a miss a fresh identity. */
  lemma StepKeepsRetired<K>(s: Scope<K>, op: Op<K>, x: Instance)
    requires Retired(s, x) && Step(s, op).Success?
    ensures Retired(Step(s, op).value, x)
  {
  }

  lemma {:induction false} RunKeepsRetired<K>(s: Scope<K>, ops: seq<Op<K>>, x: Instance)
    requires Retired(s, x) && Run(s, ops).Success?
    decreases |ops|
    ensures Retired(Run(s, ops).value, x)
  {
    if ops != [] {
      StepKeepsRetired(s, ops[0], x);
      RunKeepsRetired(Step(s, ops[0]).value, ops[1..], x);
    }
  }

  /** Ending the request retires every instance its frame held; in particular the one just got. */
  lemma PopRetires<K>(s: Scope<K>, k: K)
    requires Valid(s) && s.frames != []
    ensures Retired(Pop(Get(s, k).value.scope), Get(s, k).value.instance)
  {
  }

  /** A retired instance is never handed out by `get`, for any key. */
  lemma RetiredNeverReturns<K>(s: Scope<K>, x: Instance, k: K)
    requires Retired(s, x)
    ensures Get(s, k).Success? ==> Get(s, k).value.instance != x
  {
  }

  /**
    An instance got in a frame that is then popped is never handed out again:
    whatever the task does afterwards (more pops, new pushes, other gets), a
    later `get` of any key yields a different instance.
   */
  lemma PoppedInstanceNeverReturns<K>(s: Scope<K>, k: K, ops: seq<Op<K>>, k': K)
    requires Valid(s) && s.frames != []
    ensures
      var after := Run(Pop(Get(s, k).value.scope), ops);
      after.Success? && Get(after.value, k').Success? ==>
        Get(after.value, k').value.instance != Get(s, k).value.instance
  {
    var p := Pop(Get(s, k).value.scope);
    var x := Get(s, k).value.instance;
    PopRetires(s, k);
    if Run(p, ops).Success? {
      RunKeepsRetired(p, ops, x);
      RetiredNeverReturns(Run(p, ops).value, x, k');
    }
  }

  /**
    The resolutions of one request, in order, inside one frame. The same key
    always resolves to the same instance; a key cached before is reused; the
    factory runs at most once per key, and only for keys the frame did not hold;
    the frames below the top are untouched.
   */
  method ResolveAll<K>(s: Scope<K>, keys: seq<K>) returns (t: Scope<K>, ids: seq<Instance>)
    requires s.frames != []
    ensures |t.frames| == |s.frames|
    ensures forall i :: 0 <= i < |s.frames| - 1 ==> t.frames[i] == s.frames[i]
    ensures |ids| == |keys|
    ensures forall i :: 0 <= i < |keys| ==> keys[i] in Top(t) && ids[i] == Top(t)[keys[i]]
    ensures forall i, j :: 0 <= i < |keys| && 0 <= j < |keys| && keys[i] == keys[j] ==> ids[i] == ids[j]
    ensures forall k :: k in Top(t) <==> k in Top(s) || k in keys
    ensures forall k :: k in Top(s) ==> Top(t)[k] == Top(s)[k]
    ensures |s.made| <= |t.made| && t.made[..|s.made|] == s.made
    ensures forall a, b :: |s.made| <= a < b < |t.made| ==> t.made[a] != t.made[b]
    ensures forall a :: |s.made| <= a < |t.made| ==> t.made[a] in Top(t) && t.made[a] !in Top(s)
    ensures forall k :: k in Top(t) && k !in Top(s) ==> |s.made| <= Top(t)[k] < |t.made| && t.made[Top(t)[k]] == k
  {
    t := s;
    ids := [];
    var i := 0;
    while i < |keys|
      invariant 0 <= i <= |keys|
      invariant Resolved(s, keys[..i], t, ids)
    {
      var g := Get(t, keys[i]).value;
      ResolveStep(s, keys[..i], t, ids, keys[i]);
      assert keys[..i + 1] == keys[..i] + [keys[i]];
      t := g.scope;
      ids := ids + [g.instance];
      i := i + 1;
    }
    assert keys[..i] == keys;
  }

  /** After resolving `keys` in order from `s`, the scope is `t` and the instances handed back are `ids`. */
  ghost predicate Resolved<K>(s: Scope<K>, keys: seq<K>, t: Scope<K>, ids: seq<Instance>)
  {
    && |ids| == |keys|
    && Extends(s, t)
    && (forall j :: 0 <= j < |keys| ==> keys[j] in Top(t) && ids[j] == Top(t)[keys[j]])
    && (forall k :: k in Top(t) ==> k in Top(s) || k in keys)
  }

  /** Resolving one more key keeps `Resolved`. */
  lemma ResolveStep<K>(s: Scope<K>, keys: seq<K>, t: Scope<K>, ids: seq<Instance>, k: K)
    requires Resolved(s, keys, t, ids)
    ensures Resolved(s, keys + [k], Get(t, k).value.scope, ids + [Get(t, k).value.instance])
  {
    GetExtends(s, t, k);
  }

  /**
    `t` is `s` after some resolutions in its top frame: lower frames untouched,
    earlier cache entries kept, and every factory invocation since `s` made
    exactly one new entry, for a key `s`'s top frame lacked.
   */
  ghost predicate Extends<K>(s: Scope<K>, t: Scope<K>)
  {
    && s.frames != [] && |t.frames| == |s.frames|
    && (forall j :: 0 <= j < |s.frames| - 1 ==> t.frames[j] == s.frames[j])
    && (forall k :: k in Top(s) ==> k in Top(t) && Top(t)[k] == Top(s)[k])
    && |s.made| <= |t.made| && t.made[..|s.made|] == s.made
    && (forall a, b :: |s.made| <= a < b < |t.made| ==> t.made[a] != t.made[b])
    && (forall a :: |s.made| <= a < |t.made| ==> t.made[a] in Top(t) && t.made[a] !in Top(s))
    && (forall k :: k in Top(t) && k !in Top(s) ==> |s.made| <= Top(t)[k] < |t.made| && t.made[Top(t)[k]] == k)
  }

  /** One more resolution in the top frame keeps `Extends`. */
  lemma GetExtends<K>(s: Scope<K>, t: Scope<K>, k: K)
    requires Extends(s, t)
    ensures Extends(s, Get(t, k).value.scope)
  {
    var u := Get(t, k).value.scope;
    assert u.made[..|s.made|] == t.made[..|s.made|];
  }

  /** The hook `bind_scope` puts first in the before-lists: it pushes a frame. */
  const BeforeFunc: Fn := Fn(PushScope, Attrs("before_func", None, "quart_injector.scope", None, None, None))

  /** The hook `bind_scope` puts first in the teardown-lists: it pops the frame. */
  const TeardownFunc: Fn := Fn(PopScope, Attrs("teardown_func", None, "quart_injector.scope", None, None, None))

  /** The four registries `bind_scope` edits are dicts of lists, as Quart declares them. */
  predicate ScopeHooksReady(app: App)
  {
    && IsHookRegistry(app.beforeRequest)
    && IsHookRegistry(app.beforeWebsocket)
    && IsHookRegistry(app.teardownRequest)
    && IsHookRegistry(app.teardownWebsocket)
  }

  /** The keys of a registry after `bind_scope`: unchanged, with the app-level key `None` added last if missing. */
  function WithAppKey(ks: seq<Key>): seq<Key>
  {
    if NoneKey in ks then ks else ks + [NoneKey]
  }

  /**
    `bind_scope`: the push hook becomes element 0 of the app-level before-request
    and before-websocket lists and the pop hook element 0 of the app-level
    teardown-request and teardown-websocket lists; the hooks already there follow
    in their old order, blueprint lists are untouched, and nothing else changes.
   */
  function BindScope(app: App): (r: App)
    requires ScopeHooksReady(app)
    ensures ScopeHooksReady(r)
    ensures HooksAt(r.beforeRequest.entries, NoneKey) == [BeforeFunc] + HooksAt(app.beforeRequest.entries, NoneKey)
    ensures HooksAt(r.beforeWebsocket.entries, NoneKey) == [BeforeFunc] + HooksAt(app.beforeWebsocket.entries, NoneKey)
    ensures HooksAt(r.teardownRequest.entries, NoneKey) == [TeardownFunc] + HooksAt(app.teardownRequest.entries, NoneKey)
    ensures HooksAt(r.teardownWebsocket.entries, NoneKey) == [TeardownFunc] + HooksAt(app.teardownWebsocket.entries, NoneKey)
    ensures forall k :: k != NoneKey ==>
      && Lookup(r.beforeRequest.entries, k) == Lookup(app.beforeRequest.entries, k)
      && Lookup(r.beforeWebsocket.entries, k) == Lookup(app.beforeWebsocket.entries, k)
      && Lookup(r.teardownRequest.entries, k) == Lookup(app.teardownRequest.entries, k)
      && Lookup(r.teardownWebsocket.entries, k) == Lookup(app.teardownWebsocket.entries, k)
    ensures Keys(r.beforeRequest.entries) == WithAppKey(Keys(app.beforeRequest.entries))
    ensures Keys(r.beforeWebsocket.entries) == WithAppKey(Keys(app.beforeWebsocket.entries))
    ensures Keys(r.teardownRequest.entries) == WithAppKey(Keys(app.teardownRequest.entries))
    ensures Keys(r.teardownWebsocket.entries) == WithAppKey(Keys(app.teardownWebsocket.entries))
    ensures r.(beforeRequest := app.beforeRequest, beforeWebsocket := app.beforeWebsocket,
               teardownRequest := app.teardownRequest, teardownWebsocket := app.teardownWebsocket) == app
  {
    app.(beforeRequest := InsertHook(app.beforeRequest, NoneKey, BeforeFunc),
         beforeWebsocket := InsertHook(app.beforeWebsocket, NoneKey, BeforeFunc),
         teardownRequest := InsertHook(app.teardownRequest, NoneKey, TeardownFunc),
         teardownWebsocket := InsertHook(app.teardownWebsocket, NoneKey, TeardownFunc))
  }
}
