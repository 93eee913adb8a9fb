/**
  The framework's hook registries as values, and the shape-preserving rewrite
  that wiring applies to them (`_wire_collection` in src/quart_injector/wiring.py).

  A registry is a nest of Python dicts and lists: `before_request_funcs` maps a
  blueprint name (or `None`) to a list of callables, `error_handler_spec` nests
  three dicts deep, `view_functions` maps endpoint names straight to callables.
  Dicts keep insertion order, so a dict is a list of entries. The elements of a
  list are opaque objects: the rewrite hands them to `wrap` and never looks
  inside them.
 */
module HookTree {
  import opened Wrappers

  datatype Tree<K, C> =
    | Leaf(obj: C)                  // any value that is neither a dict nor a list
    | List(items: seq<C>)
    | Dict(entries: Entries<K, C>)

  /**
    The entries of a dict, in insertion order. A Python dict holds each key at
    most once; this type could repeat a key, and then `Lookup` and `InsertFront`
    see only its first entry while `Targets` visits all of them. Registries
    built by Quart never repeat a key.
   */
  datatype Entries<K, C> =
    | Empty
    | Entry(key: K, value: Tree<K, C>, rest: Entries<K, C>)

  function Keys<K(==), C(==)>(es: Entries<K, C>): seq<K>
  {
    match es
    case Empty => []
    case Entry(k, _, rest) => [k] + Keys(rest)
  }

  /** `d.get(k)`: the value of the first entry with key `k`. */
  function Lookup<K(==), C>(es: Entries<K, C>, k: K): Option<Tree<K, C>>
  {
    match es
    case Empty => None
    case Entry(k', v, rest) => if k' == k then Some(v) else Lookup(rest, k)
  }

  /**
    The objects the rewrite hands to `wrap`, in the order it visits them: every
    element of a list, every dict value that is neither a dict nor a list, and
    the contents of nested dicts and lists. A bare value at the top is not visited.
   */
  function Targets<K(==), C(==)>(t: Tree<K, C>): seq<C>
    decreases t, 0
  {
    match t
    case Leaf(_) => []
    case List(xs) => xs
    case Dict(es) => EntryTargets(es)
  }

  function EntryTargets<K(==), C(==)>(es: Entries<K, C>): seq<C>
    decreases es, 0
  {
    match es
    case Empty => []
    case Entry(_, v, rest) => ValueTargets(v) + EntryTargets(rest)
  }

  /**
    `t` and `u` are the same nest of dicts and lists: the same keys in the same
    order, lists of the same length, and a bare value wherever the other has one.
   */
  predicate SameShape<K(==), C(==)>(t: Tree<K, C>, u: Tree<K, C>)
  {
    match (t, u)
    case (Leaf(_), Leaf(_)) => true
    case (List(xs), List(ys)) => |xs| == |ys|
    case (Dict(es), Dict(fs)) => SameShapeEntries(es, fs)
    case _ => false
  }

  predicate SameShapeEntries<K(==), C(==)>(es: Entries<K, C>, fs: Entries<K, C>)
  {
    match (es, fs)
    case (Empty, Empty) => true
    case (Entry(k, v, rest), Entry(k', v', rest')) =>
      k == k' && SameShape(v, v') && SameShapeEntries(rest, rest')
    case _ => false
  }

  /** `ys` is `xs` with every element replaced by what `wrap` returns for it. */
  predicate WrappedEach<C(==), E(==)>(xs: seq<C>, ys: seq<C>, wrap: C -> Result<C, E>)
  {
    |xs| == |ys| && forall i :: 0 <= i < |xs| ==> wrap(xs[i]) == Success(ys[i])
  }

  lemma WrappedEachConcat<C, E>(a: seq<C>, a': seq<C>, b: seq<C>, b': seq<C>, wrap: C -> Result<C, E>)
    requires WrappedEach(a, a', wrap) && WrappedEach(b, b', wrap)
    ensures WrappedEach(a + b, a' + b', wrap)
  {
  }

  /** The error of the first element `wrap` rejects, if any: the exception that escapes. */
  function FirstError<C(==), E(==)>(xs: seq<C>, wrap: C -> Result<C, E>): Option<E>
  {
    if xs == [] then None
    else if wrap(xs[0]).Failure? then Some(wrap(xs[0]).error)
    else FirstError(xs[1..], wrap)
  }

  lemma {:induction false} FirstErrorNoneIff<C, E>(xs: seq<C>, wrap: C -> Result<C, E>)
    ensures FirstError(xs, wrap) == None <==> forall i :: 0 <= i < |xs| ==> wrap(xs[i]).Success?
  {
    if xs != [] {
      FirstErrorNoneIff(xs[1..], wrap);
      if wrap(xs[0]).Success? {
        forall i | 0 < i < |xs| ensures wrap(xs[i]) == wrap(xs[1..][i - 1]) { }
      }
    }
  }

  lemma {:induction false} FirstErrorConcat<C, E>(a: seq<C>, b: seq<C>, wrap: C -> Result<C, E>)
    ensures FirstError(a + b, wrap) == if FirstError(a, wrap).Some? then FirstError(a, wrap) else FirstError(b, wrap)
  {
    if a != [] {
      assert (a + b)[0] == a[0];
      assert (a + b)[1..] == a[1..] + b;
      FirstErrorConcat(a[1..], b, wrap);
    } else {
      assert a + b == b;
    }
  }

  /** The list comprehension `[wrap(item) for item in value]`: all of it, or the first exception. */
  function WrapAll<C(==), E(==)>(xs: seq<C>, wrap: C -> Result<C, E>): (r: Result<seq<C>, E>)
    ensures r.Failure? ==> FirstError(xs, wrap) == Some(r.error)
    ensures r.Success? ==> FirstError(xs, wrap) == None && WrappedEach(xs, r.value, wrap)
  {
    if xs == [] then Success([])
    else
      var y :- wrap(xs[0]);
      var ys :- WrapAll(xs[1..], wrap);
      Success([y] + ys)
  }

  /**
    `_wire_collection`: a dict has each value that is a dict or a list rewritten
    recursively and every other value replaced by `wrap(value)`; a list has every
    element replaced by `wrap(element)`; anything else is left as it is. The first
    exception `wrap` raises escapes.
   */
  function WireTree<K(==), C(==), E(==)>(t: Tree<K, C>, wrap: C -> Result<C, E>): (r: Result<Tree<K, C>, E>)
    decreases t, 0
    ensures r.Failure? ==> FirstError(Targets(t), wrap) == Some(r.error)
    ensures r.Success? ==> FirstError(Targets(t), wrap) == None
    ensures r.Success? ==> SameShape(t, r.value) && WrappedEach(Targets(t), Targets(r.value), wrap)
    ensures t.Leaf? ==> r == Success(t)
  {
    match t
    case Leaf(_) => Success(t)
    case List(xs) =>
      var ys :- WrapAll(xs, wrap);
      Success(List(ys))
    case Dict(es) =>
      var fs :- WireEntries(es, wrap);
      Success(Dict(fs))
  }

  /** A dict value: recurse into dicts and lists, wrap anything else. */
  function WireValue<K(==), C(==), E(==)>(v: Tree<K, C>, wrap: C -> Result<C, E>): (r: Result<Tree<K, C>, E>)
    decreases v, 1
    ensures r.Failure? ==> FirstError(ValueTargets(v), wrap) == Some(r.error)
    ensures r.Success? ==> FirstError(ValueTargets(v), wrap) == None
    ensures r.Success? ==> SameShape(v, r.value) && WrappedEach(ValueTargets(v), ValueTargets(r.value), wrap)
  {
    match v
    case Leaf(c) =>
      var c' :- wrap(c);
      Success(Leaf(c'))
    case _ => WireTree(v, wrap)
  }

  /** What a dict value contributes to the targets of its dict. */
  function ValueTargets<K(==), C(==)>(v: Tree<K, C>): seq<C>
    decreases v, 1
  {
    if v.Leaf? then [v.obj] else Targets(v)
  }

  function WireEntries<K(==), C(==), E(==)>(es: Entries<K, C>, wrap: C -> Result<C, E>): (r: Result<Entries<K, C>, E>)
    decreases es, 0
    ensures r.Failure? ==> FirstError(EntryTargets(es), wrap) == Some(r.error)
    ensures r.Success? ==> FirstError(EntryTargets(es), wrap) == None
    ensures r.Success? ==> SameShapeEntries(es, r.value) && WrappedEach(EntryTargets(es), EntryTargets(r.value), wrap)
  {
    match es
    case Empty => Success(Empty)
    case Entry(k, v, rest) =>
      FirstErrorConcat(ValueTargets(v), EntryTargets(rest), wrap);
      var v' :- WireValue(v, wrap);
      var rest' :- WireEntries(rest, wrap);
      WrappedEachConcat(ValueTargets(v), ValueTargets(v'), EntryTargets(rest), EntryTargets(rest'), wrap);
      Success(Entry(k, v', rest'))
  }

  lemma {:induction false} SameShapeKeys<K, C>(es: Entries<K, C>, fs: Entries<K, C>)
    requires SameShapeEntries(es, fs)
    ensures Keys(es) == Keys(fs)
  {
    match es
    case Empty =>
    case Entry(_, _, rest) => SameShapeKeys(rest, fs.rest);
  }

  /**
    Rewriting a dict keeps its keys, in order; under each key a dict or list value
    is rewritten recursively and any other value `v` becomes `wrap(v)`.
   */
  lemma {:induction false} WireDictLookup<K, C, E>(es: Entries<K, C>, wrap: C -> Result<C, E>, k: K)
    requires WireTree(Dict(es), wrap).Success?
    ensures WireTree(Dict(es), wrap).value.Dict?
    ensures Keys(WireTree(Dict(es), wrap).value.entries) == Keys(es)
    ensures Lookup(es, k).None? ==> Lookup(WireTree(Dict(es), wrap).value.entries, k).None?
    ensures Lookup(es, k).Some? && Lookup(es, k).value.Leaf? ==>
      wrap(Lookup(es, k).value.obj).Success? &&
      Lookup(WireTree(Dict(es), wrap).value.entries, k) == Some(Leaf(wrap(Lookup(es, k).value.obj).value))
    ensures Lookup(es, k).Some? && !Lookup(es, k).value.Leaf? ==>
      WireTree(Lookup(es, k).value, wrap).Success? &&
      Lookup(WireTree(Dict(es), wrap).value.entries, k) == Some(WireTree(Lookup(es, k).value, wrap).value)
  {
    WireEntriesLookup(es, wrap, k);
    SameShapeKeys(es, WireEntries(es, wrap).value);
  }

  lemma {:induction false} WireEntriesLookup<K, C, E>(es: Entries<K, C>, wrap: C -> Result<C, E>, k: K)
    requires WireEntries(es, wrap).Success?
    ensures Lookup(es, k).None? ==> Lookup(WireEntries(es, wrap).value, k).None?
    ensures Lookup(es, k).Some? ==>
      WireValue(Lookup(es, k).value, wrap).Success? &&
      Lookup(WireEntries(es, wrap).value, k) == Some(WireValue(Lookup(es, k).value, wrap).value)
  {
    match es
    case Empty =>
    case Entry(k', v, rest) =>
      if k' != k {
        WireEntriesLookup(rest, wrap, k);
      }
  }

  /** Rewriting a list keeps its length and order and wraps each element; elements are never recursed into. */
  lemma WireListItems<K, C, E>(xs: seq<C>, wrap: C -> Result<C, E>)
    ensures WireTree<K, C, E>(List(xs), wrap).Success? <==> forall i :: 0 <= i < |xs| ==> wrap(xs[i]).Success?
    ensures WireTree<K, C, E>(List(xs), wrap).Success? ==>
      var r := WireTree<K, C, E>(List(xs), wrap).value;
      r.List? && |r.items| == |xs| && forall i :: 0 <= i < |xs| ==> Success(r.items[i]) == wrap(xs[i])
  {
    FirstErrorNoneIff(xs, wrap);
  }

  /** Every value of the dict is a list: the shape of `before_request_funcs` and its siblings. */
  predicate AllLists<K, C>(es: Entries<K, C>)
  {
    match es
    case Empty => true
    case Entry(_, v, rest) => v.List? && AllLists(rest)
  }

  predicate IsHookRegistry<K, C>(t: Tree<K, C>)
  {
    t.Dict? && AllLists(t.entries)
  }

  /** The hooks registered under `k`; a `defaultdict(list)` reads a missing key as `[]`. */
  function HooksAt<K(==), C>(es: Entries<K, C>, k: K): seq<C>
  {
    match Lookup(es, k)
    case Some(v) => if v.List? then v.items else []
    case None => []
  }

  /**
    `registry[k].insert(0, x)` on a `defaultdict(list)`: `x` goes in front of the
    hooks under `k`, a missing key is added at the end with `[x]`, and every other
    key keeps its hooks.
   */
  function InsertFront<K(==,!new), C>(es: Entries<K, C>, k: K, x: C): (r: Entries<K, C>)
    requires AllLists(es)
    ensures AllLists(r)
    ensures HooksAt(r, k) == [x] + HooksAt(es, k)
    ensures forall k' :: k' != k ==> Lookup(r, k') == Lookup(es, k')
    ensures Keys(r) == if k in Keys(es) then Keys(es) else Keys(es) + [k]
  {
    match es
    case Empty => Entry(k, List([x]), Empty)
    case Entry(k', v, rest) =>
      if k' == k then Entry(k, List([x] + v.items), rest)
      else Entry(k', v, InsertFront(rest, k, x))
  }

  function InsertHook<K(==,!new), C>(t: Tree<K, C>, k: K, x: C): (r: Tree<K, C>)
    requires IsHookRegistry(t)
    ensures IsHookRegistry(r)
    ensures HooksAt(r.entries, k) == [x] + HooksAt(t.entries, k)
    ensures forall k' :: k' != k ==> Lookup(r.entries, k') == Lookup(t.entries, k')
    ensures Keys(r.entries) == if k in Keys(t.entries) then Keys(t.entries) else Keys(t.entries) + [k]
  {
    Dict(InsertFront(t.entries, k, x))
  }

  /** Rewriting keeps a dict of lists a dict of lists. */
  lemma {:induction false} SameShapeAllLists<K, C>(es: Entries<K, C>, fs: Entries<K, C>)
    requires SameShapeEntries(es, fs) && AllLists(es)
    ensures AllLists(fs)
  {
    match es
    case Empty =>
    case Entry(_, _, rest) => SameShapeAllLists(rest, fs.rest);
  }

  /** Rewriting a dict of lists wraps the hooks under every key, in order. */
  lemma WireHooksAt<K, C, E>(t: Tree<K, C>, wrap: C -> Result<C, E>, k: K)
    requires IsHookRegistry(t) && WireTree(t, wrap).Success?
    ensures IsHookRegistry(WireTree(t, wrap).value)
    ensures WrappedEach(HooksAt(t.entries, k), HooksAt(WireTree(t, wrap).value.entries, k), wrap)
  {
    SameShapeAllLists(t.entries, WireTree(t, wrap).value.entries);
    WireDictLookup(t.entries, wrap, k);
    AllListsLookup(t.entries, k);
  }

  lemma {:induction false} AllListsLookup<K, C>(es: Entries<K, C>, k: K)
    requires AllLists(es)
    ensures Lookup(es, k).Some? ==> Lookup(es, k).value.List?
  {
    match es
    case Empty =>
    case Entry(k', _, rest) => if k' != k { AllListsLookup(rest, k); }
  }
}
