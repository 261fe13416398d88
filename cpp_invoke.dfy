/**
 * Invocation machinery of include/CppInvoke.h: the compile-time index pack
 * that unpacks a slot tuple into a call, free and class-method dispatch,
 * constructor dispatch (heap and placement), and the lambda detection used
 * by the binders to turn closures into `std::function`.
 */
module CppInvoke {
  import opened Wrappers
  import opened CppArg

  /**
   * The pack `INDEX...` that `CppDispatchMethod<..., N>` accumulates by
   * recursing on `N - 1` and prepending `N - 1`, starting from `acc`.
   */
  function IndexPack(n: nat, acc: seq<nat>): (r: seq<nat>)
    ensures |r| == n + |acc|
    ensures forall i :: 0 <= i < n ==> r[i] == i
    ensures r[n..] == acc
    decreases n
  {
    if n == 0 then acc else IndexPack(n - 1, [n - 1] + acc)
  }

  /** `std::get<INDEX>(args).value()...`: the tuple's values at the given indices. */
  function Expand<A>(t: seq<A>, indices: seq<nat>): (vs: seq<A>)
    requires forall k :: 0 <= k < |indices| ==> indices[k] < |t|
    ensures |vs| == |indices|
    ensures forall k :: 0 <= k < |indices| ==> vs[k] == t[indices[k]]
  {
    seq(|indices|, k requires 0 <= k < |indices| => t[indices[k]])
  }

  /** The values the dispatchers pass on: the full index pack `0 .. N-1` applied to the tuple. */
  function Unpack<A>(t: seq<A>): (vs: seq<A>)
    ensures vs == t
  {
    var pack := IndexPack(|t|, []);
    var vs := Expand(t, pack);
    assert forall k :: 0 <= k < |t| ==> vs[k] == t[k];
    vs
  }

  /** `CppDispatchMethod::call`: the function receives the tuple's values in slot order. */
  function DispatchMethod<A, R>(f: seq<A> -> R, t: seq<A>): (r: R)
    ensures r == f(t)
  {
    f(Unpack(t))
  }

  /** Whether a native function returns `void`. */
  datatype ReturnKind = ReturnsVoid | ReturnsValue

  /** What a call hands back to the script: nothing, or one value. */
  datatype CallOutput<V> = NoValue | Value(v: V)

  /**
   * `CppInvokeMethod::call` for a free function: a `void` function yields
   * nothing; any other yields the function's own result, escaped from the
   * handle scope and not passed through a converter.
   */
  function InvokeMethod<A, R>(kind: ReturnKind, f: seq<A> -> R, t: seq<A>): (out: CallOutput<R>)
    ensures out.NoValue? <==> kind.ReturnsVoid?
    ensures out.Value? ==> out.v == f(t)
  {
    var r := DispatchMethod(f, t);
    if kind.ReturnsVoid? then NoValue else Value(r)
  }

  /** The address of a native object. */
  type Addr = nat

  /** One argument of a proxy function: the receiver pointer, or a slot value. */
  datatype NativeArg<S, A> = Receiver(self: S) | Arg(v: A)

  /**
   * A class method as bound: a member function, called as `(t->*fn)(args...)`,
   * or a proxy function taking the object pointer first, called as
   * `fn(t, args...)`.
   */
  datatype ClassCallable<!S, !A, R> =
    | MemberFn(member: (S, seq<A>) -> R)
    | ProxyFn(proxy: seq<NativeArg<S, A>> -> R)

  function Lift<S, A>(vs: seq<A>): (args: seq<NativeArg<S, A>>)
    ensures |args| == |vs| && forall i :: 0 <= i < |vs| ==> args[i] == Arg(vs[i])
  {
    seq(|vs|, i requires 0 <= i < |vs| => Arg(vs[i]))
  }

  /**
   * `CppDispatchClassMethod::call`: a member function receives the object as
   * `this` and the slots in order; a proxy receives the object pointer as its
   * first argument, followed by the slots in order.
   */
  function DispatchClassMethod<S, A, R>(fn: ClassCallable<S, A, R>, self: S, t: seq<A>): (r: R)
    ensures fn.MemberFn? ==> r == fn.member(self, t)
    ensures fn.ProxyFn? ==> r == fn.proxy([Receiver(self)] + Lift(t))
  {
    match fn
    case MemberFn(m) => m(self, Unpack(t))
    case ProxyFn(p) => p([Receiver(self)] + Lift(Unpack(t)))
  }

  /**
   * `CppInvokeClassMethod::call`: a `void` method yields nothing; any other
   * yields its result converted by `V8Type<R>::set`.
   */
  function InvokeClassMethod<S, A, R, V>(kind: ReturnKind, fn: ClassCallable<S, A, R>, self: S, t: seq<A>, toScript: R -> V): (out: CallOutput<V>)
    ensures out.NoValue? <==> kind.ReturnsVoid?
    ensures out.Value? ==> out.v == toScript(DispatchClassMethod(fn, self, t))
  {
    if kind.ReturnsVoid? then NoValue else Value(toScript(DispatchClassMethod(fn, self, t)))
  }

  /**
   * `CppDispatchClassConstructor::call(mem, args)`: placement construction.
   * The object built from the slots in order occupies `mem`, and the
   * returned pointer is `mem` itself.
   */
  function ConstructAt<A, O>(heap: map<Addr, O>, mem: Addr, ctor: seq<A> -> O, t: seq<A>): (res: (Addr, map<Addr, O>))
    ensures res.0 == mem
    ensures res.1 == heap[mem := ctor(t)]
  {
    (mem, heap[mem := ctor(Unpack(t))])
  }

  /**
   * `CppDispatchClassConstructor::call(args)`: `new T(args...)`. The address
   * the allocator hands out is a parameter; it must not be in use.
   */
  function ConstructNew<A, O>(heap: map<Addr, O>, next: Addr, ctor: seq<A> -> O, t: seq<A>): (res: (Addr, map<Addr, O>))
    requires next !in heap
    ensures res.0 !in heap && res.0 in res.1 && res.1[res.0] == ctor(t)
    ensures forall a :: a in heap ==> a in res.1 && res.1[a] == heap[a]
  {
    ConstructAt(heap, next, ctor, t)
  }

  // ---------------------------------------------------------------------------
  // Callable types and lambda detection

  /** A native signature: whether it returns `void`, and its parameter types. */
  datatype Sig = Sig(ret: ReturnKind, params: seq<ParamType>)

  /** The shapes of callable the binders accept. */
  datatype CallableType =
    | FunctionPointer(sig: Sig)                                  // R(*)(P...)
    | FunctionType(sig: Sig)                                     // R(P...)
    | StdFunction(sig: Sig)                                      // std::function<R(P...)>
    | ClassObject(callOperator: Option<Sig>)                     // a class type, e.g. a closure
    | MemberPointer(owner: TypeId, isConst: bool, sig: Sig)      // R(TF::*)(P...) [const]

  /**
   * `CppCouldBeLambda<FN>`: any class type other than `std::function`.
   */
  predicate CouldBeLambda(c: CallableType)
  {
    c.ClassObject?
  }

  /**
   * `CppLambdaTraits<FN>::FunctionType`: the `std::function` with the
   * signature of the class's `operator()`. A class without one is rejected
   * at compile time.
   */
  function LambdaFunctionType(c: CallableType): (r: Option<CallableType>)
    requires CouldBeLambda(c)
    ensures r.Some? <==> c.callOperator.Some?
    ensures r.Some? ==> r.value.StdFunction? && r.value.sig == c.callOperator.value
    ensures r.Some? ==> !CouldBeLambda(r.value)
  {
    match c.callOperator
    case None => None
    case Some(s) => Some(StdFunction(s))
  }
}
