/**
 * The class builder of include/CppBindClass.h: the bind-time shape checks
 * of bound functions and methods, the registration calls of `CppBindClass`
 * (opening, extending and closing a class; constants, static and instance
 * variables, properties, functions, constructors and factories), and the
 * three call paths the installed callbacks run: a free function, a class
 * method on `this`, and a constructor.
 */
module CppBindClass {
  import opened Wrappers
  import opened V8Value
  import opened CppArg
  import opened CppInvoke
  import opened CppObject
  import opened BindTable

  // ---------------------------------------------------------------------------
  // Bind-time checks

  /** `CppBindMethodCheck`. */
  datatype Check = Normal | GetterCheck | SetterCheck

  /** Why a binding does not compile, one constructor per `static_assert` or missing specialisation. */
  datatype BindError =
    | NotGetter               // "the specified function is not getter function"
    | NotSetter               // "the specified function is not setter function"
    | SpecCountMismatch       // "the number of arguments and argument-specs do not match"
    | ReceiverMismatch        // "class type and member function does not match" (member pointers),
                              // "class type and function argument type does not match" (proxies)
    | SpecTypeRejected(index: nat)  // an output spec over a type that is not a non-const lvalue reference
    | NotCallable             // no specialisation matches the callable

  /**
   * The getter and setter assertions: a getter returns a value and takes no
   * argument, a setter returns nothing and takes one. `arity` counts the
   * parameters the call fills (the specs when given, else the native ones).
   */
  function ShapeCheck(chk: Check, ret: ReturnKind, arity: nat): (r: Option<BindError>)
    ensures chk == Normal ==> r.None?
    ensures chk == GetterCheck ==> (r.None? <==> ret.ReturnsValue? && arity == 0) && (r.Some? ==> r.value == NotGetter)
    ensures chk == SetterCheck ==> (r.None? <==> ret.ReturnsVoid? && arity == 1) && (r.Some? ==> r.value == NotSetter)
  {
    match chk
    case Normal => None
    case GetterCheck => if ret.ReturnsValue? && arity == 0 then None else Some(NotGetter)
    case SetterCheck => if ret.ReturnsVoid? && arity == 1 then None else Some(NotSetter)
  }

  /** The signature a callable is called with: a class's call operator, or its declared signature. */
  function SigOf(c: CallableType): Option<Sig>
  {
    if c.ClassObject? then c.callOperator else Some(c.sig)
  }

  /**
   * The forwarding specialisations of `CppBindMethod` and
   * `CppBindClassMethod`: a function type becomes a function pointer and a
   * lambda becomes the `std::function` of its call operator; function
   * pointers, `std::function` and member pointers are taken as they are.
   */
  function Normalize(c: CallableType): (r: Option<CallableType>)
    ensures r.Some? <==> SigOf(c).Some?
    ensures r.Some? ==> !CouldBeLambda(r.value) && !r.value.FunctionType?
    ensures r.Some? ==> SigOf(r.value) == SigOf(c)
    ensures r.Some? && c.MemberPointer? ==> r.value == c
  {
    match c
    case FunctionType(s) => Some(FunctionPointer(s))
    case ClassObject(_) => LambdaFunctionType(c)
    case _ => Some(c)
  }

  /** Normalising twice changes nothing. */
  lemma NormalizeIdempotent(c: CallableType)
    requires Normalize(c).Some?
    ensures Normalize(Normalize(c).value) == Normalize(c)
  {
  }

  /** The first spec whose type is rejected, if any. */
  function FirstRejectedSpec(specs: seq<ArgSpec>, from: nat): (r: Option<nat>)
    requires from <= |specs|
    ensures r.None? <==> forall i :: from <= i < |specs| ==> SpecTypeAccepted(specs[i].kind, specs[i].declared)
    ensures r.Some? ==> from <= r.value < |specs| && !SpecTypeAccepted(specs[r.value].kind, specs[r.value].declared)
    ensures r.Some? ==> forall i :: from <= i < r.value ==> SpecTypeAccepted(specs[i].kind, specs[i].declared)
    decreases |specs| - from
  {
    if from == |specs| then None
    else if !SpecTypeAccepted(specs[from].kind, specs[from].declared) then Some(from)
    else FirstRejectedSpec(specs, from + 1)
  }

  predicate AllSpecsAccepted(specs: seq<ArgSpec>)
  {
    forall i :: 0 <= i < |specs| ==> SpecTypeAccepted(specs[i].kind, specs[i].declared)
  }

  /**
   * The specs of an explicit `_arg(*)(P...)` must be as many as the native
   * parameters, and each output spec must wrap a mutable reference.
   */
  function CheckSpecs(specs: Option<seq<ArgSpec>>, nativeArity: nat): (r: Option<BindError>)
    ensures r.None? <==> specs.None? || (|specs.value| == nativeArity && AllSpecsAccepted(specs.value))
  {
    match specs
    case None => None
    case Some(ss) =>
      if |ss| != nativeArity then Some(SpecCountMismatch)
      else match FirstRejectedSpec(ss, 0)
        case Some(i) => Some(SpecTypeRejected(i))
        case None => None
  }

  /** The number of slots the call fills: the specs when given, else the native parameters. */
  function SlotCount(specs: Option<seq<ArgSpec>>, nativeArity: nat): nat
  {
    if specs.Some? then |specs.value| else nativeArity
  }

  /** A free function that binds: its return kind and the number of slots its call fills. */
  datatype BoundMethod = BoundMethod(ret: ReturnKind, arity: nat)

  /**
   * `CppBindMethod<FN, ARGS, CHK>`: a free function, static function,
   * factory or property accessor. Member pointers do not bind here.
   */
  function MethodBinding(chk: Check, c: CallableType, specs: Option<seq<ArgSpec>>): (r: Result<BoundMethod, BindError>)
    ensures r.Ok? <==>
      && Normalize(c).Some? && !c.MemberPointer?
      && CheckSpecs(specs, |SigOf(c).value.params|).None?
      && ShapeCheck(chk, SigOf(c).value.ret, SlotCount(specs, |SigOf(c).value.params|)).None?
    ensures r.Ok? ==> r.value == BoundMethod(SigOf(c).value.ret, |SigOf(c).value.params|)
  {
    match Normalize(c)
    case None => Err(NotCallable)
    case Some(n) =>
      if n.MemberPointer? then Err(NotCallable)
      else
        var s := SigOf(n).value;
        match CheckSpecs(specs, |s.params|)
        case Some(e) => Err(e)
        case None =>
          match ShapeCheck(chk, s.ret, SlotCount(specs, |s.params|))
          case Some(e) => Err(e)
          case None => Ok(BoundMethod(s.ret, |s.params|))
  }

  /** `std::is_base_of<TF, T>`: a class is a base of itself and of whatever `derives` says derives from it. */
  predicate BaseOf(derives: set<(TypeId, TypeId)>, base: TypeId, derived: TypeId)
  {
    base == derived || (base, derived) in derives
  }

  /** A class method that binds: member or proxy, const or not, and what its call fills. */
  datatype BoundClassMethod = BoundClassMethod(isProxy: bool, isConst: bool, ret: ReturnKind, arity: nat)

  /** The receiver a proxy function takes first: a pointer to a class. */
  predicate HasReceiver(s: Sig)
  {
    |s.params| >= 1 && s.params[0].ref == NotRef && s.params[0].pointee.Some?
  }

  /**
   * How a normalised callable receives the object: as `this` of a member
   * function of `TF`, or as the leading `TF *` of a proxy. `None` when
   * neither applies.
   */
  function ReceiverOf(n: CallableType): (r: Option<(bool, Pointee, nat)>)
    requires !n.ClassObject?
  {
    if n.MemberPointer? then Some((false, Pointee(n.owner, n.isConst), |n.sig.params|))
    else if HasReceiver(n.sig) then Some((true, n.sig.params[0].pointee.value, |n.sig.params| - 1))
    else None
  }

  /**
   * `CppBindClassMethod<T, FN, ARGS, CHK>`: a member function of a base of
   * `T`, or a proxy whose first parameter points to a base of `T`.
   */
  function ClassMethodBinding(chk: Check, classT: TypeId, derives: set<(TypeId, TypeId)>, c: CallableType, specs: Option<seq<ArgSpec>>)
    : (r: Result<BoundClassMethod, BindError>)
    ensures r.Ok? <==>
      && Normalize(c).Some? && ReceiverOf(Normalize(c).value).Some?
      && var (isProxy, recv, arity) := ReceiverOf(Normalize(c).value).value;
      && BaseOf(derives, recv.ty, classT)
      && CheckSpecs(specs, arity).None?
      && ShapeCheck(chk, SigOf(c).value.ret, SlotCount(specs, arity)).None?
    ensures r.Ok? ==> r.value.isProxy == !c.MemberPointer? && r.value.ret == SigOf(c).value.ret
    ensures r.Ok? && c.MemberPointer? ==> r.value.isConst == c.isConst && r.value.arity == |c.sig.params|
  {
    match Normalize(c)
    case None => Err(NotCallable)
    case Some(n) =>
      match ReceiverOf(n)
      case None => Err(NotCallable)
      case Some((isProxy, recv, arity)) =>
        if !BaseOf(derives, recv.ty, classT) then Err(ReceiverMismatch)
        else
          match CheckSpecs(specs, arity)
          case Some(e) => Err(e)
          case None =>
            match ShapeCheck(chk, n.sig.ret, SlotCount(specs, arity))
            case Some(e) => Err(e)
            case None => Ok(BoundClassMethod(isProxy, recv.isConst, n.sig.ret, arity))
  }

  /** A member function of an unrelated class does not bind. */
  lemma UnrelatedMemberRejected(classT: TypeId, other: TypeId, s: Sig)
    requires other != classT
    ensures ClassMethodBinding(Normal, classT, {}, MemberPointer(other, false, s), None) == Err(ReceiverMismatch)
  {
  }

  // ---------------------------------------------------------------------------
  // What the variable registrations install

  /** The pointer forms of `addVariable` / `addStaticVariable`. */
  datatype VariableForm = MutableVar(writable: bool) | ConstVar

  /** The forms of `addVariableRef` / `addStaticVariableRef`, chosen by copy-assignability and constness. */
  datatype VariableRefForm = CopyAssignableRef(writable: bool) | NonCopyAssignableRef | ConstRef

  predicate VariableWritable(form: VariableForm)
  {
    form == MutableVar(true)
  }

  predicate VariableRefWritable(form: VariableRefForm)
  {
    form == CopyAssignableRef(true)
  }

  function RefPassing(form: VariableRefForm): Passing
  {
    if form.ConstRef? then ByConstRef else ByRef
  }

  /**
   * A class's accessor: a getter, a setter only for a writable mutable
   * variable, and always `v8::ReadOnly`.
   */
  function ClassAccessor(getter: Callback, setter: Callback, writable: bool): (p: Prop)
    ensures p.Accessor? && p.readOnly && p.getter == getter
    ensures p.setter.Some? <==> writable
    ensures p.setter.Some? ==> p.setter.value == setter
  {
    Accessor(getter, if writable then Some(setter) else None, true)
  }

  // ---------------------------------------------------------------------------
  // Opening and closing classes

  /**
   * `CppBindClass::bind(parent, name)`: an own property under `name` is
   * reused as it is (`None` when it is not a class); otherwise a new class
   * is created with one internal field and a `___parent` link, and stored
   * under `name`.
   */
  method BindClass(reg: Registry, parent: ObjId, name: string) returns (c: Option<ObjId>)
    requires reg.Valid() && parent in reg.props
    modifies reg
    ensures reg.Valid()
    ensures name in old(reg.props[parent]) ==>
      && reg.props == old(reg.props) && reg.templates == old(reg.templates) && reg.next == old(reg.next)
      && c == (var p := old(reg.props[parent][name]); if p.Entry? && p.id in reg.templates then Some(p.id) else None)
    ensures name !in old(reg.props[parent]) ==>
      && c == Some(old(reg.next)) && c.value !in old(reg.props)
      && reg.templates == old(reg.templates)[c.value := Template(name, 1, None, map[], None)]
      && reg.props == old(reg.props)[c.value := map[ParentKey := Entry(parent)]][parent := old(reg.props[parent])[name := Entry(c.value)]]
    ensures c.Some? ==> c.value in reg.templates && c.value in reg.props
  {
    if name in reg.props[parent] {
      var p := reg.props[parent][name];
      c := if p.Entry? && p.id in reg.templates then Some(p.id) else None;
    } else {
      var id := reg.NewTemplate(name);
      reg.SetOwn(id, ParentKey, Entry(parent));
      reg.SetOwn(parent, name, Entry(id));
      c := Some(id);
    }
  }

  /**
   * `CppBindClass::extend<SUPER>(parent, name)`: as `bind`, and a class it
   * creates inherits from `SUPER`. A reused class gets no inheritance link.
   */
  method ExtendClass(reg: Registry, parent: ObjId, name: string, super: TypeId) returns (c: Option<ObjId>)
    requires reg.Valid() && parent in reg.props
    modifies reg
    ensures reg.Valid()
    ensures name in old(reg.props[parent]) ==>
      && reg.props == old(reg.props) && reg.templates == old(reg.templates) && reg.next == old(reg.next)
      && c == (var p := old(reg.props[parent][name]); if p.Entry? && p.id in reg.templates then Some(p.id) else None)
    ensures name !in old(reg.props[parent]) ==>
      && c == Some(old(reg.next)) && c.value !in old(reg.props)
      && reg.templates == old(reg.templates)[c.value := Template(name, 1, None, map[], Some(super))]
      && reg.props == old(reg.props)[c.value := map[ParentKey := Entry(parent)]][parent := old(reg.props[parent])[name := Entry(c.value)]]
    ensures c.Some? ==> c.value in reg.templates && c.value in reg.props
  {
    if name in reg.props[parent] {
      var p := reg.props[parent][name];
      c := if p.Entry? && p.id in reg.templates then Some(p.id) else None;
    } else {
      var id := reg.NewTemplate(name);
      reg.SetOwn(id, ParentKey, Entry(parent));
      reg.Inherit(id, super);
      reg.SetOwn(parent, name, Entry(id));
      c := Some(id);
    }
  }

  /** `endClass()`: the scope stored under `___parent` on the class function. */
  function EndClass(reg: Registry, c: ObjId): (p: Option<ObjId>)
    reads reg
    requires c in reg.props
    ensures p.Some? <==> ParentKey in reg.props[c] && reg.props[c][ParentKey].Entry?
    ensures p.Some? ==> reg.props[c][ParentKey] == Entry(p.value)
  {
    match reg.Get(c, ParentKey)
    case Some(Entry(id)) => Some(id)
    case _ => None
  }

  /** `beginClass<SUB>(name)` inside a class: binds a nested class to this class's function. */
  method BeginClass(reg: Registry, c: ObjId, name: string) returns (sub: Option<ObjId>)
    requires reg.Valid() && c in reg.templates
    modifies reg
    ensures reg.Valid()
    ensures sub.Some? ==> sub.value in reg.templates && sub.value in reg.props
    ensures name !in old(reg.props[c]) ==> sub.Some? && EndClass(reg, sub.value) == Some(c)
    ensures name in old(reg.props[c]) ==> reg.props == old(reg.props) && reg.templates == old(reg.templates)
  {
    sub := BindClass(reg, c, name);
  }

  /** `beginExtendClass<SUB, SUPER>(name)` inside a class. */
  method BeginExtendClass(reg: Registry, c: ObjId, name: string, super: TypeId) returns (sub: Option<ObjId>)
    requires reg.Valid() && c in reg.templates
    modifies reg
    ensures reg.Valid()
    ensures sub.Some? ==> sub.value in reg.templates && sub.value in reg.props
    ensures name !in old(reg.props[c]) ==>
      sub.Some? && EndClass(reg, sub.value) == Some(c) && reg.templates[sub.value].inherit == Some(super)
    ensures name in old(reg.props[c]) ==> reg.props == old(reg.props) && reg.templates == old(reg.templates)
  {
    sub := ExtendClass(reg, c, name, super);
  }

  /**
   * Opening a new class and closing it again returns to the scope it was
   * opened in.
   */
  method BeginEndRoundTrip(reg: Registry, parent: ObjId, name: string) returns (back: Option<ObjId>)
    requires reg.Valid() && parent in reg.props && name !in reg.props[parent]
    modifies reg
    ensures reg.Valid() && back == Some(parent)
  {
    var c := BindClass(reg, parent, name);
    back := EndClass(reg, c.value);
  }

  /**
   * Reopening a class by name yields the same class, with what was
   * registered the first time still in place, and changes nothing.
   */
  method ReopenClass(reg: Registry, parent: ObjId, name: string, fnName: string, fn: nat) returns (first: Option<ObjId>, second: Option<ObjId>)
    requires reg.Valid() && parent in reg.props
    modifies reg
    ensures reg.Valid()
    ensures first.Some? ==> first.value in reg.templates
    ensures first.Some? ==> second == first && fnName in reg.templates[first.value].protoProps
  {
    first := BindClass(reg, parent, name);
    if first.Some? {
      reg.SetProto(first.value, fnName, Method(ClassMethodCall(fn), true));
      assert name in reg.props[parent];
    }
    second := BindClass(reg, parent, name);
  }

  // ---------------------------------------------------------------------------
  // Static members: own properties of the class function

  /** `addConstant(name, v)`: a read-only value on the class. */
  method AddConstant(reg: Registry, c: ObjId, name: string, v: RtValue)
    requires reg.Valid() && c in reg.templates
    modifies reg
    ensures reg.Valid()
    ensures reg.props == old(reg.props)[c := old(reg.props[c])[name := Constant(v, true)]]
    ensures reg.templates == old(reg.templates)
  {
    reg.SetOwn(c, name, Constant(v, true));
  }

  /**
   * `addStaticVariable(name, v, writable)` and its const-pointer overload:
   * a read-only accessor whose setter exists only for a writable mutable
   * variable.
   */
  method AddStaticVariable(reg: Registry, c: ObjId, name: string, target: nat, form: VariableForm)
    requires reg.Valid() && c in reg.templates
    modifies reg
    ensures reg.Valid()
    ensures reg.props == old(reg.props)[c := old(reg.props[c])[name := ClassAccessor(VarGetter(target, ByCopy), VarSetter(target), VariableWritable(form))]]
    ensures reg.templates == old(reg.templates)
  {
    reg.SetOwn(c, name, ClassAccessor(VarGetter(target, ByCopy), VarSetter(target), VariableWritable(form)));
  }

  /**
   * `addStaticVariableRef`: the getter hands out a reference (a const one
   * for a const variable); only a copy-assignable variable flagged writable
   * gets a setter.
   */
  method AddStaticVariableRef(reg: Registry, c: ObjId, name: string, target: nat, form: VariableRefForm)
    requires reg.Valid() && c in reg.templates
    modifies reg
    ensures reg.Valid()
    ensures reg.props == old(reg.props)[c := old(reg.props[c])[name := ClassAccessor(VarGetter(target, RefPassing(form)), VarSetter(target), VariableRefWritable(form))]]
    ensures reg.templates == old(reg.templates)
  {
    reg.SetOwn(c, name, ClassAccessor(VarGetter(target, RefPassing(form)), VarSetter(target), VariableRefWritable(form)));
  }

  /**
   * `addStaticProperty(name, get[, set])`: accessor functions checked as a
   * getter and a setter; read-only either way.
   */
  method AddStaticProperty(reg: Registry, c: ObjId, name: string, getFn: nat, getType: CallableType, setter: Option<(nat, CallableType)>)
    requires reg.Valid() && c in reg.templates
    requires MethodBinding(GetterCheck, getType, None).Ok?
    requires setter.Some? ==> MethodBinding(SetterCheck, setter.value.1, None).Ok?
    modifies reg
    ensures reg.Valid()
    ensures reg.props == old(reg.props)[c := old(reg.props[c])[name :=
      Accessor(FunctionCall(getFn), if setter.Some? then Some(FunctionCall(setter.value.0)) else None, true)]]
    ensures reg.templates == old(reg.templates)
  {
    var setCb := if setter.Some? then Some(FunctionCall(setter.value.0)) else None;
    reg.SetOwn(c, name, Accessor(FunctionCall(getFn), setCb, true));
  }

  /** `addStaticFunction(name, proc[, ARGS])`: a function on the class, installed without `ReadOnly`. */
  method AddStaticFunction(reg: Registry, c: ObjId, name: string, fn: nat, fnType: CallableType, specs: Option<seq<ArgSpec>>)
    requires reg.Valid() && c in reg.templates
    requires MethodBinding(Normal, fnType, specs).Ok?
    modifies reg
    ensures reg.Valid()
    ensures reg.props == old(reg.props)[c := old(reg.props[c])[name := Method(FunctionCall(fn), false)]]
    ensures reg.templates == old(reg.templates)
  {
    reg.SetOwn(c, name, Method(FunctionCall(fn), false));
  }

  /**
   * `addConstructor(ARGS)`, `addConstructor(V8_SP(SP), ARGS)` and
   * `addConstructor(V8_DEL(DEL), ARGS)`: the call handler constructs by
   * value, behind a shared pointer, or behind a `unique_ptr<T, DEL>`.
   */
  method AddConstructor(reg: Registry, c: ObjId, form: ConstructorForm, specs: seq<ArgSpec>)
    requires reg.Valid() && c in reg.templates && AllSpecsAccepted(specs)
    modifies reg
    ensures reg.Valid()
    ensures reg.templates == old(reg.templates)[c := old(reg.templates[c]).(callHandler := Some(Construct(form)))]
    ensures reg.props == old(reg.props)
  {
    reg.SetCallHandler(c, Construct(form));
  }

  /** `addFactory(proc[, ARGS])`: the call handler becomes the factory function, replacing any earlier one. */
  method AddFactory(reg: Registry, c: ObjId, fn: nat, fnType: CallableType, specs: Option<seq<ArgSpec>>)
    requires reg.Valid() && c in reg.templates
    requires MethodBinding(Normal, fnType, specs).Ok?
    modifies reg
    ensures reg.Valid()
    ensures reg.templates == old(reg.templates)[c := old(reg.templates[c]).(callHandler := Some(FunctionCall(fn)))]
    ensures reg.props == old(reg.props)
  {
    reg.SetCallHandler(c, FunctionCall(fn));
  }

  // ---------------------------------------------------------------------------
  // Instance members: the prototype template

  /** `addVariable(name, &T::v[, writable])` and the const-member overload. */
  method AddVariable(reg: Registry, c: ObjId, name: string, member: nat, form: VariableForm)
    requires reg.Valid() && c in reg.templates
    modifies reg
    ensures reg.Valid()
    ensures reg.templates == old(reg.templates)[c := old(reg.templates[c]).(protoProps :=
      old(reg.templates[c].protoProps)[name := ClassAccessor(MemberGetter(member, ByCopy), MemberSetter(member), VariableWritable(form))])]
    ensures reg.props == old(reg.props)
  {
    reg.SetProto(c, name, ClassAccessor(MemberGetter(member, ByCopy), MemberSetter(member), VariableWritable(form)));
  }

  /** `addVariableRef(name, &T::v[, writable])`: the three forms, with a reference getter. */
  method AddVariableRef(reg: Registry, c: ObjId, name: string, member: nat, form: VariableRefForm)
    requires reg.Valid() && c in reg.templates
    modifies reg
    ensures reg.Valid()
    ensures reg.templates == old(reg.templates)[c := old(reg.templates[c]).(protoProps :=
      old(reg.templates[c].protoProps)[name := ClassAccessor(MemberGetter(member, RefPassing(form)), MemberSetter(member), VariableRefWritable(form))])]
    ensures reg.props == old(reg.props)
  {
    reg.SetProto(c, name, ClassAccessor(MemberGetter(member, RefPassing(form)), MemberSetter(member), VariableRefWritable(form)));
  }

  /** `addProperty(name, get, set)`: getter and setter methods, checked as such; read-only. */
  method AddProperty(reg: Registry, c: ObjId, classT: TypeId, derives: set<(TypeId, TypeId)>, name: string,
                     getFn: nat, getType: CallableType, setFn: nat, setType: CallableType)
    requires reg.Valid() && c in reg.templates
    requires ClassMethodBinding(GetterCheck, classT, derives, getType, None).Ok?
    requires ClassMethodBinding(SetterCheck, classT, derives, setType, None).Ok?
    modifies reg
    ensures reg.Valid()
    ensures reg.templates == old(reg.templates)[c := old(reg.templates[c]).(protoProps :=
      old(reg.templates[c].protoProps)[name := Accessor(ClassMethodCall(getFn), Some(ClassMethodCall(setFn)), true)])]
    ensures reg.props == old(reg.props)
  {
    reg.SetProto(c, name, Accessor(ClassMethodCall(getFn), Some(ClassMethodCall(setFn)), true));
  }

  /** `addPropertyReadOnly(name, get)`: a getter method only. */
  method AddPropertyReadOnly(reg: Registry, c: ObjId, classT: TypeId, derives: set<(TypeId, TypeId)>, name: string,
                             getFn: nat, getType: CallableType)
    requires reg.Valid() && c in reg.templates
    requires ClassMethodBinding(GetterCheck, classT, derives, getType, None).Ok?
    modifies reg
    ensures reg.Valid()
    ensures reg.templates == old(reg.templates)[c := old(reg.templates[c]).(protoProps :=
      old(reg.templates[c].protoProps)[name := Accessor(ClassMethodCall(getFn), None, true)])]
    ensures reg.props == old(reg.props)
  {
    reg.SetProto(c, name, Accessor(ClassMethodCall(getFn), None, true));
  }

  /** `addProperty(name, get)`: exactly `addPropertyReadOnly(name, get)`. */
  method AddGetterProperty(reg: Registry, c: ObjId, classT: TypeId, derives: set<(TypeId, TypeId)>, name: string,
                           getFn: nat, getType: CallableType)
    requires reg.Valid() && c in reg.templates
    requires ClassMethodBinding(GetterCheck, classT, derives, getType, None).Ok?
    modifies reg
    ensures reg.Valid()
    ensures reg.templates == old(reg.templates)[c := old(reg.templates[c]).(protoProps :=
      old(reg.templates[c].protoProps)[name := Accessor(ClassMethodCall(getFn), None, true)])]
    ensures reg.props == old(reg.props)
  {
    AddPropertyReadOnly(reg, c, classT, derives, name, getFn, getType);
  }

  /** `addFunction(name, proc[, ARGS])`: a method on the prototype, read-only. */
  method AddFunction(reg: Registry, c: ObjId, classT: TypeId, derives: set<(TypeId, TypeId)>, name: string,
                     fn: nat, fnType: CallableType, specs: Option<seq<ArgSpec>>)
    requires reg.Valid() && c in reg.templates
    requires ClassMethodBinding(Normal, classT, derives, fnType, specs).Ok?
    modifies reg
    ensures reg.Valid()
    ensures reg.templates == old(reg.templates)[c := old(reg.templates[c]).(protoProps :=
      old(reg.templates[c].protoProps)[name := Method(ClassMethodCall(fn), true)])]
    ensures reg.props == old(reg.props)
  {
    reg.SetProto(c, name, Method(ClassMethodCall(fn), true));
  }

  // ---------------------------------------------------------------------------
  // The installed callbacks at call time

  /**
   * `CppBindMethodBase::call`: a fresh slot tuple filled from argument 0,
   * then the function invoked with it. Returns the values the function
   * received and what the call hands back.
   */
  function CallFunction<R>(specs: seq<ArgSpec>, args: seq<RtValue>, f: seq<int> -> R, kind: ReturnKind): (res: (seq<int>, CallOutput<R>))
    requires AllWellFormed(specs)
    ensures |res.0| == |specs|
    ensures forall k :: 0 <= k < |specs| ==> res.0[k] == FillSlot(specs[k], ArgAt(args, k), 0)
    ensures res.1.NoValue? <==> kind.ReturnsVoid?
    ensures res.1.Value? ==> res.1.v == f(res.0)
  {
    var t := FillArgs(specs, args, 0, Zeros(|specs|));
    (t, InvokeMethod(kind, f, t))
  }

  /**
   * `CppBindClassMethodBase::call`: the object is looked up from `this`
   * first (the model stops with the `TypeError` of a failed lookup); then
   * the slots are filled and the method `*fn` invoked on it, its result
   * passed through `V8Type<R>::set`.
   */
  method CallClassMethod<R, V>(objs: map<ObjId, JsObject>, ghost rank: map<ObjId, nat>, wrappers: map<WrapperId, Wrapper>,
                               self: Handle, token: ObjId, specs: seq<ArgSpec>, args: seq<RtValue>,
                               fn: ClassCallable<ObjRef, int, R>, kind: ReturnKind, toScript: R -> V)
    returns (r: Result<CallOutput<V>, string>)
    requires WellRanked(objs, rank) && HandleIn(objs, self)
    requires forall o :: o in objs && objs[o].field0.Some? ==> objs[o].field0.value in wrappers
    requires AllWellFormed(specs)
    ensures Lookup(objs, rank, self, token, false).Err? ==>
      r == Err(Message(Lookup(objs, rank, self, token, false).error))
    ensures Lookup(objs, rank, self, token, false).Ok? ==>
      var id := Lookup(objs, rank, self, token, false).value;
      r == Ok(InvokeClassMethod(kind, fn, ObjectPtr(id, wrappers[id]), FillArgs(specs, args, 0, Zeros(|specs|)), toScript))
  {
    var obj := Get(objs, rank, wrappers, self, token);
    if obj.Err? {
      return Err(obj.error);
    }
    var t := new int[|specs|](_ => 0);
    assert t[..] == Zeros(|specs|);
    FillTuple(specs, args, 0, t);
    r := Ok(InvokeClassMethod(kind, fn, obj.value, t[..], toScript));
  }

  /**
   * `CppBindClassConstructor<T, T, ARGS>::call`: the slots are filled and
   * the object is constructed inside a new by-value wrapper on `this`.
   */
  method ConstructByValue(iso: Isolate, self: ObjId, specs: seq<ArgSpec>, args: seq<RtValue>, ctor: seq<int> -> int, wrapperSize: nat)
    returns (id: WrapperId)
    requires iso.Valid() && self in iso.objects && iso.objects[self].internalFieldCount == 1
    requires AllWellFormed(specs)
    modifies iso
    ensures iso.Valid()
    ensures id !in old(iso.wrappers) && iso.wrappers == old(iso.wrappers)[id := ValueWrapper(ctor(FillArgs(specs, args, 0, Zeros(|specs|))))]
    ensures iso.objects == old(iso.objects)[self := old(iso.objects[self]).(field0 := Some(id))]
    ensures iso.sizes == old(iso.sizes)[id := wrapperSize] && iso.weak == old(iso.weak)[id := self]
    ensures iso.externalMemory == old(iso.externalMemory) + wrapperSize
  {
    var t := new int[|specs|](_ => 0);
    assert t[..] == Zeros(|specs|);
    FillTuple(specs, args, 0, t);
    id := iso.Allocate(self, ValueWrapper(ctor(t[..])), wrapperSize);
  }

  /**
   * `CppBindClassConstructor<SP, T, ARGS>::call`: the slots are filled, the
   * object is heap-constructed at an address the allocator supplies, and a
   * shared wrapper on `this` takes ownership of it.
   */
  method ConstructShared(iso: Isolate, heap: map<Addr, int>, self: ObjId, specs: seq<ArgSpec>, args: seq<RtValue>,
                         ctor: seq<int> -> int, next: Addr, wrapperSize: nat)
    returns (id: WrapperId, heap': map<Addr, int>)
    requires iso.Valid() && self in iso.objects && iso.objects[self].internalFieldCount == 1
    requires AllWellFormed(specs) && next !in heap
    modifies iso
    ensures iso.Valid()
    ensures heap' == heap[next := ctor(FillArgs(specs, args, 0, Zeros(|specs|)))]
    ensures id !in old(iso.wrappers) && iso.wrappers == old(iso.wrappers)[id := SharedWrapper(next)]
    ensures iso.objects == old(iso.objects)[self := old(iso.objects[self]).(field0 := Some(id))]
    ensures iso.sizes == old(iso.sizes)[id := wrapperSize] && iso.weak == old(iso.weak)[id := self]
    ensures iso.externalMemory == old(iso.externalMemory) + wrapperSize
  {
    var t := new int[|specs|](_ => 0);
    assert t[..] == Zeros(|specs|);
    FillTuple(specs, args, 0, t);
    var res := ConstructNew(heap, next, ctor, t[..]);
    heap' := res.1;
    assert heap' == heap[next := ctor(t[..])];
    id := iso.Allocate(self, SharedWrapper(res.0), wrapperSize);
  }
}
