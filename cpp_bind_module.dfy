/**
 * The module builder of include/CppBindModule.h: opening and closing
 * modules (plain script objects linked to their enclosing scope through
 * `___parent`), and installing constants, variables, properties, functions
 * and the module factory on them. Classes opened inside a module are bound
 * by the class builder.
 */
module CppBindModule {
  import opened Wrappers
  import opened V8Value
  import opened CppArg
  import opened CppInvoke
  import opened BindTable
  import opened CppBindClass

  // ---------------------------------------------------------------------------
  // What the variable registrations install on a module

  /**
   * `addVariable(name, v[, writable])` and the const-pointer overload: a
   * writable mutable variable gets a getter and a setter; any other gets a
   * getter and is read-only.
   */
  function ModuleVariableProp(target: nat, form: VariableForm): (p: Prop)
    ensures p.Accessor? && p.getter == VarGetter(target, ByCopy)
    ensures p.setter.Some? <==> VariableWritable(form)
    ensures p.readOnly <==> p.setter.None?
    ensures p.setter.Some? ==> p.setter.value == VarSetter(target)
  {
    if VariableWritable(form) then Accessor(VarGetter(target, ByCopy), Some(VarSetter(target)), false)
    else Accessor(VarGetter(target, ByCopy), None, true)
  }

  /**
   * `addVariableRef`: the same rule with a reference getter; a variable
   * that is not copy-assignable or is const is always read-only.
   */
  function ModuleVariableRefProp(target: nat, form: VariableRefForm): (p: Prop)
    ensures p.Accessor? && p.getter == VarGetter(target, RefPassing(form))
    ensures p.setter.Some? <==> form == CopyAssignableRef(true)
    ensures p.readOnly <==> p.setter.None?
    ensures p.getter.passing == ByConstRef <==> form.ConstRef?
  {
    if VariableRefWritable(form) then Accessor(VarGetter(target, ByRef), Some(VarSetter(target)), false)
    else Accessor(VarGetter(target, RefPassing(form)), None, true)
  }

  /**
   * A module and a class install the same getter and the same setter for a
   * variable; they differ only in that the class's accessor is always
   * read-only, while the module's is read-only exactly when it has no
   * setter.
   */
  lemma ModuleAndClassVariablesAgree(target: nat, form: VariableForm)
    ensures var m := ModuleVariableProp(target, form);
            var c := ClassAccessor(VarGetter(target, ByCopy), VarSetter(target), VariableWritable(form));
            m.getter == c.getter && m.setter == c.setter && c.readOnly && (m.readOnly <==> !VariableWritable(form))
  {
  }

  // ---------------------------------------------------------------------------
  // The factory check

  /**
   * The check `addFactory` passes as written: the third template argument
   * of `CppBindMethod` is the check, and `2` is `CHK_SETTER`.
   */
  function FactoryBindingAsWritten(c: CallableType, specs: Option<seq<ArgSpec>>): (r: Result<BoundMethod, BindError>)
    ensures r.Ok? ==> SigOf(c).Some? && SigOf(c).value.ret.ReturnsVoid? && SlotCount(specs, |SigOf(c).value.params|) == 1
  {
    MethodBinding(SetterCheck, c, specs)
  }

  /** The check a factory evidently needs: none beyond the binding of a plain function. */
  function FactoryBinding(c: CallableType, specs: Option<seq<ArgSpec>>): (r: Result<BoundMethod, BindError>)
    ensures r.Ok? <==>
      && Normalize(c).Some? && !c.MemberPointer?
      && CheckSpecs(specs, |SigOf(c).value.params|).None?
  {
    MethodBinding(Normal, c, specs)
  }

  /**
   * As written, a factory that returns the object it makes does not bind,
   * whatever it takes; the intended check accepts it.
   */
  lemma FactoryCheckRejectsFactories(params: seq<ParamType>)
    ensures FactoryBindingAsWritten(FunctionPointer(Sig(ReturnsValue, params)), None) == Err(NotSetter)
    ensures FactoryBinding(FunctionPointer(Sig(ReturnsValue, params)), None).Ok?
  {
  }

  // ---------------------------------------------------------------------------
  // Opening and closing modules

  /**
   * `beginModule(name)`: an own property under `name` is reused as it is
   * (`None` when it is not an object); otherwise a fresh object holding a
   * `___parent` link is stored under `name`.
   */
  method BeginModule(reg: Registry, h: ObjId, name: string) returns (m: Option<ObjId>)
    requires reg.Valid() && h in reg.props
    modifies reg
    ensures reg.Valid()
    ensures m.Some? ==> m.value in reg.props
    ensures name in old(reg.props[h]) ==>
      && reg.props == old(reg.props) && reg.templates == old(reg.templates) && reg.next == old(reg.next)
      && m == (var p := old(reg.props[h][name]); if p.Entry? then Some(p.id) else None)
    ensures name !in old(reg.props[h]) ==>
      && m == Some(old(reg.next)) && m.value !in old(reg.props)
      && reg.props == old(reg.props)[m.value := map[ParentKey := Entry(h)]][h := old(reg.props[h])[name := Entry(m.value)]]
      && reg.templates == old(reg.templates)
  {
    if name in reg.props[h] {
      var p := reg.props[h][name];
      m := if p.Entry? then Some(p.id) else None;
    } else {
      var o := reg.NewObject();
      reg.SetOwn(o, ParentKey, Entry(h));
      reg.SetOwn(h, name, Entry(o));
      m := Some(o);
    }
  }

  /** `endModule()`: the scope stored under `___parent`, the same lookup as `endClass`. */
  function EndModule(reg: Registry, m: ObjId): (p: Option<ObjId>)
    reads reg
    requires m in reg.props
    ensures p.Some? <==> ParentKey in reg.props[m] && reg.props[m][ParentKey].Entry?
    ensures p.Some? ==> reg.props[m][ParentKey] == Entry(p.value)
  {
    EndClass(reg, m)
  }

  /** Opening a new module and closing it again returns to the scope it was opened in. */
  method ModuleRoundTrip(reg: Registry, h: ObjId, name: string) returns (back: Option<ObjId>)
    requires reg.Valid() && h in reg.props && name !in reg.props[h]
    modifies reg
    ensures reg.Valid() && back == Some(h)
  {
    var m := BeginModule(reg, h, name);
    back := EndModule(reg, m.value);
  }

  /**
   * Reopening a module by name yields the same object, and what was
   * registered on it the first time is still there.
   */
  method ReopenModule(reg: Registry, h: ObjId, name: string, key: string, v: RtValue) returns (first: Option<ObjId>, second: Option<ObjId>)
    requires reg.Valid() && h in reg.props && key != name
    modifies reg
    ensures reg.Valid()
    ensures first.Some? ==> second == first && first.value in reg.props && key in reg.props[first.value] && reg.props[first.value][key] == Constant(v, true)
  {
    first := BeginModule(reg, h, name);
    if first.Some? {
      AddConstant(reg, first.value, key, v);
      assert name in reg.props[h];
    }
    second := BeginModule(reg, h, name);
  }

  // ---------------------------------------------------------------------------
  // Registrations

  /** `addConstant(name, v)`: a read-only value. */
  method AddConstant(reg: Registry, m: ObjId, name: string, v: RtValue)
    requires reg.Valid() && m in reg.props
    modifies reg
    ensures reg.Valid()
    ensures reg.props == old(reg.props)[m := old(reg.props[m])[name := Constant(v, true)]]
    ensures reg.templates == old(reg.templates)
  {
    reg.SetOwn(m, name, Constant(v, true));
  }

  /** `addVariable(name, v[, writable])` and `addVariable(name, const V *)`. */
  method AddVariable(reg: Registry, m: ObjId, name: string, target: nat, form: VariableForm)
    requires reg.Valid() && m in reg.props
    modifies reg
    ensures reg.Valid()
    ensures reg.props == old(reg.props)[m := old(reg.props[m])[name := ModuleVariableProp(target, form)]]
    ensures reg.templates == old(reg.templates)
  {
    reg.SetOwn(m, name, ModuleVariableProp(target, form));
  }

  /** `addVariableRef` in its three forms. */
  method AddVariableRef(reg: Registry, m: ObjId, name: string, target: nat, form: VariableRefForm)
    requires reg.Valid() && m in reg.props
    modifies reg
    ensures reg.Valid()
    ensures reg.props == old(reg.props)[m := old(reg.props[m])[name := ModuleVariableRefProp(target, form)]]
    ensures reg.templates == old(reg.templates)
  {
    reg.SetOwn(m, name, ModuleVariableRefProp(target, form));
  }

  /** `addProperty(name, get, set)`: a getter and a setter, writable. */
  method AddProperty(reg: Registry, m: ObjId, name: string, getFn: nat, getType: CallableType, setFn: nat, setType: CallableType)
    requires reg.Valid() && m in reg.props
    requires MethodBinding(GetterCheck, getType, None).Ok? && MethodBinding(SetterCheck, setType, None).Ok?
    modifies reg
    ensures reg.Valid()
    ensures reg.props == old(reg.props)[m := old(reg.props[m])[name := Accessor(FunctionCall(getFn), Some(FunctionCall(setFn)), false)]]
    ensures reg.templates == old(reg.templates)
  {
    reg.SetOwn(m, name, Accessor(FunctionCall(getFn), Some(FunctionCall(setFn)), false));
  }

  /** `addProperty(name, get)`: a getter, read-only. */
  method AddGetterProperty(reg: Registry, m: ObjId, name: string, getFn: nat, getType: CallableType)
    requires reg.Valid() && m in reg.props
    requires MethodBinding(GetterCheck, getType, None).Ok?
    modifies reg
    ensures reg.Valid()
    ensures reg.props == old(reg.props)[m := old(reg.props[m])[name := Accessor(FunctionCall(getFn), None, true)]]
    ensures reg.templates == old(reg.templates)
  {
    reg.SetOwn(m, name, Accessor(FunctionCall(getFn), None, true));
  }

  /** `addFunction(name, proc[, ARGS])`: a function, not read-only. */
  method AddFunction(reg: Registry, m: ObjId, name: string, fn: nat, fnType: CallableType, specs: Option<seq<ArgSpec>>)
    requires reg.Valid() && m in reg.props
    requires MethodBinding(Normal, fnType, specs).Ok?
    modifies reg
    ensures reg.Valid()
    ensures reg.props == old(reg.props)[m := old(reg.props[m])[name := Method(FunctionCall(fn), false)]]
    ensures reg.templates == old(reg.templates)
  {
    reg.SetOwn(m, name, Method(FunctionCall(fn), false));
  }

  /** `addFactory(proc[, ARGS])`: the factory under `__call`, replacing any earlier one. */
  method AddFactory(reg: Registry, m: ObjId, fn: nat, fnType: CallableType, specs: Option<seq<ArgSpec>>)
    requires reg.Valid() && m in reg.props
    requires FactoryBinding(fnType, specs).Ok?
    modifies reg
    ensures reg.Valid()
    ensures reg.props == old(reg.props)[m := old(reg.props[m])[CallKey := Method(FunctionCall(fn), false)]]
    ensures reg.templates == old(reg.templates)
  {
    reg.SetOwn(m, CallKey, Method(FunctionCall(fn), false));
  }

  /** `addFactory(name)`: a `__call` that forwards to the factory or constructor of the member `name`. */
  method AddForwardingFactory(reg: Registry, m: ObjId, name: string)
    requires reg.Valid() && m in reg.props
    modifies reg
    ensures reg.Valid()
    ensures reg.props == old(reg.props)[m := old(reg.props[m])[CallKey := Method(ForwardCall(name), false)]]
    ensures reg.templates == old(reg.templates)
  {
    reg.SetOwn(m, CallKey, Method(ForwardCall(name), false));
  }

  /** A second factory replaces the first: only the last one stays under `__call`. */
  method FactoryReplaced(reg: Registry, m: ObjId, fn1: nat, fn2: nat, fnType: CallableType, target: string)
    requires reg.Valid() && m in reg.props
    requires FactoryBinding(fnType, None).Ok?
    modifies reg
    ensures reg.Valid() && m in reg.props
    ensures CallKey in reg.props[m] && reg.props[m][CallKey] == Method(ForwardCall(target), false)
  {
    AddFactory(reg, m, fn1, fnType, None);
    AddFactory(reg, m, fn2, fnType, None);
    AddForwardingFactory(reg, m, target);
  }

  /** `beginClass<T>(name)`: a class bound in this module. */
  method BeginModuleClass(reg: Registry, m: ObjId, name: string) returns (c: Option<ObjId>)
    requires reg.Valid() && m in reg.props
    modifies reg
    ensures reg.Valid()
    ensures c.Some? ==> c.value in reg.templates && c.value in reg.props
    ensures name !in old(reg.props[m]) ==> c.Some? && EndClass(reg, c.value) == Some(m) && reg.templates[c.value].inherit.None?
  {
    c := BindClass(reg, m, name);
  }

  /** `beginExtendClass<T, SUPER>(name)`: a class bound in this module, inheriting from `SUPER` when new. */
  method BeginModuleExtendClass(reg: Registry, m: ObjId, name: string, super: TypeId) returns (c: Option<ObjId>)
    requires reg.Valid() && m in reg.props
    modifies reg
    ensures reg.Valid()
    ensures c.Some? ==> c.value in reg.templates && c.value in reg.props
    ensures name !in old(reg.props[m]) ==> c.Some? && EndClass(reg, c.value) == Some(m) && reg.templates[c.value].inherit == Some(super)
    ensures name in old(reg.props[m]) ==> reg.templates == old(reg.templates)
  {
    c := ExtendClass(reg, m, name, super);
  }
}
