/**
 * The part of V8 the registration builders write to: script objects with
 * their own properties, and function templates with their class name,
 * instance internal-field count, call handler, prototype template and
 * inheritance link. Each script object (a module object or a class
 * function) has an id; a class's template is keyed by its function's id.
 */
module BindTable {
  import opened Wrappers
  import opened V8Value
  import opened CppArg

  /** The hidden property that links a module or class back to its enclosing scope. */
  const ParentKey: string := "___parent"

  /** The property a module factory is stored under. */
  const CallKey: string := "__call"

  /** How a variable getter hands the value to script. */
  datatype Passing = ByCopy | ByRef | ByConstRef

  /** How a constructor stores the new object. */
  datatype ConstructorForm = ByValueCtor | SharedPtrCtor | UniquePtrCtor(deleter: TypeId)

  /** The native callback behind an installed property or call handler; `target` names the native entity. */
  datatype Callback =
    | VarGetter(target: nat, passing: Passing)        // CppBindVariableGetter<V, PV>
    | VarSetter(target: nat)                          // CppBindVariableSetter<V>
    | MemberGetter(target: nat, passing: Passing)     // CppBindClassVariableGetter<T, V, PV>
    | MemberSetter(target: nat)                       // CppBindClassVariableSetter<T, V>
    | FunctionCall(fn: nat)                           // CppBindMethod<...>::call
    | ClassMethodCall(fn: nat)                        // CppBindClassMethod<...>::call
    | Construct(form: ConstructorForm)                // CppBindClassConstructor<SP, T, ARGS>::call
    | ForwardCall(name: string)                       // forwards to a sub-module factory or constructor

  /** A property as installed. */
  datatype Prop =
    | Entry(id: ObjId)                                              // a module object or class function
    | Constant(value: RtValue, readOnly: bool)
    | Accessor(getter: Callback, setter: Option<Callback>, readOnly: bool)
    | Method(callback: Callback, readOnly: bool)

  /** A class's function template. */
  datatype Template = Template(
    className: string,
    internalFieldCount: nat,
    callHandler: Option<Callback>,
    protoProps: map<string, Prop>,
    inherit: Option<TypeId>)

  /** The script objects and templates the builders reach. */
  class Registry {
    var props: map<ObjId, map<string, Prop>>
    var templates: map<ObjId, Template>
    var next: ObjId

    /** Every object and template has an id below `next`, and every entry names a known object. */
    ghost predicate Valid()
      reads this
    {
      && templates.Keys <= props.Keys
      && (forall o :: o in props ==> o < next)
      && (forall o, k :: o in props && k in props[o] && props[o][k].Entry? ==> props[o][k].id in props)
    }

    /** A registry holding only the global object, with no own properties. */
    constructor (global: ObjId)
      ensures Valid() && props == map[global := map[]] && templates == map[]
    {
      props := map[global := map[]];
      templates := map[];
      next := global + 1;
    }

    /** `Get(key)` on an object: the own property under `key`, if any. */
    function Get(o: ObjId, key: string): (p: Option<Prop>)
      reads this
      requires o in props
      ensures p.Some? <==> key in props[o]
      ensures p.Some? ==> p.value == props[o][key]
    {
      if key in props[o] then Some(props[o][key]) else None
    }

    /** `Set(key, value)` on an object: adds or replaces one own property. */
    method SetOwn(o: ObjId, key: string, p: Prop)
      requires Valid() && o in props && (p.Entry? ==> p.id in props)
      modifies this
      ensures Valid()
      ensures props == old(props)[o := old(props[o])[key := p]]
      ensures templates == old(templates) && next == old(next)
    {
      props := props[o := props[o][key := p]];
    }

    /** A property on a class's prototype template. */
    method SetProto(c: ObjId, key: string, p: Prop)
      requires Valid() && c in templates
      modifies this
      ensures Valid()
      ensures templates == old(templates)[c := old(templates[c]).(protoProps := old(templates[c].protoProps)[key := p])]
      ensures props == old(props) && next == old(next)
    {
      templates := templates[c := templates[c].(protoProps := templates[c].protoProps[key := p])];
    }

    /** `SetCallHandler`: replaces the class's call handler. */
    method SetCallHandler(c: ObjId, cb: Callback)
      requires Valid() && c in templates
      modifies this
      ensures Valid()
      ensures templates == old(templates)[c := old(templates[c]).(callHandler := Some(cb))]
      ensures props == old(props) && next == old(next)
    {
      templates := templates[c := templates[c].(callHandler := Some(cb))];
    }

    /** `Inherit`: links the class's template to the template of `super`. */
    method Inherit(c: ObjId, super: TypeId)
      requires Valid() && c in templates
      modifies this
      ensures Valid()
      ensures templates == old(templates)[c := old(templates[c]).(inherit := Some(super))]
      ensures props == old(props) && next == old(next)
    {
      templates := templates[c := templates[c].(inherit := Some(super))];
    }

    /** `Object::New`: a fresh object with no properties. */
    method NewObject() returns (o: ObjId)
      requires Valid()
      modifies this
      ensures Valid()
      ensures o == old(next) && o !in old(props)
      ensures props == old(props)[o := map[]] && templates == old(templates) && next == old(next) + 1
    {
      o := next;
      next := next + 1;
      props := props[o := map[]];
    }

    /** `FunctionTemplate::New`, `SetClassName` and one internal field per instance; its function starts with no properties. */
    method NewTemplate(className: string) returns (c: ObjId)
      requires Valid()
      modifies this
      ensures Valid()
      ensures c == old(next) && c !in old(props)
      ensures props == old(props)[c := map[]]
      ensures templates == old(templates)[c := Template(className, 1, None, map[], None)]
      ensures next == old(next) + 1
    {
      c := next;
      next := next + 1;
      props := props[c := map[]];
      templates := templates[c := Template(className, 1, None, map[], None)];
    }
  }
}
