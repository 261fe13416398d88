# V8Binding core, modelled in Dafny

V8Binding is a header-only C++ library that exposes native functions, classes and modules to JavaScript running in V8. This project models its core and proves properties of the model:

- **Argument specs** (`include/CppArg.h`). Each parameter of a bound function is declared plain, `_opt`, `_def<T, NUM, DEN>`, `_out`, `_ref`, `_ref_opt` or `_ref_def`. The spec decides:
  - whether the slot is read from the call's arguments;
  - what an `undefined` argument yields;
  - whether the type must be a mutable reference.
  
  Slots fill positionally from argument 0. A missing argument reads as `undefined`.
- **Invocation** (`include/CppInvoke.h`). The compile-time index pack unpacks the slot tuple into a call:
  - a free function, or a member function / proxy function on an object;
  - a heap or placement constructor.
  
  A lambda binds as the `std::function` of its call operator.
- **Object identity and storage** (`include/CppObject.h`):
  - the prototype-chain type check behind `getObject`, `getExactObject`, `cast` and `get`;
  - the three wrapper kinds: by value, raw pointer and shared pointer;
  - the choice among them;
  - the alignment padding of by-value storage;
  - the external-memory accounting of `allocate` / `deallocate`.
- **Registration builders** (`include/CppBindClass.h`, `include/CppBindModule.h`):
  - the bind-time checks on bound callables (getter/setter shape, spec count, receiver class);
  - what each `add*` call installs, and where;
  - opening, reopening, extending and closing classes and modules through the `___parent` link;
  - the call paths the installed callbacks run.

Files:

| file | module | contents |
|---|---|---|
| `wrappers.dfy` | `Wrappers` | `Option`, `Result` |
| `v8_value.dfy` | `V8Value` | runtime values, positional argument access, the `opt` rule |
| `arith.dfy` | `Arith` | divisibility facts used by the storage proofs |
| `cpp_arg.dfy` | `CppArg` | spec flags, integer conversion, `_def` defaults, slot and tuple fill, holders |
| `cpp_invoke.dfy` | `CppInvoke` | index pack, dispatch, invocation, construction, callable shapes |
| `cpp_object.dfy` | `CppObject` | type check, wrappers, factories, padding, allocation accounting |
| `v8_table.dfy` | `BindTable` | the V8 objects and function templates the builders write to (class `Registry`) |
| `cpp_bind_class.dfy` | `CppBindClass` | binding checks, class registrations, call paths |
| `cpp_bind_module.dfy` | `CppBindModule` | module registrations |

Modelling choices:

- **Slot values.** Native slot values are integers. Each slot carries its integral type (width and signedness) and its converter `V8Type<T>::get`, which is a parameter.
- **The V8 object graph** is a map from object ids to objects. Prototype chains are acyclic; a ghost rank map witnesses this.
- **The class token.** The prototype that identifies a class is `CppClassPersistent<T>::persistent`. It is an input to the lookup.
- **Finalisation.** Garbage-collector finalisation is an explicit call (`Isolate.Finalize`).

## Model

| member | source | states |
|---|---|---|
| CppArg.TraitsOf | include/CppArg.h:73-144 | The flags inherited through the trait specialisations give the flat table. Only `_out` is not read. The four reference and output forms are output. The `_opt`/`_def`/`_ref_opt`/`_ref_def` forms are optional. The `_def` forms have a default. |
| CppArg.FlagsConsistent | include/CppArg.h:73-144 | A default implies optional; a slot that is not read is output-only and not optional. |
| CppArg.Convert | include/CppArg.h:102 | `T(x)` is the value of `T` congruent to `x` modulo 2^width; it is in range and is `x` itself when `x` fits. |
| CppArg.TruncDiv | include/CppArg.h:102 | C++ division: the remainder is smaller than the divisor in magnitude and has the sign of the dividend. |
| CppArg.TruncDivUnique | include/CppArg.h:102 | The truncating quotient is the only quotient with that property. |
| CppArg.DefaultValue | include/CppArg.h:97-103 | `T(T(NUM) / DEN)`, divided in the common type of `T` and `intmax_t`, is a value of `T`. |
| CppArg.DefaultWithUnitDenominator | include/CppArg.h:97-103 | With the default `DEN = 1` the default is `T(NUM)`. |
| CppArg.DefaultTruncatesTowardZero | include/CppArg.h:102 | `_def<int, -7, 2>` is -3, not -4. |
| CppArg.DefaultUnsignedDivisorWraps | include/CppArg.h:102 | `_def<unsigned long long, 7, -1>` is 0, because the divisor converts to 2^64 - 1. |
| CppArg.SlotPolicy | include/CppArg.h:146-181 | `_out` leaves the slot as it was. Plain and `_ref` slots convert the argument. Optional slots give 0 for `undefined`. Defaulted slots give the `_def` value for `undefined`. Otherwise every slot converts the argument. |
| CppArg.FillRestAt | include/CppArg.h:222-241 | The recursive tuple input leaves slots before the trailing specs untouched and fills slot `j` from argument `index + j`. |
| CppArg.FillArgs | include/CppArg.h:222-241 | Slot `j` is filled from argument `index + j` by its own spec, independently of every other slot. |
| CppArg.EmptySpecsFillNothing | include/CppArg.h:225-230 | No specs: nothing is filled. |
| CppArg.FillTuple | include/CppArg.h:232-241 | The in-place fill, one slot per step while the argument index advances, produces `FillArgs` of the old tuple. |
| CppArg.OutputSlotStartsAtZero | include/CppArg.h:149-153 | In a freshly value-initialised tuple an `_out` slot reaches the callee as 0, whatever the script passed. |
| CppArg.DefaultedSecondArgument | include/CppArg.h:174-181 | Specs `(int, _def<int, 0>)` called with the single argument 5 give slots `[5, 0]`. |
| CppArg.SpecTypeAccepted | include/CppArg.h:105-144 | A spec type is accepted iff the spec is not an output spec or the type is a non-const lvalue reference. |
| CppArg.ValueHolder.constructor | include/CppArg.h:36-55 | A value holder in a fresh tuple holds 0. |
| CppArg.ValueHolder.Hold | include/CppArg.h:49-52 | `hold` stores a copy of the value. |
| CppArg.RefHolder.constructor | include/CppArg.h:57-71 | A reference holder in a fresh tuple holds null. |
| CppArg.RefHolder.Hold | include/CppArg.h:65-68 | `hold` stores the address of the referent. |
| CppArg.RefHolder.Value | include/CppArg.h:60-63 | `value()` is the referent itself. |
| CppArg.AssignThroughHolder | include/CppArg.h:57-71 | A callee assigning through a reference slot writes the caller's referent. |
| CppInvoke.IndexPack | include/CppInvoke.h:38-40 | Recursing on `N - 1` and prepending `N - 1` builds the pack `0 .. N-1` in front of the accumulator. |
| CppInvoke.Unpack | include/CppInvoke.h:42-49 | Expanding the full index pack passes the tuple's values in slot order. |
| CppInvoke.DispatchMethod | include/CppInvoke.h:38-49 | The function receives exactly the tuple. |
| CppInvoke.InvokeMethod | include/CppInvoke.h:51-68 | A `void` function yields nothing; any other yields its own result. |
| CppInvoke.DispatchClassMethod | include/CppInvoke.h:104-124 | A member function gets the object as `this` and the slots. A proxy gets the object pointer first, then the slots. |
| CppInvoke.InvokeClassMethod | include/CppInvoke.h:126-142 | A `void` method yields nothing; any other yields its result converted by `V8Type<R>::set`. |
| CppInvoke.ConstructAt | include/CppInvoke.h:82-85 | Placement construction puts the object built from the slots at `mem` and returns `mem`. |
| CppInvoke.ConstructNew | include/CppInvoke.h:77-80 | `new T(...)` returns an address not in use before, holding the new object, and leaves every other object alone. |
| CppInvoke.LambdaFunctionType | include/CppInvoke.h:22-36 | A class with a call operator becomes the `std::function` of that operator's signature; one without is rejected. |
| CppObject.Walk | include/CppObject.h:105-133 | The walk fails only with "wrong type". In exact mode it succeeds iff the first prototype is the class token. |
| CppObject.WalkFindsTokenOnChain | include/CppObject.h:105-133 | The inherited walk succeeds iff the class token is on the prototype chain. |
| CppObject.LookupOutcomes | include/CppObject.h:84-135 | Undefined or no internal field gives "empty". A null field gives "got NULL". Otherwise success iff the prototype check passes, and success yields the wrapper in field 0. |
| CppObject.ExactImpliesInherited | include/CppObject.h:57-67 | What `getExactObject` accepts, `getObject` accepts with the same wrapper. |
| CppObject.GetObject | include/CppObject.h:84-135 | The `while (true)` walk returns the lookup's wrapper, or null. A `TypeError` with the exact message is thrown iff errors are raised. |
| CppObject.IsSharedPtr | include/CppObject.h:50-53 | Only the shared wrapper reports itself shared. |
| CppObject.ObjectPtr | include/CppObject.h:165-235 | By value, the object is inside the wrapper; the raw and shared wrappers point at their external object. |
| CppObject.MappingOf | include/CppObject.h:331-338 | A shared pointer is always by reference and takes its constness from the pointee. Otherwise the flags are the parameters. |
| CppObject.FactoryOf | include/CppObject.h:278-329 | Shared mappings use the shared factory. Non-reference mappings use the by-value factory; the rest use the raw-pointer factory. |
| CppObject.EveryMappingHasFactory | include/CppObject.h:336-343 | Every mapping satisfies the precondition of `FactoryOf`, so the missing specialisation is never selected. |
| CppObject.ValueFactoryAsWritten | include/CppObject.h:284-287 | The by-value factory as written stores a default-constructed object. |
| CppObject.ValueFactoryDropsObject | include/CppObject.h:284-287 | A value other than the default is lost. |
| CppObject.ValueFactory | include/CppObject.h:284-287 | The corrected factory stores a copy of `obj`. |
| CppObject.FactoryInstance | include/CppObject.h:280-318 | Corrected (Findings row 3): by value stores a copy of the given object. A shared pointer is wrapped iff it is not null. A raw pointer gets a pointer wrapper iff it is not null, the guard of `V8TypeMapping<T*>::instance` (include/CppObject.h, lines 366 to 372); a reference is never null. |
| CppObject.SharedCast | include/CppObject.h:320-328 | A non-shared wrapper raises "is not shared object!"; a shared one yields its pointer. |
| CppObject.PaddingPlacesObject | include/CppObject.h:144-156 | With power-of-two alignments the offset is below `MAX_PADDING` (the constructor's assert). The object is aligned for `T` and stays clear of the last byte. |
| CppObject.NoPaddingIsAligned | include/CppObject.h:198-200 | Without padding, `data` itself is aligned for `T`. |
| CppObject.ValueStorage.constructor | include/CppObject.h:144-156 | Corrected (Findings row 1): the constructor records the whole padding offset in the last cell when padding is possible. |
| CppObject.ValueStorage.ObjectPtr | include/CppObject.h:165-175 | Corrected (Findings row 1): `objectPtr()` is aligned for `T` and the object fits in `data` (below the last cell when padded). |
| CppObject.StoredOffsetAsWritten | include/CppObject.h:154 | The stored byte is below 256 and equals the offset when the offset fits. |
| CppObject.AsWrittenAgreesWhenPaddingFitsAByte | include/CppObject.h:148-154 | If `MAX_PADDING <= 256`, the pointer computed from the stored byte is aligned. |
| CppObject.OffsetTruncationMisaligns | include/CppObject.h:148-154 | A 512-aligned type with `data` at 8 stores 248 for the offset 504, and its object lands at 256, which is misaligned. |
| CppObject.NegatedSizeAsInt64 | include/CppObject.h:39 | `static_cast<int64_t>(-sizeof(T))` is `-size`; `Isolate.Finalize` adjusts the external memory by this amount. |
| CppObject.Isolate.Allocate | include/CppObject.h:23-33 | Corrected (Findings row 2): the wrapper goes into field 0, the external memory grows by its size, and a weak handle of its own to `self` is registered for it. |
| CppObject.Isolate.Finalize | include/CppObject.h:35-41 | Corrected (Findings row 2): the wrapper's own weak callback deletes it and adjusts the external memory by `int64_t(-size)`. Nothing else changes. |
| CppObject.WrapAndCollect | include/CppObject.h:23-41 | Corrected (Findings row 2): wrapping one object and running its weak callback leaves the wrappers, their sizes, the weak handles and the external memory exactly as they were. |
| CppObject.TwoWrappersNetZero | include/CppObject.h:23-41 | With one weak handle per wrapper, two allocations and their two finalisations leave the external memory and the live wrappers as they were. |
| CppObject.AllocateAsWritten | include/CppObject.h:23-33 | As written, every allocation points the single static handle at the newest object. |
| CppObject.FinalizableAsWritten | include/CppObject.h:137 | As written, at most one wrapper can still be finalised. |
| CppObject.FinalizeAsWritten | include/CppObject.h:35-41 | As written, finalising takes the size back and clears the handle. |
| CppObject.SharedHandleLeaksEarlierWrappers | include/CppObject.h:30-41 | After two 16-byte allocations and the second's finaliser, the first is live and unfinalisable, and 16 bytes stay counted. |
| CppObject.Cast | include/CppObject.h:69-74 | `cast` never throws. It yields the object pointer iff the inherited lookup succeeds. |
| CppObject.Get | include/CppObject.h:76-80 | `get` yields the object pointer on success, else the `TypeError` message of the failure. |
| CppObject.GetShared | include/CppObject.h:345-349 | Lookup failure gives its message; success gives the shared cast of the wrapper found. |
| CppObject.OptObject | include/CppObject.h:351-354 | For the by-value and by-reference class mappings and the raw-pointer mapping: `undefined` gives the default. Any other value succeeds iff the lookup does, with the found wrapper's object pointer; on failure the error is the lookup's `TypeError` message. |
| CppObject.OptShared | include/CppObject.h:345-354 | For a `shared_ptr` class mapping: `undefined` gives the default. Otherwise a failed lookup gives its `TypeError` message. A found wrapper that is not shared raises "is not shared object!". A shared wrapper yields its shared pointer. |
| CppBindClass.ShapeCheck | include/CppBindClass.h:38-42 | A getter must return a value and take nothing. A setter must return `void` and take one parameter. A normal check imposes nothing. |
| CppBindClass.Normalize | include/CppBindClass.h:89-107 | A function type becomes a pointer and a lambda becomes a `std::function`, keeping the signature. A class without a call operator is rejected. |
| CppBindClass.NormalizeIdempotent | include/CppBindClass.h:89-107 | The forwarding specialisations end after one step. |
| CppBindClass.FirstRejectedSpec | include/CppArg.h:105-144 | Finds the first spec whose type fails the output-spec assertion: it is rejected and every spec before it passes. The result is none iff all pass. |
| CppBindClass.CheckSpecs | include/CppBindClass.h:75-87 | Explicit specs must match the native parameters in number, and each spec type must be accepted. |
| CppBindClass.MethodBinding | include/CppBindClass.h:60-107 | A free callable binds iff it normalises, is not a member pointer, passes the spec checks and passes the shape check on the filled slots. |
| CppBindClass.ClassMethodBinding | include/CppBindClass.h:183-298 | A class method binds iff it is a member of a base of `T`, or a proxy whose first parameter points to one, and passes the spec and shape checks on the rest. A member keeps its constness. |
| CppBindClass.UnrelatedMemberRejected | include/CppBindClass.h:186-191 | A member function of an unrelated class gives "class type and member function does not match". |
| CppBindClass.ClassAccessor | include/CppBindClass.h:374-434 | A class variable accessor is always `ReadOnly` and has a setter iff the variable is writable. |
| CppBindClass.BindClass | include/CppBindClass.h:324-342 | An existing name is reused and nothing changes. A new name gets a template with the class name and one internal field, a `___parent` link and an entry in the parent. |
| CppBindClass.ExtendClass | include/CppBindClass.h:344-364 | As `bind`, but a class it creates inherits from `SUPER`, and a reused class gains no link. |
| CppBindClass.EndClass | include/CppBindClass.h:635-638 | `endClass` is the scope stored under `___parent`. |
| CppBindClass.BeginClass | include/CppBindClass.h:623-627 | A nested class opened under a new name closes back to the enclosing class. |
| CppBindClass.BeginExtendClass | include/CppBindClass.h:629-633 | A nested subclass opened under a new name closes back to the enclosing class and inherits from `SUPER`. |
| CppBindClass.BeginEndRoundTrip | include/CppBindClass.h:324-342 | Opening a new class and closing it returns the original scope. |
| CppBindClass.ReopenClass | include/CppBindClass.h:329-332 | Reopening yields the same class, with earlier registrations kept. |
| CppBindClass.AddConstant | include/CppBindClass.h:367-372 | The constant goes on the class, read-only. |
| CppBindClass.AddStaticVariable | include/CppBindClass.h:374-396 | A by-value getter; a setter only for a writable mutable variable. |
| CppBindClass.AddStaticVariableRef | include/CppBindClass.h:398-434 | A by-reference (const for const) getter; a setter only for a writable copy-assignable variable. |
| CppBindClass.AddStaticProperty | include/CppBindClass.h:436-457 | A getter and an optional setter that pass the getter/setter checks, installed `ReadOnly`. |
| CppBindClass.AddStaticFunction | include/CppBindClass.h:459-473 | A checked function on the class, without `ReadOnly`. |
| CppBindClass.AddConstructor | include/CppBindClass.h:475-494 | The call handler constructs by value, behind `SP` or behind `unique_ptr<T, DEL>`. |
| CppBindClass.AddFactory | include/CppBindClass.h:496-510 | The call handler becomes the checked factory. |
| CppBindClass.AddVariable | include/CppBindClass.h:512-534 | On the prototype: a member getter, and a setter only when writable and mutable. |
| CppBindClass.AddVariableRef | include/CppBindClass.h:536-572 | On the prototype: a reference getter, and a setter only when writable and copy-assignable. |
| CppBindClass.AddProperty | include/CppBindClass.h:574-584 | On the prototype: a checked getter and a checked setter, `ReadOnly`. |
| CppBindClass.AddPropertyReadOnly | include/CppBindClass.h:592-601 | On the prototype: a checked getter only. |
| CppBindClass.AddGetterProperty | include/CppBindClass.h:586-590 | The one-argument `addProperty` installs what `addPropertyReadOnly` does. |
| CppBindClass.AddFunction | include/CppBindClass.h:603-621 | A checked method on the prototype, `ReadOnly`. |
| CppBindClass.CallFunction | include/CppBindClass.h:44-51 | Slot `k` is filled from argument `k` by its spec, starting from a fresh tuple. The call returns nothing iff the function is `void`, else the function's result on those slots. |
| CppBindClass.CallClassMethod | include/CppBindClass.h:166-174 | A failed lookup of `this` gives its message, and the model stops there. Otherwise the method `*fn` runs on the object with the filled slots. |
| CppBindClass.ConstructByValue | include/CppBindClass.h:112-121 | Corrected (Findings row 2 for the accounting): a new by-value wrapper holding the object built from the filled slots goes into `this`. Its size is added to the external memory, and it gets a weak handle of its own. |
| CppBindClass.ConstructShared | include/CppBindClass.h:123-133 | Corrected (Findings row 2 for the accounting): the object is heap-built from the filled slots at a fresh address, and a shared wrapper of it goes into `this`. The wrapper's size is added to the external memory, and it gets a weak handle of its own. |
| CppBindModule.ModuleVariableProp | include/CppBindModule.h:74-101 | A getter. A setter iff writable and mutable. Read-only exactly when there is no setter. |
| CppBindModule.ModuleVariableRefProp | include/CppBindModule.h:109-152 | A reference getter (const iff the variable is const). A setter iff writable and copy-assignable. Read-only exactly when there is no setter. |
| CppBindModule.ModuleAndClassVariablesAgree | include/CppBindModule.h:74-101 | Module and class install the same getter and setter. The class is always read-only; the module is read-only iff not writable. |
| CppBindModule.FactoryBindingAsWritten | include/CppBindModule.h:204-221 | With check `2` (`CHK_SETTER`), only a `void` one-argument callable binds. |
| CppBindModule.FactoryBinding | include/CppBindModule.h:204-221 | The corrected factory check: any callable that binds as a plain function. |
| CppBindModule.FactoryCheckRejectsFactories | include/CppBindModule.h:207 | A value-returning factory is rejected as written and accepted when corrected. |
| CppBindModule.BeginModule | include/CppBindModule.h:31-47 | An existing name is reused and nothing changes. A new name gets a fresh object with `___parent` and an entry in the scope. |
| CppBindModule.EndModule | include/CppBindModule.h:49-52 | `endModule` is the scope stored under `___parent`. |
| CppBindModule.ModuleRoundTrip | include/CppBindModule.h:31-52 | Opening a new module and closing it returns the original scope. |
| CppBindModule.ReopenModule | include/CppBindModule.h:36-39 | Reopening yields the same module, with earlier registrations kept. |
| CppBindModule.AddConstant | include/CppBindModule.h:54-66 | A read-only constant on the module. |
| CppBindModule.AddVariable | include/CppBindModule.h:74-101 | Installs `ModuleVariableProp`. |
| CppBindModule.AddVariableRef | include/CppBindModule.h:109-152 | Installs `ModuleVariableRefProp`. |
| CppBindModule.AddProperty | include/CppBindModule.h:157-165 | A checked getter and setter, writable. |
| CppBindModule.AddGetterProperty | include/CppBindModule.h:170-177 | A checked getter, read-only. |
| CppBindModule.AddFunction | include/CppBindModule.h:182-199 | A checked function, not read-only. |
| CppBindModule.AddFactory | include/CppBindModule.h:204-221 | Corrected (Findings row 4): a factory that passes the normal check goes under `__call`, replacing any earlier one. |
| CppBindModule.AddForwardingFactory | include/CppBindModule.h:226-230 | A `__call` that forwards to the named member's factory or constructor. |
| CppBindModule.FactoryReplaced | include/CppBindModule.h:204-230 | After several `addFactory` calls only the last stays under `__call`. |
| CppBindModule.BeginModuleClass | include/CppBindModule.h:235-239 | A class opened under a new name in the module closes back to the module and inherits nothing. |
| CppBindModule.BeginModuleExtendClass | include/CppBindModule.h:244-248 | A class opened under a new name in the module closes back to the module and inherits from `SUPER`. |

## Left out

- The `V8Type<T>` converters (include/V8Type.h) are parameters of each slot (`RtValue -> int`). Their own conversions, including the vector and map converters, are not modelled.
- Handle scopes, `Escape`, `v8::External` and garbage-collection timing are not modelled. Finalisation is an explicit call.
- `CppArg<P>::set`, the re-export of output slots back to script, is not modelled. No call path in the core uses it.
- CppInvoke.InvokeMethod: a free function's non-`void` result is passed on as the native value. The source hands it to `Escape` without a converter, which only compiles for results that already are V8 handles.
- CppObject.Get: after a failed lookup the source goes on to call `objectPtr()` on a null pointer. The model stops with the error instead.
- CppObject.GetShared: after a failed lookup the source passes the null pointer to the shared cast, which calls `isSharedPtr()` on it. The model stops with the lookup's error instead.
- CppBindClass.CallFunction, CppBindClass.CallClassMethod: for a `void` function the source passes the `void` result of `CppInvokeMethod::call` or `CppInvokeClassMethod::call` to `GetReturnValue().Set(...)`. That is ill-formed C++, so as written no `void` function or setter can be bound. The model returns `NoValue`, as intended.
- CppBindClass.CallClassMethod: for every return type, the class-method handler passes `fn`, a `const FN *`, where `CppInvokeClassMethod::call` takes `const FN &`, so it does not compile as written. The model calls `*fn`, as intended. After a failed lookup the source goes on through `CppObject::get<T>`, which calls `objectPtr()` on a null pointer. The model stops with the lookup's error instead.
- CppBindClass.ClassMethodBinding: for a raw function-pointer proxy whose first parameter points to a proper base `TF` of `T`, `function()` does `static_cast` from `R(*)(TF *, P...)` to `R(*)(T *, P...)`, which is ill-formed. As written, only `TF == T` compiles for such proxies. The model accepts every base, as the `is_base_of` assertion intends, and as `std::function` proxies and member pointers do.
- CppArg.SlotPolicy, CppArg.SpecTypeAccepted: `_ref_def<T, NUM, DEN>` inherits the `_def` default `T(T(NUM) / DEN)`, and with `T` a non-const lvalue reference, as its own assertion demands, `T(NUM)` binds a reference to a prvalue. So no `_ref_def` spec compiles as written. The model accepts it and gives its slot the `_def` value, as intended.
- CppBindClass.ConstructByValue, CppObject.ValueStorage.constructor: the `CppObjectValue` constructor is private, and `CppObject::allocate` builds it with `new T` without being a friend. So as written no by-value wrapper can be created. The model treats the constructor as accessible. Findings row 1 is therefore latent in the code as written.
- CppObject.SharedCast: after throwing "is not shared object!" the source still casts the wrapper. The model stops with the error.
- The class token `CppClassPersistent<T>::persistent` is never assigned in the core. The lookup takes it as an input.
- The address `new` returns is a parameter of `ConstructNew` and `ConstructShared`.
- Slot values are integers, so floating-point and string `_def` defaults are not modelled. A `bool` slot is an integer slot.
- `main.cpp` is an example client and is not modelled.
- Several module members are leftovers from a Lua binding and do not exist in the shown sources: `m_meta`, `state()`, `setGetter`, `setSetter`, `setReadOnly`, `V8Ref`, `CppBindConstant` and `CppBindModuleMetaMethod`. This affects `addConstant`, `addVariable*`, `addProperty`, `addFunction`, `addFactory` and `beginClass` in include/CppBindModule.h. Only the table effect their code and comments state is modelled.
- CppBindModule.AddProperty: the source writes `CppBindMethod<FG, FG, 1, CHK_GETTER>` for both accessors. That puts an enumerator where a type is expected, and checks the setter as a getter. The model applies the getter check to the getter and the setter check to the setter.
- The variable setters cast the stored pointer to `const T *` and then assign through it, which does not compile. The model installs a setter that writes the variable.
- CppBindClass.BindClass: the source assigns the `Local<Value>` returned by `Get` to a `Local<FunctionTemplate>`. The model reuses an existing entry when it is a class, and returns `None` when the existing property is something else. CppBindModule.BeginModule returns `None` likewise when the existing property is not an object.
- CppBindClass.ReopenClass, CppBindClass.BeginEndRoundTrip and CppBindModule.ModuleRoundTrip state the round trip only for a class or module created by the call. A class reached by reuse has whatever `___parent` it was stored with.
- `_ref<T>` without an argument: the code converts `undefined` like a required slot (it inherits the plain traits). The model follows the code, not the reading that `_ref` acts as optional.
- Bound callables are identified by number (`fn`, `target`). Their native bodies are the function parameters of the call paths.

## Findings

| source | as written | input that shows it | evidently intended | confidence | as-written member | corrected member |
|---|---|---|---|---|---|---|
| include/CppObject.h:148-154 | The padding offset is stored as `static_cast<unsigned char>(offset)`, and `objectPtr()` adds that byte back. | `alignof(double)` = `alignof(void *)` = 8, `alignof(T)` = `sizeof(T)` = 512, `data` at address 8. The offset is 504, the stored byte is 248, and the object lands at 256, which is not 512-aligned. | Store the whole offset, so the object is aligned for `T`. | not executed | CppObject.OffsetTruncationMisaligns | CppObject.ValueStorage.ObjectPtr |
| include/CppObject.h:30-41 | `allocate` and `deallocate` use one static `persistent` handle for all wrappers. Each `Reset` drops the weak handle of the previous object. | Two 16-byte objects wrapped. Only the second can be finalised, so after its finaliser the first stays live and 16 bytes of external memory are never returned. | One weak handle per wrapper, so every wrapper is finalised and its size returned. | not executed | CppObject.SharedHandleLeaksEarlierWrappers | CppObject.TwoWrappersNetZero |
| include/CppObject.h:284-287 | The by-value factory `instance(self, obj)` calls `CppObjectValue<T>::instance(self)` and ignores `obj`. | Passing an object with value 7 of a type whose default is 0 stores 0. | Copy `obj` into the wrapper, as `CppObjectValue<T>::instance(self, obj)` does. | not executed | CppObject.ValueFactoryDropsObject | CppObject.ValueFactory |
| include/CppBindModule.h:207 | `addFactory` binds with `CppBindMethod<FN, FN, 2>`, and `2` is `CHK_SETTER`. | A factory `Foo *make()` returns a value and takes nothing, so it fails "the specified function is not setter function". | The normal check, as the class builder's `addFactory` uses. | not executed | CppBindModule.FactoryCheckRejectsFactories | CppBindModule.FactoryBinding |
