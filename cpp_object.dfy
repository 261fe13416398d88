/**
 * Native-object identity and storage of include/CppObject.h: the
 * prototype-chain type check behind `getObject`, `getExactObject`, `cast`
 * and `get`; the alignment padding of by-value storage; the wrapper kinds
 * and the choice among them; and the external-memory accounting of
 * `allocate` and `deallocate`.
 */
module CppObject {
  import opened Wrappers
  import opened Arith
  import opened V8Value
  import opened CppInvoke

  // ---------------------------------------------------------------------------
  // Script objects and the type check

  /** Identity of a native wrapper (`CppObject *`) stored in an internal field. */
  type WrapperId = nat

  /** What `GetPrototype()` returns: a non-object (null) or an object. */
  datatype Proto = NoProto | ProtoObject(id: ObjId)

  /** A script object as the type check sees it. */
  datatype JsObject = JsObject(internalFieldCount: int, field0: Option<WrapperId>, proto: Proto)

  /** The `self` handle: undefined, or an object. */
  datatype Handle = UndefinedHandle | ObjectHandle(id: ObjId)

  predicate ProtoIn(objs: map<ObjId, JsObject>, p: Proto)
  {
    p.ProtoObject? ==> p.id in objs
  }

  /**
   * Prototype chains are acyclic: a rank that decreases along every
   * prototype link witnesses it.
   */
  ghost predicate WellRanked(objs: map<ObjId, JsObject>, rank: map<ObjId, nat>)
  {
    forall id :: id in objs ==>
      id in rank && ProtoIn(objs, objs[id].proto) &&
      (objs[id].proto.ProtoObject? ==> objs[id].proto.id in rank && rank[objs[id].proto.id] < rank[id])
  }

  /** Changing an object's internal field keeps every prototype link, so the ranking still holds. */
  lemma FieldUpdateKeepsRanks(objs: map<ObjId, JsObject>, rank: map<ObjId, nat>, self: ObjId, f: Option<WrapperId>)
    requires WellRanked(objs, rank) && self in objs
    ensures WellRanked(objs[self := objs[self].(field0 := f)], rank)
  {
    var objs' := objs[self := objs[self].(field0 := f)];
    forall id | id in objs'
      ensures objs'[id].proto == objs[id].proto
    {
    }
  }

  predicate HandleIn(objs: map<ObjId, JsObject>, self: Handle)
  {
    self.ObjectHandle? ==> self.id in objs
  }

  ghost function ProtoRank(rank: map<ObjId, nat>, p: Proto): nat
  {
    if p.ProtoObject? && p.id in rank then rank[p.id] + 1 else 0
  }

  /** The three ways the type check fails. */
  datatype LookupError = Empty | GotNull | WrongType

  /** The `TypeError` message thrown for each failure. */
  function Message(e: LookupError): string
  {
    match e
    case Empty => "except cpp class, but empty"
    case GotNull => "except cpp class, but got NULL"
    case WrongType => "except cpp class, but wrong type"
  }

  /**
   * The walk of `getObject` from prototype `p`, looking for the prototype
   * `token` that identifies the class: `None` when it is found.
   */
  ghost function Walk(objs: map<ObjId, JsObject>, rank: map<ObjId, nat>, p: Proto, token: ObjId, isExact: bool): (r: Option<LookupError>)
    requires WellRanked(objs, rank) && ProtoIn(objs, p)
    ensures r.Some? ==> r.value == WrongType
    ensures isExact ==> (r.None? <==> p == ProtoObject(token))
    decreases ProtoRank(rank, p)
  {
    if p == ProtoObject(token) then None
    else if isExact then Some(WrongType)
    else if p.ProtoObject? then Walk(objs, rank, objs[p.id].proto, token, false)
    else Some(WrongType)
  }

  /** The objects on the prototype chain starting at `p`, nearest first. */
  ghost function ProtoChain(objs: map<ObjId, JsObject>, rank: map<ObjId, nat>, p: Proto): seq<ObjId>
    requires WellRanked(objs, rank) && ProtoIn(objs, p)
    decreases ProtoRank(rank, p)
  {
    if p.ProtoObject? then [p.id] + ProtoChain(objs, rank, objs[p.id].proto) else []
  }

  /** The inherited check succeeds exactly when the class prototype is somewhere on the chain. */
  lemma {:induction false} WalkFindsTokenOnChain(objs: map<ObjId, JsObject>, rank: map<ObjId, nat>, p: Proto, token: ObjId)
    requires WellRanked(objs, rank) && ProtoIn(objs, p)
    ensures Walk(objs, rank, p, token, false).None? <==> token in ProtoChain(objs, rank, p)
    decreases ProtoRank(rank, p)
  {
    if p.ProtoObject? && p.id != token {
      WalkFindsTokenOnChain(objs, rank, objs[p.id].proto, token);
    }
  }

  /**
   * The private `getObject<T>(self, is_exact, raise_error)` as a value: the
   * wrapper found, or the failure.
   */
  ghost function Lookup(objs: map<ObjId, JsObject>, rank: map<ObjId, nat>, self: Handle, token: ObjId, isExact: bool): (r: Result<WrapperId, LookupError>)
    requires WellRanked(objs, rank) && HandleIn(objs, self)
  {
    if self.UndefinedHandle? || objs[self.id].internalFieldCount <= 0 then Err(Empty)
    else if objs[self.id].field0.None? then Err(GotNull)
    else match Walk(objs, rank, objs[self.id].proto, token, isExact)
      case None => Ok(objs[self.id].field0.value)
      case Some(e) => Err(e)
  }

  /** Each failure of the type check, and its success, stated on the object. */
  lemma LookupOutcomes(objs: map<ObjId, JsObject>, rank: map<ObjId, nat>, self: Handle, token: ObjId, isExact: bool)
    requires WellRanked(objs, rank) && HandleIn(objs, self)
    ensures Lookup(objs, rank, self, token, isExact) == Err(Empty) <==>
      self.UndefinedHandle? || objs[self.id].internalFieldCount <= 0
    ensures Lookup(objs, rank, self, token, isExact) == Err(GotNull) <==>
      self.ObjectHandle? && objs[self.id].internalFieldCount > 0 && objs[self.id].field0.None?
    ensures Lookup(objs, rank, self, token, isExact).Ok? <==>
      && self.ObjectHandle? && objs[self.id].internalFieldCount > 0 && objs[self.id].field0.Some?
      && (if isExact then objs[self.id].proto == ProtoObject(token)
          else token in ProtoChain(objs, rank, objs[self.id].proto))
    ensures Lookup(objs, rank, self, token, isExact).Ok? ==>
      Lookup(objs, rank, self, token, isExact).value == objs[self.id].field0.value
  {
    if self.ObjectHandle? && objs[self.id].internalFieldCount > 0 && objs[self.id].field0.Some? {
      WalkFindsTokenOnChain(objs, rank, objs[self.id].proto, token);
    }
  }

  /** An exact match is also an inherited match. */
  lemma ExactImpliesInherited(objs: map<ObjId, JsObject>, rank: map<ObjId, nat>, self: Handle, token: ObjId)
    requires WellRanked(objs, rank) && HandleIn(objs, self)
    requires Lookup(objs, rank, self, token, true).Ok?
    ensures Lookup(objs, rank, self, token, false) == Lookup(objs, rank, self, token, true)
  {
  }

  /**
   * `getObject<T>(self, is_exact, raise_error)`: the checks on `self`, then
   * the `while (true)` walk up the prototype chain. Returns the wrapper (or
   * null) and the message of the `TypeError` thrown, if any.
   */
  method GetObject(objs: map<ObjId, JsObject>, ghost rank: map<ObjId, nat>, self: Handle, token: ObjId, isExact: bool, raiseError: bool)
    returns (obj: Option<WrapperId>, thrown: Option<string>)
    requires WellRanked(objs, rank) && HandleIn(objs, self)
    ensures Lookup(objs, rank, self, token, isExact).Ok? ==>
      obj == Some(Lookup(objs, rank, self, token, isExact).value) && thrown == None
    ensures Lookup(objs, rank, self, token, isExact).Err? ==>
      obj == None &&
      thrown == (if raiseError then Some(Message(Lookup(objs, rank, self, token, isExact).error)) else None)
  {
    if self.UndefinedHandle? || objs[self.id].internalFieldCount <= 0 {
      thrown := if raiseError then Some(Message(Empty)) else None;
      return None, thrown;
    }
    var found := objs[self.id].field0;
    if found.None? {
      thrown := if raiseError then Some(Message(GotNull)) else None;
      return None, thrown;
    }
    var prototype := objs[self.id].proto;
    while true
      invariant ProtoIn(objs, prototype)
      invariant Walk(objs, rank, prototype, token, isExact) == Walk(objs, rank, objs[self.id].proto, token, isExact)
      decreases ProtoRank(rank, prototype)
    {
      if prototype == ProtoObject(token) {
        break;
      }
      if isExact {
        thrown := if raiseError then Some(Message(WrongType)) else None;
        return None, thrown;
      }
      if prototype.ProtoObject? {
        prototype := objs[prototype.id].proto;
      } else {
        thrown := if raiseError then Some(Message(WrongType)) else None;
        return None, thrown;
      }
    }
    return found, None;
  }

  // ---------------------------------------------------------------------------
  // Wrapper kinds

  /** The three wrapper classes, with what each keeps. */
  datatype Wrapper =
    | ValueWrapper(content: int)    // CppObjectValue<T>: the object is stored inside the wrapper
    | PtrWrapper(ptr: Addr)         // CppObjectPtr: a raw pointer to an object owned elsewhere
    | SharedWrapper(ptr: Addr)      // CppObjectSharedPtr<SP, T>: a shared pointer

  /** `isSharedPtr()`: overridden to true by the shared wrapper only. */
  function IsSharedPtr(w: Wrapper): (b: bool)
    ensures b <==> w.SharedWrapper?
  {
    match w
    case SharedWrapper(_) => true
    case _ => false
  }

  /** Where `objectPtr()` points: into the wrapper itself, or at an external address. */
  datatype ObjRef = Embedded(wrapper: WrapperId) | External(addr: Addr)

  function ObjectPtr(id: WrapperId, w: Wrapper): (r: ObjRef)
    ensures r.Embedded? <==> w.ValueWrapper?
    ensures r.Embedded? ==> r.wrapper == id
    ensures r.External? ==> r.addr == w.ptr
  {
    match w
    case ValueWrapper(_) => Embedded(id)
    case PtrWrapper(p) => External(p)
    case SharedWrapper(p) => External(p)
  }

  /** How a class-typed value crosses into script. */
  datatype StorageKind = ByValue | ByRawPointer | BySharedPtr

  /** The flags `V8ClassMapping<T, IS_CONST, IS_REF>` derives. */
  datatype ClassMapping = ClassMapping(isShared: bool, isRef: bool, isConst: bool)

  /**
   * `V8ClassMapping`: `T` is a `shared_ptr` (`isShared`, with `pointeeConst`
   * telling whether it points to const) or a plain class type. A shared
   * pointer is always handled by reference and takes its constness from the
   * pointee.
   */
  function MappingOf(isSharedType: bool, pointeeConst: bool, isConstParam: bool, isRefParam: bool): (m: ClassMapping)
    ensures m.isShared == isSharedType
    ensures m.isRef == (isSharedType || isRefParam)
    ensures m.isConst == (if isSharedType then pointeeConst else isConstParam)
  {
    var isShared := isSharedType;
    ClassMapping(isShared, if isShared then true else isRefParam, if isShared then pointeeConst else isConstParam)
  }

  /**
   * The `V8CppObjectFactory` specialisation a mapping selects. Only three
   * exist, and no mapping selects the missing (shared, by value) one.
   */
  function FactoryOf(m: ClassMapping): (k: StorageKind)
    requires m.isShared ==> m.isRef
    ensures k == BySharedPtr <==> m.isShared
    ensures k == ByValue <==> !m.isShared && !m.isRef
  {
    if m.isShared then BySharedPtr else if m.isRef then ByRawPointer else ByValue
  }

  /** Every mapping has a factory. */
  lemma EveryMappingHasFactory(isSharedType: bool, pointeeConst: bool, isConstParam: bool, isRefParam: bool)
    ensures var m := MappingOf(isSharedType, pointeeConst, isConstParam, isRefParam);
      m.isShared ==> m.isRef
  {
  }

  /**
   * The by-value factory `instance(self, obj)` as written: it calls
   * `CppObjectValue<T>::instance(self)` without `obj`, so the stored object
   * is default-constructed (`defaultObj`).
   */
  function ValueFactoryAsWritten(obj: int, defaultObj: int): (w: Wrapper)
    ensures w.ValueWrapper? && w.content == defaultObj
  {
    ValueWrapper(defaultObj)
  }

  /** A value that differs from the default is lost by the by-value factory as written. */
  lemma ValueFactoryDropsObject()
    ensures ValueFactoryAsWritten(7, 0).content != 7
  {
  }

  /** The by-value factory as evidently intended: the stored object is a copy of `obj`. */
  function ValueFactory(obj: int): (w: Wrapper)
    ensures w.ValueWrapper? && w.content == obj
  {
    ValueWrapper(obj)
  }

  /**
   * The wrapper the factory of a storage kind creates for a value, or none:
   * by value stores a copy; a raw or shared pointer is wrapped only when it
   * is not null.
   */
  function FactoryInstance(k: StorageKind, obj: int, ptr: Option<Addr>): (w: Option<Wrapper>)
    ensures k == ByValue ==> w == Some(ValueFactory(obj))
    ensures k != ByValue ==> (w.None? <==> ptr.None?)
    ensures k == ByRawPointer && ptr.Some? ==> w == Some(PtrWrapper(ptr.value))
    ensures k == BySharedPtr && ptr.Some? ==> w == Some(SharedWrapper(ptr.value))
  {
    match k
    case ByValue => Some(ValueFactory(obj))
    case ByRawPointer => if ptr.Some? then Some(PtrWrapper(ptr.value)) else None
    case BySharedPtr => if ptr.Some? then Some(SharedWrapper(ptr.value)) else None
  }

  /**
   * The shared factory's `cast`: a wrapper that is not a shared wrapper
   * raises "is not shared object!"; otherwise its shared pointer.
   */
  function SharedCast(w: Wrapper): (r: Result<Addr, string>)
    ensures r.Err? <==> !IsSharedPtr(w)
    ensures r.Err? ==> r.error == "is not shared object!"
    ensures r.Ok? ==> ObjectPtr(0, w) == External(r.value)
  {
    if !IsSharedPtr(w) then Err("is not shared object!") else Ok(w.ptr)
  }

  // ---------------------------------------------------------------------------
  // Alignment padding of by-value storage

  /** The alignments of `double` and `void *` on the target. */
  datatype Platform = Platform(alignDouble: nat, alignPtr: nat)

  /** `alignof(T)` and `sizeof(T)`. */
  datatype Layout = Layout(align: nat, size: nat)

  /** Alignments are powers of two, and a size is a positive multiple of the alignment. */
  predicate ValidLayout(pf: Platform, l: Layout)
  {
    && IsPow2(pf.alignDouble) && IsPow2(pf.alignPtr) && IsPow2(l.align)
    && l.size > 0 && l.size % l.align == 0
  }

  /** `alignof(AlignType)`: `T` itself when no stricter than `double`, otherwise `void *`. */
  function AlignTypeAlign(pf: Platform, l: Layout): nat
  {
    if l.align <= pf.alignDouble then l.align else pf.alignPtr
  }

  /** `MAX_PADDING`. */
  function MaxPadding(pf: Platform, l: Layout): nat
  {
    if l.align <= AlignTypeAlign(pf, l) then 0 else l.align - AlignTypeAlign(pf, l) + 1
  }

  /** `sizeof(data)`. */
  function DataSize(pf: Platform, l: Layout): nat
  {
    l.size + MaxPadding(pf, l)
  }

  /** The constructor's offset: the distance from `data` up to the next multiple of `alignof(T)`. */
  function PaddingOffset(base: nat, l: Layout): nat
    requires l.align > 0
  {
    var off := base % l.align;
    if off > 0 then l.align - off else 0
  }

  /** `data` is declared `alignas(AlignType)`. */
  predicate DataAligned(pf: Platform, l: Layout, base: nat)
  {
    AlignTypeAlign(pf, l) > 0 && base % AlignTypeAlign(pf, l) == 0
  }

  /**
   * With power-of-two alignments the offset is within the padding (the
   * constructor's `assert`), the object it places is aligned for `T`, and
   * the object stays clear of the last byte of `data`, which records the
   * offset.
   */
  lemma {:induction false} PaddingPlacesObject(pf: Platform, l: Layout, base: nat)
    requires ValidLayout(pf, l) && DataAligned(pf, l, base)
    requires MaxPadding(pf, l) > 0
    ensures PaddingOffset(base, l) < MaxPadding(pf, l)
    ensures (base + PaddingOffset(base, l)) % l.align == 0
    ensures PaddingOffset(base, l) + l.size <= DataSize(pf, l) - 1
  {
    var n, a := l.align, AlignTypeAlign(pf, l);
    assert a == pf.alignPtr && a < n;
    var off := base % n;
    Split(base, n);
    Pow2Divides(a, n);
    RemainderKeepsDivisor(base, n, a);
    if off > 0 {
      PositiveMultipleAtLeast(off, a);
      assert base + PaddingOffset(base, l) == (base / n + 1) * n;
      MultipleMod(base / n + 1, n);
    }
  }

  /** Without padding the object sits at `data` itself, which is already aligned for `T`. */
  lemma NoPaddingIsAligned(pf: Platform, l: Layout, base: nat)
    requires ValidLayout(pf, l) && DataAligned(pf, l, base)
    requires MaxPadding(pf, l) == 0
    ensures base % l.align == 0
  {
    var a := AlignTypeAlign(pf, l);
    if a != l.align {
      Pow2Divides(l.align, a);
      DividesTrans(l.align, a, base);
    }
  }

  /**
   * `CppObjectValue<T>` storage: `data` and the offset recorded in its last
   * cell. The cell holds the whole offset.
   */
  class ValueStorage {
    const base: nat
    const platform: Platform
    const layout: Layout
    const data: array<int>

    ghost predicate Valid()
      reads this, data
    {
      && ValidLayout(platform, layout) && DataAligned(platform, layout, base)
      && data.Length == DataSize(platform, layout)
      && (MaxPadding(platform, layout) > 0 ==> data[data.Length - 1] == PaddingOffset(base, layout))
    }

    /** The private constructor: records the padding offset when padding is possible. */
    constructor (base: nat, platform: Platform, layout: Layout)
      requires ValidLayout(platform, layout) && DataAligned(platform, layout, base)
      ensures this.base == base && this.platform == platform && this.layout == layout
      ensures fresh(data) && Valid()
    {
      this.base := base;
      this.platform := platform;
      this.layout := layout;
      data := new int[layout.size + MaxPadding(platform, layout)];
      new;
      if MaxPadding(platform, layout) > 0 {
        var offset := PaddingOffset(base, layout);
        PaddingPlacesObject(platform, layout, base);
        assert offset < MaxPadding(platform, layout);
        data[data.Length - 1] := offset;
      }
    }

    /** `objectPtr()`: `data` itself without padding, else `data` plus the recorded offset. */
    function ObjectPtr(): (p: nat)
      reads this, data
      requires Valid()
      ensures p % layout.align == 0
      ensures base <= p
      ensures MaxPadding(platform, layout) == 0 ==> p + layout.size == base + data.Length
      ensures MaxPadding(platform, layout) > 0 ==> p + layout.size <= base + data.Length - 1
    {
      if MaxPadding(platform, layout) == 0 then
        NoPaddingIsAligned(platform, layout, base);
        base
      else
        PaddingPlacesObject(platform, layout, base);
        base + data[data.Length - 1]
    }
  }

  /** `static_cast<unsigned char>(offset)`: the offset as the constructor stores it. */
  function StoredOffsetAsWritten(offset: nat): (b: nat)
    ensures b < 256
    ensures offset < 256 ==> b == offset
  {
    offset % 256
  }

  /** `objectPtr()` over the byte the constructor actually stores. */
  function ObjectPtrAsWritten(pf: Platform, l: Layout, base: nat): nat
    requires l.align > 0
  {
    if MaxPadding(pf, l) == 0 then base else base + StoredOffsetAsWritten(PaddingOffset(base, l))
  }

  /**
   * When the padding fits in a byte the stored byte is the offset and the
   * object is placed as intended.
   */
  lemma AsWrittenAgreesWhenPaddingFitsAByte(pf: Platform, l: Layout, base: nat)
    requires ValidLayout(pf, l) && DataAligned(pf, l, base)
    requires MaxPadding(pf, l) <= 256
    ensures ObjectPtrAsWritten(pf, l, base) % l.align == 0
  {
    if MaxPadding(pf, l) == 0 {
      NoPaddingIsAligned(pf, l, base);
    } else {
      PaddingPlacesObject(pf, l, base);
    }
  }

  /**
   * A 512-aligned type on a platform with 8-byte `double` and `void *`, with
   * `data` at address 8: the offset is 504, the stored byte 248, and the
   * object lands at 256, which is not aligned for the type.
   */
  lemma OffsetTruncationMisaligns()
    ensures var pf, l := Platform(8, 8), Layout(512, 512);
      && ValidLayout(pf, l) && DataAligned(pf, l, 8)
      && PaddingOffset(8, l) == 504 && PaddingOffset(8, l) < MaxPadding(pf, l)
      && ObjectPtrAsWritten(pf, l, 8) == 256
      && ObjectPtrAsWritten(pf, l, 8) % l.align != 0
  {
    assert IsPow2(512) by {
      assert IsPow2(8) && IsPow2(16) && IsPow2(32) && IsPow2(64) && IsPow2(128) && IsPow2(256);
    }
  }

  // ---------------------------------------------------------------------------
  // Allocation and finalisation

  /**
   * The wrapper type's `sizeof` as passed to
   * `AdjustAmountOfExternalAllocatedMemory` on deallocation: `-sizeof(T)` is
   * computed in `size_t` and cast to `int64_t`, which yields `-size` for any
   * size below 2^63.
   */
  function NegatedSizeAsInt64(size: nat): (d: int)
    requires size < 0x8000_0000_0000_0000
    ensures d + size == 0
  {
    var unsigned := (0x1_0000_0000_0000_0000 - size) % 0x1_0000_0000_0000_0000;
    if unsigned >= 0x8000_0000_0000_0000 then unsigned - 0x1_0000_0000_0000_0000 else unsigned
  }

  /**
   * The isolate's bookkeeping: every wrapper has a size and a weak handle to
   * a live object, and its id was handed out before.
   */
  predicate Accounted(objs: map<ObjId, JsObject>, wrappers: map<WrapperId, Wrapper>, sizes: map<WrapperId, nat>,
                      weak: map<WrapperId, ObjId>, next: WrapperId)
  {
    && wrappers.Keys == sizes.Keys == weak.Keys
    && (forall w :: w in wrappers ==> w < next)
    && (forall w :: w in weak ==> weak[w] in objs)
  }

  /** Registering a fresh wrapper on a live object keeps the bookkeeping. */
  lemma AllocateKeepsAccounted(objs: map<ObjId, JsObject>, wrappers: map<WrapperId, Wrapper>, sizes: map<WrapperId, nat>,
                               weak: map<WrapperId, ObjId>, next: WrapperId, self: ObjId, w: Wrapper, size: nat)
    requires Accounted(objs, wrappers, sizes, weak, next) && self in objs
    ensures next !in wrappers
    ensures Accounted(objs[self := objs[self].(field0 := Some(next))], wrappers[next := w], sizes[next := size], weak[next := self], next + 1)
  {
  }

  /** Dropping a wrapper keeps the bookkeeping. */
  lemma FinalizeKeepsAccounted(objs: map<ObjId, JsObject>, wrappers: map<WrapperId, Wrapper>, sizes: map<WrapperId, nat>,
                               weak: map<WrapperId, ObjId>, next: WrapperId, id: WrapperId)
    requires Accounted(objs, wrappers, sizes, weak, next)
    ensures Accounted(objs, wrappers - {id}, sizes - {id}, weak - {id}, next)
  {
  }

  /**
   * The isolate state `allocate` and `deallocate` touch: the objects' internal
   * fields, the live wrappers with their sizes, the external-memory counter,
   * and one weak handle per wrapper naming the object it is installed in.
   */
  class Isolate {
    var objects: map<ObjId, JsObject>
    var wrappers: map<WrapperId, Wrapper>
    var sizes: map<WrapperId, nat>
    var weak: map<WrapperId, ObjId>
    var externalMemory: int
    var nextWrapper: WrapperId
    ghost var rank: map<ObjId, nat>

    ghost predicate Valid()
      reads this
    {
      WellRanked(objects, rank) && Accounted(objects, wrappers, sizes, weak, nextWrapper)
    }

    constructor (objects: map<ObjId, JsObject>, ghost rank: map<ObjId, nat>)
      requires WellRanked(objects, rank)
      ensures Valid() && this.objects == objects && wrappers == map[] && externalMemory == 0
    {
      this.objects := objects;
      this.rank := rank;
      wrappers := map[];
      sizes := map[];
      weak := map[];
      externalMemory := 0;
      nextWrapper := 0;
    }

    /**
     * `allocate<T>(self)`: the object must have exactly one internal field;
     * the new wrapper goes into field 0, its size is added to the external
     * memory and a weak handle to `self` will finalise it.
     */
    method Allocate(self: ObjId, w: Wrapper, size: nat) returns (id: WrapperId)
      requires Valid() && self in objects && objects[self].internalFieldCount == 1
      modifies this
      ensures Valid()
      ensures id == old(nextWrapper) && id !in old(wrappers) && nextWrapper == old(nextWrapper) + 1
      ensures objects == old(objects)[self := old(objects)[self].(field0 := Some(id))]
      ensures wrappers == old(wrappers)[id := w] && sizes == old(sizes)[id := size] && weak == old(weak)[id := self]
      ensures externalMemory == old(externalMemory) + size
      ensures wrappers.Keys == old(wrappers.Keys) + {id}
      ensures rank == old(rank)
    {
      FieldUpdateKeepsRanks(objects, rank, self, Some(nextWrapper));
      AllocateKeepsAccounted(objects, wrappers, sizes, weak, nextWrapper, self, w, size);
      id := nextWrapper;
      nextWrapper := nextWrapper + 1;
      objects := objects[self := objects[self].(field0 := Some(id))];
      wrappers := wrappers[id := w];
      sizes := sizes[id := size];
      weak := weak[id := self];
      externalMemory := externalMemory + size;
    }

    /**
     * `deallocate`: the weak callback of wrapper `id` deletes it and takes
     * its size back from the external memory.
     */
    method Finalize(id: WrapperId)
      requires Valid() && id in weak
      modifies this
      ensures Valid()
      ensures externalMemory == old(externalMemory) - old(sizes[id])
      ensures old(sizes[id]) < 0x8000_0000_0000_0000 ==> externalMemory == old(externalMemory) + NegatedSizeAsInt64(old(sizes[id]))
      ensures wrappers.Keys == old(wrappers.Keys) - {id}
      ensures wrappers == old(wrappers) - {id} && sizes == old(sizes) - {id} && weak == old(weak) - {id}
      ensures objects == old(objects) && rank == old(rank) && nextWrapper == old(nextWrapper)
    {
      FinalizeKeepsAccounted(objects, wrappers, sizes, weak, nextWrapper, id);
      externalMemory := externalMemory - sizes[id];
      wrappers := wrappers - {id};
      sizes := sizes - {id};
      weak := weak - {id};
    }
  }

  /** Adding a fresh key and removing it again gives the map back. */
  lemma AddThenRemove<K, V>(m: map<K, V>, k: K, v: V)
    requires k !in m
    ensures m[k := v] - {k} == m
  {
  }

  /** Wrapping one more object and collecting it leaves the accounting as it was. */
  method WrapAndCollect(iso: Isolate, b: ObjId, w: Wrapper, size: nat)
    requires iso.Valid() && b in iso.objects && iso.objects[b].internalFieldCount == 1
    modifies iso
    ensures iso.Valid() && iso.externalMemory == old(iso.externalMemory)
    ensures iso.wrappers == old(iso.wrappers) && iso.sizes == old(iso.sizes) && iso.weak == old(iso.weak)
  {
    var id := iso.Allocate(b, w, size);
    iso.Finalize(id);
    AddThenRemove(old(iso.wrappers), id, w);
    AddThenRemove(old(iso.sizes), id, size);
    AddThenRemove(old(iso.weak), id, b);
  }

  /**
   * Two objects wrapped and both collected: every wrapper has its own weak
   * handle, so both are finalised and the external memory is back where it
   * started.
   */
  method TwoWrappersNetZero(iso: Isolate, a: ObjId, b: ObjId, w: Wrapper, size: nat)
    requires iso.Valid() && a in iso.objects && b in iso.objects && a != b
    requires iso.objects[a].internalFieldCount == 1 && iso.objects[b].internalFieldCount == 1
    modifies iso
    ensures iso.Valid() && iso.externalMemory == old(iso.externalMemory)
    ensures iso.wrappers.Keys == old(iso.wrappers.Keys)
  {
    ghost var k0 := iso.wrappers.Keys;
    var first := iso.Allocate(a, w, size);
    assert iso.objects[b].internalFieldCount == 1;
    WrapAndCollect(iso, b, w, size);
    assert iso.wrappers.Keys == k0 + {first} && first !in k0;
    iso.Finalize(first);
  }

  /**
   * The accounting as written: `CppObject::persistent` is a single static
   * handle, so each `allocate` resets it to the newest object and the
   * previous object's weak handle (and finaliser) is dropped.
   */
  datatype SharedHandleState = SharedHandleState(externalMemory: int, live: set<WrapperId>, persistent: Option<WrapperId>)

  function AllocateAsWritten(s: SharedHandleState, id: WrapperId, size: nat): (t: SharedHandleState)
    ensures t.externalMemory == s.externalMemory + size && t.live == s.live + {id}
    ensures t.persistent == Some(id)
  {
    SharedHandleState(s.externalMemory + size, s.live + {id}, Some(id))
  }

  /** The wrappers whose finaliser can still run: only the one the handle last named. */
  function FinalizableAsWritten(s: SharedHandleState): (ws: set<WrapperId>)
    ensures |ws| <= 1
  {
    if s.persistent.Some? then {s.persistent.value} else {}
  }

  function FinalizeAsWritten(s: SharedHandleState, id: WrapperId, size: nat): (t: SharedHandleState)
    requires id in FinalizableAsWritten(s)
    ensures t.externalMemory == s.externalMemory - size && t.persistent.None?
  {
    SharedHandleState(s.externalMemory - size, s.live - {id}, None)
  }

  /**
   * Two wrappers of 16 bytes: after the second's finaliser has run nothing
   * can finalise the first, which stays live, and 16 bytes of external
   * memory are never returned.
   */
  lemma SharedHandleLeaksEarlierWrappers()
    ensures var s0 := SharedHandleState(0, {}, None);
      var s2 := AllocateAsWritten(AllocateAsWritten(s0, 1, 16), 2, 16);
      && 1 !in FinalizableAsWritten(s2)
      && var s3 := FinalizeAsWritten(s2, 2, 16);
        && s3.live == {1} && FinalizableAsWritten(s3) == {} && s3.externalMemory == 16
  {
  }

  // ---------------------------------------------------------------------------
  // The public lookups

  /**
   * `cast<T>(self)`: the lookup with `raise_error = false`. It never throws;
   * it yields the object pointer on success and null otherwise.
   */
  method Cast(objs: map<ObjId, JsObject>, ghost rank: map<ObjId, nat>, wrappers: map<WrapperId, Wrapper>, self: Handle, token: ObjId)
    returns (ptr: Option<ObjRef>, thrown: Option<string>)
    requires WellRanked(objs, rank) && HandleIn(objs, self)
    requires forall o :: o in objs && objs[o].field0.Some? ==> objs[o].field0.value in wrappers
    ensures thrown == None
    ensures ptr.Some? <==> Lookup(objs, rank, self, token, false).Ok?
    ensures ptr.Some? ==>
      var id := Lookup(objs, rank, self, token, false).value;
      ptr.value == ObjectPtr(id, wrappers[id])
  {
    var obj;
    obj, thrown := GetObject(objs, rank, self, token, false, false);
    ptr := if obj.Some? then Some(ObjectPtr(obj.value, wrappers[obj.value])) else None;
  }

  /**
   * `get<T>(self)`: the raising lookup followed by `objectPtr()`. On failure
   * the `TypeError` is pending and the result is the error message.
   */
  method Get(objs: map<ObjId, JsObject>, ghost rank: map<ObjId, nat>, wrappers: map<WrapperId, Wrapper>, self: Handle, token: ObjId)
    returns (r: Result<ObjRef, string>)
    requires WellRanked(objs, rank) && HandleIn(objs, self)
    requires forall o :: o in objs && objs[o].field0.Some? ==> objs[o].field0.value in wrappers
    ensures r.Ok? <==> Lookup(objs, rank, self, token, false).Ok?
    ensures r.Ok? ==>
      var id := Lookup(objs, rank, self, token, false).value;
      r.value == ObjectPtr(id, wrappers[id])
    ensures r.Err? ==> r.error == Message(Lookup(objs, rank, self, token, false).error)
  {
    var obj, thrown := GetObject(objs, rank, self, token, false, true);
    if obj.Some? {
      r := Ok(ObjectPtr(obj.value, wrappers[obj.value]));
    } else {
      r := Err(thrown.value);
    }
  }

  /**
   * `V8ClassMapping<T>::get` for a shared-pointer type: the raising lookup,
   * then the shared factory's cast of the wrapper found.
   */
  method GetShared(objs: map<ObjId, JsObject>, ghost rank: map<ObjId, nat>, wrappers: map<WrapperId, Wrapper>, self: Handle, token: ObjId)
    returns (r: Result<Addr, string>)
    requires WellRanked(objs, rank) && HandleIn(objs, self)
    requires forall o :: o in objs && objs[o].field0.Some? ==> objs[o].field0.value in wrappers
    ensures Lookup(objs, rank, self, token, false).Err? ==>
      r == Err(Message(Lookup(objs, rank, self, token, false).error))
    ensures Lookup(objs, rank, self, token, false).Ok? ==>
      r == SharedCast(wrappers[Lookup(objs, rank, self, token, false).value])
  {
    var obj, thrown := GetObject(objs, rank, self, token, false, true);
    if obj.Some? {
      r := SharedCast(wrappers[obj.value]);
    } else {
      r := Err(thrown.value);
    }
  }

  /**
   * `opt(self, def)` of the by-value and by-reference class mappings and of
   * the raw-pointer mapping: undefined yields the default, anything else is
   * looked up.
   */
  method OptObject(objs: map<ObjId, JsObject>, ghost rank: map<ObjId, nat>, wrappers: map<WrapperId, Wrapper>, self: Handle, token: ObjId, def: ObjRef)
    returns (r: Result<ObjRef, string>)
    requires WellRanked(objs, rank) && HandleIn(objs, self)
    requires forall o :: o in objs && objs[o].field0.Some? ==> objs[o].field0.value in wrappers
    ensures self.UndefinedHandle? ==> r == Ok(def)
    ensures self.ObjectHandle? ==> (r.Ok? <==> Lookup(objs, rank, self, token, false).Ok?)
    ensures self.ObjectHandle? && r.Ok? ==>
      var id := Lookup(objs, rank, self, token, false).value;
      r.value == ObjectPtr(id, wrappers[id])
    ensures self.ObjectHandle? && r.Err? ==> r.error == Message(Lookup(objs, rank, self, token, false).error)
  {
    if self.UndefinedHandle? {
      r := Ok(def);
    } else {
      r := Get(objs, rank, wrappers, self, token);
    }
  }

  /**
   * `opt(self, def)` of a shared-pointer class mapping: undefined yields the
   * default, anything else goes through `get`, so through the shared cast.
   */
  method OptShared(objs: map<ObjId, JsObject>, ghost rank: map<ObjId, nat>, wrappers: map<WrapperId, Wrapper>, self: Handle, token: ObjId, def: Addr)
    returns (r: Result<Addr, string>)
    requires WellRanked(objs, rank) && HandleIn(objs, self)
    requires forall o :: o in objs && objs[o].field0.Some? ==> objs[o].field0.value in wrappers
    ensures self.UndefinedHandle? ==> r == Ok(def)
    ensures self.ObjectHandle? && Lookup(objs, rank, self, token, false).Err? ==>
      r == Err(Message(Lookup(objs, rank, self, token, false).error))
    ensures self.ObjectHandle? && Lookup(objs, rank, self, token, false).Ok? ==>
      var id := Lookup(objs, rank, self, token, false).value;
      && (r.Ok? <==> IsSharedPtr(wrappers[id]))
      && (r.Err? ==> r.error == "is not shared object!")
      && (r.Ok? ==> r.value == wrappers[id].ptr)
  {
    if self.UndefinedHandle? {
      r := Ok(def);
    } else {
      r := GetShared(objs, rank, wrappers, self, token);
    }
  }
}
