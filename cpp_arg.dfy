/**
 * Argument-slot policy of include/CppArg.h: the argument-spec mini-language
 * (`_opt`, `_def`, `_out`, `_ref`, `_ref_opt`, `_ref_def`), the flags each
 * spec inherits, the `_def` default constant, the rule that fills one slot
 * from a runtime argument, and the positional fill of a whole slot tuple.
 *
 * Slot values are native integers; the conversion a slot applies to a runtime
 * value (`V8Type<T>::get`) is a parameter of the slot.
 */
module CppArg {
  import opened Wrappers
  import opened V8Value
  import opened Arith

  /** Identity of a native type. */
  type TypeId = nat

  /** The spec forms a parameter can be declared with. */
  datatype SpecKind =
    | Required                         // a bare parameter type T
    | Optional                         // _opt<T>
    | Defaulted(num: int, den: int)    // _def<T, NUM, DEN>
    | Output                           // _out<T>
    | Reference                        // _ref<T>
    | RefOptional                      // _ref_opt<T>
    | RefDefaulted(num: int, den: int) // _ref_def<T, NUM, DEN>

  /** The four constants of `CppArgTraits`. */
  datatype Traits = Traits(isInput: bool, isOutput: bool, isOptional: bool, hasDefault: bool)

  /** Length of the chain of `CppArgTraits` specialisations a spec derives from. */
  function Depth(k: SpecKind): nat
  {
    match k
    case Required => 0
    case Optional | Output | Reference => 1
    case Defaulted(_, _) | RefOptional => 2
    case RefDefaulted(_, _) => 3
  }

  /**
   * The flags of a spec, computed as the source computes them: each
   * specialisation inherits from another and overrides some constants.
   * The postconditions are the resulting flat flag table.
   */
  function TraitsOf(k: SpecKind): (t: Traits)
    decreases Depth(k)
    ensures t.isInput <==> !k.Output?
    ensures t.isOutput <==> k.Output? || k.Reference? || k.RefOptional? || k.RefDefaulted?
    ensures t.isOptional <==> k.Optional? || k.Defaulted? || k.RefOptional? || k.RefDefaulted?
    ensures t.hasDefault <==> k.Defaulted? || k.RefDefaulted?
  {
    match k
    case Required => Traits(isInput := true, isOutput := false, isOptional := false, hasDefault := false)
    case Optional => TraitsOf(Required).(isOptional := true)
    case Defaulted(n, d) => TraitsOf(Optional).(hasDefault := true)
    case Output => TraitsOf(Required).(isInput := false, isOutput := true)
    case Reference => TraitsOf(Required).(isOutput := true)
    case RefOptional => TraitsOf(Optional).(isOutput := true)
    case RefDefaulted(n, d) => TraitsOf(Defaulted(n, d)).(isOutput := true)
  }

  /** Consequences of the flag table that the input and output rules rely on. */
  lemma FlagsConsistent(k: SpecKind)
    ensures TraitsOf(k).hasDefault ==> TraitsOf(k).isOptional
    ensures !TraitsOf(k).isInput ==> TraitsOf(k).isOutput && !TraitsOf(k).isOptional
  {
  }

  // ---------------------------------------------------------------------------
  // Native integer types and the `_def` default constant

  /** The widths of the native integral types. */
  datatype Width = W8 | W16 | W32 | W64

  /** A native integral type: its width and whether it is signed. */
  datatype IntType = IntType(width: Width, signed: bool)

  /** `std::intmax_t`, the type of `NUM` and `DEN`. */
  const IntMax: IntType := IntType(W64, true)

  /** 2 to the power of the type's width. */
  function Modulus(ty: IntType): int
  {
    match ty.width
    case W8 => 0x100
    case W16 => 0x1_0000
    case W32 => 0x1_0000_0000
    case W64 => 0x1_0000_0000_0000_0000
  }

  function MinOf(ty: IntType): int
  {
    if ty.signed then -(Modulus(ty) / 2) else 0
  }

  function MaxOf(ty: IntType): int
  {
    if ty.signed then Modulus(ty) / 2 - 1 else Modulus(ty) - 1
  }

  predicate InRange(x: int, ty: IntType)
  {
    MinOf(ty) <= x <= MaxOf(ty)
  }

  /**
   * The conversion `T(x)` of an integer to a native integral type: the value
   * of `T` congruent to `x` modulo 2^width (two's complement).
   */
  function Convert(x: int, ty: IntType): (r: int)
    ensures InRange(r, ty)
    ensures r % Modulus(ty) == x % Modulus(ty)
    ensures InRange(x, ty) ==> r == x
  {
    var mod := Modulus(ty);
    var m := x % mod;
    ConvertFacts(x, ty);
    if ty.signed && m > MaxOf(ty) then m - mod else m
  }

  /** The remainder facts behind `Convert`, proved from the uniqueness of quotient and remainder. */
  lemma ConvertFacts(x: int, ty: IntType)
    ensures var mod, m := Modulus(ty), x % Modulus(ty);
      && 0 <= m < mod && m % mod == m && (m - mod) % mod == m
      && (InRange(x, ty) && (!ty.signed || x >= 0) ==> m == x)
      && (InRange(x, ty) && ty.signed && x < 0 ==> m == x + mod)
  {
    var mod := Modulus(ty);
    var m := x % mod;
    DivModUnique(m, mod, 0, m);
    DivModUnique(m - mod, mod, -1, m);
    if InRange(x, ty) {
      if x >= 0 {
        DivModUnique(x, mod, 0, x);
      } else {
        DivModUnique(x, mod, -1, x + mod);
      }
    }
  }

  function Abs(x: int): nat
  {
    if x < 0 then -x else x
  }

  /**
   * Integer division as C++ performs it: the quotient is truncated toward zero.
   * The postcondition is the defining property: the remainder is smaller than
   * the divisor and has the sign of the dividend.
   */
  function TruncDiv(a: int, b: int): (q: int)
    requires b != 0
    ensures Abs(a - q * b) < Abs(b)
    ensures a - q * b == 0 || (a - q * b < 0 <==> a < 0)
  {
    var aa, ab := Abs(a), Abs(b);
    var q0, r0 := aa / ab, aa % ab;
    Split(aa, ab);
    if (a < 0) == (b < 0) then
      assert q0 * b == (if b < 0 then -(q0 * ab) else q0 * ab);
      q0
    else
      assert (-q0) * b == (if b < 0 then q0 * ab else -(q0 * ab));
      -q0
  }

  /** The truncating quotient is the only quotient with that property. */
  lemma TruncDivUnique(a: int, b: int, q: int)
    requires b != 0
    requires Abs(a - q * b) < Abs(b)
    requires a - q * b == 0 || (a - q * b < 0 <==> a < 0)
    ensures q == TruncDiv(a, b)
  {
    var q' := TruncDiv(a, b);
    var d := q - q';
    assert (a - q' * b) - (a - q * b) == d * b;
    if d != 0 {
      assert Abs(d * b) >= Abs(b) by {
        AbsProduct(d, b);
      }
      assert false;
    }
  }

  lemma AbsProduct(d: int, b: int)
    requires d != 0
    ensures Abs(d * b) >= Abs(b)
  {
    var ad: int, ab: int := Abs(d), Abs(b);
    assert d * b == ad * ab || d * b == -(ad * ab);
    ProductAtLeast(ad, ab);
  }

  /**
   * The constant expression `T(NUM) / DEN` compiles: both are `intmax_t`
   * values, the divisor is not zero and the division does not overflow.
   */
  predicate DefaultWellDefined(ty: IntType, num: int, den: int)
  {
    && InRange(num, IntMax) && InRange(den, IntMax)
    && den != 0
    && !(Convert(num, ty) == MinOf(IntMax) && den == -1)
  }

  /**
   * `defaultValue = T(T(NUM) / DEN)`. The division takes place in the common
   * type of `T` and `intmax_t`: `intmax_t` itself, except for a 64-bit unsigned
   * `T`, where `DEN` is converted to that unsigned type first.
   */
  function DefaultValue(ty: IntType, num: int, den: int): (r: int)
    requires DefaultWellDefined(ty, num, den)
    ensures InRange(r, ty)
  {
    var n := Convert(num, ty);
    if ty == IntType(W64, false) then
      Convert(n / Convert(den, ty), ty)
    else
      Convert(TruncDiv(n, den), ty)
  }

  /** `DEN` defaults to 1, and then the default is just `T(NUM)`. */
  lemma DefaultWithUnitDenominator(ty: IntType, num: int)
    requires DefaultWellDefined(ty, num, 1)
    ensures DefaultValue(ty, num, 1) == Convert(num, ty)
  {
    var n := Convert(num, ty);
    TruncDivUnique(n, 1, n);
  }

  /** The quotient is truncated, not rounded down: `_def<int, -7, 2>` is -3. */
  lemma DefaultTruncatesTowardZero()
    ensures DefaultValue(IntType(W32, true), -7, 2) == -3
  {
    TruncDivUnique(-7, 2, -3);
  }

  /**
   * For `unsigned long long` the divisor is converted to unsigned: `_def<
   * unsigned long long, 7, -1>` divides 7 by 2^64 - 1 and yields 0.
   */
  lemma DefaultUnsignedDivisorWraps()
    ensures DefaultValue(IntType(W64, false), 7, -1) == 0
  {
  }

  // ---------------------------------------------------------------------------
  // Filling one slot

  /** Whether a parameter type is a reference, and which kind. */
  datatype RefKind = NotRef | LvalueRef | RvalueRef

  /** The class a pointer parameter points to, and whether it points to const. */
  datatype Pointee = Pointee(ty: TypeId, isConst: bool)

  /** A native parameter type, as far as the binder inspects it. */
  datatype ParamType = ParamType(ref: RefKind, isConst: bool, pointee: Option<Pointee>)

  /**
   * One declared slot: its spec form, the type `T` written in the spec, the
   * native integral type of its value and the converter `V8Type<T>::get`.
   */
  datatype ArgSpec = ArgSpec(kind: SpecKind, declared: ParamType, ty: IntType, get: RtValue -> int)

  predicate WellFormedSpec(s: ArgSpec)
  {
    && ((s.kind.Defaulted? || s.kind.RefDefaulted?) ==> DefaultWellDefined(s.ty, s.kind.num, s.kind.den))
  }

  predicate AllWellFormed(specs: seq<ArgSpec>)
  {
    forall i :: 0 <= i < |specs| ==> WellFormedSpec(specs[i])
  }

  /**
   * `CppArg<P>::get(handle, holder)`: the four cases of `CppArgInput`,
   * selected by the slot's flags. `cur` is what the holder held before.
   */
  function FillSlot(s: ArgSpec, arg: RtValue, cur: int): int
    requires WellFormedSpec(s)
  {
    var tr := TraitsOf(s.kind);
    if !tr.isInput then cur
    else if !tr.isOptional then s.get(arg)
    else if !tr.hasDefault then Opt(s.get, arg, 0)
    else Opt(s.get, arg, DefaultValue(s.ty, s.kind.num, s.kind.den))
  }

  /** What filling does to a slot, stated per spec form. */
  lemma SlotPolicy(s: ArgSpec, arg: RtValue, cur: int)
    requires WellFormedSpec(s)
    ensures s.kind.Output? ==> FillSlot(s, arg, cur) == cur
    ensures s.kind.Required? || s.kind.Reference? ==> FillSlot(s, arg, cur) == s.get(arg)
    ensures s.kind.Optional? || s.kind.RefOptional? ==>
      FillSlot(s, arg, cur) == if arg.Undefined? then 0 else s.get(arg)
    ensures s.kind.Defaulted? || s.kind.RefDefaulted? ==>
      FillSlot(s, arg, cur) == if arg.Undefined? then DefaultValue(s.ty, s.kind.num, s.kind.den) else s.get(arg)
  {
  }

  // ---------------------------------------------------------------------------
  // Filling a tuple of slots

  /**
   * `CppArgTupleInput<P...>::get(args, index, t)` for the trailing specs
   * `specs` of a tuple `t`: fill slot `|t| - |specs|` from `args[index]`,
   * then recurse on the rest with `index + 1`.
   */
  function FillRest(specs: seq<ArgSpec>, args: seq<RtValue>, index: nat, t: seq<int>): (r: seq<int>)
    requires AllWellFormed(specs) && |specs| <= |t|
    ensures |r| == |t|
    decreases |specs|
  {
    if specs == [] then t
    else
      var k := |t| - |specs|;
      FillRest(specs[1..], args, index + 1, t[k := FillSlot(specs[0], ArgAt(args, index), t[k])])
  }

  /** Slot j after filling the trailing specs: untouched before them, filled from its own argument within them. */
  lemma {:induction false} FillRestAt(specs: seq<ArgSpec>, args: seq<RtValue>, index: nat, t: seq<int>, j: nat)
    requires AllWellFormed(specs) && |specs| <= |t| && j < |t|
    ensures j < |t| - |specs| ==> FillRest(specs, args, index, t)[j] == t[j]
    ensures j >= |t| - |specs| ==>
      var k := j - (|t| - |specs|);
      FillRest(specs, args, index, t)[j] == FillSlot(specs[k], ArgAt(args, index + k), t[j])
  {
    if specs != [] {
      var k := |t| - |specs|;
      var t' := t[k := FillSlot(specs[0], ArgAt(args, index), t[k])];
      FillRestAt(specs[1..], args, index + 1, t', j);
    }
  }

  /**
   * Filling a whole tuple from the call's arguments starting at `index`:
   * slot j is filled, independently of every other slot, from argument
   * `index + j`.
   */
  function FillArgs(specs: seq<ArgSpec>, args: seq<RtValue>, index: nat, t: seq<int>): (r: seq<int>)
    requires AllWellFormed(specs) && |specs| == |t|
    ensures |r| == |t|
    ensures forall j :: 0 <= j < |t| ==> r[j] == FillSlot(specs[j], ArgAt(args, index + j), t[j])
  {
    var r := FillRest(specs, args, index, t);
    assert forall j :: 0 <= j < |t| ==> r[j] == FillSlot(specs[j], ArgAt(args, index + j), t[j]) by {
      forall j | 0 <= j < |t|
        ensures r[j] == FillSlot(specs[j], ArgAt(args, index + j), t[j])
      {
        FillRestAt(specs, args, index, t, j);
      }
    }
    r
  }

  /** An empty spec list leaves the tuple as it was. */
  lemma EmptySpecsFillNothing(args: seq<RtValue>, index: nat)
    ensures FillArgs([], args, index, []) == []
  {
  }

  /**
   * The tuple fill as the source performs it: each slot written in place, in
   * declaration order, while the argument index advances.
   */
  method FillTuple(specs: seq<ArgSpec>, args: seq<RtValue>, index: nat, t: array<int>)
    requires AllWellFormed(specs) && |specs| == t.Length
    modifies t
    ensures t[..] == FillArgs(specs, args, index, old(t[..]))
  {
    var k := 0;
    var i := index;
    while k < |specs|
      invariant 0 <= k <= |specs| && i == index + k
      invariant forall j :: 0 <= j < k ==> t[j] == FillSlot(specs[j], ArgAt(args, index + j), old(t[j]))
      invariant forall j :: k <= j < t.Length ==> t[j] == old(t[j])
    {
      t[k] := FillSlot(specs[k], ArgAt(args, i), t[k]);
      k := k + 1;
      i := i + 1;
    }
  }

  /** The freshly declared tuple `CppArgTuple<P...> args;`: every holder value-initialised. */
  function Zeros(n: nat): (z: seq<int>)
    ensures |z| == n && forall j :: 0 <= j < n ==> z[j] == 0
  {
    seq(n, j => 0)
  }

  /**
   * A bound call fills a fresh tuple from argument 0: an output-only slot
   * therefore reaches the native function holding 0, whatever the script
   * passed at its position.
   */
  lemma OutputSlotStartsAtZero(specs: seq<ArgSpec>, args: seq<RtValue>, j: nat)
    requires AllWellFormed(specs) && j < |specs| && specs[j].kind.Output?
    ensures FillArgs(specs, args, 0, Zeros(|specs|))[j] == 0
  {
  }

  /** The converter of an `int` parameter applied to a number. */
  function ToInt32(v: RtValue): int
  {
    if v.Number? then Convert(v.n, IntType(W32, true)) else 0
  }

  /**
   * A constructor `(int x, int y)` declared `V8_ARGS(int, _def<int, 0>)` and
   * called with the single argument 5 receives x = 5 and y = 0.
   */
  lemma DefaultedSecondArgument()
    ensures
      var int32 := IntType(W32, true);
      var plain := ParamType(NotRef, false, None);
      var specs := [ArgSpec(Required, plain, int32, ToInt32), ArgSpec(Defaulted(0, 1), plain, int32, ToInt32)];
      FillArgs(specs, [Number(5)], 0, Zeros(2)) == [5, 0]
  {
    var int32 := IntType(W32, true);
    DefaultWithUnitDenominator(int32, 0);
  }

  // ---------------------------------------------------------------------------
  // Bind-time check and holders

  predicate IsMutableLvalueRef(p: ParamType)
  {
    p.ref == LvalueRef && !p.isConst
  }

  /**
   * The `static_assert`s of the `_out`, `_ref`, `_ref_opt` and `_ref_def`
   * traits: the type written in such a spec must be a non-const lvalue
   * reference. Exactly the output specs are checked.
   */
  function SpecTypeAccepted(k: SpecKind, declared: ParamType): (ok: bool)
    ensures ok <==> !TraitsOf(k).isOutput || IsMutableLvalueRef(declared)
  {
    match k
    case Output | Reference | RefOptional | RefDefaulted(_, _) => IsMutableLvalueRef(declared)
    case _ => true
  }

  /** A native object of class type, the referent a reference holder points at. */
  class Referent {
    var value: int

    constructor (v: int)
      ensures value == v
    {
      value := v;
    }
  }

  /** `CppArgHolder<T>`: keeps its own copy of the converted value. */
  class ValueHolder {
    var holder: int

    constructor ()
      ensures holder == 0
    {
      holder := 0;
    }

    method Hold(v: int)
      modifies this
      ensures holder == v
    {
      holder := v;
    }
  }

  /** `CppArgHolder<T&>`: keeps the address of the referent it was given. */
  class RefHolder {
    var holder: Referent?

    constructor ()
      ensures holder == null
    {
      holder := null;
    }

    method Hold(v: Referent)
      modifies this
      ensures holder == v
    {
      holder := v;
    }

    /** `value()`: the referent itself, not a copy. */
    function Value(): (r: Referent)
      reads this
      requires holder != null
      ensures r == holder
    {
      holder
    }
  }

  /**
   * A native callee assigning to the reference it received from a reference
   * holder: the assignment lands in the referent that was held.
   */
  method AssignThroughHolder(r: Referent, x: int) returns (h: RefHolder)
    modifies r
    ensures h.holder == r && r.value == x
  {
    h := new RefHolder();
    h.Hold(r);
    h.Value().value := x;
  }
}
