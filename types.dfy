/** The IR's scalar type descriptor, and the mapping from descriptors to the
    C fixed-width type names that the RV64 PPAC backend prints. */
module IrTypes {

  /** The type classes a descriptor can have. */
  datatype TypeCode = Int | UInt | Float | Handle | Fixed | UFixed

  /** A type descriptor: class, bit width, fractional bits and lane count. */
  datatype Type = Type(code: TypeCode, bits: nat, fracs: nat, lanes: nat)

  /** The IR's `Handle()`: the 64-bit scalar opaque handle type. */
  const HandleType: Type := Type(Handle, 64, 0, 1)
}

module TypeMap {
  import opened IrTypes

  /** An over-wide fixed-point type with no fractional bits: the mapper clamps it
      to the 64-bit name, logs a warning, and appends the descriptor dump. */
  predicate IsClamped(t: Type) {
    (t.code == UFixed || t.code == Fixed) && t.fracs == 0 && t.bits > 64
  }

  /** `PrintType`: the C name of a scalar type. `dump(t)` stands for the
      descriptor's own textual form, written where no case applies. */
  function TypeName(t: Type, dump: Type -> string): string
    requires t.lanes == 1
  {
    if t.code == Handle then "void*"
    else if t.code == Float then
      if t.bits == 32 then "float"
      else if t.bits == 64 then "double"
      else dump(t)
    else if t.code == UInt then
      if t.bits == 1 then "int"
      else if t.bits <= 32 then "uint32_t"
      else if t.bits <= 64 then "uint64_t"
      else dump(t)
    else if t.code == Int then
      if t.bits == 1 then "int"
      else if t.bits <= 32 then "int32_t"
      else if t.bits <= 64 then "int64_t"
      else dump(t)
    else if t.code == UFixed && t.fracs == 0 then
      if t.bits <= 8 then "uint8_t"
      else if t.bits <= 16 then "uint16_t"
      else if t.bits <= 32 then "uint32_t"
      else if t.bits <= 64 then "uint64_t"
      else "uint64_t" + dump(t)
    else if t.code == Fixed && t.fracs == 0 then
      if t.bits <= 8 then "int8_t"
      else if t.bits <= 16 then "int16_t"
      else if t.bits <= 32 then "int32_t"
      else if t.bits <= 64 then "int64_t"
      else "int64_t" + dump(t)
    else dump(t)
  }

  /** The C types the mapper can name: class, signedness and width in bits. */
  datatype CType = Pointer | FloatingPoint(width: nat) | Signed(width: nat) | Unsigned(width: nat)

  /** What each C type name of the target denotes (plain `int` is 32-bit signed). */
  const CTypes: map<string, CType> := map[
    "void*" := Pointer,
    "float" := FloatingPoint(32), "double" := FloatingPoint(64),
    "int" := Signed(32),
    "int8_t" := Signed(8), "int16_t" := Signed(16), "int32_t" := Signed(32), "int64_t" := Signed(64),
    "uint8_t" := Unsigned(8), "uint16_t" := Unsigned(16), "uint32_t" := Unsigned(32), "uint64_t" := Unsigned(64)
  ]

  /** The widths of the fixed-width integer types, narrowest first. */
  const StdWidths: seq<nat> := [8, 16, 32, 64]

  /** The descriptors that have a C name of their own (no dump is written for them). */
  predicate Named(t: Type) {
    || t.code == Handle
    || (t.code == Float && (t.bits == 32 || t.bits == 64))
    || ((t.code == Int || t.code == UInt) && t.bits <= 64)
    || ((t.code == Fixed || t.code == UFixed) && t.fracs == 0 && t.bits <= 64)
  }

  /** A C type `c` can hold every value of `t`: same class, same signedness
      (a 1-bit unsigned value is held in a plain `int`) and at least as wide. */
  predicate Holds(c: CType, t: Type) {
    match t.code
    case Handle => c == Pointer
    case Float => c == FloatingPoint(t.bits)
    case Int => c.Signed? && c.width >= t.bits
    case Fixed => c.Signed? && c.width >= t.bits
    case UInt => (c.Unsigned? || (t.bits == 1 && c == Signed(32))) && c.width >= t.bits
    case UFixed => c.Unsigned? && c.width >= t.bits
  }

  /** Every named descriptor maps to a C type that holds it. */
  lemma NamedTypeHolds(t: Type, dump: Type -> string)
    requires t.lanes == 1 && Named(t)
    ensures TypeName(t, dump) in CTypes && Holds(CTypes[TypeName(t, dump)], t)
  {
  }

  /** The name of a named descriptor does not involve the descriptor dump. */
  lemma NamedIgnoresDump(t: Type, dump1: Type -> string, dump2: Type -> string)
    requires t.lanes == 1 && Named(t)
    ensures TypeName(t, dump1) == TypeName(t, dump2)
  {
  }

  /** A fixed-point descriptor without fractional bits of at most 64 bits gets
      the narrowest fixed-width type that is wide enough, with its signedness;
      it is never the plain `int`. */
  lemma FixedIsNarrowest(t: Type, dump: Type -> string)
    requires t.lanes == 1 && (t.code == Fixed || t.code == UFixed) && t.fracs == 0 && t.bits <= 64
    ensures TypeName(t, dump) in CTypes && TypeName(t, dump) != "int"
    ensures var c := CTypes[TypeName(t, dump)];
      (c.Signed? <==> t.code == Fixed) && (c.Signed? || c.Unsigned?) &&
      c.width in StdWidths && t.bits <= c.width &&
      forall i :: 0 <= i < |StdWidths| && t.bits <= StdWidths[i] ==> c.width <= StdWidths[i]
  {
  }

  /** An integer descriptor of at most 64 bits: one bit, and only one bit, is
      a plain `int`; otherwise the narrower of the 32- and 64-bit types that is wide enough,
      with its signedness. */
  lemma IntIsNarrowest(t: Type, dump: Type -> string)
    requires t.lanes == 1 && (t.code == Int || t.code == UInt) && t.bits <= 64
    ensures t.bits == 1 <==> TypeName(t, dump) == "int"
    ensures TypeName(t, dump) in CTypes
    ensures t.bits != 1 ==> var c := CTypes[TypeName(t, dump)];
      (c.Signed? <==> t.code == Int) && (c.Signed? || c.Unsigned?) &&
      (c.width == 32 || c.width == 64) && t.bits <= c.width && (t.bits <= 32 ==> c.width == 32)
  {
  }

  /** Descriptors without a name of their own: over-wide fixed-point types get
      the clamped 64-bit name followed by the dump, all others just the dump. */
  lemma UnnamedDumps(t: Type, dump: Type -> string)
    requires t.lanes == 1 && !Named(t)
    ensures IsClamped(t) ==> TypeName(t, dump) == (if t.code == UFixed then "uint64_t" else "int64_t") + dump(t)
    ensures !IsClamped(t) ==> TypeName(t, dump) == dump(t)
  {
  }
}
