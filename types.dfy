/**
  The type variants of the dynamic FFI type model that carry no mutable state:
  the kind discriminator, the scalar (basic) types with their size and
  alignment table, and the plain records built by the function, array and
  pointer type constructors.
 */
module Types {

  /** The C++ `unsigned` used for alignments and field offsets. */
  newtype u32 = x: int | 0 <= x < 0x1_0000_0000

  /** The C++ `uint64_t` used for sizes and element counts. */
  newtype u64 = x: int | 0 <= x < 0x1_0000_0000_0000_0000

  /** The discriminator every type carries; it is fixed when the type is built. */
  datatype TypeKind = Basic | Pointer | Array | Function | Struct | Union | Enum
  {
    /** The kinds that go through the opaque → defined lifecycle. */
    predicate CanBeOpaque() { Struct? || Union? || Enum? }

    /** The kinds that hold fields with offsets (structs and unions). */
    predicate IsComposite() { Struct? || Union? }
  }

  /**
    The identity of a type object owned by the type authority. Types are
    compared by identity, so a reference to one is modelled by its identity.
   */
  type TypeRef = nat

  /** A reference to a type as used by pointees, elements, parameters and returns. */
  datatype QualType = QualType(ty: TypeRef)

  // ---------------------------------------------------------------------
  // Basic (scalar) types
  // ---------------------------------------------------------------------

  datatype BasicKind =
    | Bool | Char
    | Int8 | Int16 | Int32 | Int64 | Int128
    | UInt8 | UInt16 | UInt32 | UInt64 | UInt128
    | Float32 | Float64 | Float128
    | ComplexFloat32 | ComplexFloat64 | ComplexFloat128

  /** `sizeof(bool)` is implementation-defined; it is one byte on every mainstream ABI. */
  const BoolSize: u64 := 1

  /** `sizeof(char)` is one byte by definition. */
  const CharSize: u64 := 1

  /** The widths an integer kind can have. */
  datatype IntWidth = W8 | W16 | W32 | W64 | W128
  {
    function Bits(): nat
    {
      match this
      case W8 => 8
      case W16 => 16
      case W32 => 32
      case W64 => 64
      case W128 => 128
    }
  }

  /** The widths a floating-point kind can have. */
  datatype FloatWidth = F32 | F64 | F128
  {
    function Bits(): nat
    {
      match this
      case F32 => 32
      case F64 => 64
      case F128 => 128
    }
  }

  /** The signed integer kind of a width, read off the kind's name. */
  function SignedKind(w: IntWidth): BasicKind
  {
    match w
    case W8 => Int8
    case W16 => Int16
    case W32 => Int32
    case W64 => Int64
    case W128 => Int128
  }

  /** The unsigned integer kind of a width, read off the kind's name. */
  function UnsignedKind(w: IntWidth): BasicKind
  {
    match w
    case W8 => UInt8
    case W16 => UInt16
    case W32 => UInt32
    case W64 => UInt64
    case W128 => UInt128
  }

  /** The real floating-point kind of a width. */
  function RealKind(w: FloatWidth): BasicKind
  {
    match w
    case F32 => Float32
    case F64 => Float64
    case F128 => Float128
  }

  /** The complex kind whose real and imaginary parts have the given width. */
  function ComplexKind(w: FloatWidth): BasicKind
  {
    match w
    case F32 => ComplexFloat32
    case F64 => ComplexFloat64
    case F128 => ComplexFloat128
  }

  /** The byte size of a scalar kind (`BasicType::getSize`): a total table. */
  function BasicSize(k: BasicKind): (r: u64)
    ensures r in {1, 2, 4, 8, 16, 32}
    ensures k == Bool ==> r == BoolSize
    ensures k == Char ==> r == CharSize
  {
    match k
    case Bool => BoolSize
    case Char => CharSize
    case Int8 => 1
    case Int16 => 2
    case Int32 => 4
    case Int64 => 8
    case Int128 => 16
    case UInt8 => 1
    case UInt16 => 2
    case UInt32 => 4
    case UInt64 => 8
    case UInt128 => 16
    case Float32 => 4
    case Float64 => 8
    case Float128 => 16
    case ComplexFloat32 => 8
    case ComplexFloat64 => 16
    case ComplexFloat128 => 32
  }

  /**
    The alignment of a scalar kind (`BasicType::getAlign`): the size, narrowed
    from `uint64_t` to `unsigned`; the narrowing never loses a bit.
   */
  function BasicAlign(k: BasicKind): (r: u32)
    ensures r as int == BasicSize(k) as int
    ensures r > 0
  {
    BasicSize(k) as int as u32
  }

  /** Every integer kind occupies exactly its bit width in bytes, signed or not. */
  lemma IntegerSizeIsWidth(w: IntWidth)
    ensures BasicSize(SignedKind(w)) as int * 8 == w.Bits()
    ensures BasicSize(UnsignedKind(w)) == BasicSize(SignedKind(w))
  {
  }

  /** Every real floating-point kind occupies its bit width in bytes. */
  lemma FloatSizeIsWidth(w: FloatWidth)
    ensures BasicSize(RealKind(w)) as int * 8 == w.Bits()
  {
  }

  /** A complex kind is a pair of floats of its width: exactly twice the size. */
  lemma ComplexIsTwiceReal(w: FloatWidth)
    ensures BasicSize(ComplexKind(w)) as int == 2 * BasicSize(RealKind(w)) as int
  {
  }

  // ---------------------------------------------------------------------
  // Plain records: function, array and pointer types
  // ---------------------------------------------------------------------

  /**
    The calling convention tag stored in a function type's flags. Its values
    belong to a header that is not part of this model, so it is kept abstract.
   */
  type CallingConv = nat

  /** A function signature: return type, parameter types, calling convention, variadic flag. */
  datatype FunctionType = FunctionType(retTy: QualType, paramsTy: seq<QualType>, cc: CallingConv, varArgs: bool)
  {
    function Kind(): TypeKind { Function }
  }

  /**
    The function type constructor: it records the return type, the parameters
    and the calling convention, and always starts non-variadic.
   */
  function NewFunctionType(retTy: QualType, paramsTy: seq<QualType>, cc: CallingConv): (f: FunctionType)
    ensures f.Kind() == Function
    ensures f.retTy == retTy && f.paramsTy == paramsTy && f.cc == cc
    ensures !f.varArgs
  {
    FunctionType(retTy, paramsTy, cc, false)
  }

  /** An array type: element type and element count (zero is allowed). */
  datatype ArrayType = ArrayType(elemTy: QualType, nElements: u64)

  /** A pointer type: the type pointed to, which may still be opaque. */
  datatype PointerType = PointerType(pointee: QualType)
}
