/**
 * Raw calling-convention categories (src/abi.rs): the three ABI shapes a
 * WinRT argument or out-slot can take, their zero values and the libffi
 * type descriptor each one is passed as.
 */
module Abi {

  /** Signed machine integers; the source's `i32` / `i64`. */
  newtype int32 = x: int | -0x8000_0000 <= x < 0x8000_0000
  newtype int64 = x: int | -0x8000_0000_0000_0000 <= x < 0x8000_0000_0000_0000

  /** A machine address; 0 is the null pointer. */
  type Address = nat
  const NULL: Address := 0

  /** Abstract tags standing for libffi's `middle::Type` descriptors. */
  datatype FfiType =
    | FfiU8 | FfiI16 | FfiU16 | FfiI32 | FfiU32 | FfiI64 | FfiU64
    | FfiF32 | FfiF64 | FfiPointer
    | FfiStruct(fields: seq<FfiType>)

  datatype AbiType = I32 | I64 | Ptr {

    /** The zeroed value used to allocate out-parameter storage before a call. */
    function DefaultValue(): (v: AbiValue)
      ensures v.AbiTypeOf() == this
      ensures v.IsZero()
    {
      match this
      case I32 => AbiValue.I32(0)
      case I64 => AbiValue.I64(0)
      case Ptr => AbiValue.Pointer(NULL)
    }

    function LibffiType(): (t: FfiType)
      ensures !t.FfiStruct?
      ensures t == FfiPointer <==> this == Ptr
    {
      match this
      case I32 => FfiI32
      case I64 => FfiI64
      case Ptr => FfiPointer
    }
  }

  datatype AbiValue = I32(i: int32) | I64(l: int64) | Pointer(p: Address) {

    /** The category of a value; it depends on the variant only. */
    function AbiTypeOf(): AbiType
    {
      match this
      case I32(_) => AbiType.I32
      case I64(_) => AbiType.I64
      case Pointer(_) => AbiType.Ptr
    }

    /** Zero for the integer shapes, null for the pointer shape. */
    predicate IsZero()
    {
      match this
      case I32(i) => i == 0
      case I64(l) => l == 0
      case Pointer(p) => p == NULL
    }
  }

  /** Distinct ABI categories are passed as distinct libffi types. */
  lemma LibffiTypeInjective(a: AbiType, b: AbiType)
    ensures a.LibffiType() == b.LibffiType() ==> a == b
  {
  }

  /** `abi_type` sees only the variant: two values of one variant have one category. */
  lemma AbiTypeIgnoresPayload(v: AbiValue, w: AbiValue)
    requires v.I32? == w.I32? && v.I64? == w.I64?
    ensures v.AbiTypeOf() == w.AbiTypeOf()
  {
  }
}
