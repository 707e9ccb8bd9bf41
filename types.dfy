/**
 * WinRT-level types and values (src/types.rs, with the value datatype of
 * src/value.rs and the error datatype of src/result.rs, which the two files
 * share): the mapping of each WinRT type to its ABI category, its default
 * value, and the conversion of a raw out-slot back into a WinRT value.
 */
module Types {
  import opened Wrappers
  import opened Abi

  /** A 128-bit interface identifier. */
  newtype Guid = x: int | 0 <= x < 0x1_0000_0000_0000_0000_0000_0000_0000_0000

  /** The identifier of IUnknown, the base interface every object answers to. */
  const IUnknownIid: Guid := 0x00000000_0000_0000_C000_000000000046

  /** The identifier of IAsyncInfo, the interface an async operation value holds. */
  const IAsyncInfoIid: Guid := 0x00000036_0000_0000_C000_000000000046

  datatype WinRTType =
    | I32
    | I64
    | Object
    | HString
    | HResult
    | OutValue(inner: WinRTType)
    | ArrayOfIUnknown
    | IAsyncOperation(iid: Guid)
  {
    /** The ABI category a value of this type is passed as. */
    function AbiTypeOf(): AbiType
    {
      match this
      case I32 | HResult => AbiType.I32
      case I64 => AbiType.I64
      case Object | HString | OutValue(_) | IAsyncOperation(_) | ArrayOfIUnknown => Ptr
    }

    /** The types an out slot converts back into. */
    predicate Marshalable()
    {
      I32? || I64? || Object? || HString? || HResult?
    }
  }

  /** Only the two integer types and HResult travel as integers; everything else is one pointer. */
  lemma AbiTypeCategories(t: WinRTType)
    ensures t.AbiTypeOf() == AbiType.I32 <==> t == WinRTType.I32 || t == WinRTType.HResult
    ensures t.AbiTypeOf() == AbiType.I64 <==> t == WinRTType.I64
    ensures t.AbiTypeOf() == Ptr <==> !(t.I32? || t.I64? || t.HResult?)
  {
  }

  /** The element handles of a COM array; null entries are empty. */
  datatype ArrayOfIUnknownData = ArrayOfIUnknownData(items: seq<Address>)

  /**
   * A WinRT value. Objects and strings are their raw handles (null for the
   * null object and the empty string); an out value is a raw pointer with
   * the type it points at.
   */
  datatype WinRTValue =
    | I32(i: int32)
    | I64(l: int64)
    | Object(obj: Address)
    | HString(str: Address)
    | HResult(hr: int32)
    | OutValue(ptr: Address, typ: WinRTType)
    | IAsyncOperation(info: Address, iid: Guid)
    | ArrayOfIUnknown(array: ArrayOfIUnknownData)

  /**
   * The marshaling layer's error type: the three variants of src/result.rs (a
   * Windows error is its HRESULT) and the two conversion errors
   * src/types.rs raises.
   */
  datatype Error =
    | ExpectObjectTypeError(actual: WinRTType)
    | InvalidType(expected: WinRTType, found: WinRTType)
    | WindowsError(code: int32)
    | InvalidTypeAbiToWinRT(target: WinRTType, abi: AbiType)
    | InvalidNestedOutType(outType: WinRTType)

  /** A value carries no data: zero, null, or an empty array. */
  predicate IsEmpty(v: WinRTValue)
  {
    match v
    case I32(i) => i == 0
    case I64(l) => l == 0
    case Object(p) => p == NULL
    case HString(s) => s == NULL
    case HResult(hr) => hr == 0
    case OutValue(p, _) => p == NULL
    case IAsyncOperation(_, _) => false
    case ArrayOfIUnknown(a) => a.items == []
  }

  /**
   * default_value as the source writes it: an out type's default records the
   * out type itself where the value's type slot expects the pointed-at type.
   * IAsyncOperation has no default (the source panics).
   */
  function DefaultValueAsWritten(t: WinRTType): (v: WinRTValue)
    requires !t.IAsyncOperation?
    ensures IsEmpty(v)
  {
    match t
    case I32 => WinRTValue.I32(0)
    case I64 => WinRTValue.I64(0)
    case Object => WinRTValue.Object(NULL)
    case HString => WinRTValue.HString(NULL)
    case HResult => WinRTValue.HResult(0)
    case OutValue(_) => WinRTValue.OutValue(NULL, t)
    case ArrayOfIUnknown => WinRTValue.ArrayOfIUnknown(ArrayOfIUnknownData([]))
  }

  /** default_value with the out case recording the pointed-at type. */
  function DefaultValue(t: WinRTType): (v: WinRTValue)
    requires !t.IAsyncOperation?
    ensures IsEmpty(v)
    ensures !t.OutValue? ==> v == DefaultValueAsWritten(t)
  {
    match t
    case I32 => WinRTValue.I32(0)
    case I64 => WinRTValue.I64(0)
    case Object => WinRTValue.Object(NULL)
    case HString => WinRTValue.HString(NULL)
    case HResult => WinRTValue.HResult(0)
    case OutValue(inner) => WinRTValue.OutValue(NULL, inner)
    case ArrayOfIUnknown => WinRTValue.ArrayOfIUnknown(ArrayOfIUnknownData([]))
  }

  /**
   * from_out_value: convert an out slot's raw ABI value into a value of type
   * `t`. Total: every mismatch is a typed error, never a panic.
   */
  function FromOutValue(t: WinRTType, out: AbiValue): (r: Result<WinRTValue, Error>)
    ensures r.Ok? <==> t.Marshalable() && out.AbiTypeOf() == t.AbiTypeOf()
    ensures t.OutValue? ==> r == Err(InvalidNestedOutType(t))
    ensures r.Err? && !t.OutValue? ==> r.error == InvalidTypeAbiToWinRT(t, out.AbiTypeOf())
  {
    match (t, out)
    case (I32, I32(i)) => Ok(WinRTValue.I32(i))
    case (I64, I64(l)) => Ok(WinRTValue.I64(l))
    case (Object, Pointer(p)) => Ok(WinRTValue.Object(p))
    case (HString, Pointer(p)) => Ok(WinRTValue.HString(p))
    case (HResult, I32(hr)) => Ok(WinRTValue.HResult(hr))
    case (OutValue(_), _) => Err(InvalidNestedOutType(t))
    case _ => Err(InvalidTypeAbiToWinRT(t, out.AbiTypeOf()))
  }

  /**
   * An out slot holding the ABI default of a marshalable type converts
   * to that type's default value; any other type fails on it.
   */
  lemma DefaultSlotConverts(t: WinRTType)
    ensures t.Marshalable() ==> FromOutValue(t, t.AbiTypeOf().DefaultValue()) == Ok(DefaultValue(t))
    ensures !t.Marshalable() ==> FromOutValue(t, t.AbiTypeOf().DefaultValue()).Err?
  {
  }

  /** IAsyncOperation and ArrayOfIUnknown are rejected even with a pointer. */
  lemma PointerOnlyConvertsToObjectOrString(t: WinRTType, p: Address)
    requires t.AbiTypeOf() == Ptr
    ensures FromOutValue(t, Pointer(p)).Ok? <==> t == WinRTType.Object || t == WinRTType.HString
    ensures t.IAsyncOperation? || t.ArrayOfIUnknown? ==>
      FromOutValue(t, Pointer(p)) == Err(InvalidTypeAbiToWinRT(t, Ptr))
  {
  }
}
