/**
 * Accessors on WinRT values (src/value.rs): the type of a value, the
 * optional projections, the object-only operations' error path, and the
 * element-by-element clone of a COM array.
 */
module Values {
  import opened Wrappers
  import opened Abi
  import opened Types

  /** get_type: the type each value variant belongs to. */
  function GetType(v: WinRTValue): (t: WinRTType)
    ensures AbiWord(v).Some? ==> AbiWord(v).value.AbiTypeOf() == t.AbiTypeOf()
    ensures t.IAsyncOperation? <==> v.IAsyncOperation?
  {
    match v
    case I32(_) => WinRTType.I32
    case I64(_) => WinRTType.I64
    case Object(_) => WinRTType.Object
    case HString(_) => WinRTType.HString
    case HResult(_) => WinRTType.HResult
    case OutValue(_, typ) => WinRTType.OutValue(typ)
    case IAsyncOperation(_, iid) => WinRTType.IAsyncOperation(iid)
    case ArrayOfIUnknown(_) => WinRTType.ArrayOfIUnknown
  }

  /**
   * The single ABI word libffi_arg hands to libffi for a value. An array
   * is passed by the address of its descriptor, which is not modelled, and
   * an async operation cannot be passed (the source panics).
   */
  function AbiWord(v: WinRTValue): Option<AbiValue>
  {
    match v
    case I32(i) => Some(AbiValue.I32(i))
    case I64(l) => Some(AbiValue.I64(l))
    case Object(p) => Some(Pointer(p))
    case HString(s) => Some(Pointer(s))
    case HResult(hr) => Some(AbiValue.I32(hr))
    case OutValue(p, _) => Some(Pointer(p))
    case IAsyncOperation(_, _) => None
    case ArrayOfIUnknown(_) => None
  }

  /**
   * from_out_value loses nothing: a converted value has the requested type
   * and is passed as exactly the ABI word it was converted from.
   */
  lemma FromOutValueRoundTrip(t: WinRTType, out: AbiValue)
    ensures var r := FromOutValue(t, out);
      r.Ok? ==> GetType(r.value) == t && AbiWord(r.value) == Some(out)
  {
  }

  /** Conversely, a value of a marshalable type converts back from its own ABI word. */
  lemma AbiWordRoundTrip(v: WinRTValue)
    requires GetType(v).Marshalable()
    ensures AbiWord(v).Some? && FromOutValue(GetType(v), AbiWord(v).value) == Ok(v)
  {
  }

  /** The default value of a type has that type. */
  lemma DefaultValueHasType(t: WinRTType)
    requires !t.IAsyncOperation?
    ensures GetType(DefaultValue(t)) == t
  {
  }

  /** As written, the default of an out type reports a doubly nested out type. */
  lemma DefaultValueAsWrittenMistyped()
    ensures var t := WinRTType.OutValue(WinRTType.I32);
      GetType(DefaultValueAsWritten(t)) == WinRTType.OutValue(t) != t
  {
  }

  /** as_i32: the integer exactly when the value is an I32. */
  function AsI32(v: WinRTValue): (r: Option<int32>)
    ensures r.Some? <==> v.I32?
    ensures r.Some? ==> v == WinRTValue.I32(r.value)
  {
    match v
    case I32(i) => Some(i)
    case _ => None
  }

  /** as_hstring: the string handle exactly when the value is an HString. */
  function AsHString(v: WinRTValue): (r: Option<Address>)
    ensures r.Some? <==> v.HString?
    ensures r.Some? ==> v == WinRTValue.HString(r.value)
  {
    match v
    case HString(s) => Some(s)
    case _ => None
  }

  /**
   * as_object: the object itself, or an async operation's IUnknown
   * (`unknownOf` stands for the platform's QueryInterface, which the source
   * unwraps); nothing for every other variant.
   */
  function AsObject(v: WinRTValue, unknownOf: Address -> Address): (r: Option<Address>)
    ensures r.Some? <==> v.Object? || v.IAsyncOperation?
    ensures v.Object? ==> r == Some(v.obj)
  {
    match v
    case Object(p) => Some(p)
    case IAsyncOperation(info, _) => Some(unknownOf(info))
    case _ => None
  }

  /** HRESULT::ok: negative codes are failures. */
  predicate Failed(hr: int32)
  {
    hr < 0
  }

  /**
   * cast: QueryInterface on an object (`query` returns the HRESULT and the
   * interface pointer); any other value is an "expected an object" error.
   */
  function Cast(v: WinRTValue, iid: Guid, query: (Address, Guid) -> (int32, Address)): (r: Result<WinRTValue, Error>)
    ensures !v.Object? ==> r == Err(ExpectObjectTypeError(GetType(v)))
    ensures v.Object? ==> (r.Err? <==> Failed(query(v.obj, iid).0))
    ensures r.Ok? ==> r.value == WinRTValue.Object(query(v.obj, iid).1)
  {
    match v
    case Object(obj) =>
      var (hr, p) := query(obj, iid);
      if Failed(hr) then Err(WindowsError(hr)) else Ok(WinRTValue.Object(p))
    case _ => Err(ExpectObjectTypeError(GetType(v)))
  }

  /** The argument lists call_single_out can dispatch: none, or one I32, I64 or object. */
  predicate SingleOutArgs(args: seq<WinRTValue>)
  {
    |args| == 0 || (|args| == 1 && (args[0].I32? || args[0].I64? || args[0].Object?))
  }

  /** Reads through a raw pointer: the 32-bit and the 64-bit integer stored at an address. */
  datatype OutMemory = OutMemory(read32: Address -> int32, read64: Address -> int64)

  /**
   * from_out: read a value of type `t` through the raw pointer `ptr`. An
   * integer or an HRESULT is read from the memory `ptr` points at; an object
   * or a string is the pointer itself; an async operation is the pointer
   * cast to IAsyncInfo; an out type or an array is refused as a pointer.
   */
  function FromOut(t: WinRTType, ptr: Address, mem: OutMemory, query: (Address, Guid) -> (int32, Address)): (r: Result<WinRTValue, Error>)
    ensures r.Ok? ==> GetType(r.value) == t
    ensures r.Ok? <==> t.Marshalable() || (t.IAsyncOperation? && !Failed(query(ptr, IAsyncInfoIid).0))
    ensures r.Err? && t.IAsyncOperation? ==> r.error == WindowsError(query(ptr, IAsyncInfoIid).0)
    ensures r.Err? && !t.IAsyncOperation? ==> r.error == InvalidTypeAbiToWinRT(t, Ptr)
  {
    match t
    case I32 => Ok(WinRTValue.I32(mem.read32(ptr)))
    case I64 => Ok(WinRTValue.I64(mem.read64(ptr)))
    case Object => Ok(WinRTValue.Object(ptr))
    case HString => Ok(WinRTValue.HString(ptr))
    case HResult => Ok(WinRTValue.HResult(mem.read32(ptr)))
    case IAsyncOperation(iid) =>
      var (hr, info) := query(ptr, IAsyncInfoIid);
      if Failed(hr) then Err(WindowsError(hr)) else Ok(WinRTValue.IAsyncOperation(info, iid))
    case _ => Err(InvalidTypeAbiToWinRT(t, Ptr))
  }

  /** The ABI word a raw pointer designates for type `t`: the integer it points at, or the pointer itself. */
  function Designated(t: WinRTType, ptr: Address, mem: OutMemory): (w: AbiValue)
    ensures w.AbiTypeOf() == t.AbiTypeOf()
  {
    match t.AbiTypeOf()
    case I32 => AbiValue.I32(mem.read32(ptr))
    case I64 => AbiValue.I64(mem.read64(ptr))
    case Ptr => AbiValue.Pointer(ptr)
  }

  /**
   * For the convertible types, reading through a pointer and converting the
   * word it designates agree: from_out and from_out_value are one conversion.
   */
  lemma FromOutAgreesWithFromOutValue(t: WinRTType, ptr: Address, mem: OutMemory, query: (Address, Guid) -> (int32, Address))
    requires t.Marshalable()
    ensures FromOut(t, ptr, mem, query) == FromOutValue(t, Designated(t, ptr, mem))
  {
  }

  /**
   * call_single_out: call vtable slot `methodIndex` of an object with at
   * most one argument and one pointer-sized out slot, then read the result
   * with from_out of the word the callee wrote there. `call` is the raw
   * call: its HRESULT and that word. The `unwrap` panics when from_out
   * fails, which the second precondition rules out.
   */
  function CallSingleOut(v: WinRTValue, methodIndex: nat, typ: WinRTType, args: seq<WinRTValue>,
                         call: (Address, nat, seq<WinRTValue>) -> (int32, Address),
                         mem: OutMemory, query: (Address, Guid) -> (int32, Address)): (r: Result<WinRTValue, Error>)
    requires v.Object? ==> SingleOutArgs(args)
    requires v.Object? && !Failed(call(v.obj, methodIndex, args).0) ==> FromOut(typ, call(v.obj, methodIndex, args).1, mem, query).Ok?
    ensures !v.Object? ==> r == Err(ExpectObjectTypeError(GetType(v)))
    ensures v.Object? ==> (r.Err? <==> Failed(call(v.obj, methodIndex, args).0))
    ensures r.Err? && v.Object? ==> r.error == WindowsError(call(v.obj, methodIndex, args).0)
    ensures r.Ok? ==> GetType(r.value) == typ
    ensures r.Ok? ==> Ok(r.value) == FromOut(typ, call(v.obj, methodIndex, args).1, mem, query)
  {
    match v
    case Object(obj) =>
      var (hr, result) := call(obj, methodIndex, args);
      if Failed(hr) then Err(WindowsError(hr)) else FromOut(typ, result, mem, query)
    case _ => Err(ExpectObjectTypeError(GetType(v)))
  }

  /**
   * As written, call_single_out gives from_out the word the callee wrote,
   * not a pointer to it, so an integer result is read from the address that
   * integer names: an I32 getter that writes 5 yields the integer stored at
   * address 5 (here 7), not 5, which the corrected CallSingleOutInSlot
   * returns for the same write.
   */
  lemma CallSingleOutReadsThroughResult()
    ensures var call := (o: Address, i: nat, a: seq<WinRTValue>) => (0 as int32, 5 as Address);
      var mem := OutMemory(a => if a == 5 then 7 as int32 else 0 as int32, a => 0 as int64);
      var query := (o: Address, g: Guid) => (0 as int32, o);
      CallSingleOut(WinRTValue.Object(1), 19, WinRTType.I32, [], call, mem, query) == Ok(WinRTValue.I32(7))
    ensures var slotCall := (o: Address, i: nat, a: seq<WinRTValue>) => (0 as int32, AbiValue.I32(5));
      CallSingleOutInSlot(WinRTValue.Object(1), 19, WinRTType.I32, [], slotCall) == Ok(WinRTValue.I32(5))
  {
  }

  /**
   * call_single_out with the result read from the out slot itself, as
   * call_single_out_2 does by filling the type's default value in place:
   * `call` is the raw call, its HRESULT and the ABI word it stored in the
   * slot, which from_out_value converts.
   */
  function CallSingleOutInSlot(v: WinRTValue, methodIndex: nat, typ: WinRTType, args: seq<WinRTValue>,
                               call: (Address, nat, seq<WinRTValue>) -> (int32, AbiValue)): (r: Result<WinRTValue, Error>)
    requires v.Object? ==> SingleOutArgs(args)
    ensures !v.Object? ==> r == Err(ExpectObjectTypeError(GetType(v)))
    ensures v.Object? && Failed(call(v.obj, methodIndex, args).0) ==> r == Err(WindowsError(call(v.obj, methodIndex, args).0))
    ensures v.Object? ==>
      (r.Ok? <==> !Failed(call(v.obj, methodIndex, args).0) && typ.Marshalable()
                  && call(v.obj, methodIndex, args).1.AbiTypeOf() == typ.AbiTypeOf())
    ensures r.Ok? ==> GetType(r.value) == typ && AbiWord(r.value) == Some(call(v.obj, methodIndex, args).1)
  {
    match v
    case Object(obj) =>
      var (hr, slot) := call(obj, methodIndex, args);
      if Failed(hr) then Err(WindowsError(hr))
      else
        FromOutValueRoundTrip(typ, slot);
        FromOutValue(typ, slot)
    case _ => Err(ExpectObjectTypeError(GetType(v)))
  }

  /** On a non-object value, cast and call_single_out fail without consulting the platform. */
  lemma NonObjectMakesNoCall(v: WinRTValue, iid: Guid, q1: (Address, Guid) -> (int32, Address), q2: (Address, Guid) -> (int32, Address),
                             methodIndex: nat, typ: WinRTType, args: seq<WinRTValue>,
                             c1: (Address, nat, seq<WinRTValue>) -> (int32, Address), c2: (Address, nat, seq<WinRTValue>) -> (int32, Address),
                             m1: OutMemory, m2: OutMemory)
    requires !v.Object?
    ensures Cast(v, iid, q1) == Cast(v, iid, q2)
    ensures CallSingleOut(v, methodIndex, typ, args, c1, m1, q1) == CallSingleOut(v, methodIndex, typ, args, c2, m2, q2)
    ensures Cast(v, iid, q1).Err? && Cast(v, iid, q1).error.ExpectObjectTypeError?
  {
  }

  /** The handles that receive an AddRef when an array is cloned: its non-null entries, in order. */
  function NonNull(items: seq<Address>): seq<Address>
  {
    if items == [] then []
    else NonNull(items[..|items| - 1]) + (if items[|items| - 1] != NULL then [items[|items| - 1]] else [])
  }

  lemma {:induction false} NonNullSound(items: seq<Address>)
    ensures |NonNull(items)| <= |items|
    ensures forall x :: x in NonNull(items) <==> x in items && x != NULL
  {
    if items != [] {
      NonNullSound(items[..|items| - 1]);
      assert items == items[..|items| - 1] + [items[|items| - 1]];
    }
  }

  /**
   * ArrayOfIUnknownData::clone: a new array of the same length, filled
   * element by element with a clone of each entry. Cloning an interface
   * pointer is the same pointer plus one AddRef, reported in `addRefs`.
   */
  method CloneArray(a: ArrayOfIUnknownData) returns (c: ArrayOfIUnknownData, addRefs: seq<Address>)
    ensures |c.items| == |a.items|
    ensures forall i :: 0 <= i < |a.items| ==> c.items[i] == a.items[i]
    ensures addRefs == NonNull(a.items)
  {
    var n := |a.items|;
    var arr := new Address[n](_ => NULL);
    addRefs := [];
    for i := 0 to n
      invariant forall k :: 0 <= k < i ==> arr[k] == a.items[k]
      invariant addRefs == NonNull(a.items[..i])
    {
      var x := a.items[i];
      assert a.items[..i + 1][..i] == a.items[..i];
      arr[i] := x;
      if x != NULL {
        addRefs := addRefs + [x];
      }
    }
    assert a.items[..n] == a.items;
    c := ArrayOfIUnknownData(arr[..]);
  }
}
