# dynwinrt marshaling core in Dafny

This project models the part of dynwinrt that connects a caller's type description to a raw COM vtable call. dynwinrt is a dynamic Windows Runtime (WinRT) interop engine written in Rust. The model covers:

- **Value-type registry** (`Registry`): primitive sizes and alignments; an append-only table of struct entries whose offsets, size and alignment follow the C natural-alignment rules; handles that query it; and `ValueTypeData`, a zeroed byte buffer with field get/set and clone.
- **ABI categories** (`Abi`): the three categories a WinRT value travels as (32-bit integer, 64-bit integer, pointer), with their zero defaults and libffi type tags.
- **WinRT types and values** (`Types`, `Values`):
  - each type's ABI category and default value;
  - the total conversion of a raw out slot back into a value (`from_out_value`);
  - the conversion of a raw out word (`from_out`), which reads integers through the word as a pointer and casts an async operation to IAsyncInfo;
  - the value accessors;
  - the "expected an object" error path of `cast` and `call_single_out`;
  - the element-wise clone of a COM array.
- **Signature builder** (`Signature`, `Interfaces`):
  - `add` and `add_out` number in-parameters and out-parameters in two independent groups;
  - `build` freezes a parameter list into a libffi call interface;
  - `add_method` numbers vtable slots by position;
  - the fixed interface tables of `src/interfaces.rs` are built with it.
- **Dynamic call** (`Call`):
  - one default out slot per out-parameter;
  - the argument list (receiver, then in-values or out-pointers in declaration order);
  - the raw call;
  - a short-circuit on a failing HRESULT;
  - otherwise, conversion of the out slots.
- **Async** (`DAsync`):
  - the completion-handler COM object, with its QueryInterface/AddRef/Release/Invoke and reference count;
  - the poll state machine of the awaitable future.

Classes model what the source updates in place. These are the registry's struct list, the value buffer, the method and interface builders, the handler's reference count, and the future's waker. Pure matches are modelled as functions. The source's loops become methods with loop invariants, each proved equal to a specification function. Lemmas prove what those functions promise.

Platform calls are oracles passed as parameters:

- the libffi call;
- QueryInterface;
- the async object's SetCompleted and GetResults slots;
- the memory behind a raw pointer, as two read functions;
- the status query;
- the system marshaler.

Memory is a map from address to pointer-sized word. An out slot is modelled by its ABI value.

The shown source is inconsistent in a few places; the model resolves them as follows:

- `src/result.rs` does not declare `InvalidTypeAbiToWinRT` or `InvalidNestedOutType`, which `src/types.rs` raises. `Types.Error` declares them.
- `src/call.rs:76-77` pushes a `Result` into a vector of values, which does not type-check. The model propagates the first conversion error, in declaration order.
- `src/interfaces.rs` calls `InterfaceSignature::new`, which `src/signature.rs` does not define. The model uses `define_interface` with the same arguments.
- `src/dasync.rs` uses async type variants and an `AsyncInfo` type that the shown `src/types.rs` does not declare. `DAsync.AsyncType` and `DAsync.AsyncInfo` declare them. The interface identifiers are data, because their derivation is not shown.
- `src/dasync.rs` also matches on a `WinRTValue::Async` variant that `src/value.rs` does not declare. The model does not declare it either: the future is built from the `AsyncInfo` that variant would carry.

## Model

| member | source | states |
|---|---|---|
| Abi.AbiType.DefaultValue | src/abi.rs:9-15 | the default of each ABI type has that ABI type and is zero or null |
| Abi.AbiType.LibffiType | src/abi.rs:16-22 | the libffi tag is a scalar, and it is the pointer tag exactly for Ptr |
| Abi.LibffiTypeInjective | src/abi.rs:16-22 | distinct ABI types get distinct libffi tags |
| Abi.AbiTypeIgnoresPayload | src/abi.rs:41-47 | a value's ABI type depends only on its variant, not on its payload |
| Registry.PrimitiveType.SizeOf | src/registry.rs:20-27 | every primitive size is 1, 2, 4 or 8 |
| Registry.PrimitiveType.LibffiType | src/registry.rs:33-46 | a primitive's libffi tag is a scalar whose size and alignment are the primitive's |
| Registry.PrimitiveSizes | src/registry.rs:20-31 | size 1 exactly for Bool/U8, 2 for I16/U16, 4 for I32/U32/F32, 8 for I64/U64/F64, and alignment equals size |
| Registry.AlignUp | src/registry.rs:167 | for an alignment of 1, 2, 4 or 8, the round-up is a multiple of it, at least x and less than x plus the alignment |
| Registry.AlignUpIsLeast | src/registry.rs:167 | the round-up is the least multiple of the alignment that is at least x |
| Registry.MaskIsRoundDown8 | src/registry.rs:167 | on 64-bit words, masking with the complement of 7 rounds down to a multiple of 8, as division does |
| Registry.MaskIsRoundDown4 | src/registry.rs:172 | masking with the complement of 3 rounds down to a multiple of 4 |
| Registry.MaskIsRoundDown2 | src/registry.rs:172 | masking with the complement of 1 rounds down to a multiple of 2 |
| Registry.PlacementSound | src/registry.rs:163-170 | every offset is a multiple of its field's alignment; fields do not overlap in declaration order and end by the running end, which is the last field's end |
| Registry.MaxAlign | src/registry.rs:161-166 | the struct alignment is 1, 2, 4 or 8, at least each field's alignment, 1 with no fields, and otherwise equal to some field's alignment |
| Registry.LayoutOf | src/registry.rs:158-174 | one offset per field; the struct alignment is a valid alignment and divides the size |
| Registry.LayoutSound | src/registry.rs:158-174 | C layout: aligned offsets, no overlap, fields inside the struct, alignment is the maximum field alignment (1 when empty), size within one alignment of the last field's end |
| Registry.LayoutSizeIsLeast | src/registry.rs:172-173 | the size is the least multiple of the struct alignment that holds every field |
| Registry.EntryLayout | src/registry.rs:57-61 | in a valid registry every entry has a valid alignment dividing its size and one offset per field |
| Registry.AppendKeepsValid | src/registry.rs:86-92 | appending an entry computed over earlier entries keeps the registry valid |
| Registry.FfiTypeOf | src/registry.rs:143-156 | a kind's libffi type is a structure exactly for struct kinds, with one member per field |
| Registry.FfiLayoutAgrees | src/registry.rs:143-156 | the libffi type's natural size and alignment equal the registry's size and alignment for the kind |
| Registry.FfiShapesAgree | src/registry.rs:148-153 | a struct's libffi member list has the registry's field shapes, field by field |
| Registry.TypeRegistry.constructor | src/registry.rs:70-74 | a new registry is valid and empty |
| Registry.TypeRegistry.PrimitiveHandle | src/registry.rs:76-81 | the handle belongs to this registry and names the primitive; in a valid registry it is valid with the primitive's size and alignment |
| Registry.TypeRegistry.SizeOfKind | src/registry.rs:101-106 | size_of_kind is the size of layout_of_kind |
| Registry.TypeRegistry.AlignOfKind | src/registry.rs:108-113 | align_of_kind is the alignment of layout_of_kind |
| Registry.TypeRegistry.LayoutOfKind | src/registry.rs:115-120 | in a valid registry a kind's layout has alignment 1, 2, 4 or 8 dividing its size |
| Registry.TypeRegistry.FieldCountKind | src/registry.rs:122-127 | in a valid registry the field count is the number of stored offsets |
| Registry.TypeRegistry.FieldOffsetKind | src/registry.rs:129-134 | in a valid registry a field's offset is at most the struct's size |
| Registry.TypeRegistry.FieldKind | src/registry.rs:136-141 | in a valid registry a field's kind exists and is a primitive or an earlier struct |
| Registry.TypeRegistry.ComputeLayout | src/registry.rs:158-174 | the loop's offsets, size and alignment are exactly the C layout of the field kinds |
| Registry.TypeRegistry.DefineStruct | src/registry.rs:83-97 | returns Struct(n) for the entry count n before the call, keeps earlier entries, and appends the fields with their computed layout |
| Registry.TypeHandle.SizeOf | src/registry.rs:186-188 | a handle's size is a multiple of its alignment |
| Registry.TypeHandle.AlignOf | src/registry.rs:190-192 | a handle's alignment is 1, 2, 4 or 8 |
| Registry.TypeHandle.Layout | src/registry.rs:194-196 | the layout carries the handle's size and alignment |
| Registry.TypeHandle.LibffiType | src/registry.rs:198-200 | the handle's libffi type has the handle's size and alignment |
| Registry.TypeHandle.FieldCount | src/registry.rs:202-204 | the field count is the number of stored offsets |
| Registry.TypeHandle.FieldType | src/registry.rs:210-215 | a field's handle is valid in the same registry and names an earlier struct |
| Registry.TypeHandle.FieldOffset | src/registry.rs:206-208 | a field's offset is a multiple of its alignment and the field lies inside the struct |
| Registry.HandleLayoutSound | src/registry.rs:186-215 | a handle's alignment divides its size, and the fields of a struct handle never overlap |
| Registry.ReadAfterWrite | src/registry.rs:249-268 | reading a field back after writing it gives the written bytes |
| Registry.WriteKeepsOtherFields | src/registry.rs:260-268 | writing one field leaves every other field's bytes unchanged |
| Registry.ValueTypeData.constructor | src/registry.rs:232-243 | a new value is a fresh buffer of the layout's size, all zero |
| Registry.ValueTypeData.Copy | src/registry.rs:314-333 | a copy is a fresh buffer with the same bytes and handle |
| Registry.ValueTypeData.GetField | src/registry.rs:249-258 | given the field's width, returns the bytes at the field's offset |
| Registry.ValueTypeData.SetField | src/registry.rs:260-269 | given a value of the field's width, overwrites exactly the field's bytes |
| Registry.ValueTypeData.Clone | src/registry.rs:314-333 | the clone is a fresh buffer with equal bytes |
| Registry.DefaultValue | src/registry.rs:217-219 | a handle's default value is an all-zero buffer of that type |
| Registry.CloneIsIndependent | src/registry.rs:449-455 | a set_field on the original after cloning leaves the clone's bytes unchanged |
| RegistryExamples.PointLayout | src/registry.rs:357-367 | [f32, f32] has offsets 0 and 4, size 8, alignment 4 |
| RegistryExamples.RectLayout | src/registry.rs:370-381 | [f32 x4] has offsets 0, 4, 8, 12, size 16, alignment 4 |
| RegistryExamples.GeopositionLayout | src/registry.rs:384-394 | [f64 x3] has offsets 0, 8, 16, size 24, alignment 8 |
| RegistryExamples.MixedLayout | src/registry.rs:397-408 | [u8, i32, u8] has offsets 0, 4, 8, size 12, alignment 4 |
| RegistryExamples.NestedLayout | src/registry.rs:411-422 | defining a point and then [point, f64] gives size 16, alignment 8, offsets 0 and 8 |
| Types.AbiTypeCategories | src/types.rs:19-25 | I32 and HResult travel as I32, I64 as I64, every other type as a pointer |
| Types.DefaultValueAsWritten | src/types.rs:27-38 | the default as written is empty (zero, null or no elements) |
| Types.DefaultValue | src/types.rs:27-38 | the corrected default is empty and agrees with the written one except for out types |
| Types.FromOutValue | src/types.rs:61-81 | succeeds exactly for a convertible type whose ABI category matches the slot; an out type fails with InvalidNestedOutType; every other mismatch fails with InvalidTypeAbiToWinRT(type, slot's category) |
| Types.DefaultSlotConverts | src/types.rs:61-81 | a convertible type converts its ABI default to its own default value; any other type fails on it |
| Types.PointerOnlyConvertsToObjectOrString | src/types.rs:66-79 | among pointer types only Object and HString convert; IAsyncOperation and ArrayOfIUnknown fail with InvalidTypeAbiToWinRT even with a pointer |
| Values.GetType | src/value.rs:140-151 | each value's type has the ABI category of the word it is passed as; async operations map to async types and nothing else does |
| Values.FromOutValueRoundTrip | src/value.rs:140-151 | a value converted from a slot has the requested type and is passed as that slot's word |
| Values.AbiWordRoundTrip | src/value.rs:166-178 | a value of a convertible type converts back from its own ABI word |
| Values.DefaultValueHasType | src/types.rs:27-38 | the corrected default of a type has that type |
| Values.DefaultValueAsWrittenMistyped | src/types.rs:34 | as written, the default of OutValue(I32) has type OutValue(OutValue(I32)) |
| Values.AsI32 | src/value.rs:57-62 | Some(i) exactly for I32(i) |
| Values.AsHString | src/value.rs:50-55 | Some exactly for HString values, with their handle |
| Values.AsObject | src/value.rs:64-70 | Some exactly for Object and IAsyncOperation values; an object yields itself |
| Values.FromOut | src/types.rs:40-59 | the result has the requested type; it succeeds exactly for a convertible type, or an async operation whose cast to IAsyncInfo succeeds; a failed query is its HRESULT; any other type fails with InvalidTypeAbiToWinRT(type, Ptr) |
| Values.FromOutAgreesWithFromOutValue | src/types.rs:40-81 | for a convertible type, from_out gives what from_out_value gives for the word it designates: the integer read through the pointer, or the pointer itself |
| Values.Cast | src/value.rs:72-81 | a non-object gives ExpectObjectTypeError(its type); for an object, fails exactly when QueryInterface fails, else returns the queried pointer |
| Values.CallSingleOut | src/value.rs:83-114 | a non-object gives ExpectObjectTypeError(its type); for an object, fails with the call's HRESULT exactly when it is negative; otherwise the result has the requested type and is from_out of the word the callee wrote, whose unwrap must succeed |
| Values.CallSingleOutReadsThroughResult | src/value.rs:91-110 | as written, an I32 getter that writes 5 yields the integer stored at address 5; for the same write the corrected member yields 5 |
| Values.CallSingleOutInSlot | src/value.rs:83-114 | corrected: the same errors; success exactly for a non-failing HRESULT, a convertible type and a written word of its ABI category; the result has the requested type and is passed as the written word |
| Values.NonObjectMakesNoCall | src/value.rs:72-114 | on a non-object, cast and call_single_out give the same result whatever the platform answers |
| Values.NonNullSound | src/value.rs:15-23 | the entries that receive an AddRef are exactly the non-null ones |
| Values.CloneArray | src/value.rs:15-23 | the clone has the same length and entry i equals entry i of the original, each non-null entry taking one AddRef in order |
| Signature.CountOuts | src/signature.rs:40-48 | the out-parameter count is at most the parameter count |
| Signature.CountOutsMonotonic | src/signature.rs:31-48 | out and in counts never decrease along the list |
| Signature.WellNumberedSnoc | src/signature.rs:31-48 | appending a parameter numbered by its group's count so far keeps the list well-numbered and adds one to the out count exactly for an out-parameter |
| Signature.WellNumberedAt | src/signature.rs:31-48 | in a well-numbered list, parameter k's index is the count of its own group among the first k parameters |
| Signature.WellNumberedIff | src/signature.rs:31-48 | the append-by-append definition holds exactly when every parameter is numbered by its group's count before it |
| Signature.WellNumberedPrefix | src/signature.rs:31-48 | every prefix of a well-numbered list is well-numbered |
| Signature.WellNumberedIndices | src/signature.rs:31-48 | out indices are below the out count and in indices below the in count, each strictly increasing in declaration order |
| Signature.CifForShape | src/signature.rs:50-62 | the type list has one entry more than the parameters: a pointer first, a pointer per out-parameter, the ABI type per in-parameter; the return type is i32 |
| Signature.MethodSignature.constructor | src/signature.rs:22-29 | no parameters, out count 0, return type HResult |
| Signature.MethodSignature.Add | src/signature.rs:31-38 | appends an in-parameter numbered by the in-parameters already present and keeps the list well-numbered |
| Signature.MethodSignature.AddOut | src/signature.rs:40-48 | appends an out-parameter numbered by the previous out count and increments it |
| Signature.MethodSignature.Build | src/signature.rs:50-71 | keeps index, parameters and out count; the loop's type list is the call interface the parameters call for |
| Signature.InterfaceSignature.DefineInterface | src/signature.rs:112-118 | a named interface with no methods |
| Signature.InterfaceSignature.AddMethod | src/signature.rs:136-140 | the new method's slot is the method count before it; earlier methods are unchanged; every slot i holds index i |
| Signature.InterfaceSignature.DefineFromIUnknown | src/signature.rs:120-126 | three methods, none with parameters |
| Signature.InterfaceSignature.DefineFromIInspectable | src/signature.rs:128-134 | six methods; only slot 4 has a parameter, one out HString |
| Interfaces.UriFactory | src/interfaces.rs:4-19 | 7 methods; slot 6 takes an in HString then an out Object, both numbered 0 |
| Interfaces.UriVtable | src/interfaces.rs:21-49 | 21 methods; slots 4, 6-14 and 16-18 one out HString, 19 one out I32, 0-3, 5, 15 and 20 none |
| Interfaces.IAsyncOperationWithProgress | src/interfaces.rs:51-69 | 11 methods; GetResults at slot 10 returns an HString, slots 6-9 take nothing |
| Interfaces.IAsyncOperation | src/interfaces.rs:71-87 | 9 methods; GetResults at slot 8 returns an object |
| Interfaces.FileOpenPickerFactory | src/interfaces.rs:89-107 | 7 methods; slot 6 takes an in I64 then an out Object |
| Interfaces.PickFileResult | src/interfaces.rs:109-123 | 7 methods; slot 6 returns an HString |
| Interfaces.FileOpenPicker | src/interfaces.rs:125-146 | 14 methods; setters at 6, 8, 10 take one in-parameter, each getter one out-parameter |
| Call.VtableLookup | src/call.rs:7-15 | the lookup returns entry i of the vtable the object's first word points to |
| Call.DefaultSlots | src/call.rs:58-63 | exactly one slot per out-parameter |
| Call.DefaultSlotsAt | src/call.rs:58-63 | the out-parameter at position k owns slot CountOuts(before k), holding its ABI default |
| Call.DefaultSlotsZero | src/call.rs:60 | every allocated slot is zero or null |
| Call.DefaultSlotsWellNumbered | src/call.rs:58-66 | for a well-numbered list, slot j belongs to the out-parameter whose index is j |
| Call.FfiArgsOf | src/call.rs:52-70 | parameters+1 entries: the receiver first, then the out pointer or args[index] for each parameter in order |
| Call.Settle | src/call.rs:71 | after the call each slot keeps its ABI category |
| Call.ConvertOuts | src/call.rs:73-80 | on success one value per out-parameter; a failure is a conversion error (InvalidTypeAbiToWinRT or InvalidNestedOutType); ConvertOutsOkIff, ConvertOutsValues and ConvertOutsFirstError carry the rest |
| Call.ConvertOutsOkIff | src/call.rs:73-79 | the conversion succeeds exactly when every out slot converts |
| Call.ConvertOutsValues | src/call.rs:73-80 | on success one value per out-parameter, in declaration order, each the conversion of its slot |
| Call.ConvertOutsFirstError | src/call.rs:73-79 | a failure carries the error of the first out-parameter whose slot does not convert |
| Call.DynamicCall | src/call.rs:42-81 | on success one value per out-parameter; a failure that is not a Windows error is a conversion error; CallOutcome carries the rest |
| Call.CallOutcome | src/call.rs:42-81 | a failing HRESULT is the error, with no conversion; otherwise the call succeeds exactly when every out type converts, and yields out-count values, each of its parameter's type |
| Call.AllocateOutSlots | src/call.rs:58-63 | the first loop allocates exactly the default slots, slot pointer j pointing at slot j |
| Call.AssembleArgs | src/call.rs:56-70 | the second loop builds exactly the argument list |
| Call.ConvertResults | src/call.rs:73-80 | the third loop is the conversion, stopping at the first error |
| Call.CallWinrtMethodDynamic | src/call.rs:42-81 | the method returns exactly the dynamic-call specification |
| Call.CallDynamic | src/signature.rs:88-101 | a built method's call forwards its slot, parameters, out count and call interface |
| DAsync.AsyncType.ResultType | src/dasync.rs:159 | an async type has a result type exactly when it is an operation |
| DAsync.VtableIndices | src/dasync.rs:146-152 | SetCompleted at 6 without progress and 8 with; GetResults two slots later |
| DAsync.QueryConcrete | src/dasync.rs:136-143 | fails with QueryInterface's HRESULT exactly when it is negative |
| DAsync.GetResults | src/dasync.rs:155-178 | an operation's result has its declared result type; an action's result is HResult(0); the only errors are Windows errors and from_out's InvalidTypeAbiToWinRT |
| DAsync.GetResultsOutcome | src/dasync.rs:155-178 | a failed QueryInterface is the error; a failing GetResults HRESULT is the error whatever memory the out word points to; once both succeed an action yields HResult(0) |
| DAsync.RegistrationOutcome | src/dasync.rs:182-208 | an action registers exactly when its cast and SetCompleted at slot 6 succeed; any other async type exactly when QueryConcrete and SetCompleted at its vtable slot succeed |
| DAsync.RegistrationErrorsAreWindowsErrors | src/dasync.rs:182-208 | a registration fails only with a failing HRESULT from the platform |
| DAsync.Finished | src/dasync.rs:216-221 | a status check ends the poll unless it reports Started |
| DAsync.WakerCell.constructor | src/dasync.rs:239 | the shared waker starts as the executor's waker, not yet woken |
| DAsync.DynCompletedHandler.Create | src/dasync.rs:48-56 | a new handler holds one reference, the waker and the handler identifier |
| DAsync.DynCompletedHandler.QueryInterface | src/dasync.rs:58-87 | null iid or out pointer gives E_POINTER (0x80004003, which the source's comment labels E_INVALIDARG); IUnknown, IAgileObject or the handler's iid give S_OK, this and one more reference; IMarshal takes a reference and returns the marshaler's HRESULT; anything else stores null and gives E_NOINTERFACE |
| DAsync.DynCompletedHandler.AddRef | src/dasync.rs:89-92 | the count goes up by one and is returned |
| DAsync.DynCompletedHandler.Release | src/dasync.rs:94-101 | the count goes down by one and is returned; the object is deallocated exactly when it reaches 0 |
| DAsync.DynCompletedHandler.Invoke | src/dasync.rs:103-113 | wakes the shared waker once and returns S_OK |
| DAsync.WinRTAsyncFuture.FromValue | src/dasync.rs:128-133 | a new future has no waker and no registration |
| DAsync.WinRTAsyncFuture.RegisterCompleted | src/dasync.rs:182-208 | the outcome is the registration specification; a non-action gets a fresh handler with one reference, its handler iid and the shared waker |
| DAsync.WinRTAsyncFuture.Poll | src/dasync.rs:214-248 | a finished status returns the results (or the status error) touching nothing; a first poll creates the waker, registers exactly once (for a non-action, with a fresh handler holding one reference, its handler iid and that shared waker) and waits unless registration fails; a later poll refreshes the waker, never registers, and re-checks the status |

## Left out

- `src/lib.rs`, `src/winapp.rs`, `src/roapi.rs`, `src/array.rs`, `src/meta.rs`, `build.rs` and `tests/`: demos, DLL loading, activation-factory lookup and metadata reading. These are calls into the live platform.
- libffi itself: building a `Cif` and `cif.call` are abstract type tags and an oracle. So are `call_winrt_method_1/2`, transmuted function pointers and raw pointer writes (`out_ptr`, `libffi_arg`, `as_out_ptr`, `call_method_struct_to_object`). Reads through a raw pointer are the two read functions of `OutMemory`.
- `WinRTValue::from_activation_factory`: a platform call outside the marshaling core.
- `call_single_out_2`: not modelled as its own member. Values.CallSingleOutInSlot reads the written slot the same way, but it also accepts an Object argument, which `call_single_out_2` refuses with a panic, and it fails on a type that does not convert, where `call_single_out_2` returns the slot's default value unconverted.
- The `Arc`/`RwLock` around the registry and the `Mutex<Waker>` shared with the platform's thread. Both are modelled single-threaded, so the mutex always locks.
- Floating-point field values: fields are byte sequences of the field's width.
- Freeing a `ValueTypeData` buffer on drop.
- Fixed-width integer overflow: `usize` offsets, the `u32` struct id and the reference count are unbounded here.
- Registry.TypeRegistry.DefineStruct: it requires each field's kind to exist in this registry, but not that the handle comes from this registry. The source indexes its own table with the kind's id whatever registry the handle came from.
- Registry.AlignUp: the source's mask formula is related to division only for widths 2, 4 and 8 on 64-bit words (MaskIsRoundDown2/4/8). The general bit-level identity is not proved.
- Values.AsObject: the query from an async operation to IUnknown is a total function. The source's `unwrap` of a failed cast (a panic) is not modelled.
- Values.CallSingleOut: the raw call is an oracle returning the HRESULT and the word written into `result`. The panics are preconditions: an argument list other than none, one I32, one I64 or one Object, and an `unwrap` of a failed `from_out`.
- DAsync.DynCompletedHandler.QueryInterface: the system marshaler behind the IMarshal branch is an oracle HRESULT. The object it stores is not modelled.
- DAsync.WinRTAsyncFuture.RegisterCompleted: the typed `AsyncActionCompletedHandler` is not modelled as an object. The release of the local handler reference when the function returns is also not modelled.
- DAsync.WinRTAsyncFuture.FromValue: it takes the `AsyncInfo` directly, so the panic at `src/dasync.rs:131` on a value that is not async cannot be represented.
- DAsync.GetResults: it models `rt.from_out(out)` as written, so an operation whose result type is I32, I64 or HResult reads its result through the written word, as Values.CallSingleOutReadsThroughResult shows for `call_single_out`.
- DAsync.WinRTAsyncFuture.Poll: the executor's waker is an identity, and waking it is counted.
- The async value's declared type must be an async type, because `vtable_indices` panics otherwise. The future requires this from construction on.
- Call.CallWinrtMethodDynamic: it requires at most `out_count` out-parameters. The out slots live in a vector reserved for `out_count` entries, so more out-parameters would move the vector and leave earlier out pointers dangling. A built method always meets this bound.
- Call.Settle: the callee writes only the payload of each out slot through its pointer, so a slot keeps its ABI category. A write of another category is not representable.

## Findings

| source | as written | input that shows it | evidently intended | confidence | as-written member | corrected member |
|---|---|---|---|---|---|---|
| src/types.rs:34 | `default_value` of `OutValue(inner)` builds `OutValue(null, self.clone())`, recording the out type itself as the pointed-at type | `OutValue(I32)`: its default's `get_type` is `OutValue(OutValue(I32))` | record `inner`, so that the default of a type has that type | not executed | Values.DefaultValueAsWrittenMistyped | Values.DefaultValueHasType |
| src/value.rs:110 | `from_out` is given the word the callee wrote into `result` and, for I32, I64 and HResult, reads the value through that word as a pointer | an I32 getter that writes 5: the result is the integer stored at address 5 | read the written word as a value of the requested type, as `call_single_out_2` does by having the callee write into a slot of the type's default value | not executed | Values.CallSingleOutReadsThroughResult | Values.CallSingleOutInSlot |
