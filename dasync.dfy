/**
 * Awaiting a WinRT async operation (src/dasync.rs): the completion-handler
 * COM object with its hand-written QueryInterface/AddRef/Release/Invoke and
 * reference count, and the future whose poll either finishes at once,
 * registers a completion handler on the first poll, or re-checks the
 * status on later polls.
 *
 * The platform (QueryInterface on the async object, its SetCompleted and
 * GetResults slots, reading a result through a raw pointer, the status
 * query) is a set of oracles; everything runs on one thread, so the
 * shared waker's mutex always locks.
 */
module DAsync {
  import opened Wrappers
  import opened Abi
  import opened Types
  import opened Values

  /** HRESULTs the handler returns. */
  const S_OK: int32 := 0
  /** 0x80004003, E_POINTER; the source's comment labels this value E_INVALIDARG. */
  const E_POINTER: int32 := -2147467261
  const E_NOINTERFACE: int32 := -2147467262

  /** Interface identifiers the handler answers to. */
  const IAgileObjectIid: Guid := 0x94EA2B94_E9CC_49E0_C0FF_EE64CA8F5B90
  const IMarshalIid: Guid := 0x00000003_0000_0000_C000_000000000046
  const IAsyncActionIid: Guid := 0x5A648006_843A_4DA9_865B_9D26E5DFAD7B

  /** The status an async operation reports. */
  datatype AsyncStatus = Started | Completed | Canceled | Error

  /**
   * The type an async value was declared with: the four async interfaces,
   * or any other WinRT type (which the vtable lookup refuses).
   */
  datatype AsyncType =
    | IAsyncAction
    | IAsyncActionWithProgress(progress: WinRTType)
    | IAsyncOperation(result: WinRTType)
    | IAsyncOperationWithProgress(result: WinRTType, progress: WinRTType)
    | Other(typ: WinRTType)
  {
    predicate IsAsync()
    {
      !Other?
    }

    predicate HasProgress()
    {
      IAsyncActionWithProgress? || IAsyncOperationWithProgress?
    }

    /** The type GetResults produces; an action produces none. */
    function ResultType(): (r: Option<WinRTType>)
      ensures IsAsync() ==> (r.Some? <==> IAsyncOperation? || IAsyncOperationWithProgress?)
    {
      match this
      case IAsyncOperation(t) => Some(t)
      case IAsyncOperationWithProgress(t, _) => Some(t)
      case _ => None
    }
  }

  /**
   * An async value: the IAsyncInfo pointer, its declared type, the
   * identifier of its concrete interface and of its completion handler.
   */
  datatype AsyncInfo = AsyncInfo(info: Address, asyncType: AsyncType, iid: Guid, handlerIid: Guid)

  /**
   * vtable_indices: the slots of SetCompleted and GetResults. Both follow
   * the six IInspectable slots, after the two progress slots when there
   * are any; GetResults is two slots after SetCompleted.
   */
  function VtableIndices(t: AsyncType): (r: (nat, nat))
    requires t.IsAsync()
    ensures r.1 == r.0 + 2
    ensures r.0 == 6 <==> !t.HasProgress()
    ensures r.0 == 6 || r.0 == 8
  {
    match t
    case IAsyncAction | IAsyncOperation(_) => (6, 8)
    case IAsyncActionWithProgress(_) | IAsyncOperationWithProgress(_, _) => (8, 10)
  }

  /** The platform calls the async code depends on. */
  datatype Platform = Platform(
    query: (Address, Guid) -> (int32, Address),               // QueryInterface: HRESULT and interface pointer
    setCompleted: (Address, nat) -> int32,                    // SetCompleted at a slot, with the new handler
    getResults: (Address, nat) -> (int32, Address),           // GetResults at a slot: HRESULT and out word
    memory: OutMemory)                                        // what from_out reads through a raw pointer

  /** query_concrete: QueryInterface from IAsyncInfo to the concrete async interface. */
  function QueryConcrete(a: AsyncInfo, p: Platform): (r: Result<Address, Error>)
    ensures r.Err? <==> Failed(p.query(a.info, a.iid).0)
    ensures r.Err? ==> r.error == WindowsError(p.query(a.info, a.iid).0)
  {
    var (hr, ptr) := p.query(a.info, a.iid);
    if Failed(hr) then Err(WindowsError(hr)) else Ok(ptr)
  }

  /**
   * get_results: call GetResults on the concrete interface; convert its
   * out word to the result type, or report HResult(0) for an action.
   */
  function GetResults(a: AsyncInfo, p: Platform): (r: Result<WinRTValue, Error>)
    requires a.asyncType.IsAsync()
    ensures r.Ok? && a.asyncType.ResultType().Some? ==> GetType(r.value) == a.asyncType.ResultType().value
    ensures r.Ok? && a.asyncType.ResultType().None? ==> r.value == WinRTValue.HResult(0)
    ensures r.Err? ==> r.error.WindowsError? || r.error.InvalidTypeAbiToWinRT?
  {
    match QueryConcrete(a, p)
    case Err(e) => Err(e)
    case Ok(concrete) =>
      var (hr, out) := p.getResults(concrete, VtableIndices(a.asyncType).1);
      if Failed(hr) then Err(WindowsError(hr))
      else match a.asyncType.ResultType()
        case Some(rt) => FromOut(rt, out, p.memory, p.query)
        case None => Ok(WinRTValue.HResult(0))
  }

  /**
   * When get_results fails at a platform call: a failed QueryInterface or
   * a failing HRESULT is the error, whatever the memory behind the out word
   * holds; once both succeed, an action always yields HResult(0).
   */
  lemma GetResultsOutcome(a: AsyncInfo, p: Platform, other: OutMemory)
    requires a.asyncType.IsAsync()
    ensures QueryConcrete(a, p).Err? ==> GetResults(a, p) == Err(QueryConcrete(a, p).error)
    ensures QueryConcrete(a, p).Ok? ==>
      var hr := p.getResults(QueryConcrete(a, p).value, VtableIndices(a.asyncType).1).0;
      && (Failed(hr) ==> GetResults(a, p) == Err(WindowsError(hr)) == GetResults(a, p.(memory := other)))
      && (!Failed(hr) && a.asyncType.ResultType().None? ==> GetResults(a, p) == Ok(WinRTValue.HResult(0)))
  {
  }

  /**
   * register_completed as a value: an IAsyncAction is cast to its typed
   * interface and given a typed handler at its SetCompleted slot; any
   * other async value gets a dynamic handler at the SetCompleted slot of
   * its concrete interface. Each failing step is the error.
   */
  function RegistrationOutcome(a: AsyncInfo, p: Platform): (r: Result<(), Error>)
    requires a.asyncType.IsAsync()
    ensures a.iid == IAsyncActionIid ==>
      (r.Ok? <==> !Failed(p.query(a.info, IAsyncActionIid).0) && !Failed(p.setCompleted(p.query(a.info, IAsyncActionIid).1, 6)))
    ensures a.iid != IAsyncActionIid ==>
      (r.Ok? <==> QueryConcrete(a, p).Ok? && !Failed(p.setCompleted(QueryConcrete(a, p).value, VtableIndices(a.asyncType).0)))
  {
    if a.iid == IAsyncActionIid then
      var (hr, action) := p.query(a.info, IAsyncActionIid);
      if Failed(hr) then Err(WindowsError(hr))
      else
        var hr' := p.setCompleted(action, 6);
        if Failed(hr') then Err(WindowsError(hr')) else Ok(())
    else
      match QueryConcrete(a, p)
      case Err(e) => Err(e)
      case Ok(concrete) =>
        var hr := p.setCompleted(concrete, VtableIndices(a.asyncType).0);
        if Failed(hr) then Err(WindowsError(hr)) else Ok(())
  }

  /** A registration fails only with a Windows error from one of its platform calls. */
  lemma RegistrationErrorsAreWindowsErrors(a: AsyncInfo, p: Platform)
    requires a.asyncType.IsAsync()
    ensures RegistrationOutcome(a, p).Err? ==>
      RegistrationOutcome(a, p).error.WindowsError? && Failed(RegistrationOutcome(a, p).error.code)
  {
  }

  /**
   * The outcome of a status query when it ends the poll: an error is a
   * Windows error, any status but Started means the results are ready.
   */
  function Finished(status: Result<AsyncStatus, int32>, a: AsyncInfo, p: Platform): (r: Option<Result<WinRTValue, Error>>)
    requires a.asyncType.IsAsync()
    ensures r.None? <==> status == Ok(Started)
  {
    match status
    case Err(e) => Some(Err(WindowsError(e)))
    case Ok(s) => if s != Started then Some(GetResults(a, p)) else None
  }

  /** The executor's waker, by identity. */
  type Waker = nat

  /** The waker shared between the future and its completion handler (Arc<Mutex<Waker>>). */
  class WakerCell {
    var waker: Waker
    /** How often the handler has woken the executor. */
    var wakes: nat

    constructor (waker: Waker)
      ensures this.waker == waker && wakes == 0
    {
      this.waker := waker;
      wakes := 0;
    }
  }

  /** What QueryInterface stored through its out pointer. */
  datatype Stored = NotWritten | WroteNull | WroteThis | WroteMarshaler

  /** DynCompletedHandler: a minimal COM object whose Invoke wakes the future. */
  class DynCompletedHandler {
    var refCount: nat
    /** The object has not been deallocated. */
    ghost var live: bool
    const handlerIid: Guid
    const waker: WakerCell

    ghost predicate Valid()
      reads this
    {
      live <==> refCount > 0
    }

    /** create: a new handler holding one reference. */
    constructor Create(waker: WakerCell, handlerIid: Guid)
      ensures Valid() && live && refCount == 1
      ensures this.waker == waker && this.handlerIid == handlerIid
    {
      this.waker := waker;
      this.handlerIid := handlerIid;
      refCount := 1;
      live := true;
    }

    /**
     * qi: a null identifier or out pointer is an invalid argument;
     * IUnknown, IAgileObject and the handler's own interface return this
     * object with one more reference; IMarshal takes a reference and
     * defers to the system marshaler (whose HRESULT is `marshalResult`);
     * anything else stores null and is refused.
     */
    method QueryInterface(iid: Option<Guid>, ppvNonNull: bool, marshalResult: int32) returns (hr: int32, stored: Stored)
      requires Valid() && live
      modifies this
      ensures Valid() && live
      ensures iid.None? || !ppvNonNull ==> hr == E_POINTER && stored == NotWritten && refCount == old(refCount)
      ensures iid.Some? && ppvNonNull ==>
        if iid.value == IUnknownIid || iid.value == IAgileObjectIid || iid.value == handlerIid then
          hr == S_OK && stored == WroteThis && refCount == old(refCount) + 1
        else if iid.value == IMarshalIid then
          hr == marshalResult && stored == WroteMarshaler && refCount == old(refCount) + 1
        else
          hr == E_NOINTERFACE && stored == WroteNull && refCount == old(refCount)
    {
      if iid.None? || !ppvNonNull {
        return E_POINTER, NotWritten;
      }
      var id := iid.value;
      if id == IUnknownIid || id == IAgileObjectIid || id == handlerIid {
        stored := WroteThis;
        var _ := AddRef();
        hr := S_OK;
      } else if id == IMarshalIid {
        refCount := refCount + 1;
        hr, stored := marshalResult, WroteMarshaler;
      } else {
        hr, stored := E_NOINTERFACE, WroteNull;
      }
    }

    /** add_ref: one more reference; the new count is returned. */
    method AddRef() returns (count: nat)
      requires Valid() && live
      modifies this
      ensures Valid() && live
      ensures refCount == old(refCount) + 1 && count == refCount
    {
      refCount := refCount + 1;
      count := refCount;
    }

    /** release: one reference fewer; the object is deallocated exactly when none remain. */
    method Release() returns (remaining: nat)
      requires Valid() && live
      modifies this
      ensures Valid()
      ensures refCount == old(refCount) - 1 && remaining == refCount
      ensures !live <==> remaining == 0
    {
      refCount := refCount - 1;
      remaining := refCount;
      if remaining == 0 {
        live := false;
      }
    }

    /** invoke: wake the future's executor and report success. */
    method Invoke(sender: Address, status: AsyncStatus) returns (hr: int32)
      requires Valid() && live
      modifies waker
      ensures hr == S_OK
      ensures waker.wakes == old(waker.wakes) + 1 && waker.waker == old(waker.waker)
    {
      waker.wakes := waker.wakes + 1;
      hr := S_OK;
    }
  }

  /** The result of one poll. */
  datatype Poll<T> = Ready(value: T) | Pending

  /** WinRTAsyncFuture: the async value and, after the first poll, the shared waker. */
  class WinRTAsyncFuture {
    const asyncInfo: AsyncInfo
    var waker: Option<WakerCell>
    /** How often a completion handler has been registered. */
    ghost var registrations: nat

    /** A handler is registered exactly once, on the poll that creates the shared waker. */
    ghost predicate Valid()
      reads this
    {
      && asyncInfo.asyncType.IsAsync()
      && registrations == if waker.Some? then 1 else 0
    }

    /** from_value: a future for an async value, not yet polled. */
    constructor FromValue(info: AsyncInfo)
      requires info.asyncType.IsAsync()
      ensures Valid() && asyncInfo == info && waker == None
    {
      asyncInfo := info;
      waker := None;
      registrations := 0;
    }

    /**
     * register_completed: for an IAsyncAction the typed platform handler
     * (not modelled as an object); otherwise a new dynamic handler that
     * holds the shared waker.
     */
    method RegisterCompleted(shared: WakerCell, p: Platform) returns (r: Result<(), Error>, handler: Option<DynCompletedHandler>)
      requires Valid()
      ensures r == RegistrationOutcome(asyncInfo, p)
      ensures asyncInfo.iid == IAsyncActionIid ==> handler.None?
      ensures asyncInfo.iid != IAsyncActionIid ==>
        && handler.Some? && fresh(handler.value) && handler.value.Valid() && handler.value.refCount == 1
        && handler.value.handlerIid == asyncInfo.handlerIid && handler.value.waker == shared
    {
      if asyncInfo.iid == IAsyncActionIid {
        handler := None;
        var (hr, action) := p.query(asyncInfo.info, IAsyncActionIid);
        if Failed(hr) {
          return Err(WindowsError(hr)), handler;
        }
        var hr' := p.setCompleted(action, 6);
        if Failed(hr') {
          return Err(WindowsError(hr')), handler;
        }
        r := Ok(());
      } else {
        var h := new DynCompletedHandler.Create(shared, asyncInfo.handlerIid);
        handler := Some(h);
        var concrete := QueryConcrete(asyncInfo, p);
        if concrete.Err? {
          return Err(concrete.error), handler;
        }
        var (setCompletedIndex, _) := VtableIndices(asyncInfo.asyncType);
        var hr := p.setCompleted(concrete.value, setCompletedIndex);
        if Failed(hr) {
          return Err(WindowsError(hr)), handler;
        }
        r := Ok(());
      }
    }

    /**
     * poll. `status` answers the first status query and `recheck` the
     * second one, which only a later poll makes.
     * - Finished before anything else: the results (or the status error),
     *   with nothing registered and the waker untouched.
     * - First poll while started: create the shared waker, register the
     *   handler once, and wait unless registration failed.
     * - Later poll while started: refresh the waker, never register
     *   again, and finish if the re-check says so.
     */
    method Poll(cx: Waker, p: Platform, status: Result<AsyncStatus, int32>, recheck: Result<AsyncStatus, int32>)
      returns (r: Poll<Result<WinRTValue, Error>>, handler: Option<DynCompletedHandler>)
      requires Valid()
      modifies this, if waker.Some? then {waker.value} else {}
      ensures Valid()
      ensures Finished(status, asyncInfo, p).Some? ==>
        && r == Ready(Finished(status, asyncInfo, p).value)
        && waker == old(waker) && registrations == old(registrations) && handler.None?
        && (waker.Some? ==> unchanged(waker.value))
      ensures Finished(status, asyncInfo, p).None? && old(waker).None? ==>
        && waker.Some? && fresh(waker.value) && waker.value.waker == cx && waker.value.wakes == 0
        && registrations == 1
        && (asyncInfo.iid == IAsyncActionIid ==> handler.None?)
        && (asyncInfo.iid != IAsyncActionIid ==>
              && handler.Some? && fresh(handler.value) && handler.value.Valid() && handler.value.refCount == 1
              && handler.value.handlerIid == asyncInfo.handlerIid && handler.value.waker == waker.value)
        && r == (if RegistrationOutcome(asyncInfo, p).Err? then Ready(Err(RegistrationOutcome(asyncInfo, p).error)) else Pending)
      ensures Finished(status, asyncInfo, p).None? && old(waker).Some? ==>
        && waker == old(waker) && registrations == old(registrations) && handler.None?
        && waker.value.waker == cx && waker.value.wakes == old(waker.value.wakes)
        && r == (if Finished(recheck, asyncInfo, p).Some? then Ready(Finished(recheck, asyncInfo, p).value) else Pending)
    {
      handler := None;
      match status {
        case Ok(s) =>
          if s != Started {
            return Ready(GetResults(asyncInfo, p)), handler;
          }
        case Err(e) =>
          return Ready(Err(WindowsError(e))), handler;
      }

      if waker.Some? {
        var shared := waker.value;
        shared.waker := cx;
        match recheck {
          case Ok(s) =>
            if s != Started {
              return Ready(GetResults(asyncInfo, p)), handler;
            }
          case Err(e) =>
            return Ready(Err(WindowsError(e))), handler;
        }
      } else {
        var shared := new WakerCell(cx);
        waker := Some(shared);
        registrations := registrations + 1;
        var registered;
        registered, handler := RegisterCompleted(shared, p);
        if registered.Err? {
          return Ready(Err(registered.error)), handler;
        }
      }
      r := Pending;
    }
  }
}
