/**
 * The fuller driver's mutable globals as one object, with the entry points
 * that change them: the factory, the COM reference counting, Initialize and
 * SetPropertyData.
 */
module Driver {
  import opened CoreAudio
  import opened VocanaConstants
  import opened PropertyTables
  import opened PropertyData
  import PropertySet

  /** The factory: the driver reference for the plug-in type, nothing otherwise. */
  function Create(requested: Uuid): (r: Option<DriverRef>)
    ensures r.Some? <==> requested == PlugInTypeUUID
    ensures r.Some? ==> r.value == TheDriver
  {
    if requested == PlugInTypeUUID then Some(TheDriver) else None
  }

  /** AddRef's update: one more reference, saturating at UINT32_MAX. */
  function AddRefCount(n: UInt32): (r: UInt32)
    ensures n <= r <= n + 1
    ensures r == n <==> n == UINT32_MAX
  {
    if n < UINT32_MAX then n + 1 else n
  }

  /** Release's update: one reference fewer, never below zero. */
  function ReleaseCount(n: UInt32): (r: UInt32)
    ensures n - 1 <= r <= n
    ensures r == n <==> n == 0
  {
    if n > 0 then n - 1 else n
  }

  lemma ReleaseUndoesAddRef(n: UInt32)
    requires n < UINT32_MAX
    ensures ReleaseCount(AddRefCount(n)) == n
  {
  }

  lemma AddRefUndoesRelease(n: UInt32)
    requires n > 0
    ensures AddRefCount(ReleaseCount(n)) == n
  {
  }

  /** QueryInterface's update as written: an unguarded 32-bit increment. */
  function QueryInterfaceCountAsWritten(n: UInt32): (r: UInt32)
    ensures n < UINT32_MAX ==> r == n + 1
    ensures n == UINT32_MAX ==> r == 0
  {
    (n + 1) % 0x1_0000_0000
  }

  /**
   * The unguarded increment agrees with AddRef below the maximum and wraps to
   * zero at it, where AddRef saturates.
   */
  lemma QueryInterfaceCountWraps(n: UInt32)
    ensures n < UINT32_MAX ==> QueryInterfaceCountAsWritten(n) == AddRefCount(n)
    ensures QueryInterfaceCountAsWritten(UINT32_MAX) == 0
    ensures AddRefCount(UINT32_MAX) == UINT32_MAX
  {
  }

  /** The box name after Initialize: a default is installed only when there is none. */
  function InitialBoxName(name: Option<string>): (r: Option<string>)
    ensures r.Some?
    ensures name.Some? ==> r == name
    ensures name.None? ==> r == Some("Vocana Box")
  {
    if name.None? then Some("Vocana Box") else name
  }

  datatype QueryAnswer = Interface(iface: DriverRef) | NoInterface | QueryFailed(error: Error)

  /** The host call SetPropertyData makes: PropertiesChanged(object, count, addresses). */
  datatype Notification = Notification(obj: ObjectID, count: nat, addresses: seq<Address>)

  class PlugIn {
    var refCount: UInt32
    var host: Option<HostRef>
    var boxName: Option<string>
    var boxAcquired: bool
    var sampleRate: nat
    var ioIsRunning: nat
    var inputActive: bool
    var outputActive: bool

    /** The globals that property reads consult. */
    function State(): DriverState
      reads this
    {
      DriverState(boxName, boxAcquired, sampleRate, ioIsRunning, inputActive, outputActive)
    }

    predicate Valid()
      reads this
    {
      ValidState(State())
    }

    /** The globals' static initialisers. */
    constructor ()
      ensures State() == LoadedState
      ensures refCount == 0 && host == None
      ensures Valid()
    {
      refCount := 0;
      host := None;
      boxName := None;
      boxAcquired := true;
      sampleRate := DefaultSampleRate;
      ioIsRunning := 0;
      inputActive := true;
      outputActive := true;
    }

    method QueryInterface(driver: DriverRef, requested: Uuid, outPresent: bool, uuidCreated: bool)
      returns (answer: QueryAnswer)
      modifies this
      ensures driver != TheDriver ==> answer == QueryFailed(BadObject)
      ensures driver == TheDriver && (!outPresent || !uuidCreated) ==> answer == QueryFailed(IllegalOperation)
      ensures answer.Interface? <==>
                driver == TheDriver && outPresent && uuidCreated &&
                requested in {IUnknownUUID, DriverInterfaceUUID}
      ensures answer.Interface? ==> answer.iface == TheDriver
      ensures answer == NoInterface <==>
                driver == TheDriver && outPresent && uuidCreated &&
                requested !in {IUnknownUUID, DriverInterfaceUUID}
      ensures refCount == if answer.Interface? then AddRefCount(old(refCount)) else old(refCount)
      ensures host == old(host) && State() == old(State())
    {
      if driver != TheDriver {
        return QueryFailed(BadObject);
      }
      if !outPresent || !uuidCreated {
        return QueryFailed(IllegalOperation);
      }
      if requested == IUnknownUUID || requested == DriverInterfaceUUID {
        refCount := AddRefCount(refCount);
        answer := Interface(TheDriver);
      } else {
        answer := NoInterface;
      }
    }

    method AddRef(driver: DriverRef) returns (count: UInt32)
      modifies this
      ensures driver == TheDriver ==> refCount == AddRefCount(old(refCount)) && count == refCount
      ensures driver != TheDriver ==> count == 0 && refCount == old(refCount)
      ensures host == old(host) && State() == old(State())
    {
      if driver != TheDriver {
        return 0;
      }
      if refCount < UINT32_MAX {
        refCount := refCount + 1;
      }
      count := refCount;
    }

    method Release(driver: DriverRef) returns (count: UInt32)
      modifies this
      ensures driver == TheDriver ==> refCount == ReleaseCount(old(refCount)) && count == refCount
      ensures driver != TheDriver ==> count == 0 && refCount == old(refCount)
      ensures host == old(host) && State() == old(State())
    {
      if driver != TheDriver {
        return 0;
      }
      if refCount > 0 {
        refCount := refCount - 1;
      }
      count := refCount;
    }

    /** Stores the host reference as given and installs a default box name. */
    method Initialize(driver: DriverRef, inHost: Option<HostRef>) returns (status: Status)
      modifies this
      ensures driver != TheDriver ==> status == Failed(BadObject) && unchanged(this)
      ensures driver == TheDriver ==>
                status == NoError && host == inHost &&
                State() == old(State()).(boxName := InitialBoxName(old(boxName)))
      ensures refCount == old(refCount)
      ensures old(Valid()) ==> Valid()
    {
      if driver != TheDriver {
        return Failed(BadObject);
      }
      host := inHost;
      if boxName == None {
        boxName := Some("Vocana Box");
      }
      status := NoError;
    }

    /**
     * Applies the write, then hands the changed addresses to the host when
     * there are any.
     */
    method SetPropertyData(driver: DriverRef, obj: ObjectID, address: Option<Address>,
                           inDataSize: UInt32, inData: Option<PropertySet.InData>)
      returns (status: Status, notified: Option<Notification>)
      modifies this
      ensures var r := PropertySet.SetPropertyData(old(State()), driver, obj, address, inDataSize, inData);
              State() == r.state && status == r.status &&
              (notified.Some? <==> |r.changed| > 0) &&
              (notified.Some? ==> notified.value == Notification(obj, |r.changed|, r.changed))
      ensures refCount == old(refCount) && host == old(host)
      ensures old(Valid()) ==> Valid()
    {
      var r := PropertySet.SetPropertyData(State(), driver, obj, address, inDataSize, inData);
      boxName := r.state.boxName;
      boxAcquired := r.state.boxAcquired;
      status := r.status;
      var changedCount := |r.changed|;
      if changedCount > 0 {
        notified := Some(Notification(obj, changedCount, r.changed));
      } else {
        notified := None;
      }
    }
  }

  /**
   * No entry point changes the IO-running counter, which starts at zero, so the
   * device always reports that it is not running.
   */
  lemma DeviceNeverRunning(s: DriverState, inDataSize: UInt32)
    requires s.ioIsRunning == 0 && inDataSize >= 4
    ensures GetPropertyData(s, TheDriver, DeviceID, Some(Address(DeviceIsRunning, ScopeGlobal, ElementMain)),
                            Qualifier(0, None), inDataSize, true, true) == Ok(Fetched(Word(0), 4))
  {
  }
}
