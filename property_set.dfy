/**
 * SetPropertyData for the fuller driver, as a function of the state before the
 * call: its status, the addresses it reports as changed (which the driver
 * forwards to the host's PropertiesChanged), and the state after the call.
 */
module PropertySet {
  import opened CoreAudio
  import opened VocanaConstants
  import opened PropertyTables
  import opened PropertyData

  /**
   * The bytes the caller's `inData` points at, read the two ways the box
   * handler reads them: as a CFStringRef (None is NULL) and as a UInt32.
   */
  datatype InData = InData(asStringRef: Option<string>, asUInt32: UInt32)

  datatype SetOutcome = SetOutcome(status: Status, changed: seq<Address>, state: DriverState)

  function Unchanged(s: DriverState, e: Error): SetOutcome {
    SetOutcome(Failed(e), [], s)
  }

  function Changed(sel: Selector, s: DriverState): SetOutcome {
    SetOutcome(NoError, [Address(sel, ScopeGlobal, ElementMain)], s)
  }

  /** The byte size SetPropertyData demands for each settable box property. */
  function BoxSetSize(sel: Selector): UInt32 {
    if sel == Name then SizeOfPointer else SizeOfUInt32
  }

  /**
   * The box handler: Name takes a CFStringRef, Identify and Acquired a UInt32;
   * the size must match exactly and the data pointer must be present.
   */
  function BoxSet(s: DriverState, sel: Selector, inDataSize: UInt32, inData: Option<InData>): (r: SetOutcome)
    ensures r.status == NoError <==>
              sel in BoxSettableProperties && inDataSize == BoxSetSize(sel) && inData.Some?
    ensures r.status == NoError ==> r.changed == [Address(sel, ScopeGlobal, ElementMain)]
    ensures r.status != NoError ==> r.changed == [] && r.state == s
    ensures r.status == Failed(UnknownProperty) <==> sel !in BoxSettableProperties
    ensures sel in BoxSettableProperties && inDataSize != BoxSetSize(sel) ==> r.status == Failed(BadPropertySize)
    ensures sel in BoxSettableProperties && inDataSize == BoxSetSize(sel) && inData.None? ==>
              r.status == Failed(IllegalOperation)
    ensures r.state.sampleRate == s.sampleRate && r.state.ioIsRunning == s.ioIsRunning &&
            r.state.inputActive == s.inputActive && r.state.outputActive == s.outputActive
    ensures r.state.boxName != s.boxName ==> sel == Name
    ensures r.state.boxAcquired != s.boxAcquired ==> sel == Acquired
  {
    if sel == Name then
      if inDataSize != SizeOfPointer then Unchanged(s, BadPropertySize)
      else if inData.None? then Unchanged(s, IllegalOperation)
      else Changed(Name, s.(boxName := inData.value.asStringRef))
    else if sel == Identify then
      if inDataSize != SizeOfUInt32 then Unchanged(s, BadPropertySize)
      else if inData.None? then Unchanged(s, IllegalOperation)
      else Changed(Identify, s)
    else if sel == Acquired then
      if inDataSize != SizeOfUInt32 then Unchanged(s, BadPropertySize)
      else if inData.None? then Unchanged(s, IllegalOperation)
      else Changed(Acquired, s.(boxAcquired := inData.value.asUInt32 != 0))
    else Unchanged(s, UnknownProperty)
  }

  /**
   * The entry point: the driver reference and the address are checked, then
   * the object id selects the handler. The plug-in, device and stream handlers
   * accept no selector at all.
   */
  function SetPropertyData(s: DriverState, driver: DriverRef, obj: ObjectID, address: Option<Address>,
                           inDataSize: UInt32, inData: Option<InData>): (r: SetOutcome)
    ensures r.status == NoError ==> IsPropertySettable(driver, obj, address, true) == Ok(true)
    ensures r.status != NoError ==> r.changed == [] && r.state == s
    ensures |r.changed| <= 1
    ensures r.status == NoError ==> r.changed == [Address(address.value.selector, ScopeGlobal, ElementMain)]
    ensures driver != TheDriver ==> r.status == Failed(BadObject)
    ensures driver == TheDriver && address.None? ==> r.status == Failed(IllegalOperation)
    ensures driver == TheDriver && address.Some? && !IsPublished(obj) ==> r.status == Failed(BadObject)
  {
    if driver != TheDriver then Unchanged(s, BadObject)
    else if address.None? then Unchanged(s, IllegalOperation)
    else
      match KindOf(obj)
      case None => Unchanged(s, BadObject)
      case Some(BoxKind) => BoxSet(s, address.value.selector, inDataSize, inData)
      case Some(_) => Unchanged(s, UnknownProperty)
  }

  /** Every property IsPropertySettable reports settable accepts a correctly sized write. */
  lemma SettableAcceptsWrite(s: DriverState, obj: ObjectID, address: Address, data: InData)
    requires IsPropertySettable(TheDriver, obj, Some(address), true) == Ok(true)
    ensures SetPropertyData(s, TheDriver, obj, Some(address), BoxSetSize(address.selector), Some(data)).status == NoError
  {
  }

  /** Writing the box name and reading it back yields the handle written. */
  lemma NameWriteThenRead(s: DriverState, name: Option<string>, v: UInt32, inDataSize: UInt32)
    requires inDataSize >= 8
    ensures var t := SetPropertyData(s, TheDriver, BoxID, Some(Address(Name, ScopeGlobal, ElementMain)), 8, Some(InData(name, v)));
            t.status == NoError &&
            t.changed == [Address(Name, ScopeGlobal, ElementMain)] &&
            GetPropertyData(t.state, TheDriver, BoxID, Some(Address(Name, ScopeGlobal, ElementMain)),
                            Qualifier(0, None), inDataSize, true, true) == Ok(Fetched(StringRef(name), 8))
  {
  }

  /** Writing Acquired and reading it back yields 1 exactly when a nonzero word was written. */
  lemma AcquiredWriteThenRead(s: DriverState, v: UInt32, name: Option<string>, inDataSize: UInt32)
    requires inDataSize >= 4
    ensures var t := SetPropertyData(s, TheDriver, BoxID, Some(Address(Acquired, ScopeGlobal, ElementMain)), 4, Some(InData(name, v)));
            t.status == NoError &&
            GetPropertyData(t.state, TheDriver, BoxID, Some(Address(Acquired, ScopeGlobal, ElementMain)),
                            Qualifier(0, None), inDataSize, true, true) == Ok(Fetched(Word(if v != 0 then 1 else 0), 4))
  {
  }

  /** Identify is accepted and announced, but changes nothing any read can observe. */
  lemma IdentifyChangesNothing(s: DriverState, d: InData)
    ensures var t := SetPropertyData(s, TheDriver, BoxID, Some(Address(Identify, ScopeGlobal, ElementMain)), 4, Some(d));
            t.status == NoError && t.state == s &&
            t.changed == [Address(Identify, ScopeGlobal, ElementMain)]
  {
  }

  /** A write never touches the sample rate, so a valid state stays valid. */
  lemma SetPreservesValidState(s: DriverState, driver: DriverRef, obj: ObjectID, address: Option<Address>,
                               inDataSize: UInt32, inData: Option<InData>)
    requires ValidState(s)
    ensures ValidState(SetPropertyData(s, driver, obj, address, inDataSize, inData).state)
  {
  }

  /** Writing the same value twice is the same as writing it once. */
  lemma SetIdempotent(s: DriverState, driver: DriverRef, obj: ObjectID, address: Option<Address>,
                      inDataSize: UInt32, inData: Option<InData>)
    ensures var once := SetPropertyData(s, driver, obj, address, inDataSize, inData).state;
            SetPropertyData(once, driver, obj, address, inDataSize, inData).state == once
  {
  }
}
