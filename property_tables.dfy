/**
 * The static half of the fuller driver's property protocol: which object
 * answers which selectors, which of them may be written, and how many bytes
 * GetPropertyDataSize reports for each.  The four per-kind tables mirror the
 * plug-in, box, device and stream handlers; the three entry points below
 * dispatch on the object id the way the driver's top-level functions do.
 */
module PropertyTables {
  import opened CoreAudio
  import opened VocanaConstants

  /** The four handler families the driver dispatches to. */
  datatype ObjectKind = PlugInKind | BoxKind | DeviceKind | StreamKind

  /** The object-id switch shared by every property entry point. */
  function KindOf(obj: ObjectID): Option<ObjectKind> {
    if obj == PlugInID then Some(PlugInKind)
    else if obj == BoxID then Some(BoxKind)
    else if obj == DeviceID then Some(DeviceKind)
    else if obj == InputStreamID || obj == OutputStreamID then Some(StreamKind)
    else None
  }

  predicate IsPublished(obj: ObjectID) {
    KindOf(obj).Some?
  }

  const PlugInProperties: set<Selector> := {
    BaseClass, Class, Owner, Manufacturer, OwnedObjects,
    BoxList, TranslateUIDToBox, DeviceList, TranslateUIDToDevice, ResourceBundle }

  const BoxProperties: set<Selector> := {
    BaseClass, Class, Owner, Name, ModelName, Manufacturer, OwnedObjects, Identify,
    SerialNumber, FirmwareVersion, BoxUID, TransportType, HasAudio, HasVideo, HasMIDI,
    IsProtected, Acquired, AcquisitionFailed, BoxDeviceList }

  /** The box properties a client may write. */
  const BoxSettableProperties: set<Selector> := { Name, Identify, Acquired }

  const DeviceProperties: set<Selector> := {
    BaseClass, Class, Owner, Name, ModelName, Manufacturer, OwnedObjects, Identify,
    SerialNumber, FirmwareVersion, DeviceUID, ModelUID, TransportType, RelatedDevices,
    ClockDomain, DeviceIsAlive, DeviceIsRunning, CanBeDefaultDevice, CanBeDefaultSystemDevice,
    Latency, Streams, ControlList, NominalSampleRate, AvailableSampleRates, IsHidden,
    ZeroTimeStampPeriod, Icon, ConfigurationApplication }

  const StreamProperties: set<Selector> := {
    BaseClass, Class, Owner, OwnedObjects, IsActive, Direction, TerminalType,
    StartingChannel, Latency, VirtualFormat, PhysicalFormat,
    AvailableVirtualFormats, AvailablePhysicalFormats }

  /** The selectors each handler family lists in its HasProperty switch. */
  function PropertiesOf(k: ObjectKind): set<Selector> {
    match k
    case PlugInKind => PlugInProperties
    case BoxKind => BoxProperties
    case DeviceKind => DeviceProperties
    case StreamKind => StreamProperties
  }

  // ---------------------------------------------------------------------
  // IsPropertySettable handlers

  function PlugInSettable(sel: Selector): (r: Result<bool>)
    ensures r.Ok? <==> sel in PlugInProperties
    ensures r.Ok? ==> !r.value
    ensures r.Fail? ==> r.error == UnknownProperty
  {
    if sel in {BaseClass, Class, Owner, Manufacturer, OwnedObjects, BoxList,
               TranslateUIDToBox, DeviceList, TranslateUIDToDevice, ResourceBundle}
    then Ok(false)
    else Fail(UnknownProperty)
  }

  function BoxSettable(sel: Selector): (r: Result<bool>)
    ensures r.Ok? <==> sel in BoxProperties
    ensures r.Ok? ==> (r.value <==> sel in BoxSettableProperties)
    ensures r.Fail? ==> r.error == UnknownProperty
  {
    if sel in {BaseClass, Class, Owner, ModelName, Manufacturer, OwnedObjects, SerialNumber,
               FirmwareVersion, BoxUID, TransportType, HasAudio, HasVideo, HasMIDI,
               IsProtected, AcquisitionFailed, BoxDeviceList}
    then Ok(false)
    else if sel in {Name, Identify, Acquired} then Ok(true)
    else Fail(UnknownProperty)
  }

  function DeviceSettable(sel: Selector): (r: Result<bool>)
    ensures r.Ok? <==> sel in DeviceProperties
    ensures r.Ok? ==> !r.value
    ensures r.Fail? ==> r.error == UnknownProperty
  {
    if sel in {BaseClass, Class, Owner, Name, ModelName, Manufacturer, OwnedObjects, Identify,
               SerialNumber, FirmwareVersion, DeviceUID, ModelUID, TransportType, RelatedDevices,
               ClockDomain, DeviceIsAlive, DeviceIsRunning, CanBeDefaultDevice,
               CanBeDefaultSystemDevice, Latency, Streams, ControlList, NominalSampleRate,
               AvailableSampleRates, IsHidden, ZeroTimeStampPeriod, Icon, ConfigurationApplication}
    then Ok(false)
    else Fail(UnknownProperty)
  }

  function StreamSettable(sel: Selector): (r: Result<bool>)
    ensures r.Ok? <==> sel in StreamProperties
    ensures r.Ok? ==> !r.value
    ensures r.Fail? ==> r.error == UnknownProperty
  {
    if sel in {BaseClass, Class, Owner, OwnedObjects, IsActive, Direction, TerminalType,
               StartingChannel, Latency, VirtualFormat, PhysicalFormat,
               AvailableVirtualFormats, AvailablePhysicalFormats}
    then Ok(false)
    else Fail(UnknownProperty)
  }

  // ---------------------------------------------------------------------
  // GetPropertyDataSize handlers

  function PlugInPropertySize(sel: Selector): (r: Result<UInt32>)
    ensures r.Ok? <==> sel in PlugInProperties
    ensures r.Fail? ==> r.error == UnknownProperty
  {
    if sel == BaseClass then Ok(SizeOfClassID)
    else if sel == Class then Ok(SizeOfClassID)
    else if sel == Owner then Ok(SizeOfObjectID)
    else if sel == Manufacturer then Ok(SizeOfPointer)
    else if sel == OwnedObjects then Ok(2 * SizeOfClassID)
    else if sel == BoxList then Ok(SizeOfClassID)
    else if sel == TranslateUIDToBox then Ok(SizeOfObjectID)
    else if sel == DeviceList then Ok(SizeOfClassID)
    else if sel == TranslateUIDToDevice then Ok(SizeOfObjectID)
    else if sel == ResourceBundle then Ok(SizeOfPointer)
    else Fail(UnknownProperty)
  }

  function BoxPropertySize(sel: Selector): (r: Result<UInt32>)
    ensures r.Ok? <==> sel in BoxProperties
    ensures r.Fail? ==> r.error == UnknownProperty
  {
    if sel == BaseClass then Ok(SizeOfClassID)
    else if sel == Class then Ok(SizeOfClassID)
    else if sel == Owner then Ok(SizeOfObjectID)
    else if sel == Name then Ok(SizeOfPointer)
    else if sel == ModelName then Ok(SizeOfPointer)
    else if sel == Manufacturer then Ok(SizeOfPointer)
    else if sel == OwnedObjects then Ok(0)
    else if sel == Identify then Ok(SizeOfUInt32)
    else if sel == SerialNumber then Ok(SizeOfPointer)
    else if sel == FirmwareVersion then Ok(SizeOfPointer)
    else if sel == BoxUID then Ok(SizeOfPointer)
    else if sel == TransportType then Ok(SizeOfUInt32)
    else if sel == HasAudio then Ok(SizeOfUInt32)
    else if sel == HasVideo then Ok(SizeOfUInt32)
    else if sel == HasMIDI then Ok(SizeOfUInt32)
    else if sel == IsProtected then Ok(SizeOfUInt32)
    else if sel == Acquired then Ok(SizeOfUInt32)
    else if sel == AcquisitionFailed then Ok(SizeOfUInt32)
    else if sel == BoxDeviceList then Ok(SizeOfObjectID)
    else Fail(UnknownProperty)
  }

  function DevicePropertySize(sel: Selector): (r: Result<UInt32>)
    ensures r.Ok? <==> sel in DeviceProperties
    ensures r.Fail? ==> r.error == UnknownProperty
  {
    if sel == BaseClass then Ok(SizeOfClassID)
    else if sel == Class then Ok(SizeOfClassID)
    else if sel == Owner then Ok(SizeOfObjectID)
    else if sel == Name then Ok(SizeOfPointer)
    else if sel == ModelName then Ok(SizeOfPointer)
    else if sel == Manufacturer then Ok(SizeOfPointer)
    else if sel == OwnedObjects then Ok(2 * SizeOfObjectID)
    else if sel == Identify then Ok(SizeOfUInt32)
    else if sel == SerialNumber then Ok(SizeOfPointer)
    else if sel == FirmwareVersion then Ok(SizeOfPointer)
    else if sel == DeviceUID then Ok(SizeOfPointer)
    else if sel == ModelUID then Ok(SizeOfPointer)
    else if sel == TransportType then Ok(SizeOfUInt32)
    else if sel == RelatedDevices then Ok(0)
    else if sel == ClockDomain then Ok(SizeOfUInt32)
    else if sel == DeviceIsAlive then Ok(SizeOfClassID)
    else if sel == DeviceIsRunning then Ok(SizeOfClassID)
    else if sel == CanBeDefaultDevice then Ok(SizeOfClassID)
    else if sel == CanBeDefaultSystemDevice then Ok(SizeOfClassID)
    else if sel == Latency then Ok(SizeOfClassID)
    else if sel == Streams then Ok(2 * SizeOfObjectID)
    else if sel == ControlList then Ok(0)
    else if sel == NominalSampleRate then Ok(SizeOfFloat64)
    else if sel == AvailableSampleRates then Ok(|SampleRates| * SizeOfValueRange)
    else if sel == IsHidden then Ok(SizeOfClassID)
    else if sel == ZeroTimeStampPeriod then Ok(SizeOfFloat64)
    else if sel == Icon then Ok(SizeOfPointer)
    else if sel == ConfigurationApplication then Ok(SizeOfPointer)
    else Fail(UnknownProperty)
  }

  function StreamPropertySize(sel: Selector): (r: Result<UInt32>)
    ensures r.Ok? <==> sel in StreamProperties
    ensures r.Fail? ==> r.error == UnknownProperty
  {
    if sel == BaseClass then Ok(SizeOfClassID)
    else if sel == Class then Ok(SizeOfClassID)
    else if sel == Owner then Ok(SizeOfObjectID)
    else if sel == OwnedObjects then Ok(0)
    else if sel == IsActive then Ok(SizeOfClassID)
    else if sel == Direction then Ok(SizeOfClassID)
    else if sel == TerminalType then Ok(SizeOfClassID)
    else if sel == StartingChannel then Ok(SizeOfClassID)
    else if sel == Latency then Ok(SizeOfClassID)
    else if sel == VirtualFormat then Ok(SizeOfStreamBasicDescription)
    else if sel == PhysicalFormat then Ok(SizeOfStreamBasicDescription)
    else if sel == AvailableVirtualFormats then Ok(|SampleRates| * SizeOfStreamRangedDescription)
    else if sel == AvailablePhysicalFormats then Ok(|SampleRates| * SizeOfStreamRangedDescription)
    else Fail(UnknownProperty)
  }

  // ---------------------------------------------------------------------
  // The driver's entry points

  /**
   * HasProperty: false for a foreign driver reference, a missing address or an
   * object the driver does not publish; otherwise whether that object's handler
   * lists the selector.  Scope and element are never consulted.
   */
  function HasProperty(driver: DriverRef, obj: ObjectID, address: Option<Address>): (r: bool)
    ensures r ==> driver == TheDriver && address.Some? && IsPublished(obj)
    ensures driver == TheDriver && address.Some? && IsPublished(obj) ==>
              (r <==> address.value.selector in PropertiesOf(KindOf(obj).value))
  {
    if driver != TheDriver || address.None? then false
    else match KindOf(obj)
      case None => false
      case Some(k) => address.value.selector in PropertiesOf(k)
  }

  function IsPropertySettable(driver: DriverRef, obj: ObjectID, address: Option<Address>,
                              outPresent: bool): (r: Result<bool>)
    ensures r.Ok? <==> outPresent && HasProperty(driver, obj, address)
    ensures (r.Ok? && r.value) <==>
              driver == TheDriver && address.Some? && outPresent && obj == BoxID &&
              address.value.selector in BoxSettableProperties
  {
    if driver != TheDriver then Fail(BadObject)
    else if address.None? || !outPresent then Fail(IllegalOperation)
    else
      var sel := address.value.selector;
      match KindOf(obj)
      case None => Fail(BadObject)
      case Some(PlugInKind) => PlugInSettable(sel)
      case Some(BoxKind) => BoxSettable(sel)
      case Some(DeviceKind) => DeviceSettable(sel)
      case Some(StreamKind) => StreamSettable(sel)
  }

  /** The qualifier is accepted and ignored by every size handler. */
  function GetPropertyDataSize(driver: DriverRef, obj: ObjectID, address: Option<Address>,
                               outPresent: bool): (r: Result<UInt32>)
    ensures r.Ok? <==> outPresent && HasProperty(driver, obj, address)
  {
    if driver != TheDriver then Fail(BadObject)
    else if address.None? || !outPresent then Fail(IllegalOperation)
    else
      var sel := address.value.selector;
      match KindOf(obj)
      case None => Fail(BadObject)
      case Some(PlugInKind) => PlugInPropertySize(sel)
      case Some(BoxKind) => BoxPropertySize(sel)
      case Some(DeviceKind) => DevicePropertySize(sel)
      case Some(StreamKind) => StreamPropertySize(sel)
  }

  /**
   * The argument checks come in a fixed order: the driver reference, then the
   * pointers, then the object id, then the selector.
   */
  lemma QueryErrorPrecedence(driver: DriverRef, obj: ObjectID, address: Option<Address>, outPresent: bool)
    ensures driver != TheDriver ==>
              IsPropertySettable(driver, obj, address, outPresent) == Fail(BadObject) &&
              GetPropertyDataSize(driver, obj, address, outPresent) == Fail(BadObject)
    ensures driver == TheDriver && (address.None? || !outPresent) ==>
              IsPropertySettable(driver, obj, address, outPresent) == Fail(IllegalOperation) &&
              GetPropertyDataSize(driver, obj, address, outPresent) == Fail(IllegalOperation)
    ensures driver == TheDriver && address.Some? && outPresent && !IsPublished(obj) ==>
              IsPropertySettable(driver, obj, address, outPresent) == Fail(BadObject) &&
              GetPropertyDataSize(driver, obj, address, outPresent) == Fail(BadObject)
    ensures driver == TheDriver && address.Some? && outPresent && IsPublished(obj) &&
            !HasProperty(driver, obj, address) ==>
              IsPropertySettable(driver, obj, address, outPresent) == Fail(UnknownProperty) &&
              GetPropertyDataSize(driver, obj, address, outPresent) == Fail(UnknownProperty)
  {
    if driver == TheDriver && address.Some? && outPresent && IsPublished(obj) {
      var sel := address.value.selector;
      match KindOf(obj).value
      case PlugInKind =>
      case BoxKind =>
      case DeviceKind =>
      case StreamKind =>
    }
  }

  /** The answers depend on the selector only, never on the scope or the element. */
  lemma ScopeAndElementIgnored(driver: DriverRef, obj: ObjectID, a: Address, b: Address, outPresent: bool)
    requires a.selector == b.selector
    ensures HasProperty(driver, obj, Some(a)) == HasProperty(driver, obj, Some(b))
    ensures IsPropertySettable(driver, obj, Some(a), outPresent) ==
            IsPropertySettable(driver, obj, Some(b), outPresent)
    ensures GetPropertyDataSize(driver, obj, Some(a), outPresent) ==
            GetPropertyDataSize(driver, obj, Some(b), outPresent)
  {
  }

  /** Every object reports its base class, class and owner; the streams share one table. */
  lemma CommonPropertiesEverywhere(k: ObjectKind)
    ensures {BaseClass, Class, Owner, OwnedObjects} <= PropertiesOf(k)
    ensures BoxSettableProperties <= BoxProperties
    ensures SafetyOffset !in DeviceProperties
  {
  }
}
