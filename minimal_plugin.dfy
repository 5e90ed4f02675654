/**
 * The minimal revision of the plug-in: a heap-allocated plug-in record holding
 * the host reference and the sample rate, a single device (id 2) answering
 * seven properties, and stubs for everything else.
 */
module MinimalPlugin {
  import opened CoreAudio
  import PropertyData

  const MinimalPlugInID: ObjectID := 1
  const MinimalDeviceID: ObjectID := 2
  const MinimalDeviceUID: string := "com.vocana.VirtualDevice"

  /** The calloc'd plug-in record. */
  class PlugInRecord {
    var host: Option<HostRef>
    var sampleRate: nat

    constructor ()
      ensures host == None && sampleRate == 48000
    {
      host := None;
      sampleRate := 48000;
    }
  }

  /** The factory: a fresh record for the plug-in type, NULL for anything else or when allocation fails. */
  method Factory(requested: Uuid, allocates: bool) returns (p: PlugInRecord?)
    ensures p != null <==> requested == PlugInTypeUUID && allocates
    ensures p != null ==> fresh(p) && p.host == None && p.sampleRate == 48000
  {
    if requested != PlugInTypeUUID {
      return null;
    }
    if !allocates {
      return null;
    }
    p := new PlugInRecord();
  }

  datatype HResult = SOk | NoInterfaceFound | PointerError

  /** QueryInterface hands back the driver itself for the two supported interfaces; no count is kept. */
  function QueryInterface(driverPresent: bool, outPresent: bool, requested: Uuid): (r: HResult)
    ensures r == PointerError <==> !driverPresent || !outPresent
    ensures r == SOk <==> driverPresent && outPresent && requested in {DriverInterfaceUUID, IUnknownUUID}
  {
    if !driverPresent || !outPresent then PointerError
    else if requested == DriverInterfaceUUID || requested == IUnknownUUID then SOk
    else NoInterfaceFound
  }

  /** Initialize refuses a missing record or a NULL host, and otherwise stores the host. */
  method Initialize(plugin: PlugInRecord?, inHost: Option<HostRef>) returns (status: Status)
    modifies plugin
    ensures status == NoError <==> plugin != null && inHost.Some?
    ensures status != NoError ==> status == Failed(BadObject)
    ensures plugin != null && status == NoError ==>
              plugin.host == inHost && plugin.sampleRate == old(plugin.sampleRate)
    ensures plugin != null && status != NoError ==> unchanged(plugin)
  {
    if plugin == null || inHost.None? {
      return Failed(BadObject);
    }
    plugin.host := inHost;
    status := NoError;
  }

  /** CreateDevice hands out the one device id to anyone who asks. */
  function CreateDevice(driverPresent: bool, outPresent: bool): (r: Result<ObjectID>)
    ensures r.Ok? <==> driverPresent && outPresent
    ensures r.Ok? ==> r.value == MinimalDeviceID
    ensures r.Fail? ==> r.error == BadObject
  {
    if !driverPresent || !outPresent then Fail(BadObject) else Ok(MinimalDeviceID)
  }

  const MinimalDeviceProperties: set<Selector> := {
    DeviceUID, DeviceIsAlive, DeviceIsRunning, Latency, SafetyOffset, NominalSampleRate, OwnedObjects }

  function HasProperty(driverPresent: bool, obj: ObjectID, address: Option<Address>): (r: bool)
    ensures r <==> driverPresent && address.Some? && obj == MinimalDeviceID &&
                   address.value.selector in MinimalDeviceProperties
  {
    if !driverPresent || address.None? then false
    else if obj == MinimalDeviceID then
      var sel := address.value.selector;
      sel == DeviceUID || sel == DeviceIsAlive || sel == DeviceIsRunning || sel == Latency ||
      sel == SafetyOffset || sel == NominalSampleRate || sel == OwnedObjects
    else false
  }

  /** Nothing is settable; a property the device lacks is UnknownProperty. */
  function IsPropertySettable(driverPresent: bool, obj: ObjectID, address: Option<Address>,
                              outPresent: bool): (r: Result<bool>)
    ensures r.Ok? <==> outPresent && HasProperty(driverPresent, obj, address)
    ensures r.Ok? ==> !r.value
    ensures !driverPresent || !outPresent ==> r == Fail(BadObject)
    ensures driverPresent && outPresent && !HasProperty(driverPresent, obj, address) ==> r == Fail(UnknownProperty)
  {
    if !driverPresent || !outPresent then Fail(BadObject)
    else if !HasProperty(driverPresent, obj, address) then Fail(UnknownProperty)
    else Ok(false)
  }

  /** The byte size of each device property of this revision. */
  function DeviceSize(sel: Selector): UInt32 {
    if sel == DeviceUID then SizeOfPointer
    else if sel == NominalSampleRate then SizeOfFloat64
    else if sel == OwnedObjects then 0
    else SizeOfUInt32
  }

  function GetPropertyDataSize(driverPresent: bool, obj: ObjectID, address: Option<Address>,
                               outPresent: bool): (r: Result<UInt32>)
    ensures r.Ok? <==> outPresent && HasProperty(driverPresent, obj, address)
    ensures !driverPresent || !outPresent ==> r == Fail(BadObject)
    ensures driverPresent && outPresent && !HasProperty(driverPresent, obj, address) ==> r == Fail(UnknownProperty)
    ensures r.Ok? && address.value.selector == DeviceUID ==> r.value == 8
    ensures r.Ok? && address.value.selector in {DeviceIsAlive, DeviceIsRunning, Latency, SafetyOffset} ==> r.value == 4
    ensures r.Ok? && address.value.selector == NominalSampleRate ==> r.value == 8
    ensures r.Ok? && address.value.selector == OwnedObjects ==> r.value == 0
  {
    if !driverPresent || !outPresent then Fail(BadObject)
    else if !HasProperty(driverPresent, obj, address) then Fail(UnknownProperty)
    else Ok(DeviceSize(address.value.selector))
  }

  /** The value each device property of this revision writes, given the record's sample rate. */
  function DeviceValue(sampleRate: nat, sel: Selector): Value {
    if sel == DeviceUID then StringRef(Some(MinimalDeviceUID))
    else if sel == DeviceIsAlive || sel == DeviceIsRunning then Word(1)
    else if sel == Latency || sel == SafetyOffset then Word(0)
    else if sel == NominalSampleRate then Rate(sampleRate)
    else NoData
  }

  /** The size each property reports is the width of the value a read writes, whatever the rate. */
  lemma SizeIsValueWidth(sampleRate: nat, sel: Selector)
    requires sel in MinimalDeviceProperties
    ensures DeviceSize(sel) as nat == PropertyData.ValueSize(DeviceValue(sampleRate, sel))
  {
  }

  /** GetPropertyData as written: the caller's buffer size is never consulted. */
  function GetPropertyDataAsWritten(plugin: PlugInRecord?, obj: ObjectID, address: Option<Address>, inDataSize: UInt32,
                                    outSizePresent: bool, outDataPresent: bool): (r: Result<Fetched>)
    reads plugin
    ensures r.Ok? <==> plugin != null && outSizePresent && outDataPresent && HasProperty(true, obj, address)
    ensures r.Ok? ==> Ok(r.value.size) == GetPropertyDataSize(true, obj, address, true)
  {
    if plugin == null || !outSizePresent || !outDataPresent then Fail(BadObject)
    else if !HasProperty(true, obj, address) then Fail(UnknownProperty)
    else
      var sel := address.value.selector;
      Ok(Fetched(DeviceValue(plugin.sampleRate, sel), DeviceSize(sel)))
  }

  /** GetPropertyData with the buffer-size check the fuller revision makes for every fixed-size datum. */
  function GetPropertyData(plugin: PlugInRecord?, obj: ObjectID, address: Option<Address>, inDataSize: UInt32,
                           outSizePresent: bool, outDataPresent: bool): (r: Result<Fetched>)
    reads plugin
    ensures r.Ok? <==> plugin != null && outSizePresent && outDataPresent && HasProperty(true, obj, address) &&
                       inDataSize >= GetPropertyDataSize(true, obj, address, true).value
    ensures r.Ok? ==> r.value.size <= inDataSize &&
                      Ok(r.value.size) == GetPropertyDataSize(true, obj, address, true) &&
                      r.value.size as nat == PropertyData.ValueSize(r.value.value)
    ensures r == Fail(UnknownProperty) <==>
              plugin != null && outSizePresent && outDataPresent && !HasProperty(true, obj, address)
    ensures r.Ok? && address.value.selector == DeviceUID ==> r.value.value == StringRef(Some(MinimalDeviceUID))
    ensures r.Ok? && address.value.selector in {DeviceIsAlive, DeviceIsRunning} ==> r.value.value == Word(1)
    ensures r.Ok? && address.value.selector in {Latency, SafetyOffset} ==> r.value.value == Word(0)
    ensures r.Ok? && address.value.selector == NominalSampleRate ==> r.value.value == Rate(plugin.sampleRate)
  {
    if plugin == null || !outSizePresent || !outDataPresent then Fail(BadObject)
    else if !HasProperty(true, obj, address) then Fail(UnknownProperty)
    else
      var sel := address.value.selector;
      if inDataSize < DeviceSize(sel) then Fail(BadPropertySize)
      else Ok(Fetched(DeviceValue(plugin.sampleRate, sel), DeviceSize(sel)))
  }

  /** With an empty buffer, reading the device UID as written reports eight bytes written. */
  lemma AsWrittenOverrunsBuffer(p: PlugInRecord)
    ensures var r := GetPropertyDataAsWritten(p, MinimalDeviceID, Some(Address(DeviceUID, ScopeGlobal, ElementMain)), 0, true, true);
            r.Ok? && r.value.size > 0
    ensures GetPropertyData(p, MinimalDeviceID, Some(Address(DeviceUID, ScopeGlobal, ElementMain)), 0, true, true)
            == Fail(BadPropertySize)
  {
  }

  /** The check changes nothing for a caller that sizes its buffer by GetPropertyDataSize. */
  lemma CheckedAgreesWhenSized(p: PlugInRecord, obj: ObjectID, address: Address, inDataSize: UInt32)
    requires HasProperty(true, obj, Some(address))
    requires inDataSize >= GetPropertyDataSize(true, obj, Some(address), true).value
    ensures GetPropertyData(p, obj, Some(address), inDataSize, true, true)
            == GetPropertyDataAsWritten(p, obj, Some(address), inDataSize, true, true)
  {
  }

  /** GetZeroTimeStamp checks only the out pointers: sample time zero, host time `now`, seed 1. */
  function GetZeroTimeStamp(sampleTimePresent: bool, hostTimePresent: bool, seedPresent: bool,
                            now: nat): (r: Result<ZeroTimeStamp>)
    ensures r.Ok? <==> sampleTimePresent && hostTimePresent && seedPresent
    ensures r.Ok? ==> r.value == ZeroTimeStamp(0, now, 1)
    ensures r.Fail? ==> r.error == BadObject
  {
    if !sampleTimePresent || !hostTimePresent || !seedPresent then Fail(BadObject)
    else Ok(ZeroTimeStamp(0, now, 1))
  }

  function WillDoIOOperation(willDoPresent: bool, inPlacePresent: bool): (r: Result<WillDo>)
    ensures r.Ok? <==> willDoPresent && inPlacePresent
    ensures r.Ok? ==> r.value.willDo && r.value.inPlace
    ensures r.Fail? ==> r.error == BadObject
  {
    if !willDoPresent || !inPlacePresent then Fail(BadObject) else Ok(WillDo(true, true))
  }

  // The remaining entry points of this revision ignore their arguments.
  function AddRef(): UInt32 { 1 }
  function Release(): UInt32 { 1 }
  function DestroyDevice(device: ObjectID): Status { NoError }
  function AddDeviceClient(device: ObjectID): Status { NoError }
  function RemoveDeviceClient(device: ObjectID): Status { NoError }
  function PerformDeviceConfigurationChange(device: ObjectID, action: nat): Status { NoError }
  function AbortDeviceConfigurationChange(device: ObjectID, action: nat): Status { NoError }
  function SetPropertyData(obj: ObjectID, address: Option<Address>, inDataSize: UInt32): Status { NoError }
  function StartIO(device: ObjectID, client: UInt32): Status { NoError }
  function StopIO(device: ObjectID, client: UInt32): Status { NoError }
  function BeginIOOperation(device: ObjectID, operation: UInt32): Status { NoError }
  function DoIOOperation(device: ObjectID, stream: ObjectID, operation: UInt32): Status { NoError }
  function EndIOOperation(device: ObjectID, operation: UInt32): Status { NoError }

  /**
   * Reference counting is a constant, every write is accepted without effect,
   * and the lifecycle and IO entry points succeed for any object id, including
   * ids the plug-in never published.
   */
  lemma StubsAcceptEverything(obj: ObjectID, address: Option<Address>, n: UInt32, op: UInt32, action: nat)
    ensures AddRef() == Release() == 1
    ensures SetPropertyData(obj, address, n) == NoError
    ensures DestroyDevice(obj) == AddDeviceClient(obj) == RemoveDeviceClient(obj) == NoError
    ensures PerformDeviceConfigurationChange(obj, action) == AbortDeviceConfigurationChange(obj, action) == NoError
    ensures StartIO(obj, n) == StopIO(obj, n) == BeginIOOperation(obj, op) ==
            DoIOOperation(obj, obj, op) == EndIOOperation(obj, op) == NoError
  {
  }
}
