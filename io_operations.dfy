/**
 * The fuller driver's device-lifecycle and IO entry points. None of them touch
 * the driver's state; each validates its arguments and answers.
 */
module IOOperations {
  import opened CoreAudio
  import opened VocanaConstants

  /** The check every device-level entry point starts with. */
  predicate DeviceArgs(driver: DriverRef, device: ObjectID) {
    driver == TheDriver && device == DeviceID
  }

  /** The driver is not a transport manager: creating a device is never supported. */
  function CreateDevice(driver: DriverRef): (r: Status)
    ensures r != NoError
    ensures r == Failed(BadObject) <==> driver != TheDriver
    ensures driver == TheDriver ==> r == Failed(UnsupportedOperation)
  {
    if driver != TheDriver then Failed(BadObject) else Failed(UnsupportedOperation)
  }

  function DestroyDevice(driver: DriverRef, device: ObjectID): (r: Status)
    ensures r != NoError
    ensures r == Failed(BadObject) <==> driver != TheDriver
    ensures driver == TheDriver ==> r == Failed(UnsupportedOperation)
  {
    if driver != TheDriver then Failed(BadObject) else Failed(UnsupportedOperation)
  }

  /** The driver does not track clients: a client of its device is accepted and forgotten. */
  function AddDeviceClient(driver: DriverRef, device: ObjectID): (r: Status)
    ensures r == NoError <==> DeviceArgs(driver, device)
    ensures r != NoError ==> r == Failed(BadObject)
  {
    if driver != TheDriver then Failed(BadObject)
    else if device != DeviceID then Failed(BadObject)
    else NoError
  }

  function RemoveDeviceClient(driver: DriverRef, device: ObjectID): (r: Status)
    ensures r == NoError <==> DeviceArgs(driver, device)
    ensures r != NoError ==> r == Failed(BadObject)
  {
    if driver != TheDriver then Failed(BadObject)
    else if device != DeviceID then Failed(BadObject)
    else NoError
  }

  /** No configuration change is ever carried out. */
  function PerformDeviceConfigurationChange(driver: DriverRef, device: ObjectID, action: nat): (r: Status)
    ensures r != NoError
    ensures r == Failed(UnsupportedOperation) <==> DeviceArgs(driver, device)
    ensures !DeviceArgs(driver, device) ==> r == Failed(BadObject)
  {
    if driver != TheDriver then Failed(BadObject)
    else if device != DeviceID then Failed(BadObject)
    else Failed(UnsupportedOperation)
  }

  /** An aborted change needs no clean-up. */
  function AbortDeviceConfigurationChange(driver: DriverRef, device: ObjectID, action: nat): (r: Status)
    ensures r == NoError <==> DeviceArgs(driver, device)
    ensures r != NoError ==> r == Failed(BadObject)
  {
    if driver != TheDriver then Failed(BadObject)
    else if device != DeviceID then Failed(BadObject)
    else NoError
  }

  /** StartIO: accepted for the device; IO state is not tracked. */
  function StartIO(driver: DriverRef, device: ObjectID, client: UInt32): (r: Status)
    ensures r == NoError <==> DeviceArgs(driver, device)
    ensures r != NoError ==> r == Failed(BadObject)
  {
    if driver != TheDriver then Failed(BadObject)
    else if device != DeviceID then Failed(BadObject)
    else NoError
  }

  function StopIO(driver: DriverRef, device: ObjectID, client: UInt32): (r: Status)
    ensures r == NoError <==> DeviceArgs(driver, device)
    ensures r != NoError ==> r == Failed(BadObject)
  {
    if driver != TheDriver then Failed(BadObject)
    else if device != DeviceID then Failed(BadObject)
    else NoError
  }

  /**
   * GetZeroTimeStamp: sample time zero at the current host time `now`, seed 1.
   * The three out pointers are checked after the driver and device.
   */
  function GetZeroTimeStamp(driver: DriverRef, device: ObjectID, client: UInt32,
                            sampleTimePresent: bool, hostTimePresent: bool, seedPresent: bool,
                            now: nat): (r: Result<ZeroTimeStamp>)
    ensures r.Ok? <==> DeviceArgs(driver, device) && sampleTimePresent && hostTimePresent && seedPresent
    ensures r.Ok? ==> r.value.sampleTime == 0 && r.value.hostTime == now && r.value.seed == 1
    ensures r.Fail? && DeviceArgs(driver, device) ==> r.error == IllegalOperation
    ensures r.Fail? && !DeviceArgs(driver, device) ==> r.error == BadObject
  {
    if driver != TheDriver then Fail(BadObject)
    else if device != DeviceID then Fail(BadObject)
    else if !sampleTimePresent || !hostTimePresent || !seedPresent then Fail(IllegalOperation)
    else Ok(ZeroTimeStamp(0, now, 1))
  }

  /** WillDoIOOperation: every operation is performed, in place. */
  function WillDoIOOperation(driver: DriverRef, device: ObjectID, client: UInt32, operation: UInt32,
                             willDoPresent: bool, inPlacePresent: bool): (r: Result<WillDo>)
    ensures r.Ok? <==> DeviceArgs(driver, device) && willDoPresent && inPlacePresent
    ensures r.Ok? ==> r.value.willDo && r.value.inPlace
    ensures r.Fail? && DeviceArgs(driver, device) ==> r.error == IllegalOperation
    ensures r.Fail? && !DeviceArgs(driver, device) ==> r.error == BadObject
  {
    if driver != TheDriver then Fail(BadObject)
    else if device != DeviceID then Fail(BadObject)
    else if !willDoPresent || !inPlacePresent then Fail(IllegalOperation)
    else Ok(WillDo(true, true))
  }

  function BeginIOOperation(driver: DriverRef, device: ObjectID, client: UInt32, operation: UInt32,
                            frames: UInt32): (r: Status)
    ensures r == NoError <==> DeviceArgs(driver, device)
    ensures r != NoError ==> r == Failed(BadObject)
  {
    if driver != TheDriver then Failed(BadObject)
    else if device != DeviceID then Failed(BadObject)
    else NoError
  }

  /** DoIOOperation also insists on one of the two streams; the buffers are left as they are. */
  function DoIOOperation(driver: DriverRef, device: ObjectID, stream: ObjectID, client: UInt32,
                         operation: UInt32, frames: UInt32): (r: Status)
    ensures r == NoError <==> DeviceArgs(driver, device) && stream in {InputStreamID, OutputStreamID}
    ensures r != NoError ==> r == Failed(BadObject)
  {
    if driver != TheDriver then Failed(BadObject)
    else if device != DeviceID then Failed(BadObject)
    else if stream != InputStreamID && stream != OutputStreamID then Failed(BadObject)
    else NoError
  }

  function EndIOOperation(driver: DriverRef, device: ObjectID, client: UInt32, operation: UInt32,
                          frames: UInt32): (r: Status)
    ensures r == NoError <==> DeviceArgs(driver, device)
    ensures r != NoError ==> r == Failed(BadObject)
  {
    if driver != TheDriver then Failed(BadObject)
    else if device != DeviceID then Failed(BadObject)
    else NoError
  }

  /**
   * One IO cycle as the host runs it: StartIO, then for each operation
   * WillDo, Begin, Do on a stream and End, then StopIO. Every step of the cycle
   * is accepted exactly when the first one is.
   */
  lemma IOCycleAgrees(driver: DriverRef, device: ObjectID, stream: ObjectID, client: UInt32,
                      operation: UInt32, frames: UInt32)
    requires stream == InputStreamID || stream == OutputStreamID
    ensures StartIO(driver, device, client) == NoError <==>
              WillDoIOOperation(driver, device, client, operation, true, true).Ok?
    ensures StartIO(driver, device, client) == BeginIOOperation(driver, device, client, operation, frames)
            == DoIOOperation(driver, device, stream, client, operation, frames)
            == EndIOOperation(driver, device, client, operation, frames)
            == StopIO(driver, device, client)
  {
  }
}
