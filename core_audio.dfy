/**
 * The part of the Core Audio HAL plug-in interface (AudioServerPlugIn.h and the
 * AudioHardware headers) that the Vocana driver relies on: integer widths, the
 * property address, status codes, the four-character selector and class codes,
 * the byte sizes of the C types that travel through property data, and a value
 * representation of what a GetPropertyData call writes into the caller's buffer.
 */
module CoreAudio {

  /** The C `UInt32`. */
  type UInt32 = x: int | 0 <= x < 0x1_0000_0000
  const UINT32_MAX: UInt32 := 0xFFFF_FFFF

  /** `AudioObjectID`, `AudioObjectPropertySelector`, `AudioClassID`. */
  type ObjectID = UInt32
  type Selector = UInt32
  type ClassID = UInt32

  /** An opaque `AudioServerPlugInHostRef`. */
  type HostRef = nat

  datatype Option<+T> = None | Some(value: T)

  /** `AudioObjectPropertyAddress`. */
  datatype Address = Address(selector: Selector, scope: UInt32, element: UInt32)

  /** The failing `OSStatus` values the driver returns. */
  datatype Error =
    | BadObject             // kAudioHardwareBadObjectError
    | IllegalOperation      // kAudioHardwareIllegalOperationError
    | UnknownProperty       // kAudioHardwareUnknownPropertyError
    | BadPropertySize       // kAudioHardwareBadPropertySizeError
    | UnsupportedOperation  // kAudioHardwareUnsupportedOperationError

  /** An `OSStatus`-returning entry point's answer. */
  datatype Status = NoError | Failed(error: Error)

  /** An `OSStatus` together with what the call hands back on success. */
  datatype Result<+T> = Ok(value: T) | Fail(error: Error)

  /** The driver reference passed to every entry point: the plug-in's own one or anything else. */
  datatype DriverRef = TheDriver | OtherDriver

  /** The UUIDs the CFPlugIn machinery hands to the factory and to QueryInterface. */
  datatype Uuid = PlugInTypeUUID | DriverInterfaceUUID | IUnknownUUID | OtherUUID

  // Object and scope constants
  const ObjectUnknown: ObjectID := 0          // kAudioObjectUnknown
  const PlugInObject: ObjectID := 1           // kAudioObjectPlugInObject
  const ScopeGlobal: UInt32 := 0x676c6f62     // 'glob'
  const ElementMain: UInt32 := 0              // kAudioObjectPropertyElementMain

  // Class ids
  const ObjectClassID: ClassID := 0x616f626a  // 'aobj'
  const PlugInClassID: ClassID := 0x61706c67  // 'aplg'
  const BoxClassID: ClassID := 0x61626f78     // 'abox'
  const DeviceClassID: ClassID := 0x61646576  // 'adev'
  const StreamClassID: ClassID := 0x61737472  // 'astr'

  const TransportTypeVirtual: UInt32 := 0x76697274  // 'virt'
  const TerminalTypeLine: UInt32 := 0x6c696e65      // 'line'
  const FormatLinearPCM: UInt32 := 0x6c70636d       // 'lpcm'
  const FormatFlagIsFloat: UInt32 := 1
  const FormatFlagIsPacked: UInt32 := 8

  // Selectors shared by every object
  const BaseClass: Selector := 0x62636c73         // 'bcls'
  const Class: Selector := 0x636c6173             // 'clas'
  const Owner: Selector := 0x73746476             // 'stdv'
  const Name: Selector := 0x6c6e616d              // 'lnam'
  const ModelName: Selector := 0x6c6d6f64         // 'lmod'
  const Manufacturer: Selector := 0x6c6d616b      // 'lmak'
  const OwnedObjects: Selector := 0x6f776e64      // 'ownd'
  const Identify: Selector := 0x6964656e          // 'iden'
  const SerialNumber: Selector := 0x736e756d      // 'snum'
  const FirmwareVersion: Selector := 0x6677766e   // 'fwvn'
  const ControlList: Selector := 0x6374726c       // 'ctrl'

  // Plug-in selectors
  const BoxList: Selector := 0x626f7823               // 'box#'
  const TranslateUIDToBox: Selector := 0x75696462     // 'uidb'
  const DeviceList: Selector := 0x64657623            // 'dev#'
  const TranslateUIDToDevice: Selector := 0x75696464  // 'uidd'
  const ResourceBundle: Selector := 0x72737263        // 'rsrc'

  // Box selectors
  const BoxUID: Selector := 0x62756964             // 'buid'
  const TransportType: Selector := 0x7472616e      // 'tran' (box and device)
  const HasAudio: Selector := 0x62686175           // 'bhau'
  const HasVideo: Selector := 0x62687669           // 'bhvi'
  const HasMIDI: Selector := 0x62686d69            // 'bhmi'
  const IsProtected: Selector := 0x6270726f        // 'bpro'
  const Acquired: Selector := 0x62786f6e           // 'bxon'
  const AcquisitionFailed: Selector := 0x62786f66  // 'bxof'
  const BoxDeviceList: Selector := 0x62647623      // 'bdv#'

  // Device selectors
  const DeviceUID: Selector := 0x75696420                  // 'uid '
  const ModelUID: Selector := 0x6d756964                   // 'muid'
  const RelatedDevices: Selector := 0x616b696e             // 'akin'
  const ClockDomain: Selector := 0x636c6b64                // 'clkd'
  const DeviceIsAlive: Selector := 0x6c69766e              // 'livn'
  const DeviceIsRunning: Selector := 0x676f696e            // 'goin'
  const CanBeDefaultDevice: Selector := 0x64666c74         // 'dflt'
  const CanBeDefaultSystemDevice: Selector := 0x73666c74   // 'sflt'
  const Latency: Selector := 0x6c746e63                    // 'ltnc' (device and stream)
  const Streams: Selector := 0x73746d23                    // 'stm#'
  const NominalSampleRate: Selector := 0x6e737274          // 'nsrt'
  const AvailableSampleRates: Selector := 0x61737274       // 'asrt', the driver's own fallback definition
  const IsHidden: Selector := 0x6869646e                   // 'hidn'
  const ZeroTimeStampPeriod: Selector := 0x72696e67        // 'ring'
  const Icon: Selector := 0x69636f6e                       // 'icon'
  const ConfigurationApplication: Selector := 0x63617070   // 'capp'
  const SafetyOffset: Selector := 0x73616674               // 'saft'

  // Stream selectors
  const IsActive: Selector := 0x73616374                   // 'sact'
  const Direction: Selector := 0x73646972                  // 'sdir'
  const TerminalType: Selector := 0x7465726d               // 'term'
  const StartingChannel: Selector := 0x7363686e            // 'schn'
  const VirtualFormat: Selector := 0x73666d74              // 'sfmt'
  const PhysicalFormat: Selector := 0x70667420             // 'pft '
  const AvailableVirtualFormats: Selector := 0x73666d61    // 'sfma'
  const AvailablePhysicalFormats: Selector := 0x70667461   // 'pfta'

  // Byte sizes of the C types, for a 64-bit process
  const SizeOfUInt32: UInt32 := 4
  const SizeOfClassID: UInt32 := 4
  const SizeOfObjectID: UInt32 := 4
  const SizeOfFloat64: UInt32 := 8
  const SizeOfPointer: UInt32 := 8                  // CFStringRef, CFURLRef
  const SizeOfValueRange: UInt32 := 16              // AudioValueRange: two Float64
  const SizeOfStreamBasicDescription: UInt32 := 40  // one Float64 and eight UInt32
  const SizeOfStreamRangedDescription: UInt32 := 56 // the description and a range

  /** `AudioValueRange`, with whole-Hz bounds. */
  datatype ValueRange = ValueRange(minimum: nat, maximum: nat)

  /** `AudioStreamBasicDescription`, the sample rate in whole Hz. */
  datatype StreamFormat = StreamFormat(
    sampleRate: nat,
    formatID: UInt32,
    formatFlags: UInt32,
    bytesPerPacket: nat,
    framesPerPacket: nat,
    bytesPerFrame: nat,
    channelsPerFrame: nat,
    bitsPerChannel: nat,
    reserved: nat)

  /** `AudioStreamRangedDescription`. */
  datatype RangedFormat = RangedFormat(format: StreamFormat, sampleRateRange: ValueRange)

  /** What a successful GetPropertyData call leaves in the caller's buffer. */
  datatype Value =
    | Word(w: UInt32)                        // any 32-bit datum: class id, object id, flag, enum
    | Rate(hz: nat)                          // a Float64 sample rate
    | Reciprocal(of: nat)                    // the Float64 1.0 / of
    | StringRef(s: Option<string>)           // a CFStringRef; None is NULL
    | NullURL                                // a NULL CFURLRef
    | ObjectIDs(ids: seq<ObjectID>)          // an array of AudioObjectID
    | Ranges(ranges: seq<ValueRange>)        // an array of AudioValueRange
    | Format(format: StreamFormat)
    | RangedFormats(formats: seq<RangedFormat>)
    | NoData                                 // nothing written, outDataSize 0

  /** The written value and the `outDataSize` reported with it. */
  datatype Fetched = Fetched(value: Value, size: UInt32)

  /** The three out-parameters of GetZeroTimeStamp. */
  datatype ZeroTimeStamp = ZeroTimeStamp(sampleTime: nat, hostTime: nat, seed: nat)

  /** The two out-parameters of WillDoIOOperation. */
  datatype WillDo = WillDo(willDo: bool, inPlace: bool)
}
