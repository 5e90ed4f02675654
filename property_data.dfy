/**
 * GetPropertyData for the fuller driver: what each object writes into the
 * caller's buffer, and the byte count it reports, given the driver's mutable
 * state, the caller's buffer size and the qualifier.
 */
module PropertyData {
  import opened CoreAudio
  import opened VocanaConstants
  import opened PropertyTables

  /** The driver globals that property reads consult. */
  datatype DriverState = DriverState(
    boxName: Option<string>,   // gBox_Name; None is NULL
    boxAcquired: bool,
    sampleRate: nat,           // gDevice_SampleRate in Hz
    ioIsRunning: nat,          // gDevice_IOIsRunning
    inputActive: bool,
    outputActive: bool)

  /** The state the globals hold when the bundle is loaded. */
  const LoadedState: DriverState :=
    DriverState(None, true, DefaultSampleRate, 0, true, true)

  /** The global state stays within what the device can run at. */
  predicate ValidState(s: DriverState) {
    s.sampleRate in SampleRates
  }

  /** A qualifier argument: its declared size and the CFStringRef it points at, if any. */
  datatype Qualifier = Qualifier(size: UInt32, data: Option<string>)

  /** The number of bytes a value occupies in the caller's buffer. */
  function ValueSize(v: Value): nat {
    match v
    case Word(_) => 4
    case Rate(_) => 8
    case Reciprocal(_) => 8
    case StringRef(_) => 8
    case NullURL => 8
    case ObjectIDs(ids) => 4 * |ids|
    case Ranges(rs) => 16 * |rs|
    case Format(_) => 40
    case RangedFormats(fs) => 56 * |fs|
    case NoData => 0
  }

  function Flag(b: bool): UInt32 {
    if b then 1 else 0
  }

  /** kAudioFormatFlagIsFloat | kAudioFormatFlagIsPacked */
  const FloatPackedFlags: UInt32 := ((FormatFlagIsFloat as bv32) | (FormatFlagIsPacked as bv32)) as int

  /** Two interleaved 32-bit float channels at the given rate. */
  function StreamFormatAt(rate: nat): (f: StreamFormat)
    ensures f.sampleRate == rate && f.formatID == FormatLinearPCM && f.reserved == 0
    ensures f.channelsPerFrame == NumberOfChannels && f.bitsPerChannel == BitsPerChannel
    ensures f.bytesPerFrame == f.bytesPerPacket == BytesPerFrame && f.framesPerPacket == 1
  {
    StreamFormat(rate, FormatLinearPCM, FloatPackedFlags, BytesPerFrame, 1,
                 BytesPerFrame, NumberOfChannels, BitsPerChannel, 0)
  }

  /** One degenerate range [r, r] per rate, in table order. */
  function RangesOf(rates: seq<nat>): (r: seq<ValueRange>)
    ensures |r| == |rates|
    ensures forall i :: 0 <= i < |rates| ==> r[i] == ValueRange(rates[i], rates[i])
  {
    if rates == [] then [] else [ValueRange(rates[0], rates[0])] + RangesOf(rates[1..])
  }

  /** One ranged format per rate, each pinned to that rate. */
  function RangedFormatsOf(rates: seq<nat>): (r: seq<RangedFormat>)
    ensures |r| == |rates|
    ensures forall i :: 0 <= i < |rates| ==>
              r[i] == RangedFormat(StreamFormatAt(rates[i]), ValueRange(rates[i], rates[i]))
  {
    if rates == [] then []
    else [RangedFormat(StreamFormatAt(rates[0]), ValueRange(rates[0], rates[0]))]
         + RangedFormatsOf(rates[1..])
  }

  /** The AvailableSampleRates loop: fills the first six entries of the caller's buffer. */
  method WriteAvailableSampleRates(out: array<ValueRange>)
    requires out.Length >= |SampleRates|
    modifies out
    ensures out[..|SampleRates|] == RangesOf(SampleRates)
    ensures out[|SampleRates|..] == old(out[|SampleRates|..])
  {
    var i := 0;
    while i < |SampleRates|
      invariant 0 <= i <= |SampleRates|
      invariant forall k :: 0 <= k < i ==> out[k] == ValueRange(SampleRates[k], SampleRates[k])
      invariant out[|SampleRates|..] == old(out[|SampleRates|..])
    {
      out[i] := ValueRange(SampleRates[i], SampleRates[i]);
      i := i + 1;
    }
  }

  /** The AvailableVirtualFormats / AvailablePhysicalFormats loop. */
  method WriteAvailableFormats(out: array<RangedFormat>)
    requires out.Length >= |SampleRates|
    modifies out
    ensures out[..|SampleRates|] == RangedFormatsOf(SampleRates)
    ensures out[|SampleRates|..] == old(out[|SampleRates|..])
  {
    var i := 0;
    while i < |SampleRates|
      invariant 0 <= i <= |SampleRates|
      invariant forall k :: 0 <= k < i ==>
                  out[k] == RangedFormat(StreamFormatAt(SampleRates[k]),
                                         ValueRange(SampleRates[k], SampleRates[k]))
      invariant out[|SampleRates|..] == old(out[|SampleRates|..])
    {
      var rate := SampleRates[i];
      out[i] := RangedFormat(StreamFormatAt(rate), ValueRange(rate, rate));
      i := i + 1;
    }
  }

  // ---------------------------------------------------------------------
  // Building blocks shared by the handlers

  /** A fixed-size datum: refused with BadPropertySize unless the buffer holds `size` bytes. */
  function Fixed(inDataSize: UInt32, v: Value, size: UInt32): (r: Result<Fetched>)
    ensures r.Ok? <==> size <= inDataSize
    ensures r.Ok? ==> r.value == Fetched(v, size)
    ensures r.Fail? ==> r.error == BadPropertySize
  {
    if inDataSize < size then Fail(BadPropertySize) else Ok(Fetched(v, size))
  }

  /**
   * An object list: as many leading ids as whole AudioObjectIDs fit in the
   * caller's buffer, never more than the list holds.
   */
  function ObjectIDList(inDataSize: UInt32, ids: seq<ObjectID>): (r: Fetched)
    requires |ids| <= 2
    ensures r.value.ObjectIDs? && r.value.ids <= ids
    ensures r.size == 4 * |r.value.ids| <= inDataSize
    ensures r.value.ids == ids || inDataSize < 4 * (|r.value.ids| + 1)
  {
    var n := if inDataSize / SizeOfObjectID > |ids| then |ids| else inDataSize / SizeOfObjectID;
    Fetched(ObjectIDs(ids[..n]), n * SizeOfClassID)
  }

  /** TranslateUIDToBox / TranslateUIDToDevice. */
  function TranslateUID(inDataSize: UInt32, q: Qualifier, uid: string, id: ObjectID): (r: Result<Fetched>)
    ensures r.Ok? <==> inDataSize >= SizeOfObjectID && q.size == SizeOfPointer && q.data.Some?
    ensures r.Fail? ==> r.error == BadPropertySize
    ensures r.Ok? ==> r.value.size == 4
    ensures r.Ok? && q.data.value == uid ==> r.value.value == Word(id)
    ensures r.Ok? && q.data.value != uid ==> r.value.value == Word(ObjectUnknown)
  {
    if inDataSize < SizeOfObjectID then Fail(BadPropertySize)
    else if q.size != SizeOfPointer then Fail(BadPropertySize)
    else if q.data.None? then Fail(BadPropertySize)
    else Ok(Fetched(Word(if q.data.value == uid then id else ObjectUnknown), SizeOfObjectID))
  }

  /** ResourceBundle as the driver writes it: the guard compares with 4 bytes, the datum is 8. */
  function ResourceBundleAsWritten(inDataSize: UInt32): (r: Result<Fetched>)
    ensures r.Ok? <==> inDataSize >= SizeOfObjectID
    ensures r.Ok? ==> r.value == Fetched(StringRef(Some("")), SizeOfPointer)
  {
    if inDataSize < SizeOfObjectID then Fail(BadPropertySize)
    else Ok(Fetched(StringRef(Some("")), SizeOfPointer))
  }

  /** ResourceBundle with the guard sized for the CFStringRef it writes. */
  function ResourceBundleData(inDataSize: UInt32): (r: Result<Fetched>)
    ensures r.Ok? ==> r.value.size <= inDataSize && r.value.size == ValueSize(r.value.value)
    ensures r.Ok? <==> inDataSize >= SizeOfPointer
  {
    Fixed(inDataSize, StringRef(Some("")), SizeOfPointer)
  }

  /** With a 4-byte buffer the written guard lets an 8-byte datum through. */
  lemma ResourceBundleAsWrittenOverruns()
    ensures ResourceBundleAsWritten(4).Ok?
    ensures ResourceBundleAsWritten(4).value.size > 4
    ensures ResourceBundleData(4) == Fail(BadPropertySize)
  {
  }

  /** What a successful read writes is well-formed: it fits and its size is reported exactly. */
  predicate Fits(r: Result<Fetched>, inDataSize: UInt32) {
    r.Ok? ==> r.value.size <= inDataSize && r.value.size == ValueSize(r.value.value)
  }

  // ---------------------------------------------------------------------
  // The four GetPropertyData handlers

  function PlugInData(sel: Selector, q: Qualifier, inDataSize: UInt32): (r: Result<Fetched>)
    ensures Fits(r, inDataSize)
    ensures r == Fail(UnknownProperty) <==> sel !in PlugInProperties
    ensures r.Fail? ==> r.error in {UnknownProperty, BadPropertySize}
  {
    if sel == BaseClass then Fixed(inDataSize, Word(ObjectClassID), SizeOfClassID)
    else if sel == Class then Fixed(inDataSize, Word(PlugInClassID), SizeOfClassID)
    else if sel == Owner then Fixed(inDataSize, Word(ObjectUnknown), SizeOfObjectID)
    else if sel == Manufacturer then Fixed(inDataSize, StringRef(Some(ManufacturerName)), SizeOfPointer)
    else if sel == OwnedObjects then Ok(ObjectIDList(inDataSize, [BoxID, DeviceID]))
    else if sel == BoxList then Ok(ObjectIDList(inDataSize, [BoxID]))
    else if sel == TranslateUIDToBox then TranslateUID(inDataSize, q, BoxUIDString, BoxID)
    else if sel == DeviceList then Ok(ObjectIDList(inDataSize, [DeviceID]))
    else if sel == TranslateUIDToDevice then TranslateUID(inDataSize, q, DeviceUIDString, DeviceID)
    else if sel == ResourceBundle then ResourceBundleData(inDataSize)
    else Fail(UnknownProperty)
  }

  function BoxData(s: DriverState, sel: Selector, inDataSize: UInt32): (r: Result<Fetched>)
    ensures Fits(r, inDataSize)
    ensures r == Fail(UnknownProperty) <==> sel !in BoxProperties
    ensures r.Fail? ==> r.error in {UnknownProperty, BadPropertySize}
  {
    if sel == BaseClass then Fixed(inDataSize, Word(ObjectClassID), SizeOfClassID)
    else if sel == Class then Fixed(inDataSize, Word(BoxClassID), SizeOfClassID)
    else if sel == Owner then Fixed(inDataSize, Word(PlugInID), SizeOfObjectID)
    else if sel == Name then Fixed(inDataSize, StringRef(s.boxName), SizeOfPointer)
    else if sel == ModelName then Fixed(inDataSize, StringRef(Some(DriverName)), SizeOfPointer)
    else if sel == Manufacturer then Fixed(inDataSize, StringRef(Some(ManufacturerName)), SizeOfPointer)
    else if sel == OwnedObjects then Ok(Fetched(NoData, 0))
    else if sel == Identify then Fixed(inDataSize, Word(0), SizeOfUInt32)
    else if sel == SerialNumber then Fixed(inDataSize, StringRef(Some("vocana-001")), SizeOfPointer)
    else if sel == FirmwareVersion then Fixed(inDataSize, StringRef(Some("1.0.0")), SizeOfPointer)
    else if sel == BoxUID then Fixed(inDataSize, StringRef(Some(BoxUIDString)), SizeOfPointer)
    else if sel == TransportType then Fixed(inDataSize, Word(TransportTypeVirtual), SizeOfUInt32)
    else if sel == HasAudio then Fixed(inDataSize, Word(1), SizeOfUInt32)
    else if sel == HasVideo then Fixed(inDataSize, Word(0), SizeOfUInt32)
    else if sel == HasMIDI then Fixed(inDataSize, Word(0), SizeOfUInt32)
    else if sel == IsProtected then Fixed(inDataSize, Word(0), SizeOfUInt32)
    else if sel == Acquired then Fixed(inDataSize, Word(Flag(s.boxAcquired)), SizeOfUInt32)
    else if sel == AcquisitionFailed then Fixed(inDataSize, Word(0), SizeOfUInt32)
    else if sel == BoxDeviceList then Ok(ObjectIDList(inDataSize, [DeviceID]))
    else Fail(UnknownProperty)
  }

  function DeviceData(s: DriverState, sel: Selector, inDataSize: UInt32): (r: Result<Fetched>)
    ensures Fits(r, inDataSize)
    ensures r == Fail(UnknownProperty) <==> sel !in DeviceProperties
    ensures r.Fail? ==> r.error in {UnknownProperty, BadPropertySize}
  {
    if sel == BaseClass then Fixed(inDataSize, Word(ObjectClassID), SizeOfClassID)
    else if sel == Class then Fixed(inDataSize, Word(DeviceClassID), SizeOfClassID)
    else if sel == Owner then Fixed(inDataSize, Word(BoxID), SizeOfObjectID)
    else if sel == Name then Fixed(inDataSize, StringRef(Some(DeviceName)), SizeOfPointer)
    else if sel == ModelName then Fixed(inDataSize, StringRef(Some(DriverName)), SizeOfPointer)
    else if sel == Manufacturer then Fixed(inDataSize, StringRef(Some(ManufacturerName)), SizeOfPointer)
    else if sel == OwnedObjects then Ok(ObjectIDList(inDataSize, [InputStreamID, OutputStreamID]))
    else if sel == Identify then Fixed(inDataSize, Word(0), SizeOfUInt32)
    else if sel == SerialNumber then Fixed(inDataSize, StringRef(Some("vocana-device-001")), SizeOfPointer)
    else if sel == FirmwareVersion then Fixed(inDataSize, StringRef(Some("1.0.0")), SizeOfPointer)
    else if sel == DeviceUID then Fixed(inDataSize, StringRef(Some(DeviceUIDString)), SizeOfPointer)
    else if sel == ModelUID then Fixed(inDataSize, StringRef(Some(DeviceModelUIDString)), SizeOfPointer)
    else if sel == TransportType then Fixed(inDataSize, Word(TransportTypeVirtual), SizeOfUInt32)
    else if sel == RelatedDevices then Ok(Fetched(NoData, 0))
    else if sel == ClockDomain then Fixed(inDataSize, Word(0), SizeOfUInt32)
    else if sel == DeviceIsAlive then Fixed(inDataSize, Word(1), SizeOfClassID)
    else if sel == DeviceIsRunning then Fixed(inDataSize, Word(Flag(s.ioIsRunning > 0)), SizeOfClassID)
    else if sel == CanBeDefaultDevice then Fixed(inDataSize, Word(Flag(CanBeDefault)), SizeOfClassID)
    else if sel == CanBeDefaultSystemDevice then Fixed(inDataSize, Word(Flag(CanBeDefaultSystem)), SizeOfClassID)
    else if sel == Latency then Fixed(inDataSize, Word(0), SizeOfClassID)
    else if sel == Streams then Ok(ObjectIDList(inDataSize, [InputStreamID, OutputStreamID]))
    else if sel == ControlList then Ok(Fetched(NoData, 0))
    else if sel == NominalSampleRate then Fixed(inDataSize, Rate(s.sampleRate), SizeOfFloat64)
    else if sel == AvailableSampleRates then
      Fixed(inDataSize, Ranges(RangesOf(SampleRates)), |SampleRates| * SizeOfValueRange)
    else if sel == IsHidden then Fixed(inDataSize, Word(0), SizeOfClassID)
    else if sel == ZeroTimeStampPeriod then Fixed(inDataSize, Reciprocal(s.sampleRate), SizeOfFloat64)
    else if sel == Icon then Fixed(inDataSize, NullURL, SizeOfPointer)
    else if sel == ConfigurationApplication then Fixed(inDataSize, StringRef(Some("")), SizeOfPointer)
    else Fail(UnknownProperty)
  }

  function StreamData(s: DriverState, obj: ObjectID, sel: Selector, inDataSize: UInt32): (r: Result<Fetched>)
    ensures Fits(r, inDataSize)
    ensures r == Fail(UnknownProperty) <==> sel !in StreamProperties
    ensures r.Fail? ==> r.error in {UnknownProperty, BadPropertySize}
  {
    var isInput := obj == InputStreamID;
    if sel == BaseClass then Fixed(inDataSize, Word(ObjectClassID), SizeOfClassID)
    else if sel == Class then Fixed(inDataSize, Word(StreamClassID), SizeOfClassID)
    else if sel == Owner then Fixed(inDataSize, Word(DeviceID), SizeOfObjectID)
    else if sel == OwnedObjects then Ok(Fetched(NoData, 0))
    else if sel == IsActive then
      Fixed(inDataSize, Word(Flag(if isInput then s.inputActive else s.outputActive)), SizeOfClassID)
    else if sel == Direction then Fixed(inDataSize, Word(Flag(isInput)), SizeOfClassID)
    else if sel == TerminalType then Fixed(inDataSize, Word(TerminalTypeLine), SizeOfClassID)
    else if sel == StartingChannel then Fixed(inDataSize, Word(1), SizeOfClassID)
    else if sel == Latency then Fixed(inDataSize, Word(0), SizeOfClassID)
    else if sel == VirtualFormat || sel == PhysicalFormat then
      Fixed(inDataSize, Format(StreamFormatAt(s.sampleRate)), SizeOfStreamBasicDescription)
    else if sel == AvailableVirtualFormats || sel == AvailablePhysicalFormats then
      Fixed(inDataSize, RangedFormats(RangedFormatsOf(SampleRates)),
            |SampleRates| * SizeOfStreamRangedDescription)
    else Fail(UnknownProperty)
  }

  // ---------------------------------------------------------------------
  // The entry point

  /**
   * GetPropertyData: the driver reference, the address and both out pointers
   * are checked first, then the object id selects the handler.
   */
  function GetPropertyData(s: DriverState, driver: DriverRef, obj: ObjectID, address: Option<Address>,
                           q: Qualifier, inDataSize: UInt32,
                           outSizePresent: bool, outDataPresent: bool): (r: Result<Fetched>)
    ensures Fits(r, inDataSize)
    ensures r.Ok? ==> outSizePresent && outDataPresent && HasProperty(driver, obj, address)
    ensures r == Fail(UnknownProperty) <==>
              outSizePresent && outDataPresent && IsPublished(obj) &&
              driver == TheDriver && address.Some? && !HasProperty(driver, obj, address)
    ensures driver != TheDriver ==> r == Fail(BadObject)
    ensures driver == TheDriver && (address.None? || !outSizePresent || !outDataPresent) ==>
              r == Fail(IllegalOperation)
    ensures driver == TheDriver && address.Some? && outSizePresent && outDataPresent && !IsPublished(obj) ==>
              r == Fail(BadObject)
  {
    if driver != TheDriver then Fail(BadObject)
    else if address.None? || !outSizePresent || !outDataPresent then Fail(IllegalOperation)
    else
      var sel := address.value.selector;
      match KindOf(obj)
      case None => Fail(BadObject)
      case Some(PlugInKind) => PlugInData(sel, q, inDataSize)
      case Some(BoxKind) => BoxData(s, sel, inDataSize)
      case Some(DeviceKind) => DeviceData(s, sel, inDataSize)
      case Some(StreamKind) => StreamData(s, obj, sel, inDataSize)
  }
}
