/**
 * Properties that relate the driver's property queries to one another: the
 * size GetPropertyDataSize reports is what GetPropertyData writes, UIDs
 * translate back to their objects, every object's owner lists it, and the
 * current stream format is among the advertised ones.
 */
module PropertyLaws {
  import opened CoreAudio
  import opened VocanaConstants
  import opened PropertyTables
  import opened PropertyData

  function At(sel: Selector): Option<Address> {
    Some(Address(sel, ScopeGlobal, ElementMain))
  }

  /** The selectors whose read consults the qualifier. */
  predicate NeedsQualifier(obj: ObjectID, sel: Selector) {
    obj == PlugInID && (sel == TranslateUIDToBox || sel == TranslateUIDToDevice)
  }

  /** A qualifier carrying a CFStringRef, as the translations expect. */
  predicate WellFormedQualifier(q: Qualifier) {
    q.size == SizeOfPointer && q.data.Some?
  }

  lemma PlugInDataAgreesWithSize(sel: Selector, q: Qualifier, inDataSize: UInt32)
    requires sel in PlugInProperties
    requires inDataSize >= PlugInPropertySize(sel).value
    requires sel == TranslateUIDToBox || sel == TranslateUIDToDevice ==> WellFormedQualifier(q)
    ensures PlugInData(sel, q, inDataSize).Ok?
    ensures PlugInData(sel, q, inDataSize).value.size == PlugInPropertySize(sel).value
  {
  }

  lemma BoxDataAgreesWithSize(s: DriverState, sel: Selector, inDataSize: UInt32)
    requires sel in BoxProperties
    requires inDataSize >= BoxPropertySize(sel).value
    ensures BoxData(s, sel, inDataSize).Ok?
    ensures BoxData(s, sel, inDataSize).value.size == BoxPropertySize(sel).value
  {
  }

  lemma DeviceDataAgreesWithSize(s: DriverState, sel: Selector, inDataSize: UInt32)
    requires sel in DeviceProperties
    requires inDataSize >= DevicePropertySize(sel).value
    ensures DeviceData(s, sel, inDataSize).Ok?
    ensures DeviceData(s, sel, inDataSize).value.size == DevicePropertySize(sel).value
  {
  }

  lemma StreamDataAgreesWithSize(s: DriverState, obj: ObjectID, sel: Selector, inDataSize: UInt32)
    requires sel in StreamProperties
    requires inDataSize >= StreamPropertySize(sel).value
    ensures StreamData(s, obj, sel, inDataSize).Ok?
    ensures StreamData(s, obj, sel, inDataSize).value.size == StreamPropertySize(sel).value
  {
  }

  /**
   * A caller that sizes its buffer by GetPropertyDataSize (and passes a
   * CFStringRef qualifier to the two translations) always gets the data, and
   * exactly as many bytes as were announced.
   */
  lemma GetAgreesWithReportedSize(s: DriverState, obj: ObjectID, address: Address, q: Qualifier, inDataSize: UInt32)
    requires HasProperty(TheDriver, obj, Some(address))
    requires inDataSize >= GetPropertyDataSize(TheDriver, obj, Some(address), true).value
    requires NeedsQualifier(obj, address.selector) ==> WellFormedQualifier(q)
    ensures GetPropertyData(s, TheDriver, obj, Some(address), q, inDataSize, true, true).Ok?
    ensures GetPropertyData(s, TheDriver, obj, Some(address), q, inDataSize, true, true).value.size
            == GetPropertyDataSize(TheDriver, obj, Some(address), true).value
  {
    var sel := address.selector;
    match KindOf(obj).value
    case PlugInKind => PlugInDataAgreesWithSize(sel, q, inDataSize);
    case BoxKind => BoxDataAgreesWithSize(s, sel, inDataSize);
    case DeviceKind => DeviceDataAgreesWithSize(s, sel, inDataSize);
    case StreamKind => StreamDataAgreesWithSize(s, obj, sel, inDataSize);
  }

  /**
   * Conversely, a read of a property the object has fails only with
   * BadPropertySize, and only when the buffer is smaller than announced or a
   * translation's qualifier is not a CFStringRef.
   */
  lemma GetFailsOnlyOnShortBuffer(s: DriverState, obj: ObjectID, address: Address, q: Qualifier, inDataSize: UInt32)
    requires HasProperty(TheDriver, obj, Some(address))
    requires GetPropertyData(s, TheDriver, obj, Some(address), q, inDataSize, true, true).Fail?
    ensures GetPropertyData(s, TheDriver, obj, Some(address), q, inDataSize, true, true).error == BadPropertySize
    ensures inDataSize < GetPropertyDataSize(TheDriver, obj, Some(address), true).value ||
            (NeedsQualifier(obj, address.selector) && !WellFormedQualifier(q))
  {
    if inDataSize >= GetPropertyDataSize(TheDriver, obj, Some(address), true).value &&
       (NeedsQualifier(obj, address.selector) ==> WellFormedQualifier(q)) {
      GetAgreesWithReportedSize(s, obj, address, q, inDataSize);
    }
  }

  /** The lists that hand back a prefix rather than refusing a short buffer. */
  predicate IsListSelector(sel: Selector) {
    sel in {OwnedObjects, BoxList, DeviceList, Streams, BoxDeviceList}
  }

  /**
   * A read of any other property into a buffer smaller than the size
   * GetPropertyDataSize reports is refused with BadPropertySize.
   */
  lemma ShortBufferRefused(s: DriverState, obj: ObjectID, address: Address, q: Qualifier, inDataSize: UInt32)
    requires HasProperty(TheDriver, obj, Some(address))
    requires !IsListSelector(address.selector)
    requires inDataSize < GetPropertyDataSize(TheDriver, obj, Some(address), true).value
    ensures GetPropertyData(s, TheDriver, obj, Some(address), q, inDataSize, true, true) == Fail(BadPropertySize)
  {
    match KindOf(obj).value
    case PlugInKind =>
    case BoxKind =>
    case DeviceKind =>
    case StreamKind =>
  }

  function Min(a: nat, b: nat): nat {
    if a < b then a else b
  }

  /**
   * Each object list writes its first min(inDataSize / 4, N) ids and reports
   * four bytes per id written.
   */
  lemma ListsAreClampedPrefixes(s: DriverState, inDataSize: UInt32)
    ensures var n := Min(inDataSize / 4, 2);
            GetPropertyData(s, TheDriver, PlugInID, At(OwnedObjects), Qualifier(0, None), inDataSize, true, true)
            == Ok(Fetched(ObjectIDs([BoxID, DeviceID][..n]), 4 * n))
    ensures var n := Min(inDataSize / 4, 2);
            GetPropertyData(s, TheDriver, DeviceID, At(Streams), Qualifier(0, None), inDataSize, true, true)
            == Ok(Fetched(ObjectIDs([InputStreamID, OutputStreamID][..n]), 4 * n))
    ensures var n := Min(inDataSize / 4, 1);
            GetPropertyData(s, TheDriver, PlugInID, At(DeviceList), Qualifier(0, None), inDataSize, true, true)
            == Ok(Fetched(ObjectIDs([DeviceID][..n]), 4 * n))
    ensures var n := Min(inDataSize / 4, 1);
            GetPropertyData(s, TheDriver, PlugInID, At(BoxList), Qualifier(0, None), inDataSize, true, true)
            == Ok(Fetched(ObjectIDs([BoxID][..n]), 4 * n))
  {
  }

  /** The array-valued properties report one entry per table rate. */
  lemma TableSizes()
    ensures DevicePropertySize(AvailableSampleRates) == Ok((|SampleRates| * SizeOfValueRange) as UInt32)
    ensures StreamPropertySize(AvailableVirtualFormats) == StreamPropertySize(AvailablePhysicalFormats)
            == Ok((|SampleRates| * SizeOfStreamRangedDescription) as UInt32)
    ensures PlugInPropertySize(OwnedObjects) == DevicePropertySize(Streams) == Ok(2 * SizeOfObjectID)
  {
  }

  /**
   * The UID the device reports translates back to the device; any other
   * string translates to the unknown object, and a qualifier that is not a
   * CFStringRef is refused.
   */
  lemma DeviceUIDRoundTrip(s: DriverState, uid: string, q: Qualifier, inDataSize: UInt32)
    ensures GetPropertyData(s, TheDriver, DeviceID, At(DeviceUID), Qualifier(0, None), 8, true, true)
            == Ok(Fetched(StringRef(Some(DeviceUIDString)), 8))
    ensures GetPropertyData(s, TheDriver, PlugInID, At(TranslateUIDToDevice), Qualifier(8, Some(uid)), 4, true, true)
            == Ok(Fetched(Word(if uid == DeviceUIDString then DeviceID else ObjectUnknown), 4))
    ensures !WellFormedQualifier(q) || inDataSize < 4 ==>
              GetPropertyData(s, TheDriver, PlugInID, At(TranslateUIDToDevice), q, inDataSize, true, true)
              == Fail(BadPropertySize)
  {
  }

  /**
   * The UID the box reports translates back to the box; any other string
   * translates to the unknown object, and a qualifier that is not a
   * CFStringRef is refused.
   */
  lemma BoxUIDRoundTrip(s: DriverState, uid: string, q: Qualifier, inDataSize: UInt32)
    ensures GetPropertyData(s, TheDriver, BoxID, At(BoxUID), Qualifier(0, None), 8, true, true)
            == Ok(Fetched(StringRef(Some(BoxUIDString)), 8))
    ensures GetPropertyData(s, TheDriver, PlugInID, At(TranslateUIDToBox), Qualifier(8, Some(uid)), 4, true, true)
            == Ok(Fetched(Word(if uid == BoxUIDString then BoxID else ObjectUnknown), 4))
    ensures !WellFormedQualifier(q) || inDataSize < 4 ==>
              GetPropertyData(s, TheDriver, PlugInID, At(TranslateUIDToBox), q, inDataSize, true, true)
              == Fail(BadPropertySize)
  {
  }

  /** The object (or device) list `sel` of `obj`, read with room for every entry. */
  function ListOf(s: DriverState, obj: ObjectID, sel: Selector): seq<ObjectID> {
    var r := GetPropertyData(s, TheDriver, obj, At(sel), Qualifier(0, None), 8, true, true);
    if r.Ok? && r.value.value.ObjectIDs? then r.value.value.ids else []
  }

  /** The owner `obj` reports, or ObjectUnknown if the read fails. */
  function OwnerOf(s: DriverState, obj: ObjectID): ObjectID {
    var r := GetPropertyData(s, TheDriver, obj, At(Owner), Qualifier(0, None), 4, true, true);
    if r.Ok? && r.value.value.Word? then r.value.value.w else ObjectUnknown
  }

  /**
   * The object tree: the plug-in has no owner and owns the box and the device,
   * the box owns the device through its device list, and the device owns both
   * streams. Every published object other than the plug-in is listed by its owner.
   */
  lemma OwnershipTree(s: DriverState)
    ensures OwnerOf(s, PlugInID) == ObjectUnknown
    ensures ListOf(s, PlugInID, OwnedObjects) == [BoxID, DeviceID]
    ensures OwnerOf(s, BoxID) == PlugInID && BoxID in ListOf(s, PlugInID, BoxList)
    ensures OwnerOf(s, DeviceID) == BoxID && DeviceID in ListOf(s, BoxID, BoxDeviceList)
    ensures DeviceID in ListOf(s, PlugInID, DeviceList)
    ensures OwnerOf(s, InputStreamID) == DeviceID && OwnerOf(s, OutputStreamID) == DeviceID
    ensures ListOf(s, DeviceID, OwnedObjects) == ListOf(s, DeviceID, Streams) == [InputStreamID, OutputStreamID]
  {
    assert [BoxID, DeviceID][..2] == [BoxID, DeviceID];
    assert [InputStreamID, OutputStreamID][..2] == [InputStreamID, OutputStreamID];
  }

  /** The class an object reports identifies its handler family; all share the base class. */
  lemma ClassIdentifiesKind(s: DriverState, obj: ObjectID)
    requires IsPublished(obj)
    ensures GetPropertyData(s, TheDriver, obj, At(BaseClass), Qualifier(0, None), 4, true, true)
            == Ok(Fetched(Word(ObjectClassID), 4))
    ensures GetPropertyData(s, TheDriver, obj, At(Class), Qualifier(0, None), 4, true, true)
            == Ok(Fetched(Word(match KindOf(obj).value
                               case PlugInKind => PlugInClassID
                               case BoxKind => BoxClassID
                               case DeviceKind => DeviceClassID
                               case StreamKind => StreamClassID), 4))
  {
  }

  /** Both streams carry a packed, interleaved 32-bit float layout at the device rate. */
  lemma FormatLayout(rate: nat)
    ensures StreamFormatAt(rate).bytesPerFrame == StreamFormatAt(rate).channelsPerFrame * StreamFormatAt(rate).bitsPerChannel / 8
    ensures StreamFormatAt(rate).bytesPerPacket == StreamFormatAt(rate).bytesPerFrame * StreamFormatAt(rate).framesPerPacket
    ensures StreamFormatAt(rate).formatFlags == 9
  {
  }

  /**
   * While the device runs at a supported rate, the nominal rate is one of the
   * advertised sample-rate ranges and the current stream format is one of the
   * advertised formats, at the same position in the table.
   */
  lemma CurrentFormatIsAdvertised(s: DriverState) returns (i: nat)
    requires ValidState(s)
    ensures i < |SampleRates| && SampleRates[i] == s.sampleRate
    ensures RangesOf(SampleRates)[i] == ValueRange(s.sampleRate, s.sampleRate)
    ensures RangedFormatsOf(SampleRates)[i].format == StreamFormatAt(s.sampleRate)
    ensures i < |RangedFormatsOf(SampleRates)|
  {
    i := 0;
    while SampleRates[i] != s.sampleRate
      invariant i < |SampleRates|
      invariant forall k :: 0 <= k < i ==> SampleRates[k] != s.sampleRate
      decreases |SampleRates| - i
    {
      i := i + 1;
    }
  }

  /** The six advertised ranges are degenerate and strictly increasing. */
  lemma AdvertisedRatesAscending()
    ensures forall i :: 0 <= i < |SampleRates| ==>
              RangesOf(SampleRates)[i].minimum == RangesOf(SampleRates)[i].maximum == SampleRates[i]
    ensures forall i, j :: 0 <= i < j < |SampleRates| ==>
              RangesOf(SampleRates)[i].maximum < RangesOf(SampleRates)[j].minimum
  {
  }

  /**
   * The values behind the device's rate properties: the nominal rate is the
   * device's current rate and the available rates are the whole table, in
   * order, one single-point range each, whenever the buffer holds the size
   * GetPropertyDataSize reports for them.
   */
  lemma DeviceRateAnswers(s: DriverState, inDataSize: UInt32)
    ensures inDataSize >= 8 ==>
              GetPropertyData(s, TheDriver, DeviceID, At(NominalSampleRate), Qualifier(0, None), inDataSize, true, true)
              == Ok(Fetched(Rate(s.sampleRate), 8))
    ensures inDataSize >= 6 * 16 ==>
              GetPropertyData(s, TheDriver, DeviceID, At(AvailableSampleRates), Qualifier(0, None), inDataSize, true, true)
              == Ok(Fetched(Ranges(RangesOf(SampleRates)), 6 * 16))
  {
    assert KindOf(DeviceID) == Some(DeviceKind);
  }

  /**
   * The values behind a stream's format properties: the virtual and physical
   * formats are the format at the device's current rate, and the available
   * formats are the whole rate table, in order, whenever the buffer holds the
   * size GetPropertyDataSize reports for them.
   */
  lemma StreamFormatAnswers(s: DriverState, stream: ObjectID, inDataSize: UInt32)
    requires stream == InputStreamID || stream == OutputStreamID
    ensures inDataSize >= 40 ==>
              GetPropertyData(s, TheDriver, stream, At(VirtualFormat), Qualifier(0, None), inDataSize, true, true)
              == GetPropertyData(s, TheDriver, stream, At(PhysicalFormat), Qualifier(0, None), inDataSize, true, true)
              == Ok(Fetched(Format(StreamFormatAt(s.sampleRate)), 40))
    ensures inDataSize >= 6 * 56 ==>
              GetPropertyData(s, TheDriver, stream, At(AvailableVirtualFormats), Qualifier(0, None), inDataSize, true, true)
              == GetPropertyData(s, TheDriver, stream, At(AvailablePhysicalFormats), Qualifier(0, None), inDataSize, true, true)
              == Ok(Fetched(RangedFormats(RangedFormatsOf(SampleRates)), 6 * 56))
  {
    assert KindOf(stream) == Some(StreamKind);
  }

  /** The two streams differ only in their direction and their active flag. */
  lemma StreamsDifferOnlyInDirection(s: DriverState, sel: Selector, inDataSize: UInt32)
    requires sel != Direction && sel != IsActive
    ensures StreamData(s, InputStreamID, sel, inDataSize) == StreamData(s, OutputStreamID, sel, inDataSize)
    ensures StreamData(s, InputStreamID, Direction, inDataSize).Ok? ==>
              StreamData(s, InputStreamID, Direction, inDataSize).value.value == Word(1) &&
              StreamData(s, OutputStreamID, Direction, inDataSize).value.value == Word(0)
  {
  }
}
