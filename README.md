# Vocana Core Audio HAL plug-in — a Dafny model

Vocana ships a user-space Core Audio HAL driver (an AudioServerPlugIn). The
HAL talks to it through a COM-style interface. The driver publishes a fixed
tree of audio objects:

- the plug-in (object 1), which owns the box (2) and the device (3);
- the device, which owns an input stream (4) and an output stream (5).

The driver answers the host's five property queries for every object:
HasProperty, IsPropertySettable, GetPropertyDataSize, GetPropertyData and
SetPropertyData. Each query first switches on the object id and then on the
selector. The repository holds two revisions of the plug-in. This project
models both.

- **The fuller revision** (`VocanaAudioServerPlugin_original.c`) has mutable
  globals: the reference count, the host reference, the box name and
  acquired flag, the sample rate, the IO-running counter and the streams'
  active flags.
  - Its property queries are pure functions of a snapshot of those globals
    (`PropertyData.DriverState`), in the modules `PropertyTables`,
    `PropertyData` and `PropertySet`.
  - The globals themselves are the class `Driver.PlugIn`. Its methods
    (QueryInterface, AddRef, Release, Initialize, SetPropertyData) update
    the fields in place, and each is proved against the pure functions.
  - The two loops that fill the caller's buffer with the advertised sample
    rates and stream formats are array methods. They are the in-place form
    of `RangesOf` and `RangedFormatsOf`, which the property reads use as
    their values.
  - The sample-rate table lookup is a loop method.
  - The device-lifecycle and IO entry points only check their arguments.
    They are in `IOOperations`.
- **The minimal revision** (`VocanaAudioServerPlugin.c`) allocates a plug-in
  record holding the host and the sample rate. It publishes one device
  (object 2) with seven properties, and every other entry point is a stub.
  It is modelled in `MinimalPlugin`.
- The header's constants are in `VocanaConstants`.
- The CoreAudio vocabulary used throughout is in `CoreAudio`:
  - the four-character selector and class codes;
  - error codes;
  - property addresses;
  - the byte sizes of the C types;
  - the values a property read can produce.

How C values are represented:

- A CFStringRef is an `Option<string>`, where `None` is NULL.
- A NULL pointer argument is a `bool` "present" flag or an `Option`.
- Every size is in bytes, with pointers 8 bytes wide.
- Sample rates are whole numbers of Hz.

## Model

| member | source | states |
|---|---|---|
| VocanaConstants.IsValidSampleRate | Sources/VocanaAudioServerPlugin/VocanaAudioServerPlugin_original.c:165-175 | the loop answers true exactly when the rate equals one of the table's rates |
| VocanaConstants.SampleRateTableShape | Sources/VocanaAudioServerPlugin/VocanaAudioServerPlugin.h:55 | the table has six strictly ascending positive rates, and the initial 48000 Hz is among them |
| VocanaConstants.FrameLayout | Sources/VocanaAudioServerPlugin/VocanaAudioServerPlugin.h:57-59 | a channel is 4 bytes and a frame is 2 × 4 = 8 bytes |
| VocanaConstants.UIDStrings | Sources/VocanaAudioServerPlugin/VocanaAudioServerPlugin.h:41-45 | the box and device UIDs are both "Vocana_UID"; the model UID "Vocana_ModelUID" differs from them |
| VocanaConstants.ObjectIDsDistinct | Sources/VocanaAudioServerPlugin/VocanaAudioServerPlugin.h:22-35 | the twelve object ids are pairwise distinct, and the plug-in is object 1 |
| PropertyTables.PlugInSettable | Sources/VocanaAudioServerPlugin/VocanaAudioServerPlugin_original.c:802-840 | a plug-in selector is answered (not settable) exactly when the plug-in lists it; anything else is UnknownProperty |
| PropertyTables.BoxSettable | Sources/VocanaAudioServerPlugin/VocanaAudioServerPlugin_original.c:1169-1219 | every box selector is answered; exactly Name, Identify and Acquired are settable; anything else is UnknownProperty |
| PropertyTables.DeviceSettable | Sources/VocanaAudioServerPlugin/VocanaAudioServerPlugin_original.c:1650-1706 | a device selector is answered (not settable) exactly when the device lists it; anything else is UnknownProperty |
| PropertyTables.StreamSettable | Sources/VocanaAudioServerPlugin/VocanaAudioServerPlugin_original.c:2212-2253 | a stream selector is answered (not settable) exactly when the stream lists it; anything else is UnknownProperty |
| PropertyTables.PlugInPropertySize | Sources/VocanaAudioServerPlugin/VocanaAudioServerPlugin_original.c:842-907 | a size is reported exactly for the plug-in's selectors; anything else is UnknownProperty |
| PropertyTables.BoxPropertySize | Sources/VocanaAudioServerPlugin/VocanaAudioServerPlugin_original.c:1221-1322 | a size is reported exactly for the box's selectors; anything else is UnknownProperty |
| PropertyTables.DevicePropertySize | Sources/VocanaAudioServerPlugin/VocanaAudioServerPlugin_original.c:1708-1845 | a size is reported exactly for the device's selectors; anything else is UnknownProperty |
| PropertyTables.StreamPropertySize | Sources/VocanaAudioServerPlugin/VocanaAudioServerPlugin_original.c:2255-2332 | a size is reported exactly for the stream's selectors; anything else is UnknownProperty |
| PropertyTables.HasProperty | Sources/VocanaAudioServerPlugin/VocanaAudioServerPlugin_original.c:457-493 | false for a foreign driver reference, a NULL address or an unpublished object; otherwise true exactly when the object's handler lists the selector |
| PropertyTables.IsPropertySettable | Sources/VocanaAudioServerPlugin/VocanaAudioServerPlugin_original.c:495-537 | succeeds exactly when the out pointer is present and the property exists; answers settable exactly for the box's Name, Identify and Acquired |
| PropertyTables.GetPropertyDataSize | Sources/VocanaAudioServerPlugin/VocanaAudioServerPlugin_original.c:539-580 | succeeds exactly when the out pointer is present and the property exists |
| PropertyTables.QueryErrorPrecedence | Sources/VocanaAudioServerPlugin/VocanaAudioServerPlugin_original.c:495-580 | errors come in order: a foreign driver is BadObject, then a NULL pointer is IllegalOperation, then an unpublished object is BadObject, then an unlisted selector is UnknownProperty |
| PropertyTables.ScopeAndElementIgnored | Sources/VocanaAudioServerPlugin/VocanaAudioServerPlugin_original.c:457-580 | two addresses with the same selector get the same answers from the three queries |
| PropertyTables.CommonPropertiesEverywhere | Sources/VocanaAudioServerPlugin/VocanaAudioServerPlugin_original.c:1597-1648 | every object answers BaseClass, Class, Owner and OwnedObjects; the settable box properties are box properties; the device does not answer SafetyOffset |
| PropertyData.RangesOf | Sources/VocanaAudioServerPlugin/VocanaAudioServerPlugin_original.c:2088-2098 | one range per table rate, entry i being [rate i, rate i] |
| PropertyData.RangedFormatsOf | Sources/VocanaAudioServerPlugin/VocanaAudioServerPlugin_original.c:2445-2466 | one ranged format per table rate, entry i pinned to rate i |
| PropertyData.StreamFormatAt | Sources/VocanaAudioServerPlugin/VocanaAudioServerPlugin_original.c:2432-2440 | the current format is linear PCM at the given rate, two channels of 32 bits, 8 bytes per frame and per packet, one frame per packet |
| PropertyData.WriteAvailableSampleRates | Sources/VocanaAudioServerPlugin/VocanaAudioServerPlugin_original.c:2088-2098 | the loop fills the first six buffer entries with the advertised ranges, in table order, and leaves the rest of the buffer untouched |
| PropertyData.WriteAvailableFormats | Sources/VocanaAudioServerPlugin/VocanaAudioServerPlugin_original.c:2445-2466 | the loop fills the first six buffer entries with the advertised formats, in table order, and leaves the rest of the buffer untouched |
| PropertyData.Fixed | Sources/VocanaAudioServerPlugin/VocanaAudioServerPlugin_original.c:931-935 | a fixed-size datum is written exactly when the buffer holds its size, and then it is that datum at that size; a short buffer is BadPropertySize |
| PropertyData.ObjectIDList | Sources/VocanaAudioServerPlugin/VocanaAudioServerPlugin_original.c:959-1006 | an object list writes the longest prefix of whole ids that fits, 4 bytes per id |
| PropertyData.TranslateUID | Sources/VocanaAudioServerPlugin/VocanaAudioServerPlugin_original.c:1008-1027 | succeeds exactly when the buffer holds an object id and the qualifier is a non-NULL CFStringRef, else BadPropertySize; the answer is 4 bytes, the object for its own UID and the unknown object for any other string |
| PropertyData.ResourceBundleData | Sources/VocanaAudioServerPlugin/VocanaAudioServerPlugin_original.c:1072-1079 | the empty-string resource bundle is written exactly when the buffer holds a CFStringRef |
| PropertyData.ResourceBundleAsWritten | Sources/VocanaAudioServerPlugin/VocanaAudioServerPlugin_original.c:1076 | as written, the empty string is written at 8 bytes whenever the buffer holds 4 bytes |
| PropertyData.ResourceBundleAsWrittenOverruns | Sources/VocanaAudioServerPlugin/VocanaAudioServerPlugin_original.c:1076 | with a 4-byte buffer the guard as written passes and 8 bytes are written; the corrected guard refuses |
| PropertyData.PlugInData | Sources/VocanaAudioServerPlugin/VocanaAudioServerPlugin_original.c:909-1088 | every answer fits the buffer and is sized exactly; UnknownProperty exactly for selectors the plug-in lacks; the only other error is BadPropertySize (ResourceBundle with the corrected guard, see Findings) |
| PropertyData.BoxData | Sources/VocanaAudioServerPlugin/VocanaAudioServerPlugin_original.c:1324-1510 | every answer fits the buffer and is sized exactly; UnknownProperty exactly for selectors the box lacks; the only other error is BadPropertySize |
| PropertyData.DeviceData | Sources/VocanaAudioServerPlugin/VocanaAudioServerPlugin_original.c:1847-2137 | every answer fits the buffer and is sized exactly; UnknownProperty exactly for selectors the device lacks; the only other error is BadPropertySize |
| PropertyData.StreamData | Sources/VocanaAudioServerPlugin/VocanaAudioServerPlugin_original.c:2334-2475 | every answer fits the buffer and is sized exactly; UnknownProperty exactly for selectors the stream lacks; the only other error is BadPropertySize |
| PropertyData.GetPropertyData | Sources/VocanaAudioServerPlugin/VocanaAudioServerPlugin_original.c:582-624 | a foreign driver is BadObject; a NULL address or out pointer is IllegalOperation; an unpublished object is BadObject; UnknownProperty exactly for a published object lacking the selector; a successful read has an existing property and fits the buffer (ResourceBundle with the corrected guard, see Findings) |
| PropertyLaws.PlugInDataAgreesWithSize | Sources/VocanaAudioServerPlugin/VocanaAudioServerPlugin_original.c:842-1088 | a plug-in read into a buffer of the reported size succeeds and writes exactly that size |
| PropertyLaws.BoxDataAgreesWithSize | Sources/VocanaAudioServerPlugin/VocanaAudioServerPlugin_original.c:1221-1510 | a box read into a buffer of the reported size succeeds and writes exactly that size |
| PropertyLaws.DeviceDataAgreesWithSize | Sources/VocanaAudioServerPlugin/VocanaAudioServerPlugin_original.c:1708-2137 | a device read into a buffer of the reported size succeeds and writes exactly that size |
| PropertyLaws.StreamDataAgreesWithSize | Sources/VocanaAudioServerPlugin/VocanaAudioServerPlugin_original.c:2255-2475 | a stream read into a buffer of the reported size succeeds and writes exactly that size |
| PropertyLaws.GetAgreesWithReportedSize | Sources/VocanaAudioServerPlugin/VocanaAudioServerPlugin_original.c:539-624 | a read that uses GetPropertyDataSize's answer as its buffer size always succeeds and writes exactly that many bytes |
| PropertyLaws.GetFailsOnlyOnShortBuffer | Sources/VocanaAudioServerPlugin/VocanaAudioServerPlugin_original.c:582-624 | a read of an existing property fails only with BadPropertySize, and only for a short buffer or a malformed translation qualifier |
| PropertyLaws.ShortBufferRefused | Sources/VocanaAudioServerPlugin/VocanaAudioServerPlugin_original.c:2079-2086 | any non-list read into a buffer smaller than the reported size is refused with BadPropertySize (ResourceBundle with the corrected guard, see Findings) |
| PropertyLaws.ListsAreClampedPrefixes | Sources/VocanaAudioServerPlugin/VocanaAudioServerPlugin_original.c:959-1049 | OwnedObjects, DeviceList, BoxList and Streams write the first min(size / 4, N) ids and report 4 bytes per id |
| PropertyLaws.TableSizes | Sources/VocanaAudioServerPlugin/VocanaAudioServerPlugin_original.c:1818-1819 | AvailableSampleRates reports 6 × 16 bytes, the format lists 6 × 56, the two-object lists 8 |
| PropertyLaws.DeviceRateAnswers | Sources/VocanaAudioServerPlugin/VocanaAudioServerPlugin_original.c:2079-2098 | NominalSampleRate reads the device's current rate, reporting 8 bytes, into any buffer of at least 8 bytes; AvailableSampleRates reads one single-point range per table rate, in order, reporting 96 bytes, into any buffer of at least 96 bytes |
| PropertyLaws.StreamFormatAnswers | Sources/VocanaAudioServerPlugin/VocanaAudioServerPlugin_original.c:2427-2466 | on either stream, VirtualFormat and PhysicalFormat both read the format at the device's current rate, reporting 40 bytes, into any buffer of at least 40 bytes; both available-format lists read one ranged format per table rate, in order, reporting 336 bytes, into any buffer of at least 336 bytes |
| PropertyLaws.DeviceUIDRoundTrip | Sources/VocanaAudioServerPlugin/VocanaAudioServerPlugin_original.c:1051-1070 | the device's UID translates back to the device; any other string translates to the unknown object, successfully; a qualifier that is not a CFStringRef, or a buffer under 4 bytes, is BadPropertySize |
| PropertyLaws.BoxUIDRoundTrip | Sources/VocanaAudioServerPlugin/VocanaAudioServerPlugin_original.c:1008-1027 | the box's UID translates back to the box; any other string translates to the unknown object, successfully; a qualifier that is not a CFStringRef, or a buffer under 4 bytes, is BadPropertySize |
| PropertyLaws.OwnershipTree | Sources/VocanaAudioServerPlugin/VocanaAudioServerPlugin_original.c:959-1006 | the plug-in has no owner and owns the box and device; the box owns the device and lists it; the device owns both streams; each object's owner lists it |
| PropertyLaws.ClassIdentifiesKind | Sources/VocanaAudioServerPlugin/VocanaAudioServerPlugin_original.c:931-935 | every published object reports the base object class and its own kind's class id |
| PropertyLaws.FormatLayout | Sources/VocanaAudioServerPlugin/VocanaAudioServerPlugin_original.c:2445-2466 | the stream format is packed float, with bytes per frame = channels × bits / 8 and one frame per packet |
| PropertyLaws.CurrentFormatIsAdvertised | Sources/VocanaAudioServerPlugin/VocanaAudioServerPlugin_original.c:2079-2098 | at a supported rate, the nominal rate is one of the advertised ranges and the current format one of the advertised formats, at the same index |
| PropertyLaws.AdvertisedRatesAscending | Sources/VocanaAudioServerPlugin/VocanaAudioServerPlugin_original.c:2088-2098 | the advertised ranges are degenerate and strictly increasing |
| PropertyLaws.StreamsDifferOnlyInDirection | Sources/VocanaAudioServerPlugin/VocanaAudioServerPlugin_original.c:2334-2475 | the two streams answer identically except for Direction (input 1, output 0) and IsActive |
| PropertySet.BoxSet | Sources/VocanaAudioServerPlugin/VocanaAudioServerPlugin_original.c:1512-1591 | a write succeeds exactly for a settable selector with the exact size and a data pointer; a wrong size is BadPropertySize, then a NULL data pointer IllegalOperation, an unsettable selector UnknownProperty; on success exactly that address is reported changed; on failure nothing changes; only Name touches the name and only Acquired the flag |
| PropertySet.SetPropertyData | Sources/VocanaAudioServerPlugin/VocanaAudioServerPlugin_original.c:626-672 | a foreign driver or unpublished object is BadObject, a NULL address IllegalOperation; only properties reported settable are written; a failed write changes nothing and reports nothing; a successful one reports exactly its selector at global scope and the main element |
| PropertySet.SettableAcceptsWrite | Sources/VocanaAudioServerPlugin/VocanaAudioServerPlugin_original.c:1185-1215 | every property reported settable accepts a correctly sized write |
| PropertySet.NameWriteThenRead | Sources/VocanaAudioServerPlugin/VocanaAudioServerPlugin_original.c:1534-1555 | a box name write reports Name changed, and a later read returns the handle written |
| PropertySet.AcquiredWriteThenRead | Sources/VocanaAudioServerPlugin/VocanaAudioServerPlugin_original.c:1569-1582 | an Acquired write stores data ≠ 0, and a later read returns 1 or 0 |
| PropertySet.IdentifyChangesNothing | Sources/VocanaAudioServerPlugin/VocanaAudioServerPlugin_original.c:1557-1567 | an Identify write is accepted and announced but leaves the state as it was |
| PropertySet.SetPreservesValidState | Sources/VocanaAudioServerPlugin/VocanaAudioServerPlugin_original.c:626-672 | no write moves the sample rate out of the table |
| PropertySet.SetIdempotent | Sources/VocanaAudioServerPlugin/VocanaAudioServerPlugin_original.c:1532-1587 | repeating a write leaves the state as the first write left it |
| Driver.Create | Sources/VocanaAudioServerPlugin/VocanaAudioServerPlugin_original.c:181-190 | the factory returns the driver exactly for the plug-in type UUID |
| Driver.AddRefCount | Sources/VocanaAudioServerPlugin/VocanaAudioServerPlugin_original.c:232-253 | the count goes up by one, except that it stays put exactly at UINT32_MAX |
| Driver.ReleaseCount | Sources/VocanaAudioServerPlugin/VocanaAudioServerPlugin_original.c:255-279 | the count goes down by one, except that it stays put exactly at zero |
| Driver.ReleaseUndoesAddRef | Sources/VocanaAudioServerPlugin/VocanaAudioServerPlugin_original.c:232-279 | below the maximum, Release undoes AddRef |
| Driver.AddRefUndoesRelease | Sources/VocanaAudioServerPlugin/VocanaAudioServerPlugin_original.c:232-279 | above zero, AddRef undoes Release |
| Driver.QueryInterfaceCountWraps | Sources/VocanaAudioServerPlugin/VocanaAudioServerPlugin_original.c:216 | the increment as written agrees with AddRef below the maximum and wraps to zero at it |
| Driver.QueryInterfaceCountAsWritten | Sources/VocanaAudioServerPlugin/VocanaAudioServerPlugin_original.c:216 | the increment as written adds one below UINT32_MAX and gives 0 at it |
| Driver.InitialBoxName | Sources/VocanaAudioServerPlugin/VocanaAudioServerPlugin_original.c:285-321 | after Initialize there is always a box name: the old one if set, else "Vocana Box" |
| Driver.PlugIn.constructor | Sources/VocanaAudioServerPlugin/VocanaAudioServerPlugin_original.c:69-97 | the globals start at count 0, no host, no box name, acquired, 48000 Hz, not running, both streams active |
| Driver.PlugIn.QueryInterface | Sources/VocanaAudioServerPlugin/VocanaAudioServerPlugin_original.c:196-230 | the driver is handed out exactly for IUnknown and the driver interface, counting one reference with the saturating, corrected count (see Findings); a foreign driver is BadObject; a missing out pointer is IllegalOperation; nothing else changes |
| Driver.PlugIn.AddRef | Sources/VocanaAudioServerPlugin/VocanaAudioServerPlugin_original.c:232-253 | the count saturates upward and is returned; a foreign driver gets 0 and nothing changes |
| Driver.PlugIn.Release | Sources/VocanaAudioServerPlugin/VocanaAudioServerPlugin_original.c:255-279 | the count floors at zero and is returned; a foreign driver gets 0 and nothing changes |
| Driver.PlugIn.Initialize | Sources/VocanaAudioServerPlugin/VocanaAudioServerPlugin_original.c:285-321 | the host is stored and a default box name installed; a foreign driver is BadObject and nothing changes |
| Driver.PlugIn.SetPropertyData | Sources/VocanaAudioServerPlugin/VocanaAudioServerPlugin_original.c:626-672 | the new globals and status are those of the write; the host is notified exactly when addresses changed, with their count and list |
| Driver.DeviceNeverRunning | Sources/VocanaAudioServerPlugin/VocanaAudioServerPlugin_original.c:2013-2020 | with the IO counter at its initial zero, the device reports that it is not running |
| IOOperations.CreateDevice | Sources/VocanaAudioServerPlugin/VocanaAudioServerPlugin_original.c:323-340 | never succeeds: BadObject exactly for a foreign driver, UnsupportedOperation for this driver |
| IOOperations.DestroyDevice | Sources/VocanaAudioServerPlugin/VocanaAudioServerPlugin_original.c:342-358 | never succeeds: BadObject exactly for a foreign driver, UnsupportedOperation for this driver |
| IOOperations.AddDeviceClient | Sources/VocanaAudioServerPlugin/VocanaAudioServerPlugin_original.c:360-378 | succeeds exactly for this driver and its device, else BadObject |
| IOOperations.RemoveDeviceClient | Sources/VocanaAudioServerPlugin/VocanaAudioServerPlugin_original.c:380-397 | succeeds exactly for this driver and its device, else BadObject |
| IOOperations.PerformDeviceConfigurationChange | Sources/VocanaAudioServerPlugin/VocanaAudioServerPlugin_original.c:399-431 | never succeeds; UnsupportedOperation exactly for this driver and its device, BadObject otherwise |
| IOOperations.AbortDeviceConfigurationChange | Sources/VocanaAudioServerPlugin/VocanaAudioServerPlugin_original.c:433-451 | succeeds exactly for this driver and its device, else BadObject |
| IOOperations.StartIO | Sources/VocanaAudioServerPlugin/VocanaAudioServerPlugin_original.c:678-686 | succeeds exactly for this driver and its device, else BadObject |
| IOOperations.StopIO | Sources/VocanaAudioServerPlugin/VocanaAudioServerPlugin_original.c:688-696 | succeeds exactly for this driver and its device, else BadObject |
| IOOperations.GetZeroTimeStamp | Sources/VocanaAudioServerPlugin/VocanaAudioServerPlugin_original.c:698-714 | succeeds exactly for this driver, its device and three out pointers, with sample time 0, host time now and seed 1; a missing pointer is IllegalOperation |
| IOOperations.WillDoIOOperation | Sources/VocanaAudioServerPlugin/VocanaAudioServerPlugin_original.c:716-730 | succeeds exactly for this driver, its device and both out pointers, answering "will do, in place"; a foreign driver or device is BadObject, a missing pointer IllegalOperation |
| IOOperations.BeginIOOperation | Sources/VocanaAudioServerPlugin/VocanaAudioServerPlugin_original.c:732-740 | succeeds exactly for this driver and its device, else BadObject |
| IOOperations.DoIOOperation | Sources/VocanaAudioServerPlugin/VocanaAudioServerPlugin_original.c:742-751 | succeeds exactly for this driver, its device and one of its two streams, else BadObject |
| IOOperations.EndIOOperation | Sources/VocanaAudioServerPlugin/VocanaAudioServerPlugin_original.c:753-761 | succeeds exactly for this driver and its device, else BadObject |
| IOOperations.IOCycleAgrees | Sources/VocanaAudioServerPlugin/VocanaAudioServerPlugin_original.c:678-761 | within one IO cycle every step is accepted exactly when StartIO is |
| MinimalPlugin.PlugInRecord.constructor | Sources/VocanaAudioServerPlugin/VocanaAudioServerPlugin.c:33-40 | a new record has no host and a 48000 Hz rate |
| MinimalPlugin.Factory | Sources/VocanaAudioServerPlugin/VocanaAudioServerPlugin.c:25-45 | a fresh record exactly for the plug-in type UUID when allocation succeeds, NULL otherwise |
| MinimalPlugin.QueryInterface | Sources/VocanaAudioServerPlugin/VocanaAudioServerPlugin.c:47-60 | E_POINTER exactly for a NULL driver or out pointer; S_OK exactly for the driver interface and IUnknown |
| MinimalPlugin.Initialize | Sources/VocanaAudioServerPlugin/VocanaAudioServerPlugin.c:65-75 | succeeds and stores the host exactly when record and host are non-NULL; otherwise BadObject and nothing changes |
| MinimalPlugin.CreateDevice | Sources/VocanaAudioServerPlugin/VocanaAudioServerPlugin.c:77-87 | hands out device 2 exactly when the driver and out pointer are present, else BadObject |
| MinimalPlugin.HasProperty | Sources/VocanaAudioServerPlugin/VocanaAudioServerPlugin.c:112-132 | true exactly for object 2 with one of its seven selectors, given a driver and an address |
| MinimalPlugin.IsPropertySettable | Sources/VocanaAudioServerPlugin/VocanaAudioServerPlugin.c:134-141 | succeeds, answering not settable, exactly when the out pointer is present and the property exists; a NULL driver or out pointer is BadObject, a missing property UnknownProperty |
| MinimalPlugin.GetPropertyDataSize | Sources/VocanaAudioServerPlugin/VocanaAudioServerPlugin.c:143-176 | succeeds exactly when the out pointer is present and the property exists; a NULL driver or out pointer is BadObject, a missing property UnknownProperty; the UID and the rate are 8 bytes, the flags, latency and safety offset 4, OwnedObjects 0 |
| MinimalPlugin.SizeIsValueWidth | Sources/VocanaAudioServerPlugin/VocanaAudioServerPlugin.c:143-227 | the size reported for each device property is the byte width of the value GetPropertyData writes for it |
| MinimalPlugin.GetPropertyDataAsWritten | Sources/VocanaAudioServerPlugin/VocanaAudioServerPlugin.c:178-227 | succeeds for every existing property whatever the buffer size, writing the reported size |
| MinimalPlugin.GetPropertyData | Sources/VocanaAudioServerPlugin/VocanaAudioServerPlugin.c:178-227 | succeeds exactly when the property exists and the buffer holds its reported size; the UID is "com.vocana.VirtualDevice", alive and running are 1, latency and safety offset 0, the rate the stored one |
| MinimalPlugin.AsWrittenOverrunsBuffer | Sources/VocanaAudioServerPlugin/VocanaAudioServerPlugin.c:192-196 | with an empty buffer the as-written read of the UID writes 8 bytes; the checked read refuses |
| MinimalPlugin.CheckedAgreesWhenSized | Sources/VocanaAudioServerPlugin/VocanaAudioServerPlugin.c:178-227 | for a buffer of the reported size, the checked read answers exactly as the code does |
| MinimalPlugin.GetZeroTimeStamp | Sources/VocanaAudioServerPlugin/VocanaAudioServerPlugin.c:243-250 | succeeds exactly when all three out pointers are present, with sample time 0, host time now and seed 1; else BadObject |
| MinimalPlugin.WillDoIOOperation | Sources/VocanaAudioServerPlugin/VocanaAudioServerPlugin.c:252-257 | succeeds exactly when both out pointers are present, answering "will do, in place"; else BadObject |
| MinimalPlugin.StubsAcceptEverything | Sources/VocanaAudioServerPlugin/VocanaAudioServerPlugin.c:62-63 | AddRef and Release answer 1; every write, lifecycle and IO call succeeds for any object id |

## Behaviour of the code worth knowing

The model follows the code in each of these places.

- StartIO and StopIO never change the IO-running counter. The device's
  DeviceIsRunning property therefore always reads 0 (`Driver.DeviceNeverRunning`).
- The fuller revision's device does not answer SafetyOffset. The minimal
  revision's device does.
- The two revisions publish different device UIDs: "Vocana_UID" in the
  fuller one, "com.vocana.VirtualDevice" in the minimal one.
- The device reports the box as its owner. The box's own OwnedObjects list is
  empty, and the device appears only in the box's device list.
- AddDeviceClient does not count clients, DoIOOperation does not bound the
  frame count, WillDoIOOperation answers "will do, in place" for every
  operation, and AbortDeviceConfigurationChange succeeds.

## Left out

- Mutexes and concurrency: every entry point is modelled as one atomic step
  over the globals.
- CFRetain and CFRelease, and the lifetime of CFString handles: a handle is
  modelled by the string it names.
- Floating point. Sample rates are whole Hz. `IsValidSampleRate` compares a
  `real` with each table entry. The ZeroTimeStampPeriod value is recorded as
  the reciprocal of the rate, not computed.
- The mach timebase, the host-ticks-per-frame computation in Initialize and
  `mach_absolute_time`: the current host time is a parameter `now`.
- The host's PropertiesChanged callback itself: `Driver.PlugIn.SetPropertyData`
  returns the notification it would deliver. The call is made even when no
  host was ever stored; that NULL dereference is not modelled.
- The COM vtable construction, the dummy `main`, logging, and the CFUUID
  creation and release in QueryInterface (its failure is the `uuidCreated` flag).
- The minimal revision's cast of the interface id straight to a CFUUIDRef: the
  requested interface is a plain `Uuid`.
- The minimal revision's global record pointer and the record's mutex.
- The fuller revision's unused globals (requested rate, ring buffer size,
  timestamp anchors, volume and mute values) and the ids 6-12, which no
  handler answers for.
- The per-kind handlers' own checks for a NULL driver, a wrong object id or
  a missing out pointer: the dispatcher has already made them, so those
  branches cannot be reached and are not modelled.
- The DriverKit variants, the ML runtime bridge header, the model conversion
  script and the second header under `include/`, all outside the HAL
  plug-in's C code.
- Driver.PlugIn.QueryInterface: counts with the saturating `AddRefCount`
  (see Findings), so it does not capture the wrap to 0 at UINT32_MAX that
  the code's unguarded increment performs; `Driver.QueryInterfaceCountAsWritten`
  models that.
- PropertyData.PlugInData: uses the ResourceBundle guard sized for a
  CFStringRef (see Findings), so it does not capture the code's 8-byte write
  into a 4-7-byte buffer; `PropertyData.ResourceBundleAsWritten` models that.
- PropertyData.GetPropertyData: reads the plug-in through `PlugInData`, so it
  shares that corrected ResourceBundle guard.
- PropertyLaws.ShortBufferRefused: stated over the corrected ResourceBundle
  guard; as written, a 4-7-byte ResourceBundle read is not refused.
- MinimalPlugin's stub entry points (AddRef, Release, DestroyDevice,
  AddDeviceClient, RemoveDeviceClient, the configuration changes,
  SetPropertyData, StartIO, StopIO and Begin/Do/EndIOOperation) have no
  contracts of their own; `MinimalPlugin.StubsAcceptEverything` states their
  constant answers.

## Findings

| source | as written | input that shows it | evidently intended | confidence | as-written member | corrected member |
|---|---|---|---|---|---|---|
| Sources/VocanaAudioServerPlugin/VocanaAudioServerPlugin_original.c:1076 | the ResourceBundle guard compares the buffer with sizeof(AudioObjectID), 4 bytes, and then writes a CFStringRef, 8 bytes | GetPropertyData of the plug-in's ResourceBundle with inDataSize 4 succeeds and writes 8 bytes | the guard compares with sizeof(CFStringRef), like every other CFStringRef property | high, not executed | PropertyData.ResourceBundleAsWritten (exhibited by PropertyData.ResourceBundleAsWrittenOverruns) | PropertyData.ResourceBundleData |
| Sources/VocanaAudioServerPlugin/VocanaAudioServerPlugin_original.c:216 | QueryInterface increments the reference count with no upper guard, while AddRef saturates at UINT32_MAX | QueryInterface for IUnknown with the count at 4294967295 leaves it at 0 | the same saturating increment AddRef uses | low (needs 2^32 references), not executed | Driver.QueryInterfaceCountAsWritten (exhibited by Driver.QueryInterfaceCountWraps) | Driver.AddRefCount, used by Driver.PlugIn.QueryInterface |
| Sources/VocanaAudioServerPlugin/VocanaAudioServerPlugin.c:178-227 | the minimal GetPropertyData never compares inDataSize with the size it writes | GetPropertyData of device 2's DeviceUID with inDataSize 0 writes 8 bytes | each datum is refused with BadPropertySize when the buffer is too small, as the fuller revision does | medium, not executed | MinimalPlugin.GetPropertyDataAsWritten (exhibited by MinimalPlugin.AsWrittenOverrunsBuffer) | MinimalPlugin.GetPropertyData |
