/**
 * The Vocana driver's fixed configuration: object ids, identifying strings,
 * channel layout and the table of supported sample rates, together with the
 * table lookup `IsValidSampleRate`.
 */
module VocanaConstants {
  import opened CoreAudio

  // Object ids published by the driver
  const PlugInID: ObjectID := PlugInObject
  const BoxID: ObjectID := 2
  const DeviceID: ObjectID := 3
  const InputStreamID: ObjectID := 4
  const OutputStreamID: ObjectID := 5
  const VolumeInputMasterID: ObjectID := 6
  const MuteInputMasterID: ObjectID := 7
  const VolumeOutputMasterID: ObjectID := 8
  const MuteOutputMasterID: ObjectID := 9
  const PitchAdjustID: ObjectID := 10
  const ClockSourceID: ObjectID := 11
  const Device2ID: ObjectID := 12

  // Identifying strings
  const DriverName: string := "Vocana"
  const PlugInBundleID: string := "com.vocana.VocanaAudioServerPlugin"
  const BoxUIDString: string := DriverName + "_UID"
  const DeviceUIDString: string := DriverName + "_UID"
  const DeviceModelUIDString: string := DriverName + "_ModelUID"
  const DeviceName: string := DriverName
  const ManufacturerName: string := "Vocana Inc."

  // Channel layout of both streams
  const NumberOfChannels: nat := 2
  const CanBeDefault: bool := true
  const CanBeDefaultSystem: bool := true
  const BitsPerChannel: nat := 32
  const BytesPerChannel: nat := BitsPerChannel / 8
  const BytesPerFrame: nat := NumberOfChannels * BytesPerChannel

  /** The supported nominal sample rates, in Hz, in table order. */
  const SampleRates: seq<nat> := [44100, 48000, 88200, 96000, 176400, 192000]
  /** The driver's initial nominal sample rate. */
  const DefaultSampleRate: nat := 48000

  predicate StrictlyAscending(s: seq<nat>) {
    forall i, j :: 0 <= i < j < |s| ==> s[i] < s[j]
  }

  /** The table lookup: does `rate` equal one of the supported rates? */
  method IsValidSampleRate(rate: real) returns (valid: bool)
    ensures valid <==> exists i :: 0 <= i < |SampleRates| && rate == SampleRates[i] as real
  {
    var i := 0;
    while i < |SampleRates|
      invariant 0 <= i <= |SampleRates|
      invariant forall k :: 0 <= k < i ==> rate != SampleRates[k] as real
    {
      if rate == SampleRates[i] as real {
        return true;
      }
      i := i + 1;
    }
    return false;
  }

  /** The table has six distinct rates in increasing order and holds the initial rate. */
  lemma SampleRateTableShape()
    ensures |SampleRates| == 6
    ensures StrictlyAscending(SampleRates)
    ensures DefaultSampleRate in SampleRates
    ensures forall i :: 0 <= i < |SampleRates| ==> SampleRates[i] > 0
  {
  }

  /** A frame of two 32-bit float channels occupies eight bytes. */
  lemma FrameLayout()
    ensures BytesPerChannel == 4
    ensures BytesPerFrame == 8
    ensures BytesPerFrame == NumberOfChannels * BitsPerChannel / 8
  {
  }

  /** The twelve object ids are pairwise distinct; the plug-in is the HAL's plug-in object. */
  lemma ObjectIDsDistinct()
    ensures PlugInID == 1
    ensures var ids := [PlugInID, BoxID, DeviceID, InputStreamID, OutputStreamID, VolumeInputMasterID,
                        MuteInputMasterID, VolumeOutputMasterID, MuteOutputMasterID, PitchAdjustID,
                        ClockSourceID, Device2ID];
            forall i, j :: 0 <= i < j < |ids| ==> ids[i] != ids[j]
  {
  }

  /** The box and the device publish the same UID; the model UID differs from it. */
  lemma UIDStrings()
    ensures BoxUIDString == DeviceUIDString == "Vocana_UID"
    ensures DeviceModelUIDString == "Vocana_ModelUID"
    ensures DeviceModelUIDString != DeviceUIDString
  {
  }
}
