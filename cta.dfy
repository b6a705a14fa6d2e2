/**
 * The CTA-861 half of the binding: the `CTA` handle, its data blocks, the
 * data-block tag, and the typed records the `FFIFrom` conversions build
 * for short audio descriptors, the VESA display device block, the HDR
 * static metadata block and the HDMI vendor-specific block.
 */
module Cta {
  import opened Wrappers
  import opened CTypes
  import opened Ffi
  import opened Lib
  import opened Expanded
  import Edid

  // ---------------------------------------------------------------------
  // The CTA handle
  // ---------------------------------------------------------------------

  /** The lists a `di_edid_cta` hands out are NULL-terminated. */
  predicate WellFormed(c: CCta) {
    NullTerminated(c.dataBlocks) && NullTerminated(c.detailedTimingDefs)
  }

  /** `CTA`: a handle on a CTA-861 extension block. */
  datatype Cta = Cta(c: CCta) {

    /** `data_blocks`: the entries before the first NULL, every one non-NULL. */
    method DataBlocks() returns (blocks: seq<DataBlockRef>)
      requires WellFormed(c)
      ensures |blocks| == FirstNull(c.dataBlocks)
      ensures forall i :: 0 <= i < |blocks| ==> c.dataBlocks[i] == Some(blocks[i].c)
    {
      var len := NullTerminatedLen(c.dataBlocks);
      blocks := seq(len, i requires 0 <= i < len => DataBlockRef(c.dataBlocks[i].value));
    }

    /** `detailed_timing_defs`: an iterator over the converted definitions. */
    method DetailedTimingDefs() returns (it: FfiIter<RawDetailedTimingDef, Edid.DetailedTimingDef>)
      requires WellFormed(c)
      ensures fresh(it) && it.Valid()
      ensures it.Remaining() == MapSeq(Edid.DetailedTimingDefFrom, NonNullPrefix(c.detailedTimingDefs))
    {
      it := new FfiIter(Some(c.detailedTimingDefs), Edid.DetailedTimingDefFrom);
    }
  }

  /** `CTA::from_extension`: `None` exactly when the block is not a CTA block (the C getter returns NULL). */
  function FromExtension(ext: Edid.ExtensionRef): (cta: Option<Cta>)
    ensures cta.None? <==> ext.c.cta.None?
    ensures cta.Some? ==> cta.value.c == ext.c.cta.value
  {
    if ext.c.cta.None? then None else Some(Cta(ext.c.cta.value))
  }

  /**
   * `VideoFormat::from_vic`: `None` exactly when the library's VIC table
   * (`lookup`) has no entry; otherwise the entry, converted field for field.
   */
  function VideoFormatFromVic(lookup: u8 -> Option<VideoFormat>, vic: u8): (f: Option<VideoFormat>)
    ensures f.None? <==> lookup(vic).None?
    ensures f.Some? ==> f.value == lookup(vic).value
  {
    var p := lookup(vic);
    if p.None? then None else Some(p.value)
  }

  // ---------------------------------------------------------------------
  // Data block tags
  // ---------------------------------------------------------------------

  /** `DataBlockTag`: 27 variants and no `#[other]` variant. */
  datatype DataBlockTag =
    | Audio | Video | SpeakerAlloc | VesaDisplayTransferCharacteristic | VideoFormat
    | VideoCap | VesaDisplayDevice | Colorimetry | HdrStaticMetadata | HdrDynamicMetadata
    | NativeVideoResolution | VideoFormatPref | Ycbcr420 | Ycbcr420CapMap | HdmiAudio
    | RoomConfig | SpeakerLocation | Infoframe | DisplayidVideoTimingVii
    | DisplayidVideoTimingViii | DisplayidVideoTimingX | HdmiEdidExtOverride | HdmiSinkCap
    | VendorHdmi | DolbyVideo | HDR10Plus | VendorHdmiForum

  const TAG_COUNT: nat := 27

  /** The position of a variant in the declaration. */
  function TagIndex(t: DataBlockTag): (i: nat)
    ensures i < TAG_COUNT
  {
    match t
    case Audio => 0 case Video => 1 case SpeakerAlloc => 2
    case VesaDisplayTransferCharacteristic => 3 case VideoFormat => 4 case VideoCap => 5
    case VesaDisplayDevice => 6 case Colorimetry => 7 case HdrStaticMetadata => 8
    case HdrDynamicMetadata => 9 case NativeVideoResolution => 10 case VideoFormatPref => 11
    case Ycbcr420 => 12 case Ycbcr420CapMap => 13 case HdmiAudio => 14 case RoomConfig => 15
    case SpeakerLocation => 16 case Infoframe => 17 case DisplayidVideoTimingVii => 18
    case DisplayidVideoTimingViii => 19 case DisplayidVideoTimingX => 20
    case HdmiEdidExtOverride => 21 case HdmiSinkCap => 22 case VendorHdmi => 23
    case DolbyVideo => 24 case HDR10Plus => 25 case VendorHdmiForum => 26
  }

  /** The variant declared at position `i`. */
  function TagAt(i: nat): (t: DataBlockTag)
    requires i < TAG_COUNT
    ensures TagIndex(t) == i
  {
    [Audio, Video, SpeakerAlloc, VesaDisplayTransferCharacteristic, DataBlockTag.VideoFormat,
     VideoCap, VesaDisplayDevice, Colorimetry, HdrStaticMetadata, HdrDynamicMetadata,
     NativeVideoResolution, VideoFormatPref, Ycbcr420, Ycbcr420CapMap, HdmiAudio,
     RoomConfig, SpeakerLocation, Infoframe, DisplayidVideoTimingVii,
     DisplayidVideoTimingViii, DisplayidVideoTimingX, HdmiEdidExtOverride, HdmiSinkCap,
     VendorHdmi, DolbyVideo, HDR10Plus, VendorHdmiForum][i]
  }

  predicate Distinct(s: seq<u32>) {
    forall i, j :: 0 <= i < j < |s| ==> s[i] != s[j]
  }

  /**
   * The values of the `DI_CTA_DATA_BLOCK_*` constants, in declaration
   * order: 27 distinct C enumerators.
   */
  type TagValues = s: seq<u32> | |s| == TAG_COUNT && Distinct(s) witness seq(27, i => i)

  /** The `di_cta_data_block_tag` value of a variant. */
  function DataBlockTagValue(values: TagValues, t: DataBlockTag): u32 {
    values[TagIndex(t)]
  }

  /** The position of `x` in `s`. */
  function IndexOf(s: seq<u32>, x: u32): (i: nat)
    requires x in s
    ensures i < |s| && s[i] == x
  {
    if s[0] == x then 0 else 1 + IndexOf(s[1..], x)
  }

  /**
   * `DataBlockTag::from`. There is no `#[other]` variant, so a value that
   * is none of the constants reaches `unreachable!()`: it is excluded here.
   */
  function DataBlockTagFrom(values: TagValues, raw: u32): (t: DataBlockTag)
    requires raw in values
    ensures DataBlockTagValue(values, t) == raw
  {
    TagAt(IndexOf(values, raw))
  }

  /** Every variant is the conversion of its own value: the conversion is one-to-one and onto. */
  lemma DataBlockTagRoundTrip(values: TagValues, t: DataBlockTag)
    ensures DataBlockTagValue(values, t) in values
    ensures DataBlockTagFrom(values, DataBlockTagValue(values, t)) == t
  {
    var i := TagIndex(t);
    var j := IndexOf(values, values[i]);
    assert values[j] == values[i];
    assert TagAt(i) == t by {
      assert TagIndex(TagAt(i)) == TagIndex(t);
      TagIndexInjective(TagAt(i), t);
    }
  }

  lemma TagIndexInjective(s: DataBlockTag, t: DataBlockTag)
    requires TagIndex(s) == TagIndex(t)
    ensures s == t
  {
  }

  /** Two raw tags convert to the same variant only when they are equal. */
  lemma DataBlockTagInjective(values: TagValues, a: u32, b: u32)
    requires a in values && b in values
    requires DataBlockTagFrom(values, a) == DataBlockTagFrom(values, b)
    ensures a == b
  {
  }

  // ---------------------------------------------------------------------
  // Short audio descriptors
  // ---------------------------------------------------------------------

  datatype Sad = Sad(
    format: u32,
    maxChannels: Option<i32>,
    supportedSampleRates: Option<SadSampleRates>,
    maxBitrateKbs: Option<i32>,
    lpcm: Option<SadLpcm>,
    mpegh3d: Option<SadMpegh3d>,
    mpegAac: Option<SadMpegAac>,
    mpegSurround: Option<SadMpegSurround>,
    mpegAacLe: Option<SadMpegAacLe>,
    enhancedAc3: Option<SadEnhancedAc3>,
    mat: Option<SadMat>,
    wmaPro: Option<SadWmaPro>)

  /**
   * `Sad::from`: `max_channels` and `max_bitrate_kbs` are absent when 0,
   * each format-specific record exactly when its pointer is NULL.
   */
  function SadFrom(raw: RawSad): (s: Sad)
    ensures s.maxChannels.None? <==> raw.maxChannels == 0
    ensures s.maxChannels.Some? ==> s.maxChannels.value == raw.maxChannels
    ensures s.maxBitrateKbs.None? <==> raw.maxBitrateKbs == 0
    ensures s.maxBitrateKbs.Some? ==> s.maxBitrateKbs.value == raw.maxBitrateKbs
    ensures s.supportedSampleRates.None? <==> raw.supportedSampleRates.None?
    ensures s.supportedSampleRates.Some? ==> s.supportedSampleRates.value == raw.supportedSampleRates.value
    ensures s.lpcm.None? <==> raw.lpcm.None?
    ensures s.lpcm.Some? ==> s.lpcm.value == raw.lpcm.value
    ensures s.mpegh3d.None? <==> raw.mpegh3d.None?
    ensures s.mpegh3d.Some? ==> s.mpegh3d.value == raw.mpegh3d.value
    ensures s.mpegAac.None? <==> raw.mpegAac.None?
    ensures s.mpegAac.Some? ==> s.mpegAac.value == raw.mpegAac.value
    ensures s.mpegSurround.None? <==> raw.mpegSurround.None?
    ensures s.mpegSurround.Some? ==> s.mpegSurround.value == raw.mpegSurround.value
    ensures s.mpegAacLe.None? <==> raw.mpegAacLe.None?
    ensures s.mpegAacLe.Some? ==> s.mpegAacLe.value == raw.mpegAacLe.value
    ensures s.enhancedAc3.None? <==> raw.enhancedAc3.None?
    ensures s.enhancedAc3.Some? ==> s.enhancedAc3.value == raw.enhancedAc3.value
    ensures s.mat.None? <==> raw.mat.None?
    ensures s.mat.Some? ==> s.mat.value == raw.mat.value
    ensures s.wmaPro.None? <==> raw.wmaPro.None?
    ensures s.wmaPro.Some? ==> s.wmaPro.value == raw.wmaPro.value
  {
    Sad(
      raw.format,
      Optional(raw.maxChannels, 0),
      raw.supportedSampleRates,
      Optional(raw.maxBitrateKbs, 0),
      raw.lpcm, raw.mpegh3d, raw.mpegAac, raw.mpegSurround, raw.mpegAacLe,
      raw.enhancedAc3, raw.mat, raw.wmaPro)
  }

  function SadToRaw(s: Sad): RawSad {
    RawSad(
      s.format,
      OrSentinel(s.maxChannels, 0),
      s.supportedSampleRates,
      OrSentinel(s.maxBitrateKbs, 0),
      s.lpcm, s.mpegh3d, s.mpegAac, s.mpegSurround, s.mpegAacLe,
      s.enhancedAc3, s.mat, s.wmaPro)
  }

  /** The conversion loses nothing. */
  lemma SadLossless(raw: RawSad)
    ensures SadToRaw(SadFrom(raw)) == raw
  {
  }

  // ---------------------------------------------------------------------
  // VESA display device block
  // ---------------------------------------------------------------------

  datatype VesaDisplayDeviceBlock = VesaDisplayDeviceBlock(
    interfaceType: u32,
    numChannels: Option<i32>,
    interfaceVersion: i32,
    interfaceRelease: i32,
    contentProtection: u32,
    minClockFreqMhz: i32,
    maxClockFreqMhz: i32,
    nativeHorizPixels: i32,
    nativeVertPixels: i32,
    aspectRatio: F32,
    defaultOrientation: u32,
    rotationCap: u32,
    zeroPixelLocation: u32,
    scanDirection: u32,
    subpixelLayout: u32,
    horizPitchMm: F32,
    vertPitchMm: F32,
    ditheringType: u32,
    directDrive: bool,
    overdriveNotRecommended: bool,
    deinterlacing: bool,
    audioSupport: bool,
    separateAudioInputs: bool,
    audioInputOverride: bool,
    audioDelayProvided: bool,
    audioDelayMs: i32,
    frameRateConversion: u32,
    frameRateRangeHz: Option<i32>,
    frameRateNativeHz: i32,
    bitDepthInterface: i32,
    bitDepthDisplay: i32,
    additionalPrimaryChromaticitiesLen: usize,
    additionalPrimaryChromaticities: Chromaticities3,
    respTimeTransition: u32,
    respTimeMs: i32,
    overscanHorizPct: i32,
    overscanVertPct: i32)

  /** The array field's element-by-element copy: all three entries, whatever the length field says. */
  function ChromaticitiesFrom(raw: Chromaticities3): (c: Chromaticities3)
    ensures forall i :: 0 <= i < 3 ==> c[i] == raw[i]
  {
    [raw[0], raw[1], raw[2]]
  }

  /**
   * `VesaDisplayDeviceBlock::from`: `num_channels` and `frame_rate_range_hz`
   * are absent when 0; the three chromaticities are copied whole and their
   * length field passed through, not used to truncate them.
   */
  function VesaDisplayDeviceBlockFrom(raw: RawVesaDisplayDeviceBlock): (b: VesaDisplayDeviceBlock)
    ensures b.numChannels.None? <==> raw.numChannels == 0
    ensures b.numChannels.Some? ==> b.numChannels.value == raw.numChannels
    ensures b.frameRateRangeHz.None? <==> raw.frameRateRangeHz == 0
    ensures b.frameRateRangeHz.Some? ==> b.frameRateRangeHz.value == raw.frameRateRangeHz
    ensures b.additionalPrimaryChromaticitiesLen == raw.additionalPrimaryChromaticitiesLen
    ensures |b.additionalPrimaryChromaticities| == 3
    ensures forall i :: 0 <= i < 3 ==> b.additionalPrimaryChromaticities[i] == raw.additionalPrimaryChromaticities[i]
  {
    VesaDisplayDeviceBlock(
      raw.interfaceType,
      Optional(raw.numChannels, 0),
      raw.interfaceVersion, raw.interfaceRelease, raw.contentProtection,
      raw.minClockFreqMhz, raw.maxClockFreqMhz, raw.nativeHorizPixels, raw.nativeVertPixels,
      raw.aspectRatio, raw.defaultOrientation, raw.rotationCap, raw.zeroPixelLocation,
      raw.scanDirection, raw.subpixelLayout, raw.horizPitchMm, raw.vertPitchMm,
      raw.ditheringType, raw.directDrive, raw.overdriveNotRecommended, raw.deinterlacing,
      raw.audioSupport, raw.separateAudioInputs, raw.audioInputOverride, raw.audioDelayProvided,
      raw.audioDelayMs, raw.frameRateConversion,
      Optional(raw.frameRateRangeHz, 0),
      raw.frameRateNativeHz, raw.bitDepthInterface, raw.bitDepthDisplay,
      raw.additionalPrimaryChromaticitiesLen,
      ChromaticitiesFrom(raw.additionalPrimaryChromaticities),
      raw.respTimeTransition, raw.respTimeMs, raw.overscanHorizPct, raw.overscanVertPct)
  }

  function VesaDisplayDeviceBlockToRaw(b: VesaDisplayDeviceBlock): RawVesaDisplayDeviceBlock {
    RawVesaDisplayDeviceBlock(
      b.interfaceType,
      OrSentinel(b.numChannels, 0),
      b.interfaceVersion, b.interfaceRelease, b.contentProtection,
      b.minClockFreqMhz, b.maxClockFreqMhz, b.nativeHorizPixels, b.nativeVertPixels,
      b.aspectRatio, b.defaultOrientation, b.rotationCap, b.zeroPixelLocation,
      b.scanDirection, b.subpixelLayout, b.horizPitchMm, b.vertPitchMm,
      b.ditheringType, b.directDrive, b.overdriveNotRecommended, b.deinterlacing,
      b.audioSupport, b.separateAudioInputs, b.audioInputOverride, b.audioDelayProvided,
      b.audioDelayMs, b.frameRateConversion,
      OrSentinel(b.frameRateRangeHz, 0),
      b.frameRateNativeHz, b.bitDepthInterface, b.bitDepthDisplay,
      b.additionalPrimaryChromaticitiesLen,
      b.additionalPrimaryChromaticities,
      b.respTimeTransition, b.respTimeMs, b.overscanHorizPct, b.overscanVertPct)
  }

  /** The conversion loses nothing, the float fields and the whole array included. */
  lemma VesaDisplayDeviceBlockLossless(raw: RawVesaDisplayDeviceBlock)
    ensures VesaDisplayDeviceBlockToRaw(VesaDisplayDeviceBlockFrom(raw)) == raw
  {
    var c := ChromaticitiesFrom(raw.additionalPrimaryChromaticities);
    assert c == raw.additionalPrimaryChromaticities;
  }

  // ---------------------------------------------------------------------
  // HDR static metadata block
  // ---------------------------------------------------------------------

  datatype HdrStaticMetadataBlock = HdrStaticMetadataBlock(
    desiredContentMaxLuminance: Option<F32>,
    desiredContentMaxFrameAvgLuminance: Option<F32>,
    desiredContentMinLuminance: Option<F32>,
    eotfs: Option<HdrStaticMetadataEotfs>,
    descriptors: Option<HdrStaticMetadataDescriptors>)

  /**
   * `HdrStaticMetadataBlock::from`: each luminance is absent when it
   * `== 0f32`; `eotfs` and `descriptors` exactly when their pointers are NULL.
   */
  function HdrStaticMetadataBlockFrom(raw: RawHdrStaticMetadataBlock): (b: HdrStaticMetadataBlock)
    ensures b.desiredContentMaxLuminance.None? <==> FloatEq(raw.desiredContentMaxLuminance, POSITIVE_ZERO)
    ensures b.desiredContentMaxLuminance.Some? ==> b.desiredContentMaxLuminance.value == raw.desiredContentMaxLuminance
    ensures b.desiredContentMaxFrameAvgLuminance.None? <==> FloatEq(raw.desiredContentMaxFrameAvgLuminance, POSITIVE_ZERO)
    ensures b.desiredContentMaxFrameAvgLuminance.Some? ==>
      b.desiredContentMaxFrameAvgLuminance.value == raw.desiredContentMaxFrameAvgLuminance
    ensures b.desiredContentMinLuminance.None? <==> FloatEq(raw.desiredContentMinLuminance, POSITIVE_ZERO)
    ensures b.desiredContentMinLuminance.Some? ==> b.desiredContentMinLuminance.value == raw.desiredContentMinLuminance
    ensures b.eotfs.None? <==> raw.eotfs.None?
    ensures b.eotfs.Some? ==> b.eotfs.value == raw.eotfs.value
    ensures b.descriptors.None? <==> raw.descriptors.None?
    ensures b.descriptors.Some? ==> b.descriptors.value == raw.descriptors.value
  {
    HdrStaticMetadataBlock(
      OptionalF32(raw.desiredContentMaxLuminance, POSITIVE_ZERO),
      OptionalF32(raw.desiredContentMaxFrameAvgLuminance, POSITIVE_ZERO),
      OptionalF32(raw.desiredContentMinLuminance, POSITIVE_ZERO),
      raw.eotfs,
      raw.descriptors)
  }

  function HdrStaticMetadataBlockToRaw(b: HdrStaticMetadataBlock): RawHdrStaticMetadataBlock {
    RawHdrStaticMetadataBlock(
      OrSentinel(b.desiredContentMaxLuminance, POSITIVE_ZERO),
      OrSentinel(b.desiredContentMaxFrameAvgLuminance, POSITIVE_ZERO),
      OrSentinel(b.desiredContentMinLuminance, POSITIVE_ZERO),
      b.eotfs,
      b.descriptors)
  }

  /** The conversion loses something exactly when a luminance is a negative zero. */
  lemma HdrStaticMetadataBlockLossless(raw: RawHdrStaticMetadataBlock)
    ensures HdrStaticMetadataBlockToRaw(HdrStaticMetadataBlockFrom(raw)) == raw <==>
      && raw.desiredContentMaxLuminance != NEGATIVE_ZERO
      && raw.desiredContentMaxFrameAvgLuminance != NEGATIVE_ZERO
      && raw.desiredContentMinLuminance != NEGATIVE_ZERO
  {
    OptionalZeroLossless(raw.desiredContentMaxLuminance);
    OptionalZeroLossless(raw.desiredContentMaxFrameAvgLuminance);
    OptionalZeroLossless(raw.desiredContentMinLuminance);
  }

  // ---------------------------------------------------------------------
  // HDMI vendor-specific block
  // ---------------------------------------------------------------------

  /** `VendorHdmiBlockRef`: a pointer to the C block, generated by `#[wrap]`. */
  datatype VendorHdmiBlockRef = VendorHdmiBlockRef(c: RawVendorHdmiBlock) {

    /** `inner`: the mirrored fields, converted. */
    function Inner(): VendorHdmiBlock {
      c.fields
    }

    /** `vics`: `slice::from_raw_parts(vics, vics_len)`, exactly `vics_len` bytes. */
    function Vics(): (vics: seq<u8>)
      requires c.vicsLen <= |c.vics|
      ensures |vics| == c.vicsLen
      ensures forall i :: 0 <= i < c.vicsLen ==> vics[i] == c.vics[i]
    {
      c.vics[..c.vicsLen]
    }
  }

  /** `VendorHdmiBlockRef::from_ptr`: `None` exactly for a NULL pointer. */
  function VendorHdmiBlockRefFromPtr(ptr: Option<RawVendorHdmiBlock>): (r: Option<VendorHdmiBlockRef>)
    ensures r.None? <==> ptr.None?
    ensures r.Some? ==> r.value.c == ptr.value
  {
    if ptr.None? then None else Some(VendorHdmiBlockRef(ptr.value))
  }

  // ---------------------------------------------------------------------
  // Data blocks
  // ---------------------------------------------------------------------

  /** `DataBlockRef`: a pointer to a CTA data block. */
  datatype DataBlockRef = DataBlockRef(c: CCtaDataBlock) {

    /** `tag`: defined for the 27 listed values only. */
    function Tag(values: TagValues): (t: DataBlockTag)
      requires c.tag in values
      ensures DataBlockTagValue(values, t) == c.tag
    {
      DataBlockTagFrom(values, c.tag)
    }

    /** `sads`: an iterator over the converted descriptors; empty for a NULL list. */
    method Sads() returns (it: FfiIter<RawSad, Sad>)
      requires c.sads.Some? ==> NullTerminated(c.sads.value)
      ensures fresh(it) && it.Valid()
      ensures c.sads.None? ==> it.Remaining() == []
      ensures c.sads.Some? ==> it.Remaining() == MapSeq(SadFrom, NonNullPrefix(c.sads.value))
    {
      it := new FfiIter(c.sads, SadFrom);
    }

    /** `vesa_display_device`: `None` exactly when the C getter returns NULL. */
    function VesaDisplayDevice(): (b: Option<VesaDisplayDeviceBlock>)
      ensures b.None? <==> c.vesaDisplayDevice.None?
      ensures b.Some? ==> b.value == VesaDisplayDeviceBlockFrom(c.vesaDisplayDevice.value)
    {
      if c.vesaDisplayDevice.None? then None else Some(VesaDisplayDeviceBlockFrom(c.vesaDisplayDevice.value))
    }

    /** `hdr_static_metadata`: `None` exactly when the C getter returns NULL. */
    function HdrStaticMetadata(): (b: Option<HdrStaticMetadataBlock>)
      ensures b.None? <==> c.hdrStaticMetadata.None?
      ensures b.Some? ==> b.value == HdrStaticMetadataBlockFrom(c.hdrStaticMetadata.value)
    {
      if c.hdrStaticMetadata.None? then None else Some(HdrStaticMetadataBlockFrom(c.hdrStaticMetadata.value))
    }

    /** `vendor_hdmi`: `None` exactly when the C getter returns NULL. */
    function VendorHdmi(): (r: Option<VendorHdmiBlockRef>)
      ensures r.None? <==> c.vendorHdmi.None?
      ensures r.Some? ==> r.value.c == c.vendorHdmi.value
    {
      VendorHdmiBlockRefFromPtr(c.vendorHdmi)
    }
  }
}
