/**
 * What the native library hands back to the binding: the raw C records the
 * conversions read, and the objects (`di_edid`, `di_edid_ext`, ...) whose
 * getters the accessors call. A pointer the C side may leave NULL is an
 * `Option`; a NULL-terminated list of pointers is a `seq<Option<T>>`.
 *
 * Records whose conversion is field-for-field the identity (only `bool`,
 * integer, `f32` and C-enum fields) are declared once here and used as
 * they are by the typed side. Fields of a C enum type are kept as their
 * raw `u32` value.
 */
module Ffi {
  import opened Wrappers
  import opened CTypes

  /** A `[c_char; 3]`. */
  type CChars3 = s: seq<c_char> | |s| == 3 witness [0, 0, 0]

  // ---------------------------------------------------------------------
  // EDID (`di_edid_*`)
  // ---------------------------------------------------------------------

  datatype RawVendorProduct = RawVendorProduct(
    manufacturer: CChars3,
    product: u16,
    serial: u32,
    manufactureWeek: i32,
    manufactureYear: i32,
    modelYear: i32)

  datatype StandardTiming = StandardTiming(horizVideo: i32, aspectRatio: u32, refreshRateHz: i32)

  datatype AnalogComposite = AnalogComposite(syncSerrations: bool, syncOnGreen: bool)
  datatype BipolarAnalogComposite = BipolarAnalogComposite(syncSerrations: bool, syncOnGreen: bool)
  datatype DigitalComposite = DigitalComposite(syncSerrations: bool, syncHorizPolarity: u32)
  datatype DigitalSeparate = DigitalSeparate(syncVertPolarity: u32, syncHorizPolarity: u32)

  datatype RawDetailedTimingDef = RawDetailedTimingDef(
    pixelClockHz: i32,
    horizVideo: i32,
    vertVideo: i32,
    horizBlank: i32,
    vertBlank: i32,
    horizFrontPorch: i32,
    vertFrontPorch: i32,
    horizSyncPulse: i32,
    vertSyncPulse: i32,
    horizImageMm: i32,
    vertImageMm: i32,
    horizBorder: i32,
    vertBorder: i32,
    interlaced: bool,
    stereo: u32,
    signalType: u32,
    analogComposite: Option<AnalogComposite>,
    bipolarAnalogComposite: Option<BipolarAnalogComposite>,
    digitalComposite: Option<DigitalComposite>,
    digitalSeparate: Option<DigitalSeparate>)

  datatype SecondaryGtf = SecondaryGtf(startFreqHz: i32, c: F32, m: F32, k: F32, j: F32)

  datatype RawRangeLimitsCvt = RawRangeLimitsCvt(
    version: i32,
    revision: i32,
    maxHorizPx: i32,
    supportedAspectRatio: u32,
    preferredAspectRatio: u32,
    standardBlanking: bool,
    reducedBlanking: bool,
    supportedScaling: u32,
    preferredVertRefreshHz: i32)

  datatype RawDisplayRangeLimits = RawDisplayRangeLimits(
    minVertRateHz: i32,
    maxVertRateHz: i32,
    minHorizRateHz: i32,
    maxHorizRateHz: i32,
    maxPixelClockHz: i32,
    rangeType: u32,
    secondaryGtf: Option<SecondaryGtf>,
    cvt: Option<RawRangeLimitsCvt>)

  /** A `di_edid_display_descriptor`, by what its getters return. */
  datatype CDisplayDescriptor = CDisplayDescriptor(
    tag: u32,
    rangeLimits: Option<RawDisplayRangeLimits>,
    standardTimings: Option<seq<Option<StandardTiming>>>)

  /** A `di_edid`, by what its getters return. */
  datatype CEdid = CEdid(
    version: i32,
    revision: i32,
    vendorProduct: RawVendorProduct,
    basicGamma: F32,
    standardTimings: seq<Option<StandardTiming>>,
    detailedTimingDefs: seq<Option<RawDetailedTimingDef>>,
    displayDescriptors: seq<Option<CDisplayDescriptor>>,
    extensions: seq<Option<CExtension>>)

  /** A `di_edid_ext`: its tag and what `di_edid_ext_get_cta`/`_get_displayid` return for it. */
  datatype CExtension = CExtension(tag: u32, cta: Option<CCta>, displayId: Option<CDisplayId>)

  // ---------------------------------------------------------------------
  // CTA-861 (`di_cta_*`)
  // ---------------------------------------------------------------------

  /** A `di_edid_cta`, by what its getters return. */
  datatype CCta = CCta(
    revision: i32,
    dataBlocks: seq<Option<CCtaDataBlock>>,
    detailedTimingDefs: seq<Option<RawDetailedTimingDef>>)

  /** A `di_cta_data_block`, by what its getters return. */
  datatype CCtaDataBlock = CCtaDataBlock(
    tag: u32,
    sads: Option<seq<Option<RawSad>>>,
    vesaDisplayDevice: Option<RawVesaDisplayDeviceBlock>,
    hdrStaticMetadata: Option<RawHdrStaticMetadataBlock>,
    vendorHdmi: Option<RawVendorHdmiBlock>)

  datatype VideoFormat = VideoFormat(
    vic: u8,
    hActive: i32,
    vActive: i32,
    hFront: i32,
    vFront: i32,
    hSync: i32,
    vSync: i32,
    hBack: i32,
    vBack: i32,
    hSyncPolarity: u32,
    vSyncPolarity: u32,
    pixelClockHz: i64,
    interlaced: bool,
    pictureAspectRatio: u32)

  datatype SadSampleRates = SadSampleRates(
    has192Khz: bool, has176_4Khz: bool, has96Khz: bool, has88_2Khz: bool,
    has48Khz: bool, has44_1Khz: bool, has32Khz: bool)
  datatype SadLpcm = SadLpcm(has24Bits: bool, has20Bits: bool, has16Bits: bool)
  datatype SadMpegh3d = SadMpegh3d(level: u32, lowComplexityProfile: bool, baselineProfile: bool)
  datatype SadMpegAac = SadMpegAac(hasFrameLength960: bool, hasFrameLength1024: bool)
  datatype SadMpegSurround = SadMpegSurround(signaling: u32)
  datatype SadMpegAacLe = SadMpegAacLe(supportsMultichannelSound: bool)
  datatype SadEnhancedAc3 = SadEnhancedAc3(supportsJointObjectCoding: bool, supportsJointObjectCodingAcmod28: bool)
  datatype SadMat = SadMat(supportsObjectAudioAndChannelBased: bool, requiresHashCalculation: bool)
  datatype SadWmaPro = SadWmaPro(profile: i32)

  datatype RawSad = RawSad(
    format: u32,
    maxChannels: i32,
    supportedSampleRates: Option<SadSampleRates>,
    maxBitrateKbs: i32,
    lpcm: Option<SadLpcm>,
    mpegh3d: Option<SadMpegh3d>,
    mpegAac: Option<SadMpegAac>,
    mpegSurround: Option<SadMpegSurround>,
    mpegAacLe: Option<SadMpegAacLe>,
    enhancedAc3: Option<SadEnhancedAc3>,
    mat: Option<SadMat>,
    wmaPro: Option<SadWmaPro>)

  datatype Chromaticity = Chromaticity(x: F32, y: F32)

  /** A `[di_cta_vesa_display_device_additional_primary_chromaticity; 3]`. */
  type Chromaticities3 = s: seq<Chromaticity> | |s| == 3
    witness [Chromaticity(POSITIVE_ZERO, POSITIVE_ZERO), Chromaticity(POSITIVE_ZERO, POSITIVE_ZERO),
             Chromaticity(POSITIVE_ZERO, POSITIVE_ZERO)]

  datatype RawVesaDisplayDeviceBlock = RawVesaDisplayDeviceBlock(
    interfaceType: u32,
    numChannels: i32,
    interfaceVersion: i32,
    interfaceRelease: i32,
    contentProtection: u32,
    minClockFreqMhz: i32,
    maxClockFreqMhz: i32,
    nativeHorizPixels: i32,
    nativeVertPixels: i32,
    aspectRatio: F32,
    defaultOrientation: u32,
    rotationCap: u32,
    zeroPixelLocation: u32,
    scanDirection: u32,
    subpixelLayout: u32,
    horizPitchMm: F32,
    vertPitchMm: F32,
    ditheringType: u32,
    directDrive: bool,
    overdriveNotRecommended: bool,
    deinterlacing: bool,
    audioSupport: bool,
    separateAudioInputs: bool,
    audioInputOverride: bool,
    audioDelayProvided: bool,
    audioDelayMs: i32,
    frameRateConversion: u32,
    frameRateRangeHz: i32,
    frameRateNativeHz: i32,
    bitDepthInterface: i32,
    bitDepthDisplay: i32,
    additionalPrimaryChromaticitiesLen: usize,
    additionalPrimaryChromaticities: Chromaticities3,
    respTimeTransition: u32,
    respTimeMs: i32,
    overscanHorizPct: i32,
    overscanVertPct: i32)

  datatype HdrStaticMetadataEotfs = HdrStaticMetadataEotfs(traditionalSdr: bool, traditionalHdr: bool, pq: bool, hlg: bool)
  datatype HdrStaticMetadataDescriptors = HdrStaticMetadataDescriptors(type1: bool)

  datatype RawHdrStaticMetadataBlock = RawHdrStaticMetadataBlock(
    desiredContentMaxLuminance: F32,
    desiredContentMaxFrameAvgLuminance: F32,
    desiredContentMinLuminance: F32,
    eotfs: Option<HdrStaticMetadataEotfs>,
    descriptors: Option<HdrStaticMetadataDescriptors>)

  /** The fields of `di_cta_vendor_hdmi_block` that the Rust struct mirrors one for one. */
  datatype VendorHdmiBlock = VendorHdmiBlock(
    sourcePhysAddr: u16,
    supportsAi: bool,
    supportsDc48bit: bool,
    supportsDc36bit: bool,
    supportsDc30bit: bool,
    supportsDcY444: bool,
    supportsDviDual: bool,
    maxTmdsClock: i32,
    supportsContentGraphics: bool,
    supportsContentPhoto: bool,
    supportsContentCinema: bool,
    supportsContentGame: bool,
    hasLatency: bool,
    hasInterlacedLatency: bool,
    supportsProgressiveVideo: bool,
    supportsProgressiveAudio: bool,
    supportsInterlacedVideo: bool,
    supportsInterlacedAudio: bool,
    progressiveVideoLatency: i32,
    progressiveAudioLatency: i32,
    interlacedVideoLatency: i32,
    interlacedAudioLatency: i32)

  /** `di_cta_vendor_hdmi_block`: the mirrored fields, plus the memory `vics` points to and `vics_len`. */
  datatype RawVendorHdmiBlock = RawVendorHdmiBlock(fields: VendorHdmiBlock, vics: seq<u8>, vicsLen: usize)

  // ---------------------------------------------------------------------
  // DisplayID (`di_displayid_*`)
  // ---------------------------------------------------------------------

  /** A `di_displayid`, by what its getters return. */
  datatype CDisplayId = CDisplayId(
    version: i32,
    revision: i32,
    productType: u32,
    dataBlocks: seq<Option<CDisplayIdDataBlock>>)

  /** A `di_displayid_data_block`, by what its getters return. */
  datatype CDisplayIdDataBlock = CDisplayIdDataBlock(
    tag: u32,
    displayParams: Option<RawDisplayParams>,
    tiledTopo: Option<RawTiledTopo>)

  datatype DisplayParamsFeatures = DisplayParamsFeatures(
    audio: bool, separateAudioInputs: bool, audioInputOverride: bool, powerManagement: bool,
    fixedTiming: bool, fixedPixelFormat: bool, ai: bool, deinterlacing: bool)

  datatype RawDisplayParams = RawDisplayParams(
    horizImageMm: F32,
    vertImageMm: F32,
    horizPixels: i32,
    vertPixels: i32,
    features: Option<DisplayParamsFeatures>,
    gamma: F32,
    aspectRatio: F32,
    bitsPerColorOverall: i32,
    bitsPerColorNative: i32)

  datatype TiledTopoCaps = TiledTopoCaps(singleEnclosure: bool, missingRecvBehavior: u32, singleRecvBehavior: u32)
  datatype TiledTopoBezel = TiledTopoBezel(topPx: F32, bottomPx: F32, rightPx: F32, leftPx: F32)

  datatype RawTiledTopo = RawTiledTopo(
    caps: Option<TiledTopoCaps>,
    totalHorizTiles: i32,
    totalVertTiles: i32,
    horizTileLocation: i32,
    vertTileLocation: i32,
    horizTilePixels: i32,
    vertTileLines: i32,
    bezel: Option<TiledTopoBezel>,
    vendorId: CChars3,
    productCode: u16,
    serialNumber: u32)

  // ---------------------------------------------------------------------
  // High-level info (`di_info_*`)
  // ---------------------------------------------------------------------

  /**
   * A `di_info`: its failure message, its EDID, the strings the
   * `di_info_get_make`/`_model`/`_serial` getters allocate a copy of, and
   * its default gamma.
   */
  datatype CInfo = CInfo(
    failureMsg: Option<seq<u8>>,
    edid: Option<CEdid>,
    make: Option<seq<u8>>,
    model: Option<seq<u8>>,
    serial: Option<seq<u8>>,
    defaultGamma: F32)
}
