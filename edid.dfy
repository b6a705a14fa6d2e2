/**
 * The EDID half of the binding: the `Edid` handle's accessors, the typed
 * records the `FFIFrom` conversions build from the C records, the CVT
 * bitmasks and the extension-block tag.
 */
module Edid {
  import opened Wrappers
  import opened CTypes
  import opened Ffi
  import opened Lib
  import opened Expanded
  import D = Derive

  // ---------------------------------------------------------------------
  // VendorProduct
  // ---------------------------------------------------------------------

  /** A `[char; 3]`. */
  type Chars3 = s: seq<char> | |s| == 3 witness ['A', 'A', 'A']

  /** Every character is a byte, as those built by `char::from(u8)` are. */
  predicate ByteChars(s: seq<char>) {
    forall i :: 0 <= i < |s| ==> s[i] as int < 0x100
  }

  /** `[char::from(raw[0] as u8), char::from(raw[1] as u8), char::from(raw[2] as u8)]`. */
  function CharsFrom(raw: CChars3): (chars: Chars3)
    ensures forall i :: 0 <= i < 3 ==> chars[i] as int == AsU8(raw[i])
    ensures ByteChars(chars)
  {
    [CharFromU8(AsU8(raw[0])), CharFromU8(AsU8(raw[1])), CharFromU8(AsU8(raw[2]))]
  }

  /** The C characters a byte-valued `[char; 3]` was read from. */
  function CharsToRaw(chars: Chars3): (raw: CChars3)
    requires ByteChars(chars)
  {
    [AsI8(chars[0] as int), AsI8(chars[1] as int), AsI8(chars[2] as int)]
  }

  /** Reading three C characters as `char`s loses nothing. */
  lemma CharsLossless(raw: CChars3)
    ensures CharsToRaw(CharsFrom(raw)) == raw
  {
    AsU8RoundTrip(raw[0]);
    AsU8RoundTrip(raw[1]);
    AsU8RoundTrip(raw[2]);
  }

  datatype VendorProduct = VendorProduct(
    manufacturer: Chars3,
    product: u16,
    serial: Option<u32>,
    manufactureWeek: i32,
    manufactureYear: i32,
    modelYear: Option<i32>)

  /** `VendorProduct::from`: `serial` and `model_year` are absent when 0. */
  function VendorProductFrom(raw: RawVendorProduct): (v: VendorProduct)
    ensures forall i :: 0 <= i < 3 ==> v.manufacturer[i] as int == AsU8(raw.manufacturer[i])
    ensures v.serial.None? <==> raw.serial == 0
    ensures v.serial.Some? ==> v.serial.value == raw.serial
    ensures v.modelYear.None? <==> raw.modelYear == 0
    ensures v.modelYear.Some? ==> v.modelYear.value == raw.modelYear
  {
    VendorProduct(
      CharsFrom(raw.manufacturer),
      raw.product,
      Optional(raw.serial, 0),
      raw.manufactureWeek,
      raw.manufactureYear,
      Optional(raw.modelYear, 0))
  }

  /** The C record a vendor/product block is read from. */
  function VendorProductToRaw(v: VendorProduct): RawVendorProduct
    requires ByteChars(v.manufacturer)
  {
    RawVendorProduct(
      CharsToRaw(v.manufacturer),
      v.product,
      OrSentinel(v.serial, 0),
      v.manufactureWeek,
      v.manufactureYear,
      OrSentinel(v.modelYear, 0))
  }

  /** The conversion loses nothing: the C record can be rebuilt from its result. */
  lemma VendorProductLossless(raw: RawVendorProduct)
    ensures VendorProductToRaw(VendorProductFrom(raw)) == raw
  {
    CharsLossless(raw.manufacturer);
  }

  /** Every vendor/product value without a `Some(0)` is the conversion of its own C record. */
  lemma VendorProductRoundTrip(v: VendorProduct)
    requires ByteChars(v.manufacturer)
    requires v.serial != Some(0) && v.modelYear != Some(0)
    ensures VendorProductFrom(VendorProductToRaw(v)) == v
  {
    var chars := CharsFrom(CharsToRaw(v.manufacturer));
    forall i | 0 <= i < 3
      ensures chars[i] == v.manufacturer[i]
    {
      assert AsU8(AsI8(v.manufacturer[i] as int)) == v.manufacturer[i] as int;
    }
    assert chars == v.manufacturer;
  }

  // ---------------------------------------------------------------------
  // DetailedTimingDef
  // ---------------------------------------------------------------------

  datatype DetailedTimingDef = DetailedTimingDef(
    pixelClockHz: i32,
    horizVideo: i32,
    vertVideo: i32,
    horizBlank: i32,
    vertBlank: i32,
    horizFrontPorch: i32,
    vertFrontPorch: i32,
    horizSyncPulse: i32,
    vertSyncPulse: i32,
    horizImageMm: i32,
    vertImageMm: i32,
    horizBorder: Option<i32>,
    vertBorder: Option<i32>,
    interlaced: bool,
    stereo: u32,
    signalType: u32,
    analogComposite: Option<AnalogComposite>,
    bipolarAnalogComposite: Option<BipolarAnalogComposite>,
    digitalComposite: Option<DigitalComposite>,
    digitalSeparate: Option<DigitalSeparate>)

  /**
   * `DetailedTimingDef::from`: the borders are absent when 0, and each
   * signal-specific record is absent exactly when its pointer is NULL.
   */
  function DetailedTimingDefFrom(raw: RawDetailedTimingDef): (d: DetailedTimingDef)
    ensures d.horizBorder.None? <==> raw.horizBorder == 0
    ensures d.horizBorder.Some? ==> d.horizBorder.value == raw.horizBorder
    ensures d.vertBorder.None? <==> raw.vertBorder == 0
    ensures d.vertBorder.Some? ==> d.vertBorder.value == raw.vertBorder
    ensures d.analogComposite.None? <==> raw.analogComposite.None?
    ensures d.analogComposite.Some? ==> d.analogComposite.value == raw.analogComposite.value
    ensures d.bipolarAnalogComposite.None? <==> raw.bipolarAnalogComposite.None?
    ensures d.bipolarAnalogComposite.Some? ==> d.bipolarAnalogComposite.value == raw.bipolarAnalogComposite.value
    ensures d.digitalComposite.None? <==> raw.digitalComposite.None?
    ensures d.digitalComposite.Some? ==> d.digitalComposite.value == raw.digitalComposite.value
    ensures d.digitalSeparate.None? <==> raw.digitalSeparate.None?
    ensures d.digitalSeparate.Some? ==> d.digitalSeparate.value == raw.digitalSeparate.value
  {
    DetailedTimingDef(
      raw.pixelClockHz, raw.horizVideo, raw.vertVideo, raw.horizBlank, raw.vertBlank,
      raw.horizFrontPorch, raw.vertFrontPorch, raw.horizSyncPulse, raw.vertSyncPulse,
      raw.horizImageMm, raw.vertImageMm,
      Optional(raw.horizBorder, 0),
      Optional(raw.vertBorder, 0),
      raw.interlaced, raw.stereo, raw.signalType,
      raw.analogComposite, raw.bipolarAnalogComposite, raw.digitalComposite, raw.digitalSeparate)
  }

  /** The C record a detailed timing definition is read from. */
  function DetailedTimingDefToRaw(d: DetailedTimingDef): RawDetailedTimingDef {
    RawDetailedTimingDef(
      d.pixelClockHz, d.horizVideo, d.vertVideo, d.horizBlank, d.vertBlank,
      d.horizFrontPorch, d.vertFrontPorch, d.horizSyncPulse, d.vertSyncPulse,
      d.horizImageMm, d.vertImageMm,
      OrSentinel(d.horizBorder, 0),
      OrSentinel(d.vertBorder, 0),
      d.interlaced, d.stereo, d.signalType,
      d.analogComposite, d.bipolarAnalogComposite, d.digitalComposite, d.digitalSeparate)
  }

  /** The conversion loses nothing: every other field passes through unchanged. */
  lemma DetailedTimingDefLossless(raw: RawDetailedTimingDef)
    ensures DetailedTimingDefToRaw(DetailedTimingDefFrom(raw)) == raw
  {
  }

  /** Every definition without a `Some(0)` border is the conversion of its own C record. */
  lemma DetailedTimingDefRoundTrip(d: DetailedTimingDef)
    requires d.horizBorder != Some(0) && d.vertBorder != Some(0)
    ensures DetailedTimingDefFrom(DetailedTimingDefToRaw(d)) == d
  {
  }

  // ---------------------------------------------------------------------
  // CVT bitmasks
  // ---------------------------------------------------------------------

  /** The `CvtAspectRatio` bitflags: any `u32`, named bits or not. */
  datatype CvtAspectRatio = CvtAspectRatio(bits: u32)

  /** `CvtAspectRatio::from`, which is `from_bits_retain`: no bit is dropped. */
  function CvtAspectRatioFrom(raw: u32): (f: CvtAspectRatio)
    ensures forall k: nat :: k < 32 ==> Bit(f.bits, k) == Bit(raw, k)
  {
    CvtAspectRatio(raw)
  }

  /** The `CvtScaling` bitflags: any `u32`, named bits or not. */
  datatype CvtScaling = CvtScaling(bits: u32)

  /** `CvtScaling::from`, which is `from_bits_retain`: no bit is dropped. */
  function CvtScalingFrom(raw: u32): (f: CvtScaling)
    ensures forall k: nat :: k < 32 ==> Bit(f.bits, k) == Bit(raw, k)
  {
    CvtScaling(raw)
  }

  /** Bit `k` of `x`. */
  function Bit(x: u32, k: nat): bool
    requires k < 32
  {
    (x as bv32 >> k) & 1 == 1
  }

  /** `CvtAspectRatio::from(f.bits()) == f` and `CvtAspectRatio::from(raw).bits() == raw`. */
  lemma CvtAspectRatioRoundTrip(raw: u32, f: CvtAspectRatio)
    ensures CvtAspectRatioFrom(raw).bits == raw
    ensures CvtAspectRatioFrom(f.bits) == f
  {
  }

  /** `CvtScaling::from(f.bits()) == f` and `CvtScaling::from(raw).bits() == raw`. */
  lemma CvtScalingRoundTrip(raw: u32, f: CvtScaling)
    ensures CvtScalingFrom(raw).bits == raw
    ensures CvtScalingFrom(f.bits) == f
  {
  }

  // ---------------------------------------------------------------------
  // Display range limits
  // ---------------------------------------------------------------------

  datatype DisplayRangeLimitsCvt = DisplayRangeLimitsCvt(
    version: i32,
    revision: i32,
    maxHorizPx: Option<i32>,
    supportedAspectRatio: CvtAspectRatio,
    preferredAspectRatio: CvtAspectRatio,
    standardBlanking: bool,
    reducedBlanking: bool,
    supportedScaling: CvtScaling,
    preferredVertRefreshHz: i32)

  /** `DisplayRangeLimitsCvt::from`: `max_horiz_px` is absent when 0; the masks keep every bit. */
  function DisplayRangeLimitsCvtFrom(raw: RawRangeLimitsCvt): (c: DisplayRangeLimitsCvt)
    ensures c.maxHorizPx.None? <==> raw.maxHorizPx == 0
    ensures c.maxHorizPx.Some? ==> c.maxHorizPx.value == raw.maxHorizPx
    ensures c.supportedAspectRatio.bits == raw.supportedAspectRatio
    ensures c.preferredAspectRatio.bits == raw.preferredAspectRatio
    ensures c.supportedScaling.bits == raw.supportedScaling
  {
    DisplayRangeLimitsCvt(
      raw.version,
      raw.revision,
      Optional(raw.maxHorizPx, 0),
      CvtAspectRatioFrom(raw.supportedAspectRatio),
      CvtAspectRatioFrom(raw.preferredAspectRatio),
      raw.standardBlanking,
      raw.reducedBlanking,
      CvtScalingFrom(raw.supportedScaling),
      raw.preferredVertRefreshHz)
  }

  function DisplayRangeLimitsCvtToRaw(c: DisplayRangeLimitsCvt): RawRangeLimitsCvt {
    RawRangeLimitsCvt(
      c.version, c.revision, OrSentinel(c.maxHorizPx, 0),
      c.supportedAspectRatio.bits, c.preferredAspectRatio.bits,
      c.standardBlanking, c.reducedBlanking, c.supportedScaling.bits, c.preferredVertRefreshHz)
  }

  datatype DisplayRangeLimits = DisplayRangeLimits(
    minVertRateHz: i32,
    maxVertRateHz: i32,
    minHorizRateHz: i32,
    maxHorizRateHz: i32,
    maxPixelClockHz: Option<i32>,
    rangeType: u32,
    secondaryGtf: Option<SecondaryGtf>,
    cvt: Option<DisplayRangeLimitsCvt>)

  /**
   * `DisplayRangeLimits::from`: `max_pixel_clock_hz` is absent when 0; the
   * GTF and CVT records are absent exactly when their pointers are NULL.
   */
  function DisplayRangeLimitsFrom(raw: RawDisplayRangeLimits): (r: DisplayRangeLimits)
    ensures r.maxPixelClockHz.None? <==> raw.maxPixelClockHz == 0
    ensures r.maxPixelClockHz.Some? ==> r.maxPixelClockHz.value == raw.maxPixelClockHz
    ensures r.secondaryGtf.None? <==> raw.secondaryGtf.None?
    ensures r.secondaryGtf.Some? ==> r.secondaryGtf.value == raw.secondaryGtf.value
    ensures r.cvt.None? <==> raw.cvt.None?
    ensures r.cvt.Some? ==> r.cvt.value == DisplayRangeLimitsCvtFrom(raw.cvt.value)
  {
    DisplayRangeLimits(
      raw.minVertRateHz,
      raw.maxVertRateHz,
      raw.minHorizRateHz,
      raw.maxHorizRateHz,
      Optional(raw.maxPixelClockHz, 0),
      raw.rangeType,
      raw.secondaryGtf,
      if raw.cvt.None? then None else Some(DisplayRangeLimitsCvtFrom(raw.cvt.value)))
  }

  function DisplayRangeLimitsToRaw(r: DisplayRangeLimits): RawDisplayRangeLimits {
    RawDisplayRangeLimits(
      r.minVertRateHz, r.maxVertRateHz, r.minHorizRateHz, r.maxHorizRateHz,
      OrSentinel(r.maxPixelClockHz, 0),
      r.rangeType,
      r.secondaryGtf,
      if r.cvt.None? then None else Some(DisplayRangeLimitsCvtToRaw(r.cvt.value)))
  }

  /** The conversion, nested CVT record included, loses nothing. */
  lemma DisplayRangeLimitsLossless(raw: RawDisplayRangeLimits)
    ensures DisplayRangeLimitsToRaw(DisplayRangeLimitsFrom(raw)) == raw
  {
  }

  // ---------------------------------------------------------------------
  // Extension tags
  // ---------------------------------------------------------------------

  /** `ExtensionTag`, whose `#[other]` variant `Unknown` takes every unlisted tag. */
  datatype ExtensionTag = CEA | VTB | DI | LS | DPVL | BlockMap | Vendor | DisplayId | Unknown

  /** The `di_edid_ext_tag` value of a listed tag (section 2.2.4 of VESA E-EDID). */
  function ExtensionTagValue(t: ExtensionTag): u32
    requires t != Unknown
  {
    match t
    case CEA => 0x02
    case VTB => 0x10
    case DI => 0x40
    case LS => 0x50
    case DPVL => 0x60
    case BlockMap => 0xF0
    case Vendor => 0xFF
    case DisplayId => 0x70
  }

  /** The tags `ExtensionTag` lists. */
  const LISTED_EXTENSION_TAGS: set<u32> := {0x02, 0x10, 0x40, 0x50, 0x60, 0xF0, 0xFF, 0x70}

  /** `ExtensionTag::from`: total; a listed tag maps to its variant, any other to `Unknown`. */
  function ExtensionTagFrom(raw: u32): (t: ExtensionTag)
    ensures t == Unknown <==> raw !in LISTED_EXTENSION_TAGS
    ensures t != Unknown ==> ExtensionTagValue(t) == raw
  {
    if raw == 0x02 then CEA
    else if raw == 0x10 then VTB
    else if raw == 0x40 then DI
    else if raw == 0x50 then LS
    else if raw == 0x60 then DPVL
    else if raw == 0xF0 then BlockMap
    else if raw == 0xFF then Vendor
    else if raw == 0x70 then DisplayId
    else Unknown
  }

  /** Every listed variant is the conversion of its own tag value. */
  lemma ExtensionTagRoundTrip(t: ExtensionTag)
    requires t != Unknown
    ensures ExtensionTagFrom(ExtensionTagValue(t)) == t
  {
  }

  /** The variants of `ExtensionTag` as the macro sees them, discriminants by constant name. */
  const EXTENSION_TAG_VARIANTS: seq<D.EnumVariant> := [
    D.EnumVariant("CEA", Some(D.Expr("DI_EDID_EXT_CEA"))),
    D.EnumVariant("VTB", Some(D.Expr("DI_EDID_EXT_VTB"))),
    D.EnumVariant("DI", Some(D.Expr("DI_EDID_EXT_DI"))),
    D.EnumVariant("LS", Some(D.Expr("DI_EDID_EXT_LS"))),
    D.EnumVariant("DPVL", Some(D.Expr("DI_EDID_EXT_DPVL"))),
    D.EnumVariant("BlockMap", Some(D.Expr("DI_EDID_EXT_BLOCK_MAP"))),
    D.EnumVariant("Vendor", Some(D.Expr("DI_EDID_EXT_VENDOR"))),
    D.EnumVariant("DisplayId", Some(D.Expr("DI_EDID_EXT_DISPLAYID"))),
    D.EnumVariant("Unknown", None)
  ]

  /** What the discriminant constants of `ExtensionTag` denote. */
  function ExtensionTagConst(e: D.Expr): D.Raw {
    D.RInt(
      if e.tokens == "DI_EDID_EXT_CEA" then 0x02
      else if e.tokens == "DI_EDID_EXT_VTB" then 0x10
      else if e.tokens == "DI_EDID_EXT_DI" then 0x40
      else if e.tokens == "DI_EDID_EXT_LS" then 0x50
      else if e.tokens == "DI_EDID_EXT_DPVL" then 0x60
      else if e.tokens == "DI_EDID_EXT_BLOCK_MAP" then 0xF0
      else if e.tokens == "DI_EDID_EXT_VENDOR" then 0xFF
      else if e.tokens == "DI_EDID_EXT_DISPLAYID" then 0x70
      else 0)
  }

  function ExtensionTagName(t: ExtensionTag): string {
    match t
    case CEA => "CEA"
    case VTB => "VTB"
    case DI => "DI"
    case LS => "LS"
    case DPVL => "DPVL"
    case BlockMap => "BlockMap"
    case Vendor => "Vendor"
    case DisplayId => "DisplayId"
    case Unknown => "Unknown"
  }

  /** The listed variant declared at position `i` of `ExtensionTag`. */
  function ListedTagAt(i: nat): (t: ExtensionTag)
    requires i < 8
    ensures t != Unknown && EXTENSION_TAG_VARIANTS[i].ident == ExtensionTagName(t)
  {
    [CEA, VTB, DI, LS, DPVL, BlockMap, Vendor, DisplayId][i]
  }

  /** Each listed variant's discriminant denotes that variant's tag value. */
  lemma ExtensionTagDiscriminants()
    ensures forall i :: 0 <= i < 8 ==>
      && EXTENSION_TAG_VARIANTS[i].discriminant.Some?
      && ExtensionTagConst(EXTENSION_TAG_VARIANTS[i].discriminant.value) == D.RInt(ExtensionTagValue(ListedTagAt(i)))
    ensures EXTENSION_TAG_VARIANTS[8].discriminant.None? && |EXTENSION_TAG_VARIANTS| == 9
  {
    var vs := EXTENSION_TAG_VARIANTS;
    assert ExtensionTagConst(vs[0].discriminant.value) == D.RInt(0x02);
    assert ExtensionTagConst(vs[1].discriminant.value) == D.RInt(0x10);
    assert ExtensionTagConst(vs[2].discriminant.value) == D.RInt(0x40);
    assert ExtensionTagConst(vs[3].discriminant.value) == D.RInt(0x50);
    assert ExtensionTagConst(vs[4].discriminant.value) == D.RInt(0x60);
    assert ExtensionTagConst(vs[5].discriminant.value) == D.RInt(0xF0);
    assert ExtensionTagConst(vs[6].discriminant.value) == D.RInt(0xFF);
    assert ExtensionTagConst(vs[7].discriminant.value) == D.RInt(0x70);
  }

  /** No discriminant of `ExtensionTag` denotes an unlisted tag. */
  lemma UnlistedMatchesNoArm(raw: u32)
    requires raw !in LISTED_EXTENSION_TAGS
    ensures forall i :: 0 <= i < |EXTENSION_TAG_VARIANTS| && EXTENSION_TAG_VARIANTS[i].discriminant.Some? ==>
      !D.RawEq(ExtensionTagConst(EXTENSION_TAG_VARIANTS[i].discriminant.value), D.RInt(raw))
  {
    var vs := EXTENSION_TAG_VARIANTS;
    ExtensionTagDiscriminants();
    forall i | 0 <= i < |vs| && vs[i].discriminant.Some?
      ensures !D.RawEq(ExtensionTagConst(vs[i].discriminant.value), D.RInt(raw))
    {
      assert i < 8;
      assert ExtensionTagValue(ListedTagAt(i)) in LISTED_EXTENSION_TAGS;
    }
  }

  /** A listed tag's own variant is the first whose discriminant it equals. */
  lemma ListedFirstMatch(i: nat)
    requires i < 8
    ensures D.FirstMatch(EXTENSION_TAG_VARIANTS, ExtensionTagConst, D.RInt(ExtensionTagValue(ListedTagAt(i))), i)
  {
    var vs := EXTENSION_TAG_VARIANTS;
    var raw := ExtensionTagValue(ListedTagAt(i));
    ExtensionTagDiscriminants();
    forall j | 0 <= j < i && vs[j].discriminant.Some?
      ensures !D.RawEq(ExtensionTagConst(vs[j].discriminant.value), D.RInt(raw))
    {
      assert ListedTagAt(j) != ListedTagAt(i);
    }
  }

  /** `Unknown` is the one `#[other]` variant of `ExtensionTag`. */
  lemma ExtensionTagOther()
    ensures |D.OtherVariants(EXTENSION_TAG_VARIANTS)| > 0
    ensures D.OtherVariants(EXTENSION_TAG_VARIANTS)[0] == "Unknown"
  {
    var vs := EXTENSION_TAG_VARIANTS;
    var others := D.OtherVariants(vs);
    ExtensionTagDiscriminants();
    assert vs[8].ident in others;
    var k :| 0 <= k < |vs| && vs[k].discriminant.None? && vs[k].ident == others[0];
    assert k == 8;
  }

  /** An unlisted tag falls through every arm to the `Unknown` arm. */
  lemma UnlistedIsDerived(raw: u32)
    requires raw !in LISTED_EXTENSION_TAGS
    ensures D.ConvertEnum(D.EnumPlanOf(EXTENSION_TAG_VARIANTS), ExtensionTagConst, D.RInt(raw)) == Some("Unknown")
  {
    D.EnumConversion(EXTENSION_TAG_VARIANTS, ExtensionTagConst, D.RInt(raw));
    UnlistedMatchesNoArm(raw);
    ExtensionTagOther();
  }

  /** A listed tag takes its own variant's arm. */
  lemma ListedIsDerived(i: nat)
    requires i < 8
    ensures D.ConvertEnum(D.EnumPlanOf(EXTENSION_TAG_VARIANTS), ExtensionTagConst, D.RInt(ExtensionTagValue(ListedTagAt(i))))
      == Some(ExtensionTagName(ListedTagAt(i)))
  {
    D.EnumConversion(EXTENSION_TAG_VARIANTS, ExtensionTagConst, D.RInt(ExtensionTagValue(ListedTagAt(i))));
    ListedFirstMatch(i);
  }

  /** `ExtensionTagFrom` is the `match` the macro generates for `ExtensionTag`, on every raw tag. */
  lemma ExtensionTagIsDerived(raw: u32)
    ensures D.ConvertEnum(D.EnumPlanOf(EXTENSION_TAG_VARIANTS), ExtensionTagConst, D.RInt(raw))
      == Some(ExtensionTagName(ExtensionTagFrom(raw)))
  {
    var t := ExtensionTagFrom(raw);
    if t == Unknown {
      UnlistedIsDerived(raw);
    } else {
      var i: nat := match t
        case CEA => 0 case VTB => 1 case DI => 2 case LS => 3 case DPVL => 4
        case BlockMap => 5 case Vendor => 6 case DisplayId => 7;
      assert ListedTagAt(i) == t;
      ListedIsDerived(i);
    }
  }

  // ---------------------------------------------------------------------
  // The Edid handle and its accessors
  // ---------------------------------------------------------------------

  /**
   * The lists a `di_edid` hands out are NULL-terminated, and so is the
   * standard-timing list of each of its display descriptors.
   */
  predicate WellFormed(c: CEdid) {
    && NullTerminated(c.standardTimings)
    && NullTerminated(c.detailedTimingDefs)
    && NullTerminated(c.displayDescriptors)
    && NullTerminated(c.extensions)
  }

  /** `DisplayDescriptorRef`: a pointer to a display descriptor. */
  datatype DisplayDescriptorRef = DisplayDescriptorRef(c: CDisplayDescriptor) {

    /** `range_limits`: absent exactly when the C getter returns NULL. */
    function RangeLimits(): (r: Option<DisplayRangeLimits>)
      ensures r.None? <==> c.rangeLimits.None?
      ensures r.Some? ==> r.value == DisplayRangeLimitsFrom(c.rangeLimits.value)
    {
      if c.rangeLimits.None? then None else Some(DisplayRangeLimitsFrom(c.rangeLimits.value))
    }

    /**
     * `standard_timings`: `None` exactly when the list pointer is NULL,
     * otherwise the entries before the first NULL.
     */
    method StandardTimings() returns (timings: Option<seq<StandardTiming>>)
      requires c.standardTimings.Some? ==> NullTerminated(c.standardTimings.value)
      ensures timings.None? <==> c.standardTimings.None?
      ensures timings.Some? ==> timings.value == NonNullPrefix(c.standardTimings.value)
      ensures timings.Some? ==> |timings.value| == FirstNull(c.standardTimings.value)
    {
      if c.standardTimings.None? {
        timings := None;
      } else {
        var slice := SliceUntilNull(c.standardTimings.value);
        timings := Some(slice);
      }
    }
  }

  /** `ExtensionRef`: a pointer to an extension block. */
  datatype ExtensionRef = ExtensionRef(c: CExtension) {

    /** `tag`: never fails, since unlisted tags become `Unknown`. */
    function Tag(): (t: ExtensionTag)
      ensures t == Unknown <==> c.tag !in LISTED_EXTENSION_TAGS
      ensures t != Unknown ==> ExtensionTagValue(t) == c.tag
    {
      ExtensionTagFrom(c.tag)
    }
  }

  /** `Edid`: a handle on a parsed EDID. */
  datatype Edid = Edid(c: CEdid) {

    /** `vendor_product`: the converted record, from which the C record can be rebuilt. */
    function VendorProduct(): (v: VendorProduct)
      ensures ByteChars(v.manufacturer) && VendorProductToRaw(v) == c.vendorProduct
      ensures v.serial.None? <==> c.vendorProduct.serial == 0
      ensures v.modelYear.None? <==> c.vendorProduct.modelYear == 0
    {
      VendorProductLossless(c.vendorProduct);
      VendorProductFrom(c.vendorProduct)
    }

    /** `basic_gamma`: absent exactly when the raw gamma `== 0f32`, else passed through. */
    function BasicGamma(): (g: Option<F32>)
      ensures g.None? <==> c.basicGamma == POSITIVE_ZERO || c.basicGamma == NEGATIVE_ZERO
      ensures g.Some? ==> g.value == c.basicGamma
    {
      EqualsZeroIffSignedZero(c.basicGamma);
      OptionalF32(c.basicGamma, POSITIVE_ZERO)
    }

    /** `standard_timings`: the entries before the first NULL, every one non-NULL. */
    method StandardTimings() returns (timings: seq<StandardTiming>)
      requires WellFormed(c)
      ensures |timings| == FirstNull(c.standardTimings)
      ensures forall i :: 0 <= i < |timings| ==> c.standardTimings[i] == Some(timings[i])
    {
      timings := SliceUntilNull(c.standardTimings);
    }

    /** `detailed_timing_defs`: an iterator over the converted definitions. */
    method DetailedTimingDefs() returns (it: FfiIter<RawDetailedTimingDef, DetailedTimingDef>)
      requires WellFormed(c)
      ensures fresh(it) && it.Valid()
      ensures it.Remaining() == MapSeq(DetailedTimingDefFrom, NonNullPrefix(c.detailedTimingDefs))
    {
      it := new FfiIter(Some(c.detailedTimingDefs), DetailedTimingDefFrom);
    }

    /** `display_descriptors`: the entries before the first NULL, every one non-NULL. */
    method DisplayDescriptors() returns (descriptors: seq<DisplayDescriptorRef>)
      requires WellFormed(c)
      ensures |descriptors| == FirstNull(c.displayDescriptors)
      ensures forall i :: 0 <= i < |descriptors| ==> c.displayDescriptors[i] == Some(descriptors[i].c)
    {
      var len := NullTerminatedLen(c.displayDescriptors);
      descriptors := seq(len, i requires 0 <= i < len => DisplayDescriptorRef(c.displayDescriptors[i].value));
    }

    /** `extensions`: the entries before the first NULL, every one non-NULL. */
    method Extensions() returns (extensions: seq<ExtensionRef>)
      requires WellFormed(c)
      ensures |extensions| == FirstNull(c.extensions)
      ensures forall i :: 0 <= i < |extensions| ==> c.extensions[i] == Some(extensions[i].c)
    {
      var len := NullTerminatedLen(c.extensions);
      extensions := seq(len, i requires 0 <= i < len => ExtensionRef(c.extensions[i].value));
    }
  }

  /** `Edid::from_ptr`: `None` exactly for a NULL pointer. */
  function EdidFromPtr(ptr: Option<CEdid>): (e: Option<Edid>)
    ensures e.None? <==> ptr.None?
    ensures e.Some? ==> e.value.c == ptr.value
  {
    if ptr.None? then None else Some(Edid(ptr.value))
  }
}
