/**
 * The stateless translations between the plugin's enumerations and NGX's:
 * quality and preset conversions with their fallback defaults, the feature
 * flag bitmask translation, result strings, and the NGX result translator
 * with the diagnostic it writes to the log.
 */
module Conversions {
  import opened PluginTypes
  import opened Ngx

  /** `NVSDK_NGX_PerfQuality_Value` */
  datatype NgxPerfQuality =
    PerfMaxPerf | PerfBalanced | PerfMaxQuality | PerfUltraPerformance | PerfUltraQuality | PerfDLAA

  /** `NVSDK_NGX_DLSS_Hint_Render_Preset` */
  datatype NgxSRPreset = SRDefault | SRF | SRG | SRJ | SRK | SRL | SRM

  /** `NVSDK_NGX_RayReconstruction_Hint_Render_Preset` */
  datatype NgxRRPreset = RRDefault | RRD | RRE

  /** `NVSDK_NGX_DLSS_Feature_Flags`; a flag word is the set of flags it holds. */
  datatype NgxFeatureFlag =
    NgxIsHDR | NgxMVLowRes | NgxMVJittered | NgxDepthInverted | NgxAutoExposure | NgxAlphaUpscaling

  // ---------------------------------------------------------------- quality

  predicate IsQuality(quality: int) {
    QualityMaxPerformance <= quality <= QualityDLAA
  }

  /** The plugin quality an NGX quality value corresponds to. */
  function QualityOf(v: NgxPerfQuality): int {
    match v
    case PerfMaxPerf => QualityMaxPerformance
    case PerfBalanced => QualityBalanced
    case PerfMaxQuality => QualityMaxQuality
    case PerfUltraPerformance => QualityUltraPerformance
    case PerfUltraQuality => QualityUltraQuality
    case PerfDLAA => QualityDLAA
  }

  /** `ToNGXPerfQuality`: each quality to its NGX value, anything else to Balanced. */
  function ToNGXPerfQuality(quality: int): (v: NgxPerfQuality)
    ensures IsQuality(quality) ==> QualityOf(v) == quality
    ensures !IsQuality(quality) ==> v == PerfBalanced
  {
    if quality == QualityMaxPerformance then PerfMaxPerf
    else if quality == QualityBalanced then PerfBalanced
    else if quality == QualityMaxQuality then PerfMaxQuality
    else if quality == QualityUltraPerformance then PerfUltraPerformance
    else if quality == QualityUltraQuality then PerfUltraQuality
    else if quality == QualityDLAA then PerfDLAA
    else PerfBalanced
  }

  /** Every NGX quality value is reached, from exactly its own plugin quality. */
  lemma PerfQualityRoundTrip(v: NgxPerfQuality)
    ensures IsQuality(QualityOf(v)) && ToNGXPerfQuality(QualityOf(v)) == v
  {
    match v
    case PerfMaxPerf =>
    case PerfBalanced =>
    case PerfMaxQuality =>
    case PerfUltraPerformance =>
    case PerfUltraQuality =>
    case PerfDLAA =>
  }

  // ---------------------------------------------------------------- presets

  predicate IsSRPreset(preset: int) {
    preset in {SRPresetDefault, SRPresetF, SRPresetG, SRPresetJ, SRPresetK, SRPresetL, SRPresetM}
  }

  /** The plugin SR preset an NGX SR preset corresponds to. */
  function SRPresetOf(v: NgxSRPreset): int {
    match v
    case SRDefault => SRPresetDefault
    case SRF => SRPresetF
    case SRG => SRPresetG
    case SRJ => SRPresetJ
    case SRK => SRPresetK
    case SRL => SRPresetL
    case SRM => SRPresetM
  }

  /** `ToNGXSRPreset`: each SR preset to its NGX value, anything else to Default. */
  function ToNGXSRPreset(preset: int): (v: NgxSRPreset)
    ensures IsSRPreset(preset) ==> SRPresetOf(v) == preset
    ensures !IsSRPreset(preset) ==> v == SRDefault
  {
    if preset == SRPresetDefault then SRDefault
    else if preset == SRPresetF then SRF
    else if preset == SRPresetG then SRG
    else if preset == SRPresetJ then SRJ
    else if preset == SRPresetK then SRK
    else if preset == SRPresetL then SRL
    else if preset == SRPresetM then SRM
    else SRDefault
  }

  lemma SRPresetRoundTrip(v: NgxSRPreset)
    ensures IsSRPreset(SRPresetOf(v)) && ToNGXSRPreset(SRPresetOf(v)) == v
  {
    match v
    case SRDefault =>
    case SRF =>
    case SRG =>
    case SRJ =>
    case SRK =>
    case SRL =>
    case SRM =>
  }

  predicate IsRRPreset(preset: int) {
    preset in {RRPresetDefault, RRPresetD, RRPresetE}
  }

  /** The plugin RR preset an NGX RR preset corresponds to. */
  function RRPresetOf(v: NgxRRPreset): int {
    match v
    case RRDefault => RRPresetDefault
    case RRD => RRPresetD
    case RRE => RRPresetE
  }

  /** `ToNGXRRPreset`: each RR preset to its NGX value, anything else to Default. */
  function ToNGXRRPreset(preset: int): (v: NgxRRPreset)
    ensures IsRRPreset(preset) ==> RRPresetOf(v) == preset
    ensures !IsRRPreset(preset) ==> v == RRDefault
  {
    if preset == RRPresetDefault then RRDefault
    else if preset == RRPresetD then RRD
    else if preset == RRPresetE then RRE
    else RRDefault
  }

  lemma RRPresetRoundTrip(v: NgxRRPreset)
    ensures IsRRPreset(RRPresetOf(v)) && ToNGXRRPreset(RRPresetOf(v)) == v
  {
    match v
    case RRDefault =>
    case RRD =>
    case RRE =>
  }

  // ---------------------------------------------------------------- flags

  /** The plugin bit that requests each NGX flag. */
  function PluginBit(f: NgxFeatureFlag): bv32 {
    match f
    case NgxIsHDR => FlagIsHDR
    case NgxMVLowRes => FlagMVLowRes
    case NgxMVJittered => FlagMVJittered
    case NgxDepthInverted => FlagDepthInverted
    case NgxAutoExposure => FlagAutoExposure
    case NgxAlphaUpscaling => FlagAlphaUpscaling
  }

  /** Adds `f` to `s` when `bit` is set in `flags`. */
  function WithFlagIf(s: set<NgxFeatureFlag>, flags: bv32, bit: bv32, f: NgxFeatureFlag): set<NgxFeatureFlag> {
    if flags & bit != 0 then s + {f} else s
  }

  /** `ToNGXFeatureFlags`: an NGX flag is set iff its plugin bit is; other bits are dropped. */
  function ToNGXFeatureFlags(flags: bv32): (s: set<NgxFeatureFlag>)
    ensures forall f :: f in s <==> flags & PluginBit(f) != 0
  {
    var s0 := WithFlagIf({}, flags, FlagIsHDR, NgxIsHDR);
    var s1 := WithFlagIf(s0, flags, FlagMVLowRes, NgxMVLowRes);
    var s2 := WithFlagIf(s1, flags, FlagMVJittered, NgxMVJittered);
    var s3 := WithFlagIf(s2, flags, FlagDepthInverted, NgxDepthInverted);
    var s4 := WithFlagIf(s3, flags, FlagAutoExposure, NgxAutoExposure);
    WithFlagIf(s4, flags, FlagAlphaUpscaling, NgxAlphaUpscaling)
  }

  /** The plugin bitmask that requests exactly the NGX flags in `s`. */
  function PluginFlags(s: set<NgxFeatureFlag>): bv32 {
    (if NgxIsHDR in s then FlagIsHDR else 0)
    | (if NgxMVLowRes in s then FlagMVLowRes else 0)
    | (if NgxMVJittered in s then FlagMVJittered else 0)
    | (if NgxDepthInverted in s then FlagDepthInverted else 0)
    | (if NgxAutoExposure in s then FlagAutoExposure else 0)
    | (if NgxAlphaUpscaling in s then FlagAlphaUpscaling else 0)
  }

  /** Bits outside the six known flags never reach NGX. */
  lemma FlagsIgnoreUnknownBits(flags: bv32)
    ensures ToNGXFeatureFlags(flags & KnownFlags) == ToNGXFeatureFlags(flags)
  {
    forall f | true
      ensures f in ToNGXFeatureFlags(flags & KnownFlags) <==> f in ToNGXFeatureFlags(flags)
    {
      assert (flags & KnownFlags) & PluginBit(f) == flags & PluginBit(f);
    }
  }

  /** Every set of NGX flags is requested by exactly one known-bits plugin mask. */
  lemma FlagsRoundTrip(s: set<NgxFeatureFlag>, flags: bv32)
    ensures ToNGXFeatureFlags(PluginFlags(s)) == s
    ensures PluginFlags(ToNGXFeatureFlags(flags)) == flags & KnownFlags
  {
    forall f | true
      ensures f in ToNGXFeatureFlags(PluginFlags(s)) <==> f in s
    {
      match f
      case NgxIsHDR =>
      case NgxMVLowRes =>
      case NgxMVJittered =>
      case NgxDepthInverted =>
      case NgxAutoExposure =>
      case NgxAlphaUpscaling =>
    }
  }

  // ---------------------------------------------------------------- result strings

  const UnknownResultString: string := "Unknown error"

  /** `GetResultString`: a fixed message per result code, a generic one otherwise. */
  function GetResultString(result: int): (msg: string)
    ensures msg == UnknownResultString <==> !(NGXError.Code() <= result <= Success.Code())
  {
    if result == Success.Code() then "Success"
    else if result == NotInitialized.Code() then "Not initialized"
    else if result == FeatureNotSupported.Code() then "Feature not supported"
    else if result == InvalidParameter.Code() then "Invalid parameter"
    else if result == OutOfMemory.Code() then "Out of memory"
    else if result == ContextNotFound.Code() then "Context not found"
    else if result == ContextAlreadyExists.Code() then "Context already exists"
    else if result == DriverOutOfDate.Code() then "Driver out of date"
    else if result == PlatformError.Code() then "Platform error"
    else if result == NGXError.Code() then "NGX error"
    else UnknownResultString
  }

  /** Distinct result codes have distinct messages. */
  lemma ResultStringsDistinct(a: DLSSResult, b: DLSSResult)
    requires a != b
    ensures GetResultString(a.Code()) != GetResultString(b.Code())
  {
  }

  // ---------------------------------------------------------------- NGX results

  /** The plugin result each NGX failure is surfaced as. */
  function TranslateFailure(f: NgxFailure): (r: DLSSResult)
    ensures r != Success
    ensures f.FailUnlisted? ==> r == NGXError
  {
    match f
    case FailFeatureNotSupported => FeatureNotSupported
    case FailPlatformError => PlatformError
    case FailFeatureAlreadyExists => ContextAlreadyExists
    case FailFeatureNotFound => ContextNotFound
    case FailInvalidParameter => InvalidParameter
    case FailScratchBufferTooSmall => InvalidParameter
    case FailNotInitialized => NotInitialized
    case FailUnsupportedInputFormat => InvalidParameter
    case FailRWFlagMissing => InvalidParameter
    case FailMissingInput => InvalidParameter
    case FailUnableToInitializeFeature => NGXError
    case FailOutOfDate => DriverOutOfDate
    case FailOutOfGPUMemory => OutOfMemory
    case FailUnsupportedFormat => InvalidParameter
    case FailUnableToWriteToAppDataPath => PlatformError
    case FailUnsupportedParameter => InvalidParameter
    case FailDenied => FeatureNotSupported
    case FailNotImplemented => FeatureNotSupported
    case FailUnlisted(_) => NGXError
  }

  /** The description and the suggestion the translator logs for each NGX failure. */
  function FailureText(f: NgxFailure): (string, string) {
    match f
    case FailFeatureNotSupported => ("Feature not supported",
      "Check GPU compatibility (requires NVIDIA RTX) and driver version")
    case FailPlatformError => ("Platform error",
      "Ensure D3D12 device is valid and properly initialized")
    case FailFeatureAlreadyExists => ("Feature already exists",
      "Destroy existing context before creating a new one with same ID")
    case FailFeatureNotFound => ("Feature not found",
      "Ensure context was created before executing")
    case FailInvalidParameter => ("Invalid parameter",
      "Check input textures, resolutions, and parameter values")
    case FailScratchBufferTooSmall => ("Scratch buffer too small",
      "Internal buffer allocation issue - try recreating context")
    case FailNotInitialized => ("NGX not initialized",
      "Call DLSS_Initialize() before using DLSS features")
    case FailUnsupportedInputFormat => ("Unsupported input format",
      "Check texture formats - DLSS requires specific formats (e.g., RGBA16F for color)")
    case FailRWFlagMissing => ("Read/Write flag missing on resource",
      "Ensure output texture has UAV (unordered access) flag enabled")
    case FailMissingInput => ("Required input missing",
      "Provide all required textures (color, depth, motion vectors, output)")
    case FailUnableToInitializeFeature => ("Unable to initialize feature",
      "DLSS model files may be missing or corrupted - reinstall DLSS DLLs")
    case FailOutOfDate => ("Driver or SDK out of date",
      "Update NVIDIA driver to latest version (minimum 531.0 for SR, 545.0 for RR)")
    case FailOutOfGPUMemory => ("Out of GPU memory",
      "Reduce resolution, quality preset, or free GPU memory")
    case FailUnsupportedFormat => ("Unsupported texture format",
      "Use compatible formats: RGBA16F/RGBA32F for color, R32F/D32F for depth")
    case FailUnableToWriteToAppDataPath => ("Unable to write to app data path",
      "Check write permissions for DLSS log/cache directory")
    case FailUnsupportedParameter => ("Unsupported parameter value",
      "Check quality preset, feature flags, and mode settings")
    case FailDenied => ("Feature access denied",
      "DLSS may be disabled by driver settings or application profile")
    case FailNotImplemented => ("Feature not implemented",
      "This feature may not be available in current SDK/driver version")
    case FailUnlisted(_) => ("Unknown NGX error", "Check NGX error code for details")
  }

  /** `TranslateNGXResult`: success to Success, every failure to a failure code. */
  function TranslateNGXResult(ngx: NgxResult): (r: DLSSResult)
    ensures r == Success <==> !Failed(ngx)
    ensures ngx == NgxFail(FailOutOfDate) ==> r == DriverOutOfDate
    ensures ngx == NgxFail(FailOutOfGPUMemory) ==> r == OutOfMemory
    ensures ngx.NgxFail? && ngx.failure.FailUnlisted? ==> r == NGXError
  {
    match ngx
    case NgxSuccess => Success
    case NgxFail(f) => TranslateFailure(f)
  }

  /** A line the translator writes to the error log. */
  datatype LogLine = ErrorLine(raw: NgxResult, description: string) | SuggestionLine(text: string)

  /** The log lines `TranslateNGXResult` writes for `ngx`. */
  function TranslationLog(ngx: NgxResult): (log: seq<LogLine>)
    ensures log == [] <==> TranslateNGXResult(ngx) == Success
    ensures log != [] ==> |log| == 2 && log[0].ErrorLine? && log[0].raw == ngx && log[1].SuggestionLine?
  {
    match ngx
    case NgxSuccess => []
    case NgxFail(f) => [ErrorLine(ngx, FailureText(f).0), SuggestionLine(FailureText(f).1)]
  }

  /** The NGX code each plugin result stands for: the translation reaches every result. */
  function CanonicalNgxResult(r: DLSSResult): NgxResult {
    match r
    case Success => NgxSuccess
    case NotInitialized => NgxFail(FailNotInitialized)
    case FeatureNotSupported => NgxFail(FailFeatureNotSupported)
    case InvalidParameter => NgxFail(FailInvalidParameter)
    case OutOfMemory => NgxFail(FailOutOfGPUMemory)
    case ContextNotFound => NgxFail(FailFeatureNotFound)
    case ContextAlreadyExists => NgxFail(FailFeatureAlreadyExists)
    case DriverOutOfDate => NgxFail(FailOutOfDate)
    case PlatformError => NgxFail(FailPlatformError)
    case NGXError => NgxFail(FailUnableToInitializeFeature)
  }

  lemma TranslateCanonical(r: DLSSResult)
    ensures TranslateNGXResult(CanonicalNgxResult(r)) == r
  {
    match r
    case Success =>
    case NotInitialized =>
    case FeatureNotSupported =>
    case InvalidParameter =>
    case OutOfMemory =>
    case ContextNotFound =>
    case ContextAlreadyExists =>
    case DriverOutOfDate =>
    case PlatformError =>
    case NGXError =>
  }
}
