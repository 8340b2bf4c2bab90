/**
 * The plugin's public types: result codes, enumerations, flag bits and the
 * context-creation and execution parameter records. C enumerations are plain
 * `int`s here because a caller may pass any value, and the conversions
 * have explicit default branches for values outside the enumeration.
 */
module PluginTypes {

  type uint32 = x: int | 0 <= x < 0x1_0000_0000
  type int32 = x: int | -0x8000_0000 <= x < 0x8000_0000

  /** `DLSSResult`: what every plugin entry point reports. */
  datatype DLSSResult =
    | Success
    | NotInitialized
    | FeatureNotSupported
    | InvalidParameter
    | OutOfMemory
    | ContextNotFound
    | ContextAlreadyExists
    | DriverOutOfDate
    | PlatformError
    | NGXError
  {
    /** The enumerator's value in the C header. */
    function Code(): int {
      match this
      case Success => 0
      case NotInitialized => -1
      case FeatureNotSupported => -2
      case InvalidParameter => -3
      case OutOfMemory => -4
      case ContextNotFound => -5
      case ContextAlreadyExists => -6
      case DriverOutOfDate => -7
      case PlatformError => -8
      case NGXError => -9
    }
  }

  /** `DLSSMode` */
  const ModeOff: int := 0
  const ModeSuperResolution: int := 1
  const ModeRayReconstruction: int := 2

  /** `DLSSQuality` */
  const QualityMaxPerformance: int := 0
  const QualityBalanced: int := 1
  const QualityMaxQuality: int := 2
  const QualityUltraPerformance: int := 3
  const QualityUltraQuality: int := 4
  const QualityDLAA: int := 5

  /** `DLSSSRPreset` */
  const SRPresetDefault: int := 0
  const SRPresetF: int := 6
  const SRPresetG: int := 7
  const SRPresetJ: int := 10
  const SRPresetK: int := 11
  const SRPresetL: int := 12
  const SRPresetM: int := 13

  /** `DLSSRRPreset` */
  const RRPresetDefault: int := 0
  const RRPresetD: int := 4
  const RRPresetE: int := 5

  /** `DLSSFeatureFlags` bits */
  const FlagIsHDR: bv32 := 1
  const FlagMVLowRes: bv32 := 2
  const FlagMVJittered: bv32 := 4
  const FlagDepthInverted: bv32 := 8
  const FlagAutoExposure: bv32 := 64
  const FlagAlphaUpscaling: bv32 := 128

  /** The bits that have a meaning; every other bit is ignored. */
  const KnownFlags: bv32 := FlagIsHDR | FlagMVLowRes | FlagMVJittered | FlagDepthInverted | FlagAutoExposure | FlagAlphaUpscaling

  /** `DLSSDimensions` */
  datatype Dimensions = Dimensions(width: uint32, height: uint32)

  /** One render preset per quality level. */
  datatype PresetSet = PresetSet(
    dlaa: int, quality: int, balanced: int, performance: int, ultraPerformance: int, ultraQuality: int)

  /** `DLSSContextCreateParams` */
  datatype CreateParams = CreateParams(
    mode: int,
    quality: int,
    inputResolution: Dimensions,
    outputResolution: Dimensions,
    featureFlags: bv32,
    srPresets: PresetSet,
    denoiseMode: int,
    depthType: int,
    roughnessMode: int,
    rrPresets: PresetSet,
    enableOutputSubrects: int)

  /** The zero-initialised `DLSSContextCreateParams {}`. */
  const DefaultParams: CreateParams :=
    CreateParams(0, 0, Dimensions(0, 0), Dimensions(0, 0), 0, PresetSet(0, 0, 0, 0, 0, 0),
                 0, 0, 0, PresetSet(0, 0, 0, 0, 0, 0), 0)

  /**
   * `DLSSExecuteParams`, reduced to the field that selects the evaluation
   * path; the textures and per-frame scalars are forwarded to NGX unread.
   */
  datatype ExecuteParams = ExecuteParams(mode: int)
}
