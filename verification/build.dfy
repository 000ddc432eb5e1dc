/** The compile-time configuration the dispatch layer depends on: the format
    macros (FLOAT16, FLOAT64, EXTFLOAT80, FLOAT128, BFLOAT16), the subject's
    SUBJ_* macros from subjfloat_config.h, and the two rounding-mode macros. */
module BuildConfig {
  import opened Functions

  datatype Build = Build(
    float16: bool,
    float64: bool,
    extFloat80: bool,
    float128: bool,
    bfloat16: bool,
    /** The codes whose SUBJ_<CODE> macro is defined. */
    subjMacros: set<FunctionCode>,
    /** SUBJFLOAT_ROUND_NEAR_MAXMAG */
    subjNearMaxMag: bool,
    /** FLOAT_ROUND_ODD */
    floatRoundOdd: bool)

  /** Is the format compiled in? Single precision always is. */
  predicate FormatBuilt(b: Build, f: Format)
  {
    match f
    case F16 => b.float16
    case F32 => true
    case F64 => b.float64
    case ExtF80 => b.extFloat80
    case F128 => b.float128
  }
}
