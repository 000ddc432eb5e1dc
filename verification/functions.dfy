/** The operation catalog: function codes, their rounding attributes and the
    standard-function entries that `main` walks. The enum and tables themselves
    live in TestFloat's functions.h/functions_common.c, which are not part of
    this model; only their shape is modelled here. */
module Functions {
  import opened Common

  /** The floating-point formats of the switch in testFunctionInstance. */
  datatype Format = F16 | F32 | F64 | ExtF80 | F128

  /** The integer formats of the int<->float conversions. */
  datatype IntType = UI32 | UI64 | I32 | I64

  /** The operations that share the two-operand test loop through `goto`. */
  datatype ArithOp = Add | Sub | Mul | Div | Rem

  /** The six comparisons that share the boolean test loop through `goto`. */
  datatype CompareOp = Eq | Le | Lt | EqSignaling | LeQuiet | LtQuiet

  /** A function code (UI32_TO_F16, F32_ADD, EXTF80_LT_QUIET, ...), named by
      its structure instead of by its enum value. */
  datatype FunctionCode =
    | IntToFloat(fromInt: IntType, to: Format)
    | FloatToInt(from: Format, toInt: IntType)
    | FloatToFloat(from: Format, to: Format)
    | RoundToInt(fmt: Format)
    | Arith(op: ArithOp, fmt: Format)
    | MulAdd(fmt: Format)
    | Sqrt(fmt: Format)
    | Compare(cmp: CompareOp, fmt: Format)
    | Bf16ToF32
    | F32ToBf16

  /** The rounding bits of functionInfos[code].attribs:
      FUNC_ARG_ROUNDINGMODE, FUNC_EFF_ROUNDINGMODE, FUNC_EFF_ROUNDINGPRECISION. */
  datatype Attribs = Attribs(argRoundingMode: bool, effRoundingMode: bool, effRoundingPrecision: bool)

  /** Does the operation consume or depend on a rounding mode at all? */
  predicate ModeSensitive(a: Attribs)
  {
    a.argRoundingMode || a.effRoundingMode
  }

  /** A value a SoftFloat function takes or returns. bfloat16 values travel
      in a float16_t but are a type of their own. */
  datatype Operand = FloatArg(fmt: Format) | IntArg(it: IntType) | Bf16Arg | BoolArg

  /** A C function type: its value operands, its result, and whether it also
      takes a rounding mode and an exact flag. */
  datatype Signature = Signature(args: seq<Operand>, result: Operand, rounding: bool)

  /** The type of the SoftFloat function a code names (f32_to_ui32,
      f64_mulAdd, f16_le, bf16_to_f32, ...): only the conversions to integer
      and roundToInt take a rounding mode and an exact flag. */
  function CodeSignature(code: FunctionCode): Signature
  {
    match code
    case IntToFloat(i, f) => Signature([IntArg(i)], FloatArg(f), false)
    case FloatToInt(f, i) => Signature([FloatArg(f)], IntArg(i), true)
    case FloatToFloat(f, g) => Signature([FloatArg(f)], FloatArg(g), false)
    case RoundToInt(f) => Signature([FloatArg(f)], FloatArg(f), true)
    case Arith(_, f) => Signature([FloatArg(f), FloatArg(f)], FloatArg(f), false)
    case MulAdd(f) => Signature([FloatArg(f), FloatArg(f), FloatArg(f)], FloatArg(f), false)
    case Sqrt(f) => Signature([FloatArg(f)], FloatArg(f), false)
    case Compare(_, f) => Signature([FloatArg(f), FloatArg(f)], BoolArg, false)
    case Bf16ToF32 => Signature([Bf16Arg], FloatArg(F32), false)
    case F32ToBf16 => Signature([FloatArg(F32)], Bf16Arg, false)
  }

  /** One entry of standardFunctionInfos. The catalog ends at the entry whose
      name is null (None here). A non-zero `roundingCode` is a rounding mode
      the operation is specified always to use. */
  datatype StandardFunctionInfo = StandardFunctionInfo(
    namePtr: Option<string>,
    functionCode: FunctionCode,
    roundingCode: nat,
    exact: bool)

  /** The name prefix SoftFloat gives a format; the wide formats use the
      pointer-passing `M` variants. */
  function FormatName(f: Format): string
  {
    match f
    case F16 => "f16"
    case F32 => "f32"
    case F64 => "f64"
    case ExtF80 => "extF80M"
    case F128 => "f128M"
  }

  function IntName(i: IntType): string
  {
    match i
    case UI32 => "ui32"
    case UI64 => "ui64"
    case I32 => "i32"
    case I64 => "i64"
  }

  function ArithName(op: ArithOp): string
  {
    match op
    case Add => "add"
    case Sub => "sub"
    case Mul => "mul"
    case Div => "div"
    case Rem => "rem"
  }

  function CompareName(cmp: CompareOp): string
  {
    match cmp
    case Eq => "eq"
    case Le => "le"
    case Lt => "lt"
    case EqSignaling => "eq_signaling"
    case LeQuiet => "le_quiet"
    case LtQuiet => "lt_quiet"
  }

  /** The trusted (SoftFloat) function the switch pairs with a code, identified
      by its name only: the arithmetic itself is outside the model. */
  function TrustedName(code: FunctionCode): string
  {
    match code
    case IntToFloat(i, f) => IntName(i) + "_to_" + FormatName(f)
    case FloatToInt(f, i) => FormatName(f) + "_to_" + IntName(i)
    case FloatToFloat(f, g) => FormatName(f) + "_to_" + FormatName(g)
    case RoundToInt(f) => FormatName(f) + "_roundToInt"
    case Arith(op, f) => FormatName(f) + "_" + ArithName(op)
    case MulAdd(f) => FormatName(f) + "_mulAdd"
    case Sqrt(f) => FormatName(f) + "_sqrt"
    case Compare(cmp, f) => FormatName(f) + "_" + CompareName(cmp)
    case Bf16ToF32 => "bf16_to_f32"
    case F32ToBf16 => "f32_to_bf16"
  }

  /** Two strings with the same prefix are equal only if their tails are. */
  lemma {:induction false} SamePrefixCancels(p: string, s: string, t: string)
    requires p + s == p + t
    ensures s == t
  {
    assert s == (p + s)[|p|..];
    assert t == (p + t)[|p|..];
  }

  /** Each arithmetic operation of a format has a trusted function of its own. */
  lemma ArithTrustedNamesDistinct(op1: ArithOp, op2: ArithOp, f: Format)
    ensures TrustedName(Arith(op1, f)) == TrustedName(Arith(op2, f)) <==> op1 == op2
  {
    if TrustedName(Arith(op1, f)) == TrustedName(Arith(op2, f)) {
      SamePrefixCancels(FormatName(f) + "_", ArithName(op1), ArithName(op2));
      assert ArithName(op1)[0] == ArithName(op2)[0];
    }
  }

  /** Each comparison of a format has a trusted function of its own. */
  lemma CompareTrustedNamesDistinct(c1: CompareOp, c2: CompareOp, f: Format)
    ensures TrustedName(Compare(c1, f)) == TrustedName(Compare(c2, f)) <==> c1 == c2
  {
    if TrustedName(Compare(c1, f)) == TrustedName(Compare(c2, f)) {
      SamePrefixCancels(FormatName(f) + "_", CompareName(c1), CompareName(c2));
      var n1, n2 := CompareName(c1), CompareName(c2);
      assert n1[0] == n2[0] && n1[1] == n2[1] && |n1| == |n2|;
      if |n1| > 2 {
        assert n1[3] == n2[3];
      }
    }
  }
}
