/** testFunctionInstance: the switch that routes a function code to the test
    loop of its signature family together with its trusted function, and the
    stop check that follows it. The loops, the trusted arithmetic and the
    subject arithmetic are outside the model: a dispatch is described by the
    loop it reaches, the trusted function's name, how the subject pointer is
    passed, and the rounding arguments the loop receives. */
module Dispatch {
  import opened Common
  import opened Functions
  import opened BuildConfig

  /** The test loop families (test_a_ui32_z_f16, test_abz_f32, ...). */
  datatype Loop =
    | IntToFloatLoop(fromInt: IntType, to: Format)
    | FloatToIntRxLoop(from: Format, toInt: IntType)
    | FloatToFloatLoop(from: Format, to: Format)
    | RoundToIntRxLoop(fmt: Format)
    | UnaryLoop(fmt: Format)
    | BinaryLoop(fmt: Format)
    | TernaryLoop(fmt: Format)
    | CompareLoop(fmt: Format)
    | Bf16ToF32Loop
    | F32ToBf16Loop
  {
    /** The `_rx` loops, which take a rounding mode and an exact flag. */
    predicate TakesRounding()
    {
      FloatToIntRxLoop? || RoundToIntRxLoop?
    }
  }

  /** The function type a loop tests (funcType_a_ui32_z_f16, funcType_az_f32
      with the rounding arguments of its `_rx` form, funcType_ab_f64_z_bool,
      ...): the type its trusted function has and its subject pointer is cast
      to, read off the loop's name. */
  function LoopSignature(l: Loop): Signature
  {
    match l
    case IntToFloatLoop(i, f) => Signature([IntArg(i)], FloatArg(f), false)
    case FloatToIntRxLoop(f, i) => Signature([FloatArg(f)], IntArg(i), true)
    case FloatToFloatLoop(f, g) => Signature([FloatArg(f)], FloatArg(g), false)
    case RoundToIntRxLoop(f) => Signature([FloatArg(f)], FloatArg(f), true)
    case UnaryLoop(f) => Signature([FloatArg(f)], FloatArg(f), false)
    case BinaryLoop(f) => Signature([FloatArg(f), FloatArg(f)], FloatArg(f), false)
    case TernaryLoop(f) => Signature([FloatArg(f), FloatArg(f), FloatArg(f)], FloatArg(f), false)
    case CompareLoop(f) => Signature([FloatArg(f), FloatArg(f)], BoolArg, false)
    case Bf16ToF32Loop => Signature([Bf16Arg], FloatArg(F32), false)
    case F32ToBf16Loop => Signature([FloatArg(F32)], Bf16Arg, false)
  }

  /** A loop the file has: there is no test_a_<f>_z_<f> for a format to itself. */
  predicate Defined(l: Loop)
  {
    !(l.FloatToFloatLoop? && l.from == l.to)
  }

  /** Among the loops the file has, the tested type names the loop. */
  lemma LoopSignatureNamesLoop(l1: Loop, l2: Loop)
    requires Defined(l1) && Defined(l2)
    ensures (LoopSignature(l1) == LoopSignature(l2)) <==> l1 == l2
  {
  }

  /** The rounding arguments are part of the tested type exactly for the
      `_rx` loops. */
  lemma RxLoopsTakeRounding(l: Loop)
    ensures LoopSignature(l).rounding <==> l.TakesRounding()
  {
  }

  /** How the subject pointer reaches the loop: cast to the loop's function
      type, or wrapped in one of the subjFunction_*_rx adapters. */
  datatype SubjectBinding = Cast | RxAdapter

  /** The `roundingMode` and `exact` arguments an `_rx` loop receives. The mode
      is named by the rounding code whose roundingModes[] entry it is; None is
      testFunction's never-assigned local. */
  datatype RoundingArgs = RoundingArgs(mode: Option<nat>, exact: bool)

  datatype Invocation = Invocation(
    loop: Loop,
    trusted: string,
    subject: SubjectBinding,
    rounding: Option<RoundingArgs>)

  /** Codes whose case is guarded by a SUBJ_<CODE> macro. The float-to-integer
      conversions, roundToInt and the bfloat16 conversions are not. */
  predicate NeedsSubjMacro(code: FunctionCode)
  {
    code.IntToFloat? || code.FloatToFloat? || code.Arith? || code.MulAdd? || code.Sqrt? || code.Compare?
  }

  /** The formats a code mentions; its case is compiled only if all are. */
  function FormatsOf(code: FunctionCode): set<Format>
  {
    match code
    case IntToFloat(_, f) => {f}
    case FloatToInt(f, _) => {f}
    case FloatToFloat(f, g) => {f, g}
    case RoundToInt(f) => {f}
    case Arith(_, f) => {f}
    case MulAdd(f) => {f}
    case Sqrt(f) => {f}
    case Compare(_, f) => {f}
    case Bf16ToF32 => {F32}
    case F32ToBf16 => {F32}
  }

  /** The switch, read as a table: a code has a case when its formats (and
      bfloat16 for the bfloat16 conversions) are built, its SUBJ_ macro is
      defined where one guards it, and the switch lists it at all; there is
      no case for a same-format conversion and none for extF80 mulAdd. */
  predicate Compiled(b: Build, code: FunctionCode)
  {
    && (forall f :: f in FormatsOf(code) ==> FormatBuilt(b, f))
    && (code.Bf16ToF32? || code.F32ToBf16? ==> b.bfloat16)
    && (NeedsSubjMacro(code) ==> code in b.subjMacros)
    && !(code.FloatToFloat? && code.from == code.to)
    && code != MulAdd(ExtF80)
  }

  /** With every format, bfloat16 and every SUBJ_ macro built, the only codes
      without a case are the same-format conversions and extF80 mulAdd. */
  lemma FullBuildCompilesEveryCase(b: Build, code: FunctionCode)
    requires b.float16 && b.float64 && b.extFloat80 && b.float128 && b.bfloat16
    requires forall c :: NeedsSubjMacro(c) ==> c in b.subjMacros
    ensures Compiled(b, code) <==> !(code.FloatToFloat? && code.from == code.to) && code != MulAdd(ExtF80)
  {
  }

  /** With none of the optional formats built, only single-precision cases
      are compiled, and no bfloat16 conversion is. */
  lemma SingleOnlyBuildCompilesF32Cases(b: Build, code: FunctionCode)
    requires !b.float16 && !b.float64 && !b.extFloat80 && !b.float128 && !b.bfloat16
    ensures Compiled(b, code) ==> FormatsOf(code) == {F32} && !code.Bf16ToF32? && !code.F32ToBf16?
  {
  }

  function Plain(loop: Loop, code: FunctionCode): Invocation
  {
    Invocation(loop, TrustedName(code), Cast, None)
  }

  function Rx(loop: Loop, code: FunctionCode, roundingMode: Option<nat>, exact: bool): Invocation
  {
    Invocation(loop, TrustedName(code), RxAdapter, Some(RoundingArgs(roundingMode, exact)))
  }

  /** testFunctionInstance's switch (lines 533-1355). None is a code with no
      compiled case: the switch does nothing. */
  function TestFunctionInstance(b: Build, code: FunctionCode, roundingMode: Option<nat>, exact: bool): (r: Option<Invocation>)
    ensures r.Some? <==> Compiled(b, code)
    ensures r.Some? ==> Defined(r.value.loop) && LoopSignature(r.value.loop) == CodeSignature(code)
    ensures r.Some? ==> r.value.trusted == TrustedName(code)
    ensures r.Some? ==> (r.value.subject == RxAdapter <==> r.value.loop.TakesRounding())
    ensures r.Some? ==> (r.value.rounding.Some? <==> r.value.loop.TakesRounding())
    ensures r.Some? && r.value.rounding.Some? ==> r.value.rounding.value == RoundingArgs(roundingMode, exact)
  {
    match code
    case IntToFloat(i, f) =>
      if FormatBuilt(b, f) && code in b.subjMacros then Some(Plain(IntToFloatLoop(i, f), code)) else None
    case FloatToInt(f, i) =>
      if FormatBuilt(b, f) then Some(Rx(FloatToIntRxLoop(f, i), code, roundingMode, exact)) else None
    case FloatToFloat(f, g) =>
      if f != g && FormatBuilt(b, f) && FormatBuilt(b, g) && code in b.subjMacros
      then Some(Plain(FloatToFloatLoop(f, g), code)) else None
    case RoundToInt(f) =>
      if FormatBuilt(b, f) then Some(Rx(RoundToIntRxLoop(f), code, roundingMode, exact)) else None
    case Arith(_, f) =>
      // every arithmetic case stores its trusted function and jumps to test_abz_<fmt>
      if FormatBuilt(b, f) && code in b.subjMacros then Some(Plain(BinaryLoop(f), code)) else None
    case MulAdd(f) =>
      if f != ExtF80 && FormatBuilt(b, f) && code in b.subjMacros then Some(Plain(TernaryLoop(f), code)) else None
    case Sqrt(f) =>
      if FormatBuilt(b, f) && code in b.subjMacros then Some(Plain(UnaryLoop(f), code)) else None
    case Compare(_, f) =>
      // every comparison stores its trusted function and jumps to test_ab_<fmt>_z_bool
      if FormatBuilt(b, f) && code in b.subjMacros then Some(Plain(CompareLoop(f), code)) else None
    case Bf16ToF32 =>
      if b.bfloat16 then Some(Plain(Bf16ToF32Loop, code)) else None
    case F32ToBf16 =>
      if b.bfloat16 then Some(Plain(F32ToBf16Loop, code)) else None
  }

  /** ADD, SUB, MUL, DIV and REM of one format reach the same binary loop,
      each paired with its own trusted function. */
  lemma ArithSharesBinaryLoop(b: Build, op1: ArithOp, op2: ArithOp, f: Format, m: Option<nat>, e: bool)
    requires Compiled(b, Arith(op1, f)) && Compiled(b, Arith(op2, f))
    ensures TestFunctionInstance(b, Arith(op1, f), m, e).value.loop == BinaryLoop(f)
    ensures TestFunctionInstance(b, Arith(op2, f), m, e).value.loop == BinaryLoop(f)
    ensures (TestFunctionInstance(b, Arith(op1, f), m, e).value.trusted
             == TestFunctionInstance(b, Arith(op2, f), m, e).value.trusted) <==> op1 == op2
  {
    ArithTrustedNamesDistinct(op1, op2, f);
  }

  /** The six comparisons of one format reach the same boolean loop, each
      paired with its own trusted function. */
  lemma ComparisonsShareBooleanLoop(b: Build, c1: CompareOp, c2: CompareOp, f: Format, m: Option<nat>, e: bool)
    requires Compiled(b, Compare(c1, f)) && Compiled(b, Compare(c2, f))
    ensures TestFunctionInstance(b, Compare(c1, f), m, e).value.loop == CompareLoop(f)
    ensures TestFunctionInstance(b, Compare(c2, f), m, e).value.loop == CompareLoop(f)
    ensures (TestFunctionInstance(b, Compare(c1, f), m, e).value.trusted
             == TestFunctionInstance(b, Compare(c2, f), m, e).value.trusted) <==> c1 == c2
  {
    CompareTrustedNamesDistinct(c1, c2, f);
  }

  /** Only the integer conversions and roundToInt go to an `_rx` loop; every
      other dispatch is the same whatever rounding mode and exact flag
      testFunction passes. */
  lemma RoundingArgsReachOnlyRxLoops(b: Build, code: FunctionCode, m1: Option<nat>, e1: bool, m2: Option<nat>, e2: bool)
    requires Compiled(b, code)
    ensures TestFunctionInstance(b, code, m1, e1).value.loop.TakesRounding() <==> code.FloatToInt? || code.RoundToInt?
    ensures !(code.FloatToInt? || code.RoundToInt?) ==> TestFunctionInstance(b, code, m1, e1) == TestFunctionInstance(b, code, m2, e2)
  {
  }

  /** The fused multiply-add goes to the ternary loop; extF80 has no such case. */
  lemma MulAddGoesToTernaryLoop(b: Build, f: Format, m: Option<nat>, e: bool)
    ensures Compiled(b, MulAdd(f)) ==> TestFunctionInstance(b, MulAdd(f), m, e).value.loop == TernaryLoop(f)
    ensures TestFunctionInstance(b, MulAdd(ExtF80), m, e).None?
  {
  }

  /** subjFunction_*_rx: each of the 25 adapters calls the subject pointer
      without `roundingMode` and `exact`. `A` is what it does forward: the
      operand, or for subjFunction_az_extF80_rx and subjFunction_az_f128_rx
      the pair (aPtr, zPtr), whose call returns void. */
  function AdaptRx<A, R>(subject: A -> R, a: A, roundingMode: Option<nat>, exact: bool): R
  {
    subject(a)
  }

  /** What the subject computes through an adapter does not depend on the
      rounding arguments the loop passes: it sees rounding only through the
      ambient mode that testFunction sets. */
  lemma AdaptRxIgnoresRounding<A, R>(subject: A -> R, a: A, m1: Option<nat>, e1: bool, m2: Option<nat>, e2: bool)
    ensures AdaptRx(subject, a, m1, e1) == AdaptRx(subject, a, m2, e2) == subject(a)
  {
  }

  /** The run-state bits read after the dispatch (lines 1356-1358). */
  datatype RunStatus = RunStatus(anyErrors: bool, stop: bool)

  /** The stop check: when it holds, the process exits through
      verCases_exitWithStatus; modelled as halted. */
  predicate Halts(errorStop: bool, s: RunStatus)
  {
    (errorStop && s.anyErrors) || s.stop
  }
}
