# TestFloat dispatch and configuration layer, in Dafny

This project models the dispatch and configuration layer of the
single-operation TestFloat driver (`testfloat-pe/main_individual_tests.c`).
The driver runs one selected floating-point operation against a trusted
implementation (SoftFloat) and a subject implementation. The model covers:

- `testFunction`: which rounding precisions (none, or 32/64/80 for
  extF80) and rounding codes an operation is run under. It also covers what
  the function writes to the ambient registers before each
  `testFunctionInstance` call.
- `testFunctionInstance`: which test loop each function code reaches (the
  one testing the code's function type), with
  which trusted function, whether the subject is wrapped in an `_rx` adapter,
  and the stop check that follows.
- The `subjFunction_*_rx` adapters, which drop their rounding arguments.
- The catalog lookup in `main`, with its forced precision 80 and
  `ROUND_NEAR_EVEN`.

The arithmetic, the test loops, the case generator and the verifier are not
modelled. An operation is identified by its function code, and a trusted
function by its SoftFloat name.

Modules, one per file:

- `Common` (`common.dfy`): `Option`.
- `Functions` (`functions.dfy`): function codes, rounding attributes,
  catalog entries, and trusted-function names.
- `BuildConfig` (`build.dfy`): the preprocessor configuration as a record.
  This covers the format macros, the `SUBJ_*` macros,
  `SUBJFLOAT_ROUND_NEAR_MAXMAG` and `FLOAT_ROUND_ODD`.
- `Rounding` (`rounding.dfy`): rounding codes and the build-dependent codes
  the mode loop visits.
- `Dispatch` (`dispatch.dfy`): the `testFunctionInstance` switch, the `_rx`
  adapters and the stop check.
- `TestFunction` (`test_function.dfy`): the precision and mode loops. They
  appear as a pure trace function (`Plan`), as an independent schedule
  (`Grid` of `PrecisionSchedule` × `CodeSchedule`), and as methods that mirror
  the C loops. Each form is proved equal to the others.
- `Run` (`run.dfy`): a `testFunction` run cut short by the stop check.
- `Selection` (`selection.dfy`): `main`.

Modelling choices:

- Rounding codes follow TestFloat's `functions.h` enum, which is not part of
  this model: `ROUND_NEAR_EVEN` = 1, `ROUND_MINMAG` = 2, `ROUND_MIN` = 3,
  `ROUND_MAX` = 4, `ROUND_NEAR_MAXMAG` = 5, and `ROUND_ODD` = 6.
- `NUM_ROUNDINGMODES` is 7 when `FLOAT_ROUND_ODD` is defined and 6 otherwise,
  because the enum declares `ROUND_ODD` only under that macro.
- A rounding mode is named by the code whose `roundingModes[]` entry it is.
  The contents of that table are not part of this model.
- The registers `testFunction` writes are modelled as `Option` values. `None`
  means "not written since `testFunction` was entered". The never-assigned
  local `roundingMode`, which is passed when the code is 0, is `None`.
- The run-state bits read by the stop check are set by the test loops and by
  the interrupt handler. They are an input here: `statusAfter(i)` is what the
  check after the i-th instance call reads. Process exit is the `halted` flag
  of `Outcome`.
- The two build-optional rounding modes, "to-nearest-away" and "round-odd",
  look like independent options but the code ties them together. The model
  follows the code:
  - `ROUND_NEAR_MAXMAG` is visited only when `SUBJFLOAT_ROUND_NEAR_MAXMAG` is
    defined.
  - `ROUND_ODD` is skipped whenever `SUBJFLOAT_ROUND_NEAR_MAXMAG` is not
    defined. See `Rounding.EnabledCodesByBuild`.
- Both exclusion guards test the loop counter before a forced code replaces
  it. A forced code therefore runs even if it is an excluded mode, because the
  first counter, 1, is never excluded.

## Model

| member | source | states |
|---|---|---|
| `Functions.ArithTrustedNamesDistinct` | testfloat-pe/main_individual_tests.c:886-918 | the five arithmetic cases of a format each store a different trusted function before jumping to the shared body |
| `Functions.CompareTrustedNamesDistinct` | testfloat-pe/main_individual_tests.c:923-959 | the six comparison cases of a format each store a different trusted function |
| `Rounding.EnabledCodesSpec` | testfloat-pe/main_individual_tests.c:1403-1411 | with no code forced, the mode loop visits exactly the codes 1..NUM_ROUNDINGMODES-1 that neither guard excludes, each once, in strictly ascending order |
| `Rounding.EnabledCodesByBuild` | testfloat-pe/main_individual_tests.c:1406-1411 | the visited codes per build: 1-4 without SUBJFLOAT_ROUND_NEAR_MAXMAG, 1-5 with it, and 1-6 when FLOAT_ROUND_ODD is also defined |
| `Rounding.FirstCounterRuns` | testfloat-pe/main_individual_tests.c:1403-1416 | the first loop counter is in range and never excluded, so the forced-code and mode-insensitive passes always happen |
| `Dispatch.TestFunctionInstance` | testfloat-pe/main_individual_tests.c:533-1355 | a code dispatches exactly when its case is compiled (formats built, SUBJ_ macro defined where one guards it, a case exists); the loop it reaches tests exactly the function type of the code's SoftFloat function (operand and result types, integer type, arity, boolean result, rounding arguments), so the subject pointer is cast to the type the code names; the trusted function is the code's own; the subject goes through an `_rx` adapter exactly for the `_rx` loops, which alone receive the rounding mode and exact flag |
| `Dispatch.Compiled` | testfloat-pe/main_individual_tests.c:533-1355 | definition (no contract of its own): a case exists when every format the code mentions is built, bfloat16 is built for the bfloat16 conversions, the code's `SUBJ_` macro is defined where one guards the case, and the code is neither a same-format conversion nor extF80 mulAdd |
| `Dispatch.FullBuildCompilesEveryCase` | testfloat-pe/main_individual_tests.c:533-1355 | with every format, bfloat16 and every `SUBJ_` macro built, every code has a case except the same-format conversions and extF80 mulAdd |
| `Dispatch.SingleOnlyBuildCompilesF32Cases` | testfloat-pe/main_individual_tests.c:533-1355 | with no optional format built, only cases whose formats are all single precision are compiled, and neither bfloat16 conversion is |
| `Dispatch.LoopSignatureNamesLoop` | testfloat-pe/main_individual_tests.c:64-232 | two loops of the file test the same function type only if they are the same loop, so the type fixes which loop a code reaches |
| `Dispatch.RxLoopsTakeRounding` | testfloat-pe/main_individual_tests.c:237-502 | a loop's tested type carries the rounding mode and exact flag exactly when it is an `_rx` loop |
| `Dispatch.ArithSharesBinaryLoop` | testfloat-pe/main_individual_tests.c:886-918 | ADD, SUB, MUL, DIV and REM of one format reach the same binary loop, paired with trusted functions that are equal only for the same operation |
| `Dispatch.ComparisonsShareBooleanLoop` | testfloat-pe/main_individual_tests.c:923-959 | the six comparisons of one format reach the same boolean loop, each with a trusted function of its own |
| `Dispatch.RoundingArgsReachOnlyRxLoops` | testfloat-pe/main_individual_tests.c:833-884 | only integer conversions and roundToInt go to an `_rx` loop; every other dispatch is the same for any rounding mode and exact flag |
| `Dispatch.MulAddGoesToTernaryLoop` | testfloat-pe/main_individual_tests.c:899-904 | mulAdd goes to the ternary loop when compiled, and extF80 mulAdd never dispatches since the switch has no case for it |
| `Dispatch.AdaptRx` | testfloat-pe/main_individual_tests.c:237-502 | definition (no contract of its own; its property is the next row): an adapter calls the subject on what it forwards, the operand or the (aPtr, zPtr) pair, without the rounding arguments |
| `Dispatch.AdaptRxIgnoresRounding` | testfloat-pe/main_individual_tests.c:237-502 | an `_rx` adapter's result does not depend on the rounding mode and exact flag it is given; it is the subject's result on the operand |
| `TestFunction.Plan` | testfloat-pe/main_individual_tests.c:1362-1451 | testFunction's loops make one call per (precision, code) of the schedule, precision-major, each seeing the ambient registers the schedule predicts |
| `TestFunction.SinglePrecisionPass` | testfloat-pe/main_individual_tests.c:1390-1401 | with no FUNC_EFF_ROUNDINGPRECISION (precision 0) or a forced precision, there is one precision pass at that precision; verCases_roundingPrecision holds it and the extF80 precision registers are written only when it is non-zero (EXTFLOAT80 builds) |
| `TestFunction.PrecisionSweep` | testfloat-pe/main_individual_tests.c:1439-1448 | a precision-sensitive operation with no forced precision runs a full pass at 32, then 64, then 80, and nothing after |
| `TestFunction.ModeInsensitiveRunsOncePerPass` | testfloat-pe/main_individual_tests.c:1412-1431 | an operation with neither rounding-mode attribute gets one call per precision pass, with code 0 reported, and neither engine's mode nor the `roundingMode` local is written |
| `TestFunction.FixedCodeOnlyWithRoundingArg` | testfloat-pe/main_individual_tests.c:1379-1385 | a catalog rounding code is ignored unless the operation has FUNC_ARG_ROUNDINGMODE, and when it is a fixed override the caller's code no longer matters |
| `TestFunction.ForcedCodeRunsOncePerPass` | testfloat-pe/main_individual_tests.c:1412-1431 | with a forced code (the caller's, or the catalog's fixed one, which wins), a mode-sensitive operation gets one call per precision pass, under that code, with the trusted mode set from it |
| `TestFunction.FreeModesSweepEnabledCodes` | testfloat-pe/main_individual_tests.c:1403-1438 | with no code forced, a mode-sensitive operation is run, in every precision pass, under every enabled code in ascending order; the trace has (passes × enabled codes) calls |
| `TestFunction.FixedCodeReporting` | testfloat-pe/main_individual_tests.c:1421-1429 | under a fixed catalog code the reported code is 0 and the subject's mode is not set, while the trusted mode and the passed `roundingMode` come from the fixed code |
| `TestFunction.SubjectModeMatchesTrusted` | testfloat-pe/main_individual_tests.c:1421-1429 | without a fixed code, a mode-sensitive call sees the subject's mode, the trusted mode, the passed mode and the reported code all equal to its non-zero code |
| `TestFunction.RunModeLoop` | testfloat-pe/main_individual_tests.c:1403-1438 | the inner `for` as written, with its `break`, produces the same calls and final registers as the trace function |
| `TestFunction.RunTestFunction` | testfloat-pe/main_individual_tests.c:1388-1449 | the outer `for (;;)` as written produces exactly the precision × code schedule |
| `Run.ExecuteFrom` | testfloat-pe/main_individual_tests.c:1356-1358 | from call k on (none before halted), the executed calls are a prefix of the plan; the run halts iff some stop check fires, the last executed call is the first whose check fires, and without a halt every call is made |
| `Dispatch.Halts` | testfloat-pe/main_individual_tests.c:1356-1358 | definition (no contract of its own): the stop check holds when errors occurred under error-stop, or when the stop flag is set |
| `Run.Execute` | testfloat-pe/main_individual_tests.c:1356-1358 | the stop check after every instance call: the process stops right after the first call whose check fires and otherwise completes the plan |
| `Run.TestFunctionOutcome` | testfloat-pe/main_individual_tests.c:1356-1451 | testFunction with the stop check after every instance call: the calls made are a prefix of the schedule; the process stops iff the check holds after some scheduled call, and then right after the first such call; otherwise every scheduled call is made |
| `Run.RxLoopModeMatchesAmbient` | testfloat-pe/main_individual_tests.c:1423-1430 | an `_rx` loop is handed the mode the trusted ambient mode holds, and without a fixed code the subject's ambient mode is the same one |
| `Selection.FindSelected` | testfloat-pe/main_individual_tests.c:1478-1491 | walking catalog and subject table in lockstep up to the sentinel yields the first entry whose name matches and whose subject pointer is non-null, passing over matches with a null pointer; none iff no such entry precedes the sentinel |
| `Selection.RunSelected` | testfloat-pe/main_individual_tests.c:1468-1491 | `main` runs testFunction at most once, on the first runnable entry, with that entry's subject pointer, precision 80, ROUND_NEAR_EVEN and error-stop set, and that run makes exactly one instance call |
| `Selection.MainRunsOneInstance` | testfloat-pe/main_individual_tests.c:1468-1469 | with precision 80 and ROUND_NEAR_EVEN forced, every operation gets one instance call: at 80 or 0, under the fixed catalog code, ROUND_NEAR_EVEN, or 0 |

## Left out

- The trusted and subject arithmetic (`f32_add`, `extF80M_*`, `subjfloat_*`, …): foreign calls on floating-point encodings. The trusted function is identified by its name, and the subject by its pointer table entry.
- The test loops (`test_*`), the case generator and the verifier (`genCases`, `verCases`, `testLoops`). Their source is not part of this model. Their effect on the run state is the `statusAfter` input.
- The function-type typedefs and casts (lines 61-233). They are replaced by the closed `Loop` and `SubjectBinding` datatypes; the C types survive only as `Signature` values, operand and result kinds without C widths or pointer passing.
- `catchSIGINT` (lines 53-59): asynchronous signal handling. `verCases_stop` is an input bit read at the stop check.
- Progress output (`fputs`, `printf`, `verCases_writeFunctionName`), `verCases_functionNamePtr`, and `verCases_exitWithStatus`. These are I/O; exit is the `halted` flag.
- `main`'s settings for other components (`genCases_setLevel`, `verCases_maxErrorCount`, `verCases_checkNaNs`, `verCases_checkInvInts`, `verCases_tininessCode`, `testLoops_*`). Only `verCases_errorStop` reaches this layer.
- The contents of `functionInfos`, `standardFunctionInfos`, `subjfloat_functions` and `roundingModes`. They are inputs: an attribute function, a catalog sequence and a pointer sequence.
- testfloat-lib/src/writeCase_z_bf16.c: output formatting through `writeHex_*` routines, which are not part of this model.
- Negative rounding codes: codes are `nat`. The model records the code a mode comes from and does not index `roundingModes`, so it does not bound a forced code by `NUM_ROUNDINGMODES`.
- `Dispatch.AdaptRxIgnoresRounding`: states the adapters' behaviour for a generic subject callable, not for each of the 25 C adapters separately. All 25 drop `roundingMode` and `exact`; 23 forward the operand and return the subject's result, while `subjFunction_az_extF80_rx` and `subjFunction_az_f128_rx` forward `(aPtr, zPtr)` and return void, which the type parameter `A` stands for.
