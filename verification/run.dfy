/** A testFunction run with its stop checks: after every testFunctionInstance
    call the process exits if `(verCases_errorStop && verCases_anyErrors) ||
    verCases_stop`. The run-state bits are set by the test loops and by the
    interrupt handler, both outside the model, so they come in as an oracle:
    `statusAfter(i)` is what the check after the i-th call (from 0) reads. */
module Run {
  import opened Common
  import opened Functions
  import opened BuildConfig
  import opened Dispatch
  import opened Rounding
  import opened TestFunction

  /** The calls made before the process stopped or testFunction returned. */
  datatype Outcome = Outcome(executed: seq<InstanceCall>, halted: bool)

  /** Runs `plan` from call `k` on, given that none of the first `k` calls
      halted. */
  function ExecuteFrom(plan: seq<InstanceCall>, halts: nat -> bool, k: nat): (o: Outcome)
    requires k <= |plan|
    requires forall i :: 0 <= i < k ==> !halts(i)
    ensures o.executed <= plan && k <= |o.executed|
    ensures o.halted <==> exists i :: 0 <= i < |plan| && halts(i)
    ensures o.halted ==> |o.executed| > 0 && halts(|o.executed| - 1)
    ensures forall i :: 0 <= i < |o.executed| - 1 ==> !halts(i)
    ensures !o.halted ==> o.executed == plan
    decreases |plan| - k
  {
    if k == |plan| then Outcome(plan, false)
    else if halts(k) then Outcome(plan[..k + 1], true)
    else ExecuteFrom(plan, halts, k + 1)
  }

  /** The calls are made in order; the first one after which the stop check
      fires is the last one made, and if none fires all of them are made. */
  function Execute(plan: seq<InstanceCall>, halts: nat -> bool): (o: Outcome)
    ensures o.executed <= plan
    ensures o.halted <==> exists i :: 0 <= i < |plan| && halts(i)
    ensures o.halted ==> |o.executed| > 0 && halts(|o.executed| - 1)
    ensures forall i :: 0 <= i < |o.executed| - 1 ==> !halts(i)
    ensures !o.halted ==> o.executed == plan
  {
    ExecuteFrom(plan, halts, 0)
  }

  /** testFunction with its stop checks: the scheduled calls up to and
      including the first after which the check fires, or all of them. */
  function TestFunctionOutcome(
    b: Build, attribs: Attribs, info: StandardFunctionInfo, precisionIn: nat, codeIn: nat,
    errorStop: bool, statusAfter: nat -> RunStatus): (o: Outcome)
    ensures o.executed <= Plan(b, attribs, info, precisionIn, codeIn)
    ensures o.halted <==> exists i :: 0 <= i < |Plan(b, attribs, info, precisionIn, codeIn)| && Halts(errorStop, statusAfter(i))
    ensures o.halted ==> |o.executed| > 0 && Halts(errorStop, statusAfter(|o.executed| - 1))
    ensures forall i :: 0 <= i < |o.executed| - 1 ==> !Halts(errorStop, statusAfter(i))
    ensures !o.halted ==> o.executed == Plan(b, attribs, info, precisionIn, codeIn)
  {
    var halts := (i: nat) => Halts(errorStop, statusAfter(i));
    assert forall i: nat :: halts(i) == Halts(errorStop, statusAfter(i));
    Execute(Plan(b, attribs, info, precisionIn, codeIn), halts)
  }

  /** The test-loop invocation behind an instance call: the function code's
      case, given the `roundingMode` local and `exact` flag at that call. */
  function DispatchOf(b: Build, code: FunctionCode, c: InstanceCall): Option<Invocation>
  {
    TestFunctionInstance(b, code, c.ambient.roundingMode, c.exact)
  }

  /** Whenever an `_rx` loop is reached, the rounding mode it is handed is the
      one the trusted side's ambient mode holds, and without a fixed catalog
      code it is also the subject's ambient mode: both engines round alike. */
  lemma RxLoopModeMatchesAmbient(b: Build, attribs: Attribs, info: StandardFunctionInfo, precisionIn: nat, codeIn: nat)
    requires ModeSensitive(attribs)
    ensures forall c :: c in Plan(b, attribs, info, precisionIn, codeIn) && DispatchOf(b, info.functionCode, c).Some? ==>
      var inv := DispatchOf(b, info.functionCode, c).value;
      inv.loop.TakesRounding() ==>
        && inv.rounding == Some(RoundingArgs(Some(c.code), info.exact))
        && c.ambient.trustedMode == Some(c.code)
        && (!(attribs.argRoundingMode && info.roundingCode != 0) ==> c.ambient.subjectMode == Some(c.code))
  {
    var st := SetUp(attribs, info, codeIn);
    GridMembers(b, st, PrecisionSchedule(attribs, precisionIn), CodeSchedule(b, st));
    EnabledCodesSpec(b);
  }
}
