/** `main` (testfloat-pe/main_individual_tests.c, lines 1456-1491): walk the standard-function catalog and the
    subject's pointer table in lockstep until the null-name sentinel, and run
    testFunction on the first entry whose name is the selected test name and
    whose subject pointer is not null, with precision 80 and ROUND_NEAR_EVEN
    forced. */
module Selection {
  import opened Common
  import opened Functions
  import opened BuildConfig
  import opened Rounding
  import opened Dispatch
  import opened TestFunction
  import opened Run

  /** An entry of subjfloat_functions; only whether it is null matters to the
      lookup, the callee is identified by name. */
  datatype SubjectPtr = Null | Fn(name: string)

  /** The catalog has a sentinel, and the subject table has an entry for every
      catalog entry before it. */
  predicate Terminated(catalog: seq<StandardFunctionInfo>, subjTable: seq<SubjectPtr>)
  {
    exists k :: 0 <= k < |catalog| && k <= |subjTable| && catalog[k].namePtr.None?
  }

  /** Entry `j` is reached by the walk: no sentinel at or before it. */
  predicate BeforeSentinel(catalog: seq<StandardFunctionInfo>, j: nat)
  {
    j < |catalog| && forall k :: 0 <= k <= j ==> catalog[k].namePtr.Some?
  }

  /** Entry `j` is the selected test and has a subject implementation. */
  predicate Runnable(catalog: seq<StandardFunctionInfo>, subjTable: seq<SubjectPtr>, testName: string, j: nat)
  {
    j < |catalog| && j < |subjTable| && catalog[j].namePtr == Some(testName) && subjTable[j] != Null
  }

  /** The lookup loop of `main`: entry i of the catalog goes with entry i of
      the subject table, a matching name with a null pointer is passed over,
      and the walk ends at the first runnable entry or at the sentinel. */
  method FindSelected(catalog: seq<StandardFunctionInfo>, subjTable: seq<SubjectPtr>, testName: string)
    returns (r: Option<nat>)
    requires Terminated(catalog, subjTable)
    ensures r.Some? ==> BeforeSentinel(catalog, r.value) && Runnable(catalog, subjTable, testName, r.value)
    ensures r.Some? ==> forall j :: 0 <= j < r.value ==> !Runnable(catalog, subjTable, testName, j)
    ensures r.None? <==> forall j :: BeforeSentinel(catalog, j) ==> !Runnable(catalog, subjTable, testName, j)
  {
    ghost var k :| 0 <= k < |catalog| && k <= |subjTable| && catalog[k].namePtr.None?;
    var i := 0;
    while catalog[i].namePtr.Some?
      invariant i <= k
      invariant forall j :: 0 <= j < i ==> catalog[j].namePtr.Some? && !Runnable(catalog, subjTable, testName, j)
      decreases k - i
    {
      if catalog[i].namePtr.value == testName {
        if subjTable[i] != Null {
          return Some(i);
        }
      }
      i := i + 1;
    }
    assert !BeforeSentinel(catalog, i);
    return None;
  }

  /** The precision and code `main` forces (lines 1468-1469). */
  const MainPrecision: nat := 80
  const MainRoundingCode: nat := ROUND_NEAR_EVEN

  /** What `main` does: nothing when no entry is runnable, else testFunction on
      the first runnable entry, with the subject's pointer it found. */
  datatype MainResult = NoMatch | Tested(index: nat, subject: string, outcome: Outcome)

  /** `main`, with verCases_errorStop set. `functionInfos` gives each code's
      attributes. */
  method RunSelected(
    b: Build, functionInfos: FunctionCode -> Attribs,
    catalog: seq<StandardFunctionInfo>, subjTable: seq<SubjectPtr>, testName: string,
    statusAfter: nat -> RunStatus)
    returns (r: MainResult)
    requires Terminated(catalog, subjTable)
    ensures r.NoMatch? <==> forall j :: BeforeSentinel(catalog, j) ==> !Runnable(catalog, subjTable, testName, j)
    ensures r.Tested? ==>
      && BeforeSentinel(catalog, r.index) && Runnable(catalog, subjTable, testName, r.index)
      && (forall j :: 0 <= j < r.index ==> !Runnable(catalog, subjTable, testName, j))
      && subjTable[r.index] == Fn(r.subject)
      && r.outcome == TestFunctionOutcome(b, functionInfos(catalog[r.index].functionCode), catalog[r.index],
                                          MainPrecision, MainRoundingCode, true, statusAfter)
      && |r.outcome.executed| == 1
  {
    var found := FindSelected(catalog, subjTable, testName);
    if found.None? {
      return NoMatch;
    }
    var i := found.value;
    var info := catalog[i];
    var attribs := functionInfos(info.functionCode);
    MainRunsOneInstance(b, attribs, info);
    var outcome := TestFunctionOutcome(b, attribs, info, MainPrecision, MainRoundingCode, true, statusAfter);
    return Tested(i, subjTable[i].name, outcome);
  }

  /** With the precision and code `main` forces, every operation gets exactly
      one instance call: at precision 80 if the precision affects it (else 0),
      under the fixed catalog code if it has one, else ROUND_NEAR_EVEN if the
      rounding mode matters to it, else code 0. */
  lemma MainRunsOneInstance(b: Build, attribs: Attribs, info: StandardFunctionInfo)
    ensures var plan := Plan(b, attribs, info, MainPrecision, MainRoundingCode);
      && |plan| == 1
      && plan[0].precision == (if attribs.effRoundingPrecision then 80 else 0)
      && plan[0].code == (if !ModeSensitive(attribs) then 0
                          else if attribs.argRoundingMode && info.roundingCode != 0 then info.roundingCode
                          else ROUND_NEAR_EVEN)
  {
    SinglePrecisionPass(b, attribs, info, MainPrecision, MainRoundingCode);
  }
}
