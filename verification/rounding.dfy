/** Rounding codes and the build-dependent set of codes testFunction loops
    over. The enum is declared in TestFloat's functions.h, which is not part of
    this model; the values below are the ones that enum assigns. */
module Rounding {
  import opened BuildConfig

  const ROUND_NEAR_EVEN: nat := 1
  const ROUND_MINMAG: nat := 2
  const ROUND_MIN: nat := 3
  const ROUND_MAX: nat := 4
  const ROUND_NEAR_MAXMAG: nat := 5
  /** Declared only when FLOAT_ROUND_ODD is defined. */
  const ROUND_ODD: nat := 6

  /** NUM_ROUNDINGMODES: one past the last declared rounding code. */
  function NumRoundingModes(b: Build): nat
  {
    if b.floatRoundOdd then ROUND_ODD + 1 else ROUND_NEAR_MAXMAG + 1
  }

  /** The two preprocessor guards around the body of the mode loop. Both test
      the loop counter, not the code that is eventually used. */
  predicate Excluded(b: Build, counter: nat)
  {
    || (!b.subjNearMaxMag && counter == ROUND_NEAR_MAXMAG)
    || (b.floatRoundOdd && !b.subjNearMaxMag && counter == ROUND_ODD)
  }

  /** The loop counters from `counter` up whose body is compiled in, in
      ascending order. */
  function EnabledFrom(b: Build, counter: nat): seq<nat>
    decreases NumRoundingModes(b) - counter
  {
    if counter >= NumRoundingModes(b) then []
    else if Excluded(b, counter) then EnabledFrom(b, counter + 1)
    else [counter] + EnabledFrom(b, counter + 1)
  }

  /** The rounding codes a mode-sensitive operation is tested under when no
      code is forced. */
  function EnabledCodes(b: Build): seq<nat>
  {
    EnabledFrom(b, 1)
  }

  /** EnabledFrom lists exactly the non-excluded codes in [counter, NUM_ROUNDINGMODES),
      strictly ascending. */
  lemma {:induction false} EnabledFromSpec(b: Build, counter: nat)
    ensures forall c :: c in EnabledFrom(b, counter) <==> counter <= c < NumRoundingModes(b) && !Excluded(b, c)
    ensures forall i, j :: 0 <= i < j < |EnabledFrom(b, counter)| ==> EnabledFrom(b, counter)[i] < EnabledFrom(b, counter)[j]
    decreases NumRoundingModes(b) - counter
  {
    if counter < NumRoundingModes(b) {
      EnabledFromSpec(b, counter + 1);
      var rest := EnabledFrom(b, counter + 1);
      if !Excluded(b, counter) {
        var s := [counter] + rest;
        forall i, j | 0 <= i < j < |s|
          ensures s[i] < s[j]
        {
          if i == 0 {
            assert s[j] in rest;
          } else {
            assert s[i] == rest[i - 1] && s[j] == rest[j - 1];
          }
        }
      }
    }
  }

  /** A mode-sensitive operation with no forced code is run under every
      declared code 1 .. NUM_ROUNDINGMODES-1 except the excluded ones, once
      each and in ascending order. */
  lemma EnabledCodesSpec(b: Build)
    ensures forall c :: c in EnabledCodes(b) <==> 1 <= c < NumRoundingModes(b) && !Excluded(b, c)
    ensures forall i, j :: 0 <= i < j < |EnabledCodes(b)| ==> EnabledCodes(b)[i] < EnabledCodes(b)[j]
  {
    EnabledFromSpec(b, 1);
  }

  /** The codes spelled out per build: ROUND_NEAR_MAXMAG needs
      SUBJFLOAT_ROUND_NEAR_MAXMAG, and ROUND_ODD (when declared) is dropped
      whenever SUBJFLOAT_ROUND_NEAR_MAXMAG is not defined. */
  lemma EnabledCodesByBuild(b: Build)
    ensures !b.subjNearMaxMag ==> EnabledCodes(b) == [ROUND_NEAR_EVEN, ROUND_MINMAG, ROUND_MIN, ROUND_MAX]
    ensures b.subjNearMaxMag && !b.floatRoundOdd ==>
      EnabledCodes(b) == [ROUND_NEAR_EVEN, ROUND_MINMAG, ROUND_MIN, ROUND_MAX, ROUND_NEAR_MAXMAG]
    ensures b.subjNearMaxMag && b.floatRoundOdd ==>
      EnabledCodes(b) == [ROUND_NEAR_EVEN, ROUND_MINMAG, ROUND_MIN, ROUND_MAX, ROUND_NEAR_MAXMAG, ROUND_ODD]
  {
    assert EnabledFrom(b, 7) == [];
    assert EnabledFrom(b, 6) == if b.floatRoundOdd && b.subjNearMaxMag then [6] else [];
    assert EnabledFrom(b, 5) == if b.subjNearMaxMag then [5] + EnabledFrom(b, 6) else EnabledFrom(b, 6);
    assert EnabledFrom(b, 4) == [4] + EnabledFrom(b, 5);
    assert EnabledFrom(b, 3) == [3] + EnabledFrom(b, 4);
    assert EnabledFrom(b, 2) == [2] + EnabledFrom(b, 3);
    assert EnabledFrom(b, 1) == [1] + EnabledFrom(b, 2);
  }

  /** The first loop counter is never excluded, so a forced code or a
      mode-insensitive operation always gets its one pass. */
  lemma FirstCounterRuns(b: Build)
    ensures 1 < NumRoundingModes(b) && !Excluded(b, 1)
    ensures |EnabledCodes(b)| > 0 && EnabledCodes(b)[0] == ROUND_NEAR_EVEN
  {
  }
}
