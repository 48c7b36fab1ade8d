/** What the testers of module Stat promise, over all libraries, series and
    thresholds. */
module StatProperties {
  import opened Wrappers
  import opened Stat

  /** A library whose two routines both return a p-value on `x`. */
  predicate Answers(lib: Stattools, x: Series) {
    lib.adfuller(x).Ok? && lib.kpss(x).Ok?
  }

  /** Each known method has its own null hypothesis, and the hypothesis does
      not depend on anything but the method. */
  lemma NullHypothesisOfKnownMethods(a: StatTester, b: StatTester)
    requires IsKnownMethod(a.name) && IsKnownMethod(b.name)
    ensures a.NullHypothesis().Ok? && b.NullHypothesis().Ok?
    ensures a.NullHypothesis() == b.NullHypothesis() <==> a.name == b.name
  {
  }

  /** An unknown method fails every operation that reads it, with the
      "Unknown method" exception naming it; a known one never does. */
  lemma UnknownMethodEverywhere(t: StatTester, lib: Stattools, x: Series, threshold: real)
    ensures !IsKnownMethod(t.name) <==> t.NullHypothesis().Err?
    ensures !IsKnownMethod(t.name) ==> t.PValue(lib, x).Err? && t.PValue(lib, x).error.UnknownMethod?
    ensures !IsKnownMethod(t.name) ==> t.IsStat(lib, x, threshold).Err? && t.IsStat(lib, x, threshold).error.UnknownMethod?
    ensures !IsKnownMethod(t.name) ==> t.IsStat(lib, x, threshold).error.Message() == UnknownPrefix + t.name
    ensures IsKnownMethod(t.name) && t.PValue(lib, x).Err? ==> t.PValue(lib, x).error.Propagated?
    ensures IsKnownMethod(t.name) && t.IsStat(lib, x, threshold).Err? ==> t.IsStat(lib, x, threshold).error.Propagated?
  {
  }

  /** The verdict never fails at its own last raise, nor at the one of the
      p-value dispatch: an unknown method is caught by the null hypothesis. */
  lemma IsStatRaisesOnlyFromNullHypothesis(t: StatTester, lib: Stattools, x: Series, threshold: real)
    ensures t.IsStat(lib, x, threshold).Err? && t.IsStat(lib, x, threshold).error.UnknownMethod? ==>
              t.IsStat(lib, x, threshold).error.site == NullHypothesisRaise
    ensures t.IsStat(lib, x, threshold) != Err(UnknownMethod(t.name, IsStatRaise))
    ensures t.IsStat(lib, x, threshold) != Err(UnknownMethod(t.name, PValueRaise))
  {
  }

  /** At a p-value equal to the threshold, KPSS counts as stationary and ADF
      does not. */
  lemma BoundaryAtEquality(lib: Stattools, x: Series, threshold: real)
    requires Answers(lib, x)
    ensures lib.adfuller(x).value == threshold ==> StatTester(ADF).IsStat(lib, x, threshold) == Ok(false)
    ensures lib.kpss(x).value == threshold ==> StatTester(KPSS).IsStat(lib, x, threshold) == Ok(true)
  {
  }

  /** Fed the same p-value, the two tests always disagree: their comparisons
      are exact complements, equality included. */
  lemma OppositeNullHypotheses(lib: Stattools, x: Series, threshold: real, verbose: int)
    requires Answers(lib, x) && lib.adfuller(x).value == lib.kpss(x).value
    ensures StatTester(ADF).IsStat(lib, x, threshold).value == !StatTester(KPSS).IsStat(lib, x, threshold).value
    ensures NewStrictStatTester().IsStat(lib, x, threshold, verbose).Ok?
    ensures NewStrictStatTester().IsStat(lib, x, threshold, verbose).value.printed.Some? <==> verbose > 0
  {
  }

  /** Raising the threshold never turns an ADF verdict from true to false. */
  lemma AdfMonotoneInThreshold(lib: Stattools, x: Series, t1: real, t2: real)
    requires t1 <= t2
    ensures StatTester(ADF).IsStat(lib, x, t1).Ok? <==> StatTester(ADF).IsStat(lib, x, t2).Ok?
    ensures StatTester(ADF).IsStat(lib, x, t1) == Ok(true) ==> StatTester(ADF).IsStat(lib, x, t2) == Ok(true)
  {
  }

  /** Raising the threshold never turns a KPSS verdict from false to true. */
  lemma KpssAntitoneInThreshold(lib: Stattools, x: Series, t1: real, t2: real)
    requires t1 <= t2
    ensures StatTester(KPSS).IsStat(lib, x, t1).Ok? <==> StatTester(KPSS).IsStat(lib, x, t2).Ok?
    ensures StatTester(KPSS).IsStat(lib, x, t2) == Ok(true) ==> StatTester(KPSS).IsStat(lib, x, t1) == Ok(true)
  {
  }

  /** Classify and the verdict pair of a case are inverse to each other, so
      the four cases are exhaustive and mutually exclusive over the pairs. */
  lemma ClassifyIsBijective(c: Case, t1: bool, t2: bool)
    ensures Classify(c.Adf(), c.Kpss()) == c
    ensures Classify(t1, t2) == c <==> t1 == c.Adf() && t2 == c.Kpss()
  {
  }

  /** The two remedies the strict tester prints are told apart, and agreeing
      tests print nothing. */
  lemma DiagnosticsDistinguishRemedies(verbose: int)
    requires verbose > 0
    ensures Diagnostic(TrendStationaryOnly, verbose) != Diagnostic(DifferenceStationary, verbose)
    ensures Diagnostic(BothStationary, verbose) == None && Diagnostic(BothNonStationary, verbose) == None
  {
  }

  /** The strict verdict is true exactly when the threshold lies above the ADF
      p-value and at most the KPSS p-value; it is never true together with a
      printed remedy. */
  lemma StrictStationaryWindow(lib: Stattools, x: Series, threshold: real, verbose: int)
    requires Answers(lib, x)
    ensures NewStrictStatTester().IsStat(lib, x, threshold, verbose).Ok?
    ensures NewStrictStatTester().IsStat(lib, x, threshold, verbose).value.isStat <==>
              lib.adfuller(x).value < threshold <= lib.kpss(x).value
    ensures NewStrictStatTester().IsStat(lib, x, threshold, verbose).value.isStat ==>
              NewStrictStatTester().IsStat(lib, x, threshold, verbose).value.printed == None
  {
  }

  /** The strict tester fails exactly when one of the library routines does,
      with the ADF failure taking precedence. */
  lemma StrictFailsFast(lib: Stattools, x: Series, threshold: real, verbose: int)
    ensures NewStrictStatTester().IsStat(lib, x, threshold, verbose).Err? <==> !Answers(lib, x)
    ensures lib.adfuller(x).Err? ==>
              NewStrictStatTester().IsStat(lib, x, threshold, verbose) == Err(Propagated(lib.adfuller(x).error))
    ensures lib.adfuller(x).Ok? && lib.kpss(x).Err? ==>
              NewStrictStatTester().IsStat(lib, x, threshold, verbose) == Err(Propagated(lib.kpss(x).error))
  {
  }

  /** The library that answers `pa` to the ADF test and `pk` to the KPSS
      test, whatever the series. */
  function ConstantLibrary(pa: real, pk: real): Stattools {
    Stattools((_: Series) => Ok(pa), (_: Series) => Ok(pk))
  }

  /** Every branch of the strict tester is reachable with p-values in [0, 1]
      at any threshold in (0, 1]: each case shows up with its own verdict and
      its own printed line. */
  lemma EveryCaseReachable(c: Case, x: Series, threshold: real)
    requires 0.0 < threshold <= 1.0
    ensures exists pa: real, pk: real ::
              0.0 <= pa <= 1.0 && 0.0 <= pk <= 1.0 &&
              NewStrictStatTester().IsStat(ConstantLibrary(pa, pk), x, threshold) ==
                Ok(Report(c == BothStationary, Diagnostic(c, DefaultVerbose)))
  {
    // an ADF verdict is false at p == threshold and true at 0; a KPSS
    // verdict is true at p == threshold and false at 0
    var pa := if c.Adf() then 0.0 else threshold;
    var pk := if c.Kpss() then threshold else 0.0;
    var lib := ConstantLibrary(pa, pk);
    assert Classify(c.Adf(), c.Kpss()) == c;
    assert NewStrictStatTester().IsStat(lib, x, threshold) ==
             Ok(Report(c == BothStationary, Diagnostic(c, DefaultVerbose)));
  }

  /** The text of an "Unknown method" exception tells which method was
      asked for. */
  lemma UnknownMethodMessageNamesMethod(f: Failure, g: Failure)
    requires f.UnknownMethod? && g.UnknownMethod?
    ensures f.Message() == g.Message() <==> f.name == g.name
  {
  }

  /** The strict null hypothesis names the hypothesis the ADF tester rejects
      and the one the KPSS tester keeps. */
  lemma StrictNullHypothesisNamesBoth()
    ensures NewStrictStatTester().NullHypothesis() ==
              NewStrictStatTester().adfTest.NullHypothesis().value + " and not " +
              NewStrictStatTester().kpssTest.NullHypothesis().value
  {
  }

  /** The two documented runs of the ADF tester at the default threshold: a
      p-value of about 1.17e-17 reads as stationary, one of about 0.602 does
      not. The p-values themselves come from the library. */
  lemma DocumentedAdfRuns(lib: Stattools, x: Series, y: Series)
    requires lib.adfuller(x) == Ok(0.000000000000000011655044784188669)
    requires lib.adfuller(y) == Ok(0.6020814791099098)
    ensures StatTester().IsStat(lib, x) == Ok(true)
    ensures StatTester().IsStat(lib, y) == Ok(false)
  {
  }
}
