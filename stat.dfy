/** Stationarity testing of a time series: a single Augmented Dickey-Fuller
    (ADF) or Kwiatkowski-Phillips-Schmidt-Shin (KPSS) test, and the strict
    tester that runs both and reconciles their verdicts. */
module Stat {
  import opened Wrappers

  /** A time series, one real per sample. */
  type Series = seq<real>

  /** Whatever the statistics library raises (too few samples, a constant
      series, ...); it is passed on unchanged. */
  type LibraryError = string

  /** The two routines of the statistics library the testers call, reduced
      to what the testers use of them: the p-value (the second element of the
      tuple each returns) or the exception each raises. `kpss` stands for the
      call with automatic lag selection. */
  datatype Stattools = Stattools(
    adfuller: Series -> Result<real, LibraryError>,
    kpss: Series -> Result<real, LibraryError>)

  /** The three places that raise "Unknown method": the null-hypothesis
      property, the p-value dispatch, and the fall-through of the verdict. */
  datatype Site = NullHypothesisRaise | PValueRaise | IsStatRaise

  datatype Failure =
    | UnknownMethod(name: string, site: Site)
    | Propagated(reason: LibraryError)
  {
    /** The text of the exception: an unknown method is named after a fixed
        prefix; a library error keeps its own text. */
    function Message(): (r: string)
      ensures UnknownMethod? ==> |r| == |UnknownPrefix| + |name|
      ensures UnknownMethod? ==> r[..|UnknownPrefix|] == UnknownPrefix && r[|UnknownPrefix|..] == name
      ensures Propagated? ==> r == reason
    {
      match this
      case UnknownMethod(m, _) => UnknownPrefix + m
      case Propagated(reason) => reason
    }
  }

  /** What every "Unknown method" exception text starts with. */
  const UnknownPrefix: string := "Unknown method "

  const ADF: string := "ADF"
  const KPSS: string := "KPSS"

  /** The two null hypotheses, as the testers name them. */
  const UnitRoot: string := "unit-root"
  const TrendStationary: string := "trend-stationary"

  /** The null hypothesis the strict tester reports. */
  const StrictHypothesis: string := "unit-root and not trend-stationary"

  /** What a tester built with no argument runs. */
  const DefaultMethod: string := ADF
  const DefaultThreshold: real := 0.05
  const DefaultVerbose: int := 1

  /** The two lines the strict tester prints when the tests disagree. */
  const TrendMessage: string := "Trend needs to be removed to make series strict stationary"
  const DifferenceMessage: string := "Series is difference stationary"

  predicate IsKnownMethod(name: string) {
    name == ADF || name == KPSS
  }

  /** One stationarity test, chosen by name; any name is accepted when the
      tester is built, and every operation checks it again. */
  datatype StatTester = StatTester(name: string := DefaultMethod)  // `name`: the method
  {
    /** The null hypothesis of the test: a unit root for ADF, trend
        stationarity for KPSS; any other name raises. */
    function NullHypothesis(): (r: Result<string, Failure>)
      ensures r.Ok? <==> IsKnownMethod(name)
      ensures r.Ok? ==> (r.value == UnitRoot <==> name == ADF)
      ensures r.Ok? ==> (r.value == TrendStationary <==> name == KPSS)
      ensures r.Err? ==> r.error == UnknownMethod(name, NullHypothesisRaise)
    {
      if name == ADF then
        Ok(UnitRoot)
      else if name == KPSS then
        Ok(TrendStationary)
      else
        Err(UnknownMethod(name, NullHypothesisRaise))
    }

    /** The p-value of the test on `x`, taken unchanged from the library
        routine the method names; what that routine raises is passed on. */
    function PValue(lib: Stattools, x: Series): (r: Result<real, Failure>)
      ensures name == ADF ==> (r.Ok? <==> lib.adfuller(x).Ok?)
      ensures name == ADF && r.Ok? ==> r.value == lib.adfuller(x).value
      ensures name == ADF && r.Err? ==> r.error == Propagated(lib.adfuller(x).error)
      ensures name == KPSS ==> (r.Ok? <==> lib.kpss(x).Ok?)
      ensures name == KPSS && r.Ok? ==> r.value == lib.kpss(x).value
      ensures name == KPSS && r.Err? ==> r.error == Propagated(lib.kpss(x).error)
      ensures !IsKnownMethod(name) ==> r == Err(UnknownMethod(name, PValueRaise))
    {
      if name == ADF then
        match lib.adfuller(x)
        case Ok(p) => Ok(p)
        case Err(e) => Err(Propagated(e))
      else if name == KPSS then
        match lib.kpss(x)
        case Ok(p) => Ok(p)
        case Err(e) => Err(Propagated(e))
      else
        Err(UnknownMethod(name, PValueRaise))
    }

    /** Whether the test points to stationarity at the given p-value
        threshold. Under a unit-root null the null must be rejected
        (p < threshold); under a trend-stationary null it must not be
        (p >= threshold). The null hypothesis is read first, so an unknown
        method raises from there and the final raise is never reached. */
    function IsStat(lib: Stattools, x: Series, threshold: real := DefaultThreshold): (r: Result<bool, Failure>)
      ensures r.Ok? <==> IsKnownMethod(name) && PValue(lib, x).Ok?
      ensures r.Ok? && name == ADF ==> (r.value <==> PValue(lib, x).value < threshold)
      ensures r.Ok? && name == KPSS ==> (r.value <==> PValue(lib, x).value >= threshold)
      ensures r.Err? && IsKnownMethod(name) ==> r.error == PValue(lib, x).error
      ensures !IsKnownMethod(name) ==> r == Err(UnknownMethod(name, NullHypothesisRaise))
    {
      match NullHypothesis()
      case Err(e) => Err(e)
      case Ok(h) =>
        if h == UnitRoot then
          var p :- PValue(lib, x);
          Ok(p < threshold)
        // the property is read a second time here; it is pure, so it is `h` again
        else if h == TrendStationary then
          var p :- PValue(lib, x);
          Ok(p >= threshold)
        else
          Err(UnknownMethod(name, IsStatRaise))
    }
  }

  /** The four ways the two verdicts can fall, in the order the strict tester
      tells them apart. */
  datatype Case =
    | BothNonStationary
    | BothStationary
    | TrendStationaryOnly
    | DifferenceStationary
  {
    /** The ADF verdict this case stands for. */
    function Adf(): bool {
      this == BothStationary || this == DifferenceStationary
    }

    /** The KPSS verdict this case stands for. */
    function Kpss(): bool {
      this == BothStationary || this == TrendStationaryOnly
    }

    /** The two tests reach different conclusions. */
    predicate IsDisagreement() {
      this == TrendStationaryOnly || this == DifferenceStationary
    }
  }

  /** The case of the ADF verdict `t1` and the KPSS verdict `t2`; the chain of
      tests is the strict tester's, the last one being the only pair left. */
  function Classify(t1: bool, t2: bool): (c: Case)
    ensures c.Adf() == t1 && c.Kpss() == t2
  {
    if !t1 && !t2 then BothNonStationary
    else if t1 && t2 then BothStationary
    else if !t1 && t2 then TrendStationaryOnly
    else DifferenceStationary
  }

  /** What the strict tester prints in a case: the remedy of a disagreement,
      and nothing at all when `verbose` is not positive. */
  function Diagnostic(c: Case, verbose: int): (m: Option<string>)
    ensures m.Some? <==> verbose > 0 && c.IsDisagreement()
    ensures m.Some? && c == TrendStationaryOnly ==> m.value == TrendMessage
    ensures m.Some? && c == DifferenceStationary ==> m.value == DifferenceMessage
  {
    if verbose > 0 then
      match c
      case TrendStationaryOnly => Some(TrendMessage)
      case DifferenceStationary => Some(DifferenceMessage)
      case _ => None
    else
      None
  }

  /** What one strict test yields: its verdict and the line it printed. */
  datatype Report = Report(isStat: bool, printed: Option<string>)

  /** Runs an ADF tester and then a KPSS tester on the same series and
      threshold. */
  datatype StrictStatTester = StrictStatTester(adfTest: StatTester, kpssTest: StatTester)
  {
    /** The fixed description of what a true verdict rejects. */
    function NullHypothesis(): (r: string)
      ensures r == UnitRoot + " and not " + TrendStationary
    {
      StrictHypothesis
    }

    /** Both verdicts are computed (ADF first, failing fast); the result is
        true only when both are, and a disagreement prints its remedy. */
    function IsStat(lib: Stattools, x: Series, threshold: real := DefaultThreshold,
                    verbose: int := DefaultVerbose): (r: Result<Report, Failure>)
      ensures r.Ok? <==> adfTest.IsStat(lib, x, threshold).Ok? && kpssTest.IsStat(lib, x, threshold).Ok?
      ensures adfTest.IsStat(lib, x, threshold).Err? ==> r == Err(adfTest.IsStat(lib, x, threshold).error)
      ensures adfTest.IsStat(lib, x, threshold).Ok? && kpssTest.IsStat(lib, x, threshold).Err? ==>
                r == Err(kpssTest.IsStat(lib, x, threshold).error)
      ensures r.Ok? ==> (r.value.isStat <==> adfTest.IsStat(lib, x, threshold).value && kpssTest.IsStat(lib, x, threshold).value)
      ensures r.Ok? ==> r.value.printed == Diagnostic(Classify(adfTest.IsStat(lib, x, threshold).value,
                                                              kpssTest.IsStat(lib, x, threshold).value), verbose)
    {
      var t1 :- adfTest.IsStat(lib, x, threshold);
      var t2 :- kpssTest.IsStat(lib, x, threshold);
      var c := Classify(t1, t2);
      Ok(Report(t1 && t2, Diagnostic(c, verbose)))
    }
  }

  /** The strict tester as it is built: an ADF tester and a KPSS tester. */
  function NewStrictStatTester(): (s: StrictStatTester)
    ensures s.adfTest.NullHypothesis() == Ok(UnitRoot)
    ensures s.kpssTest.NullHypothesis() == Ok(TrendStationary)
  {
    StrictStatTester(StatTester(ADF), StatTester(KPSS))
  }
}
