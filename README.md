# Stationarity testers of fracdiff, in Dafny

This project models the stationarity decision logic of `fracdiff/stat.py`.

- `StatTester` runs one named test. `"ADF"` is the Augmented Dickey-Fuller unit-root test. `"KPSS"` is the Kwiatkowski-Phillips-Schmidt-Shin trend-stationarity test.
- The tester reports the test's null hypothesis and its p-value.
- It turns the p-value into a verdict. The comparison flips with the null hypothesis: ADF needs `p < threshold`, KPSS needs `p >= threshold`.
- `StrictStatTester` runs an ADF tester, then a KPSS tester, on the same series and threshold.
- It sorts the pair of verdicts into four cases and prints a remedy in the two cases where the tests disagree.
- It returns the conservative conjunction of the two verdicts.

Layout:

- `wrappers.dfy`, module `Wrappers`: `Option`, and `Result` (a returned value or the exception raised instead).
- `stat.dfy`, module `Stat`: the two testers as datatypes with member functions, the four cases (`Case`, `Classify`) and the printed line (`Diagnostic`).
- `stat_properties.dfy`, module `StatProperties`: lemmas over all libraries, series and thresholds.

How the source's parts are represented:

- The method name stays a string (`StatTester.name`; `method` is a Dafny keyword). It defaults to "ADF", so `StatTester()` matches a tester built with no argument. Every operation checks it again, as the source does.
- Each "Unknown method" exception records where it was raised (`Site`). This makes it possible to state that the verdict's own final raise can never happen.
- The statistics library (`statsmodels`) is a parameter `lib: Stattools`. It holds two total functions from a series to a p-value or a raised error. Its calls are never computed.
- The `print` of the strict tester is the `printed` field of the returned `Report`.
- P-values and thresholds are mathematical reals.

## Model

| member | source | states |
|---|---|---|
| `Stat.StatTester.NullHypothesis` | fracdiff/stat.py:37-43 | succeeds exactly for "ADF" and "KPSS"; "ADF" gives "unit-root" and "KPSS" gives "trend-stationary"; any other name raises "Unknown method" at the property |
| `Stat.StatTester.PValue` | fracdiff/stat.py:45-63 | "ADF" returns the ADF routine's p-value unchanged, "KPSS" the KPSS routine's; a routine's error is passed on; any other name raises "Unknown method" at the dispatch |
| `Stat.StatTester.IsStat` | fracdiff/stat.py:65-89 | succeeds iff the method is known and the p-value is computed; ADF is true iff `p < threshold`, KPSS iff `p >= threshold`; an unknown method raises from the null-hypothesis read |
| `Stat.Failure.Message` | fracdiff/stat.py:43 | an "Unknown method" text is the prefix "Unknown method " followed by exactly the method name (the same text is raised at lines 62 and 89); a library error keeps its own text |
| `Stat.Classify` | fracdiff/stat.py:124-145 | the case chosen carries back exactly the ADF and KPSS verdicts it was given |
| `Stat.Diagnostic` | fracdiff/stat.py:133-145 | a line is printed iff `verbose > 0` and the tests disagree; the trend-removal line for "only KPSS true", the difference-stationary line for "only ADF true" |
| `Stat.StrictStatTester.IsStat` | fracdiff/stat.py:101-146 | succeeds iff both sub-verdicts do, an ADF failure winning over a KPSS one; the verdict is `t1 && t2`; the printed line is that of the case of `(t1, t2)` |
| `Stat.StrictStatTester.NullHypothesis` | fracdiff/stat.py:97-99 | the fixed label is the unit-root hypothesis, then " and not ", then the trend-stationary hypothesis |
| `Stat.NewStrictStatTester` | fracdiff/stat.py:93-95 | the sub-testers' null hypotheses are "unit-root" and "trend-stationary" |
| `StatProperties.NullHypothesisOfKnownMethods` | fracdiff/stat.py:38-42 | the two known methods succeed and have different null hypotheses, so the hypothesis determines the method |
| `StatProperties.UnknownMethodEverywhere` | fracdiff/stat.py:43 | an unknown method makes the null hypothesis, the p-value and the verdict all raise "Unknown method <name>"; with a known method, the only failures are the library's |
| `StatProperties.IsStatRaisesOnlyFromNullHypothesis` | fracdiff/stat.py:85-89 | an "Unknown method" error from the verdict always comes from the null-hypothesis read; the raises of the dispatch and of the verdict's last line are unreachable from it |
| `StatProperties.UnknownMethodMessageNamesMethod` | fracdiff/stat.py:43 | two "Unknown method" exceptions have the same text iff they name the same method |
| `StatProperties.BoundaryAtEquality` | fracdiff/stat.py:86-88 | at `p == threshold` ADF says not stationary and KPSS says stationary |
| `StatProperties.OppositeNullHypotheses` | fracdiff/stat.py:85-88 | given the same p-value, ADF and KPSS verdicts are exact complements, so the strict tester succeeds and prints a remedy iff `verbose > 0` |
| `StatProperties.AdfMonotoneInThreshold` | fracdiff/stat.py:86 | for a fixed series, success does not depend on the threshold; a true ADF verdict stays true at every higher threshold |
| `StatProperties.KpssAntitoneInThreshold` | fracdiff/stat.py:88 | for a fixed series, success does not depend on the threshold; a true KPSS verdict stays true at every lower threshold |
| `StatProperties.ClassifyIsBijective` | fracdiff/stat.py:124-145 | a case and its verdict pair determine each other, so the four cases are exhaustive and mutually exclusive |
| `StatProperties.DiagnosticsDistinguishRemedies` | fracdiff/stat.py:133-145 | with `verbose > 0` the two disagreement lines differ, and the agreement cases print nothing |
| `StatProperties.StrictStationaryWindow` | fracdiff/stat.py:121-146 | when the library answers, the strict verdict is true iff `pADF < threshold <= pKPSS`, and a true verdict prints nothing |
| `StatProperties.StrictFailsFast` | fracdiff/stat.py:121-122 | the strict tester fails iff one routine does; the ADF routine's error takes precedence |
| `StatProperties.EveryCaseReachable` | fracdiff/stat.py:124-145 | for any threshold in (0, 1], each of the four cases is produced by some p-values in [0, 1], each with its own verdict and printed line |
| `StatProperties.StrictNullHypothesisNamesBoth` | fracdiff/stat.py:97-99 | the strict null hypothesis is the ADF tester's hypothesis, then " and not ", then the KPSS tester's |
| `StatProperties.DocumentedAdfRuns` | fracdiff/stat.py:20-31 | a tester built with no argument (ADF, as at line 34) reads an ADF p-value of 1.1655044784188669e-17 as stationary and one of 0.6020814791099098 as not stationary, at the default threshold 0.05 |

## Left out

- The statsmodels routines `adfuller` and `kpss` (fracdiff/stat.py:1, 58, 60) are library code. They are the abstract `Stattools` parameter. Only the p-value they return, or the error they raise, is modelled.
- The p-values in the docstring come from numpy's random generator and statsmodels. `DocumentedAdfRuns` takes them as hypotheses and proves only the verdicts.
- Floating-point behaviour, NaN p-values included, is not modelled: p-values are reals.
- The `print` calls (fracdiff/stat.py:136, 144) are not performed. The line is returned in `Report.printed`.
- Errors raised by the library are one abstract `LibraryError` (a string). What makes the library fail is not modelled.
- Python lets a caller reassign `method` or the sub-testers after construction. The model's values are immutable. Each operation still re-checks the method name, so the "Unknown method" behaviour is the same.
- `verbose` is an integer, and a line is printed when it is positive, as in the code (not a boolean switch). Python would also accept other number types there.
