# windeval drag-coefficient formulas in Dafny

windeval derives ocean diagnostics from wind observations. It builds them on
empirical drag coefficients. Class `BulkFormula` in `windeval/processing.py` holds six
such formulas. Each maps the absolute wind speed `U` at 10 m height to a dimensionless
drag coefficient `C_d`:

- Large and Pond 1981 (LP81): defined on [4, 25] m/s.
- Yelland and Taylor 1996 (YT96): defined on [3, 26] m/s.
- Kara et al. 2000 (K00): also takes sea-surface and air temperature. It clamps the
  wind speed to [2.5, 32.5] and never fails.
- Trenberth, Large and Olson 1990 (T90): four branches that cover every `U`.
- Large and Yeager 2004 (LY04): defined for every `U` except 0.
- NCEP/NCAR after Koehl and Heimbach 2007 (KH07): the constant 1.3 x 10^-3.

The model has three modules:

- `BulkFormula` (`bulk_formula.dfy`): one function per formula, over `real`. Every
  constant is a finite decimal, so each function gives the exact mathematical value
  that the floating-point code approximates. Where the code raises `ValueError`, the
  function returns `Err` with the same message text. The module also holds the
  lemmas about each formula: its domain, its range, clamping, monotonicity, and
  where two formulas agree.
- `ReferenceValues` (`reference_values.dfy`): the reference values of the test
  suite. A `math.isclose(..., rel_tol=1e-12)` comparison becomes the predicate
  `IsClose`. An `==` comparison becomes an equality.
- `DragFormulas` (`drag_formulas.dfy`): the six formulas as an enumerated type,
  looked up by method name as `getattr` does. `Evaluate` calls the chosen formula.
  `InDomain` states each formula's interval as its docstring gives it.

Where the documentation and the code disagree, the model follows the code:

- Kara's `C_d1`: the docstring writes `- 0.0001147 V^2`, but the code adds
  `+ 0.0001147 * V_hat_a ** 2` (windeval/processing.py:157). With the plus sign, `C_d1`
  is positive at every wind speed (`KaraStability`). So a sea warmer than the
  air never lowers the coefficient (`Kara2000MonotoneInTemperatureDifference`).
- The wrapper's docstrings describe an `extend_ranges` flag that returns `numpy.nan`
  for undefined values (windeval/wrapper.py:63-65). The `BulkFormula` methods take no
  such flag and raise `ValueError` instead, and so does the model.

## Model

| member | source | states |
|---|---|---|
| `BulkFormula.NcepNcar2007` | windeval/processing.py:44-62 | takes no input and is the constant 1.3 x 10^-3 |
| `BulkFormula.LargeAndPond1981` | windeval/processing.py:65-97 | succeeds exactly when 4 <= U <= 25, fails otherwise with the "[4, 25]" message, and on success lies in [1.2, 2.115] x 10^-3 |
| `BulkFormula.LargeAndPond1981Monotone` | windeval/processing.py:87-90 | on [4, 25] the coefficient never decreases as U grows (the constant branch meets the linear branch from below at 11) |
| `BulkFormula.LargeAndPondAgreesWithTrenberth` | windeval/processing.py:89-90 | for 11 <= U <= 25, LP81 gives exactly what T90 gives |
| `BulkFormula.YellandAndTaylor1996` | windeval/processing.py:100-131 | succeeds exactly when 3 <= U <= 26, fails otherwise with the "[3, 26]" message, and on success lies in [1.02, 2.42] x 10^-3; the divisions by U and U^2 are only reached with U >= 3 |
| `BulkFormula.YellandAndTaylorLowWindBounds` | windeval/processing.py:121-122 | on [3, 6) the rational branch lies above 1.02 and at most its value at U = 3 |
| `BulkFormula.KaraWindSpeed` | windeval/processing.py:154 | the clamped speed lies in [2.5, 32.5], equals V inside that interval, and is 2.5 below it and 32.5 above it |
| `BulkFormula.KaraNeutral` | windeval/processing.py:156 | C_d0 of the clamped speed; on [2.5, 32.5] it lies between its values at the two ends, 1.0764375 and 2.7819375 x 10^-3 |
| `BulkFormula.KaraStability` | windeval/processing.py:157 | C_d1 with the code's plus sign on the quadratic term; it is positive at every wind speed |
| `BulkFormula.Kara2000` | windeval/processing.py:134-161 | C_d0 + C_d1 (T_s - T_a) at the clamped speed, total; it is at least C_d0 when T_s >= T_a, at most C_d0 when T_s <= T_a, and in [1.0764375, 2.7819375] x 10^-3 when T_s = T_a |
| `BulkFormula.Kara2000ClampLow` | windeval/processing.py:154-161 | for V <= 2.5 the coefficient equals the one at V = 2.5, for any temperatures |
| `BulkFormula.Kara2000ClampHigh` | windeval/processing.py:154-161 | for V >= 32.5 the coefficient equals the one at V = 32.5, for any temperatures |
| `BulkFormula.KaraNeutralMonotone` | windeval/processing.py:156 | C_d0 never decreases with the wind speed on [2.5, 32.5] |
| `BulkFormula.Kara2000EqualTemperatures` | windeval/processing.py:154-161 | when T_s = T_a the temperature correction vanishes: the result is C_d0 of the clamped speed and lies in [1.0764375, 2.7819375] x 10^-3 |
| `BulkFormula.Kara2000MonotoneInTemperatureDifference` | windeval/processing.py:157-159 | at every wind speed the coefficient never decreases as T_s - T_a grows |
| `BulkFormula.Trenberth1990` | windeval/processing.py:164-200 | total (defined for every real U, never fails), at least 1.14 x 10^-3, and at most 2.18 x 10^-3 for U <= 10; the division by U is only reached with U > 1 |
| `BulkFormula.Trenberth1990Shape` | windeval/processing.py:191-198 | the branches meet at 1, 3 and 10: the coefficient never increases up to U = 10 and never decreases from U = 10 on |
| `BulkFormula.LargeAndYeager2004` | windeval/processing.py:203-226 | fails exactly when U = 0, with the "U = 0" message; for U > 0 the coefficient exceeds 1.04 x 10^-3 |
| `BulkFormula.LargeAndYeagerPositiveBound` | windeval/processing.py:224 | for U > 0, 0.142 + 0.076 U + 2.7 / U exceeds 1.04 |
| `ReferenceValues.IsClose` | windeval/tests/test_processing.py:32-33 | the tests' `math.isclose(..., rel_tol=1e-12)` with `abs_tol = 0`: reflexive, nothing but 0 is close to 0, and close values share their sign |
| `ReferenceValues.YellandAndTaylor1996Reference` | windeval/tests/test_processing.py:29-44 | YT96 at 3, 5.9, 6, 12 and 26 matches the test values; 27 and 1 fail with the "[3, 26]" message |
| `ReferenceValues.LargeAndPond1981Reference` | windeval/tests/test_processing.py:47-59 | LP81(5) = 1.2 x 10^-3 and LP81(12) = 1.27 x 10^-3; 1 and 26 fail with the "[4, 25]" message |
| `ReferenceValues.NcepNcar2007Reference` | windeval/tests/test_processing.py:62-64 | KH07 equals 1.3 x 10^-3 |
| `ReferenceValues.Trenberth1990Reference` | windeval/tests/test_processing.py:67-73 | T90 at 0.5, 1.5, 3 + 10^-10 and 15 is 2.18, 1.66, 1.14 and 1.465 x 10^-3 |
| `ReferenceValues.LargeAndYeager2004Reference` | windeval/tests/test_processing.py:76-83 | LY04(1) = 2.918 x 10^-3 and LY04(2) = 1.644 x 10^-3; LY04(0) fails with "Bulk-formula is not defined for U = 0" |
| `ReferenceValues.Kara2000Reference` | windeval/tests/test_processing.py:86-90 | K00(1, 1, 1) = 1.0764375 x 10^-3 (1 is clamped to 2.5) and K00(10, 10, 10) = 1.653 x 10^-3 |
| `DragFormulas.Lookup` | windeval/tests/test_processing.py:17-26 | a name finds the formula whose method it names, and finds nothing exactly when no formula's method has that name |
| `DragFormulas.LookupMethodName` | windeval/tests/test_processing.py:17-26 | each of the six method names finds its own formula |
| `DragFormulas.Evaluate` | windeval/processing.py:43-226 | any formula fails exactly outside its documented domain (LP81 [4, 25], YT96 [3, 26], LY04 U != 0; the others never), with that formula's message |
| `DragFormulas.EvaluateAboveOnePerMille` | windeval/processing.py:43-226 | for U > 0 every formula that succeeds gives more than 10^-3 (Kara et al. 2000 at equal temperatures) |

## Left out

- Floating point: the model computes over exact reals, without IEEE-754 rounding,
  and with no NaN and no ±inf. So the tests' `rel_tol=1e-12` comparisons hold as
  exact equalities or as `IsClose`.
- Not-a-number inputs: Python's comparisons with NaN are all false. So LP81 and YT96
  raise, T90 and LY04 return NaN, and K00 propagates it.
- Infinite inputs: LP81 and YT96 raise on ±inf, T90 and LY04 return inf at +inf, and
  K00 clamps +inf to 32.5 and -inf to 2.5.
- `DragFormulas.Lookup`: `getattr` also finds the class's other attributes and raises
  `AttributeError` for a missing name. The model looks up only the six formula names
  and returns `None` for any other name.
- The tests lower-case the names they list before the lookup. `Lookup` takes the
  already lower-cased method name; `str.lower` is not modelled.
- Stress, Ekman and Sverdrup transport: their functions (`surface_downward_*_stress`, `*_ekman_transport`,
  `sverdrup_transport`) are not part of this model. `windeval/processing.py` does
  not define them.
- `windeval/wrapper.py`: name-based dispatch into those missing functions. Its own
  logic only drops `None` keyword arguments and swaps the component name.
- Array inputs and `extend_ranges`: the code of `BulkFormula` is scalar only.
- Data loading, station/sequence conversion, netCDF I/O, reports, plotting and
  packaging: these are library wrappers and I/O with no formula logic.
