/** The reference values the test suite checks the formulas against
    (windeval/tests/test_processing.py). A test that compares with
    `math.isclose(x, y, rel_tol=1e-12)` becomes `IsClose(x, y)`; a test that
    compares with `==` becomes an equality.
 */
module ReferenceValues {
  import opened BulkFormula

  /** `math.isclose` with `rel_tol = 1e-12` and the default `abs_tol = 0`: every value is
      close to itself, nothing but 0 is close to 0, and close values share their sign. */
  predicate IsClose(a: real, b: real)
    ensures a == b ==> IsClose(a, b)
    ensures IsClose(a, b) && (a == 0.0 || b == 0.0) ==> a == b
    ensures IsClose(a, b) ==> (a > 0.0 <==> b > 0.0)
  {
    Abs(a - b) <= 1e-12 * Max(Abs(a), Abs(b))
  }

  function Abs(x: real): (m: real) { if x < 0.0 then -x else x }

  function Max(x: real, y: real): (m: real) { if x < y then y else x }

  /** The messages exactly as the tests spell them. */
  const ExpectedLargeAndPondMessage: string :=
    "Bulk-formula is not defined for values outside of the interval I = " + "[4, 25]"
  const ExpectedYellandAndTaylorMessage: string :=
    "Bulk-formula is not defined for values outside of the interval I = " + "[3, 26]"

  lemma YellandAndTaylor1996Reference()
    ensures YellandAndTaylor1996(3.0) == Ok((0.29 + 3.1 / 3.0 + 7.7 / 9.0) * 1e-3)
    ensures IsClose(YellandAndTaylor1996(3.0).cd, 0.00217888888888889)
    ensures YellandAndTaylor1996(5.9).Ok?
    ensures IsClose(YellandAndTaylor1996(5.9).cd, 0.001036624533180121)
    ensures YellandAndTaylor1996(6.0) == Ok(0.00102)
    ensures YellandAndTaylor1996(12.0) == Ok(0.00144)
    ensures YellandAndTaylor1996(26.0) == Ok(0.00242)
    ensures YellandAndTaylor1996(27.0) == Err(ExpectedYellandAndTaylorMessage)
    ensures YellandAndTaylor1996(1.0) == Err(ExpectedYellandAndTaylorMessage)
  {
  }

  lemma LargeAndPond1981Reference()
    ensures LargeAndPond1981(5.0) == Ok(1.2 * 1e-3)
    ensures LargeAndPond1981(12.0) == Ok(0.00127)
    ensures LargeAndPond1981(1.0) == Err(ExpectedLargeAndPondMessage)
    ensures LargeAndPond1981(26.0) == Err(ExpectedLargeAndPondMessage)
  {
  }

  lemma NcepNcar2007Reference()
    ensures NcepNcar2007() == 1.3 * 1e-3
  {
  }

  lemma Trenberth1990Reference()
    ensures Trenberth1990(0.5) == 0.00218
    ensures Trenberth1990(1.5) == 0.00166
    ensures Trenberth1990(3.0 + 1e-10) == 0.00114
    ensures Trenberth1990(15.0) == 0.001465
  {
  }

  lemma LargeAndYeager2004Reference()
    ensures LargeAndYeager2004(1.0) == Ok(0.002918)
    ensures LargeAndYeager2004(2.0) == Ok(0.001644)
    ensures LargeAndYeager2004(0.0) == Err("Bulk-formula is not defined for U = 0")
  {
  }

  lemma Kara2000Reference()
    ensures Kara2000(1.0, 1.0, 1.0) == 0.0010764375
    ensures Kara2000(10.0, 10.0, 10.0) == 0.001653
  {
  }
}
