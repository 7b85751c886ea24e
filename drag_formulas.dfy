/** Choosing one of the six formulas of `BulkFormula` (windeval/processing.py) by its
    method name, and evaluating whichever was chosen on one set of conditions.

    The source looks a formula up with `getattr` on the class, by the lower-case
    method name. Here the six formulas form an enumerated type, the lookup is an
    explicit table over the six method names, and an unknown name yields `None`.
 */
module DragFormulas {
  import opened BulkFormula

  datatype Option<T> = None | Some(value: T)

  /** The six formulas, named by the citation keys of the class docstring. */
  datatype DragFormula = LP81 | T90 | YT96 | K00 | LY04 | KH07

  /** The classmethod that implements each formula. */
  function MethodName(f: DragFormula): (name: string)
  {
    match f
    case LP81 => "large_and_pond_1981"
    case T90 => "trenberth_etal_1990"
    case YT96 => "yelland_and_taylor_1996"
    case K00 => "kara_etal_2000"
    case LY04 => "large_and_yeager_2004"
    case KH07 => "ncep_ncar_2007"
  }

  /** Attribute lookup restricted to the six formulas: a name finds the formula whose
      method it names, and finds nothing exactly when no formula has that name. */
  function Lookup(name: string): (r: Option<DragFormula>)
    ensures r.Some? ==> MethodName(r.value) == name
    ensures r.None? <==> forall f: DragFormula :: MethodName(f) != name
  {
    if name == "large_and_pond_1981" then Some(LP81)
    else if name == "trenberth_etal_1990" then Some(T90)
    else if name == "yelland_and_taylor_1996" then Some(YT96)
    else if name == "kara_etal_2000" then Some(K00)
    else if name == "large_and_yeager_2004" then Some(LY04)
    else if name == "ncep_ncar_2007" then Some(KH07)
    else None
  }

  /** Distinct formulas have distinct method names, so looking a method name up
      gives back its own formula. */
  lemma {:induction false} LookupMethodName(f: DragFormula)
    ensures Lookup(MethodName(f)) == Some(f)
  {
    match f
    case LP81 =>
    case T90 =>
    case YT96 =>
    case K00 =>
    case LY04 =>
    case KH07 =>
  }

  /** The conditions a formula is evaluated on: wind speed at 10 m and, for Kara
      et al. 2000 only, sea-surface and air temperature. */
  datatype Conditions = Conditions(windSpeed: real, seaSurfaceTemperature: real, airTemperature: real)

  /** The interval on which each formula is defined, as its docstring states it. */
  predicate InDomain(f: DragFormula, u: real)
  {
    match f
    case LP81 => 4.0 <= u <= 25.0
    case YT96 => 3.0 <= u <= 26.0
    case LY04 => u != 0.0
    case T90 | K00 | KH07 => true
  }

  /** The `ValueError` message of a formula with a bounded domain. The formulas that
      never raise get the empty string, which no `Err` carries. */
  function DomainMessage(f: DragFormula): (msg: string)
  {
    match f
    case LP81 => LargeAndPondMessage
    case YT96 => YellandAndTaylorMessage
    case LY04 => LargeAndYeagerMessage
    case T90 | K00 | KH07 => ""
  }

  /** Calls the chosen formula. It fails exactly outside the formula's documented
      domain, with that formula's message. */
  function Evaluate(f: DragFormula, c: Conditions): (r: Result)
    ensures r.Err? <==> !InDomain(f, c.windSpeed)
    ensures r.Err? ==> r.msg == DomainMessage(f)
  {
    match f
    case LP81 => LargeAndPond1981(c.windSpeed)
    case T90 => Ok(Trenberth1990(c.windSpeed))
    case YT96 => YellandAndTaylor1996(c.windSpeed)
    case K00 => Ok(Kara2000(c.windSpeed, c.seaSurfaceTemperature, c.airTemperature))
    case LY04 => LargeAndYeager2004(c.windSpeed)
    case KH07 => Ok(NcepNcar2007())
  }

  /** For a positive wind speed every formula that succeeds gives a coefficient
      above 10^-3, Kara et al. 2000 when sea and air are equally warm. */
  lemma {:induction false} EvaluateAboveOnePerMille(f: DragFormula, c: Conditions)
    requires c.windSpeed > 0.0
    requires f == K00 ==> c.seaSurfaceTemperature == c.airTemperature
    ensures Evaluate(f, c).Ok? ==> Evaluate(f, c).cd > 1e-3
  {
    if f == K00 {
      Kara2000EqualTemperatures(c.windSpeed, c.airTemperature);
    }
  }
}
