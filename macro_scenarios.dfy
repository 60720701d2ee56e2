/**
 The regime-profile generator of the float backtest: for a macro "year" and a
 horizon of `days`, two index-aligned daily series, the inflation drift
 (`cpi`) and the volatility multiplier (`volMult`).

 The sine function of the numerical library is not modelled by value; it is a
 parameter `sin`, and the only fact used about it is that it stays in
 [-1, 1] (`SineBounded`). Arithmetic is over `real`.
 */
module MacroScenarios {
  import opened PySeq

  /** The four regimes; every year other than 2020, 2022 and 2023 is the baseline. */
  datatype Regime = CovidRebound | HighInflation | Disinflation | Baseline

  /** The two series returned together, indexed by simulation day. */
  datatype Profile = Profile(cpi: seq<real>, volMult: seq<real>)

  /** A closed interval `lo <= x <= hi`. */
  datatype Band = Band(lo: real, hi: real)
  {
    predicate Contains(x: real) { lo <= x <= hi }
  }

  /** What the library's sine guarantees and all the model relies on. */
  ghost predicate SineBounded(sin: real -> real)
  {
    forall x: real :: -1.0 <= sin(x) <= 1.0
  }

  function RegimeOf(year: int): Regime
  {
    if year == 2020 then CovidRebound
    else if year == 2022 then HighInflation
    else if year == 2023 then Disinflation
    else Baseline
  }

  /** Element `i` of the inflation-drift series; `i / k` is Python's true division. */
  function InflationDrift(sin: real -> real, regime: Regime, i: int): real
  {
    match regime
    case CovidRebound => 0.0003 + 0.0001 * sin(i as real / 30.0)
    case HighInflation => 0.0008 + 0.0002 * sin(i as real / 45.0)
    case Disinflation => 0.0004 + 0.00005 * sin(i as real / 50.0)
    case Baseline => 0.0005
  }

  /** Element `i` of the volatility-multiplier series. */
  function VolatilityMultiplier(sin: real -> real, regime: Regime, i: int): real
  {
    match regime
    case CovidRebound => 0.015 + 0.01 * sin(i as real / 20.0)
    case HighInflation => 0.012 + 0.008 * sin(i as real / 25.0)
    case Disinflation => 0.008 + 0.004 * sin(i as real / 35.0)
    case Baseline => 0.01
  }

  /**
   `get_macro_profile(year, days)`: pick the regime, build both series by a
   comprehension over `range(days)`, and return each sliced to `[:days]`.
   Both series have exactly `days` elements (none when `days <= 0`), and
   element `i` depends on the year and on `i` alone.
   */
  function MacroProfile(sin: real -> real, year: int, days: int): (p: Profile)
    ensures |p.cpi| == |p.volMult| == if days > 0 then days else 0
    ensures forall i :: 0 <= i < |p.cpi| ==>
      p.cpi[i] == InflationDrift(sin, RegimeOf(year), i) &&
      p.volMult[i] == VolatilityMultiplier(sin, RegimeOf(year), i)
  {
    var regime := RegimeOf(year);
    var cpi := Comprehension(i => InflationDrift(sin, regime, i), Range(days));
    var volMult := Comprehension(i => VolatilityMultiplier(sin, regime, i), Range(days));
    Profile(Prefix(cpi, days), Prefix(volMult, days))
  }

  /** The final `[:days]` slice returns the comprehensions unchanged. */
  lemma TruncationIsNoOp(sin: real -> real, year: int, days: int)
    ensures var regime := RegimeOf(year);
      MacroProfile(sin, year, days) ==
      Profile(Comprehension(i => InflationDrift(sin, regime, i), Range(days)),
              Comprehension(i => VolatilityMultiplier(sin, regime, i), Range(days)))
  {
    var regime := RegimeOf(year);
    RangeComprehensionPrefix(i => InflationDrift(sin, regime, i), days);
    RangeComprehensionPrefix(i => VolatilityMultiplier(sin, regime, i), days);
  }

  /** A non-positive horizon gives two empty series. */
  lemma EmptyHorizon(sin: real -> real, year: int, days: int)
    requires days <= 0
    ensures MacroProfile(sin, year, days) == Profile([], [])
  {
  }

  /**
   Element `i` of each named regime, written out against the year that
   selects it.
   */
  lemma NamedYearElements(sin: real -> real, year: int, days: int, i: int)
    requires 0 <= i < days
    ensures var p := MacroProfile(sin, year, days);
      && (year == 2020 ==>
            p.cpi[i] == 0.0003 + 0.0001 * sin(i as real / 30.0) &&
            p.volMult[i] == 0.015 + 0.01 * sin(i as real / 20.0))
      && (year == 2022 ==>
            p.cpi[i] == 0.0008 + 0.0002 * sin(i as real / 45.0) &&
            p.volMult[i] == 0.012 + 0.008 * sin(i as real / 25.0))
      && (year == 2023 ==>
            p.cpi[i] == 0.0004 + 0.00005 * sin(i as real / 50.0) &&
            p.volMult[i] == 0.008 + 0.004 * sin(i as real / 35.0))
  {
  }

  /** Every other year, 2021 included, is the constant baseline. */
  lemma BaselineYears(sin: real -> real, year: int, days: int)
    requires year != 2020 && year != 2022 && year != 2023
    ensures var p := MacroProfile(sin, year, days);
      forall i :: 0 <= i < |p.cpi| ==> p.cpi[i] == 0.0005 && p.volMult[i] == 0.01
  {
  }

  /** The baseline never consults the sine: any two sines give the same profile. */
  lemma BaselineIgnoresSine(sin1: real -> real, sin2: real -> real, year: int, days: int)
    requires year != 2020 && year != 2022 && year != 2023
    ensures MacroProfile(sin1, year, days) == MacroProfile(sin2, year, days)
  {
  }

  /**
   Horizon independence: the profile for `n` days is the first `n` days of the
   profile for any longer horizon `m`.
   */
  lemma HorizonPrefix(sin: real -> real, year: int, n: int, m: int)
    requires 0 <= n <= m
    ensures MacroProfile(sin, year, n).cpi == MacroProfile(sin, year, m).cpi[..n]
    ensures MacroProfile(sin, year, n).volMult == MacroProfile(sin, year, m).volMult[..n]
  {
  }

  /** The band each regime keeps its inflation drift in. */
  function CpiBand(regime: Regime): Band
  {
    match regime
    case CovidRebound => Band(0.0002, 0.0004)
    case HighInflation => Band(0.0006, 0.001)
    case Disinflation => Band(0.00035, 0.00045)
    case Baseline => Band(0.0005, 0.0005)
  }

  /** The band each regime keeps its volatility multiplier in. */
  function VolBand(regime: Regime): Band
  {
    match regime
    case CovidRebound => Band(0.005, 0.025)
    case HighInflation => Band(0.004, 0.02)
    case Disinflation => Band(0.004, 0.012)
    case Baseline => Band(0.01, 0.01)
  }

  /** Given only `|sin x| <= 1`, each element stays in its regime's band. */
  lemma ElementsWithinRegimeBands(sin: real -> real, regime: Regime, i: int)
    requires SineBounded(sin)
    ensures CpiBand(regime).Contains(InflationDrift(sin, regime, i))
    ensures VolBand(regime).Contains(VolatilityMultiplier(sin, regime, i))
  {
  }

  /**
   Every element of every profile is strictly positive and bounded:
   `0.0002 <= cpi[i] <= 0.001` and `0.004 <= volMult[i] <= 0.025`.
   */
  lemma ProfileWithinBands(sin: real -> real, year: int, days: int, i: int)
    requires SineBounded(sin)
    requires 0 <= i < days
    ensures var p := MacroProfile(sin, year, days);
      && 0.0002 <= p.cpi[i] <= 0.001
      && 0.004 <= p.volMult[i] <= 0.025
  {
  }
}
