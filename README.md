# Macro regime profiles of the float-arbitrage backtest

This project models `get_macro_profile(year, days)` from `backtest_scenarios.py`, the input
generator of the float-arbitrage backtest. It picks one of four macroeconomic regimes by
`year`: 2020 (COVID dip and rebound), 2022 (high inflation), 2023 (disinflation and low
volatility), and a constant baseline for every other year, 2021 included. It then returns two
index-aligned daily series of length `days`: the inflation drift (`cpi`) and the volatility
multiplier (`vol_mult`).

- `py_seq.dfy` (module `PySeq`) gives the Python list primitives the generator uses, with
  Python's semantics. These are `range(n)`, a list comprehension, and the slice `s[:n]`,
  including negative bounds.
- `macro_scenarios.dfy` (module `MacroScenarios`) holds the regime dispatch (`RegimeOf`), the
  per-element formulas (`InflationDrift`, `VolatilityMultiplier`) and the generator
  (`MacroProfile`). It also holds the lemmas about them.

`np.sin` is a call into a numerical library. It is modelled as a parameter
`sin: real -> real` of every function that evaluates the sine (`InflationDrift`,
`VolatilityMultiplier`, `MacroProfile`). The only fact assumed about it is `SineBounded(sin)`,
that is, `-1 <= sin(x) <= 1` for every `x`. The bound lemmas take this as a hypothesis. Values
are `real`, and `i / k` is Python's true division `(i as real) / k`.

Determinism needs no lemma. `MacroProfile` is a Dafny function of `(sin, year, days)`, so equal
arguments always give equal results.

## Model

| member | source | states |
|---|---|---|
| PySeq.Range | backtest_scenarios.py:6 | `range(n)` has `max(n, 0)` elements and element `k` is `k` |
| PySeq.Comprehension | backtest_scenarios.py:6-7 | a comprehension has one element per input element, and element `k` is `f` applied to input element `k` |
| PySeq.Prefix | backtest_scenarios.py:20 | `s[:n]` is a prefix of `s`; it has `n` elements when `0 <= n <= len(s)`, it is all of `s` when `n >= len(s)`, and it has `max(len(s)+n, 0)` elements when `n < 0` |
| PySeq.PrefixOfExactLength | backtest_scenarios.py:20 | slicing a list of exactly `max(n, 0)` elements to `[:n]` returns it unchanged |
| PySeq.RangeComprehensionPrefix | backtest_scenarios.py:6-20 | a comprehension over `range(n)` sliced to `[:n]` is the comprehension itself |
| MacroScenarios.MacroProfile | backtest_scenarios.py:3-20 | both series have exactly `days` elements and none when `days <= 0`; element `i` of each is the regime formula of `RegimeOf(year)` at `i` alone |
| MacroScenarios.TruncationIsNoOp | backtest_scenarios.py:4-20 | the final `cpi[:days], vol_mult[:days]` returns the two comprehensions unchanged |
| MacroScenarios.EmptyHorizon | backtest_scenarios.py:6-20 | for `days <= 0` both series are empty |
| MacroScenarios.NamedYearElements | backtest_scenarios.py:4-15 | year 2020 gives `0.0003 + 0.0001*sin(i/30)` and `0.015 + 0.01*sin(i/20)`; 2022 gives `0.0008 + 0.0002*sin(i/45)` and `0.012 + 0.008*sin(i/25)`; 2023 gives `0.0004 + 0.00005*sin(i/50)` and `0.008 + 0.004*sin(i/35)` |
| MacroScenarios.BaselineYears | backtest_scenarios.py:16-19 | every year other than 2020, 2022 and 2023 gives `cpi[i] == 0.0005` and `vol_mult[i] == 0.01` for every `i` |
| MacroScenarios.BaselineIgnoresSine | backtest_scenarios.py:16-19 | the baseline profile is the same whatever the sine function |
| MacroScenarios.HorizonPrefix | backtest_scenarios.py:4-20 | for `0 <= n <= m` the `n`-day profile is the first `n` elements of the `m`-day profile, in both series |
| MacroScenarios.ElementsWithinRegimeBands | backtest_scenarios.py:6-19 | given `-1 <= sin <= 1`, each regime keeps its elements in its own band: 2020 has cpi in [0.0002, 0.0004] and vol in [0.005, 0.025]; 2022 has [0.0006, 0.001] and [0.004, 0.02]; 2023 has [0.00035, 0.00045] and [0.004, 0.012]; the baseline has exactly 0.0005 and 0.01 |
| MacroScenarios.ProfileWithinBands | backtest_scenarios.py:4-20 | given `-1 <= sin <= 1`, for every year and every day, `0.0002 <= cpi[i] <= 0.001` and `0.004 <= vol_mult[i] <= 0.025`, so both series are strictly positive |

## Left out

- The numeric values of `np.sin`. It is a parameter, and the only fact used is that it stays in [-1, 1].
- IEEE-754 rounding of the sums, products and true divisions. All arithmetic is over `real`, and exact floating-point equality with the Python results is not claimed.
- ProfileWithinBands: its bounds are the exact extremes of the real-valued formulas, reached when the sine is -1 or 1. A rounded float value may fall one ulp outside a stated bound (in doubles, `0.0003 + 0.0001 * -1.0` is just below `0.0002`). Only strict positivity has a wide margin, because the lower bounds 0.0002 and 0.004 are well above 0.
- ElementsWithinRegimeBands: each regime's band is exactly its constant plus or minus its amplitude, so it is just as tight over floats. A rounded element may fall one ulp outside its band.
- The `numpy` import, and the list-versus-array distinction. Both series are `seq<real>`.
- A non-integer `year` or `days`. The model takes `int` for both, which is what callers pass.
- The rest of the backtest engine is not part of this model. That covers the float ledger, the yield accrual, the payment schedule, the day loop with its random jitter, the Sharpe and Sortino ratios, the dashboard and the spreadsheet export (`float_strategy_with_sharpe_sheets (1).py`, `float_dashboard_scenario_streamlit (1).py`). The dashboard consumes this generator but is not modelled; the export and the dashboard are I/O.
