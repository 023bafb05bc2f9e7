# SIOEI projection engine in Dafny

SIOEI is a Streamlit dashboard for simulating an investment plan. The user
spreads weights over a catalogue of assets, either by hand or from a preset
investor profile or thesis. Beneath the UI is one engine, `calcular`:

- it normalises the weights into shares;
- it blends the assets' gross return, cost and risk;
- it compounds the blended portfolio month by month, together with the CDI
  and the savings account, each in nominal and inflation-adjusted form;
- it works out the invested capital and the perpetual passive income that the
  final real balance supports.

A few small rules in the UI code read that result: the guarded percentage
`calc_percent`, the headers comparing the portfolio with the CDI and the
savings account, the risk band, and the retirement viability verdict. The
dashboard's slider state is initialised at start-up and overwritten from a
preset whenever the mode or the selection changes (`atualizar_reativo`).

The project models all of this on exact `real` arithmetic.

| file | module | models |
|---|---|---|
| `wrappers.dfy` | `Wrappers` | `Option`, `Result` and `Outcome` |
| `allocation.dfy` | `Allocation` | the weight map, the catalogue and the aggregation loop of `calcular` |
| `trajectory.dfy` | `Trajectory` | the monthly recurrence of the six series and the invested capital |
| `viability.dfy` | `Viability` | required capital, verdict, progress and severity |
| `engine.dfy` | `Engine` | `calcular` as a whole: constants, rate conversion, real rate, passive income |
| `dashboard.dfy` | `Dashboard` | `calc_percent`, the CDI and savings headers, the risk band |
| `session.dfy` | `Session` | the slider initialisation and `atualizar_reativo` |

Modelling choices:

- **Catalogue.** The asset catalogue is a parameter `map<string, Asset>`, where
  an asset has a gross return, a cost (`taxa`) and a risk score.
- **Weights.** The weight map is a sequence of `(name, weight)` entries, in the
  iteration order of the source dictionary.
- **Unknown asset name.** The `KeyError` raised for a name missing from the
  catalogue becomes a `Failure` carrying that name.
- **Monthly rate.** The source converts an annual percentage to a monthly rate
  with the fractional power `(1 + r/100)**(1/12) - 1`. `Engine.Calculate` takes
  that conversion as a parameter `monthly: real -> real`. Properties that depend
  on it take what they need about `monthly` as an explicit precondition, e.g.
  `Pow(1.0 + monthly(10.0), 12) == 1.1` in `Engine.SingleAssetYear`.
- **Presets.** The profile and thesis presets are parameter maps from a name to
  a weight map.

The model keeps these details of `calcular` and the viability block:

- the idle-cash fallback is taken on the test `total == 0` (SIOEI.py:296), so
  only weights summing to exactly zero select it;
- the verdict `atingiu` also demands `saldo_final_real > 0` (SIOEI.py:658);
- the savings rate is `taxa_poupanca = 6.17` (SIOEI.py:286);
- inflation is the constant `inflacao_aa = 4.50` (SIOEI.py:284), not an input.

## Model

| member | source | states |
|---|---|---|
| Allocation.Aggregate | SIOEI.py:288-313 | the aggregation loop returns the aggregation of the weights: the idle-cash profile when they sum to zero, the first positive-weight name missing from the catalogue as a failure, otherwise the blended gross, cost and risk with the list of used assets and their percentage shares |
| Allocation.IdleFallback | SIOEI.py:296-302 | the fallback is taken exactly when the weights sum to zero, and it is gross 6.17, cost 0, risk 0.5 and a single entry at 100 %; otherwise the idle flag is false |
| Allocation.FirstMissingIsFirst | SIOEI.py:304-306 | the lookup fails exactly when some positive weight names an asset outside the catalogue, and the failure names the first such asset in iteration order |
| Allocation.ZeroWeightIsAbsence | SIOEI.py:304-305 | an entry of weight zero, at any position of the weight map, changes nothing in the aggregation |
| Allocation.TotalNonNegative | SIOEI.py:288 | non-negative weights have a non-negative sum |
| Allocation.UsedSharesSumTo100 | SIOEI.py:304-311 | with non-negative weights the recorded percentage shares of the used assets add up to 100, in the fallback too |
| Allocation.ScaleInvariance | SIOEI.py:288-313 | multiplying every weight by the same positive factor leaves the whole aggregation unchanged: blended gross, cost, risk and shares, or the same failure |
| Allocation.BlendWithinBounds | SIOEI.py:304-311 | with non-negative weights of nonzero sum, a blended figure lies between a lower and an upper bound whenever every used asset's figure does; in particular the blended risk lies between the smallest and the largest risk used |
| Trajectory.Simulate | SIOEI.py:314-349 | the month loop produces, for the portfolio, the CDI and the savings account, a nominal and a deflated series of `months + 1` balances following their recurrences, and the invested capital |
| Trajectory.TracksStep | SIOEI.py:322-346 | every series starts at the initial amount and moves from month k to k + 1 by multiplying by its factor and adding month k's flow, the same flow for all six series |
| Trajectory.TracksUnique | SIOEI.py:322-346 | a series is determined by its initial amount, factor, plan and length |
| Trajectory.ZeroHorizon | SIOEI.py:314-328 | with no months every series is just the initial amount, which is also the invested capital |
| Trajectory.ContributingMonths | SIOEI.py:348-349 | the number of months whose contribution counts as invested never exceeds the horizon |
| Trajectory.InvestedClosedForm | SIOEI.py:326-349 | invested capital is the initial amount plus the contribution times the horizon, or times the withdrawal start month when withdrawals are enabled and start before the horizon ends |
| Trajectory.InvestedIgnoresWithdrawal | SIOEI.py:348-349 | the desired income plays no part in the invested capital |
| Trajectory.NoFlowCompounds | SIOEI.py:329-333 | without cash flows a balance is the initial amount times the monthly factor to the power n |
| Trajectory.BalanceMonotoneInGrowth | SIOEI.py:333-346 | with a non-negative start and flows, a balance is non-negative and grows with the monthly factor |
| Trajectory.BalanceStrictInGrowth | SIOEI.py:333-346 | from the first month on, a strictly larger factor gives a strictly larger balance when the start is positive |
| Trajectory.BalancePositive | SIOEI.py:333-346 | a positive start, a positive factor and non-negative flows keep a balance positive |
| Trajectory.BalanceNonDecreasing | SIOEI.py:333-346 | with non-negative flows and a factor of at least one, a balance never falls from one month to the next |
| Trajectory.DeflatedBelowNominal | SIOEI.py:333-335 | with non-negative inflation and flows, the inflation-adjusted series never exceeds the nominal one |
| Trajectory.DeflatedStrictlyBelowNominal | SIOEI.py:333-335 | with positive inflation, a positive start and non-negative flows, the inflation-adjusted series equals the nominal one at month 0 and is strictly below it from month 1 on |
| Trajectory.BalanceBelowWhileSolvent | SIOEI.py:328-346 | whatever the flows, including withdrawals larger than the contribution, a smaller non-negative factor never gives a larger balance while the balance under the larger factor is non-negative |
| Trajectory.BalanceStrictlyBelowWhileSolvent | SIOEI.py:328-346 | whatever the flows, from month 1 on a strictly smaller non-negative factor gives a strictly smaller balance while the balance under the larger factor is positive |
| Trajectory.DeflatedBelowNominalWhileSolvent | SIOEI.py:328-346 | in any plan, withdrawal phase included, with non-negative inflation the inflation-adjusted series never exceeds the nominal one as long as the nominal balance has not gone negative |
| Trajectory.DeflatedStrictlyBelowNominalWhileSolvent | SIOEI.py:328-346 | in any plan, withdrawal phase included, with positive inflation the two series agree at month 0 and the inflation-adjusted one is strictly below from month 1 on as long as the nominal balance has stayed positive |
| Engine.PlanOf | SIOEI.py:315-331 | withdrawals start at month `anos_inicio_retirada * 12` and apply exactly in the months at or after it when enabled |
| Engine.RealMonthlyRate | SIOEI.py:351-352 | the real monthly rate is `(1 + tx) / (1 + tx_inf) - 1` when positive and 0.0001 otherwise, so it is always positive |
| Engine.Calculate | SIOEI.py:283-365 | `calcular`: a lookup failure propagates; otherwise the result carries the six series for `anos * 12` months at the blended, CDI and savings rates, the final balances, the invested capital, the net return, the risk, the used assets, the idle flag, the real monthly rate and the passive income |
| Engine.ProjectionShape | SIOEI.py:313-361 | every series has `anos * 12 + 1` entries and starts at the initial amount; with no years the final nominal and real balances and the invested capital are the initial amount; the annual return is the blended gross less the blended cost, and the risk is the blended risk |
| Engine.InvestedCapital | SIOEI.py:326-349 | `investido` is the initial amount plus one contribution per month of the horizon, or per month before withdrawals start when they are enabled |
| Engine.PassiveIncomeSign | SIOEI.py:351-354 | the real rate is positive, so the passive income is positive exactly when the final real balance is |
| Engine.IdleCashFollowsSavings | SIOEI.py:296-346 | with idle cash the portfolio series are the savings series |
| Engine.GoalAlwaysDefined | SIOEI.py:652-655 | after `calcular`, capital is required exactly when an income is desired |
| Engine.SingleAssetYear | SIOEI.py:283-365 | one asset at 10 % gross, no cost and risk 1, with 10000 invested for one year: net return 10, risk 1, not idle, and a final nominal balance of 11000 |
| Engine.IdleCashYear | SIOEI.py:283-365 | an empty portfolio of 5000 for one year is idle cash whose final nominal balance is 5000 grown by the savings rate |
| Viability.Clamp01 | SIOEI.py:660-661 | the clamp lies in [0, 1] and is the identity inside it |
| Viability.Required | SIOEI.py:652-655 | the required capital is zero unless both the income and the rate are positive, and its monthly yield then pays exactly the income |
| Viability.Assess | SIOEI.py:652-672 | the goal is met iff the final real balance reaches the required capital and is positive; progress lies in [0, 1] and is 0 without a requirement; a shortfall is critical iff the final real balance is below the invested capital, otherwise caution |
| Viability.MetIffFullProgress | SIOEI.py:658-663 | with a requirement in place the goal is met exactly when the progress bar is full |
| Viability.MetIffYieldCoversIncome | SIOEI.py:652-658 | with a positive income and rate the goal is met exactly when the balance's monthly real yield covers the income |
| Viability.NoGoal | SIOEI.py:654-663 | without a positive income or rate nothing is required, progress stays 0 and any positive balance meets the goal |
| Viability.ProgressMonotone | SIOEI.py:658-663 | a larger final real balance never lowers the progress and keeps a met goal met |
| Viability.ShortfallScenario | SIOEI.py:652-672 | an income of 1000 at a real rate of 0.3 % needs 1000 / 0.003; a final balance of 100000 falls short at 30 % progress |
| Dashboard.SafeDenominator | SIOEI.py:509 | the safe denominator is the larger of the denominator and 0.01 |
| Dashboard.CalcPercent | SIOEI.py:508-511 | the percentage has the sign of the numerator, is zero iff the numerator is, and equals numerator over denominator times 100 when the denominator is at least 0.01 |
| Dashboard.CalcPercentIsSafeQuotient | SIOEI.py:508-511 | the explicit branch for a positive numerator over a non-positive denominator agrees with division by the safe denominator |
| Dashboard.CalcPercentAgainstPar | SIOEI.py:508-511 | a non-negative numerator below the denominator gives under 100 %; one at least as large as a denominator of at least 0.01 gives at least 100 % |
| Dashboard.CdiHeader | SIOEI.py:518-531 | a loss iff the profit is negative; the warning colour iff the profit trails the CDI's; the success colour iff it matches or beats it |
| Dashboard.CdiHeaderPercent | SIOEI.py:518-531 | a non-negative profit gives a non-negative percentage, under 100 % in the warning colour and at least 100 % in the success colour (against a CDI profit of at least 0.01) |
| Dashboard.SavingsHeaderAsWritten | SIOEI.py:533-543 | as written, the warning colour appears only when the profit exactly equals the savings profit |
| Dashboard.TrailingSavingsShownAsSuccess | SIOEI.py:533-543 | as written, a profit of 1 against a savings profit of 2 is shown in the success colour at 50 % |
| Dashboard.SavingsHeader | SIOEI.py:533-543 | corrected: a loss iff the profit is negative; warning iff it does not beat the savings profit; success iff it does |
| Dashboard.SavingsSuccessAbovePar | SIOEI.py:533-543 | in the corrected header the success colour always shows at least 100 % (against a savings profit of at least 0.01) |
| Dashboard.SavingsHeaderCorrection | SIOEI.py:533-543 | the corrected and the as-written headers differ exactly when a non-negative profit trails the savings profit |
| Dashboard.IdleCashNeverBeatsSavings | SIOEI.py:503-543 | with idle cash the portfolio's profit is the savings profit, so neither the corrected nor the as-written savings header shows success, and the as-written one shows the warning colour whenever there is no loss |
| Dashboard.RiskBand | SIOEI.py:548-549 | the band is low iff the risk is below 4 and high iff it is at least 7 |
| Dashboard.RiskTone | SIOEI.py:548 | the risk colour is success iff the risk is below 4, warning iff it is in [4, 7), danger iff it is at least 7 |
| Dashboard.RiskBandMonotone | SIOEI.py:548-549 | a higher risk never lands in a lower band, and idle cash (risk 0.5) is low risk |
| Session.SliderKeyInjective | SIOEI.py:370-386 | distinct asset names have distinct slider keys |
| Session.PresetFor | SIOEI.py:374-381 | the preset is the selected profile's weights in automatic mode and the selected thesis's in assisted mode, empty otherwise or without a selection; a selection naming no preset fails with that name |
| Session.AssignedSpec | SIOEI.py:385-386 | after the reset every asset's slider holds the preset weight or 0, every other key keeps its value, and the only keys added are the asset sliders |
| Session.InitialisedSpec | SIOEI.py:370-371 | initialisation keeps every existing value, gives every asset without a slider one at 0, and adds only the asset sliders |
| Session.MissingSelectionZeroes | SIOEI.py:374-386 | with no selection, or in a mode with no preset, every asset slider is reset to 0 |
| Session.SessionState.InitSliders | SIOEI.py:370-371 | the start-up loop leaves the sliders initialised and the mode and selections unchanged |
| Session.SessionState.Refresh | SIOEI.py:373-386 | in manual mode nothing changes; otherwise an unknown selection fails and changes nothing, and a known one sets every asset's slider to the preset weight or 0 |

## Left out

- The Streamlit page, widgets, CSS, logo loading over HTTP or from disk, charts, metric cards and footer are UI and I/O. The model takes the values those widgets produce as inputs.
- The fractional power `(1 + r/100)**(1/12) - 1` is not modelled: Dafny has no real exponentiation, so the conversion is the parameter `monthly`.
- Floating-point rounding is not modelled: every quantity is an exact `real`.
- The `x` axis built with `np.arange` is used only for plotting.
- `fmt_pct`, the number formatting and the `sinal_*` signs are string formatting.
- Only the numbers and colours of the headers and risk bands are modelled. Their texts, emojis and the labels "Baixo"/"Médio"/"Alto" are not.
- The display fields `cor`, `desc` and `mercado` of the used-asset entries are presentation. A `Share` holds only the name and the percentage.
- The literal contents of `ATIVOS`, `PERFIS`, `TESES` and `DESCRICOES_PERFIS` are configuration data, so the catalogue and presets are parameters.
- The default arguments of `calcular` (`renda_desejada=0`, `anos_inicio_retirada=99`, `usar_retirada=False`, SIOEI.py:283) are not modelled: `Engine.Inputs` always carries all three, as the only call (SIOEI.py:485) passes them.
- A weight map has unique keys. `Allocation.Weights` is a sequence that does not exclude repeated names.
- The widget callbacks and reruns that invoke `atualizar_reativo`, and the building of the weight map from the sliders, belong to the Streamlit event loop.
- A session key that has never been set is read with `get` and yields `None`. The mode and the selections are therefore `Option` values, and the `KeyError` raised for a selection that names no preset becomes a failed `Outcome`.
- `Dashboard.CdiHeaderPercent` and `Dashboard.SavingsSuccessAbovePar` claim "at least 100 %" only when the benchmark profit is at least 0.01. Below that, `calc_percent` divides by the 0.01 floor.

## Findings

| source | as written | input that shows it | evidently intended | confidence | as-written member | corrected member |
|---|---|---|---|---|---|---|
| SIOEI.py:536 | the savings header uses the warning colour only when the portfolio's profit exactly equals the savings profit, and otherwise the success colour | profit 1, savings profit 2: shown in the success colour as "50 % da Poupança" | warning whenever the profit does not beat the savings profit (`<=`), as the CDI header does with `<` | low, not executed | Dashboard.TrailingSavingsShownAsSuccess | Dashboard.SavingsHeader |
