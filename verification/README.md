# saxskit fitting core in Dafny

This project models the parameter bookkeeping of saxskit's SAXS spectrum
fitter (`saxskit/saxs_fit.py`) and proves properties of it. A SAXS fit
works on a parameter dict. The dict is ordered, and each key maps to a
list with one entry per population instance. The model covers these parts:

- the `param_defaults` and `param_limits` tables;
- the asymmetric merge `update_params`;
- the default schema `SaxsFitter.default_params`, built from the population counts;
- the flattening `lmfit_params`, which turns (values, fixed mask, bounds)
  into named optimizer slots `key+str(i)`;
- the reading back `saxskit_params`;
- the constructor's fit mask `I > 0`;
- the early exit and merge of `fit`;
- the amplitude-only mask of `fit_intensity_params`;
- the peak-selection loop of `estimate_peak_params`.

Modules, one per file:

| module | file | contents |
|---|---|---|
| `Results` | results.dfy | `Option`, and `Result` with `KeyError` for Python's raised `KeyError` |
| `Decimal` | decimal.dfy | `str(i)` for naturals and its inverse |
| `Tables` | tables.dfy | parameter and population names, the two tables, `parameter_keys` |
| `ParamDict` | param_dict.dfy | ordered parameter dicts `PDict<T>` (generic, so values, booleans and bounds share one merge), `update_params` |
| `Schema` | schema.dfy | population counts and `default_params` |
| `Flat` | flat.dfy | lmfit slots, `lmfit_params`, `saxskit_params`, the round trip |
| `Fitter` | fitter.dfy | `SaxsFitter`, `fit`, `fit_intensity_params` |
| `Peaks` | peaks.dfy | candidate ranking and `estimate_peak_params` |

These outside pieces are parameters of the model:

- the lmfit optimizer, a function `seq<Slot> -> Run`;
- `np.log` and `np.sqrt` in the constructor;
- the peak-width estimate, a function of the candidate's spectrum index;
- the peak candidates from `peak_finder.peaks_by_window`, an input list of (index, confidence) pairs.

`argsort(conf)[::-1]` is modelled as any ranking: a permutation of the
candidates by non-increasing confidence. `Peaks.Rank` shows that such a
ranking always exists.

Where the code and its documentation disagree, the model follows the code:

- `update_params` raises `KeyError` for an override key that the base dict
  lacks. The `fit` docstring (saxskit/saxs_fit.py:99-100) says such entries
  are ignored. The model returns `Err(KeyError(name))` for the first such key.
- The `fit` docstring calls `fixed_params` a dict of floats that take
  precedence over `params` (saxskit/saxs_fit.py:91-98). The code uses each
  entry only as a boolean (`vary=not fp[pkey][i]`). The model types the
  fixed mask as `PDict<bool>`, and a fixed entry keeps the value `params`
  gives it.

## Model

| member | source | states |
|---|---|---|
| Tables.DefaultsWithinLimits | saxskit/saxs_fit.py:14-36 | every default value lies inside that parameter's limits, where a `None` side is unbounded |
| ParamDict.UpdateParams | saxskit/saxs_fit.py:38-44 | fails with `KeyError` exactly when an override key is missing from the base, naming the first such key in override order; on success the keys and list lengths of the base are unchanged, entry `i` of key `k` is the override's entry when the override has index `i`, and every other entry is the base's |
| ParamDict.UpdateSameShape | saxskit/saxs_fit.py:38-44 | an override with exactly the base's keys and lengths replaces the base completely |
| ParamDict.UpdateIdempotent | saxskit/saxs_fit.py:38-44 | merging the result of a merge into the same base again gives the same result |
| ParamDict.MergeOptEntries | saxskit/saxs_fit.py:125-128 | merging an optional override fails only for a stray key; on success it keeps the base's shape and takes each entry from the override where one exists, else from the base |
| ParamDict.SetKeyKeepsOrder | saxskit/saxs_fit.py:271-273 | assigning a key of an ordered dict never moves or drops the keys already there |
| Schema.AddKeys | saxskit/saxs_fit.py:174-175 | adding a population's keys appends them in order, each mapped to `v` copies of its default, and keeps the dict well formed |
| Schema.AddPopulations | saxskit/saxs_fit.py:171-175 | walking the populations in order appends exactly the keys of the populations with truthy count, with `count` copies of each default, and keeps earlier entries |
| Schema.DefaultParams | saxskit/saxs_fit.py:165-176 | empty when the `unidentified` count is truthy; otherwise `I0_floor` first and then the owned keys of each present population in order, each key holding `count` copies of its default (one for `I0_floor`), and no other key |
| Schema.DefaultParamsWithinLimits | saxskit/saxs_fit.py:165-176 | every entry of the default schema lies inside its parameter's limits |
| Decimal.ParseNatToString | saxskit/saxs_fit.py:241 | the decimal text `str(i)` of an index parses back to `i` |
| Flat.SlotNameInjective | saxskit/saxs_fit.py:241 | two (key, index) pairs with the same slot name `key+str(index)` are the same pair |
| Flat.Lookup | saxskit/saxs_fit.py:249 | looking up a slot by name finds nothing exactly when no slot has that name; otherwise the slot found is one of them with that name |
| Flat.LookupDistinct | saxskit/saxs_fit.py:249 | when slot names are distinct, looking up a slot's own name finds that slot |
| Flat.Flatten | saxskit/saxs_fit.py:239-242 | the flattening emits one slot per (key, index) of the dict, with distinct names, each carrying the value, `not fixed` and the bounds of its entry, and no slot for any other key |
| Flat.FreeMask | saxskit/saxs_fit.py:224-227 | the default fixed mask has the schema's shape and every entry `False` |
| Flat.DefaultBounds | saxskit/saxs_fit.py:231-234 | the default bounds have the schema's shape and each entry is its key's `param_limits` pair |
| Flat.LmfitParams | saxskit/saxs_fit.py:218-243 | fails exactly when one of the three overrides has a key outside the schema; otherwise there are as many slots as schema entries, with distinct names, and slot `key+str(i)` holds the merged value, `vary` as the negated merged fixed flag (unfixed by default) and the merged bounds (`param_limits` by default) |
| Flat.ReadValues | saxskit/saxs_fit.py:248-249 | reading `n` entries of a key succeeds exactly when every slot `key+str(i)` exists, and then yields their values in index order |
| Flat.ReadKeys | saxskit/saxs_fit.py:247-249 | reading back a list of keys succeeds exactly when every slot they need exists, keeps the dict's shape, and stores each slot's value at its entry |
| Flat.SaxskitParams | saxskit/saxs_fit.py:245-250 | succeeds exactly when every slot of the default schema exists; the result has the default schema's shape and each entry is the value of its slot |
| Flat.RoundTrip | saxskit/saxs_fit.py:218-250 | reading back the slots `lmfit_params` produces gives the defaults merged with `params`, whatever the fixed mask and bounds; slots hold their values unclipped (see Left out) |
| Flat.FixedSurvive | saxskit/saxs_fit.py:133-137 | if the optimizer leaves non-varying slots unchanged, every entry flagged fixed reads back as its merged starting value (unclipped, see Left out) |
| Flat.DefaultStartInBounds | saxskit/saxs_fit.py:218-243 | with no `params` and no `param_bounds`, every slot's value lies inside its own bound, so lmfit's clipping leaves the starting point unchanged |
| Fitter.NewFitter | saxskit/saxs_fit.py:69-81 | `q` and `I` are the two columns; the fit mask holds exactly where `I > 0`; `log I` is defined exactly on the mask; the errors are the given ones, or `sqrt I` on the mask and undefined off it |
| Fitter.Fit | saxskit/saxs_fit.py:121-140 | returns two empty results when the `unidentified` count is truthy; otherwise fails exactly when an override has a stray key or the optimizer's slots lack an entry of the default schema; on success the dict has the default schema's shape, each entry is the value of its slot after the optimizer ran (line 137), and the report's success flag is the optimizer's (line 140) |
| Fitter.FitStart | saxskit/saxs_fit.py:124-133 | the slots handed to the optimizer exist exactly when none of `params`, `fixed_params`, `param_limits` has a key outside the default schema |
| Fitter.Finish | saxskit/saxs_fit.py:137-140 | reading the optimizer's slots back fails exactly when a slot of the default schema is missing; otherwise each entry is its slot's value and the report carries the optimizer's success flag |
| Fitter.FitStartReadsBack | saxskit/saxs_fit.py:124-133 | the slots given to the optimizer read back as the merged initial guess, which is exactly `default_params()` when no `params` is passed |
| Fitter.FitIdleOptimizer | saxskit/saxs_fit.py:124-140 | past the `unidentified` early exit, an optimizer that moves nothing makes `fit` return the merged initial guess and the optimizer's success flag |
| Fitter.FitKeepsFixed | saxskit/saxs_fit.py:133-137 | with an optimizer that respects the vary flags, every entry the fixed mask flags comes out of `fit` equal to its initial guess (unclipped, see Left out) |
| Fitter.IntensityMask | saxskit/saxs_fit.py:254-261 | the mask has the default schema's shape and an entry is fixed exactly when its key is none of `I0_floor`, `I0_sphere`, `G_gp`, `I_pkcenter` |
| Fitter.FitIntensityParams | saxskit/saxs_fit.py:252-262 | returns two empty results when the `unidentified` count is truthy |
| Fitter.IntensityFitKeepsShape | saxskit/saxs_fit.py:252-262 | with an optimizer that respects the vary flags, the intensity-only fit returns every non-amplitude entry unchanged from the initial guess (unclipped, see Left out) |
| Peaks.Rank | saxskit/saxs_fit.py:270 | insertion ranks the candidates: every position exactly once, by non-increasing confidence |
| Peaks.RankingDominates | saxskit/saxs_fit.py:270 | along a ranking, an earlier candidate is at least as confident as any later one |
| Peaks.SeedPeaks | saxskit/saxs_fit.py:274-296 | the loop takes `min(#candidates, count)` peaks, the `j`-th from the `j`-th ranked candidate, with its `q`, a tenth of its `I` and its width estimate |
| Peaks.SeedsAreMostConfident | saxskit/saxs_fit.py:276-277 | no candidate left out is more confident than one taken |
| Peaks.EstimatePeakParams | saxskit/saxs_fit.py:264-297 | the dict is unchanged when the `diffraction_peaks` count is 0; otherwise the three peak lists have length `min(#candidates, count)` and hold the seeds in ranking order, the existing key order is kept, and every other key is unchanged |
| Peaks.SetPeakLists | saxskit/saxs_fit.py:271-273 | assigning the three peak lists keeps the dict well formed and the existing keys in place |

## Left out

- `evaluate`, `lmf_evaluate`, the chi-square of logs, and the objective and SNR values in the fit report (saxskit/saxs_fit.py:130, 141-148, 178-216). These are floating-point numerics in `saxs_math`, which is not part of this model. `error_weighted` and `objective` have no effect in the model.
- Fitter.Fit: `lmfit.minimize` with Nelder-Mead is a function parameter. The model does not know what it computes. That it leaves non-varying slots alone is a hypothesis (`Flat.KeepsFixed`) of the lemmas that need it, not a proved fact.
- lmfit's own handling of a slot: clipping a value into its bounds, and `None` meaning an infinite bound. lmfit is not part of this model, so slots store exactly what `lmfit_params` passes.
- Flat.RoundTrip, Flat.FixedSurvive, Fitter.FitStartReadsBack, Fitter.FitIdleOptimizer, Fitter.FitKeepsFixed and Fitter.IntensityFitKeepsShape: these hold for the program only when every merged starting value lies within its merged bound. lmfit clips a value outside its bound when the slot is created, fixed slots included. For example, `params = {I0_floor: [200.0]}` with the default bound (0, 100) reads back as 200.0 in the model but as 100.0 in the program. `Flat.DefaultStartInBounds` proves the hypothesis when neither `params` nor `param_bounds` is given.
- Peaks.SeedPeaks: the width estimate (a window of `q` within 5%, `standardize_array`, `np.polyfit`, `abs(1/a)*qstd/2`) is an opaque function of the candidate index. The model therefore does not state that the quadratic fit can fail on a window with too few points.
- `peak_finder.peaks_by_window` is not part of this model. Its candidates are an input, and every ranking of them is allowed, so tie order is left open.
- `MC_anneal_fit` is commented out in the source and is not modelled.
- `saxskit/saxs_models.py`, `saxskit/saxs_regression.py` and `tests/test_saxskit.py`: training, prediction and file I/O outside the fitting core.
- `parameter_keys` and `population_keys` live in `saxskit/__init__.py`, which is not part of this model. The owned keys per population are a fixed table: `guinier_porod` owns `G_gp`, `rg_gp`, `D_gp`; `spherical_normal` owns `I0_sphere`, `r0_sphere`, `sigma_sphere`; `diffraction_peaks` owns `q_pkcenter`, `I_pkcenter`, `pk_hwhm`.
- Floats are exact reals. `float(...)` is the identity, and `0.1 * I` is exact.
- Keys are the ten parameter names. An override keyed by any other string cannot be written down; in the source it raises `KeyError` in the same way.
- Population counts are integers. A `None` count is represented exactly by 0, because every use of a count sits behind `bool(v)` (saxskit/saxs_fit.py:121, 168, 172, 267). The populations dict must list all four types.
- Dicts are values. The source mutates `params` in place inside `update_params` and `estimate_peak_params`; the model returns the new dict, so aliasing between the caller's dict and the result is not modelled.
- Flat.SaxskitParams: on failure it states only that some schema slot is missing, not which one is reported first.
- Fitter.FitIntensityParams: its contract covers only the early exit. What the fit does with the mask is stated by `Fitter.IntensityFitKeepsShape`.
