/** The `SaxsFitter` object: the spectrum it is built on
    (saxskit/saxs_fit.py:49-81), the fit driver (saxskit/saxs_fit.py:83-163)
    and the intensity-only fit (saxskit/saxs_fit.py:252-262).  The objective
    and the Nelder-Mead minimizer are foreign numerics: the minimizer is a
    function parameter, the objective is not modelled. */
module Fitter {
  import opened Results
  import opened Tables
  import opened ParamDict
  import opened Schema
  import opened Flat

  /** A fitter: populations, the `q` and `I` columns, the fit mask
      `I > 0`, `log(I)` and the intensity errors, `None` standing for NaN. */
  datatype SaxsFitter = SaxsFitter(pops: PopSpec, q: seq<real>, I: seq<real>, idxFit: seq<bool>,
                                   logI: seq<Option<real>>, dI: seq<Option<real>>)

  /** What the optimizer hands back: the final slots and its success flag. */
  datatype Run = Run(params: seq<Slot>, success: bool)

  /** The fit report; `NoReport` is the empty dict of the early exit.  The
      objective values and the signal-to-noise ratio are not modelled. */
  datatype Report = NoReport | Report(success: bool)

  /** `SaxsFitter(q_I, populations, dI)`.  `ln` and `sqrt` stand for the
      floating-point `np.log` and `np.sqrt`. */
  function NewFitter(qI: seq<(real, real)>, pops: PopSpec, dI: Option<seq<real>>,
                     ln: real -> real, sqrt: real -> real): (f: SaxsFitter)
    ensures f.pops == pops
    ensures |f.q| == |f.I| == |f.idxFit| == |f.logI| == |qI|
    ensures forall i :: 0 <= i < |qI| ==> f.q[i] == qI[i].0 && f.I[i] == qI[i].1
    ensures forall i :: 0 <= i < |qI| ==> (f.idxFit[i] <==> f.I[i] > 0.0)
    ensures forall i :: 0 <= i < |qI| ==> (f.logI[i].Some? <==> f.idxFit[i])
    ensures forall i :: 0 <= i < |qI| && f.idxFit[i] ==> f.logI[i] == Some(ln(f.I[i]))
    ensures dI.Some? ==> |f.dI| == |dI.value| && forall i :: 0 <= i < |f.dI| ==> f.dI[i] == Some(dI.value[i])
    ensures dI.None? ==> |f.dI| == |qI| && forall i :: 0 <= i < |qI| ==>
              f.dI[i] == if f.idxFit[i] then Some(sqrt(f.I[i])) else None
  {
    var q := seq(|qI|, i requires 0 <= i < |qI| => qI[i].0);
    var I := seq(|qI|, i requires 0 <= i < |qI| => qI[i].1);
    var idxFit := seq(|I|, i requires 0 <= i < |I| => I[i] > 0.0);
    var logI := seq(|I|, i requires 0 <= i < |I| => if idxFit[i] then Some(ln(I[i])) else None);
    var errs := match dI
      case Some(given) => seq(|given|, i requires 0 <= i < |given| => Some(given[i]))
      case None => seq(|I|, i requires 0 <= i < |I| => if idxFit[i] then Some(sqrt(I[i])) else None);
    SaxsFitter(pops, q, I, idxFit, logI, errs)
  }

  /** The starting point of `fit`: the defaults, merged with `params` when given. */
  function InitialGuess(pops: PopSpec, params: Option<PDict<real>>): (r: Result<PDict<real>>)
    requires ValidPops(pops) && OptWellFormed(params)
  {
    MergeOpt(DefaultParams(pops), params)
  }

  /** The slots `fit` hands to the optimizer: `lmfit_params` of the merged
      starting point, the fixed flags and the bounds. */
  function FitStart(pops: PopSpec, params: Option<PDict<real>>, fixed: Option<PDict<bool>>,
                    bounds: Option<PDict<Bound>>): (r: Result<seq<Slot>>)
    requires ValidPops(pops)
    requires OptWellFormed(params) && OptWellFormed(fixed) && OptWellFormed(bounds)
    ensures var d := DefaultParams(pops);
            r.Err? <==> Strays(d, params) || Strays(d, fixed) || Strays(d, bounds)
  {
    MergeOptEntries(DefaultParams(pops), params);
    match InitialGuess(pops, params)
    case Err(e) => Err(e)
    case Ok(p) =>
      MergeOptEntries(DefaultParams(pops), params);
      LmfitParams(pops, Some(p), fixed, bounds)
  }

  /** `fit(params, fixed_params, param_limits)`: nothing is fitted for an
      `unidentified` population; otherwise the optimizer runs on the slots of
      the merged starting point and its result is read back into a dict. */
  function Fit(f: SaxsFitter, params: Option<PDict<real>>, fixed: Option<PDict<bool>>,
               bounds: Option<PDict<Bound>>, minimize: seq<Slot> -> Run): (r: Result<(PDict<real>, Report)>)
    requires ValidPops(f.pops)
    requires OptWellFormed(params) && OptWellFormed(fixed) && OptWellFormed(bounds)
    ensures Truthy(f.pops.count[Unidentified]) ==> r == Ok((Empty(), NoReport))
    ensures var d := DefaultParams(f.pops);
            !Truthy(f.pops.count[Unidentified]) && (Strays(d, params) || Strays(d, fixed) || Strays(d, bounds)) ==> r.Err?
    ensures var d := DefaultParams(f.pops);
            !Truthy(f.pops.count[Unidentified]) ==>
              (r.Err? <==> FitStart(f.pops, params, fixed, bounds).Err? ||
                           exists k, i :: k in d.vals && 0 <= i < |d.vals[k]| &&
                             Lookup(minimize(FitStart(f.pops, params, fixed, bounds).value).params, SlotName(k, i)).None?)
    ensures !Truthy(f.pops.count[Unidentified]) && r.Ok? ==>
              SameShape(r.value.0, DefaultParams(f.pops)) && r.value.1.Report?
    ensures var d := DefaultParams(f.pops);
            !Truthy(f.pops.count[Unidentified]) && r.Ok? ==>
              && FitStart(f.pops, params, fixed, bounds).Ok?
              && var run := minimize(FitStart(f.pops, params, fixed, bounds).value);
                 && r.value.1 == Report(run.success)
                 && forall k, i :: k in d.vals && 0 <= i < |d.vals[k]| ==>
                      && Lookup(run.params, SlotName(k, i)).Some?
                      && r.value.0.vals[k][i] == Lookup(run.params, SlotName(k, i)).value.value
  {
    if Truthy(f.pops.count[Unidentified]) then Ok((Empty(), NoReport))
    else
      match FitStart(f.pops, params, fixed, bounds)
      case Err(e) => Err(e)
      case Ok(slots) => Finish(f.pops, minimize(slots))
  }

  /** The tail of `fit`: read the optimizer's slots back into the default
      schema and report its success flag. */
  function Finish(pops: PopSpec, run: Run): (r: Result<(PDict<real>, Report)>)
    requires ValidPops(pops)
    ensures var d := DefaultParams(pops);
            r.Err? <==> exists k, i :: k in d.vals && 0 <= i < |d.vals[k]| && Lookup(run.params, SlotName(k, i)).None?
    ensures r.Ok? ==> SameShape(r.value.0, DefaultParams(pops)) && r.value.1 == Report(run.success)
    ensures var d := DefaultParams(pops);
            r.Ok? ==> forall k, i :: k in d.vals && 0 <= i < |d.vals[k]| ==>
                        && Lookup(run.params, SlotName(k, i)).Some?
                        && r.value.0.vals[k][i] == Lookup(run.params, SlotName(k, i)).value.value
  {
    match SaxskitParams(pops, run.params)
    case Err(e) => Err(e)
    case Ok(p) => Ok((p, Report(run.success)))
  }

  /** The optimizer sees exactly the starting point: the slots handed to it
      read back as the defaults merged with `params`, and as the defaults
      themselves when no `params` is given. */
  lemma FitStartReadsBack(pops: PopSpec, params: Option<PDict<real>>, fixed: Option<PDict<bool>>,
                          bounds: Option<PDict<Bound>>)
    requires ValidPops(pops)
    requires OptWellFormed(params) && OptWellFormed(fixed) && OptWellFormed(bounds)
    requires FitStart(pops, params, fixed, bounds).Ok?
    ensures InitialGuess(pops, params).Ok?
    ensures SaxskitParams(pops, FitStart(pops, params, fixed, bounds).value) == InitialGuess(pops, params)
    ensures params.None? ==> SaxskitParams(pops, FitStart(pops, params, fixed, bounds).value) == Ok(DefaultParams(pops))
  {
    var d := DefaultParams(pops);
    MergeOptEntries(d, params);
    var p := InitialGuess(pops, params).value;
    RoundTrip(pops, Some(p), fixed, bounds);
    UpdateSameShape(d, p);
  }

  /** An optimizer that moves nothing gives back the starting point. */
  lemma FitIdleOptimizer(f: SaxsFitter, params: Option<PDict<real>>, fixed: Option<PDict<bool>>,
                         bounds: Option<PDict<Bound>>, minimize: seq<Slot> -> Run)
    requires ValidPops(f.pops)
    requires OptWellFormed(params) && OptWellFormed(fixed) && OptWellFormed(bounds)
    requires FitStart(f.pops, params, fixed, bounds).Ok?
    requires minimize(FitStart(f.pops, params, fixed, bounds).value).params == FitStart(f.pops, params, fixed, bounds).value
    ensures !Truthy(f.pops.count[Unidentified]) ==>
            Fit(f, params, fixed, bounds, minimize)
            == Ok((InitialGuess(f.pops, params).value,
                   Report(minimize(FitStart(f.pops, params, fixed, bounds).value).success)))
  {
    FitStartReadsBack(f.pops, params, fixed, bounds);
  }

  /** Entries flagged fixed leave `fit` as they entered it, provided the
      optimizer respects the vary flags of the slots. */
  lemma FitKeepsFixed(f: SaxsFitter, params: Option<PDict<real>>, fixed: Option<PDict<bool>>,
                      bounds: Option<PDict<Bound>>, minimize: seq<Slot> -> Run)
    requires ValidPops(f.pops)
    requires OptWellFormed(params) && OptWellFormed(fixed) && OptWellFormed(bounds)
    requires FitStart(f.pops, params, fixed, bounds).Ok?
    requires KeepsFixed(FitStart(f.pops, params, fixed, bounds).value,
                        minimize(FitStart(f.pops, params, fixed, bounds).value).params)
    ensures InitialGuess(f.pops, params).Ok?
    ensures Fit(f, params, fixed, bounds, minimize).Ok?
    ensures var d := DefaultParams(f.pops);
            forall k, i :: k in d.vals && 0 <= i < |d.vals[k]| && Pick(fixed, k, i, false) ==>
              Fit(f, params, fixed, bounds, minimize).value.0.vals[k][i] == InitialGuess(f.pops, params).value.vals[k][i]
  {
    var d := DefaultParams(f.pops);
    MergeOptEntries(d, params);
    var p := InitialGuess(f.pops, params).value;
    FixedSurvive(f.pops, Some(p), fixed, bounds, minimize(FitStart(f.pops, params, fixed, bounds).value).params);
  }

  /** The fixed mask of `fit_intensity_params`: the amplitude keys
      `I0_floor`, `I0_sphere`, `G_gp` and `I_pkcenter` are free, every other
      entry of the schema is fixed. */
  function IntensityMask(pops: PopSpec): (r: PDict<bool>)
    requires ValidPops(pops)
    ensures WellFormed(r) && SameShape(r, DefaultParams(pops))
    ensures forall k, i :: k in r.vals && 0 <= i < |r.vals[k]| ==>
              (r.vals[k][i] <==> k != I0Floor && k != I0Sphere && k != GGp && k != IPkCenter)
  {
    Relabel(DefaultParams(pops), k => !IsAmplitude(k))
  }

  /** `fit_intensity_params(params)`: `fit` with the intensity mask and default bounds. */
  function FitIntensityParams(f: SaxsFitter, params: Option<PDict<real>>, minimize: seq<Slot> -> Run)
    : (r: Result<(PDict<real>, Report)>)
    requires ValidPops(f.pops) && OptWellFormed(params)
    ensures Truthy(f.pops.count[Unidentified]) ==> r == Ok((Empty(), NoReport))
  {
    Fit(f, params, Some(IntensityMask(f.pops)), None, minimize)
  }

  /** Under an optimizer that respects the vary flags, the intensity-only fit
      returns every shape parameter exactly as the starting point had it. */
  lemma IntensityFitKeepsShape(f: SaxsFitter, params: Option<PDict<real>>, minimize: seq<Slot> -> Run)
    requires ValidPops(f.pops) && OptWellFormed(params)
    requires FitStart(f.pops, params, Some(IntensityMask(f.pops)), None).Ok?
    requires KeepsFixed(FitStart(f.pops, params, Some(IntensityMask(f.pops)), None).value,
                        minimize(FitStart(f.pops, params, Some(IntensityMask(f.pops)), None).value).params)
    ensures InitialGuess(f.pops, params).Ok?
    ensures FitIntensityParams(f, params, minimize).Ok?
    ensures var d := DefaultParams(f.pops);
            forall k, i :: k in d.vals && 0 <= i < |d.vals[k]| && !IsAmplitude(k) ==>
              FitIntensityParams(f, params, minimize).value.0.vals[k][i] == InitialGuess(f.pops, params).value.vals[k][i]
  {
    var mask := Some(IntensityMask(f.pops));
    FitKeepsFixed(f, params, mask, None, minimize);
    var d := DefaultParams(f.pops);
    forall k, i | k in d.vals && 0 <= i < |d.vals[k]| && !IsAmplitude(k)
      ensures Pick(mask, k, i, false)
    {
    }
  }
}
