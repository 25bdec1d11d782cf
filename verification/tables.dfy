/** The fixed tables of the fitting engine: the parameter names with their
    default values and default bounds (saxskit/saxs_fit.py:14-36), the
    population types, and which population owns which parameter keys. */
module Tables {
  import opened Results
  import opened Decimal

  /** The ten scattering-equation parameters, in the order of the defaults table. */
  datatype Param =
    | I0Floor | GGp | RgGp | DGp | I0Sphere | R0Sphere | SigmaSphere
    | QPkCenter | IPkCenter | PkHwhm

  /** The closed set of scatterer population types. */
  datatype Population = Unidentified | GuinierPorod | SphericalNormal | DiffractionPeaks

  /** A `(min, max)` pair; `None` leaves that side unbounded. */
  datatype Bound = Bound(lo: Option<real>, hi: Option<real>)

  /** The dictionary key under which the parameter is stored. */
  function Name(k: Param): string {
    match k
    case I0Floor => "I0_floor"
    case GGp => "G_gp"
    case RgGp => "rg_gp"
    case DGp => "D_gp"
    case I0Sphere => "I0_sphere"
    case R0Sphere => "r0_sphere"
    case SigmaSphere => "sigma_sphere"
    case QPkCenter => "q_pkcenter"
    case IPkCenter => "I_pkcenter"
    case PkHwhm => "pk_hwhm"
  }

  /** `param_defaults`; decimal literals are read as exact reals. */
  function Default(k: Param): real {
    match k
    case I0Floor => 0.0
    case GGp => 0.001
    case RgGp => 10.0
    case DGp => 4.0
    case I0Sphere => 0.001
    case R0Sphere => 20.0
    case SigmaSphere => 0.05
    case QPkCenter => 0.1
    case IPkCenter => 1.0
    case PkHwhm => 0.001
  }

  /** `param_limits`. */
  function Limit(k: Param): Bound {
    match k
    case I0Floor => Bound(Some(0.0), Some(100.0))
    case GGp => Bound(Some(0.0), None)
    case RgGp => Bound(Some(0.1), Some(1000.0))
    case DGp => Bound(Some(0.0), Some(4.0))
    case I0Sphere => Bound(Some(0.0), None)
    case R0Sphere => Bound(Some(1.0), Some(1000.0))
    case SigmaSphere => Bound(Some(0.0), Some(0.5))
    case QPkCenter => Bound(Some(0.0), Some(1.0))
    case IPkCenter => Bound(Some(0.0), None)
    case PkHwhm => Bound(Some(0.000001), Some(0.1))
  }

  predicate Within(x: real, b: Bound) {
    (b.lo.None? || b.lo.value <= x) && (b.hi.None? || x <= b.hi.value)
  }

  /** `parameter_keys`: the keys each population contributes, in order.
      `I0_floor` belongs to no population; it is global. */
  function ParameterKeys(p: Population): seq<Param> {
    match p
    case Unidentified => []
    case GuinierPorod => [GGp, RgGp, DGp]
    case SphericalNormal => [I0Sphere, R0Sphere, SigmaSphere]
    case DiffractionPeaks => [QPkCenter, IPkCenter, PkHwhm]
  }

  /** The population that owns a key, read off independently of `ParameterKeys`. */
  function Owner(k: Param): Option<Population> {
    match k
    case I0Floor => None
    case GGp | RgGp | DGp => Some(GuinierPorod)
    case I0Sphere | R0Sphere | SigmaSphere => Some(SphericalNormal)
    case QPkCenter | IPkCenter | PkHwhm => Some(DiffractionPeaks)
  }

  /** The amplitude-like keys that the intensity-only fit leaves free. */
  predicate IsAmplitude(k: Param) {
    k == I0Floor || k == I0Sphere || k == GGp || k == IPkCenter
  }

  lemma DefaultsWithinLimits(k: Param)
    ensures Within(Default(k), Limit(k))
  {
  }

  /** Ownership as listed and ownership as read off agree, so no key is
      listed under two populations and `I0_floor` under none. */
  lemma OwnerAgrees(k: Param, p: Population)
    ensures k in ParameterKeys(p) <==> Owner(k) == Some(p)
  {
  }

  lemma ParameterKeysDistinct(p: Population)
    ensures forall i, j :: 0 <= i < j < |ParameterKeys(p)| ==> ParameterKeys(p)[i] != ParameterKeys(p)[j]
  {
  }

  lemma NameInjective(j: Param, k: Param)
    ensures Name(j) == Name(k) ==> j == k
  {
  }

  /** Every key ends in a letter, so a decimal suffix can be split off again. */
  lemma NameEndsInNonDigit(k: Param)
    ensures |Name(k)| > 0 && !IsDigit(Name(k)[|Name(k)| - 1])
  {
  }
}
