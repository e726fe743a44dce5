/** The coating-physics helpers. Every helper checks its domain and returns 0 (or, for the dew
    point, "no value") outside it instead of letting a bad division through. Numbers are reals,
    so the `isFinite` guards of the original always pass and are not modelled. */
module Engine {
  import opened Wrappers

  /** Theoretical spread rate (m² per litre) of a coating whose volume-solids fraction is `vs`,
      applied at a dry-film thickness of `dft` microns. */
  function TheoreticalSpreadRate(vs: real, dft: real): (r: real)
    ensures vs <= 0.0 || dft <= 0.0 ==> r == 0.0
    ensures vs > 0.0 && dft > 0.0 ==> r > 0.0 && r * dft == vs * 10.0
  {
    if vs <= 0.0 || dft <= 0.0 then 0.0 else (vs * 10.0) / dft
  }

  /** The loss factor that is actually applied: the given one when it lies in (0, 1],
      otherwise 0.85. */
  function EffectiveLossFactor(lossFactor: real): (lf: real)
    ensures 0.0 < lf <= 1.0
    ensures 0.0 < lossFactor <= 1.0 ==> lf == lossFactor
    ensures !(0.0 < lossFactor <= 1.0) ==> lf == 0.85
  {
    if lossFactor > 0.0 && lossFactor <= 1.0 then lossFactor else 0.85
  }

  /** Practical spread rate: the theoretical one reduced by the application loss. */
  function PracticalSpreadRate(tsr: real, lossFactor: real): (r: real)
    ensures tsr <= 0.0 ==> r == 0.0
    ensures tsr > 0.0 ==> 0.0 < r <= tsr
    ensures tsr > 0.0 ==> r == tsr * EffectiveLossFactor(lossFactor)
  {
    if tsr <= 0.0 then 0.0
    else
      var lf := EffectiveLossFactor(lossFactor);
      assert tsr * lf <= tsr * 1.0;
      tsr * lf
  }

  /** Litres needed per m² for one coat at practical spread rate `psr`. */
  function LitersPerSqmPerCoat(psr: real): (r: real)
    ensures psr <= 0.0 ==> r == 0.0
    ensures psr > 0.0 ==> r > 0.0 && r * psr == 1.0
  {
    if psr <= 0.0 then 0.0 else 1.0 / psr
  }

  /** Wet-film thickness that dries down to `dft` at volume solids `vs`. */
  function WftFromDft(dft: real, vs: real): (r: real)
    ensures dft <= 0.0 || vs <= 0.0 ==> r == 0.0
    ensures dft > 0.0 && vs > 0.0 ==> r > 0.0 && r * vs == dft
  {
    if dft <= 0.0 || vs <= 0.0 then 0.0 else dft / vs
  }

  /** Magnus-formula constants. */
  const MagnusA: real := 17.62
  const MagnusB: real := 243.12

  /** Dew point in °C; `None` where the original yields NaN or an infinity: a relative humidity
      outside (0, 100], or one of the formula's two divisions by zero. The natural logarithm is
      a parameter (`Math.log` is not modelled). */
  function DewPointC(tempC: real, rh: real, ln: real -> real): (r: Option<real>)
    ensures rh <= 0.0 || rh > 100.0 ==> r.None?
    ensures r.Some? <==> 0.0 < rh <= 100.0 && MagnusB + tempC != 0.0 && MagnusA != MagnusGamma(tempC, rh, ln)
    ensures r.Some? ==> r.value * (MagnusA - MagnusGamma(tempC, rh, ln)) == MagnusB * MagnusGamma(tempC, rh, ln)
  {
    if rh <= 0.0 || rh > 100.0 || MagnusB + tempC == 0.0 then None
    else
      var gamma := MagnusGamma(tempC, rh, ln);
      if MagnusA - gamma == 0.0 then None else Some((MagnusB * gamma) / (MagnusA - gamma))
  }

  /** The Magnus formula's γ = a·T / (b + T) + ln(RH / 100). */
  function MagnusGamma(tempC: real, rh: real, ln: real -> real): real
    requires MagnusB + tempC != 0.0
  {
    (MagnusA * tempC) / (MagnusB + tempC) + ln(rh / 100.0)
  }

  /** Result of the condensation check: `dp` and `delta` are `None` where the original reports NaN. */
  datatype DewSafety = DewSafety(ok: bool, dp: Option<real>, delta: Option<real>)

  /** Minimum margin (°C) between surface temperature and dew point. */
  const DewPointMargin: real := 3.0

  /** Whether painting a surface at `tempSurfaceC` under humidity `rh` is clear of condensation. */
  function IsWithinDewPointSafety(tempSurfaceC: real, rh: real, ln: real -> real): (r: DewSafety)
    ensures r.dp == DewPointC(tempSurfaceC, rh, ln)
    ensures r.dp.None? ==> !r.ok && r.delta.None?
    ensures r.dp.Some? ==> r.delta == Some(tempSurfaceC - r.dp.value)
    ensures r.dp.Some? ==> (r.ok <==> tempSurfaceC - r.dp.value >= DewPointMargin)
    ensures r.ok ==> 0.0 < rh <= 100.0
  {
    match DewPointC(tempSurfaceC, rh, ln)
    case None => DewSafety(false, None, None)
    case Some(dp) =>
      var delta := tempSurfaceC - dp;
      DewSafety(delta >= DewPointMargin, Some(dp), Some(delta))
  }

  /** Paint cost per m² from the price of a gallon and the area one gallon covers. */
  function CostPerSqmFromGallon(gallonPrice: real, coveragePerGallon: real): (r: real)
    ensures coveragePerGallon <= 0.0 ==> r == 0.0
    ensures coveragePerGallon > 0.0 ==> r * coveragePerGallon == gallonPrice
  {
    if coveragePerGallon <= 0.0 then 0.0 else gallonPrice / coveragePerGallon
  }

  /** More solids in the paint cover more area per litre. */
  lemma TheoreticalSpreadRateIncreasesWithSolids(vs: real, vs': real, dft: real)
    requires 0.0 < vs < vs' && 0.0 < dft
    ensures TheoreticalSpreadRate(vs, dft) < TheoreticalSpreadRate(vs', dft)
  {
    var r, r' := TheoreticalSpreadRate(vs, dft), TheoreticalSpreadRate(vs', dft);
    assert (r' - r) * dft == (vs' - vs) * 10.0 > 0.0;
  }

  /** A thicker dry film covers less area per litre. */
  lemma TheoreticalSpreadRateDecreasesWithFilm(vs: real, dft: real, dft': real)
    requires 0.0 < vs && 0.0 < dft < dft'
    ensures TheoreticalSpreadRate(vs, dft) > TheoreticalSpreadRate(vs, dft')
  {
    var r, r' := TheoreticalSpreadRate(vs, dft), TheoreticalSpreadRate(vs, dft');
    assert (r - r') * dft == r' * (dft' - dft) > 0.0;
  }

  /** Practical spread rate followed by its reciprocal: the litres per m² of one coat are the
      film thickness over ten times the solids that survive the application loss. */
  lemma SpreadRateRoundTrip(vs: real, dft: real, lossFactor: real)
    requires vs > 0.0 && dft > 0.0
    ensures LitersPerSqmPerCoat(PracticalSpreadRate(TheoreticalSpreadRate(vs, dft), lossFactor))
            == dft / (10.0 * vs * EffectiveLossFactor(lossFactor))
  {
    var tsr := TheoreticalSpreadRate(vs, dft);
    var lf := EffectiveLossFactor(lossFactor);
    var psr := PracticalSpreadRate(tsr, lossFactor);
    var l := LitersPerSqmPerCoat(psr);
    assert l * tsr * lf == 1.0;
    assert l * (tsr * dft) * lf == dft;
    assert l * (10.0 * vs * lf) == dft;
  }

  /** With at most 100 % volume solids, the wet film is at least as thick as the dry one. */
  lemma WetFilmAtLeastDry(dft: real, vs: real)
    requires dft > 0.0 && 0.0 < vs <= 1.0
    ensures WftFromDft(dft, vs) >= dft
  {
    var w := WftFromDft(dft, vs);
    assert w * vs == dft;
    assert w * vs <= w * 1.0;
  }
}
