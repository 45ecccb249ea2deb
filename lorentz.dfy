/** The Lorentz-oscillator permittivity term of simulation_lorentz.py and the
    generation of the perturbed oscillator parameter sets. */
module Lorentz {
  import opened Wrappers
  import opened ComplexNumbers
  import opened Squares

  /** An oscillator, in the order the parameter sets are stored:
      (lambda0, gamma, amplitude). */
  datatype OscillatorParams = OscillatorParams(lambda0: real, gamma: real, amplitude: real)

  /** (w^2 - lambda0^2)^2 + gamma^2 w^2, the common denominator. */
  function Denominator(w: real, lambda0: real, gamma: real): real {
    Sq(Sq(w) - Sq(lambda0)) + Sq(gamma) * Sq(w)
  }

  /** The Lorentzian permittivity contribution at wavelength `w`; both parts
      are quotients by `Denominator`, so a zero denominator (where the
      floating-point code produces NaN) gives `None`. */
  function LorentzianContribution(w: real, amplitude: real, lambda0: real, gamma: real): (r: Option<Complex>)
    ensures r.None? <==> Denominator(w, lambda0, gamma) == 0.0
    ensures r.Some? ==>
      r.value.re * Denominator(w, lambda0, gamma) == amplitude * Sq(w) * (Sq(w) - Sq(lambda0))
    ensures r.Some? ==>
      r.value.im * Denominator(w, lambda0, gamma) == amplitude * (w * Sq(w)) * gamma
  {
    if Denominator(w, lambda0, gamma) == 0.0 then None
    else
      Some(Complex(amplitude * Sq(w) * (Sq(w) - Sq(lambda0)) / Denominator(w, lambda0, gamma),
                   amplitude * (w * Sq(w)) * gamma / Denominator(w, lambda0, gamma)))
  }

  lemma DenominatorPositive(w: real, lambda0: real, gamma: real)
    requires gamma != 0.0 && w != 0.0
    ensures Denominator(w, lambda0, gamma) > 0.0
  {
    SqPositive(gamma);
    SqPositive(w);
    MulPositive(Sq(gamma), Sq(w));
    SqNonNeg(Sq(w) - Sq(lambda0));
  }

  /** The denominator vanishes exactly at w^2 == lambda0^2 with no damping,
      or at w == 0 == lambda0. */
  lemma DenominatorZero(w: real, lambda0: real, gamma: real)
    ensures Denominator(w, lambda0, gamma) == 0.0 <==>
      Sq(w) == Sq(lambda0) && (gamma == 0.0 || w == 0.0)
  {
    SqNonNeg(gamma);
    SqNonNeg(w);
    MulNonNeg(Sq(gamma), Sq(w));
    if Sq(w) != Sq(lambda0) {
      SqPositive(Sq(w) - Sq(lambda0));
    } else if gamma == 0.0 || w == 0.0 {
      SqZero(Sq(w) - Sq(lambda0));
      assert Sq(gamma) == 0.0 || Sq(w) == 0.0;
    } else {
      DenominatorPositive(w, lambda0, gamma);
    }
  }

  /** At resonance the term is purely imaginary, of height amplitude * lambda0 / gamma. */
  lemma Resonance(lambda0: real, amplitude: real, gamma: real)
    requires lambda0 != 0.0 && gamma != 0.0
    ensures LorentzianContribution(lambda0, amplitude, lambda0, gamma)
         == Some(Complex(0.0, amplitude * lambda0 / gamma))
  {
    var w := lambda0;
    DenominatorPositive(w, w, gamma);
    var r := LorentzianContribution(w, amplitude, w, gamma);
    var d := Denominator(w, w, gamma);
    SqZero(Sq(w) - Sq(w));
    assert d == Sq(gamma) * Sq(w);
    var q := amplitude * w / gamma;
    assert q * gamma == amplitude * w;
    calc {
      q * d;
      q * (gamma * gamma) * (w * w);
      (q * gamma) * gamma * (w * w);
      (amplitude * w) * gamma * (w * w);
      amplitude * (w * Sq(w)) * gamma;
    }
    Cancel(r.value.im, q, d);
    assert r.value.re * d == 0.0;
    Cancel(r.value.re, 0.0, d);
  }

  /** For a positive amplitude, damping and wavelength the absorption part is
      positive, and the dispersion part has the sign of w - lambda0
      (that is, of w^2 - lambda0^2 for a non-negative lambda0). */
  lemma Signs(w: real, amplitude: real, lambda0: real, gamma: real)
    requires amplitude > 0.0 && gamma > 0.0 && w > 0.0 && lambda0 >= 0.0
    ensures LorentzianContribution(w, amplitude, lambda0, gamma).Some?
    ensures LorentzianContribution(w, amplitude, lambda0, gamma).value.im > 0.0
    ensures w > lambda0 ==> LorentzianContribution(w, amplitude, lambda0, gamma).value.re > 0.0
    ensures w == lambda0 ==> LorentzianContribution(w, amplitude, lambda0, gamma).value.re == 0.0
    ensures w < lambda0 ==> LorentzianContribution(w, amplitude, lambda0, gamma).value.re < 0.0
  {
    ImagPositive(w, amplitude, lambda0, gamma);
    if w > lambda0 {
      RealPositive(w, amplitude, lambda0, gamma);
    } else if w < lambda0 {
      RealNegative(w, amplitude, lambda0, gamma);
    }
  }

  lemma ImagPositive(w: real, amplitude: real, lambda0: real, gamma: real)
    requires amplitude > 0.0 && gamma > 0.0 && w > 0.0
    ensures LorentzianContribution(w, amplitude, lambda0, gamma).Some?
    ensures LorentzianContribution(w, amplitude, lambda0, gamma).value.im > 0.0
  {
    DenominatorPositive(w, lambda0, gamma);
    SqOfPositive(w);
    MulPositive(w, Sq(w));
    MulPositive(amplitude, w * Sq(w));
    MulPositive(amplitude * (w * Sq(w)), gamma);
    DivPositive(amplitude * (w * Sq(w)) * gamma, Denominator(w, lambda0, gamma));
  }

  lemma RealPositive(w: real, amplitude: real, lambda0: real, gamma: real)
    requires amplitude > 0.0 && gamma > 0.0 && w > lambda0 >= 0.0
    ensures LorentzianContribution(w, amplitude, lambda0, gamma).Some?
    ensures LorentzianContribution(w, amplitude, lambda0, gamma).value.re > 0.0
  {
    DenominatorPositive(w, lambda0, gamma);
    SqOfPositive(w);
    MulPositive(amplitude, Sq(w));
    SqLess(lambda0, w);
    MulPositive(amplitude * Sq(w), Sq(w) - Sq(lambda0));
    DivPositive(amplitude * Sq(w) * (Sq(w) - Sq(lambda0)), Denominator(w, lambda0, gamma));
  }

  lemma RealNegative(w: real, amplitude: real, lambda0: real, gamma: real)
    requires amplitude > 0.0 && gamma > 0.0 && 0.0 < w < lambda0
    ensures LorentzianContribution(w, amplitude, lambda0, gamma).Some?
    ensures LorentzianContribution(w, amplitude, lambda0, gamma).value.re < 0.0
  {
    DenominatorPositive(w, lambda0, gamma);
    SqOfPositive(w);
    MulPositive(amplitude, Sq(w));
    SqLess(w, lambda0);
    MulPositive(amplitude * Sq(w), Sq(lambda0) - Sq(w));
    assert amplitude * Sq(w) * (Sq(w) - Sq(lambda0)) == -(amplitude * Sq(w) * (Sq(lambda0) - Sq(w)));
    DivNegative(amplitude * Sq(w) * (Sq(w) - Sq(lambda0)), Denominator(w, lambda0, gamma));
  }

  /** Nominal oscillator for the nanoparticle material; any other name is an error. */
  function Nominal(material: string): (r: Option<OscillatorParams>)
    ensures r.Some? <==> material == "Au.nk" || material == "Ag.nk"
    ensures material == "Au.nk" ==> r == Some(OscillatorParams(500.0, 50.0, 0.150))
    ensures material == "Ag.nk" ==> r == Some(OscillatorParams(405.0, 40.0, 0.150))
  {
    if material == "Au.nk" then Some(OscillatorParams(500.0, 50.0, 0.150))
    else if material == "Ag.nk" then Some(OscillatorParams(405.0, 40.0, 0.150))
    else None
  }

  /** One random draw: `r` from uniform(10, 100), with (r - 10) ** 0.9 and
      (r - 10) ** 1.1 already evaluated. */
  datatype Draw = Draw(r: real, pow09: real, pow11: real)

  predicate ValidDraw(d: Draw) {
    10.0 <= d.r <= 100.0 && d.pow09 >= 0.0 && d.pow11 >= 0.0
  }

  const NumParameterSets: nat := 30
  const MinGamma: real := 1.0
  const MinAmplitude: real := 0.01

  /** x, raised to `floor` when below it: Python's max(x, floor). */
  function Clamp(x: real, floor: real): real {
    if x >= floor then x else floor
  }

  /** The perturbed parameters before clamping. */
  function Unclamped(p: OscillatorParams, d: Draw): OscillatorParams {
    OscillatorParams(p.lambda0 + 0.6 * d.pow09,
                     p.gamma + 0.2 * d.pow11,
                     p.amplitude + 0.0025 * d.r - 0.000015 * Sq(d.r))
  }

  /** One perturbed set: damping and amplitude are raised to their floors
      when the perturbation leaves them below. */
  function Perturb(p: OscillatorParams, d: Draw): (q: OscillatorParams)
    ensures q.lambda0 == Unclamped(p, d).lambda0
    ensures q.gamma >= MinGamma && q.amplitude >= MinAmplitude
    ensures q.gamma >= Unclamped(p, d).gamma && q.amplitude >= Unclamped(p, d).amplitude
    ensures q.gamma == Unclamped(p, d).gamma || q.gamma == MinGamma
    ensures q.amplitude == Unclamped(p, d).amplitude || q.amplitude == MinAmplitude
  {
    var u := Unclamped(p, d);
    OscillatorParams(u.lambda0, Clamp(u.gamma, MinGamma), Clamp(u.amplitude, MinAmplitude))
  }

  /** For both nominal materials and every draw the generator can make, the
      floors never take effect. */
  lemma ClampsInactive(material: string, d: Draw)
    requires Nominal(material).Some? && ValidDraw(d)
    ensures Perturb(Nominal(material).value, d) == Unclamped(Nominal(material).value, d)
  {
    var r := d.r;
    MulNonNeg(r, 0.0025 - 0.000015 * r);
    assert r * (0.0025 - 0.000015 * r) == 0.0025 * r - 0.000015 * Sq(r);
  }

  /** Draws the parameter sets one after the other, in generation order. */
  method GenerateParameterSets(nominal: OscillatorParams, draw: nat -> Draw) returns (sets: seq<OscillatorParams>)
    ensures |sets| == NumParameterSets
    ensures forall z :: 0 <= z < |sets| ==> sets[z] == Perturb(nominal, draw(z))
    ensures forall z :: 0 <= z < |sets| ==> sets[z].gamma >= MinGamma && sets[z].amplitude >= MinAmplitude
  {
    sets := [];
    for z := 0 to NumParameterSets
      invariant |sets| == z
      invariant forall y :: 0 <= y < z ==> sets[y] == Perturb(nominal, draw(y))
    {
      sets := sets + [Perturb(nominal, draw(z))];
    }
  }
}
