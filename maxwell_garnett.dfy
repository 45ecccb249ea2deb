/** `maxwell_garnett` and `run_simulation_maxwell_garnett`: a layer holding
    nanoparticles, described by the Maxwell-Garnett effective permittivity
    of the particles (phase 1) dispersed at volume fraction fv in the layer
    material (phase 2). */
module MaxwellGarnett {
  import opened Wrappers
  import opened ComplexNumbers
  import opened Sweep
  import opened Supervector
  import opened DataHandling

  /** The index-to-permittivity map (n^2 - k^2) - i 2nk: the conjugate of
      the square of n + ik. */
  function Permittivity(n: real, k: real): (e: Complex)
    ensures e == Conj(Mul(Complex(n, k), Complex(n, k)))
  {
    Complex(n * n - k * k, -(2.0 * n * k))
  }

  /** perm1 + 2 perm2 + 2 fv (perm1 - perm2) */
  function Numerator(fv: real, perm1: Complex, perm2: Complex): Complex {
    Add(Add(perm1, Scale(2.0, perm2)), Scale(2.0 * fv, Sub(perm1, perm2)))
  }

  /** perm1 + 2 perm2 - fv (perm1 - perm2) */
  function Denominator(fv: real, perm1: Complex, perm2: Complex): Complex {
    Sub(Add(perm1, Scale(2.0, perm2)), Scale(fv, Sub(perm1, perm2)))
  }

  /** The mixing rule perm2 * Numerator / Denominator; `None` where the
      denominator vanishes (the floating-point result is not a number). */
  function Mix(fv: real, perm1: Complex, perm2: Complex): (r: Option<Complex>)
    ensures r.None? <==> Denominator(fv, perm1, perm2) == Zero
    ensures r.Some? ==> Mul(r.value, Denominator(fv, perm1, perm2)) == Mul(perm2, Numerator(fv, perm1, perm2))
  {
    var den := Denominator(fv, perm1, perm2);
    if den == Zero then None else Some(Div(Mul(perm2, Numerator(fv, perm1, perm2)), den))
  }

  /** The effective permittivity for particle index n1 + ik1 and host index
      n2 + ik2. */
  function EffectivePermittivity(fv: real, n1: real, k1: real, n2: real, k2: real): Option<Complex> {
    Mix(fv, Permittivity(n1, k1), Permittivity(n2, k2))
  }

  /** Without particles the mixture is the host. */
  lemma MixAtZero(perm1: Complex, perm2: Complex)
    requires Denominator(0.0, perm1, perm2) != Zero
    ensures Mix(0.0, perm1, perm2) == Some(perm2)
  {
    var den := Denominator(0.0, perm1, perm2);
    assert Numerator(0.0, perm1, perm2) == den;
    MulComm(perm2, den);
    MulCancel(Mix(0.0, perm1, perm2).value, perm2, den);
  }

  /** With nothing but particles the mixture is the particle phase. */
  lemma MixAtOne(perm1: Complex, perm2: Complex)
    requires perm2 != Zero
    ensures Denominator(1.0, perm1, perm2) == Scale(3.0, perm2) != Zero
    ensures Mix(1.0, perm1, perm2) == Some(perm1)
  {
    var den := Denominator(1.0, perm1, perm2);
    assert den == Scale(3.0, perm2);
    assert Numerator(1.0, perm1, perm2) == Scale(3.0, perm1);
    var q := Mix(1.0, perm1, perm2).value;
    ScaleMul(3.0, q, perm2);
    ScaleMul(3.0, perm2, perm1);
    assert Scale(3.0, Mul(q, perm2)) == Scale(3.0, Mul(perm2, perm1));
    ScaleCancel(3.0, Mul(q, perm2), Mul(perm2, perm1));
    MulComm(perm2, perm1);
    MulCancel(q, perm1, perm2);
  }

  /** Mixing a phase with itself changes nothing, whatever the fraction. */
  lemma MixSamePhase(fv: real, perm: Complex)
    requires Denominator(fv, perm, perm) != Zero
    ensures Mix(fv, perm, perm) == Some(perm)
  {
    var den := Denominator(fv, perm, perm);
    assert den == Scale(3.0, perm);
    assert Numerator(fv, perm, perm) == den;
    MulComm(perm, den);
    MulCancel(Mix(fv, perm, perm).value, perm, den);
  }

  /** a * (s b) == s (a * b) */
  lemma ScaleMul(s: real, a: Complex, b: Complex)
    ensures Mul(a, Scale(s, b)) == Scale(s, Mul(a, b))
  {
    assert a.re * (s * b.re) - a.im * (s * b.im) == s * (a.re * b.re - a.im * b.im);
    assert a.re * (s * b.im) + a.im * (s * b.re) == s * (a.re * b.im + a.im * b.re);
  }

  lemma ScaleCancel(s: real, a: Complex, b: Complex)
    requires s != 0.0 && Scale(s, a) == Scale(s, b)
    ensures a == b
  {
    assert s * a.re == s * b.re && s * a.im == s * b.im;
  }

  // ---------------------------------------------------------------------
  // The driver

  /** The tables in the order the window is taken over: substrate, layer,
      nanoparticle. */
  function Tables(substrate: NkTable, layer: NkTable, particle: NkTable): (ts: seq<NkTable>)
    ensures |ts| == 3 && ts[0] == substrate && ts[1] == layer && ts[2] == particle
  {
    [substrate, layer, particle]
  }

  predicate Ready(dom: Domain) {
    |dom.tables| == 3 && Covers(dom)
  }

  /** The effective permittivity at wavelength w: the particle's interpolated
      constants go in as (n1, k1), the layer's as (n2, k2), so the layer is
      the host. */
  function EffectiveAt(o: Optics, dom: Domain, vf: real, w: real): Option<Complex>
    requires InterpolatesOnSpan(o) && Ready(dom)
    requires InSpan(dom.tables[1], w) && InSpan(dom.tables[2], w)
  {
    var particle := Index(o, dom.tables[2], w);
    var layer := Index(o, dom.tables[1], w);
    EffectivePermittivity(vf, particle.re, particle.im, layer.re, layer.im)
  }

  /** At volume fraction 0 the layer's own permittivity is used. */
  lemma HostIsLayer(o: Optics, dom: Domain, w: real)
    requires InterpolatesOnSpan(o) && Ready(dom)
    requires InSpan(dom.tables[1], w) && InSpan(dom.tables[2], w)
    requires var p := Index(o, dom.tables[2], w); var l := Index(o, dom.tables[1], w);
      Denominator(0.0, Permittivity(p.re, p.im), Permittivity(l.re, l.im)) != Zero
    ensures var l := Index(o, dom.tables[1], w);
      EffectiveAt(o, dom, 0.0, w) == Some(Permittivity(l.re, l.im))
  {
    var p := Index(o, dom.tables[2], w);
    var l := Index(o, dom.tables[1], w);
    MixAtZero(Permittivity(p.re, p.im), Permittivity(l.re, l.im));
  }

  /** The solver call for wavelength index ii, thickness jj and fraction vf;
      `recover` turns the effective permittivity into the layer index
      n_eff + i k_eff handed to the solver. */
  function Ellipsometry(o: Optics, recover: Option<Complex> -> Complex, angle: real, dom: Domain,
                        thickness: seq<real>, vf: real, ii: nat, jj: nat): PsiDelta
    requires InterpolatesOnSpan(o) && Ready(dom)
    requires ii < |dom.waves| && jj < |thickness|
  {
    var w := dom.waves[ii];
    Solve(o, angle, recover(EffectiveAt(o, dom, vf, w)), Index(o, dom.tables[0], w), thickness[jj], w)
  }

  /** The body of the wavelength loop, over (wavelength, thickness, fraction). */
  function Point(o: Optics, recover: Option<Complex> -> Complex, angle: real, dom: Domain,
                 thickness: seq<real>, vfractions: seq<real>): (point: (nat, nat, nat) --> PsiDelta)
    requires InterpolatesOnSpan(o) && Ready(dom)
    ensures Defined3(point, |dom.waves|, |thickness|, |vfractions|)
  {
    (ii: nat, jj: nat, kk: nat) requires ii < |dom.waves| && jj < |thickness| && kk < |vfractions| =>
      Ellipsometry(o, recover, angle, dom, thickness, vfractions[kk], ii, jj)
  }

  /** Psi for (filtered[ii], thickness[jj], vf[kk]) is in cell [ii, jj, kk],
      its Delta in cell [nwave + ii, jj, kk]. */
  lemma Layout(o: Optics, recover: Option<Complex> -> Complex, angle: real, dom: Domain,
               thickness: seq<real>, vfractions: seq<real>, ii: nat, jj: nat, kk: nat)
    requires InterpolatesOnSpan(o) && Ready(dom)
    requires ii < |dom.waves| && jj < |thickness| && kk < |vfractions|
    ensures Cell3(Point(o, recover, angle, dom, thickness, vfractions), |dom.waves|, |thickness|, |vfractions|, ii, jj, kk)
         == Ellipsometry(o, recover, angle, dom, thickness, vfractions[kk], ii, jj).psi
    ensures Cell3(Point(o, recover, angle, dom, thickness, vfractions), |dom.waves|, |thickness|, |vfractions|,
                  |dom.waves| + ii, jj, kk)
         == Ellipsometry(o, recover, angle, dom, thickness, vfractions[kk], ii, jj).delta
  {
  }

  ghost predicate Filled(sv: array3<real>, o: Optics, recover: Option<Complex> -> Complex, angle: real,
                         dom: Domain, thickness: seq<real>, vfractions: seq<real>)
    requires InterpolatesOnSpan(o) && Ready(dom)
    reads sv
  {
    sv.Length0 == 2 * |dom.waves| && sv.Length1 == |thickness| && sv.Length2 == |vfractions| &&
    forall i, j, k :: 0 <= i < sv.Length0 && 0 <= j < sv.Length1 && 0 <= k < sv.Length2 ==>
      sv[i, j, k] == Cell3(Point(o, recover, angle, dom, thickness, vfractions), |dom.waves|, |thickness|, |vfractions|, i, j, k)
  }

  /** Runs the sweep. Missing `layers` or `vfractions` fail before anything
      is loaded; then the three tables are prepared, and the supervector is
      filled for every thickness and fraction. */
  method RunSimulationMaxwellGarnett(o: Optics, recover: Option<Complex> -> Complex, dlam: seq<real>, angle: real,
                                     substrate: NkTable, layers: Option<Layers>, vfractions: Option<seq<real>>,
                                     particle: NkTable)
    returns (r: Result<array3<real>, SimError>, written: seq<Row>)
    requires InterpolatesOnSpan(o)
    ensures (layers.None? || vfractions.None?) ==> r == Failure(MissingArguments) && written == []
    ensures layers.Some? && vfractions.Some? ==>
      var p := Prepare(Tables(substrate, layers.value.material, particle), dlam);
      && (p.Failure? ==> r == Failure(p.error) && written == [])
      && (p.Success? ==>
           && r.Success? && fresh(r.value)
           && Filled(r.value, o, recover, angle, p.value, layers.value.thicknessRange, vfractions.value)
           && written == Rows3(Snap3(r.value), r.value.Length0, layers.value.thicknessRange, p.value.waves,
                               FractionTrailers(vfractions.value)))
  {
    if layers.None? || vfractions.None? {
      return Failure(MissingArguments), [];
    }
    var prepared := Prepare(Tables(substrate, layers.value.material, particle), dlam);
    if prepared.Failure? {
      return Failure(prepared.error), [];
    }
    var sv;
    sv, written := Simulate(o, recover, angle, prepared.value, layers.value.thicknessRange, vfractions.value);
    r := Success(sv);
  }

  /** The sweep proper: fill, then build the rows, which give the
      supervector back. */
  method Simulate(o: Optics, recover: Option<Complex> -> Complex, angle: real, dom: Domain,
                  thickness: seq<real>, vfractions: seq<real>)
    returns (sv: array3<real>, written: seq<Row>)
    requires InterpolatesOnSpan(o) && Ready(dom)
    ensures fresh(sv) && Filled(sv, o, recover, angle, dom, thickness, vfractions)
    ensures written == Rows3(Snap3(sv), sv.Length0, thickness, dom.waves, FractionTrailers(vfractions))
    ensures Rebuild3(written, |dom.waves|, |thickness|, |vfractions|) == Snap3(sv)
  {
    sv := Fill3(Point(o, recover, angle, dom, thickness, vfractions), |dom.waves|, |thickness|, |vfractions|);
    var saved := SaveSupervectorRowsMaxwellGarnett(sv, thickness, vfractions, dom.waves);
    written := if saved.Success? then saved.value else [];
    Rows3RoundTrip(Snap3(sv), thickness, dom.waves, FractionTrailers(vfractions));
  }
}
