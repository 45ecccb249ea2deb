/** `run_simulation_lorentzien`: the layer index is corrected by a
    Lorentzian oscillator whose parameters are drawn 30 times around the
    nanoparticle material's nominal values; the sweep runs over thickness and
    parameter set. */
module LorentzSimulation {
  import opened Wrappers
  import opened ComplexNumbers
  import opened Sweep
  import opened Supervector
  import opened DataHandling
  import opened Lorentz
  import Simulation

  predicate Ready(dom: Domain) {
    |dom.tables| == 2 && Covers(dom)
  }

  /** The layer index for parameter set p at wavelength w: the interpolated
      index plus the oscillator's correction, which `lorentzNk` derives from
      the oscillator's permittivity. */
  function LayerIndex(o: Optics, lorentzNk: Option<Complex> -> Complex, dom: Domain, p: OscillatorParams, w: real): Complex
    requires InterpolatesOnSpan(o) && Ready(dom) && InSpan(dom.tables[1], w)
  {
    Add(Index(o, dom.tables[1], w), lorentzNk(LorentzianContribution(w, p.amplitude, p.lambda0, p.gamma)))
  }

  /** The solver call for wavelength index ii, thickness jj and set p. */
  function Ellipsometry(o: Optics, lorentzNk: Option<Complex> -> Complex, angle: real, dom: Domain,
                        thickness: seq<real>, p: OscillatorParams, ii: nat, jj: nat): PsiDelta
    requires InterpolatesOnSpan(o) && Ready(dom)
    requires ii < |dom.waves| && jj < |thickness|
  {
    var w := dom.waves[ii];
    Solve(o, angle, LayerIndex(o, lorentzNk, dom, p, w), Index(o, dom.tables[0], w), thickness[jj], w)
  }

  /** The body of the wavelength loop, over (wavelength, thickness, set). */
  function Point(o: Optics, lorentzNk: Option<Complex> -> Complex, angle: real, dom: Domain,
                 thickness: seq<real>, sets: seq<OscillatorParams>): (point: (nat, nat, nat) --> PsiDelta)
    requires InterpolatesOnSpan(o) && Ready(dom)
    ensures Defined3(point, |dom.waves|, |thickness|, |sets|)
  {
    (ii: nat, jj: nat, zz: nat) requires ii < |dom.waves| && jj < |thickness| && zz < |sets| =>
      Ellipsometry(o, lorentzNk, angle, dom, thickness, sets[zz], ii, jj)
  }

  /** Cell [ii, jj, zz] holds Psi, and [nwave + ii, jj, zz] Delta, for
      filtered[ii], thickness[jj] and the layer index corrected by set zz. */
  lemma Layout(o: Optics, lorentzNk: Option<Complex> -> Complex, angle: real, dom: Domain,
               thickness: seq<real>, sets: seq<OscillatorParams>, ii: nat, jj: nat, zz: nat)
    requires InterpolatesOnSpan(o) && Ready(dom)
    requires ii < |dom.waves| && jj < |thickness| && zz < |sets|
    ensures Cell3(Point(o, lorentzNk, angle, dom, thickness, sets), |dom.waves|, |thickness|, |sets|, ii, jj, zz)
         == Ellipsometry(o, lorentzNk, angle, dom, thickness, sets[zz], ii, jj).psi
    ensures Cell3(Point(o, lorentzNk, angle, dom, thickness, sets), |dom.waves|, |thickness|, |sets|,
                  |dom.waves| + ii, jj, zz)
         == Ellipsometry(o, lorentzNk, angle, dom, thickness, sets[zz], ii, jj).delta
  {
  }

  ghost predicate Filled(sv: array3<real>, o: Optics, lorentzNk: Option<Complex> -> Complex, angle: real,
                         dom: Domain, thickness: seq<real>, sets: seq<OscillatorParams>)
    requires InterpolatesOnSpan(o) && Ready(dom)
    reads sv
  {
    sv.Length0 == 2 * |dom.waves| && sv.Length1 == |thickness| && sv.Length2 == |sets| &&
    forall i, j, k :: 0 <= i < sv.Length0 && 0 <= j < sv.Length1 && 0 <= k < sv.Length2 ==>
      sv[i, j, k] == Cell3(Point(o, lorentzNk, angle, dom, thickness, sets), |dom.waves|, |thickness|, |sets|, i, j, k)
  }

  /** Runs the sweep. A missing `layers` fails before anything is loaded;
      then the substrate and layer tables (and no particle table) define the
      window; then an unknown material fails; then 30 parameter sets are
      drawn and the supervector is filled. `sets` is returned alongside, in
      the order of the supervector's last axis. */
  method RunSimulationLorentzian(o: Optics, lorentzNk: Option<Complex> -> Complex, draw: nat -> Draw,
                                 dlam: seq<real>, angle: real, substrate: NkTable, layers: Option<Layers>,
                                 material: string)
    returns (r: Result<array3<real>, SimError>, sets: seq<OscillatorParams>, written: seq<Row>)
    requires InterpolatesOnSpan(o)
    ensures layers.None? ==> r == Failure(MissingArguments) && sets == [] && written == []
    ensures layers.Some? ==>
      var p := Prepare(Simulation.Tables(substrate, layers.value.material), dlam);
      && (p.Failure? ==> r == Failure(p.error) && sets == [] && written == [])
      && (p.Success? && Nominal(material).None? ==> r == Failure(InvalidMaterial) && sets == [] && written == [])
      && (p.Success? && Nominal(material).Some? ==>
           && r.Success? && fresh(r.value)
           && |sets| == NumParameterSets
           && (forall z :: 0 <= z < |sets| ==> sets[z] == Perturb(Nominal(material).value, draw(z)))
           && Filled(r.value, o, lorentzNk, angle, p.value, layers.value.thicknessRange, sets)
           && written == Rows3(Snap3(r.value), r.value.Length0, layers.value.thicknessRange, p.value.waves,
                               ParameterTrailers(sets)))
  {
    if layers.None? {
      return Failure(MissingArguments), [], [];
    }
    var prepared := Prepare(Simulation.Tables(substrate, layers.value.material), dlam);
    if prepared.Failure? {
      return Failure(prepared.error), [], [];
    }
    var nominal := Nominal(material);
    if nominal.None? {
      return Failure(InvalidMaterial), [], [];
    }
    sets := GenerateParameterSets(nominal.value, draw);
    var sv;
    sv, written := Simulate(o, lorentzNk, angle, prepared.value, layers.value.thicknessRange, sets);
    r := Success(sv);
  }

  /** The sweep proper: fill, then build the rows, which give the
      supervector back. */
  method Simulate(o: Optics, lorentzNk: Option<Complex> -> Complex, angle: real, dom: Domain,
                  thickness: seq<real>, sets: seq<OscillatorParams>)
    returns (sv: array3<real>, written: seq<Row>)
    requires InterpolatesOnSpan(o) && Ready(dom)
    ensures fresh(sv) && Filled(sv, o, lorentzNk, angle, dom, thickness, sets)
    ensures written == Rows3(Snap3(sv), sv.Length0, thickness, dom.waves, ParameterTrailers(sets))
    ensures Rebuild3(written, |dom.waves|, |thickness|, |sets|) == Snap3(sv)
  {
    sv := Fill3(Point(o, lorentzNk, angle, dom, thickness, sets), |dom.waves|, |thickness|, |sets|);
    var saved := SaveSupervectorRowsLorentzian(sv, thickness, dom.waves, sets);
    written := if saved.Success? then saved.value else [];
    Rows3RoundTrip(Snap3(sv), thickness, dom.waves, ParameterTrailers(sets));
  }
}
