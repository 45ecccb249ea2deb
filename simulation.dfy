/** `run_simulation`: one thin layer on a substrate, swept over layer
    thickness and wavelength. The result is a 2L-by-nThickness supervector
    with Psi in rows 0..L-1 and Delta in rows L..2L-1, L the number of kept
    wavelengths. */
module Simulation {
  import opened Wrappers
  import opened Sweep
  import opened DataHandling
  import opened Supervector

  /** The tables in the order the window is taken over: substrate, layer. */
  function Tables(substrate: NkTable, layer: NkTable): (ts: seq<NkTable>)
    ensures |ts| == 2 && ts[0] == substrate && ts[1] == layer
  {
    [substrate, layer]
  }

  /** The solver's answer for kept wavelength ii and thickness jj. */
  function Ellipsometry(o: Optics, angle: real, dom: Domain, thickness: seq<real>, ii: nat, jj: nat): PsiDelta
    requires InterpolatesOnSpan(o) && Covers(dom) && |dom.tables| == 2
    requires ii < |dom.waves| && jj < |thickness|
  {
    var w := dom.waves[ii];
    Solve(o, angle, Index(o, dom.tables[1], w), Index(o, dom.tables[0], w), thickness[jj], w)
  }

  /** The body of the wavelength loop: the solver call for wavelength
      index ii and thickness index jj. */
  function Point(o: Optics, angle: real, dom: Domain, thickness: seq<real>): (point: (nat, nat) --> PsiDelta)
    requires InterpolatesOnSpan(o) && Covers(dom) && |dom.tables| == 2
    ensures Defined2(point, |dom.waves|, |thickness|)
  {
    (ii: nat, jj: nat) requires ii < |dom.waves| && jj < |thickness| => Ellipsometry(o, angle, dom, thickness, ii, jj)
  }

  /** Psi of wavelength ii at thickness jj is in row ii, its Delta in row
      nwave + ii, both in column jj. */
  lemma Layout(o: Optics, angle: real, dom: Domain, thickness: seq<real>, ii: nat, jj: nat)
    requires InterpolatesOnSpan(o) && Covers(dom) && |dom.tables| == 2
    requires ii < |dom.waves| && jj < |thickness|
    ensures Cell2(Point(o, angle, dom, thickness), |dom.waves|, |thickness|, ii, jj)
         == Ellipsometry(o, angle, dom, thickness, ii, jj).psi
    ensures Cell2(Point(o, angle, dom, thickness), |dom.waves|, |thickness|, |dom.waves| + ii, jj)
         == Ellipsometry(o, angle, dom, thickness, ii, jj).delta
  {
  }

  /** `sv` is the supervector of the sweep over `dom` and `thickness`. */
  ghost predicate Filled(sv: array2<real>, o: Optics, angle: real, dom: Domain, thickness: seq<real>)
    requires InterpolatesOnSpan(o) && Covers(dom) && |dom.tables| == 2
    reads sv
  {
    sv.Length0 == 2 * |dom.waves| && sv.Length1 == |thickness| &&
    forall i, j :: 0 <= i < sv.Length0 && 0 <= j < sv.Length1 ==>
      sv[i, j] == Cell2(Point(o, angle, dom, thickness), |dom.waves|, |thickness|, i, j)
  }

  /** Runs the sweep. Without `layers` nothing is loaded and the call fails;
      otherwise the tables are prepared (unit change, window, filter) and the
      supervector is filled column by column. `written` is the row list
      handed to the saving step. */
  method RunSimulation(o: Optics, dlam: seq<real>, angle: real, substrate: NkTable, layers: Option<Layers>)
    returns (r: Result<array2<real>, SimError>, written: seq<Row>)
    requires InterpolatesOnSpan(o)
    ensures layers.None? ==> r == Failure(MissingArguments) && written == []
    ensures layers.Some? ==>
      var p := Prepare(Tables(substrate, layers.value.material), dlam);
      && (p.Failure? ==> r == Failure(p.error) && written == [])
      && (p.Success? ==>
           && r.Success? && fresh(r.value)
           && Filled(r.value, o, angle, p.value, layers.value.thicknessRange)
           && written == Rows2(Snap2(r.value), layers.value.thicknessRange, p.value.waves))
  {
    if layers.None? {
      return Failure(MissingArguments), [];
    }
    var prepared := Prepare(Tables(substrate, layers.value.material), dlam);
    if prepared.Failure? {
      return Failure(prepared.error), [];
    }
    var sv;
    sv, written := Simulate(o, angle, prepared.value, layers.value.thicknessRange);
    r := Success(sv);
  }

  /** The sweep proper, once the domain is known: fill, then build the rows,
      which give the supervector back. */
  method Simulate(o: Optics, angle: real, dom: Domain, thickness: seq<real>) returns (sv: array2<real>, written: seq<Row>)
    requires InterpolatesOnSpan(o) && Covers(dom) && |dom.tables| == 2
    ensures fresh(sv) && Filled(sv, o, angle, dom, thickness)
    ensures written == Rows2(Snap2(sv), thickness, dom.waves)
    ensures Rebuild2(written, |dom.waves|, |thickness|) == Snap2(sv)
  {
    sv := Fill2(Point(o, angle, dom, thickness), |dom.waves|, |thickness|);
    var saved := SaveSupervectorRows(sv, thickness, dom.waves);
    written := if saved.Success? then saved.value else [];
    Rows2RoundTrip(Snap2(sv), thickness, dom.waves);
  }

  /** The solver is only asked about wavelengths inside both tables' spans. */
  lemma NoExtrapolation(dlam: seq<real>, substrate: NkTable, layer: NkTable, ii: nat)
    requires Prepare(Tables(substrate, layer), dlam).Success?
    requires ii < |Prepare(Tables(substrate, layer), dlam).value.waves|
    ensures var dom := Prepare(Tables(substrate, layer), dlam).value;
      && WellFormed(dom.tables[0]) && InSpan(dom.tables[0], dom.waves[ii])
      && WellFormed(dom.tables[1]) && InSpan(dom.tables[1], dom.waves[ii])
  {
  }
}
