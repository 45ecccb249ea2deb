/** The supervector the drivers allocate as zeros and fill: for every sweep
    coordinate the wavelength loop stores Psi of wavelength ii in row ii and
    Delta in row nwave + ii. `point` stands for one solver call at a
    wavelength index and the outer coordinates; each driver supplies its own. */
module Supervector {
  import opened Sweep

  /** Row i of a filled supervector, for the solver result of each wavelength:
      Psi for i < nwave, Delta of wavelength i - nwave otherwise. */
  function Split(e: PsiDelta, nwave: nat, i: nat): real {
    if i < nwave then e.psi else e.delta
  }

  /** The wavelength index row i holds. */
  function Wave(nwave: nat, i: nat): nat {
    if i < nwave then i else i - nwave
  }

  /** The innermost loop of every driver: for each kept wavelength ii one
      solver call `point(ii)`, its Psi stored at psis[ii] and its Delta at
      deltas[ii], in arrays that start as zeros. */
  method SweepWavelengths(point: nat --> PsiDelta, nwave: nat) returns (psis: array<real>, deltas: array<real>)
    requires forall ii :: 0 <= ii < nwave ==> point.requires(ii)
    ensures fresh(psis) && fresh(deltas)
    ensures psis.Length == nwave && deltas.Length == nwave
    ensures forall ii :: 0 <= ii < nwave ==> psis[ii] == point(ii).psi
    ensures forall ii :: 0 <= ii < nwave ==> deltas[ii] == point(ii).delta
  {
    psis := new real[nwave](_ => 0.0);
    deltas := new real[nwave](_ => 0.0);
    for ii := 0 to nwave
      invariant forall i :: 0 <= i < ii ==> psis[i] == point(i).psi
      invariant forall i :: 0 <= i < ii ==> deltas[i] == point(i).delta
    {
      var e := point(ii);
      psis[ii] := e.psi;
      deltas[ii] := e.delta;
    }
  }

  // ---------------------------------------------------------------------
  // 2-D: thickness columns

  ghost predicate Defined2(point: (nat, nat) --> PsiDelta, nwave: nat, nThickness: nat) {
    forall ii, jj :: 0 <= ii < nwave && 0 <= jj < nThickness ==> point.requires(ii, jj)
  }

  /** Cell (i, j) of the 2-D supervector filled from `point`. */
  function Cell2(point: (nat, nat) --> PsiDelta, nwave: nat, nThickness: nat, i: nat, j: nat): real
    requires Defined2(point, nwave, nThickness) && i < 2 * nwave && j < nThickness
  {
    Split(point(Wave(nwave, i), j), nwave, i)
  }

  /** Allocates the 2nwave-by-nThickness zero supervector and fills it one
      thickness column at a time. */
  method Fill2(point: (nat, nat) --> PsiDelta, nwave: nat, nThickness: nat) returns (sv: array2<real>)
    requires Defined2(point, nwave, nThickness)
    ensures fresh(sv) && sv.Length0 == 2 * nwave && sv.Length1 == nThickness
    ensures forall i, j :: 0 <= i < 2 * nwave && 0 <= j < nThickness ==> sv[i, j] == Cell2(point, nwave, nThickness, i, j)
  {
    sv := new real[2 * nwave, nThickness]((i, j) => 0.0);
    for jj := 0 to nThickness
      invariant forall i, j :: 0 <= i < 2 * nwave && 0 <= j < jj ==> sv[i, j] == Cell2(point, nwave, nThickness, i, j)
      invariant forall i, j :: 0 <= i < 2 * nwave && jj <= j < nThickness ==> sv[i, j] == 0.0
    {
      var psis, deltas := SweepWavelengths(ii requires 0 <= ii < nwave => point(ii, jj), nwave);
      forall i | 0 <= i < nwave {
        sv[i, jj] := psis[i];
      }
      forall i | nwave <= i < 2 * nwave {
        sv[i, jj] := deltas[i - nwave];
      }
    }
  }

  // ---------------------------------------------------------------------
  // 3-D: thickness, then the outer coordinate (fraction or parameter set)

  ghost predicate Defined3(point: (nat, nat, nat) --> PsiDelta, nwave: nat, nThickness: nat, nOuter: nat) {
    forall ii, jj, kk :: 0 <= ii < nwave && 0 <= jj < nThickness && 0 <= kk < nOuter ==> point.requires(ii, jj, kk)
  }

  /** Cell (i, j, k) of the 3-D supervector filled from `point`. */
  function Cell3(point: (nat, nat, nat) --> PsiDelta, nwave: nat, nThickness: nat, nOuter: nat, i: nat, j: nat, k: nat): real
    requires Defined3(point, nwave, nThickness, nOuter) && i < 2 * nwave && j < nThickness && k < nOuter
  {
    Split(point(Wave(nwave, i), j, k), nwave, i)
  }

  /** Allocates the 2nwave-by-nThickness-by-nOuter zero supervector and
      fills it thickness by thickness. */
  method Fill3(point: (nat, nat, nat) --> PsiDelta, nwave: nat, nThickness: nat, nOuter: nat) returns (sv: array3<real>)
    requires Defined3(point, nwave, nThickness, nOuter)
    ensures fresh(sv) && sv.Length0 == 2 * nwave && sv.Length1 == nThickness && sv.Length2 == nOuter
    ensures forall i, j, k :: 0 <= i < 2 * nwave && 0 <= j < nThickness && 0 <= k < nOuter ==>
      sv[i, j, k] == Cell3(point, nwave, nThickness, nOuter, i, j, k)
  {
    sv := new real[2 * nwave, nThickness, nOuter]((i, j, k) => 0.0);
    for jj := 0 to nThickness
      invariant forall i, j, k :: 0 <= i < 2 * nwave && 0 <= j < jj && 0 <= k < nOuter ==>
        sv[i, j, k] == Cell3(point, nwave, nThickness, nOuter, i, j, k)
      invariant forall i, j, k :: 0 <= i < 2 * nwave && jj <= j < nThickness && 0 <= k < nOuter ==> sv[i, j, k] == 0.0
    {
      FillThickness3(sv, point, nwave, jj);
    }
  }

  /** The loop over the outer coordinate for thickness jj: it writes the
      cells of thickness jj and no other. */
  method FillThickness3(sv: array3<real>, point: (nat, nat, nat) --> PsiDelta, nwave: nat, jj: nat)
    modifies sv
    requires sv.Length0 == 2 * nwave && jj < sv.Length1 && Defined3(point, nwave, sv.Length1, sv.Length2)
    ensures forall i, k :: 0 <= i < 2 * nwave && 0 <= k < sv.Length2 ==>
      sv[i, jj, k] == Cell3(point, nwave, sv.Length1, sv.Length2, i, jj, k)
    ensures forall i, j, k :: 0 <= i < 2 * nwave && 0 <= j < sv.Length1 && j != jj && 0 <= k < sv.Length2 ==>
      sv[i, j, k] == old(sv[i, j, k])
  {
    for kk := 0 to sv.Length2
      invariant forall i, k :: 0 <= i < 2 * nwave && 0 <= k < kk ==>
        sv[i, jj, k] == Cell3(point, nwave, sv.Length1, sv.Length2, i, jj, k)
      invariant forall i, j, k :: 0 <= i < 2 * nwave && 0 <= j < sv.Length1 && j != jj && 0 <= k < sv.Length2 ==>
        sv[i, j, k] == old(sv[i, j, k])
    {
      var psis, deltas := SweepWavelengths(ii requires 0 <= ii < nwave => point(ii, jj, kk), nwave);
      forall i | 0 <= i < nwave {
        sv[i, jj, kk] := psis[i];
      }
      forall i | nwave <= i < 2 * nwave {
        sv[i, jj, kk] := deltas[i - nwave];
      }
    }
  }
}
