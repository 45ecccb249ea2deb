/** The row lists that `save_supervector`, `save_supervector_maxwell_garnett`
    and `save_supervector_lorentzian` build from a supervector before writing
    them out. The file system side (folders, CSV writing) is not modelled;
    an index error while building the rows, which the source re-raises as an
    I/O error, is `Failure(SaveFailed)`. */
module DataHandling {
  import opened Wrappers
  import opened Sweep
  import opened Lorentz

  type Row = seq<real>

  // ---------------------------------------------------------------------
  // Flattening blocks of rows

  function Concat<T>(xss: seq<seq<T>>): seq<T> {
    if |xss| == 0 then [] else Concat(xss[..|xss| - 1]) + xss[|xss| - 1]
  }

  lemma ConcatSnoc<T>(xss: seq<seq<T>>, ys: seq<T>)
    ensures Concat(xss + [ys]) == Concat(xss) + ys
  {
    assert (xss + [ys])[..|xss|] == xss;
  }

  lemma MulMonotone(a: int, b: int, c: int)
    requires 0 <= a <= b && 0 <= c
    ensures a * c <= b * c
  {
    assert b * c == a * c + (b - a) * c;
  }

  /** In a concatenation of blocks of equal length `len`, element `i` of
      block `j` sits at position j * len + i. */
  lemma {:induction false} ConcatUniform<T>(xss: seq<seq<T>>, len: nat, j: nat, i: nat)
    requires forall k :: 0 <= k < |xss| ==> |xss[k]| == len
    requires j < |xss| && i < len
    ensures |Concat(xss)| == |xss| * len
    ensures j * len + i < |Concat(xss)| && Concat(xss)[j * len + i] == xss[j][i]
  {
    var n := |xss| - 1;
    var prefix := xss[..n];
    ConcatLength(prefix, len);
    assert |Concat(xss)| == n * len + len == |xss| * len;
    if j < n {
      ConcatUniform(prefix, len, j, i);
    } else {
      assert j * len == n * len;
    }
  }

  lemma {:induction false} ConcatLength<T>(xss: seq<seq<T>>, len: nat)
    requires forall k :: 0 <= k < |xss| ==> |xss[k]| == len
    ensures |Concat(xss)| == |xss| * len
  {
    if |xss| > 0 {
      var n := |xss| - 1;
      ConcatLength(xss[..n], len);
      assert |Concat(xss)| == n * len + len;
    }
  }

  // ---------------------------------------------------------------------
  // Reading a supervector

  /** The supervector's cells as a value. */
  function Snap2(a: array2<real>): (s: seq<seq<real>>)
    reads a
    ensures |s| == a.Length0
    ensures forall i :: 0 <= i < a.Length0 ==> |s[i]| == a.Length1
    ensures forall i, j :: 0 <= i < a.Length0 && 0 <= j < a.Length1 ==> s[i][j] == a[i, j]
  {
    seq(a.Length0, i reads a requires 0 <= i < a.Length0 =>
      seq(a.Length1, j reads a requires 0 <= j < a.Length1 => a[i, j]))
  }

  function Snap3(a: array3<real>): (s: seq<seq<seq<real>>>)
    reads a
    ensures |s| == a.Length0
    ensures forall i :: 0 <= i < a.Length0 ==> |s[i]| == a.Length1
    ensures forall i, j :: 0 <= i < a.Length0 && 0 <= j < a.Length1 ==> |s[i][j]| == a.Length2
    ensures forall i, j, k :: 0 <= i < a.Length0 && 0 <= j < a.Length1 && 0 <= k < a.Length2 ==>
      s[i][j][k] == a[i, j, k]
  {
    seq(a.Length0, i reads a requires 0 <= i < a.Length0 =>
      seq(a.Length1, j reads a requires 0 <= j < a.Length1 =>
        seq(a.Length2, k reads a requires 0 <= k < a.Length2 => a[i, j, k])))
  }

  function At(xs: seq<real>, i: int): real {
    if 0 <= i < |xs| then xs[i] else 0.0
  }

  function At2(s: seq<seq<real>>, i: int, j: int): real {
    if 0 <= i < |s| then At(s[i], j) else 0.0
  }

  function At3(s: seq<seq<seq<real>>>, i: int, j: int, k: int): real {
    if 0 <= i < |s| then At2(s[i], j, k) else 0.0
  }

  // ---------------------------------------------------------------------
  // save_supervector: thickness outer, wavelength inner

  /** Row (jj, ii): Psi from row ii, Delta from row L + ii, the wavelength
      and the thickness. */
  function Row2(sv: seq<seq<real>>, thickness: seq<real>, dlam: seq<real>, jj: nat, ii: nat): Row
    requires jj < |thickness| && ii < |dlam|
  {
    [At2(sv, ii, jj), At2(sv, |dlam| + ii, jj), dlam[ii], thickness[jj]]
  }

  function Block2(sv: seq<seq<real>>, thickness: seq<real>, dlam: seq<real>, jj: nat): seq<Row>
    requires jj < |thickness|
  {
    seq(|dlam|, ii requires 0 <= ii < |dlam| => Row2(sv, thickness, dlam, jj, ii))
  }

  function Rows2(sv: seq<seq<real>>, thickness: seq<real>, dlam: seq<real>): seq<Row> {
    Concat(seq(|thickness|, jj requires 0 <= jj < |thickness| => Block2(sv, thickness, dlam, jj)))
  }

  /** Indexing raises exactly when some (jj, ii) the loops visit has no Delta
      row (2L more than the rows) or no column. */
  predicate Rows2Fail(rows: nat, cols: nat, nThickness: nat, nWave: nat) {
    nThickness > 0 && nWave > 0 && (rows < 2 * nWave || cols < nThickness)
  }

  method SaveSupervectorRows(sv: array2<real>, thickness: seq<real>, dlam: seq<real>)
    returns (r: Result<seq<Row>, SimError>)
    ensures r.Failure? <==> Rows2Fail(sv.Length0, sv.Length1, |thickness|, |dlam|)
    ensures r.Failure? ==> r.error == SaveFailed
    ensures r.Success? ==> r.value == Rows2(Snap2(sv), thickness, dlam)
  {
    var L := |dlam|;
    var rows: seq<Row> := [];
    ghost var s := Snap2(sv);
    ghost var blocks := seq(|thickness|, jj requires 0 <= jj < |thickness| => Block2(s, thickness, dlam, jj));
    for jj := 0 to |thickness|
      invariant rows == Concat(blocks[..jj])
      invariant jj > 0 && L > 0 ==> 2 * L <= sv.Length0 && jj <= sv.Length1
    {
      var block := BlockRows2(sv, thickness, dlam, jj);
      if block.Failure? {
        return Failure(SaveFailed);
      }
      rows := rows + block.value;
      assert blocks[..jj + 1] == blocks[..jj] + [blocks[jj]];
      ConcatSnoc(blocks[..jj], blocks[jj]);
    }
    assert blocks[..|thickness|] == blocks;
    return Success(rows);
  }

  /** The wavelength loop for one thickness jj. */
  method BlockRows2(sv: array2<real>, thickness: seq<real>, dlam: seq<real>, jj: nat)
    returns (r: Result<seq<Row>, SimError>)
    requires jj < |thickness|
    ensures r.Failure? <==> |dlam| > 0 && (sv.Length0 < 2 * |dlam| || sv.Length1 <= jj)
    ensures r.Success? ==> r.value == Block2(Snap2(sv), thickness, dlam, jj)
  {
    var L := |dlam|;
    var rows: seq<Row> := [];
    ghost var block := Block2(Snap2(sv), thickness, dlam, jj);
    for ii := 0 to L
      invariant rows == block[..ii]
      invariant ii > 0 ==> ii + L <= sv.Length0 && jj < sv.Length1
    {
      if ii + L >= sv.Length0 || jj >= sv.Length1 {
        return Failure(SaveFailed);
      }
      rows := rows + [[sv[ii, jj], sv[L + ii, jj], dlam[ii], thickness[jj]]];
    }
    assert block[..L] == block;
    return Success(rows);
  }

  /** Row Position2(jj, L, ii) of the list is the row for thickness jj and wavelength ii. */
  lemma Rows2At(sv: seq<seq<real>>, thickness: seq<real>, dlam: seq<real>, jj: nat, ii: nat)
    requires jj < |thickness| && ii < |dlam|
    ensures |Rows2(sv, thickness, dlam)| == |thickness| * |dlam|
    ensures Position2(jj, |dlam|, ii) < |Rows2(sv, thickness, dlam)|
    ensures Rows2(sv, thickness, dlam)[Position2(jj, |dlam|, ii)]
         == [At2(sv, ii, jj), At2(sv, |dlam| + ii, jj), dlam[ii], thickness[jj]]
  {
    var blocks := seq(|thickness|, j requires 0 <= j < |thickness| => Block2(sv, thickness, dlam, j));
    ConcatUniform(blocks, |dlam|, jj, ii);
  }

  function Cell(rows: seq<Row>, r: int, c: int): real {
    if 0 <= r < |rows| then At(rows[r], c) else 0.0
  }

  /** Row index of thickness j and wavelength i, with h wavelengths per block. */
  function Position2(j: nat, h: nat, i: nat): nat {
    j * h + i
  }

  /** Where the rows keep supervector cell (i, j): Psi rows i < nWave in
      column 0, Delta rows nWave + i in column 1. */
  function Source2(rows: seq<Row>, nWave: nat, i: nat, j: nat): real {
    if i < nWave then Cell(rows, Position2(j, nWave, i), 0) else Cell(rows, Position2(j, nWave, i - nWave), 1)
  }

  /** The 2L-by-nThickness supervector read back from the rows. */
  function Rebuild2(rows: seq<Row>, nWave: nat, nThickness: nat): (back: seq<seq<real>>)
    ensures |back| == 2 * nWave
    ensures forall i :: 0 <= i < 2 * nWave ==> |back[i]| == nThickness
    ensures forall i, j :: 0 <= i < 2 * nWave && 0 <= j < nThickness ==> back[i][j] == Source2(rows, nWave, i, j)
  {
    seq(2 * nWave, i requires 0 <= i < 2 * nWave =>
      seq(nThickness, j requires 0 <= j < nThickness => Source2(rows, nWave, i, j)))
  }

  /** Every cell of a 2L-row supervector is in exactly one place of the rows:
      reading them back gives the supervector. */
  lemma Rows2RoundTrip(sv: seq<seq<real>>, thickness: seq<real>, dlam: seq<real>)
    requires |sv| == 2 * |dlam| && forall i :: 0 <= i < |sv| ==> |sv[i]| == |thickness|
    ensures Rebuild2(Rows2(sv, thickness, dlam), |dlam|, |thickness|) == sv
  {
    var rows := Rows2(sv, thickness, dlam);
    forall i, j | 0 <= i < 2 * |dlam| && 0 <= j < |thickness|
      ensures Source2(rows, |dlam|, i, j) == sv[i][j]
    {
      if i < |dlam| {
        Rows2At(sv, thickness, dlam, j, i);
      } else {
        Rows2At(sv, thickness, dlam, j, i - |dlam|);
      }
    }
    Rebuild2Of(rows, sv, |dlam|, |thickness|);
  }

  lemma Rebuild2Of(rows: seq<Row>, sv: seq<seq<real>>, nWave: nat, nThickness: nat)
    requires |sv| == 2 * nWave && forall i :: 0 <= i < |sv| ==> |sv[i]| == nThickness
    requires forall i, j :: 0 <= i < 2 * nWave && 0 <= j < nThickness ==> Source2(rows, nWave, i, j) == sv[i][j]
    ensures Rebuild2(rows, nWave, nThickness) == sv
  {
    var back := Rebuild2(rows, nWave, nThickness);
    forall i | 0 <= i < |sv|
      ensures back[i] == sv[i]
    {
    }
  }

  // ---------------------------------------------------------------------
  // The 3-D variants: outer index kk (fraction or parameter set), then
  // thickness jj, then wavelength ii < shape[0] / 2; each row ends with the
  // outer index's trailer.

  function Row3(sv: seq<seq<seq<real>>>, thickness: seq<real>, dlam: seq<real>, trailer: Row,
                kk: nat, jj: nat, ii: nat): Row
    requires jj < |thickness|
  {
    [At3(sv, ii, jj, kk), At3(sv, ii + |dlam|, jj, kk), At(dlam, ii), thickness[jj]] + trailer
  }

  function Block3(sv: seq<seq<seq<real>>>, half: nat, thickness: seq<real>, dlam: seq<real>,
                  trailers: seq<Row>, kk: nat, jj: nat): seq<Row>
    requires kk < |trailers| && jj < |thickness|
  {
    seq(half, ii requires 0 <= ii < half => Row3(sv, thickness, dlam, trailers[kk], kk, jj, ii))
  }

  function Slab3(sv: seq<seq<seq<real>>>, half: nat, thickness: seq<real>, dlam: seq<real>,
                 trailers: seq<Row>, kk: nat): seq<Row>
    requires kk < |trailers|
  {
    Concat(seq(|thickness|, jj requires 0 <= jj < |thickness| => Block3(sv, half, thickness, dlam, trailers, kk, jj)))
  }

  /** The rows for a supervector with `rows0` rows: the wavelength loop runs to rows0 / 2. */
  function Rows3(sv: seq<seq<seq<real>>>, rows0: nat, thickness: seq<real>, dlam: seq<real>, trailers: seq<Row>): seq<Row> {
    Concat(seq(|trailers|, kk requires 0 <= kk < |trailers| => Slab3(sv, rows0 / 2, thickness, dlam, trailers, kk)))
  }

  /** Indexing raises exactly when a visited (kk, jj, ii) has no column,
      no slice, no Delta row ii + L, or no wavelength ii. */
  predicate Rows3Fail(s0: nat, s1: nat, s2: nat, nOuter: nat, nThickness: nat, nWave: nat) {
    nOuter > 0 && nThickness > 0 && s0 / 2 > 0 &&
    (s1 < nThickness || s2 < nOuter || s0 / 2 - 1 + nWave >= s0 || s0 / 2 - 1 >= nWave)
  }

  /** A visited index (kk, jj, ii) that the supervector and `dlam` can serve. */
  predicate Ok3(s0: nat, s1: nat, s2: nat, nWave: nat, kk: nat, jj: nat, ii: nat) {
    jj < s1 && kk < s2 && ii + nWave < s0 && ii < nWave
  }

  method SaveRows3(sv: array3<real>, thickness: seq<real>, dlam: seq<real>, trailers: seq<Row>)
    returns (r: Result<seq<Row>, SimError>)
    ensures r.Failure? <==> Rows3Fail(sv.Length0, sv.Length1, sv.Length2, |trailers|, |thickness|, |dlam|)
    ensures r.Failure? ==> r.error == SaveFailed
    ensures r.Success? ==> r.value == Rows3(Snap3(sv), sv.Length0, thickness, dlam, trailers)
  {
    var H := sv.Length0 / 2;
    var rows: seq<Row> := [];
    ghost var s := Snap3(sv);
    ghost var slabs := seq(|trailers|, kk requires 0 <= kk < |trailers| => Slab3(s, H, thickness, dlam, trailers, kk));
    for kk := 0 to |trailers|
      invariant rows == Concat(slabs[..kk])
      invariant kk > 0 && |thickness| > 0 && H > 0 ==>
        Ok3(sv.Length0, sv.Length1, sv.Length2, |dlam|, kk - 1, |thickness| - 1, H - 1)
    {
      var slab := SlabRows3(sv, thickness, dlam, trailers, kk);
      if slab.Failure? {
        return Failure(SaveFailed);
      }
      rows := rows + slab.value;
      assert slabs[..kk + 1] == slabs[..kk] + [slabs[kk]];
      ConcatSnoc(slabs[..kk], slabs[kk]);
    }
    assert slabs[..|trailers|] == slabs;
    return Success(rows);
  }

  /** The thickness loop for one outer index kk. */
  method SlabRows3(sv: array3<real>, thickness: seq<real>, dlam: seq<real>, trailers: seq<Row>, kk: nat)
    returns (r: Result<seq<Row>, SimError>)
    requires kk < |trailers|
    ensures r.Failure? <==> (|thickness| > 0 && sv.Length0 / 2 > 0 &&
                             !Ok3(sv.Length0, sv.Length1, sv.Length2, |dlam|, kk, |thickness| - 1, sv.Length0 / 2 - 1))
    ensures r.Success? ==> r.value == Slab3(Snap3(sv), sv.Length0 / 2, thickness, dlam, trailers, kk)
  {
    var H := sv.Length0 / 2;
    var rows: seq<Row> := [];
    ghost var s := Snap3(sv);
    ghost var blocks := seq(|thickness|, jj requires 0 <= jj < |thickness| => Block3(s, H, thickness, dlam, trailers, kk, jj));
    for jj := 0 to |thickness|
      invariant rows == Concat(blocks[..jj])
      invariant jj > 0 && H > 0 ==> Ok3(sv.Length0, sv.Length1, sv.Length2, |dlam|, kk, jj - 1, H - 1)
    {
      var block := BlockRows3(sv, thickness, dlam, trailers, kk, jj);
      if block.Failure? {
        return Failure(SaveFailed);
      }
      rows := rows + block.value;
      assert blocks[..jj + 1] == blocks[..jj] + [blocks[jj]];
      ConcatSnoc(blocks[..jj], blocks[jj]);
    }
    assert blocks[..|thickness|] == blocks;
    return Success(rows);
  }

  /** The innermost wavelength loop for one (kk, jj). */
  method BlockRows3(sv: array3<real>, thickness: seq<real>, dlam: seq<real>, trailers: seq<Row>, kk: nat, jj: nat)
    returns (r: Result<seq<Row>, SimError>)
    requires kk < |trailers| && jj < |thickness|
    ensures r.Failure? <==> sv.Length0 / 2 > 0 && !Ok3(sv.Length0, sv.Length1, sv.Length2, |dlam|, kk, jj, sv.Length0 / 2 - 1)
    ensures r.Success? ==> r.value == Block3(Snap3(sv), sv.Length0 / 2, thickness, dlam, trailers, kk, jj)
  {
    var L := |dlam|;
    var H := sv.Length0 / 2;
    ghost var s := Snap3(sv);
    ghost var block := Block3(s, H, thickness, dlam, trailers, kk, jj);
    var rows: seq<Row> := [];
    for ii := 0 to H
      invariant rows == block[..ii]
      invariant ii > 0 ==> Ok3(sv.Length0, sv.Length1, sv.Length2, L, kk, jj, ii - 1)
    {
      if jj >= sv.Length1 || kk >= sv.Length2 || ii + L >= sv.Length0 || ii >= L {
        return Failure(SaveFailed);
      }
      assert At3(s, ii, jj, kk) == sv[ii, jj, kk] && At3(s, ii + L, jj, kk) == sv[ii + L, jj, kk];
      rows := rows + [[sv[ii, jj, kk], sv[ii + L, jj, kk], dlam[ii], thickness[jj]] + trailers[kk]];
    }
    assert block[..H] == block;
    return Success(rows);
  }

  /** Row Position3(kk, |thickness|, jj, H, ii), with H = rows0 / 2, is the row for
      outer index kk, thickness jj and wavelength ii, ending with kk's trailer. */
  lemma Rows3At(sv: seq<seq<seq<real>>>, rows0: nat, thickness: seq<real>, dlam: seq<real>, trailers: seq<Row>,
                kk: nat, jj: nat, ii: nat)
    requires kk < |trailers| && jj < |thickness| && ii < rows0 / 2
    ensures |Rows3(sv, rows0, thickness, dlam, trailers)| == |trailers| * (|thickness| * (rows0 / 2))
    ensures Position3(kk, |thickness|, jj, rows0 / 2, ii) < |Rows3(sv, rows0, thickness, dlam, trailers)|
    ensures Rows3(sv, rows0, thickness, dlam, trailers)[Position3(kk, |thickness|, jj, rows0 / 2, ii)]
         == [At3(sv, ii, jj, kk), At3(sv, ii + |dlam|, jj, kk), At(dlam, ii), thickness[jj]] + trailers[kk]
  {
    var H := rows0 / 2;
    var nT := |thickness|;
    var slabs := seq(|trailers|, k requires 0 <= k < |trailers| => Slab3(sv, H, thickness, dlam, trailers, k));
    assert Rows3(sv, rows0, thickness, dlam, trailers) == Concat(slabs);
    SlabsUniform(sv, H, thickness, dlam, trailers, slabs);
    SlabAt(sv, H, thickness, dlam, trailers, kk, jj, ii);
    PositionBound(jj, nT, H, ii);
    ConcatUniform(slabs, nT * H, kk, jj * H + ii);
    NestedPosition(kk, nT, jj, H, ii);
  }

  /** Row index of outer index k, thickness j and wavelength i, with n
      thicknesses and h wavelengths per block. */
  function Position3(k: nat, n: nat, j: nat, h: nat, i: nat): nat {
    (k * n + j) * h + i
  }

  lemma NestedPosition(k: nat, n: nat, j: nat, h: nat, i: nat)
    ensures k * (n * h) + (j * h + i) == Position3(k, n, j, h, i)
  {
  }

  lemma PositionBound(j: nat, n: nat, h: nat, i: nat)
    requires j < n && i < h
    ensures j * h + i < n * h
  {
    MulMonotone(j + 1, n, h);
  }

  lemma SlabsUniform(sv: seq<seq<seq<real>>>, half: nat, thickness: seq<real>, dlam: seq<real>,
                     trailers: seq<Row>, slabs: seq<seq<Row>>)
    requires slabs == seq(|trailers|, k requires 0 <= k < |trailers| => Slab3(sv, half, thickness, dlam, trailers, k))
    ensures forall k :: 0 <= k < |slabs| ==> |slabs[k]| == |thickness| * half
  {
    forall k | 0 <= k < |slabs|
      ensures |slabs[k]| == |thickness| * half
    {
      ConcatLength(seq(|thickness|, j requires 0 <= j < |thickness| => Block3(sv, half, thickness, dlam, trailers, k, j)), half);
    }
  }

  lemma SlabAt(sv: seq<seq<seq<real>>>, half: nat, thickness: seq<real>, dlam: seq<real>,
               trailers: seq<Row>, kk: nat, jj: nat, ii: nat)
    requires kk < |trailers| && jj < |thickness| && ii < half
    ensures jj * half + ii < |Slab3(sv, half, thickness, dlam, trailers, kk)|
    ensures Slab3(sv, half, thickness, dlam, trailers, kk)[jj * half + ii]
         == Row3(sv, thickness, dlam, trailers[kk], kk, jj, ii)
  {
    var blocks := seq(|thickness|, j requires 0 <= j < |thickness| => Block3(sv, half, thickness, dlam, trailers, kk, j));
    ConcatUniform(blocks, half, jj, ii);
  }

  /** Where the rows keep supervector cell (i, j, k): Psi rows i < nWave in
      column 0, Delta rows nWave + i in column 1. */
  function Source3(rows: seq<Row>, nWave: nat, nThickness: nat, i: nat, j: nat, k: nat): real {
    if i < nWave then Cell(rows, Position3(k, nThickness, j, nWave, i), 0)
    else Cell(rows, Position3(k, nThickness, j, nWave, i - nWave), 1)
  }

  /** The 2L-by-nThickness-by-nOuter supervector read back from the rows. */
  function Rebuild3(rows: seq<Row>, nWave: nat, nThickness: nat, nOuter: nat): (back: seq<seq<seq<real>>>)
    ensures Shape3(back, 2 * nWave, nThickness, nOuter)
    ensures forall i, j, k :: 0 <= i < 2 * nWave && 0 <= j < nThickness && 0 <= k < nOuter ==>
      back[i][j][k] == Source3(rows, nWave, nThickness, i, j, k)
  {
    seq(2 * nWave, i requires 0 <= i < 2 * nWave =>
      seq(nThickness, j requires 0 <= j < nThickness =>
        seq(nOuter, k requires 0 <= k < nOuter => Source3(rows, nWave, nThickness, i, j, k))))
  }

  predicate Shape3(sv: seq<seq<seq<real>>>, s0: nat, s1: nat, s2: nat) {
    |sv| == s0 &&
    forall i :: 0 <= i < s0 ==> |sv[i]| == s1 && forall j :: 0 <= j < s1 ==> |sv[i][j]| == s2
  }

  /** With 2L supervector rows every cell is in exactly one row, and the
      supervector can be read back from the rows. */
  lemma Rows3RoundTrip(sv: seq<seq<seq<real>>>, thickness: seq<real>, dlam: seq<real>, trailers: seq<Row>)
    requires Shape3(sv, 2 * |dlam|, |thickness|, |trailers|)
    ensures Rebuild3(Rows3(sv, 2 * |dlam|, thickness, dlam, trailers), |dlam|, |thickness|, |trailers|) == sv
  {
    var rows := Rows3(sv, 2 * |dlam|, thickness, dlam, trailers);
    forall i, j, k | 0 <= i < 2 * |dlam| && 0 <= j < |thickness| && 0 <= k < |trailers|
      ensures Source3(rows, |dlam|, |thickness|, i, j, k) == sv[i][j][k]
    {
      if i < |dlam| {
        RowCell3(sv, thickness, dlam, trailers, i, j, k);
      } else {
        RowCell3(sv, thickness, dlam, trailers, i - |dlam|, j, k);
      }
    }
    Rebuild3Of(rows, sv, |dlam|, |thickness|, |trailers|);
  }

  lemma Rebuild3Of(rows: seq<Row>, sv: seq<seq<seq<real>>>, nWave: nat, nThickness: nat, nOuter: nat)
    requires Shape3(sv, 2 * nWave, nThickness, nOuter)
    requires forall i, j, k :: 0 <= i < 2 * nWave && 0 <= j < nThickness && 0 <= k < nOuter ==>
      Source3(rows, nWave, nThickness, i, j, k) == sv[i][j][k]
    ensures Rebuild3(rows, nWave, nThickness, nOuter) == sv
  {
    var back := Rebuild3(rows, nWave, nThickness, nOuter);
    forall i | 0 <= i < |sv|
      ensures back[i] == sv[i]
    {
      forall j | 0 <= j < nThickness
        ensures back[i][j] == sv[i][j]
      {
      }
    }
  }

  lemma RowCell3(sv: seq<seq<seq<real>>>, thickness: seq<real>, dlam: seq<real>, trailers: seq<Row>,
                 ii: nat, jj: nat, kk: nat)
    requires Shape3(sv, 2 * |dlam|, |thickness|, |trailers|)
    requires ii < |dlam| && jj < |thickness| && kk < |trailers|
    ensures Cell(Rows3(sv, 2 * |dlam|, thickness, dlam, trailers), Position3(kk, |thickness|, jj, |dlam|, ii), 0)
         == sv[ii][jj][kk]
    ensures Cell(Rows3(sv, 2 * |dlam|, thickness, dlam, trailers), Position3(kk, |thickness|, jj, |dlam|, ii), 1)
         == sv[|dlam| + ii][jj][kk]
  {
    assert (2 * |dlam|) / 2 == |dlam|;
    Rows3At(sv, 2 * |dlam|, thickness, dlam, trailers, kk, jj, ii);
  }

  /** The wavelength loop runs to rows0 / 2 while Delta is read at ii + L:
      for non-empty loops over a supervector with enough columns and slices,
      the rows are complete (all L wavelengths) and well-indexed exactly
      when the supervector has 2L or 2L + 1 rows. */
  lemma Rows3CompleteIff(s0: nat, s1: nat, s2: nat, nOuter: nat, nThickness: nat, nWave: nat)
    requires nOuter > 0 && nThickness > 0 && nWave > 0 && s1 >= nThickness && s2 >= nOuter
    ensures (!Rows3Fail(s0, s1, s2, nOuter, nThickness, nWave) && s0 / 2 == nWave)
        <==> (s0 == 2 * nWave || s0 == 2 * nWave + 1)
  {
  }

  /** A supervector one row short of 2L is accepted without error, and its
      rows silently leave out the last wavelength. */
  lemma Rows3DropsLastWavelength(sv: seq<seq<seq<real>>>, thickness: seq<real>, dlam: seq<real>, trailers: seq<Row>)
    requires |trailers| > 0 && |thickness| > 0 && |dlam| >= 2
    ensures !Rows3Fail(2 * |dlam| - 1, |thickness|, |trailers|, |trailers|, |thickness|, |dlam|)
    ensures (2 * |dlam| - 1) / 2 == |dlam| - 1
    ensures |Rows3(sv, 2 * |dlam| - 1, thickness, dlam, trailers)| == |trailers| * (|thickness| * (|dlam| - 1))
  {
    assert (2 * |dlam| - 1) / 2 == |dlam| - 1;
    Rows3At(sv, 2 * |dlam| - 1, thickness, dlam, trailers, 0, 0, 0);
  }

  /** One-element trailers carrying the volume fraction. */
  function FractionTrailers(vfractions: seq<real>): (ts: seq<Row>)
    ensures |ts| == |vfractions|
    ensures forall k :: 0 <= k < |ts| ==> ts[k] == [vfractions[k]]
  {
    seq(|vfractions|, k requires 0 <= k < |vfractions| => [vfractions[k]])
  }

  /** Three-element trailers carrying (lambda0, gamma, amplitude). */
  function ParameterTrailers(sets: seq<OscillatorParams>): (ts: seq<Row>)
    ensures |ts| == |sets|
    ensures forall k :: 0 <= k < |ts| ==> ts[k] == [sets[k].lambda0, sets[k].gamma, sets[k].amplitude]
  {
    seq(|sets|, k requires 0 <= k < |sets| => [sets[k].lambda0, sets[k].gamma, sets[k].amplitude])
  }

  method SaveSupervectorRowsMaxwellGarnett(sv: array3<real>, thickness: seq<real>, vfractions: seq<real>, dlam: seq<real>)
    returns (r: Result<seq<Row>, SimError>)
    ensures r.Failure? <==> Rows3Fail(sv.Length0, sv.Length1, sv.Length2, |vfractions|, |thickness|, |dlam|)
    ensures r.Failure? ==> r.error == SaveFailed
    ensures r.Success? ==> r.value == Rows3(Snap3(sv), sv.Length0, thickness, dlam, FractionTrailers(vfractions))
  {
    r := SaveRows3(sv, thickness, dlam, FractionTrailers(vfractions));
  }

  method SaveSupervectorRowsLorentzian(sv: array3<real>, thickness: seq<real>, dlam: seq<real>, sets: seq<OscillatorParams>)
    returns (r: Result<seq<Row>, SimError>)
    ensures r.Failure? <==> Rows3Fail(sv.Length0, sv.Length1, sv.Length2, |sets|, |thickness|, |dlam|)
    ensures r.Failure? ==> r.error == SaveFailed
    ensures r.Success? ==> r.value == Rows3(Snap3(sv), sv.Length0, thickness, dlam, ParameterTrailers(sets))
  {
    r := SaveRows3(sv, thickness, dlam, ParameterTrailers(sets));
  }
}
