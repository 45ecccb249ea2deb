/** What the three sweep drivers share: the optical-constant tables, the
    valid-wavelength window, the wavelength filter, the interpolated indices
    and the call to the thin-film solver. The solver, the interpolators and
    the degree/radian conversions are parameters (`Optics`). */
module Sweep {
  import opened Wrappers
  import opened ComplexNumbers

  /** The `layers` argument: the layer's optical constants (as loaded) and
      the thicknesses to sweep. */
  datatype Layers = Layers(material: NkTable, thicknessRange: seq<real>)

  /** Layer thickness as handed to the solver; the ambient and the substrate
      are semi-infinite. */
  datatype Thickness = Infinite | Finite(nm: real)

  /** The two ellipsometric angles returned by the solver. */
  datatype PsiDelta = PsiDelta(psi: real, delta: real)

  /** An optical-constant table as loaded: wavelengths with refractive index
      n and extinction k. */
  datatype NkTable = NkTable(lam: seq<real>, n: seq<real>, k: seq<real>)

  datatype SimError =
    | MissingArguments        // a required keyword argument was None
    | MalformedTable          // the interpolator refuses the table
    | OutOfBounds(lo: real, hi: real)  // no requested wavelength in the window
    | InvalidMaterial         // unknown nanoparticle material
    | SaveFailed              // an index error while building the saved rows

  /** The foreign collaborators: the `ellips` solver (indices, thicknesses,
      angle in radians, wavelength), the linear interpolator, and the two
      angle conversions. The interpolator is partial: it is only ever asked
      about points it is defined at. */
  datatype Optics = Optics(
    ellips: (seq<Complex>, seq<Thickness>, real, real) -> PsiDelta,
    interp: (seq<real>, seq<real>, real) --> real,
    toRadians: real -> real,
    toDegrees: real -> real)

  /** The interpolator is defined inside the span of any table it accepts. */
  ghost predicate InterpolatesOnSpan(o: Optics) {
    forall xs: seq<real>, ys: seq<real>, q: real ::
      2 <= |xs| && |ys| == |xs| && Min(xs) <= q <= Max(xs) ==> o.interp.requires(xs, ys, q)
  }

  /** The ambient medium: refractive index 1 + 0i at every wavelength. */
  function Air(w: real): (r: Complex)
    ensures r == One
  {
    One
  }

  function Min(xs: seq<real>): (m: real)
    requires |xs| > 0
    ensures forall i :: 0 <= i < |xs| ==> m <= xs[i]
    ensures exists i :: 0 <= i < |xs| && m == xs[i]
  {
    if |xs| == 1 then xs[0]
    else
      var rest := Min(xs[1..]);
      if xs[0] <= rest then xs[0] else rest
  }

  function Max(xs: seq<real>): (m: real)
    requires |xs| > 0
    ensures forall i :: 0 <= i < |xs| ==> xs[i] <= m
    ensures exists i :: 0 <= i < |xs| && m == xs[i]
  {
    if |xs| == 1 then xs[0]
    else
      var rest := Max(xs[1..]);
      if xs[0] >= rest then xs[0] else rest
  }

  /** The interpolator accepts the table: at least two points, and as many
      n and k values as wavelengths. */
  predicate WellFormed(t: NkTable) {
    2 <= |t.lam| && |t.n| == |t.lam| && |t.k| == |t.lam|
  }

  /** Micrometres to nanometres. */
  function Scaled(xs: seq<real>): (ys: seq<real>)
    ensures |ys| == |xs|
    ensures forall i :: 0 <= i < |xs| ==> ys[i] == 1000.0 * xs[i]
  {
    seq(|xs|, i requires 0 <= i < |xs| => 1000.0 * xs[i])
  }

  function ToNanometres(t: NkTable): (u: NkTable)
    ensures u.n == t.n && u.k == t.k && u.lam == Scaled(t.lam)
    ensures WellFormed(u) <==> WellFormed(t)
  {
    NkTable(Scaled(t.lam), t.n, t.k)
  }

  /** Scaling commutes with taking the extremes. */
  lemma ScaledExtremes(xs: seq<real>)
    requires |xs| > 0
    ensures Min(Scaled(xs)) == 1000.0 * Min(xs)
    ensures Max(Scaled(xs)) == 1000.0 * Max(xs)
  {
    var ys := Scaled(xs);
    var i :| 0 <= i < |ys| && Min(ys) == ys[i];
    var j :| 0 <= j < |xs| && Min(xs) == xs[j];
    assert Min(ys) <= ys[j];
    var k :| 0 <= k < |ys| && Max(ys) == ys[k];
    var l :| 0 <= l < |xs| && Max(xs) == xs[l];
    assert Max(ys) >= ys[l];
  }

  predicate AllWellFormed(ts: seq<NkTable>) {
    forall i :: 0 <= i < |ts| ==> WellFormed(ts[i])
  }

  /** The lower end of the window: the largest of the tables' minima. */
  function WindowLo(ts: seq<NkTable>): (lo: real)
    requires |ts| > 0 && AllWellFormed(ts)
    ensures forall i :: 0 <= i < |ts| ==> Min(ts[i].lam) <= lo
    ensures exists i :: 0 <= i < |ts| && lo == Min(ts[i].lam)
  {
    if |ts| == 1 then Min(ts[0].lam)
    else
      var rest := WindowLo(ts[1..]);
      if Min(ts[0].lam) >= rest then Min(ts[0].lam) else rest
  }

  /** The upper end of the window: the smallest of the tables' maxima. */
  function WindowHi(ts: seq<NkTable>): (hi: real)
    requires |ts| > 0 && AllWellFormed(ts)
    ensures forall i :: 0 <= i < |ts| ==> hi <= Max(ts[i].lam)
    ensures exists i :: 0 <= i < |ts| && hi == Max(ts[i].lam)
  {
    if |ts| == 1 then Max(ts[0].lam)
    else
      var rest := WindowHi(ts[1..]);
      if Max(ts[0].lam) <= rest then Max(ts[0].lam) else rest
  }

  predicate InSpan(t: NkTable, w: real)
    requires WellFormed(t)
  {
    Min(t.lam) <= w <= Max(t.lam)
  }

  /** The window is exactly the intersection of the tables' spans. */
  lemma WindowIsIntersection(ts: seq<NkTable>, w: real)
    requires |ts| > 0 && AllWellFormed(ts)
    ensures WindowLo(ts) <= w <= WindowHi(ts) <==> forall i :: 0 <= i < |ts| ==> InSpan(ts[i], w)
  {
    if forall i :: 0 <= i < |ts| ==> InSpan(ts[i], w) {
      var a :| 0 <= a < |ts| && WindowLo(ts) == Min(ts[a].lam);
      var b :| 0 <= b < |ts| && WindowHi(ts) == Max(ts[b].lam);
      assert InSpan(ts[a], w) && InSpan(ts[b], w);
    }
  }

  predicate InWindow(w: real, lo: real, hi: real) {
    lo <= w && w <= hi
  }

  /** The requested wavelengths that lie in [lo, hi], in their original order. */
  function Filter(ds: seq<real>, lo: real, hi: real): (r: seq<real>)
    ensures forall w :: w in r <==> w in ds && InWindow(w, lo, hi)
    ensures |r| <= |ds|
  {
    if |ds| == 0 then []
    else
      var last := ds[|ds| - 1];
      Filter(ds[..|ds| - 1], lo, hi) + (if InWindow(last, lo, hi) then [last] else [])
  }

  /** The positions the boolean mask (lo <= ds) & (ds <= hi) selects, ascending. */
  function Kept(ds: seq<real>, lo: real, hi: real): (ks: seq<int>)
    ensures forall k :: 0 <= k < |ks| ==> 0 <= ks[k] < |ds| && InWindow(ds[ks[k]], lo, hi)
    ensures forall k, l :: 0 <= k < l < |ks| ==> ks[k] < ks[l]
    ensures forall i :: 0 <= i < |ds| && InWindow(ds[i], lo, hi) ==> i in ks
  {
    if |ds| == 0 then []
    else
      var n := |ds| - 1;
      var prefix := ds[..n];
      var ks := Kept(prefix, lo, hi);
      assert forall i :: 0 <= i < n ==> prefix[i] == ds[i];
      ks + (if InWindow(ds[n], lo, hi) then [n] else [])
  }

  /** The filtered sequence is the subsequence of `ds` at the masked positions. */
  lemma {:induction false} FilterIsMasked(ds: seq<real>, lo: real, hi: real)
    ensures |Filter(ds, lo, hi)| == |Kept(ds, lo, hi)|
    ensures forall k :: 0 <= k < |Kept(ds, lo, hi)| ==>
      Filter(ds, lo, hi)[k] == ds[Kept(ds, lo, hi)[k]]
  {
    if |ds| > 0 {
      var n := |ds| - 1;
      var prefix := ds[..n];
      FilterIsMasked(prefix, lo, hi);
      var f, ks := Filter(ds, lo, hi), Kept(ds, lo, hi);
      var f', ks' := Filter(prefix, lo, hi), Kept(prefix, lo, hi);
      assert f == f' + (if InWindow(ds[n], lo, hi) then [ds[n]] else []);
      assert ks == ks' + (if InWindow(ds[n], lo, hi) then [n] else []);
      forall k | 0 <= k < |ks'|
        ensures f[k] == ds[ks[k]]
      {
        assert f[k] == f'[k] == prefix[ks'[k]];
      }
    }
  }

  /** Filtering distributes over concatenation, so it keeps the order. */
  lemma {:induction false} FilterConcat(a: seq<real>, b: seq<real>, lo: real, hi: real)
    ensures Filter(a + b, lo, hi) == Filter(a, lo, hi) + Filter(b, lo, hi)
  {
    if |b| > 0 {
      var n := |b| - 1;
      assert (a + b)[..|a + b| - 1] == a + b[..n];
      FilterConcat(a, b[..n], lo, hi);
    } else {
      assert a + b == a;
    }
  }

  /** Wavelengths already inside the window are all kept. */
  lemma {:induction false} FilterKeepsAll(ds: seq<real>, lo: real, hi: real)
    requires forall i :: 0 <= i < |ds| ==> InWindow(ds[i], lo, hi)
    ensures Filter(ds, lo, hi) == ds
  {
    if |ds| > 0 {
      var n := |ds| - 1;
      FilterKeepsAll(ds[..n], lo, hi);
      assert ds[..n] + [ds[n]] == ds;
    }
  }

  /** The tables after the unit change, the window, and the wavelengths kept. */
  datatype Domain = Domain(tables: seq<NkTable>, lo: real, hi: real, waves: seq<real>)

  /** Every kept wavelength lies in the span of every table. */
  predicate Covers(dom: Domain) {
    AllWellFormed(dom.tables) &&
    forall i, j :: 0 <= i < |dom.tables| && 0 <= j < |dom.waves| ==> InSpan(dom.tables[i], dom.waves[j])
  }

  /** The common preparation: scale the tables to nanometres, refuse a table
      the interpolator would refuse, keep the requested wavelengths inside the
      window, and refuse an empty result. */
  function Prepare(raw: seq<NkTable>, dlam: seq<real>): (r: Result<Domain, SimError>)
    requires |raw| > 0
    ensures r == Failure(MalformedTable) <==> !AllWellFormed(raw)
    ensures r.Success? ==>
      && |r.value.tables| == |raw|
      && (forall i :: 0 <= i < |raw| ==> r.value.tables[i] == ToNanometres(raw[i]))
      && r.value.waves == Filter(dlam, r.value.lo, r.value.hi)
      && |r.value.waves| > 0
      && Covers(r.value)
    ensures r.Failure? && r.error.OutOfBounds? ==>
      Filter(dlam, r.error.lo, r.error.hi) == [] && AllWellFormed(raw)
    ensures r.Failure? ==> r.error == MalformedTable || r.error.OutOfBounds?
    ensures r.Success? ==> r.value.lo == WindowLo(r.value.tables) && r.value.hi == WindowHi(r.value.tables)
    ensures AllWellFormed(raw) ==>
      var ts := Nanometres(raw);
      && (r.Failure? <==> Filter(dlam, WindowLo(ts), WindowHi(ts)) == [])
      && (r.Failure? ==> r.error == OutOfBounds(WindowLo(ts), WindowHi(ts)))
  {
    if !AllWellFormed(raw) then Failure(MalformedTable)
    else
      var ts := Nanometres(raw);
      var lo := WindowLo(ts);
      var hi := WindowHi(ts);
      var waves := Filter(dlam, lo, hi);
      if |waves| == 0 then Failure(OutOfBounds(lo, hi))
      else
        WindowCovers(ts, dlam);
        Success(Domain(ts, lo, hi, waves))
  }

  function Nanometres(raw: seq<NkTable>): (ts: seq<NkTable>)
    ensures |ts| == |raw|
    ensures forall i :: 0 <= i < |raw| ==> ts[i] == ToNanometres(raw[i])
    ensures AllWellFormed(ts) <==> AllWellFormed(raw)
  {
    seq(|raw|, i requires 0 <= i < |raw| => ToNanometres(raw[i]))
  }

  /** Every wavelength the filter keeps lies in every table's span. */
  lemma WindowCovers(ts: seq<NkTable>, dlam: seq<real>)
    requires |ts| > 0 && AllWellFormed(ts)
    ensures Covers(Domain(ts, WindowLo(ts), WindowHi(ts), Filter(dlam, WindowLo(ts), WindowHi(ts))))
  {
    var waves := Filter(dlam, WindowLo(ts), WindowHi(ts));
    forall i, j | 0 <= i < |ts| && 0 <= j < |waves|
      ensures InSpan(ts[i], waves[j])
    {
      assert waves[j] in waves;
      WindowIsIntersection(ts, waves[j]);
    }
  }

  /** A table's interpolated complex index n + ik at wavelength w. */
  function Index(o: Optics, t: NkTable, w: real): Complex
    requires InterpolatesOnSpan(o) && WellFormed(t) && InSpan(t, w)
  {
    Complex(o.interp(t.lam, t.n, w), o.interp(t.lam, t.k, w))
  }

  /** One solver call for the stack air / layer / substrate, with the angles
      converted back to degrees. */
  function Solve(o: Optics, angle: real, layer: Complex, substrate: Complex, thickness: real, w: real): PsiDelta {
    var e := o.ellips([Air(w), layer, substrate], [Infinite, Finite(thickness), Infinite], o.toRadians(angle), w);
    PsiDelta(o.toDegrees(e.psi), o.toDegrees(e.delta))
  }
}
