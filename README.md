# Ellipsometry forward simulation, modelled in Dafny

ANN_ellipsometry generates training data for a neural network that infers
thin-film properties from ellipsometric measurements. Its forward simulation
takes the optical constants of a substrate and a layer, given as tables of
wavelength, n and k in micrometres, and a list of requested wavelengths in
nanometres. It then:

- converts the tables to nanometres;
- keeps the requested wavelengths inside the span every table covers, and
  refuses to run when none of them is left;
- sweeps the layer thickness, and possibly a volume fraction or an
  oscillator parameter set;
- calls the thin-film solver for an air / layer / substrate stack at every
  kept wavelength;
- writes Psi into the top half of a "supervector" and Delta into the bottom
  half;
- flattens the supervector into the rows of a CSV file.

The model covers the three drivers:

- `run_simulation` (module `Simulation`): a plain layer.
- `run_simulation_maxwell_garnett` (module `MaxwellGarnett`): a layer with
  embedded nanoparticles, mixed by the Maxwell Garnett formula.
- `run_simulation_lorentzien` (modules `Lorentz` and `LorentzSimulation`): a
  layer whose index is corrected by a Lorentz oscillator. The oscillator's
  parameters are perturbed 30 times around the nanoparticle's nominal values.

It also covers:

- what the three drivers share (module `Sweep`);
- the loops that fill the supervector (module `Supervector`);
- the row-building part of the three `save_supervector*` functions (module
  `DataHandling`);
- the application logger's bounded message buffer (module `Logging`).

Modules `Wrappers`, `Squares` and `ComplexNumbers` are support: option and
result types, sign facts about squares, and complex arithmetic.

The collaborators the code calls into are parameters, bundled in
`Sweep.Optics`:

- the `tmm` solver `ellips`;
- scipy's `interp1d`;
- the degree/radian conversions.

The interpolator is a partial function. `InterpolatesOnSpan` says only that
it is defined inside the span of a table it accepts. Every call the drivers
make therefore carries the proof that no wavelength is ever extrapolated (see
`Simulation.NoExtrapolation`).

The drivers fill arrays as the code does: `array2` for the 2-D supervector,
`array3` for the 3-D ones. Their loops are methods whose postconditions tie
every cell to the solver call for its (wavelength, thickness, outer) index.

A driver hands the supervector to its save function, and the rows that
function produces are returned as `written`. For each row layout there is an
inverse, `Rebuild2` or `Rebuild3`. The round-trip lemmas show that the rows
determine the supervector.

## Model

| member | source | states |
|---|---|---|
| Sweep.Air | Projet/ellipsometry/simulation/simulation.py:11-21 | the ambient medium has index 1 + 0i at every wavelength |
| Sweep.Min | Projet/ellipsometry/simulation/simulation.py:56 | np.min: a lower bound of the sequence that is one of its elements |
| Sweep.Max | Projet/ellipsometry/simulation/simulation.py:57 | np.max: an upper bound of the sequence that is one of its elements |
| Sweep.Scaled | Projet/ellipsometry/simulation/simulation.py:46-47 | `*= 1000` keeps the length and multiplies every wavelength by 1000 |
| Sweep.ToNanometres | Projet/ellipsometry/simulation/simulation.py:46-47 | only the wavelength column is scaled; n and k are unchanged, and well-formedness is preserved both ways |
| Sweep.Nanometres | Projet/ellipsometry/simulation/simulation_maxwell_garnett.py:92-94 | every table is converted, in order; all are well formed after exactly when all were before |
| Sweep.ScaledExtremes | Projet/ellipsometry/simulation/simulation.py:46-57 | the minimum and maximum of the scaled wavelengths are 1000 times the original ones |
| Sweep.WindowLo | Projet/ellipsometry/simulation/simulation_maxwell_garnett.py:105 | the window's lower end is at least every table's minimum, and equal to one of them |
| Sweep.WindowHi | Projet/ellipsometry/simulation/simulation_maxwell_garnett.py:106 | the window's upper end is at most every table's maximum, and equal to one of them |
| Sweep.WindowIsIntersection | Projet/ellipsometry/simulation/simulation.py:56-57 | a wavelength is in [lo, hi] if and only if it is in the span of every table |
| Sweep.Filter | Projet/ellipsometry/simulation/simulation.py:58 | a wavelength is kept if and only if it was requested and lies in the window; the result is no longer than the input |
| Sweep.Kept | Projet/ellipsometry/simulation/simulation.py:58 | the positions the boolean mask selects: in range, strictly ascending, inside the window, and covering every position inside the window |
| Sweep.FilterIsMasked | Projet/ellipsometry/simulation/simulation.py:58 | the filtered sequence is the subsequence of the requested wavelengths at exactly the masked positions, in order |
| Sweep.FilterConcat | Projet/ellipsometry/simulation/simulation.py:58 | filtering distributes over concatenation, so the order of requests is kept |
| Sweep.FilterKeepsAll | Projet/ellipsometry/simulation/simulation.py:58 | requested wavelengths already inside the window are all kept, unchanged |
| Sweep.Prepare | Projet/ellipsometry/simulation/simulation.py:46-61 | a table interp1d would refuse gives MalformedTable, and only such a table does. Otherwise the tables are converted to nanometres and the window is [WindowLo, WindowHi] of the converted tables. The call fails exactly when filtering the requests by that window leaves nothing, and the error is then OutOfBounds carrying those two bounds. On success the waves are the filtered requests, they are non-empty, and they lie in every table's span |
| Sweep.WindowCovers | Projet/ellipsometry/simulation/simulation.py:50-58 | every wavelength the filter keeps lies in the span of every table |
| Supervector.SweepWavelengths | Projet/ellipsometry/simulation/simulation.py:72-80 | fresh psis and deltas arrays of length nwave, element ii being Psi and Delta of the solver call for wavelength ii |
| Supervector.Fill2 | Projet/ellipsometry/simulation/simulation.py:65-82 | a fresh 2L-by-nThickness array; cell (i, j) is Psi of wavelength i for i < L and Delta of wavelength i - L otherwise, at thickness j |
| Supervector.Fill3 | Projet/ellipsometry/simulation/simulation_maxwell_garnett.py:116-134 | a fresh 2L-by-nThickness-by-nOuter array with the same layout in every slice (jj, kk) |
| Supervector.FillThickness3 | Projet/ellipsometry/simulation/simulation_maxwell_garnett.py:121-134 | fills every cell of thickness column jj, for every outer index, and leaves every other column unchanged |
| Simulation.Tables | Projet/ellipsometry/simulation/simulation.py:43 | the tables in the order the window takes them: substrate, layer |
| Simulation.Point | Projet/ellipsometry/simulation/simulation.py:74-80 | the loop body is defined for every (wavelength, thickness) index the loops visit |
| Simulation.Layout | Projet/ellipsometry/simulation/simulation.py:79-82 | Psi of wavelength ii at thickness jj lands in row ii, its Delta in row nwave + ii, both in column jj |
| Simulation.RunSimulation | Projet/ellipsometry/simulation/simulation.py:37-90 | missing `layers` gives MissingArguments with nothing written; a preparation failure is passed on; otherwise the supervector is filled by the solver calls and the rows written are those of the returned supervector |
| Simulation.Simulate | Projet/ellipsometry/simulation/simulation.py:65-88 | fills the supervector, writes its rows, and the rows rebuild exactly the supervector |
| Simulation.NoExtrapolation | Projet/ellipsometry/simulation/simulation.py:50-76 | every wavelength handed to the solver lies in the substrate's and the layer's spans |
| MaxwellGarnett.Permittivity | Projet/ellipsometry/simulation/simulation_maxwell_garnett.py:47-48 | the permittivity is the conjugate of (n + ik)^2, that is (n^2 - k^2) - i 2nk |
| MaxwellGarnett.Mix | Projet/ellipsometry/simulation/simulation_maxwell_garnett.py:50 | None exactly when the Maxwell Garnett denominator is zero; otherwise the result times the denominator is perm2 times the numerator |
| MaxwellGarnett.MixAtZero | Projet/ellipsometry/simulation/simulation_maxwell_garnett.py:50 | when perm1 + 2 perm2 is nonzero, at volume fraction 0 the mixture is Some of the host permittivity perm2 |
| MaxwellGarnett.MixAtOne | Projet/ellipsometry/simulation/simulation_maxwell_garnett.py:50 | at volume fraction 1 the denominator is 3 perm2 (nonzero for a nonzero host) and the mixture is the inclusion permittivity perm1 |
| MaxwellGarnett.MixSamePhase | Projet/ellipsometry/simulation/simulation_maxwell_garnett.py:50 | for a fraction at which the denominator is nonzero (for any fraction, a nonzero phase, since the denominator is then 3 perm), mixing a phase with itself gives Some of that phase |
| MaxwellGarnett.Tables | Projet/ellipsometry/simulation/simulation_maxwell_garnett.py:88-89 | the tables in window order: substrate, layer, nanoparticle |
| MaxwellGarnett.HostIsLayer | Projet/ellipsometry/simulation/simulation_maxwell_garnett.py:125 | the particle's constants go in as (n1, k1) and the layer's as (n2, k2), so at fraction 0, when the particle permittivity plus twice the layer permittivity is nonzero, the layer's own permittivity is used |
| MaxwellGarnett.Point | Projet/ellipsometry/simulation/simulation_maxwell_garnett.py:124-131 | the loop body is defined for every (wavelength, thickness, fraction) index visited |
| MaxwellGarnett.Layout | Projet/ellipsometry/simulation/simulation_maxwell_garnett.py:130-134 | Psi of wavelength ii lands at [ii, jj, kk] and Delta at [nwave + ii, jj, kk], computed with vfractions[kk] |
| MaxwellGarnett.RunSimulationMaxwellGarnett | Projet/ellipsometry/simulation/simulation_maxwell_garnett.py:82-140 | missing `layers` or `vfractions` gives MissingArguments; a failure over the three tables is passed on; otherwise the supervector is filled and its rows, with the volume fraction as a fifth column, are written |
| MaxwellGarnett.Simulate | Projet/ellipsometry/simulation/simulation_maxwell_garnett.py:116-139 | fills the 3-D supervector, writes its rows, and the rows rebuild exactly the supervector |
| Lorentz.LorentzianContribution | Projet/ellipsometry/simulation/simulation_lorentz.py:46-51 | None exactly when (w^2 - l0^2)^2 + g^2 w^2 is zero; otherwise real part times it is A w^2 (w^2 - l0^2), imaginary part times it is A w^3 g |
| Lorentz.DenominatorPositive | Projet/ellipsometry/simulation/simulation_lorentz.py:49-50 | with nonzero damping and wavelength the denominator is positive |
| Lorentz.DenominatorZero | Projet/ellipsometry/simulation/simulation_lorentz.py:49-50 | the denominator vanishes exactly when w^2 == l0^2 and g == 0 or w == 0 |
| Lorentz.Resonance | Projet/ellipsometry/simulation/simulation_lorentz.py:49-51 | for nonzero lambda0 and gamma, at w == lambda0 the term is Some of the purely imaginary A lambda0 / g |
| Lorentz.Signs | Projet/ellipsometry/simulation/simulation_lorentz.py:49-51 | for positive amplitude, damping and wavelength and non-negative lambda0 (every nominal set, and every set perturbed by a valid draw, has lambda0 >= 405), the term is defined, its imaginary part is positive and its real part has the sign of w - lambda0 |
| Lorentz.Nominal | Projet/ellipsometry/simulation/simulation_lorentz.py:105-114 | Au.nk gives (500, 50, 0.150), Ag.nk gives (405, 40, 0.150), and every other name is refused |
| Lorentz.Perturb | Projet/ellipsometry/simulation/simulation_lorentz.py:121-125 | lambda0 is perturbed unclamped; gamma and amplitude are at least 1 and 0.01, at least their unclamped values, and equal to one of the two |
| Lorentz.ClampsInactive | Projet/ellipsometry/simulation/simulation_lorentz.py:120-125 | for both nominal materials and every R in [10, 100] the floors never take effect |
| Lorentz.GenerateParameterSets | Projet/ellipsometry/simulation/simulation_lorentz.py:117-126 | exactly 30 sets, set z being the perturbation by draw z, each above the floors |
| LorentzSimulation.Point | Projet/ellipsometry/simulation/simulation_lorentz.py:141-152 | the loop body is defined for every (wavelength, thickness, set) index visited |
| LorentzSimulation.Layout | Projet/ellipsometry/simulation/simulation_lorentz.py:151-155 | Psi of wavelength ii lands at [ii, jj, zz] and Delta at [nwave + ii, jj, zz], computed with the layer index corrected by set zz |
| LorentzSimulation.RunSimulationLorentzian | Projet/ellipsometry/simulation/simulation_lorentz.py:78-164 | missing `layers` gives MissingArguments; a failure over substrate and layer is passed on; an unknown material gives InvalidMaterial; otherwise 30 perturbed sets are returned, aligned with the supervector's last axis, and the supervector and its rows are computed from them |
| LorentzSimulation.Simulate | Projet/ellipsometry/simulation/simulation_lorentz.py:129-162 | fills the 3-D supervector, writes its rows with the three parameters as trailing columns, and the rows rebuild exactly the supervector |
| DataHandling.SaveSupervectorRows | Projet/ellipsometry/data_handling/data_handling.py:102-109 | fails (SaveFailed) exactly when a visited index is out of bounds; otherwise returns the rows, thickness-major |
| DataHandling.BlockRows2 | Projet/ellipsometry/data_handling/data_handling.py:108-109 | the rows for one thickness, failing exactly when the supervector lacks its column or a Delta row |
| DataHandling.Rows2At | Projet/ellipsometry/data_handling/data_handling.py:106-109 | there are nThickness * L rows, and row jj * L + ii is [Psi(ii, jj), Delta(ii, jj), dlam[ii], thickness[jj]] |
| DataHandling.Rebuild2 | Projet/ellipsometry/data_handling/data_handling.py:103-104 | the supervector read back from the rows: 2L by nThickness, Psi from column 0 and Delta from column 1 |
| DataHandling.Rows2RoundTrip | Projet/ellipsometry/data_handling/data_handling.py:103-109 | rebuilding the rows of a 2L-row supervector gives the supervector back |
| DataHandling.SaveRows3 | Projet/ellipsometry/data_handling/data_handling.py:142-149 | fails exactly when a visited index is out of bounds; otherwise the rows, outer-major then thickness |
| DataHandling.SlabRows3 | Projet/ellipsometry/data_handling/data_handling.py:145-149 | the rows for one outer index, failing exactly when, for non-empty thickness and Psi halves, the last visited thickness column, outer slice, Delta row or wavelength index is out of bounds |
| DataHandling.BlockRows3 | Projet/ellipsometry/data_handling/data_handling.py:146-149 | the rows for one (outer, thickness) pair, failing exactly when the last visited index is out of bounds |
| DataHandling.Rows3At | Projet/ellipsometry/data_handling/data_handling.py:143-149 | there are nOuter * nThickness * (rows0 / 2) rows, and each position holds the (ii, jj, kk) cell pair with its wavelength, thickness and trailer |
| DataHandling.Rebuild3 | Projet/ellipsometry/data_handling/data_handling.py:147-148 | the 3-D supervector read back from the rows: Psi from column 0, Delta from column 1 |
| DataHandling.Rows3RoundTrip | Projet/ellipsometry/data_handling/data_handling.py:143-149 | rebuilding the rows of a 2L-row 3-D supervector gives the supervector back |
| DataHandling.RowCell3 | Projet/ellipsometry/data_handling/data_handling.py:147-149 | for a 2L-row supervector, the row for (ii, jj, kk) holds sv[ii][jj][kk] in column 0 and sv[L + ii][jj][kk] in column 1 |
| DataHandling.Rows3CompleteIff | Projet/ellipsometry/data_handling/data_handling.py:146-148 | for non-empty outer, thickness and wavelength loops over a supervector with at least nThickness columns and nOuter slices, the rows are complete and well indexed exactly when the supervector has 2L or 2L + 1 rows |
| DataHandling.Rows3DropsLastWavelength | Projet/ellipsometry/data_handling/data_handling.py:146-148 | a supervector one row short of 2L is saved without error; the wavelength loop runs to L - 1, so there are nOuter * nThickness * (L - 1) rows and the last wavelength is missing |
| DataHandling.FractionTrailers | Projet/ellipsometry/data_handling/data_handling.py:144-149 | one trailing column per volume fraction, in order |
| DataHandling.ParameterTrailers | Projet/ellipsometry/data_handling/data_handling.py:214-219 | three trailing columns (lambda0, gamma, amplitude) per parameter set, in order |
| DataHandling.SaveSupervectorRowsMaxwellGarnett | Projet/ellipsometry/data_handling/data_handling.py:142-149 | fails exactly when a visited index is out of bounds; otherwise the rows with the volume fraction appended |
| DataHandling.SaveSupervectorRowsLorentzian | Projet/ellipsometry/data_handling/data_handling.py:212-219 | fails exactly when a visited index is out of bounds; otherwise the rows with the parameter set appended |
| Logging.Recent | Projet/ellipsometry/utils/logger.py:10 | the last min(n, 100) entries of a history, oldest first |
| Logging.BoundedAppend | Projet/ellipsometry/utils/logger.py:10-41 | never more than 100 entries, the new one last; below capacity the buffer grows by one keeping the rest, at capacity exactly the oldest is dropped |
| Logging.AppendRecent | Projet/ellipsometry/utils/logger.py:10-41 | appending to the recent window of a history gives the recent window of the extended history |
| Logging.EmitAllRecent | Projet/ellipsometry/utils/logger.py:10-41 | emitting any sequence of messages leaves exactly the last 100 messages ever emitted, in order |
| Logging.Logger.constructor | Projet/ellipsometry/utils/logger.py:5-10 | the buffer starts empty |
| Logging.Logger.EmitToBuffer | Projet/ellipsometry/utils/logger.py:30-41 | the formatted record is appended to the bounded buffer, which stays the last 100 of everything emitted |
| Logging.Logger.Log | Projet/ellipsometry/utils/logger.py:43-53 | one DEBUG record per call, so exactly one buffered entry is added |
| Logging.Logger.GetBuffer | Projet/ellipsometry/utils/logger.py:55-62 | returns a copy of the buffer, oldest first: the most recent 100 messages emitted; the logger is unchanged |

## Left out

- Loading `.nk` files and wavelength files is not modelled. The drivers receive the tables as loaded, in micrometres.
- Writing the CSV file is not modelled: no timestamped folder and no pandas DataFrame. The saved rows are returned as `written`.
- Time measurement (`perf_counter`) and the messages printed to the console are not modelled.
- The `tmm` solver, scipy's linear interpolation and the degree/radian conversions are not modelled. They are parameters (`Sweep.Optics`).
- In the Lorentz driver, the conversions `angle * pi / 180` and `* 180 / pi` are taken to be the same `toRadians` and `toDegrees` as `/ degree` in the other drivers.
- The square-root steps that turn a permittivity into an index (simulation_maxwell_garnett.py:52-53, simulation_lorentz.py:142-143) are not modelled. They are parameters: `recover` and `lorentzNk`. Floating-point square roots have no exact counterpart over `real`.
- Random numbers and fractional powers are not modelled. `np.random.uniform(10, 100)` and the powers 0.9 and 1.1 come in as `draw: nat -> Lorentz.Draw`. `ValidDraw` states the range.
- Floating-point rounding, NaN and infinity are not modelled. A division by zero, which yields NaN in numpy, is `None`.
- The in-place `lam *= 1000` is modelled as producing a new value, because the tables are not used after the driver returns.
- The file and console logging handlers, the formatter's timestamp text and the fact that every `Logger()` shares one module-level `logging` logger are not modelled. The formatter is the `format` parameter, and `created` is passed in.
- The GUI, plotting and the network training code are not modelled.
- The drivers' default arguments are not modelled: `angle=70` and the default file names. The caller always supplies the angle; the tables for the file names arrive already loaded. The `None` defaults of `layers` and `vfractions` are modelled as `Option` arguments, together with their `MissingArguments` error.
- The code and a docstring disagree in one place; the model follows the code. The driver passes the particle as (n1, k1) and the layer as (n2, k2), so perm2, the layer, is the host (simulation_maxwell_garnett.py:125). The docstring of `maxwell_garnett` calls (n1, k1) the matrix (simulation_maxwell_garnett.py:37-40).
- The code computes the permittivity as (n^2 - k^2) - i 2nk, the conjugate of (n + ik)^2 (simulation_maxwell_garnett.py:47-48). `MaxwellGarnett.Permittivity` states exactly this.
- At simulation_maxwell_garnett.py:52 the code adds the complex `perm_effect`, not its real part, to its modulus inside `np.sqrt`. This step belongs to the `recover` parameter and is not modelled.
- `SaveSupervectorRows`, `SaveSupervectorRowsMaxwellGarnett`, `SaveSupervectorRowsLorentzian`: the exception numpy raises on a bad index is the single error `SaveFailed`. An I/O failure while writing is not modelled.
