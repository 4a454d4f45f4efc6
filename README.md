# BBPipe component separation, modelled in Dafny

This project models the core of the BBPower component-separation stage
(`BBCompSep`) of the BBPipe B-mode pipeline, together with the `Bandpass`
class it builds for each frequency channel and the custom binning of the
map-based C_ell estimation stage. What is modelled:

- **Setup** (`parse_sacc_file`). This covers:
  - one `Bandpass` per channel, with trapezoid frequency weights;
  - the ell mask `ls > 1`;
  - the size checks;
  - the scatter of windows, data and covariance into arrays indexed by bandpower and by packed channel pair;
  - the unpacking of the data into symmetric `nmaps x nmaps` matrices;
  - the reshape of the covariance.
- **Packing of channel pairs**. This covers `triu_indices`, `ncross = n(n+1)/2`, `matrix_to_vector`, `vector_to_matrix` and `vector_indices`.
- **Forward model** (`model`). The CMB term is `r * C_tensor + C_lensing`. Each foreground component adds an auto term and epsilon-weighted cross terms. The sum is passed through the bandpower window of the channel pair and written symmetrically.
- **Likelihood**. This covers the chi-square residual `chi_sq_dx` and `lnprob`, including its short-circuit on a non-finite prior.
- **`Bandpass`**. This covers:
  - the constructor: the weighted response, `nu_mean`, the phase file and the systematics flags;
  - `convolve_sed`, on the real path and the complex path;
  - `get_rotation_matrix`, `rotate_cells_mat` and `rotate_cells`.
- **Custom binning** (`binning_definition(custom_bins=True)`): the multipole, weight and bandpower-label arrays handed to NaMaster.

Layout, one module per file:

| file | module | contents |
|---|---|---|
| `wrappers.dfy` | `Wrappers` | `Option`, `Result` |
| `linalg.dfy` | `LinAlg` | vectors, matrices, sums, dot products |
| `packing.dfy` | `Packing` | pair enumeration and the two packings |
| `bandpasses.dfy` | `Bandpasses` | the `Bandpass` class and the rotations |
| `sacc_setup.dfy` | `SaccSetup` | `parse_sacc_file` |
| `forward_model.dfy` | `ForwardModel` | `model` |
| `likelihood.dfy` | `Likelihood` | `chi_sq_dx`, `lnprob` |
| `binning.dfy` | `ClBinning` | the custom bins |

Modelling choices:

- **Imperative code.** Code that fills NumPy arrays in place is written as methods over Dafny arrays. Each method is proved equal to a specification function of its inputs, and the properties are proved about those functions. This applies to the scatter loop of the setup, `model`'s double loop over channel pairs, `vector_to_matrix`, the binning `while` loop and the constructor's loop over the parameters block.
- **Numbers.** Floating point is modelled as exact `real` arithmetic.
- **Functions the source calls but this model does not compute.** These come in as function-valued parameters:
  - the CMB `K_RJ` SED, `sqrt`, `cos`, `sin` and `pi` (`Bandpasses.Primitives`);
  - the interpolated phase tables;
  - the prior and parameter builder of the parameter manager;
  - the H&L residual.

## Model

| member | source | states |
|---|---|---|
| Packing.NCrossClosedForm | bbpower/compsep.py:76-77 | the number of enumerated upper-triangle pairs equals `(nmaps * (nmaps + 1)) // 2` |
| Packing.TriuIndicesAt | bbpower/compsep.py:76 | every pair i <= j < n appears in `triu_indices` at its packed position, which is below ncross |
| Packing.TriuIndicesInverse | bbpower/compsep.py:76 | every packed position below ncross holds a pair i <= j < n whose packed position it is |
| Packing.TriuIndicesBijection | bbpower/compsep.py:76-77 | `triu_indices(n)` is a bijection between the ncross positions and the pairs i <= j |
| Packing.PairIndexInjective | bbpower/compsep.py:76 | two different upper-triangle pairs never share a packed position |
| Packing.MatrixToVector | bbpower/compsep.py:37-38 | the packed vector has ncross entries, and entry PairIndex(i, j) is `mat[i, j]` |
| Packing.StackToVectors | bbpower/compsep.py:37-38 | the leading `...` axis: one packed row per matrix of the stack |
| Packing.PackStackAt | bbpower/compsep.py:37-38 | after `.flatten()`, entry b * ncross + PairIndex(i, j) is entry (i, j) of matrix b |
| Packing.Unpack | bbpower/compsep.py:41-44 | the 1-D unpacking is an nmaps x nmaps matrix; what it holds is stated by UnpackSymmetric, PackUnpack and UnpackPack |
| Packing.UnpackSymmetric | bbpower/compsep.py:40-44 | the unpacked matrix is symmetric, and its diagonal holds the stored value, not twice it |
| Packing.PackUnpack | bbpower/compsep.py:37-44 | packing an unpacked vector gives the vector back |
| Packing.UnpackPack | bbpower/compsep.py:37-44 | a symmetric matrix is rebuilt exactly from its packed upper triangle |
| Packing.MirrorUpper | bbpower/compsep.py:44 | `m + m.T - diag(m)` of the filled upper triangle is the symmetric unpacked matrix |
| Packing.UnpackVector | bbpower/compsep.py:41-44 | the 1-D branch of vector_to_matrix, filled in place, returns the symmetric unpacking of the vector |
| Packing.FillUpperSlice | bbpower/compsep.py:47 | writing one slice's upper triangle changes exactly those entries |
| Packing.MirrorSlice | bbpower/compsep.py:48-49 | the mirror of one slice reads the old slice and changes no other slice |
| Packing.UnpackRows | bbpower/compsep.py:45-49 | the 2-D branch, filled in place, returns one symmetric unpacking per row |
| Packing.VectorToMatrix | bbpower/compsep.py:40-52 | 1-D gives one matrix and 2-D gives a stack; any other rank is an error; a row length that does not broadcast is an error |
| Packing.VectorIndices | bbpower/compsep.py:111 | entry [i, j] of `vector_indices` is the packed position of the unordered pair {i, j} |
| Packing.VectorIndicesEnumerate | bbpower/compsep.py:111 | the table is symmetric, and each position below ncross is hit by exactly one pair i <= j |
| SaccSetup.TrapezoidWeights | bbpower/compsep.py:83-87 | `dnu` is returned exactly when there are at least two frequencies, and it equals the trapezoid weights |
| SaccSetup.TrapezoidPositive | bbpower/compsep.py:84-87 | on increasing frequencies every weight is positive |
| SaccSetup.TrapezoidTotal | bbpower/compsep.py:84-87 | the weights sum to the band width plus half of each end interval |
| SaccSetup.TrapezoidPrefix | bbpower/compsep.py:84-87 | the closed form of every prefix sum of the weights (induction behind TrapezoidTotal) |
| SaccSetup.MakeBandpass | bbpower/compsep.py:88-89 | the new Bandpass is constructed from the tracer's z and Nz, its weights, and channel number i_t + 1 |
| SaccSetup.CollectBandpasses | bbpower/compsep.py:81-89 | success exactly when every tracer has at least two frequencies; otherwise the first tracer without two frequencies is reported; on success, bandpass i is built from tracer i with number i + 1 |
| SaccSetup.AppendBandpass | bbpower/compsep.py:89 | one more bandpass, built from the next tracer, keeps every earlier one as it was |
| SaccSetup.AllBuiltSnoc | bbpower/compsep.py:81-89 | appending the next tracer's bandpass keeps "bandpass i is built from tracer i" |
| SaccSetup.Select | bbpower/compsep.py:93-94 | boolean-mask indexing keeps one entry per multipole above 1 |
| SaccSetup.SelectMembers | bbpower/compsep.py:93-94 | `bpw_l` holds exactly the multipoles of the first window that are above 1 |
| SaccSetup.SelectAligned | bbpower/compsep.py:93-115 | the same mask applied to the ells and to a window keeps matching positions together |
| SaccSetup.MaskedWindow | bbpower/compsep.py:115 | a masked window has one weight per entry of `bpw_l` |
| SaccSetup.LastWith | bbpower/compsep.py:113-116 | finds the last spectrum written to a pair slot, and is None exactly when no spectrum maps there |
| SaccSetup.WindowTable | bbpower/compsep.py:97-115 | the windows array is ncross x n_bpws x len(bpw_l) |
| SaccSetup.DataTable | bbpower/compsep.py:106-116 | the `v2d` array is n_bpws x ncross |
| SaccSetup.CovBlocks | bbpower/compsep.py:110-123 | the `cv2d` array has the shape n_bpws x ncross x n_bpws x ncross |
| SaccSetup.Reshape4At | bbpower/compsep.py:130 | after the reshape, entry (b * ncross + x, b2 * ncross + x2) is `cv2d[b, x, b2, x2]` |
| SaccSetup.Reshape4Shape | bbpower/compsep.py:130 | `bbcovar` is square, of side n_bpws * ncross |
| SaccSetup.WriteWindows | bbpower/compsep.py:114-115 | writes the windows of one pair slot and leaves every other slot alone |
| SaccSetup.WriteColumn | bbpower/compsep.py:116-119 | `v2d[:, x] = col` changes column x only |
| SaccSetup.WithColumn | bbpower/compsep.py:116-119 | the matrix with column x replaced by col, every other entry kept |
| SaccSetup.WriteCovBlock | bbpower/compsep.py:123 | writes block (x, x2) of `cv2d` and nothing else |
| SaccSetup.Gathered | bbpower/compsep.py:116 | `v[ndx]` has n_bpws entries |
| SaccSetup.CovBlock | bbpower/compsep.py:123 | `cv[ndx, :][:, ndxb]` is n_bpws x n_bpws |
| SaccSetup.WriteCovRow | bbpower/compsep.py:122-123 | the inner loop over `order` leaves block (slot(e), y2) holding the covariance of the last spectrum mapped to y2, and leaves other rows alone |
| SaccSetup.ParseSpectra | bbpower/compsep.py:93-130 | the checks in source order (no window, no spectrum, mean length != n_bpws * ncross, the first entry whose ells differ); success exactly when all checks pass, and then the stored setup is the scatter of the file |
| SaccSetup.Scatter | bbpower/compsep.py:97-130 | filling the arrays yields every stored field: windows, `vector_indices`, `bbdata`, noise and fiducial (H&L only) and `bbcovar` |
| SaccSetup.Allocate | bbpower/compsep.py:97-110 | the zero buffers have the source's shapes and are all zero |
| SaccSetup.Assemble | bbpower/compsep.py:126-130 | unpacking and reshaping the filled buffers gives the stored setup |
| SaccSetup.Zeros | bbpower/compsep.py:106-110 | an all-zero matrix of the given shape |
| SaccSetup.CovBlocksAt | bbpower/compsep.py:122-123 | the covariance buffer after the first k outer passes, entry by entry |
| SaccSetup.CovBlocksComplete | bbpower/compsep.py:113-123 | after every outer pass the buffer is the full covariance table |
| SaccSetup.ZerosKept | bbpower/compsep.py:106-109 | an all-zero array reads back as the zero matrix |
| SaccSetup.StartEmpty | bbpower/compsep.py:97-110 | freshly zeroed buffers are the scatter's state before any entry |
| SaccSetup.ScatterLoop | bbpower/compsep.py:113-123 | the loop over `order` takes the buffers from empty to the full tables |
| SaccSetup.ScatterEntry | bbpower/compsep.py:113-123 | one spectrum of `order` moves every buffer from its state after k entries to its state after k + 1 |
| SaccSetup.StepWindows | bbpower/compsep.py:114-115 | one spectrum's windows pass, stated as a whole-table step |
| SaccSetup.StepColumn | bbpower/compsep.py:116-119 | one spectrum's column write, stated as a whole-table step |
| SaccSetup.StepCov | bbpower/compsep.py:122-123 | one spectrum's covariance row, stated as a whole-table step |
| SaccSetup.WindowTableStep | bbpower/compsep.py:114-115 | one more spectrum replaces exactly its own slot with its masked windows |
| SaccSetup.WindowRows | bbpower/compsep.py:114-115 | row b is the masked window `ndx[b]` |
| SaccSetup.LastWithStep | bbpower/compsep.py:113-116 | the last writer of a slot after k + 1 entries is entry k if it maps there, else the earlier last writer |
| SaccSetup.DataTableStep | bbpower/compsep.py:116 | one more spectrum overwrites exactly its own column |
| SaccSetup.CovEntryStep | bbpower/compsep.py:122-123 | one more outer pass sets exactly its own rows of `cv2d` |
| SaccSetup.Rows | bbpower/compsep.py:126-129 | a 2-D array read back as a matrix, entry by entry |
| SaccSetup.Contents3 | bbpower/compsep.py:97 | the windows array read back as a tensor, entry by entry |
| SaccSetup.Contents4 | bbpower/compsep.py:110 | the covariance array read back, entry by entry |
| SaccSetup.BlocksEq | bbpower/compsep.py:110 | extensional equality of covariance tables |
| SaccSetup.LastWriterIsOwn | bbpower/compsep.py:113-123 | when every spectrum has its own pair, each spectrum is the last writer of its own slot |
| SaccSetup.DataLandsInSlot | bbpower/compsep.py:116 | with distinct pairs, `v2d[b, slot(e)]` is the data point `ndx[b]` of spectrum e |
| SaccSetup.WindowLandsInSlot | bbpower/compsep.py:115 | with distinct pairs, `windows[slot(e), b]` is the masked window `ndx[b]` of spectrum e |
| SaccSetup.CovLandsInBlock | bbpower/compsep.py:122-130 | with distinct pairs, `bbcovar` at (b * ncross + slot(e), b2 * ncross + slot(e2)) is `cv[ndx_e[b], ndx_e2[b2]]` |
| SaccSetup.BlockOfOwnSlots | bbpower/compsep.py:122-123 | the same fact stated on `cv2d` before the reshape |
| SaccSetup.UncoveredSlotIsZero | bbpower/compsep.py:97-116 | a pair slot that no spectrum maps to keeps zero windows and zero data |
| SaccSetup.UncoveredCovIsZero | bbpower/compsep.py:110-130 | a pair slot no spectrum maps to has zero rows and zero columns in `bbcovar` |
| SaccSetup.CovTableSymmetric | bbpower/compsep.py:122-130 | a symmetric input covariance gives a symmetric `bbcovar` |
| SaccSetup.SetupDataMatrix | bbpower/compsep.py:116-126 | `bbdata[b, t1, t2]` and `bbdata[b, t2, t1]` both hold the data point `ndx[b]` of the spectrum of (t1, t2) |
| SaccSetup.ParseSaccFile | bbpower/compsep.py:54-132 | a tracer with fewer than two frequencies fails first; otherwise every bandpass is built, and success comes exactly when the checks pass, with the stored setup as described above |
| ForwardModel.ModelTensor | bbpower/compsep.py:172-203 | the model as a value: an n_bpws x nmaps x nmaps tensor whose entry (b, i, j) is row b of the window of the pair {i, j} dotted with that pair's spectrum |
| ForwardModel.Model | bbpower/compsep.py:172-203 | the array filled pair by pair equals the model tensor: entry (b, i, j) is the window of the pair {i, j} at bin b, dotted with that pair's spectrum |
| ForwardModel.StorePair | bbpower/compsep.py:183-201 | handling one more pair t1 <= t2 fills both (t1, t2) and (t2, t1) and keeps everything filled before |
| ForwardModel.WritePair | bbpower/compsep.py:198-201 | writes `cls[:, t1, t2]` and `cls[:, t2, t1]` and nothing else |
| ForwardModel.PairModel | bbpower/compsep.py:185-195 | the accumulating loop over components returns the pair's spectrum |
| ForwardModel.AddComponent | bbpower/compsep.py:186-195 | one component's auto term and cross terms take the running sum from c components to c + 1 |
| ForwardModel.AddCrossTerms | bbpower/compsep.py:190-195 | the loop over the cross entries of one component adds each epsilon-weighted cross term to the running sum, in order |
| ForwardModel.AddCrossesSymmetric | bbpower/compsep.py:190-195 | the cross terms of a component are the same with the two channels swapped |
| ForwardModel.AddComponentsSymmetric | bbpower/compsep.py:186-195 | the sum over components is the same with the two channels swapped |
| ForwardModel.PairSpectrumSymmetric | bbpower/compsep.py:185-195 | the pair spectrum is symmetric in (t1, t2) |
| ForwardModel.ModelSymmetric | bbpower/compsep.py:180-203 | the model is symmetric in its last two axes |
| ForwardModel.AddCrossesOfZero | bbpower/compsep.py:190-195 | without foregrounds the cross terms add nothing |
| ForwardModel.AddComponentsOfZero | bbpower/compsep.py:186-195 | without foregrounds the components add nothing |
| ForwardModel.ForegroundFreeSpectrum | bbpower/compsep.py:176-195 | without foregrounds every pair's spectrum is `cmb_bmodes` |
| ForwardModel.WindowedCmb | bbpower/compsep.py:176-197 | the window of `r * C_tensor + C_lensing` is r times the windowed tensor plus the windowed lensing |
| ForwardModel.ForegroundFreeEntry | bbpower/compsep.py:176-197 | without foregrounds one model entry is the windowed `r * C_tensor + C_lensing` |
| ForwardModel.ForegroundFreeModel | bbpower/compsep.py:172-203 | without foregrounds every entry of the model is linear in r, with the windowed tensor and lensing templates as coefficients |
| Likelihood.Residual | bbpower/compsep.py:210 | `bbdata - model_cls`, entry by entry |
| Likelihood.ChiSqDx | bbpower/compsep.py:205-210 | the residual has n_bpws * ncross entries |
| Likelihood.ChiSqDxAt | bbpower/compsep.py:205-210 | entry b * ncross + PairIndex(i, j) of `chi_sq_dx` is data minus model at bin b and pair (i, j) |
| Likelihood.ResidualPackedAt | bbpower/compsep.py:210 | the same, stated for any two stacks of matrices |
| Likelihood.ChiSqDxOfExactFit | bbpower/compsep.py:205-210 | a model equal to the data leaves an all-zero residual |
| Likelihood.QuadForm | bbpower/compsep.py:261 | `einsum('i, ij, j', dx, invcov, dx)`, which is zero for a zero residual |
| Likelihood.QuadFormIsEinsum | bbpower/compsep.py:261 | the quadratic form equals the double sum over i and j of dx[i] * invcov[i, j] * dx[j] |
| Likelihood.Dx | bbpower/compsep.py:256-260 | the residual of the chosen branch has as many entries as invcov has rows |
| Likelihood.LnProb | bbpower/compsep.py:248-262 | the result is -inf exactly when the prior is not finite |
| Likelihood.NonFinitePriorShortCircuits | bbpower/compsep.py:252-254 | a non-finite prior decides the result whatever the parameter builder, residual and invcov |
| Likelihood.ExactFitScoresPrior | bbpower/compsep.py:252-262 | on the chi-square branch, a model that reproduces the data scores exactly its prior |
| Likelihood.LnProbAtMostPrior | bbpower/compsep.py:261-262 | with a positive semidefinite invcov the likelihood term is never positive |
| Bandpasses.CDiv | bbpower/bandpasses.py:72 | the complex quotient q satisfies q * b == a |
| Bandpasses.CSumOfReals | bbpower/bandpasses.py:71-72 | a sum of numbers without imaginary part has none |
| Bandpasses.RotationOrthogonal | bbpower/bandpasses.py:81-90 | with c^2 + s^2 = 1, [[c, s], [-s, c]] times its transpose is the identity, both ways round |
| Bandpasses.LastNamedIsLast | bbpower/bandpasses.py:43-56 | the recorded name of a kind is that of the last matching entry of the parameters block, and None exactly when no entry matches |
| Bandpasses.LastNamedIgnoresOtherKinds | bbpower/bandpasses.py:43-56 | entries of other kinds do not change the recorded name |
| Bandpasses.NoParametersBlock | bbpower/bandpasses.py:31-42 | without a parameters block all four flags are off and all four names are None |
| Bandpasses.IsComplexAsWritten | bbpower/bandpasses.py:15-56 | `is_complex` as the constructor leaves it, None when never assigned: a truthy phase file gives True, and a missing `phase_nu` key always assigns it |
| Bandpasses.FalsyPhaseLeavesIsComplexUnset | bbpower/bandpasses.py:15-56 | for every configuration and channel: `is_complex` is never assigned exactly when `phase_nu` is present but falsy and no parameter of the channel has kind dphi1 |
| Bandpasses.IsComplexFor | bbpower/bandpasses.py:15-56 | agrees with the source wherever the source assigns `is_complex`; true with a non-empty phase file or a dphi1 parameter, false otherwise |
| Bandpasses.Product | bbpower/bandpasses.py:9 | `bnu * dnu`, entry by entry |
| Bandpasses.NuMean | bbpower/bandpasses.py:10-11 | `nu_mean` times the total CMB-weighted response equals the response-weighted sum of the frequencies: it is their weighted mean |
| Bandpasses.NuMeanWithinBand | bbpower/bandpasses.py:10-11 | with non-negative CMB-weighted response, `nu_mean` lies between the lowest and the highest frequency sample |
| Bandpasses.QuotientBounds | bbpower/bandpasses.py:10-11 | dividing the weighted sum by the positive total weight keeps the bounds |
| Bandpasses.Bandpass.constructor | bbpower/bandpasses.py:6-57 | the weighted response (times the phase factor when a phase file is named), `nu_mean`, each parameter name as the last entry of its kind, each flag set exactly when its name is, and `is_complex` |
| Bandpasses.Bandpass.NuPrime | bbpower/bandpasses.py:60-70 | without a shift the samples stay put; with one, every sample moves by `params[name_shift] * nu_mean` |
| Bandpasses.Bandpass.Dphi1Phase | bbpower/bandpasses.py:61-68 | 1 without dphi1, otherwise the linear phase at each sample |
| Bandpasses.Bandpass.ConvolveSed | bbpower/bandpasses.py:59-83 | a real channel returns its convolution, which has no imaginary part, with the identity; a complex channel returns mod = abs(conv_sed) and [[cs, sn], [-sn, cs]] with mod * (cs, sn) = conv_sed |
| Bandpasses.Bandpass.CmbNorm | bbpower/bandpasses.py:70-71 | `cmb_norm`, the CMB integral at the shifted samples, is real on a channel without a phase file or dphi1 |
| Bandpasses.Bandpass.RealChannelIsReal | bbpower/bandpasses.py:60-72 | without a phase file or dphi1, conv_sed before the gain is real |
| Bandpasses.Bandpass.GainedConvolution | bbpower/bandpasses.py:70-75 | conv_sed after the gain, which stays real on a channel without a phase file or dphi1 |
| Bandpasses.Bandpass.ConvolveSedPlain | bbpower/bandpasses.py:70-83 | with no shift, gain or phase, the result is the ratio of the SED integral to the CMB integral |
| Bandpasses.Bandpass.ConvolveCmbIsUnity | bbpower/bandpasses.py:71-83 | convolving the CMB SED itself through a plain channel gives exactly 1 |
| Bandpasses.Bandpass.GainScalesRealChannel | bbpower/bandpasses.py:74-75 | the gain multiplies the real convolution |
| Bandpasses.Bandpass.ComplexPathIsRotation | bbpower/bandpasses.py:77-81 | when sqrt is exact on conv_sed, the returned 2x2 matrix is a rotation, and its transpose inverts it |
| Bandpasses.Bandpass.RotationMatrix | bbpower/bandpasses.py:85-92 | rotation by twice the bound angle (in degrees), otherwise the identity; RotationMatrixOrthogonal proves it orthogonal |
| Bandpasses.Shifted | bbpower/bandpasses.py:70 | each sample moves by the same offset, and an offset of 0 changes nothing |
| Bandpasses.PhaseWeighted | bbpower/bandpasses.py:72 | `bnu_dnu * dphi1_phase`, entry by entry |
| Bandpasses.PhaseWeightedByOne | bbpower/bandpasses.py:61-72 | a phase of 1 leaves the weights unchanged |
| Bandpasses.Integrand | bbpower/bandpasses.py:72 | a real weight gives a real integrand term |
| Bandpasses.QuadratureOfReals | bbpower/bandpasses.py:71-72 | the integral of real weights is real |
| Bandpasses.RealQuotient | bbpower/bandpasses.py:72 | the quotient of two reals is real |
| Bandpasses.SelfQuotient | bbpower/bandpasses.py:72 | a non-zero real integral divided by itself is 1 |
| Bandpasses.PolarFormIsRotation | bbpower/bandpasses.py:78-81 | if the modulus squares to \|z\|^2, the matrix of the polar form is a rotation |
| Bandpasses.PolarFormOfQuotient | bbpower/bandpasses.py:78-81 | dividing both parts by mod gives the polar form of conv_sed |
| Bandpasses.UnitCircle | bbpower/bandpasses.py:78-80 | (re/mod, im/mod) lies on the unit circle when mod^2 = re^2 + im^2 |
| Bandpasses.ContractLast | bbpower/bandpasses.py:95 | `einsum('ijk,lk')` contracts the last axis of cls with the rows of mat1 |
| Bandpasses.Column | bbpower/bandpasses.py:96 | column l of a matrix |
| Bandpasses.ContractMiddle | bbpower/bandpasses.py:96 | `einsum('jk,ikl')` contracts the rows of mat2 with the middle axis |
| Bandpasses.RotateCellsMat | bbpower/bandpasses.py:94-97 | entry (i, j, l) is the sandwich of `cls[i]` between mat2 and mat1 |
| Bandpasses.RotateEntry | bbpower/bandpasses.py:94-97 | the two contractions, composed, give that sandwich entry by entry |
| Bandpasses.RotateByIdentity | bbpower/bandpasses.py:94-97 | rotating by two identity matrices leaves cls unchanged |
| Bandpasses.RotationMatrixOrthogonal | bbpower/bandpasses.py:85-92 | the matrix `get_rotation_matrix` returns satisfies RᵀR = RRᵀ = I whenever cos² + sin² = 1 at the doubled angle |
| Bandpasses.RotateCells | bbpower/bandpasses.py:99-102 | every bin of the result is m2 · cls[i] · m1ᵀ, where m1 and m2 are the rotation matrices of the first and the second channel |
| Bandpasses.RotateCellsWithoutAngles | bbpower/bandpasses.py:85-102 | two channels without an angle parameter leave the band powers unchanged |
| Bandpasses.RotationKeepsTrace | bbpower/bandpasses.py:94-97 | rotating both channels by the same angle keeps the trace of each 2x2 block |
| ClBinning.SliceIndex | test_mapbased_param/Cl_estimation.py:20 | a slice bound lands inside the array, and a bound already inside stays where it is |
| ClBinning.CustomBins | test_mapbased_param/Cl_estimation.py:13-21 | nlb == 0 fails exactly as the division does; otherwise `ells` is 0..3 nside-1, each weight is 1/nlb, `bpws` are the labels after the loop, and the loop runs exactly while its guard holds |
| ClBinning.GuardStaysFalse | test_mapbased_param/Cl_estimation.py:19 | once the loop guard fails it fails for every larger counter |
| ClBinning.LabelsClosedForm | test_mapbased_param/Cl_estimation.py:17-21 | with lmin >= 0, multipole l has label (l - lmin) / (nlb + 1) inside [lmin, (nlb + 1) i + lmin) and -1 elsewhere |
| ClBinning.SliceAssignAt | test_mapbased_param/Cl_estimation.py:20 | a slice assignment with non-negative bounds changes exactly the entries in [lo, hi) |
| ClBinning.BelowLminUnlabelled | test_mapbased_param/Cl_estimation.py:17-21 | multipoles below lmin keep the label -1 |
| ClBinning.TopUnlabelled | test_mapbased_param/Cl_estimation.py:17-21 | after the loop, every multipole at or above lmax - 1 keeps the label -1 |
| ClBinning.BinIsSlice | test_mapbased_param/Cl_estimation.py:19-21 | label v is carried by exactly the nlb + 1 multipoles of [(nlb + 1) v + lmin, (nlb + 1) (v + 1) + lmin) |
| ClBinning.LabelsMonotone | test_mapbased_param/Cl_estimation.py:19-21 | labels never decrease with the multipole in the labelled range |
| ClBinning.LabelsConsecutive | test_mapbased_param/Cl_estimation.py:19-21 | labels start at 0 at lmin and rise by at most one from each multipole to the next |

## Left out

- SACC, HDF5 and text-file I/O (`loadFromHDF`, `getCovarianceMatrix`, `np.loadtxt`, `load_cmb`). The file contents come in as values.
- `cullType(b'BB')` and the E-mode TODOs. The model is the BB part.
- The H&L likelihood (`prepare_h_and_l`, `h_and_l_dx`, `h_and_l`). It needs eigendecompositions, `sqrtm` and logarithms, so its residual is a given function `Likelihood.Posterior.handlDx`.
- `np.linalg.solve` for `invcov`. The inverse covariance is an input of `Likelihood.Posterior`.
- `FGModel`, `ParameterManager`, `integrate_seds` and `evaluate_power_spectra`. The model takes their results as values: per-channel scalings, per-component spectra and epsilons.
- `integrate_seds` multiplies the `(scale, matrix)` tuple from `convolve_sed` by `units`. The model takes one real scaling per component and channel instead, and does not show how a tuple becomes that number.
- The samplers, the minimiser, `singlepoint`, `run` and the output files. These are driver code around `lnprob`.
- `decorrelated_bpass`. It refers to names that are not defined where they are used, so no behaviour can be stated for it.
- The other branch of `binning_definition`, which refers to an undefined `self`, and the `NmtBin` object built from the arrays. NaMaster is external.
- The Planck helper functions of the C_ell estimation script and the rest of that stage. They are not part of the core modelled here.
- Floating point. Values are exact reals, so nan and inf do not arise. A zero `cmb_norm`, a zero `nu_mean` (dphi1) and a zero modulus (complex path) are preconditions rather than nan results (`Bandpasses.Bandpass.Convolvable`).
- Transcendental functions (`K_RJ` CMB SED, sqrt, cos, sin, pi) and the interpolated phase table. These are uninterpreted parameters.
- The exception kinds of NumPy and Python (IndexError, ValueError, KeyError). Each error path is one case of `SaccSetup.SetupError` or `Packing.PackingError`.
- The setup checks the ell count of every spectrum before it scatters any spectrum, and reports the first mismatched entry as `EllSamplingMismatch`. The source fails elsewhere. `n_bpws` comes from entry 0, so only a later entry can mismatch, and entry 0's pass runs the inner loop at lines 122-123 over every entry first. There, the first entry whose number m of indices is neither n_bpws nor 1 raises a broadcast ValueError, because an n_bpws x m block does not fit an n_bpws x n_bpws slot. If every mismatched entry has one index, the writes broadcast, and the first such entry fails at the check on lines 120-121 in its own pass. The writes at lines 115-116 are never the first failure. The entry the source trips on can differ from the one the model reports: take a mismatched entry with one index followed by one with three.
- SaccSetup.WellFormed: the index ranges and shapes the SACC format guarantees are preconditions rather than error paths. These are the channel and data indices, one index per ell centre, a window weight per multipole, a square covariance, and an Nz value per frequency.
- SaccSetup.Weighable: a `nu_mean` of 0/0 (nan) in the source is excluded by a precondition.
- SaccSetup.CollectBandpasses: it does not promise that the Bandpass objects are freshly allocated (MakeBandpass does).
- ForwardModel.SkyFits: every cross partner names a component of the model. The source would raise KeyError otherwise.
- A SACC file whose entries share a channel pair is modelled: the last write wins. The landing lemmas (`SaccSetup.DataLandsInSlot` and others) assume distinct pairs, as `sortTracers` produces.
- ClBinning.CustomBins: `nlb` is a natural number. With `nlb = -1` the guard does not depend on the counter, and with `nlb < -1` it only gets easier to meet, so the source never terminates for a negative `nlb` whose first guard holds. The default `nlb=[]` (a TypeError in the division) and the `int32` width of `ells` are not modelled.
- SaccSetup.HandlInputsFit: the noise and fiducial mean vectors must have exactly the length of the coadded mean. The source only needs the coadded indices to be in range of them. Equal lengths are expected, because both files are read with the coadded file's precision matrix (lines 64-67 of `bbpower/compsep.py`).
- ClBinning.LabelsClosedForm: the closed forms assume `lmin >= 0`. With a negative `lmin` the slices wrap around from the end of the array. `ClBinning.CustomBins` itself handles any `lmin`.
- Bandpasses.Bandpass.ComplexPathIsRotation: the rotation property is proved under the hypothesis that the supplied sqrt is exact on `|conv_sed|^2` (`Bandpasses.ExactModulus`), because sqrt is uninterpreted.
- Bandpasses.Bandpass.constructor: the unused `phi_nu` argument is dropped. A present but falsy `phase_nu` is given `is_complex = False` (see Findings).

## Findings

| source | as written | input that shows it | evidently intended | confidence | as-written member | corrected member |
|---|---|---|---|---|---|---|
| bbpower/bandpasses.py:15-28 | `is_complex` is set to False only in the KeyError branch and to True only when `fname` is truthy | a channel whose `phase_nu` entry exists but is empty or null, and that has no dphi1 parameter: `is_complex` is never assigned, so `convolve_sed` fails with AttributeError at line 77 | such a channel is a real channel (`is_complex = False`) | not executed | Bandpasses.FalsyPhaseLeavesIsComplexUnset | Bandpasses.IsComplexFor |
