# Trajectory visualisation: a verified model of its core

The program shows a video together with the point trajectories tracked in it.
Clicking a pixel selects the trajectory that passes there in the current frame.
The program then draws that trajectory's xy projection and the cut points of its
partition. For trajectories of at least five samples, it also plots the smoothed
coordinates, their velocity and their acceleration over time.

This project models the parts of that program that compute something:

- **Filters** (`filters.dfy`): `convolve`, a correlation that writes only the interior band
  of its output and refuses an aliased output or a too-short signal; `gaussian_template`,
  which fills and normalises a smoothing window; `derivative_template`, the table of
  central-difference kernels for windows of 2 to 5 taps.
- **Trajectory index** (`trajectory_index.dfy`): the dense width × height × length grid of
  trajectory numbers, initialised to -1, into which every trajectory point stamps a
  clamped box at its frame, trajectories in ascending order; stored as a flat array with a
  row-major offset.
- **Viewer** (`viewer.dfy`): the session state of `main` (current frame, number of
  trajectories drawn), the key loop, the click handler `show_graphs` with its
  smoothing → velocity → acceleration pipeline, and the set-up that builds the index.
- **Paths** (`paths.dfy`): the extension checks of the three command-line paths and the
  folder of the frame list.
- **Tracks** (`tracks.dfy`): the parallel-vector trajectory record `main.cpp` declares for
  itself (x, y and frame vectors of equal length).
- **Trajectories** (`trajectories.dfy`): the `trajectory_t` container of
  `trajectory_t.cpp` (points and start frame, `recreate`, component extraction) and the
  `.dat` text format of trajectories, partitions and file headers, over token sequences.
- `vectors.dfy` holds the `std::vector<double>` stand-in (`RealVector`) and `resize`
  (`Resized`); `wrappers.dfy` holds `Option`.

Samples are `real`; `exp`/`pow` in the Gaussian window are a parameter `falloff`, where
`falloff(d)` is the weight at distance `d` (positive at 0, never negative). Some
behaviours of the code are easy to overlook; the model keeps each of them:

- the smoothed signal's ends are overwritten with the raw first and last samples, while
  velocity and acceleration keep 0 at their ends, which `convolve` never writes in a fresh
  vector;
- `convolve` and `derivative_template` report failure with `false`, not a typed error;
- `gaussian_template` does not reject σ = 0, and the grid lookup does not check its
  coordinates: those are preconditions or left out here, not error results;
- the `"./"` replacement of the frame folder only happens when the frame list path ends
  in '/', which the `.bmf` check already excludes, so a frame list given without a folder
  gets the empty folder (`Paths.StartedPathsHaveTheirExtensions`).

## Model

| member | source | states |
|---|---|---|
| Vectors.Resized | filters.cpp:13 | `resize(n)` gives exactly n entries, keeps the first ones and fills new ones with the fill value |
| Filters.Convolution | filters.cpp:13-24 | after a successful convolve the output has the signal's length |
| Filters.Convolve | filters.cpp:4-26 | returns false and leaves `out` untouched exactly when `out` is `f`, the signal is shorter than the kernel, or the kernel it reads is empty (an `out` passed as the kernel is read after its resize to the signal's length); otherwise `out` is resized to `|f|`, holds the correlation at every band index and keeps its resized contents elsewhere, also when the kernel is `out` itself |
| Filters.ReadsStayInSignal | filters.cpp:15-21 | l_half + r_half + 1 == kernel size, and every read `f[i + j - l_half]` of the band is inside `f` |
| Filters.BandNotEmpty | filters.cpp:15-18 | a signal at least as long as a non-empty kernel has at least one written index |
| Filters.WeightedSum | filters.cpp:19-22 | the inner loop's sum is the kernel-weighted sum of the window starting at i − l_half |
| Filters.WindowSumOfConstant | filters.cpp:19-22 | the inner sum over a constant signal is the constant times the sum of the kernel entries used |
| Filters.ZeroSumKernelFlattensConstant | filters.cpp:18-24 | a kernel summing to 0 maps a constant signal to 0 at every written index |
| Filters.BandEndAsWrittenAgrees | filters.cpp:15-18 | for a non-empty kernel the size_t loop bound `f.size() - r_half` equals the exact one |
| Filters.EmptyKernelOverrunsOutput | filters.cpp:9-18 | an empty kernel passes the guard, r_half wraps to 2^64 - 1 and the loop bound becomes n + 1, so `out[n]` is written past the end |
| Filters.RawWeightsAsWritten | filters.cpp:31-34 | the window as written has win_size entries, its centre weight is falloff(0), and from the centre rightwards it agrees with the corrected window |
| Filters.WrappedOffsetBelowCentre | filters.cpp:31-34 | `i - centre` in size_t is 2^64 minus the distance for every i left of the centre |
| Filters.GaussianAsWrittenIsLopsided | filters.cpp:31-35 | with any strictly decreasing falloff, the 3-tap window as written weighs the left neighbour less than the right one; the corrected window weighs them equally |
| Filters.RawWeights | filters.cpp:29-36 | corrected (see Findings): the unnormalised window has win_size entries |
| Filters.RawWeightsSymmetric | filters.cpp:31-35 | the corrected odd-sized window is symmetric about its centre |
| Filters.SumAtLeastEntry | filters.cpp:32-36 | a total of non-negative weights is at least each weight |
| Filters.SumNonnegative | filters.cpp:32-36 | a total of non-negative weights is non-negative |
| Filters.SumScaled | filters.cpp:37-39 | dividing every entry by a total divides their sum by it |
| Filters.RawWeightsNonnegative | filters.cpp:34 | every raw weight is non-negative |
| Filters.RawWeightsTotalPositive | filters.cpp:32-36 | a non-empty window's total is at least its centre weight, which is positive |
| Filters.RawWeightsAsWrittenTotalPositive | filters.cpp:31-36 | the total of the window as written is at least its centre weight, which is positive |
| Filters.GaussianWeightsAsWritten | filters.cpp:27-40 | the template as written has exactly win_size entries |
| Filters.GaussianAsWrittenSumsToOne | filters.cpp:37-39 | the template as written still sums to 1 |
| Filters.GaussianWeightsAsWrittenLopsided | filters.cpp:31-39 | with any strictly decreasing falloff, the normalised 3-tap template as written weighs the left neighbour less than the right one |
| Filters.GaussianWeights | filters.cpp:27-40 | corrected (see Findings): the template has exactly win_size entries |
| Filters.GaussianSumsToOne | filters.cpp:37-39 | the normalised template sums to 1 |
| Filters.GaussianWeightsInUnitRange | filters.cpp:37-39 | every normalised weight is between 0 and 1 |
| Filters.GaussianTemplate | filters.cpp:27-40 | corrected (see Findings): `temp` becomes the normalised window: filled with the weights while summing them, then divided in place |
| Filters.FillRawWeights | filters.cpp:32-36 | corrected (see Findings): the first loop leaves the raw weights in `temp` and returns their total |
| Filters.DivideEach | filters.cpp:37-39 | the second loop divides every entry by the total |
| Filters.DerivativeTable | filters.cpp:42-75 | a table exists exactly for 2 to 5 taps; it has win_size entries, is antisymmetric and sums to 0 |
| Filters.DerivativeTemplate | filters.cpp:42-75 | returns true and sets `temp` to the table for 2 to 5 taps; otherwise returns false and leaves `temp` unchanged |
| Filters.DerivativeOfConstantIsZero | filters.cpp:42-75 | every derivative template maps a constant signal to 0 at every written index |
| Filters.CentralDifference | filters.cpp:50-55 | the 3-tap template yields half the difference of the two neighbours |
| Filters.CentralDifferenceOfRamp | filters.cpp:50-55 | the 3-tap template gives the exact slope of a linear signal |
| Tracks.Track.Size | main.cpp:40-43 | `size()` is the length of the frame vector, which in a valid record is also the length of the x and y vectors: the number of samples |
| Tracks.Track.Resize | main.cpp:33-38 | `resize` leaves the three vectors the same length n, keeps the first entries and zero-fills the rest |
| Tracks.NewTrack | main.cpp:30-31 | `trajectory_t(size)` has size zeroed samples in each vector |
| TrajectoryIndex.MixedRadixInjective | main.cpp:247-248 | one digit of a row-major offset and the rest are recovered uniquely |
| TrajectoryIndex.MixedRadixBound | main.cpp:247-248 | a row-major offset stays below the product of the extents |
| TrajectoryIndex.OffsetInjective | main.cpp:247-248 | distinct voxels of the grid have distinct flat offsets |
| TrajectoryIndex.OffsetInRange | main.cpp:247-248 | every voxel's offset is inside the flat storage |
| TrajectoryIndex.BoxShape | main.cpp:252-267 | the stamped box spans columns max(0, x-1)..min(x+2, W-1) and rows max(0, y-1)..min(y+2, H-1) at the point's frame only, lies inside the frame, and contains the point's own cell when that is in the frame |
| TrajectoryIndex.StampedByIff | main.cpp:250-267 | a voxel is stamped by a trajectory's first m points exactly when one of their boxes contains it |
| TrajectoryIndex.OwnerIsLargestCover | main.cpp:249-269 | after the build a voxel holds -1 exactly when no trajectory covers it, and otherwise the largest covering trajectory number |
| TrajectoryIndex.OwnerIsTrajectoryOrNone | main.cpp:249-269 | every voxel holds -1 or a valid trajectory number |
| TrajectoryIndex.VoxelGrid.Get | main.cpp:347 | the lookup reads the cell at the voxel's row-major offset, which lies inside the storage |
| TrajectoryIndex.VoxelGrid.constructor | main.cpp:247-248 | every voxel starts as -1 |
| TrajectoryIndex.VoxelGrid.StampPoint | main.cpp:252-267 | the voxels of the point's box become the trajectory number and every other voxel is unchanged |
| TrajectoryIndex.VoxelGrid.StampTrack | main.cpp:250-268 | a voxel becomes the trajectory number exactly when one of its points' boxes contains it |
| TrajectoryIndex.VoxelGrid.Build | main.cpp:249-269 | the grid ends as the last-writer-wins result of stamping the trajectories in ascending order |
| Viewer.Gather | main.cpp:373-377 | entry i of the gathered vector is the sample at cut point i |
| Viewer.Smoothed | main.cpp:398-403 | the smoothed axis has the trajectory's length, starts and ends with the raw samples, is the correlation with the template inside the band and 0 elsewhere |
| Viewer.DerivedSignals | main.cpp:397-411 | all derived signals have the trajectory's length; the smoothed one starts and ends with the raw samples and is the correlation in between; velocity and acceleration are the correlations of the previous stage and stay 0 at both ends |
| Viewer.SmoothedRamp | main.cpp:398-403 | a 3-tap template summing to 1 shifts every inner sample of a linear signal by b·(g[2] − g[0]) |
| Viewer.RampKeepsItsSlope | main.cpp:397-407 | a symmetric 3-tap smoothing window summing to 1 keeps a linear signal, so the velocity is its slope at every inner sample |
| Viewer.ViewerSmoothingKeepsRampSlope | main.cpp:394-407 | with the corrected 3-tap Gaussian the pipeline's velocity of a linear trajectory is its slope at every inner sample |
| Viewer.LopsidedWindowBendsRampAtEnds | main.cpp:397-407 | with a 3-tap template summing to 1, the velocity of a linear signal is b + b·(g[2] − g[0])/2 at sample 1, b − b·(g[2] − g[0])/2 at the second-to-last sample and b in between |
| Viewer.ShiftedRampSpeed | main.cpp:405-407 | the 3-tap central difference of a linear signal whose inner samples share one shift is the slope plus half the shift at sample 1, minus half of it at the second-to-last sample, and the slope in between |
| Viewer.ViewerSmoothingAsWrittenBendsRampSlope | main.cpp:394-407 | with the template main.cpp:394 builds as written, g[0] < g[2], so the velocity plotted for a linear trajectory overshoots its slope at sample 1 and undershoots it at the second-to-last sample |
| Viewer.DeriveAxis | main.cpp:397-411 | the three fresh vectors hold the smoothed signal, its velocity and its acceleration |
| Viewer.PlotAxis | main.cpp:441-450 | the plot holds the derived signals and the velocity and acceleration at each cut point |
| Viewer.Session.constructor | main.cpp:69-75 | a session starts at frame 0 with no trajectory drawn |
| Viewer.Session.HandleKey | main.cpp:299-331 | ESC (low byte 27) quits; 'f' advances only below the last frame, 'b' goes back only above frame 0, 'r' resets the counter, other keys change nothing; the frame stays in range |
| Viewer.Session.Click | main.cpp:335-469 | non-left events do nothing; a -1 cell selects nothing; with 11 trajectories drawn nothing is drawn; otherwise the cut points are gathered, and only trajectories of 5 samples or more get the derived signals of the corrected 3-tap Gaussian template and advance the counter by one, which never passes 11 |
| Viewer.Open | main.cpp:246-288 | the session's index holds, at every voxel, the last-writer-wins owner or -1, and the session starts at frame 0 with nothing drawn |
| Paths.FindLast | main.cpp:116 | `find_last_of` gives npos exactly when the character is absent, and otherwise its last position |
| Paths.CheckExtension | main.cpp:116-119 | the check throws when there is no '.', and accepts exactly when the text from the last '.' equals the extension |
| Paths.CheckExtensionIsSuffixTest | main.cpp:116-131 | for ".dat"-like extensions the check accepts exactly the paths ending with the extension |
| Paths.RootDir | main.cpp:135-138 | the folder is the prefix through the last '/', empty without '/', and "./" when that prefix is the whole path |
| Paths.Start | main.cpp:110-138 | the program starts exactly with three arguments whose extensions are ".dat", ".dat" and ".bmf", with the frame list's folder |
| Paths.StartedPathsHaveTheirExtensions | main.cpp:116-138 | once started, each path ends with its extension and the folder is a proper prefix of the frame list path |
| Trajectories.Trajectory.constructor | trajectory_t.cpp:5-6 | `size` points at the origin and the given start frame |
| Trajectories.Trajectory.Size | trajectory_t.cpp:14-17 | the size is the number of points |
| Trajectories.Trajectory.Recreate | trajectory_t.cpp:8-12 | the points are resized, keeping the first min(old, new) and adding origins, and the start frame is set |
| Trajectories.Trajectory.GetXComponents | trajectory_t.cpp:29-35 | the vector becomes the points' x coordinates, one per point |
| Trajectories.Trajectory.GetYComponents | trajectory_t.cpp:36-42 | the vector becomes the points' y coordinates, one per point |
| Trajectories.ReadInt | trajectory_t.cpp:80-81 | `>> int` succeeds exactly on an integer token in the range of int |
| Trajectories.ReadSize | trajectory_t.cpp:82-83 | `>> size_t` succeeds exactly on an integer token whose magnitude is below 2^64; a non-negative value is read as is and a negative one −n as 2^64 − n |
| Trajectories.ReadReal | trajectory_t.cpp:89 | `>> double` reads any number token |
| Trajectories.HeaderTokens | trajectory_t.cpp:69-74 | the header is two integer tokens: the video length, then the number of trajectories |
| Trajectories.ParseHeader | trajectory_t.cpp:64-68 | a header read consumes two tokens |
| Trajectories.HeaderRoundTrip | trajectory_t.cpp:64-74 | `read_dat_header` gives back the two values `write_dat_header` wrote, in order |
| Trajectories.Round | trajectory_t.cpp:106 | `lroundf` gives an integer within 0.5, of the same sign, keeps integers, and rounds halfway cases away from zero |
| Trajectories.NextFrame | trajectory_t.cpp:105-108 | one step of the unsigned frame counter is one step modulo 2^32 |
| Trajectories.LaterPointsTokens | trajectory_t.cpp:107-109 | three tokens per point after the first |
| Trajectories.LaterPointsTokensAt | trajectory_t.cpp:107-109 | the line of point k holds its x, its y and the frame start + k modulo 2^32 |
| Trajectories.LaterPointsTokensAppend | trajectory_t.cpp:107-109 | each loop pass appends exactly its point's line |
| Trajectories.TrajectoryTokens | trajectory_t.cpp:98-110 | a trajectory of n points is written as 3n + 2 tokens |
| Trajectories.WriteStep | trajectory_t.cpp:105-109 | one pass of the write loop appends x, y and the frame start + i modulo 2^32 |
| Trajectories.Write | trajectory_t.cpp:98-110 | a non-empty trajectory is written as label 0, its size, its first point rounded with the start frame, then every later point with consecutive frames |
| Trajectories.ParsePoints | trajectory_t.cpp:94-96 | reading later points yields exactly as many points as asked |
| Trajectories.ParsePointsFailureSticks | trajectory_t.cpp:94-96 | once a point cannot be read, no longer read succeeds |
| Trajectories.ParseTrajectory | trajectory_t.cpp:76-97 | a read trajectory has at least one point and ends 3n + 2 tokens after its start |
| Trajectories.Read | trajectory_t.cpp:76-97 | on a readable stream the points and start frame become those read and the position after them is returned; otherwise nothing changes |
| Trajectories.LaterPointsRoundTrip | trajectory_t.cpp:94-96 | the later points' lines read back as those points |
| Trajectories.TrajectoryRoundTrip | trajectory_t.cpp:76-110 | `read(write(tr))` gives the size and the start frame back, the first point rounded and the later points unchanged, when every written frame fits an int |
| Trajectories.WrittenTrajectoryHead | trajectory_t.cpp:98-106 | write's first five tokens are label 0, the size, the rounded first point and the start frame |
| Trajectories.WrittenLaterPointsParse | trajectory_t.cpp:94-110 | after those five tokens the written later points read back as themselves |
| Trajectories.ParseWrittenTrajectory | trajectory_t.cpp:76-97 | a stream starting with a label, a size, an integer first point and a frame, followed by size − 1 readable points, reads back as exactly those points and that frame |
| Trajectories.PartitionTokens | trajectory_t.cpp:125-134 | the count, then every cut point in list order |
| Trajectories.WritePartition | trajectory_t.cpp:125-134 | the loop writes the count and then the cut points in order |
| Trajectories.ParseCuts | trajectory_t.cpp:119-123 | n cut points are read exactly when the next n tokens are size_t values, and they are those values |
| Trajectories.ParsePartition | trajectory_t.cpp:112-124 | a partition read consumes its count and that many values |
| Trajectories.ReadPartition | trajectory_t.cpp:112-124 | the values read are appended to the existing list, which is not cleared |
| Trajectories.PartitionRoundTrip | trajectory_t.cpp:112-134 | reading a written partition into an empty list gives it back, and the stream is left just after it |

## Left out

- OpenCV and gnuplot: image loading, windows, `waitKey`, the mouse callback registration,
  the drawing of curves and points and every plot (main.cpp:76-92, 140-165, 294-297,
  414-464, 477-517); the click handler returns what it would draw instead.
- The colour tables (main.cpp:231-243, 275-286): only their count, 11, is modelled.
- The loading loops of `main` (main.cpp:140-226), which read the frame list and main's
  own trajectory and partition files; the `.dat` format is modelled by `trajectory_t.cpp`'s
  `read`/`write`.
- The rounding loop of the click handler (main.cpp:366-370): coordinates are already
  integers after loading (main.cpp:191-192), so `lroundf` returns them unchanged and the
  model uses them directly.
- Floating point: samples are exact reals, so no claim is bit-exact for doubles.
- `exp`/`pow` in `gaussian_template` and σ = 3.0 are the parameter `falloff`; σ = 0,
  which divides by zero, is not modelled.
- Filters.EmptyKernelOverrunsOutput: it shows the loop bound as written, not the
  out-of-bounds write itself, which has no meaning in the model.
- Viewer.Session.Click: requires the clicked pixel to lie inside the frame, because
  `cv::Mat::at` does not check its indices.
- Viewer.Session.Click: the plotted signals are those of the corrected, symmetric
  smoothing template (Filters.GaussianTemplate); main.cpp:394 builds the lopsided
  template as written, whose velocity for a linear trajectory is off by
  ±b·(g[2] − g[0])/2 next to each end (Viewer.ViewerSmoothingAsWrittenBendsRampSlope).
- TrajectoryIndex.VoxelGrid.Build: requires every frame number to lie in the video,
  which the code never checks.
- Viewer.Open: requires every cut point to index its trajectory, which the code never
  checks.
- `trajectory_t`'s default constructor, `operator[]`, `begin` and `end`: accessors with no
  behaviour of their own; the model reads `points` directly.
- The stream mechanics: open state, whitespace and the text of numbers. A token carries
  its value exactly, although `<<` writes doubles with 6 significant digits.
- Trajectories.TrajectoryRoundTrip: later points come back exactly only because tokens
  carry reals exactly.
- Trajectories.Round: rounds the real value; `lroundf` first narrows the double to
  float.
- Trajectories.Read: on a malformed stream, or a size of 0 (undefined behaviour in
  the code), it returns None and leaves the trajectory unchanged; the code leaves it
  partly overwritten with the stream in a failed state.
- Trajectories.ParseTrajectory: a negative size such as -1 reads as 2^64 - 1; the code's
  `resize` then throws `length_error`, while the model tries to read that many points
  and returns None on any stream shorter than that.
- Trajectories.ReadPartition: on a malformed stream it returns None; the code keeps
  appending the values its failed extractions produce.

## Findings

| source | as written | input that shows it | evidently intended | confidence | as-written member | corrected member |
|---|---|---|---|---|---|---|
| filters.cpp:15-18 | `r_half = kernel.size() - 1 - l_half` in size_t, with only `f.size() < kernel.size()` rejected | an empty kernel with a 3-sample signal: r_half wraps to 2^64 - 1, the loop runs i = 0..3 and writes `out[3]` of a 3-entry vector | reject an empty kernel | high, not executed | Filters.EmptyKernelOverrunsOutput | Filters.Convolve |
| filters.cpp:31-34 | `pow(i - centre, 2)` with `i` a size_t, so `i - centre` wraps for i < centre | `gaussian_template(3, 3.0, t)`: the left weight is exp(-(2^64 - 1)^2 / 18) = 0 while the right weight is exp(-1/18), so the template is [0, 0.51, 0.49] and not symmetric | weight by the distance abs(i - centre), giving a symmetric window | high, not executed | Filters.GaussianAsWrittenIsLopsided | Filters.GaussianTemplate |
