# PSF analysis (CFIM edition): a verified model of its core

This project models the computational core of the napari PSF analysis plugin
(CFIM edition) in Dafny, and proves properties of it. The plugin finds beads in a
3D microscope stack, fits Gaussians to them and reads channel metadata from CZI
files. The modelled parts are:

- **The bead finder** (`bead_finding.dfy`). It takes the Z maximum projection and
  passes the XY maxima through a strict border filter. Each surviving maximum gets
  a z from the first argmax of its median-filtered Z profile. Then come a strict Z
  border filter and the neighbour-distance filter. `BeadFinder` is a class whose
  `close` drops the image.
- **Fitter data shaping** (`fitting.dfy`):
  - the Z column and YX plane samples;
  - the layout of the initial guesses;
  - the covariance matrices rebuilt from an optimum and their principal components;
  - the index-by-index mapping of optimum and standard errors into the Z, YX and ZYX
    records, and the failure paths.
- **CZI metadata** (`czi_metadata.dfy`):
  - `recursive_find`, shown to return the first match in document order;
  - `findall(".//tag")`;
  - `extract_key_metadata`: per-key collection, the µm to nm conversion and the
    per-channel choice of entry, with its ValueError and TypeError paths.
- **MultiKeyDict** (`multi_key_dict.dfy`). Three tables are filled by one assignment
  and searched in a fixed order. A dict value is annotated in place and shared by
  reference.
- **Image statistics** (`image_statistics.py`'s `analyze_image`, in
  `image_statistics.dfy`). It works on 2D integer arrays: input validation, the
  zero / maximum / in-between partition, the histogram and the `num_bins + 2` result
  entries.
- **Error bookkeeping and padding** (`error_display.dfy`, `plot_comparison.dfy`):
  - `upscale_to_3d`;
  - the widget's warning and error lists, its summary text and its error points;
  - `ensure_3d`.

`wrappers.dfy` holds `Option`, `Result` and the order-preserving list filter that
every `[x for x in s if p(x)]` of the source denotes, with its partition lemmas.
`volumes.dfy` holds the 3D array type.

Foreign code becomes function-typed parameters: `peak_local_max` after the size-3
median filter, the size-2 median filter of a Z profile, `curve_fit`, the estimators,
`np.sqrt`, `np.linalg.eigvals`, `fwhm`, `int()` and the wavelength-to-colour
`RangeDict`. Three assumptions are made about them:

- the peaks that `peak_local_max` returns lie inside the image plane, which
  `BeadFinder.FindBeads` and the bead-finding members require of the detector;
- the Z median filter preserves length;
- `eigvals` returns one value per row.

`curve_fit` may converge, fail to converge (RuntimeError) or reject its input
(TypeError or ValueError); the fitters catch only the RuntimeError.
`np.sqrt` of a negative number is NaN. The model carries NaN as a value of its own
that sorts after every number, as NumPy's sort does.

## Model

| member | source | states |
|---|---|---|
| BeadFinding.ArgMax | src/psf_analysis_CFIM/bead_finder_CFIM.py:62 | `np.argmax`: the index holds a maximum and every earlier value is strictly smaller, so it is the first maximum |
| BeadFinding.MaxProjection | src/psf_analysis_CFIM/bead_finder_CFIM.py:40-41 | each (y, x) of the projection is at least every value of its Z column and equals one of them |
| BeadFinding.SplitMaxima | src/psf_analysis_CFIM/bead_finder_CFIM.py:47-52 | kept maxima are exactly those with `border < y < H - border` and `border < x < W - border` (strict), discarded exactly the others; the two lists interleave to the input, each in input order |
| BeadFinding.LocateBead | src/psf_analysis_CFIM/bead_finder_CFIM.py:57-62 | a bead keeps its (y, x) and its z is the first argmax of the filtered Z profile of that column |
| BeadFinding.LocateAll | src/psf_analysis_CFIM/bead_finder_CFIM.py:57-62 | one located bead per maximum, in order |
| BeadFinding.FindBeadPositions | src/psf_analysis_CFIM/bead_finder_CFIM.py:54-68 | the loop's two lists are the located beads that pass the Z test and those that fail it, each in input order |
| BeadFinding.NoFilterKeepsAll | src/psf_analysis_CFIM/bead_finder_CFIM.py:63-66 | with `no_filter` every located bead is accepted and the discarded list is empty |
| BeadFinding.ZFilterSplits | src/psf_analysis_CFIM/bead_finder_CFIM.py:63-66 | with filtering on, a bead is accepted iff `border < z < D - border`; accepted and discarded interleave to the located beads |
| BeadFinding.FilterByNeighbourDistance | src/psf_analysis_CFIM/bead_finder_CFIM.py:70-85 | the nested loops keep exactly the beads whose nearest bead with other coordinates is more than 5 voxels away (infinity when there is none), in order, and discard the rest in order |
| BeadFinding.NeighbourFilterSplits | src/psf_analysis_CFIM/bead_finder_CFIM.py:70-85 | valid and discarded interleave to the input; valid iff every other bead has squared distance > 25, discarded iff some other bead is within 5 |
| BeadFinding.FiveApartBothDiscarded | src/psf_analysis_CFIM/bead_finder_CFIM.py:78-84 | two beads exactly 5 voxels apart are both discarded |
| BeadFinding.JustOverFiveApartBothKept | src/psf_analysis_CFIM/bead_finder_CFIM.py:74-82 | two beads sqrt(26) apart are both kept, and a lone bead is kept |
| BeadFinding.FindBeadsFromMaxima | src/psf_analysis_CFIM/bead_finder_CFIM.py:23-28 | the method composition of `find_beads` computes the neighbour-filtered Z-and-XY survivors, and as discarded the Z rejects followed by the XY rejects |
| BeadFinding.AcceptedBeadsPassEveryFilter | src/psf_analysis_CFIM/bead_finder_CFIM.py:19-32 | every accepted bead is a detected maximum strictly inside the XY and Z borders, at the first argmax of its profile, and isolated among the border survivors |
| BeadFinding.DiscardedBeadsFailABorder | src/psf_analysis_CFIM/bead_finder_CFIM.py:23-26 | every discarded bead is a detected maximum that fails the XY border or the Z border |
| BeadFinding.NeighbourRejectsAreDropped | src/psf_analysis_CFIM/bead_finder_CFIM.py:28-32 | a bead rejected by the neighbour filter is in neither returned list |
| BeadFinding.BeadFinder.constructor | src/psf_analysis_CFIM/bead_finder_CFIM.py:11-15 | the finder holds the image and a border of 5 |
| BeadFinding.BeadFinder.FindBeads | src/psf_analysis_CFIM/bead_finder_CFIM.py:19-32 | on a closed finder it fails; on an empty stack the projection fails; otherwise it returns the result of the bead-finding pipeline on the detected maxima of the projection |
| BeadFinding.BeadFinder.Close | src/psf_analysis_CFIM/bead_finder_CFIM.py:88-89 | the image is dropped |
| Fitting.ZSampleOf | src/psf_analysis_CFIM/psf_analysis/fit/fitter.py:44-52 | the Z sample is the column `data[:, H//2, W//2]` with spacing `(spacing[0],)`; it fails with IndexError iff H or W is 0 |
| Fitting.YXSampleOf | src/psf_analysis_CFIM/psf_analysis/fit/fitter.py:107-116 | the YX sample is plane `data[D//2]` with spacing `spacing[1:]`; it fails with IndexError iff D is 0 |
| Fitting.YXCovariance | src/psf_analysis_CFIM/psf_analysis/fit/fitter.py:143-148 | the 2x2 matrix is symmetric with entries p[4], p[5], p[6] |
| Fitting.ZYXCovariance | src/psf_analysis_CFIM/psf_analysis/fit/fitter.py:268-274 | the 3x3 matrix is symmetric with entries p[5] to p[10] |
| Fitting.YXCovarianceReadsItsIndices | src/psf_analysis_CFIM/psf_analysis/fit/fitter.py:143-148 | two optima give the same YX matrix iff they agree on indices 4 to 6 |
| Fitting.ZYXCovarianceReadsItsIndices | src/psf_analysis_CFIM/psf_analysis/fit/fitter.py:268-274 | two optima give the same ZYX matrix iff they agree on indices 5 to 10 |
| Fitting.GuessCovarianceIsDiagonal | src/psf_analysis_CFIM/psf_analysis/fit/fitter.py:194-204 | the initial guesses put squared sigmas on the diagonal and zeros off it (YX guess at 120-127 likewise) |
| Fitting.GuessLayoutMatchesRecord | src/psf_analysis_CFIM/psf_analysis/fit/fitter.py:55-60 | each guess vector and its record mapping agree field by field, for Z, YX (120-127) and ZYX (194-204) |
| Fitting.Sort | src/psf_analysis_CFIM/psf_analysis/fit/fitter.py:149 | `np.sort` gives an ascending permutation, with NaN after every number |
| Fitting.Reverse | src/psf_analysis_CFIM/psf_analysis/fit/fitter.py:149 | `[::-1]` reverses position by position and is a permutation |
| Fitting.AbsSqrtOf | src/psf_analysis_CFIM/psf_analysis/fit/fitter.py:149 | `np.abs(np.sqrt(x))` is NaN iff x is negative, and otherwise the non-negative absolute square root |
| Fitting.AbsSqrt | src/psf_analysis_CFIM/psf_analysis/fit/fitter.py:149 | element-wise: NaN exactly at the negative values, the non-negative absolute square root elsewhere |
| Fitting.PrincipalComponents | src/psf_analysis_CFIM/psf_analysis/fit/fitter.py:140-150 | one component per row, sorted non-increasing with any NaN first, every number non-negative, and a permutation of the absolute square roots of the eigenvalues |
| Fitting.NaNComponentsComeFirst | src/psf_analysis_CFIM/psf_analysis/fit/fitter.py:149-150 | a component is NaN iff some eigenvalue is negative, and then the first component is NaN |
| Fitting.StandardErrors | src/psf_analysis_CFIM/psf_analysis/fit/fitter.py:84 | one standard error per parameter: NaN iff its variance `cov[i][i]` is negative, else `abs(sqrt(cov[i][i]))`, non-negative |
| Fitting.ZFitRecordFields | src/psf_analysis_CFIM/psf_analysis/fit/fitter.py:66-96 | the solver's RuntimeError is re-raised unchanged and its TypeError or ValueError passes through; otherwise fields take optimum and error position by position, an error NaN iff its variance is negative, with `z_sigma = abs(p[3])` and `z_fwhm = fwhm(z_sigma)` |
| Fitting.YXFitRecordFields | src/psf_analysis_CFIM/psf_analysis/fit/fitter.py:128-176 | the RuntimeError is re-raised and a TypeError or ValueError passes through; the optimum maps index by index, the errors as `e[..6] + [e[5]]`, so `yx_cxx_sde == yx_cyx_sde`; an axis FWHM is NaN iff its variance parameter is negative |
| Fitting.YXRecordIgnoresLastError | src/psf_analysis_CFIM/psf_analysis/fit/fitter.py:173-175 | the YX record does not depend on the seventh standard error |
| Fitting.ZYXFitRecordFields | src/psf_analysis_CFIM/psf_analysis/fit/fitter.py:206-263 | on success both vectors map index by index, every error is NaN iff its variance is negative and otherwise non-negative, and a negative eigenvalue makes the first principal FWHM NaN; a TypeError or ValueError passes through; non-convergence fails, but not with the solver's RuntimeError |
| Fitting.ZFitter.Fit | src/psf_analysis_CFIM/psf_analysis/fit/fitter.py:54-96 | the fit fails iff the solver does not converge: with the solver's RuntimeError when it does not converge, and with its TypeError or ValueError when it rejects the input |
| Fitting.NewZFitter | src/psf_analysis_CFIM/psf_analysis/fit/fitter.py:40-42 | construction fails iff sampling fails; the estimator is built on the Z sample |
| Fitting.YXFitter.Fit | src/psf_analysis_CFIM/psf_analysis/fit/fitter.py:118-176 | the fit fails iff the solver does not converge: with the solver's RuntimeError when it does not converge, and with its TypeError or ValueError when it rejects the input |
| Fitting.NewYXFitter | src/psf_analysis_CFIM/psf_analysis/fit/fitter.py:103-105 | construction fails iff sampling fails; the estimator is built on the YX sample |
| Fitting.ZYXFitter.constructor | src/psf_analysis_CFIM/psf_analysis/fit/fitter.py:184-191 | the estimator is built on the whole crop, with debug off |
| Fitting.ZYXFitter.Fit | src/psf_analysis_CFIM/psf_analysis/fit/fitter.py:193-224 | the result is the ZYX record of the solver outcome; the debug flag is cleared by a successful fit and kept by a failing one |
| CziMetadata.RecursiveFind | src/psf_analysis_CFIM/czi_reader/czi_metadata_processor.py:7-19 | a found element carries the tag |
| CziMetadata.RecursiveFindIsFirstInDocumentOrder | src/psf_analysis_CFIM/czi_reader/czi_metadata_processor.py:7-19 | `recursive_find` returns the node itself if it matches, else the first match in depth-first child order, and None iff no element of the tree matches |
| CziMetadata.FindAll | src/psf_analysis_CFIM/czi_reader/czi_metadata_processor.py:21-27 | `findall(".//tag")` holds exactly the descendants with that tag |
| CziMetadata.FindAllKeepsDocumentOrder | src/psf_analysis_CFIM/czi_reader/czi_metadata_processor.py:21-27 | the matches are in document order: with the non-matching descendants they interleave to the preorder walk |
| CziMetadata.KeyEntries | src/psf_analysis_CFIM/czi_reader/czi_metadata_processor.py:58-64 | a key maps to its matches, or None iff there are none |
| CziMetadata.ScaleAndUnits | src/psf_analysis_CFIM/czi_reader/czi_metadata_processor.py:72-78 | "micrometre" or "µm" gives scale `[Z*1000, Y*1000, X*1000]` and units "nm", and fails with the TypeError of `None * 1000` iff a pixel size is missing; any other units leave scale and units unchanged |
| CziMetadata.ScaleConversionIsIdempotent | src/psf_analysis_CFIM/czi_reader/czi_metadata_processor.py:72-78 | converting converted units changes nothing |
| CziMetadata.KeyDict | src/psf_analysis_CFIM/czi_reader/czi_metadata_processor.py:57-64 | every one of the eight keys, and only those, is in `key_dict` |
| CziMetadata.ExtractKeyMetadata | src/psf_analysis_CFIM/czi_reader/czi_metadata_processor.py:40-100 | the method computes the specification: the TypeError on missing units or on a missing micrometre pixel size, the first ValueError of the channel loop, or the list of channel dictionaries |
| CziMetadata.BuildKeyDict | src/psf_analysis_CFIM/czi_reader/czi_metadata_processor.py:57-64 | the `key_dict` loop builds the map from every key to its matches or None |
| CziMetadata.ChannelDictionary | src/psf_analysis_CFIM/czi_reader/czi_metadata_processor.py:84-94 | the inner key loop builds one channel's dictionary, or raises at the first key with too few entries |
| CziMetadata.BuildChannels | src/psf_analysis_CFIM/czi_reader/czi_metadata_processor.py:81-100 | the channel loop gives the dictionaries of all channels, or the first error raised |
| CziMetadata.ChannelEntriesKeys | src/psf_analysis_CFIM/czi_reader/czi_metadata_processor.py:84-94 | a channel's dictionary has exactly the keys looked up |
| CziMetadata.ChannelEntriesValues | src/psf_analysis_CFIM/czi_reader/czi_metadata_processor.py:85-94 | each key of a channel's dictionary holds the entry selected for it |
| CziMetadata.ChannelEntriesErrors | src/psf_analysis_CFIM/czi_reader/czi_metadata_processor.py:90-91 | a channel fails only with the ValueError of a key with too few entries, and any such key makes it fail |
| CziMetadata.ChannelsUpToValues | src/psf_analysis_CFIM/czi_reader/czi_metadata_processor.py:81-100 | the list holds, at index i, the dictionary of channel i |
| CziMetadata.ExtractGivesOneEntryPerChannel | src/psf_analysis_CFIM/czi_reader/czi_metadata_processor.py:81-100 | on success there are exactly `channels` entries, each with blending "additive", the shared converted scale and units, and all eight keys |
| CziMetadata.ExtractSelectsEntryPerChannel | src/psf_analysis_CFIM/czi_reader/czi_metadata_processor.py:86-94 | a key not found gives None; a key found once gives its text to every channel; a key found more often has at least `channels` entries and channel i gets entry i |
| CziMetadata.TooFewEntriesRaise | src/psf_analysis_CFIM/czi_reader/czi_metadata_processor.py:90-91 | a key found 2 .. channels-1 times makes the call fail, with a ValueError naming a key with that many entries, unless the units or a micrometre pixel size are missing |
| CziMetadata.MissingPixelSizeRaises | src/psf_analysis_CFIM/czi_reader/czi_metadata_processor.py:72-74 | micrometre units with a missing Z, Y or X pixel size make the call fail with the TypeError of `None * 1000` |
| CziMetadata.MissingUnitsRaise | src/psf_analysis_CFIM/czi_reader/czi_metadata_processor.py:66-70 | without a DefaultScalingUnit element the call fails with the TypeError of indexing None, and only then: the µm fallback is unreachable |
| MultiKeyDicts.Annotated | src/psf_analysis_CFIM/library_workarounds/MultiKeyDict.py:11-14 | a dict value gains name, unique_id and wavelength and keeps its other items |
| MultiKeyDicts.MultiKeyDict.constructor | src/psf_analysis_CFIM/library_workarounds/MultiKeyDict.py:3-6 | all three tables start empty |
| MultiKeyDicts.MultiKeyDict.Set | src/psf_analysis_CFIM/library_workarounds/MultiKeyDict.py:8-17 | each table gains or replaces exactly one entry; a dict value is annotated in place; afterwards `d[name]` is the value, uuid and wavelength find it unless an earlier table holds the key, and other keys find what they found before |
| MultiKeyDicts.MultiKeyDict.Get | src/psf_analysis_CFIM/library_workarounds/MultiKeyDict.py:20-28 | name table first, then uuid, then wavelength; KeyError exactly when the key is in none |
| MultiKeyDicts.MultiKeyDict.Clear | src/psf_analysis_CFIM/library_workarounds/MultiKeyDict.py:30-33 | all tables are empty and every lookup raises KeyError |
| ImageStatistics.CountEqual | src/napari_psf_analysis_CFIM/psf_analysis/image_statistics.py:22-23 | a pixel count never exceeds the number of pixels |
| ImageStatistics.BinOf | src/napari_psf_analysis_CFIM/psf_analysis/image_statistics.py:33 | a value strictly between 0 and the maximum lies in exactly one of the `num_bins` half-open bins |
| ImageStatistics.Histogram | src/napari_psf_analysis_CFIM/psf_analysis/image_statistics.py:33 | one count per bin |
| ImageStatistics.StatsOf | src/napari_psf_analysis_CFIM/psf_analysis/image_statistics.py:39-48 | `num_bins + 2` entries: the zero entry, one entry per bin labelled by its edges, then the maximum entry, each as a percentage of all pixels |
| ImageStatistics.AnalyzeImage | src/napari_psf_analysis_CFIM/psf_analysis/image_statistics.py:5-48 | None raises ValueError, a non-array TypeError, an empty array ValueError, fewer than one bin ValueError; otherwise the loop builds the statistics |
| ImageStatistics.PixelsArePartitioned | src/napari_psf_analysis_CFIM/psf_analysis/image_statistics.py:22-30 | zero count + maximum count + in-between count is at most the pixel count, and equal iff no pixel is negative |
| ImageStatistics.HistogramCountsEveryValue | src/napari_psf_analysis_CFIM/psf_analysis/image_statistics.py:30-33 | the histogram counts each in-between pixel exactly once |
| ImageStatistics.PercentagesSumToHundred | src/napari_psf_analysis_CFIM/psf_analysis/image_statistics.py:36-46 | the percentages of all entries sum to 100 iff no pixel is negative |
| ImageStatistics.PercentIsHundred | src/napari_psf_analysis_CFIM/psf_analysis/image_statistics.py:36 | a count is 100 percent of the total iff it equals the total |
| ErrorDisplay.UpscaleTo3D | src/psf_analysis_CFIM/error_display_widget.py:18-34 | it succeeds iff the coordinate has 1 to 3 components, giving 3; otherwise ValueError |
| ErrorDisplay.UpscaleKeepsValues | src/psf_analysis_CFIM/error_display_widget.py:25-32 | a scalar or 1-tuple v gives (v, 0, 0), a pair (a, b) gives (0, a, b), a triple is kept |
| ErrorDisplay.UpscaleIsIdempotent | src/psf_analysis_CFIM/error_display_widget.py:18-34 | upscaling an upscaled coordinate changes nothing |
| ErrorDisplay.NatToStringRoundTrip | src/psf_analysis_CFIM/error_display_widget.py:100-102 | the decimal text of a count reads back as the count |
| ErrorDisplay.NoIssuesExactlyWhenEmpty | src/psf_analysis_CFIM/error_display_widget.py:93-105 | the summary is "No issues" iff both lists are empty |
| ErrorDisplay.SummaryWording | src/psf_analysis_CFIM/error_display_widget.py:98-104 | "N warning" or "N warnings", then "M error" or "M errors", space-joined, "s" only for counts above one |
| ErrorDisplay.SummaryDeterminesCounts | src/psf_analysis_CFIM/error_display_widget.py:93-105 | different counts never give the same summary text |
| ErrorDisplay.TruthyPointsRaiseOnlyWhenTooLong | src/psf_analysis_CFIM/error_display_widget.py:66-74 | a point that passes `if point:` fails to pad only when it has more than 3 components |
| ErrorDisplay.ErrorDisplayWidget.constructor | src/psf_analysis_CFIM/error_display_widget.py:38-46 | the lists start empty and the summary reads "No issues" |
| ErrorDisplay.ErrorDisplayWidget.UpdateSummary | src/psf_analysis_CFIM/error_display_widget.py:93-105 | the button text becomes the summary of the two lists, and nothing else changes |
| ErrorDisplay.ErrorDisplayWidget.AddWarning | src/psf_analysis_CFIM/error_display_widget.py:151-154 | exactly one warning is appended, the error list and points are unchanged, and the summary follows |
| ErrorDisplay.ErrorDisplayWidget.AddError | src/psf_analysis_CFIM/error_display_widget.py:157-160 | exactly one error is appended, the warning list and points are unchanged, and the summary follows |
| ErrorDisplay.ErrorDisplayWidget.Clear | src/psf_analysis_CFIM/error_display_widget.py:162-165 | both lists are emptied and the summary reads "No issues"; error points stay |
| ErrorDisplay.ErrorDisplayWidget.AddErrorPoint | src/psf_analysis_CFIM/error_display_widget.py:76-91 | the padded coordinate is appended to the points, or the padding error is raised and nothing changes |
| ErrorDisplay.ErrorDisplayWidget.OnErrorEvent | src/psf_analysis_CFIM/error_display_widget.py:66-74 | a non-empty message is added as one error; a truthy point is padded and added; a padding error surfaces after the message was recorded |
| PlotComparison.ExpandImage | src/psf_analysis_CFIM/plot_comparison.py:6-10 | rank 1 gains two leading unit axes, rank 2 one, other ranks are unchanged; the values are kept |
| PlotComparison.PadPoint | src/psf_analysis_CFIM/plot_comparison.py:12-16 | one coordinate goes last as (0, 0, p), two become (0, a, b), other lengths are unchanged |
| PlotComparison.Ensure3DKeepsTheImage | src/psf_analysis_CFIM/plot_comparison.py:5-18 | the values and their number are kept, the old shape is the tail of the new one, and rank 1 to 3 ends at rank 3 |
| PlotComparison.Ensure3DKeepsThePoint | src/psf_analysis_CFIM/plot_comparison.py:12-16 | a point keeps its coordinates last with zeros before them, and 1 to 3 coordinates end as 3 |
| PlotComparison.Ensure3DIsIdempotent | src/psf_analysis_CFIM/plot_comparison.py:5-18 | applying `ensure_3d` to its result changes nothing |
| PlotComparison.PaddingConventionsDiffer | src/psf_analysis_CFIM/plot_comparison.py:13-14 | for a single coordinate `upscale_to_3d` gives (v, 0, 0) but `ensure_3d` gives (0, 0, v); they agree on 2 and 3 coordinates |

## Left out

- Foreign computations are parameters: `peak_local_max` and the median filters, `curve_fit` and its outcome, the estimators, `np.sqrt`, `np.linalg.eigvals`, `fwhm`, `int()` and the `RangeDict` colour lookup. Their only assumed contracts are that detected peaks lie inside the image plane, that the Z median filter preserves length and that `eigvals` gives one value per row. A detector returning a peak outside the plane, which would raise an IndexError in the source, is not modelled. The colour lookup is a total function here, so a wavelength outside every range does not raise a KeyError.
- Fitting: covariance entries are real numbers or NaN from a negative square root. Infinite covariances, which `curve_fit` reports when the covariance cannot be estimated, are not modelled. `fwhm` is `utils.fwhm`, and `utils` is not part of this model; it is taken to return NaN for a NaN sigma, as an arithmetic formula does.
- Printing, `warnings.warn`, the traceback dumps and the debug plots of the fitters and of `find_beads` are side effects with no effect on results. `recursive_find`'s unused `num` argument and its path printing are left out too.
- `BeadFinder`'s `scale`, bounding box and `max_bead_dist` are stored but never used by the modelled code.
- BeadFinding.FilterByNeighbourDistance: distances are compared squared and in integers. `norm(a - b) > 5` holds iff the squared distance is above 25, so the decision is the same, but floating-point rounding of the norm is not modelled.
- ImageStatistics.AnalyzeImage: only 2D integer arrays are modelled. The RGB mean, floating-point dtypes (whose maximum is the data maximum) and the string formatting of keys (`%.1f`) and values (`%.2f%%`) are left out. The result is the list of entries in insertion order, with labels as numbers, so two bin labels that would format to the same `%.1f` key are not merged as in the dictionary.
- ImageStatistics.Histogram: bin edges and bin membership are exact rationals, `i * max / num_bins`. NumPy computes them in floating point and may place a value lying exactly on an edge differently.
- Fitting: the records hold only the fitted numbers. The `Calibrated*Image` classes, the samples' coordinate grids and the Gaussian models evaluated by the solver are not part of this model.
- Fitting.ZYXFitter.Fit: on a solver RuntimeError the source reads `optimal_params` before it is bound, so the call fails with that NameError instead. The model returns a distinct `UnboundOptimum` error and does not model the message.
- ErrorDisplay: the Qt widgets, the details dialog, the napari points layer and viewer lookup, and the global event emitter behind `report_error` are left out. The points layer is the list of padded coordinates, and `OnErrorEvent` receives the message and point that `report_error` sends. The truthiness of a NumPy array as a point is not modelled.
- MultiKeyDicts: keys are text, integers or None. Python's equality between `1`, `1.0` and `True` is not modelled, and `__repr__` is left out.
- `save_statistics_to_file` (CSV output), the plotting functions of `plot_comparison.py` other than `ensure_3d`, and `compare_by_index` do I/O only.
