# Bookkeeping of the EFT pose-benchmark evaluation scripts

This project models the bookkeeping inside `run_evaluation` in the two
evaluation scripts of the EFT repository. It leaves out the learned and
numeric parts: the network, the SMPL body model, the joint regressor and
the error metrics.

- `eft/apps/evalfrompkl.py` reads precomputed predictions from one pickle
  file per sample.
- `eft/apps/eval_export.py` runs the model and can export every sample's
  predictions into one output dict.

Both scripts:

- resolve the dataset name into a run configuration;
- file each sample's MPJPE and reconstruction error under its sequence
  name, in two insertion-ordered dicts;
- print running averages;
- end with a semicolon-delimited report, returning the two averages in
  millimetres, or `-1` when pose is not evaluated.

The export script also writes every batch into preallocated arrays through
a moving write pointer and cuts them to the recorded length at the end. Mask
and part evaluation counts per-class confusion totals over label grids.

Modules, one per concept:

- `Results`: Option and Result.
- `PosixPath`: `basename`, `dirname`, two-argument `join`.
- `Decimal`: `str(int)` and its inverse.
- `Delimited`: terminated lists and their parser.
- `RunConfig`: the dataset table.
- `PklNames`: prediction-file naming and loading.
- `Aggregation`: the per-sequence dicts and means.
- `Report`: the report string and a reader for it.
- `Centering`: gender selection and pelvis centering.
- `SmplCache`: the lazily built body models.
- `ExportBuffer`: the output arrays and the write pointer.
- `Segmentation`: mask and part counting.
- `LogSchedule`: Python's `%` and the logging rule.
- `EvalFromPkl` and `EvalExport`: the two `run_evaluation` drivers.

Each driver has two halves:

- A pure specification: `Step` for one batch, `Loop`/`Run` folding it over
  the batches, `Finish` for the end of the run, `Evaluate` for the whole
  run.
- Methods proved equal to it: `ProcessBatch`, `RunBatches`,
  `RunEvaluation`, and `RunExportAt` with its two instances.

The export script allocates its joint arrays 14 points wide for every
dataset (see "## Findings"). `EvaluateAt` and `RunExportAt` take the width
as a parameter:

- `EvaluateAsWritten` and `RunExportAsWritten` use 14, as the script does;
- `Evaluate` and `RunExport` use the width of the dataset's joint mapper, the
  corrected run that the export lemmas are stated about;
- `EvalExport.AsWrittenVersusCorrected` proves the two runs equal unless
  `mpi-inf-3dhp` is saved, so the export lemmas hold of the script as written
  everywhere else.

Lemmas then state what a successful run means: which files were found and
what the dicts hold, which steps were logging steps, what the export dict holds, and
what the returned averages and the report are.

The computations the model cannot see are parameters of the model:

- the per-sample MPJPE and reconstruction error, as functions of a
  prediction and a sample, or as given per-batch values in the export
  script;
- the `{:.02f}` formatting;
- the joint regressor;
- the file system, as a map from path to file content.

Python's `assert False`, and the exceptions the scripts raise on the
batches the data loader yields, are `Failure` results. That includes the
final printout of the mask accuracy, `accuracy / pixel_count`, which divides
`0.` by `0` and raises when no mask pixel was ever counted.

The data loader never yields an empty batch. The model takes that as the
`EvalFromPkl.Batch` type and as part of `EvalExport.AllConsistent`; what the
scripts would do with an empty batch is under "## Left out".

Two details of the code shape the model, and the model follows each script:

- The export script has no `3dpw-vibe` entry in its pose datasets
  (`eft/apps/eval_export.py:149`) or its argument choices
  (`eft/apps/eval_export.py:39`). `RunConfig` therefore takes the script as
  a parameter.
- In both scripts the masks and parts are never rendered
  (`eft/apps/eval_export.py:267-268`, `eft/apps/evalfrompkl.py:445-447`).
  A non-empty LSP batch therefore fails with `SegmentationUnavailable`, just
  as the scripts die with a `NameError`.

## Model

| member | source | states |
|---|---|---|
| PosixPath.AfterLast | eft/apps/evalfrompkl.py:310 | the index is just past an occurrence of the character, and no later position holds it (`rfind(c) + 1`) |
| PosixPath.Basename | eft/apps/evalfrompkl.py:313 | the basename contains no separator; `PosixPath.BasenameIsTail` pins it as the text after the last separator |
| PosixPath.BasenameIsTail | eft/apps/evalfrompkl.py:313 | the basename is a suffix of the path, preceded by a separator unless it is the whole path |
| PosixPath.StripTrailing | eft/apps/evalfrompkl.py:310 | the result is a prefix of the input that does not end in a separator; everything cut off is a separator |
| PosixPath.Dirname | eft/apps/evalfrompkl.py:310 | `os.path.dirname`: the text before the last separator, trailing separators stripped unless there are only separators; it has no contract of its own, and `PosixPath.SeqNameOfComposedPath` pins its use in the sequence name |
| PosixPath.Join | eft/apps/evalfrompkl.py:315 | `os.path.join(a, b)`: `b` when it is absolute, otherwise `a` and `b` with one separator between them; it has no contract of its own, and `PosixPath.BasenameOfJoin` states what the script relies on |
| PosixPath.SeqName | eft/apps/evalfrompkl.py:310 | the sequence name `basename(dirname(p))` contains no separator; `PosixPath.SeqNameOfComposedPath` pins it as the name of the parent directory |
| PosixPath.BasenameOfSuffix | eft/apps/evalfrompkl.py:313 | a separator-free name after an empty or separator-terminated prefix is the basename |
| PosixPath.AfterLastOfSuffix | eft/apps/evalfrompkl.py:310 | appending text without the character does not move its last occurrence |
| PosixPath.SeqNameOfComposedPath | eft/apps/eval_export.py:247 | every path `<prefix><name>/<file>` has sequence name `name` |
| PosixPath.BasenameOfJoin | eft/apps/evalfrompkl.py:315 | joining a directory with a separator-free file name gives back that file name as the basename |
| Decimal.DigitChar | eft/apps/evalfrompkl.py:314 | a digit below ten becomes a character between '0' and '9' |
| Decimal.DigitValue | eft/apps/evalfrompkl.py:314 | a digit character has a value below ten |
| Decimal.DigitRoundTrip | eft/apps/evalfrompkl.py:314 | reading a written digit gives the digit back |
| Decimal.NatToString | eft/apps/evalfrompkl.py:314 | a natural number is written as a non-empty string of digits without a leading zero |
| Decimal.IntToString | eft/apps/evalfrompkl.py:314 | the text starts with '-' exactly for negative numbers, and every other character is a digit |
| Decimal.ParseNatToString | eft/apps/evalfrompkl.py:314 | parsing the digits of a natural number gives the number back |
| Decimal.IntToStringRoundTrip | eft/apps/evalfrompkl.py:314 | `int(str(n)) == n` for every integer, negative ones included |
| RunConfig.Resolve | eft/apps/evalfrompkl.py:138-146 | pose runs exactly on the script's pose datasets; masks and parts run exactly on `lsp`, and never together with pose; the joint mappers keep 17 joints exactly for `mpi-inf-3dhp` and 14 otherwise |
| RunConfig.ThreeDpwRendersGroundTruth | eft/apps/evalfrompkl.py:359-366 | 3DPW and 3DPW-VIBE take their ground truth from the rendered body |
| RunConfig.MocapGroundTruth | eft/apps/evalfrompkl.py:359-361 | the Human3.6M and MPI-INF-3DHP datasets take their ground truth from the 3D keypoints |
| RunConfig.GroundTruthSourceOfPoseDatasets | eft/apps/evalfrompkl.py:359-370 | a pose dataset uses keypoints exactly when it is one of `h36m-p1`, `h36m-p2` or `mpi-inf-3dhp` |
| RunConfig.ScriptsDifferOnlyOnVibe | eft/apps/eval_export.py:149-157 | both scripts resolve every dataset name the same way except `3dpw-vibe`, which only the prediction-file script evaluates for pose |
| RunConfig.PoseDatasets | eft/apps/evalfrompkl.py:138 | the names that switch pose evaluation on: `h36m-p1`, `h36m-p2`, `3dpw`, `3dpw-vibe` and `mpi-inf-3dhp` in the prediction-file script, the same without `3dpw-vibe` in the export script (eval_export.py:149); `RunConfig.Resolve`'s contract uses it |
| RunConfig.NotContainsMissingLead | eft/apps/evalfrompkl.py:359 | a substring whose first character is absent from the string is not contained in it |
| RunConfig.Contains | eft/apps/evalfrompkl.py:359 | Python's `sub in s` on strings: `sub` occurs at some position of `s`; `RunConfig.NotContainsMissingLead` and `RunConfig.MocapGroundTruth` pin it |
| PklNames.ImgNameOnly | eft/apps/evalfrompkl.py:313 | the image name without its four-character extension contains no separator; `PklNames.ImgNameOnlyOfFile` pins its value |
| PklNames.ImgNameOnlyOfFile | eft/apps/evalfrompkl.py:313 | for a separator-free file name of at least four characters after an empty or separator-terminated prefix, the image name is the file name without its last four characters |
| PklNames.FileNameOf | eft/apps/evalfrompkl.py:314 | the f-string `{seqName}_{imgNameOnly}_{sample_idx}.pkl`; it has no contract of its own, and the three `FileNameOf` lemmas below state its layout and the round trip of the index |
| PklNames.PklFileName | eft/apps/evalfrompkl.py:310-314 | the file name built from the path's sequence name, image name and the sample index; `PklNames.PklFileNameLayout` states its layout |
| PklNames.PklPath | eft/apps/evalfrompkl.py:315 | `os.path.join(pklDir, pklfilename)`; `PklNames.PklPathBasename` states that the file sits directly in `pklDir` |
| PklNames.FileNameOfEnds | eft/apps/evalfrompkl.py:314 | the file name starts with the sequence name and '_' and ends in `.pkl` |
| PklNames.FileNameOfNoSeparator | eft/apps/evalfrompkl.py:314 | built from separator-free parts, the file name contains no separator |
| PklNames.FileNameOfIndexRoundTrip | eft/apps/evalfrompkl.py:314 | the sample index can be read back from between the last '_' and `.pkl` |
| PklNames.PklFileNameLayout | eft/apps/evalfrompkl.py:310-314 | the prediction-file name of an image path starts with its sequence name and '_', ends in `.pkl`, has no separator and gives back the sample index |
| PklNames.PklPathBasename | eft/apps/evalfrompkl.py:315 | the prediction file sits directly in `pklDir`: the basename of its path is the file name |
| PklNames.PklPaths | eft/apps/evalfrompkl.py:308-315 | one path per sample of the batch; `PklNames.PklPathsAt` pins the i-th as the prediction-file path of the i-th sample |
| PklNames.PklPathAt | eft/apps/evalfrompkl.py:308-315 | path `i` of the batch is `os.path.join(pklDir, pklfilename)` of sample `i` |
| PklNames.PklPathsAt | eft/apps/evalfrompkl.py:308-315 | every path of the batch is the prediction-file path of its own sample, in sample order |
| PklNames.Found | eft/apps/evalfrompkl.py:319-329 | the contents of the existing files, in path order, as the three `append` calls collect them; `PklNames.FoundAndMissingPartition` and `PklNames.NoneMissingAllFound` state what it holds |
| PklNames.Missing | eft/apps/evalfrompkl.py:319-322 | the paths without a file, in order; `PklNames.FoundAndMissingPartition` states that a path is listed exactly when it has no file |
| PklNames.FoundAndMissingPartition | eft/apps/evalfrompkl.py:319-329 | every path is either found or reported missing, and a path is reported missing exactly when it has no file |
| PklNames.NoneMissingAllFound | eft/apps/evalfrompkl.py:319-329 | with nothing missing, every file exists and the i-th loaded prediction is the content of the i-th path |
| PklNames.AllExistNoneMissing | eft/apps/evalfrompkl.py:319-322 | when every file exists, nothing is reported missing |
| PklNames.LoadFiles | eft/apps/evalfrompkl.py:319-329 | each present file appends exactly one entry to each of the rotmat, betas and camera lists, in path order; the missing paths are the ones without a file, and the flag is set exactly when there is one |
| PklNames.LoadPredictions | eft/apps/evalfrompkl.py:308-329 | the same, for the paths derived from the batch's samples under `pklDir` |
| Aggregation.SeqNames | eft/apps/evalfrompkl.py:425-426 | one sequence name per image path; `Aggregation.SeqNamesAt` pins the i-th as `PosixPath.SeqName` of the i-th path |
| Aggregation.SeqNameAt | eft/apps/evalfrompkl.py:425-426 | key `i` is `basename(dirname(p))` of image path `i` |
| Aggregation.SeqNamesAt | eft/apps/evalfrompkl.py:425-426 | every key is the sequence name of its own image path, in path order |
| Aggregation.Create | eft/apps/evalfrompkl.py:428-430 | `d[k] = []` for a new key: the key goes at the end of the insertion order with an empty bucket; `Aggregation.RecordNewKey` states its effect |
| Aggregation.Append | eft/apps/evalfrompkl.py:432-433 | `d[k].append(v)`; `Aggregation.ConcatAppendAt` states its effect on the concatenation |
| Aggregation.Record | eft/apps/evalfrompkl.py:428-433 | one iteration of the filing loop on one dict; `Aggregation.RecordValid` and `Aggregation.RecordTotals` state its effect |
| Aggregation.Filed | eft/apps/evalfrompkl.py:425-433 | the whole filing loop on one dict; `Aggregation.FiledBucketIsColumn` and `Aggregation.FiledKeysFirstAppearance` pin its keys and buckets |
| Aggregation.Mean | eft/apps/evalfrompkl.py:533 | `np.mean` on a non-empty list, and no value on an empty one; `Aggregation.StreamMean` and `Report.MeanMmIsMean` state what it is |
| Aggregation.Totals | eft/apps/evalfrompkl.py:438-441 | the running totals exist exactly when both concatenations are non-empty (otherwise `np.hstack([])` raises); `Aggregation.TotalsAreMeans` states their values |
| Aggregation.TotalsAreMeans | eft/apps/evalfrompkl.py:438-441 | the running totals are the means, in millimetres, of the concatenation of all buckets |
| Aggregation.RecordValid | eft/apps/evalfrompkl.py:428-433 | filing one value keeps the dict well formed and adds its key at the end only when the key is new |
| Aggregation.FiledValid | eft/apps/evalfrompkl.py:425-433 | filing a sequence of values keeps the dict well formed |
| Aggregation.RecordPaired | eft/apps/evalfrompkl.py:428-433 | filing one error in each dict under the same key keeps their keys equal and their buckets equally long |
| Aggregation.FiledPaired | eft/apps/evalfrompkl.py:425-433 | the same for a whole batch |
| Aggregation.FiledSplit | eft/apps/evalfrompkl.py:425-433 | filing two batches one after the other is filing their concatenation |
| Aggregation.FiledBucketIsColumn | eft/apps/evalfrompkl.py:428-433 | from empty dicts, a key has a bucket exactly when it occurs, and its bucket lists its values in filing order |
| Aggregation.ColumnOfAbsent | eft/apps/evalfrompkl.py:428-433 | a key that never occurs collects no values |
| Aggregation.FirstAppearances | eft/apps/evalfrompkl.py:529-530 | the distinct keys, each present exactly when it occurs in the input |
| Aggregation.FiledKeysFirstAppearance | eft/apps/evalfrompkl.py:428-430 | the dict's keys are the filed keys in order of first appearance |
| Aggregation.PairedConcatLength | eft/apps/evalfrompkl.py:438-439 | on paired dicts the two concatenations are equally long |
| Aggregation.PairedSameCount | eft/apps/evalfrompkl.py:438-439 | paired dicts hold the same number of values |
| Aggregation.SumAppend | eft/apps/evalfrompkl.py:438 | the sum of a concatenation is the sum of the sums |
| Aggregation.ConcatOtherKey | eft/apps/evalfrompkl.py:438 | changing a bucket that is not listed does not change the concatenation |
| Aggregation.ConcatAppendAt | eft/apps/evalfrompkl.py:432-438 | appending a value to one bucket adds that value to the concatenation's sum and one to its length |
| Aggregation.RecordNewKey | eft/apps/evalfrompkl.py:428-432 | filing under a new key adds the key at the end with a one-value bucket |
| Aggregation.ConcatNewKey | eft/apps/evalfrompkl.py:438 | a new last key puts its bucket at the end of the concatenation |
| Aggregation.RecordTotals | eft/apps/evalfrompkl.py:432-438 | filing one value adds it to the overall sum and one to the overall count |
| Aggregation.RecordNewKeyAll | eft/apps/evalfrompkl.py:428-438 | filing under a new key appends the value to the concatenation |
| Aggregation.FiledTotals | eft/apps/evalfrompkl.py:425-438 | filing a batch adds its sum to the overall sum and its size to the overall count |
| Aggregation.StreamMean | eft/apps/evalfrompkl.py:526-533 | the overall mean is the mean of every filed value, whatever the sequence order |
| Aggregation.WorkedExample | eft/apps/evalfrompkl.py:526-543 | samples A:10, B:20, A:30 give keys A then B, bucket means 20 and 20, and an overall mean of 20 |
| Aggregation.WorkedExampleBuckets | eft/apps/evalfrompkl.py:428-433 | after filing A:10, B:20, A:30, the buckets are A = [10, 30] and B = [20] |
| Aggregation.CountWeightedBuckets | eft/apps/evalfrompkl.py:428-433 | after filing A:0, A:0, B:30, the buckets are A = [0, 0] and B = [30] |
| Aggregation.CountWeightedNotMeanOfMeans | eft/apps/evalfrompkl.py:533 | the overall average weights by count: it is 10 for A:0, A:0, B:30, while the bucket means are 0 and 30 |
| Aggregation.FileStep | eft/apps/evalfrompkl.py:428-433 | creating both buckets when the key is missing from the MPJPE dict, then appending, is filing the key in each dict, and the dicts stay paired |
| Aggregation.FileErrors | eft/apps/evalfrompkl.py:425-433 | only the first `len(r_error)` names are filed, each with its own two errors, and the dicts stay well formed and paired |
| Aggregation.FileKeys | eft/apps/eval_export.py:246-254 | the filing loop leaves exactly the dicts obtained by filing every key with its errors, still paired |
| Delimited.IndexOf | eft/apps/evalfrompkl.py:529-543 | the first position of the character, or none exactly when it does not occur |
| Delimited.Terminated | eft/apps/evalfrompkl.py:529-543 | every item followed by the terminator, as the `+=` loops build each line; `Delimited.SplitTerminatedRoundTrip` is its inverse |
| Delimited.TerminatedSnoc | eft/apps/evalfrompkl.py:530-531 | appending one more item appends the item and its terminator to the text |
| Delimited.TerminatedAvoids | eft/apps/evalfrompkl.py:529-543 | a character in neither the items nor the terminator does not occur in the text |
| Delimited.IndexOfFirst | eft/apps/evalfrompkl.py:529-543 | the first occurrence is right after a prefix that avoids the character |
| Delimited.CutFirst | eft/apps/evalfrompkl.py:529-543 | cutting at the first occurrence gives back the two sides |
| Delimited.SplitTerminatedRoundTrip | eft/apps/evalfrompkl.py:529-543 | splitting a terminated list of items that avoid the terminator gives the items back |
| Delimited.SplitTerminatedExact | eft/apps/evalfrompkl.py:529-543 | whatever a split yields, terminating its items rebuilds the text |
| Report.MeanMmIsMean | eft/apps/evalfrompkl.py:533 | `np.hstack(l).mean() * 1000` is the mean in millimetres |
| Report.MeanMm | eft/apps/evalfrompkl.py:533-543 | `np.hstack(l).mean() * 1000` of a non-empty error list, in millimetres; `Report.MeanMmIsMean` states it is the mean times 1000 |
| Report.Cells | eft/apps/evalfrompkl.py:535-543 | one formatted mean in millimetres per key, in key order; `Report.ReportLayout` states their place in the report |
| Report.TableOf | eft/apps/evalfrompkl.py:529-543 | the report's cells: the MPJPE dict's keys, the two overall averages and the per-key cells; `Report.ReportLayout` and `EvalFromPkl.ReportOrder` state them |
| Report.Render | eft/apps/evalfrompkl.py:529-543 | the three lines of the report joined by newlines; `Report.ReadRender` is its inverse |
| Report.ReadValuesRoundTrip | eft/apps/evalfrompkl.py:533-543 | a value line gives back its average and its cells |
| Report.CleanLine | eft/apps/evalfrompkl.py:529-543 | items without a newline give a line without one |
| Report.LinesClean | eft/apps/evalfrompkl.py:529-543 | the keys line and the MPJPE line hold no newline |
| Report.CutLines | eft/apps/evalfrompkl.py:529-543 | the three lines are recovered from the newline-separated text |
| Report.ReadRender | eft/apps/evalfrompkl.py:529-543 | the report can be read back into exactly the table it was rendered from |
| Report.ReportLayout | eft/apps/evalfrompkl.py:529-543 | the report lists the keys in dict order, then `Avg <overall> mm` and one mean per key for MPJPE, then `Avg <overall>mm` and one mean per key, in MPJPE key order, for the reconstruction error |
| Report.AppendTerminated | eft/apps/evalfrompkl.py:535-536 | the `+=` loop appends every item followed by its terminator |
| Report.BuildReport | eft/apps/evalfrompkl.py:529-543 | the built string is the rendered table of the two dicts |
| Centering.SelectByGender | eft/apps/evalfrompkl.py:364-366 | one body per sample |
| Centering.SelectByGenderPerSample | eft/apps/evalfrompkl.py:366 | a sample takes the female body when its gender flag is 1 and the male body otherwise |
| Centering.SelectByGenderAllMale | eft/apps/evalfrompkl.py:366 | with no flag equal to 1, every sample keeps its male body |
| Centering.MocapJoints | eft/apps/evalfrompkl.py:361 | one ground-truth joint per mapper entry, the j-th being keypoint `joint_mapper_gt[j]` |
| Centering.Centered | eft/apps/evalfrompkl.py:368-370 | one centered joint per mapper entry |
| Centering.Translated | eft/apps/evalfrompkl.py:368-370 | translation keeps the number of joints |
| Centering.CenteredRelativeToPelvis | eft/apps/evalfrompkl.py:368-370 | each mapped joint, shifted back by joint 0 of the unmapped set, is the joint it was mapped from |
| Centering.CenteredPelvisAtOrigin | eft/apps/evalfrompkl.py:389-391 | a mapped pelvis ends at the origin |
| Centering.CenteredTranslationInvariant | eft/apps/evalfrompkl.py:389-391 | centering ignores any common translation of the joints |
| Centering.GroundTruthJoints | eft/apps/evalfrompkl.py:359-370 | one ground-truth joint set per sample, from the keypoints or from the rendered bodies |
| Centering.RenderedGroundTruthOfSample | eft/apps/evalfrompkl.py:364-370 | on 3DPW, sample i's ground truth is its female or male body, by gender flag, regressed and centered |
| SmplCache.BodyModel.constructor | eft/apps/evalfrompkl.py:66-73 | a body model of the given gender |
| SmplCache.Cache.constructor | eft/apps/evalfrompkl.py:49-51 | the cache starts empty |
| SmplCache.Cache.Acquire | eft/apps/evalfrompkl.py:64-81 | the first call builds three fresh models, neutral, male and female, and later calls return the same three; the models are built exactly once |
| SmplCache.TwoRuns | eft/apps/evalfrompkl.py:64-81 | two runs get identical model instances, loaded only once |
| ExportBuffer.Spliced | eft/apps/eval_export.py:337 | a slice write replaces exactly the rows of the window and leaves every other row unchanged |
| ExportBuffer.SplicedIdempotent | eft/apps/eval_export.py:337-343 | repeating the same slice write changes nothing |
| ExportBuffer.SplicedExtends | eft/apps/eval_export.py:337-358 | writing at the end of the filled prefix extends that prefix by the new rows |
| ExportBuffer.WriteRows | eft/apps/eval_export.py:337 | the array holds the spliced rows afterwards |
| ExportBuffer.Scaled | eft/apps/eval_export.py:350-351 | each stored error is 1000 times the measured one |
| ExportBuffer.WrittenHolds | eft/apps/eval_export.py:337-358 | if the rows below the pointer hold the recorded batches, after the write the rows below the advanced pointer hold them and the new batch |
| ExportBuffer.ZeroRows | eft/apps/eval_export.py:127-141 | a fresh array of zero rows of the given width |
| ExportBuffer.ZeroJoints | eft/apps/eval_export.py:130 | a fresh array of zeroed joint sets |
| ExportBuffer.ZeroValues | eft/apps/eval_export.py:136-140 | a fresh array of zeros |
| ExportBuffer.Exporter.constructor | eft/apps/eval_export.py:127-142 | every output array has the dataset's length and holds zeros, no names are recorded and the pointer is 0 |
| ExportBuffer.Exporter.WritePredictions | eft/apps/eval_export.py:337-344 | the prediction arrays take the batch's rows at the pointer, nothing else changes, and the duplicated writes leave the same state |
| ExportBuffer.Exporter.WriteTargets | eft/apps/eval_export.py:346-354 | the targets, the errors times 1000 and the crop values are written at the pointer |
| ExportBuffer.Exporter.PointerCountsNames | eft/apps/eval_export.py:356-358 | the pointer equals the number of recorded names |
| ExportBuffer.Exporter.RecordBatch | eft/apps/eval_export.py:337-358 | every array takes the batch's rows `[ptr, ptr + n)`, the names are appended, the pointer advances by the batch size, and the buffer stays valid |
| ExportBuffer.Exporter.Output | eft/apps/eval_export.py:366-382 | the output dict, cut to `len(output_imgNames)`, holds exactly the recorded batches, and every field has `finalLen` entries |
| ExportBuffer.Cut | eft/apps/eval_export.py:366-382 | every output array cut to its first `finalLen` rows, `[:finalLen]`, with the image names kept whole; `ExportBuffer.Exporter.Output` states what the cut dict holds |
| EvalFromPkl.Names | eft/apps/evalfrompkl.py:308 | the image names of the batch, in order |
| EvalFromPkl.Scored | eft/apps/evalfrompkl.py:414-420 | one error per sample |
| EvalFromPkl.PresentWhenNoneMissing | eft/apps/evalfrompkl.py:336 | a batch with no missing path has every prediction file |
| EvalFromPkl.Predictions | eft/apps/evalfrompkl.py:319-333 | the i-th prediction is the content of the i-th sample's file |
| EvalFromPkl.PoseStep | eft/apps/evalfrompkl.py:425-441 | after a pose batch the dicts are well formed and paired |
| EvalFromPkl.Step | eft/apps/evalfrompkl.py:308-493 | after any successful batch the dicts are well formed and paired |
| EvalFromPkl.Run | eft/apps/evalfrompkl.py:149-493 | after any successful run the dicts are well formed and paired |
| EvalFromPkl.Finish | eft/apps/evalfrompkl.py:518-572 | after the loop: off the pose datasets -1, except on a verbose `lsp` run, where the final `accuracy / pixel_count` divides by zero; on a pose dataset the two averages and the report; `EvalFromPkl.FinishedPose` and `EvalFromPkl.NotPoseReturnsMinusOne` state them |
| EvalFromPkl.Evaluate | eft/apps/evalfrompkl.py:54-572 | the whole run: the batch loop, then the conclusion; `EvalFromPkl.PoseAverages`, `EvalFromPkl.MissingFilesReported` and `EvalFromPkl.LspOutcome` state its outcomes |
| EvalFromPkl.EvaluateFinishes | eft/apps/evalfrompkl.py:516-572 | a successful evaluation had a successful batch loop and is the conclusion drawn from its state |
| EvalFromPkl.Zip | eft/apps/evalfrompkl.py:327-333 | the three loaded lists pair up into exactly the found predictions |
| EvalFromPkl.FilePoseBatch | eft/apps/evalfrompkl.py:425-441 | the filing loop computes the pose step |
| EvalFromPkl.ProcessBatch | eft/apps/evalfrompkl.py:308-493 | one loop iteration computes the step: stop on a missing file, file a pose batch, fail on a segmentation batch |
| EvalFromPkl.Advance | eft/apps/evalfrompkl.py:149-493 | one more iteration extends the run over the first `step` batches to the first `step + 1` |
| EvalFromPkl.RunBatches | eft/apps/evalfrompkl.py:149-493 | the loop over the batches ends as the specification of the run, stopping at the first failing batch |
| EvalFromPkl.Conclude | eft/apps/evalfrompkl.py:518-572 | the code after the loop computes the conclusion of the run, the verbose `lsp` division by zero included |
| EvalFromPkl.RunEvaluation | eft/apps/evalfrompkl.py:54-572 | the whole method, starting with the body models from the module-level cache, computes the specification of the run, and leaves the cache valid with the models built once |
| EvalFromPkl.RunStopsAtFailure | eft/apps/evalfrompkl.py:336-338 | once a prefix of the batches fails, the run fails in the same way |
| EvalFromPkl.FileScores | eft/apps/evalfrompkl.py:414-420 | one error per sample of a batch whose files all exist |
| EvalFromPkl.AllScores | eft/apps/evalfrompkl.py:414-433 | one error per filed sequence name over the run |
| EvalFromPkl.ScoredFromFiles | eft/apps/evalfrompkl.py:319-420 | scoring the loaded predictions is scoring each sample against its own file |
| EvalFromPkl.RunLast | eft/apps/evalfrompkl.py:149-493 | a successful run is a successful shorter run plus a successful last batch |
| EvalFromPkl.StepFound | eft/apps/evalfrompkl.py:319-441 | a successful batch had every prediction file, and on a pose dataset it filed their scores |
| EvalFromPkl.PoseStepState | eft/apps/evalfrompkl.py:425-441 | a pose batch files the batch's keys and scores and appends the running means of the new dicts |
| EvalFromPkl.RunFindsEveryFile | eft/apps/evalfrompkl.py:319-338 | a successful run found the prediction file of every sample |
| EvalFromPkl.MissingFilesReported | eft/apps/evalfrompkl.py:319-338 | a run stopped for missing files names at least one path, and every named path has no file |
| EvalFromPkl.StepMissingReported | eft/apps/evalfrompkl.py:319-338 | a batch stopped for missing files names at least one path, and every named path has no file |
| EvalFromPkl.PoseRunState | eft/apps/evalfrompkl.py:425-441 | after a pose run, both dicts are all sequence names filed with all scores, there is one running pair per batch, and the last pair is the means over all buckets |
| EvalFromPkl.PoseStepFromFiles | eft/apps/evalfrompkl.py:319-441 | a successful pose batch found every file and filed each sample's errors, scored against its own file, under its sequence name, then appended the new running means |
| EvalFromPkl.RunningGrows | eft/apps/evalfrompkl.py:438-441 | each pose batch appends one running pair and keeps the earlier ones |
| EvalFromPkl.FinishedPose | eft/apps/evalfrompkl.py:526-560 | the returned pair is the mean MPJPE and mean reconstruction error in millimetres over all buckets, and the report is the rendered table of the two dicts |
| EvalFromPkl.PoseAverages | eft/apps/evalfrompkl.py:138-560 | a run that returns averages was on a pose dataset, found every file and returned the means in millimetres of all samples' scores, with one running pair per batch |
| EvalFromPkl.NotPoseReturnsMinusOne | eft/apps/evalfrompkl.py:562-572 | a successful run on a dataset without pose evaluation returns -1 |
| EvalFromPkl.ReportOrder | eft/apps/evalfrompkl.py:529-543 | the report lists the sequences in order of first appearance, with one MPJPE cell and one reconstruction cell per sequence |
| EvalFromPkl.PoseStepSucceeds | eft/apps/evalfrompkl.py:425-441 | on a non-empty batch the running means always exist: the `np.hstack` at line 438 never sees empty dicts |
| EvalFromPkl.RunNeverLacksSamples | eft/apps/evalfrompkl.py:149-493 | no batch loop fails for want of samples |
| EvalFromPkl.PoseRunHasSamples | eft/apps/evalfrompkl.py:149-560 | on a pose dataset with at least one batch, no run fails for want of samples, and one whose loop succeeds returns the two averages |
| EvalFromPkl.LspOutcome | eft/apps/evalfrompkl.py:336-572 | on `lsp` the first batch stops the run with its missing files or the unrendered masks; with no batch, a verbose run divides by zero in the final mask accuracy and a quiet one returns -1 |
| EvalExport.PoseStep | eft/apps/eval_export.py:246-260 | after filing a batch the dicts are well formed and paired |
| EvalExport.Step | eft/apps/eval_export.py:176-358 | a successful batch leaves well-formed, paired dicts, and when saving it was a pose batch whose joint rows fit the joint arrays |
| EvalExport.Loop | eft/apps/eval_export.py:159-358 | after any successful run the dicts are well formed and paired |
| EvalExport.Stacked | eft/apps/eval_export.py:366-382 | the stacked dict holds exactly the given batches |
| EvalExport.Exported | eft/apps/eval_export.py:366-382 | the output dict: the stacked batches when saving, every field empty otherwise; `EvalExport.OutputHoldsBatches` states what it holds |
| EvalExport.Finish | eft/apps/eval_export.py:394-439 | after the loop: on a pose dataset the averages, the report and the output dict; otherwise -1, except that a verbose `lsp` run divides by zero; `EvalExport.FinishedPose` and `EvalExport.NotPoseReturnsMinusOne` state them |
| EvalExport.EvaluateAt | eft/apps/eval_export.py:52-439 | the whole run with joint arrays of the given width; `RunExportAt` computes it |
| EvalExport.EvaluateAsWritten | eft/apps/eval_export.py:127-142 | the run as written, joint arrays 14 points wide; `EvalExport.AsWrittenVersusCorrected` ties it to the corrected run |
| EvalExport.Evaluate | eft/apps/eval_export.py:130-157 | the corrected run, joint arrays as wide as the dataset's joint mapper; the export lemmas below state its outcomes |
| EvalExport.FilePose | eft/apps/eval_export.py:246-260 | the filing loop computes the pose step |
| EvalExport.ProcessBatch | eft/apps/eval_export.py:176-331 | one iteration's checks, in the order of the loop body, compute the step |
| EvalExport.Advance | eft/apps/eval_export.py:159-331 | one more iteration extends the loop by one batch; a successful saving step fits the joint arrays |
| EvalExport.Conclude | eft/apps/eval_export.py:394-439 | the code after the loop computes the conclusion of the run |
| EvalExport.Allocate | eft/apps/eval_export.py:127-142 | a fresh, valid, empty buffer of the given length and joint width |
| EvalExport.Save | eft/apps/eval_export.py:332-358 | when saving, the batch is recorded; otherwise the buffer's contents are unchanged |
| EvalExport.RunBatches | eft/apps/eval_export.py:159-358 | the loop over the batches and the buffer ends as the specification of the loop; when it succeeds, the buffer has recorded every batch if saving and none otherwise |
| EvalExport.RunExportAt | eft/apps/eval_export.py:52-439 | acquiring the body models from the module-level cache, allocating the output arrays at the given width, running the loop, cutting the arrays and concluding computes the specification of the run at that width, and leaves the cache valid with the models built once |
| EvalExport.RunExportAsWritten | eft/apps/eval_export.py:52-439 | the method as written, with 14-point joint arrays, computes `EvalExport.EvaluateAsWritten` |
| EvalExport.RunExport | eft/apps/eval_export.py:52-439 | the corrected run (joint arrays as wide as the joint mapper, not 14 as written) computes `EvalExport.Evaluate` |
| EvalExport.AllNamesWithin | eft/apps/eval_export.py:356 | the names of a prefix of the batches are no more than all names, and they grow batch by batch |
| EvalExport.LoopStopsAtFailure | eft/apps/eval_export.py:159-358 | once a prefix of the batches fails, the run fails in the same way |
| EvalExport.AllKeys | eft/apps/eval_export.py:247 | one sequence name per sample |
| EvalExport.ErrorsPerSample | eft/apps/eval_export.py:239-254 | one MPJPE, one reconstruction error and one sequence name per sample |
| EvalExport.LoopLast | eft/apps/eval_export.py:159-358 | a successful run is a successful shorter run plus a successful last batch |
| EvalExport.StepState | eft/apps/eval_export.py:246-331 | a successful step files the batch on a pose dataset and appends the step to the recorded logging steps exactly when verbose and the condition at line 318 holds (whether or not the dataset prints anything) |
| EvalExport.PoseLoopState | eft/apps/eval_export.py:246-254 | after a pose run, both dicts are all sequence names filed with all errors |
| EvalExport.LogStepsAreMultiples | eft/apps/eval_export.py:318 | with a positive `log_freq`, step k is a logging step exactly when k + 1 is a multiple of `log_freq` |
| EvalExport.LoopLogged | eft/apps/eval_export.py:317-330 | when verbose, the recorded steps are exactly the logging steps, those where the condition at line 318 holds; otherwise none are recorded |
| EvalExport.FirstStepFails | eft/apps/eval_export.py:159-358 | a failure in the first batch fails the run |
| EvalExport.ZeroLogFreqFails | eft/apps/eval_export.py:318 | with `log_freq == 0`, a verbose run with at least one batch fails, since `step % 0` raises |
| EvalExport.StepZeroLogFreq | eft/apps/eval_export.py:318 | a verbose step with `log_freq == 0` fails |
| EvalExport.SavingNeedsPose | eft/apps/eval_export.py:344-351 | saving on a dataset without pose evaluation fails, since the joints and errors were never computed |
| EvalExport.StackedAligned | eft/apps/eval_export.py:366-382 | every field of the stacked dict has one entry per image name |
| EvalExport.EvaluateOutput | eft/apps/eval_export.py:366-382 | a successful run's output dict holds the batches when saving and is empty otherwise |
| EvalExport.OutputHoldsBatches | eft/apps/eval_export.py:366-382 | when saving, the output dict holds every batch, each field as long as the names and as the filed errors; without saving, every field is empty |
| EvalExport.ScaledConcat | eft/apps/eval_export.py:350-351 | scaling is done batch by batch |
| EvalExport.StoredErrorsInMm | eft/apps/eval_export.py:350-351 | the stored error fields are 1000 times every filed error, in order |
| EvalExport.SumScaled | eft/apps/eval_export.py:350-351 | the sum of the scaled errors is 1000 times their sum |
| EvalExport.FinishedPose | eft/apps/eval_export.py:404-427 | the returned pair is the mean MPJPE and mean reconstruction error in millimetres over all buckets; the report is the rendered table |
| EvalExport.PoseAverages | eft/apps/eval_export.py:149-427 | a run that returns averages was on a pose dataset and returned the means in millimetres of all filed errors |
| EvalExport.MeanScaled | eft/apps/eval_export.py:350-351 | scaling by 1000 turns a mean in metres into the same mean in millimetres |
| EvalExport.SavedPoseOutput | eft/apps/eval_export.py:366-382 | a saving pose run outputs the stacked batches |
| EvalExport.ExportedErrorsAverage | eft/apps/eval_export.py:350-427 | when saving, the mean of the exported error fields equals the returned averages |
| EvalExport.NotPoseReturnsMinusOne | eft/apps/eval_export.py:429-439 | a successful run on a dataset without pose evaluation returns -1 |
| EvalExport.ReportOrder | eft/apps/eval_export.py:407-420 | the report lists the sequences in order of first appearance, with one cell of each kind per sequence |
| EvalExport.FirstPoseStep | eft/apps/eval_export.py:246-260 | a non-empty first batch always files and has a running mean |
| EvalExport.SingleBatchLoop | eft/apps/eval_export.py:159-358 | a run of one batch is its first step |
| EvalExport.PoseSaveStep | eft/apps/eval_export.py:176-358 | saving on a pose dataset, a first non-empty batch succeeds exactly when its joint rows fit the arrays |
| EvalExport.AsWrittenRejectsMpiExport | eft/apps/eval_export.py:130-157 | with the arrays 14 wide as written, saving any non-empty MPI-INF-3DHP batch fails on the joint shape |
| EvalExport.CorrectedSavesMpiExport | eft/apps/eval_export.py:130-157 | with the arrays as wide as the joint mapper, the same run succeeds |
| EvalExport.LoopFitsJoints | eft/apps/eval_export.py:344-348 | when every batch's joint rows fit the arrays, the loop never fails on the joint shape |
| EvalExport.CorrectedWidthNeverMismatches | eft/apps/eval_export.py:130-157 | with the arrays as wide as the dataset's joint mapper, no run fails on the joint shape when every batch has that many joints per sample |
| EvalExport.StepIgnoresWidthUnlessSaving | eft/apps/eval_export.py:130-358 | without saving, the width of the joint arrays plays no part in a step |
| EvalExport.LoopIgnoresWidthUnlessSaving | eft/apps/eval_export.py:130-358 | without saving, the width of the joint arrays plays no part in the loop |
| EvalExport.AsWrittenVersusCorrected | eft/apps/eval_export.py:130-157 | the run as written is the corrected run unless `mpi-inf-3dhp` is saved, and saving `mpi-inf-3dhp` with 17-point rows, the run as written fails |
| EvalExport.PoseStepSucceeds | eft/apps/eval_export.py:246-260 | on a non-empty batch the running means always exist: the `np.hstack` never sees empty dicts |
| EvalExport.StepNeverLacksSamples | eft/apps/eval_export.py:176-358 | no step fails for want of samples or of mask pixels |
| EvalExport.LoopNeverLacksSamples | eft/apps/eval_export.py:159-358 | no batch loop fails for want of samples or of mask pixels |
| EvalExport.PoseRunHasSamples | eft/apps/eval_export.py:159-427 | on a pose dataset with at least one batch, no run fails for want of samples, and one whose loop succeeds returns the two averages |
| EvalExport.LspOutcome | eft/apps/eval_export.py:159-439 | on `lsp` any batch stops the run on the unrendered masks; with no batch, a verbose run divides by zero in the final mask accuracy and a quiet one returns -1 |
| LogSchedule.PyMod | eft/apps/eval_export.py:318 | Python's remainder takes the sign of the divisor and completes Python's floor division |
| LogSchedule.PyDiv | eft/apps/eval_export.py:318 | Python's floor division `a // b`, rounding toward negative infinity for a negative divisor; its defining equation `a == b * (a // b) + a % b` is part of `LogSchedule.PyMod`'s contract |
| LogSchedule.LogsAt | eft/apps/eval_export.py:317-318 | whether step k is a logging step, `k % log_freq == log_freq - 1` with Python's remainder, and `None` for `log_freq == 0`, where Python raises ZeroDivisionError; `LogSchedule.LogsEveryFreqSteps` and `LogSchedule.NeverLogsWithNegativeFreq` pin it for positive and negative frequencies |
| LogSchedule.LogsEveryFreqSteps | eft/apps/eval_export.py:318 | with a positive `log_freq`, step k is a logging step exactly when k + 1 is a multiple of `log_freq` |
| LogSchedule.NeverLogsWithNegativeFreq | eft/apps/eval_export.py:318 | with a negative `log_freq` no step is a logging step, since a remainder is never `log_freq - 1` |
| Segmentation.MaskOf | eft/apps/eval_export.py:278-280 | a pixel is foreground exactly when its value is positive |
| Segmentation.PartPred | eft/apps/eval_export.py:305-306 | the class-c prediction flag of an ignored ground-truth pixel is cleared |
| Segmentation.Cleared | eft/apps/eval_export.py:310-311 | label 255 becomes 0, and every other label is unchanged |
| Segmentation.Kept | eft/apps/eval_export.py:303-309 | the pixels kept for counting are those with a ground-truth label other than 255 |
| Segmentation.ClassCount | eft/apps/eval_export.py:284-289 | the number of pixels of class c, `(gt == c).sum()`; `Segmentation.CountsAddUp` ties it to tp + fn and tp + fp |
| Segmentation.Hits | eft/apps/eval_export.py:284-289 | the true positives of class c, `(cgt & cpred).sum()`: pixels labelled c in both grids; `Segmentation.CountsAddUp` and `Segmentation.MaskAgreeIsHits` pin it |
| Segmentation.FalsePos | eft/apps/eval_export.py:284-289 | the false positives of class c, `(~cgt & cpred).sum()`: pixels predicted c but labelled otherwise; `Segmentation.CountsAddUp` pins it |
| Segmentation.Misses | eft/apps/eval_export.py:284-289 | the false negatives of class c, `(cgt & ~cpred).sum()`: pixels labelled c but predicted otherwise; `Segmentation.CountsAddUp` pins it |
| Segmentation.Agree | eft/apps/eval_export.py:282 | the accuracy added, `(gt == pred).sum()`: pixels where the two grids agree; `Segmentation.AgreeBounded` and `Segmentation.MaskAgreeIsHits` pin it |
| Segmentation.PartCounts | eft/apps/eval_export.py:303-309 | class c's tp, fp and fn counted after `cpred[gt_parts == 255] = 0`; `Segmentation.PartCountsUseMaskedPred` and `Segmentation.IgnoredAddNothing` pin it |
| Segmentation.CountsAddUp | eft/apps/eval_export.py:284-289 | tp + fn counts the ground-truth pixels of class c, and tp + fp the predicted pixels of class c |
| Segmentation.AgreeBounded | eft/apps/eval_export.py:282-283 | the accuracy added is at most the pixel count added |
| Segmentation.MaskAgreeIsHits | eft/apps/eval_export.py:282-289 | on binary masks, the agreeing pixels are the true positives of the two classes |
| Segmentation.IgnoredAddNothing | eft/apps/eval_export.py:303-309 | for every class, pixels whose ground truth is 255 add nothing to tp, fp or fn |
| Segmentation.PartCountsUseMaskedPred | eft/apps/eval_export.py:303-309 | the part counts are the textbook tp, fp and fn of the masked prediction flags |
| Segmentation.ClearIgnored | eft/apps/eval_export.py:310-311 | the array becomes its cleared grid |
| Segmentation.Tally.constructor | eft/apps/eval_export.py:113-124 | all counters and totals start at zero |
| Segmentation.Tally.AddMask | eft/apps/eval_export.py:282-289 | one mask adds its agreement to the accuracy, its size to the pixel count, and each class's tp, fp and fn |
| Segmentation.Tally.AddParts | eft/apps/eval_export.py:303-314 | one part grid adds each of the 7 classes' counts from the masked prediction, then replaces 255 by 0 in both grids before the accuracy and pixel counts |
| Segmentation.MaskAccuracyBounded | eft/apps/eval_export.py:282-289 | one mask adds no more accuracy than pixels, and, for classes 0 and 1, tp + fn grows by the number of ground-truth pixels of that class |

## Left out

- The network, the SMPL forward passes, the `J_regressor` product and `tgm.rotation_matrix_to_angle_axis` are left out: they are tensor numerics in foreign libraries. Their results are inputs: the export script's per-batch `BatchRows`, and the regressor passed to `Centering.GroundTruthJoints`.
- The square-root MPJPE and the Procrustes `reconstruction_error` are left out as floating-point numerics. They are uninterpreted functions, or given per-sample values.
- The F1 ratios are left out: they are float divisions, NaN on an empty class, and only printed.
- File and console I/O is left out:
  - pickle loads and dumps, `np.savez`, `cv2.imread` and `uncrop`;
  - the report file write;
  - every `print`.
- The file system is a map from path to prediction. `{:.02f}` is a formatting parameter, and only the report's structure is modelled.
- The dead arrays are not modelled. These are `mpjpe`, `recon_err`, `*_smpl` and `shape_err`, which are allocated but never written. The mean of an empty slice at step 0 of the intermediate printout (a NaN) is not modelled either.
- The `if False:` visualisation blocks and the overwritten `pklDir` constants are left out: they are dead code. `pklDir` is a parameter.
- The command line, checkpoint loading, the DataLoader, `tqdm` and CUDA transfers are left out as plumbing.
- The prediction-file script's `save_results` arrays and `np.savez` are left out. The prediction-file script is modelled for evaluation only; the export buffer is modelled on the export script.
- The prediction-file script's `step % log_freq` with `log_freq == 0` in its intermediate printout is not modelled: `log_freq` is not a parameter of that model. The mask accuracy division in the same printout is unreachable, since every `lsp` batch fails first; the final printout's division by zero is modelled as `NoMaskPixels`. The export script's identical block is modelled in `EvalExport.Step`.
- The per-batch `>>>` printout is modelled only in part. In the prediction-file driver its running totals are recorded, one pair per batch (`EvalFromPkl.State.running`), whatever `bVerbose` is; the sequence name and the batch means it prints are not modelled. In the export script the same printout is not modelled. In both, the `np.hstack` before it is modelled, as the `NoPoseSamples` failure when both dicts are still empty.
- EvalFromPkl.PoseRunState: the running totals are tied to the full dicts only for the last batch. The earlier totals are tied to the earlier prefixes through `EvalFromPkl.RunningGrows` and `EvalFromPkl.RunLast`.
- Mask and part counting run over label grids passed in as inputs, since the renderer that would produce them is commented out. A non-empty LSP batch in either driver fails with `SegmentationUnavailable`, the model's form of the script's `NameError`.
- Whether a batch's joint rows fit the joint arrays is not decided in the buffer. numpy's shape check on the slice assignments is modelled in `EvalExport.Step`, as the `JointShapeMismatch` failure. `ExportBuffer.Exporter.RecordBatch` takes rows of any width.
- `ExportBuffer.Exporter.RecordBatch` does not model rows of the wrong width inside the 72-, 10-, 3- and 2-wide arrays. Those shapes come from the network and the dataset and are correct by construction.
- Empty batches are not modelled. The data loader never yields one. On an empty batch the export script would fail at `batch['imgname'][0]` (`eft/apps/eval_export.py:162`), and the prediction-file script would reach its body model with `pred_betas` unassigned, or left over from the previous batch (`eft/apps/evalfrompkl.py:342`).
- EvalExport.RunExport: allocates the joint arrays as wide as the dataset's joint mapper, not 14 points wide as the script does (`eft/apps/eval_export.py:130`, `eft/apps/eval_export.py:134`). The script as written is `EvalExport.RunExportAsWritten`. By `EvalExport.AsWrittenVersusCorrected` the two runs agree unless `mpi-inf-3dhp` is saved, so the run-level lemmas about `EvalExport.Evaluate` carry over to the script as written in every other case.
- The module-level SMPL globals are a `SmplCache.Cache` object that `EvalFromPkl.RunEvaluation` and `EvalExport.RunExportAt` take and acquire the models from first, and not a Python global. The models are not used further, since the forward passes are left out.

## Findings

| source | as written | input that shows it | evidently intended | confidence | as-written member | corrected member |
|---|---|---|---|---|---|---|
| eft/apps/eval_export.py:130-157 | `output_pred_joints` and `output_gt_joints` are allocated 14 joints wide for every dataset, but the joint mappers keep 17 joints for `mpi-inf-3dhp`; the writes at lines 344 and 348 then fail numpy's shape check | `dataset_name = 'mpi-inf-3dhp'`, a `result_file` given (saving on), any non-empty batch | joint arrays as wide as the joint mapper (17 for MPI-INF-3DHP, 14 otherwise) | not executed | EvalExport.AsWrittenRejectsMpiExport | EvalExport.CorrectedWidthNeverMismatches |
