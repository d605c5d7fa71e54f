/**
 * `run_evaluation` of the evaluation-from-prediction-files script: for each
 * batch, load every sample's prediction file; stop when any is missing; on a
 * pose dataset score every sample, file the errors under its sequence and
 * record the running totals; at the end, report and return the averages, or
 * -1 when pose is not evaluated.
 */
module EvalFromPkl {
  import opened Results
  import opened RunConfig
  import opened PklNames
  import opened Aggregation
  import opened Report
  import opened SmplCache

  datatype RunError =
    | MissingPredictions(paths: seq<string>)  // `assert False` after a batch with missing files
    | SegmentationUnavailable                 // the masks are never rendered (`mask` is undefined)
    | NoPoseSamples                           // `np.hstack` of an empty list
    | NoMaskPixels                            // `accuracy / pixel_count` with no pixel counted

  datatype Outcome =
    | PoseResult(mpjpeMm: real, reconMm: real, report: string, running: seq<(real, real)>)
    | NotPose                                 // `return -1`

  /** The per-sample MPJPE and reconstruction error, and the `{:.02f}` formatting. */
  datatype Metrics = Metrics(
    mpjpe: (Prediction, Sample) -> real,
    recon: (Prediction, Sample) -> real,
    fmt: real -> string)

  /** The two dicts and the running totals printed after each pose batch. */
  datatype State = State(m: Buckets, r: Buckets, running: seq<(real, real)>)

  ghost predicate Good(st: State) {
    Valid(st.m) && Valid(st.r) && Paired(st.m, st.r)
  }

  const Start: State := State(Empty, Empty, [])

  /** A batch of the data loader, which never yields an empty one. */
  type Batch = b: seq<Sample> | b != [] witness [Sample("", 0, [])]

  function Names(batch: seq<Sample>): (names: seq<string>)
    ensures |names| == |batch| && forall i :: 0 <= i < |batch| ==> names[i] == batch[i].imgName
  {
    seq(|batch|, i requires 0 <= i < |batch| => batch[i].imgName)
  }

  /** Every sample of the batch has its prediction file. */
  predicate AllPresent(pklDir: string, batch: seq<Sample>, files: map<string, Prediction>) {
    AllExist(PklPaths(pklDir, batch), files)
  }

  /** Each sample scored against its prediction. */
  function Scored(err: (Prediction, Sample) -> real, preds: seq<Prediction>, batch: seq<Sample>): (e: seq<real>)
    requires |preds| == |batch|
    ensures |e| == |batch|
  {
    seq(|batch|, i requires 0 <= i < |batch| => err(preds[i], batch[i]))
  }

  /** With no file reported missing, every sample has its prediction file. */
  lemma PresentWhenNoneMissing(pklDir: string, batch: seq<Sample>, files: map<string, Prediction>)
    requires Missing(PklPaths(pklDir, batch), files) == []
    ensures AllPresent(pklDir, batch, files)
  {
    NoneMissingAllFound(PklPaths(pklDir, batch), files);
  }

  /** The predictions of a batch whose files all exist: the i-th is the content of the i-th sample's file. */
  function Predictions(pklDir: string, batch: seq<Sample>, files: map<string, Prediction>): (preds: seq<Prediction>)
    requires AllPresent(pklDir, batch, files)
    ensures |preds| == |batch|
    ensures forall i :: 0 <= i < |batch| ==> preds[i] == files[PklPaths(pklDir, batch)[i]]
  {
    AllExistNoneMissing(PklPaths(pklDir, batch), files);
    NoneMissingAllFound(PklPaths(pklDir, batch), files);
    Found(PklPaths(pklDir, batch), files)
  }

  /** Files the errors of every sample of a pose batch and appends the running totals. */
  function PoseStep(met: Metrics, st: State, batch: seq<Sample>, preds: seq<Prediction>): (r: Result<State, RunError>)
    requires Good(st) && |preds| == |batch|
    ensures r.Success? ==> Good(r.value)
  {
    var keys := SeqNames(Names(batch));
    var es := Scored(met.mpjpe, preds, batch);
    var rs := Scored(met.recon, preds, batch);
    FiledValid(st.m, keys, es);
    FiledValid(st.r, keys, rs);
    FiledPaired(st.m, st.r, keys, es, rs);
    var m, r := Filed(st.m, keys, es), Filed(st.r, keys, rs);
    match Totals(m, r)
    case None => Failure(NoPoseSamples)
    case Some(t) => Success(State(m, r, st.running + [t]))
  }

  /** What one batch does to the state. */
  function Step(cfg: Config, pklDir: string, files: map<string, Prediction>, met: Metrics,
                st: State, batch: seq<Sample>): (r: Result<State, RunError>)
    requires Good(st) && batch != []
    ensures r.Success? ==> Good(r.value)
  {
    var missing := Missing(PklPaths(pklDir, batch), files);
    if missing != [] then Failure(MissingPredictions(missing))
    else if cfg.evalPose then
      PresentWhenNoneMissing(pklDir, batch, files);
      PoseStep(met, st, batch, Predictions(pklDir, batch, files))
    else if cfg.evalMasks then Failure(SegmentationUnavailable)
    else Success(st)
  }

  /** The batch loop; the first failing batch ends the run. */
  function Run(cfg: Config, pklDir: string, files: map<string, Prediction>, met: Metrics,
               batches: seq<Batch>): (r: Result<State, RunError>)
    ensures r.Success? ==> Good(r.value)
  {
    if batches == [] then Success(Start)
    else
      match Run(cfg, pklDir, files, met, batches[..|batches| - 1])
      case Failure(e) => Failure(e)
      case Success(st) => Step(cfg, pklDir, files, met, st, batches[|batches| - 1])
  }

  /**
   * After the loop: the report and the averages, or -1. With `bVerbose` (on
   * by default) the mask accuracy is printed first off the pose datasets; on
   * `lsp` every batch fails, so the run gets here only with no pixel counted
   * and `0. / 0` raises.
   */
  function Finish(cfg: Config, verbose: bool, met: Metrics, st: State): Result<Outcome, RunError>
    requires Good(st)
  {
    if !cfg.evalPose then
      if verbose && cfg.evalMasks then Failure(NoMaskPixels) else Success(NotPose)
    else if All(st.m) == [] then Failure(NoPoseSamples)
    else
      PairedSameCount(st.m, st.r);
      Success(PoseResult(MeanMm(All(st.m)), MeanMm(All(st.r)),
        Render(TableOf(st.m, st.r, met.fmt)), st.running))
  }

  function Evaluate(datasetName: string, verbose: bool, pklDir: string, files: map<string, Prediction>, met: Metrics,
                    batches: seq<Batch>): Result<Outcome, RunError>
  {
    var cfg := Resolve(FromPkl, datasetName);
    match Run(cfg, pklDir, files, met, batches)
    case Failure(e) => Failure(e)
    case Success(st) => Finish(cfg, verbose, met, st)
  }

  /** The three loaded lists, paired back into one prediction per sample. */
  method Zip(rotmats: seq<seq<real>>, betas: seq<seq<real>>, cameras: seq<seq<real>>, ghost found: seq<Prediction>)
    returns (preds: seq<Prediction>)
    requires |rotmats| == |betas| == |cameras| == |found|
    requires forall i :: 0 <= i < |found| ==>
      rotmats[i] == found[i].rotmat && betas[i] == found[i].shape && cameras[i] == found[i].camera
    ensures preds == found
  {
    preds := seq(|rotmats|, i requires 0 <= i < |rotmats| => Prediction(rotmats[i], betas[i], cameras[i]));
  }

  /**
   * The pose part of the loop body: `enumerate(batch['imgname'][:len(r_error)])`
   * files every sample's two errors, then the running totals are taken.
   */
  method FilePoseBatch(met: Metrics, st: State, batch: seq<Sample>, preds: seq<Prediction>)
    returns (res: Result<State, RunError>)
    requires Good(st) && |preds| == |batch|
    ensures res == PoseStep(met, st, batch, preds)
  {
    var errors := Scored(met.mpjpe, preds, batch);
    var rErrors := Scored(met.recon, preds, batch);
    var m, r := FileErrors(st.m, st.r, Names(batch), errors, rErrors);
    assert Names(batch)[..|batch|] == Names(batch);
    assert errors[..|batch|] == errors && rErrors[..|batch|] == rErrors;
    var totals := Totals(m, r);
    if totals.None? {
      return Failure(NoPoseSamples);
    }
    res := Success(State(m, r, st.running + [totals.value]));
  }

  /**
   * The body of the batch loop: load the batch's prediction files, stop on a
   * missing one, then evaluate pose, or fail on the masks that are never rendered.
   */
  method ProcessBatch(cfg: Config, pklDir: string, files: map<string, Prediction>, met: Metrics,
                      st: State, batch: seq<Sample>)
    returns (res: Result<State, RunError>)
    requires Good(st) && batch != []
    ensures res == Step(cfg, pklDir, files, met, st, batch)
  {
    var rotmats, betas, cameras, missing, missingPkl := LoadPredictions(pklDir, batch, files);
    if missingPkl {
      return Failure(MissingPredictions(missing));
    }
    if cfg.evalPose {
      PresentWhenNoneMissing(pklDir, batch, files);
      var preds := Zip(rotmats, betas, cameras, Predictions(pklDir, batch, files));
      res := FilePoseBatch(met, st, batch, preds);
    } else if cfg.evalMasks {
      res := Failure(SegmentationUnavailable);
    } else {
      res := Success(st);
    }
  }

  /** After the loop: the report text built with `+=`, and the return value. */
  method Conclude(cfg: Config, verbose: bool, met: Metrics, st: State) returns (out: Result<Outcome, RunError>)
    requires Good(st)
    ensures out == Finish(cfg, verbose, met, st)
  {
    if !cfg.evalPose {
      if verbose && cfg.evalMasks {
        return Failure(NoMaskPixels);
      }
      return Success(NotPose);
    }
    var m, r := st.m, st.r;
    if All(m) == [] {
      return Failure(NoPoseSamples);
    }
    PairedSameCount(m, r);
    var report := BuildReport(m, r, met.fmt);
    out := Success(PoseResult(MeanMm(All(m)), MeanMm(All(r)), report, st.running));
  }

  /** One more batch of the loop: the run over the first `step + 1` batches. */
  method Advance(cfg: Config, pklDir: string, files: map<string, Prediction>, met: Metrics,
                 batches: seq<Batch>, step: nat, st: State)
    returns (res: Result<State, RunError>)
    requires step < |batches| && Run(cfg, pklDir, files, met, batches[..step]) == Success(st)
    ensures res == Run(cfg, pklDir, files, met, batches[..step + 1])
  {
    assert batches[..step + 1][..step] == batches[..step];
    res := ProcessBatch(cfg, pklDir, files, met, st, batches[step]);
  }

  /**
   * The script's loop over batches. A batch with a missing prediction file
   * stops the run; the network is never used in its place.
   */
  method RunBatches(cfg: Config, pklDir: string, files: map<string, Prediction>, met: Metrics,
                    batches: seq<Batch>)
    returns (res: Result<State, RunError>)
    ensures res == Run(cfg, pklDir, files, met, batches)
  {
    res := Success(Start);
    var step := 0;
    while step < |batches| && res.Success?
      invariant 0 <= step <= |batches|
      invariant res == Run(cfg, pklDir, files, met, batches[..step])
    {
      res := Advance(cfg, pklDir, files, met, batches, step, res.value);
      step := step + 1;
    }
    if res.Failure? {
      RunStopsAtFailure(cfg, pklDir, files, met, batches, step);
    }
    assert batches[..|batches|] == batches;
  }

  /**
   * The whole run: the body models from the module-level cache, the batch
   * loop, then the report and the return value.
   */
  method RunEvaluation(cache: Cache, datasetName: string, verbose: bool, pklDir: string,
                       files: map<string, Prediction>, met: Metrics, batches: seq<Batch>)
    returns (out: Result<Outcome, RunError>)
    requires cache.Valid()
    modifies cache
    ensures cache.Valid() && cache.loads == 1
    ensures out == Evaluate(datasetName, verbose, pklDir, files, met, batches)
  {
    var smplNeutral, smplMale, smplFemale := cache.Acquire();
    var cfg := Resolve(FromPkl, datasetName);
    var res := RunBatches(cfg, pklDir, files, met, batches);
    if res.Failure? {
      return Failure(res.error);
    }
    out := Conclude(cfg, verbose, met, res.value);
  }

  /** Once a prefix of the batches fails, the whole run fails the same way. */
  lemma {:induction false} RunStopsAtFailure(cfg: Config, pklDir: string, files: map<string, Prediction>,
                                            met: Metrics, batches: seq<Batch>, k: nat)
    requires k <= |batches| && Run(cfg, pklDir, files, met, batches[..k]).Failure?
    ensures Run(cfg, pklDir, files, met, batches) == Run(cfg, pklDir, files, met, batches[..k])
    decreases |batches| - k
  {
    if k == |batches| {
      assert batches[..k] == batches;
    } else {
      assert batches[..k + 1][..k] == batches[..k];
      RunStopsAtFailure(cfg, pklDir, files, met, batches, k + 1);
    }
  }

  // ---------------------------------------------------------------------------
  // Properties of a run
  // ---------------------------------------------------------------------------

  /** Every batch has all of its prediction files. */
  ghost predicate NoneMissing(pklDir: string, batches: seq<Batch>, files: map<string, Prediction>) {
    batches == []
    || (NoneMissing(pklDir, batches[..|batches| - 1], files) && AllPresent(pklDir, batches[|batches| - 1], files))
  }

  /** The sequence names of every sample of every batch, in order. */
  function AllKeys(batches: seq<Batch>): (keys: seq<string>)
  {
    if batches == [] then []
    else AllKeys(batches[..|batches| - 1]) + SeqNames(Names(batches[|batches| - 1]))
  }

  /** Each sample of a batch scored under `err` against the content of its own file. */
  function FileScores(err: (Prediction, Sample) -> real, pklDir: string, files: map<string, Prediction>,
                      batch: seq<Sample>): (e: seq<real>)
    requires AllPresent(pklDir, batch, files)
    ensures |e| == |batch|
  {
    var paths := PklPaths(pklDir, batch);
    seq(|batch|, i requires 0 <= i < |batch| && paths[i] in files => err(files[paths[i]], batch[i]))
  }

  /** Every sample's error under `err`, scored against its own file, in order. */
  function AllScores(err: (Prediction, Sample) -> real, pklDir: string, files: map<string, Prediction>,
                     batches: seq<Batch>): (scores: seq<real>)
    requires NoneMissing(pklDir, batches, files)
    ensures |scores| == |AllKeys(batches)|
  {
    if batches == [] then []
    else
      AllScores(err, pklDir, files, batches[..|batches| - 1])
        + FileScores(err, pklDir, files, batches[|batches| - 1])
  }

  /** Scoring the loaded predictions is scoring every sample against its file. */
  lemma ScoredFromFiles(err: (Prediction, Sample) -> real, pklDir: string, files: map<string, Prediction>,
                        batch: seq<Sample>)
    requires AllPresent(pklDir, batch, files)
    ensures Scored(err, Predictions(pklDir, batch, files), batch) == FileScores(err, pklDir, files, batch)
  {
  }

  /** A successful run is its last batch's step from the successful run before it. */
  lemma RunLast(cfg: Config, pklDir: string, files: map<string, Prediction>,
                met: Metrics, batches: seq<Batch>)
    requires batches != [] && Run(cfg, pklDir, files, met, batches).Success?
    ensures var prev := Run(cfg, pklDir, files, met, batches[..|batches| - 1]);
      && prev.Success?
      && Step(cfg, pklDir, files, met, prev.value, batches[|batches| - 1]) == Run(cfg, pklDir, files, met, batches)
  {
  }

  /** A successful step found every file, and on a pose dataset it is the pose step. */
  lemma StepFound(cfg: Config, pklDir: string, files: map<string, Prediction>, met: Metrics,
                  st: State, batch: seq<Sample>)
    requires Good(st) && batch != [] && Step(cfg, pklDir, files, met, st, batch).Success?
    ensures AllPresent(pklDir, batch, files)
    ensures cfg.evalPose ==>
      Step(cfg, pklDir, files, met, st, batch) == PoseStep(met, st, batch, Predictions(pklDir, batch, files))
  {
    PresentWhenNoneMissing(pklDir, batch, files);
  }

  /** What a successful pose step leaves behind. */
  lemma PoseStepState(met: Metrics, st: State, batch: seq<Sample>, preds: seq<Prediction>)
    requires Good(st) && |preds| == |batch| && PoseStep(met, st, batch, preds).Success?
    ensures var st' := PoseStep(met, st, batch, preds).value;
      && st'.m == Filed(st.m, SeqNames(Names(batch)), Scored(met.mpjpe, preds, batch))
      && st'.r == Filed(st.r, SeqNames(Names(batch)), Scored(met.recon, preds, batch))
      && Totals(st'.m, st'.r).Some?
      && st'.running == st.running + [Totals(st'.m, st'.r).value]
  {
  }

  /** A successful run never met a missing file: no prediction came from anywhere but its file. */
  lemma {:induction false} RunFindsEveryFile(cfg: Config, pklDir: string, files: map<string, Prediction>,
                                            met: Metrics, batches: seq<Batch>)
    requires Run(cfg, pklDir, files, met, batches).Success?
    ensures NoneMissing(pklDir, batches, files)
  {
    if batches != [] {
      var n := |batches| - 1;
      RunLast(cfg, pklDir, files, met, batches);
      RunFindsEveryFile(cfg, pklDir, files, met, batches[..n]);
      StepFound(cfg, pklDir, files, met, Run(cfg, pklDir, files, met, batches[..n]).value, batches[n]);
    }
  }

  /** A step stopped by missing files names files that do not exist, at least one. */
  lemma StepMissingReported(cfg: Config, pklDir: string, files: map<string, Prediction>, met: Metrics,
                            st: State, batch: seq<Sample>, ps: seq<string>)
    requires Good(st) && batch != [] && Step(cfg, pklDir, files, met, st, batch) == Failure(MissingPredictions(ps))
    ensures ps != [] && forall p :: p in ps ==> p !in files
  {
    FoundAndMissingPartition(PklPaths(pklDir, batch), files);
  }

  /** A run stopped by missing files names exactly files that do not exist, at least one. */
  lemma {:induction false} MissingFilesReported(cfg: Config, pklDir: string, files: map<string, Prediction>,
                                               met: Metrics, batches: seq<Batch>, ps: seq<string>)
    requires Run(cfg, pklDir, files, met, batches) == Failure(MissingPredictions(ps))
    ensures ps != [] && forall p :: p in ps ==> p !in files
  {
    var n := |batches| - 1;
    var prev := Run(cfg, pklDir, files, met, batches[..n]);
    if prev.Failure? {
      MissingFilesReported(cfg, pklDir, files, met, batches[..n], ps);
    } else {
      StepMissingReported(cfg, pklDir, files, met, prev.value, batches[n], ps);
    }
  }

  /** A successful pose step files the errors scored against the batch's own files. */
  lemma PoseStepFromFiles(cfg: Config, pklDir: string, files: map<string, Prediction>, met: Metrics,
                          st: State, batch: seq<Sample>, st': State)
    requires cfg.evalPose && Good(st) && batch != [] && Step(cfg, pklDir, files, met, st, batch) == Success(st')
    ensures AllPresent(pklDir, batch, files)
    ensures st'.m == Filed(st.m, SeqNames(Names(batch)), FileScores(met.mpjpe, pklDir, files, batch))
    ensures st'.r == Filed(st.r, SeqNames(Names(batch)), FileScores(met.recon, pklDir, files, batch))
    ensures Good(st') && Totals(st'.m, st'.r).Some? && st'.running == st.running + [Totals(st'.m, st'.r).value]
  {
    StepFound(cfg, pklDir, files, met, st, batch);
    PoseStepState(met, st, batch, Predictions(pklDir, batch, files));
    ScoredFromFiles(met.mpjpe, pklDir, files, batch);
    ScoredFromFiles(met.recon, pklDir, files, batch);
  }

  /**
   * On a pose dataset, after a successful run the two dicts are exactly the
   * errors of every sample filed under its sequence name, in order, and there
   * is one running total per batch, the last one being the totals of the dicts.
   */
  lemma {:induction false} PoseRunState(cfg: Config, pklDir: string, files: map<string, Prediction>,
                                       met: Metrics, batches: seq<Batch>, st: State)
    requires cfg.evalPose && Run(cfg, pklDir, files, met, batches) == Success(st)
    ensures NoneMissing(pklDir, batches, files)
    ensures st.m == Filed(Empty, AllKeys(batches), AllScores(met.mpjpe, pklDir, files, batches))
    ensures st.r == Filed(Empty, AllKeys(batches), AllScores(met.recon, pklDir, files, batches))
    ensures |st.running| == |batches|
    ensures batches != [] ==> Good(st) && Totals(st.m, st.r) == Some(st.running[|batches| - 1])
  {
    RunFindsEveryFile(cfg, pklDir, files, met, batches);
    if batches != [] {
      var n := |batches| - 1;
      var init, last := batches[..n], batches[n];
      RunLast(cfg, pklDir, files, met, batches);
      var st0 := Run(cfg, pklDir, files, met, init).value;
      PoseRunState(cfg, pklDir, files, met, init, st0);
      PoseStepFromFiles(cfg, pklDir, files, met, st0, last, st);
      var keys := SeqNames(Names(last));
      FiledSplit(Empty, AllKeys(init), AllScores(met.mpjpe, pklDir, files, init),
        keys, FileScores(met.mpjpe, pklDir, files, last));
      FiledSplit(Empty, AllKeys(init), AllScores(met.recon, pklDir, files, init),
        keys, FileScores(met.recon, pklDir, files, last));
    }
  }

  /** A successful pose run has one more running total than the run before its last batch, and starts with its totals. */
  lemma RunningGrows(cfg: Config, pklDir: string, files: map<string, Prediction>,
                     met: Metrics, batches: seq<Batch>, st: State)
    requires cfg.evalPose && batches != [] && Run(cfg, pklDir, files, met, batches) == Success(st)
    ensures var prev := Run(cfg, pklDir, files, met, batches[..|batches| - 1]);
      && prev.Success? && |st.running| == |prev.value.running| + 1
      && st.running[..|prev.value.running|] == prev.value.running
  {
    var n := |batches| - 1;
    RunLast(cfg, pklDir, files, met, batches);
    var st0 := Run(cfg, pklDir, files, met, batches[..n]).value;
    PoseStepFromFiles(cfg, pklDir, files, met, st0, batches[n], st);
  }

  /** A successful evaluation is the conclusion drawn from a successful batch loop. */
  lemma EvaluateFinishes(datasetName: string, verbose: bool, pklDir: string, files: map<string, Prediction>,
                         met: Metrics, batches: seq<Batch>)
    requires Evaluate(datasetName, verbose, pklDir, files, met, batches).Success?
    ensures var run := Run(Resolve(FromPkl, datasetName), pklDir, files, met, batches);
      && run.Success?
      && Evaluate(datasetName, verbose, pklDir, files, met, batches) == Finish(Resolve(FromPkl, datasetName), verbose, met, run.value)
  {
  }

  /** What pose results say about the final dicts. */
  lemma FinishedPose(cfg: Config, verbose: bool, met: Metrics, st: State, a: real, b: real, rep: string, run: seq<(real, real)>)
    requires Good(st) && Finish(cfg, verbose, met, st) == Success(PoseResult(a, b, rep, run))
    ensures cfg.evalPose && run == st.running && All(st.m) != [] && All(st.r) != []
    ensures Mean(All(st.m)) == Some(a / 1000.0) && Mean(All(st.r)) == Some(b / 1000.0)
    ensures rep == Render(TableOf(st.m, st.r, met.fmt))
  {
    PairedSameCount(st.m, st.r);
    MeanMmIsMean(All(st.m));
    MeanMmIsMean(All(st.r));
  }

  /**
   * The returned averages are the count-weighted means (in millimetres) of
   * every sample's errors, over all batches, and there is one running total
   * per batch; pose results come only from pose datasets.
   */
  lemma PoseAverages(datasetName: string, verbose: bool, pklDir: string, files: map<string, Prediction>,
                     met: Metrics, batches: seq<Batch>, a: real, b: real, rep: string, run: seq<(real, real)>)
    requires Evaluate(datasetName, verbose, pklDir, files, met, batches) == Success(PoseResult(a, b, rep, run))
    ensures datasetName in PoseDatasets(FromPkl)
    ensures NoneMissing(pklDir, batches, files)
    ensures Mean(AllScores(met.mpjpe, pklDir, files, batches)) == Some(a / 1000.0)
    ensures Mean(AllScores(met.recon, pklDir, files, batches)) == Some(b / 1000.0)
    ensures |run| == |batches|
  {
    var cfg := Resolve(FromPkl, datasetName);
    EvaluateFinishes(datasetName, verbose, pklDir, files, met, batches);
    var st := Run(cfg, pklDir, files, met, batches).value;
    FinishedPose(cfg, verbose, met, st, a, b, rep, run);
    PoseRunState(cfg, pklDir, files, met, batches, st);
    StreamMean(AllKeys(batches), AllScores(met.mpjpe, pklDir, files, batches));
    StreamMean(AllKeys(batches), AllScores(met.recon, pklDir, files, batches));
  }

  /** Off the pose datasets a successful run returns -1. */
  lemma NotPoseReturnsMinusOne(datasetName: string, verbose: bool, pklDir: string, files: map<string, Prediction>,
                               met: Metrics, batches: seq<Batch>)
    requires datasetName !in PoseDatasets(FromPkl)
    requires Evaluate(datasetName, verbose, pklDir, files, met, batches).Success?
    ensures Evaluate(datasetName, verbose, pklDir, files, met, batches).value == NotPose
  {
  }

  /**
   * The report lists the sequence names in order of first appearance, and
   * each value line has one cell per name after the average.
   */
  lemma ReportOrder(datasetName: string, verbose: bool, pklDir: string, files: map<string, Prediction>,
                    met: Metrics, batches: seq<Batch>, a: real, b: real, rep: string, run: seq<(real, real)>)
    requires Evaluate(datasetName, verbose, pklDir, files, met, batches) == Success(PoseResult(a, b, rep, run))
    requires forall x :: Clean(met.fmt(x))
    requires forall i :: 0 <= i < |AllKeys(batches)| ==> Clean(AllKeys(batches)[i])
    ensures var t := Read(rep);
      && t.Some? && t.value.keys == FirstAppearances(AllKeys(batches))
      && |t.value.mpjpeCells| == |t.value.reconCells| == |t.value.keys|
  {
    var cfg := Resolve(FromPkl, datasetName);
    EvaluateFinishes(datasetName, verbose, pklDir, files, met, batches);
    var st := Run(cfg, pklDir, files, met, batches).value;
    FinishedPose(cfg, verbose, met, st, a, b, rep, run);
    PoseRunState(cfg, pklDir, files, met, batches, st);
    FiledKeysFirstAppearance(AllKeys(batches), AllScores(met.mpjpe, pklDir, files, batches));
    assert AllClean(st.m.keys) by {
      forall i | 0 <= i < |st.m.keys| ensures Clean(st.m.keys[i]) {
        assert st.m.keys[i] in AllKeys(batches);
      }
    }
    ReportLayout(st.m, st.r, met.fmt);
  }

  // ---------------------------------------------------------------------------
  // Failures that cannot happen, and the one that always does
  // ---------------------------------------------------------------------------

  /** A pose step on a non-empty batch always has samples to average: its `np.hstack` never raises. */
  lemma PoseStepSucceeds(met: Metrics, st: State, batch: seq<Sample>, preds: seq<Prediction>)
    requires Good(st) && |preds| == |batch| && batch != []
    ensures PoseStep(met, st, batch, preds).Success?
  {
    var keys := SeqNames(Names(batch));
    FiledTotals(st.m, keys, Scored(met.mpjpe, preds, batch));
    FiledTotals(st.r, keys, Scored(met.recon, preds, batch));
  }

  /** The batch loop never fails for want of samples. */
  lemma {:induction false} RunNeverLacksSamples(cfg: Config, pklDir: string, files: map<string, Prediction>,
                                               met: Metrics, batches: seq<Batch>)
    ensures Run(cfg, pklDir, files, met, batches) != Failure(NoPoseSamples)
  {
    if batches != [] {
      var n := |batches| - 1;
      RunNeverLacksSamples(cfg, pklDir, files, met, batches[..n]);
      var prev := Run(cfg, pklDir, files, met, batches[..n]);
      if prev.Success? && cfg.evalPose && Missing(PklPaths(pklDir, batches[n]), files) == [] {
        PresentWhenNoneMissing(pklDir, batches[n], files);
        PoseStepSucceeds(met, prev.value, batches[n], Predictions(pklDir, batches[n], files));
      }
    }
  }

  /**
   * On a pose dataset with at least one batch, an evaluation whose batch loop
   * succeeds returns pose results, and none fails for want of samples.
   */
  lemma PoseRunHasSamples(datasetName: string, verbose: bool, pklDir: string, files: map<string, Prediction>,
                          met: Metrics, batches: seq<Batch>)
    requires batches != [] && datasetName in PoseDatasets(FromPkl)
    ensures Evaluate(datasetName, verbose, pklDir, files, met, batches) != Failure(NoPoseSamples)
    ensures Run(Resolve(FromPkl, datasetName), pklDir, files, met, batches).Success?
        ==> Evaluate(datasetName, verbose, pklDir, files, met, batches).value.PoseResult?
  {
    var cfg := Resolve(FromPkl, datasetName);
    RunNeverLacksSamples(cfg, pklDir, files, met, batches);
    var run := Run(cfg, pklDir, files, met, batches);
    if run.Success? {
      PoseRunState(cfg, pklDir, files, met, batches, run.value);
    }
  }

  /**
   * On `lsp` the first batch stops the run with its missing files or with the
   * masks that are never rendered; with no batch, a verbose run divides by
   * zero in the final mask accuracy and a quiet one returns -1.
   */
  lemma LspOutcome(verbose: bool, pklDir: string, files: map<string, Prediction>, met: Metrics, batches: seq<Batch>)
    ensures batches == [] ==> (Evaluate("lsp", verbose, pklDir, files, met, batches)
      == if verbose then Failure(NoMaskPixels) else Success(NotPose))
    ensures batches != [] ==> (
      var missing := Missing(PklPaths(pklDir, batches[0]), files);
      Evaluate("lsp", verbose, pklDir, files, met, batches)
        == if missing != [] then Failure(MissingPredictions(missing)) else Failure(SegmentationUnavailable))
  {
    if batches != [] {
      var cfg := Resolve(FromPkl, "lsp");
      assert batches[..1][..0] == [];
      RunStopsAtFailure(cfg, pklDir, files, met, batches, 1);
    }
  }
}
