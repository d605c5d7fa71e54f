/**
 * `run_evaluation` of the evaluation-and-export script: for each batch, file
 * the pose errors under their sequence names, count masks and parts (which
 * are never rendered), print intermediate results on the logging steps, and,
 * when saving, write the batch into the preallocated output arrays at the
 * write pointer; at the end, cut the arrays to the recorded samples, report
 * and return the averages, or -1 when pose is not evaluated.
 *
 * The network, the body model, the regressor and the two error metrics run
 * before the bookkeeping; what they produce for a batch is given as its
 * `BatchRows` (errors in metres).
 */
module EvalExport {
  import opened Results
  import opened RunConfig
  import opened Aggregation
  import opened Report
  import opened ExportBuffer
  import opened LogSchedule
  import opened SmplCache

  datatype ExportError =
    | NoPoseSamples             // `np.hstack` of an empty list
    | SegmentationUnavailable   // `mask` and `parts` are never assigned
    | ZeroLogFreq               // `step % log_freq` with `log_freq == 0`
    | NoMaskPixels              // `accuracy / pixel_count` with no pixel counted
    | PoseOutputsUnavailable    // saving without pose evaluation: the joints and errors are undefined
    | JointShapeMismatch        // joint rows that do not fit the joint arrays

  /** `save_results`, `bVerbose` and `log_freq`. */
  datatype Options = Options(save: bool, verbose: bool, logFreq: int)

  datatype Outcome =
    | PoseResult(mpjpeMm: real, reconMm: real, report: string, output: ExportDict)
    | NotPose(output: ExportDict)   // `return -1`

  /** The two dicts and the logging steps met so far: those where `step % log_freq == log_freq - 1` held (results are printed on them only on a pose dataset or lsp). */
  datatype State = State(m: Buckets, r: Buckets, logged: seq<nat>)

  ghost predicate Good(st: State) {
    Valid(st.m) && Valid(st.r) && Paired(st.m, st.r)
  }

  const Start: State := State(Empty, Empty, [])

  /**
   * Every batch holds one entry per image name in every field, and at least
   * one sample: the data loader never yields an empty batch.
   */
  predicate AllConsistent(bs: seq<BatchRows>) {
    forall i :: 0 <= i < |bs| ==> Consistent(bs[i]) && bs[i].imgNames != []
  }

  /** Files the batch's two errors under each sample's sequence name; the running means must exist. */
  function PoseStep(st: State, b: BatchRows): (res: Result<State, ExportError>)
    requires Good(st) && Consistent(b)
    ensures res.Success? ==> Good(res.value)
  {
    var keys := SeqNames(b.imgNames);
    FiledValid(st.m, keys, b.errors);
    FiledValid(st.r, keys, b.rErrors);
    FiledPaired(st.m, st.r, keys, b.errors, b.rErrors);
    var mp, rc := Filed(st.m, keys, b.errors), Filed(st.r, keys, b.rErrors);
    if Totals(mp, rc).None? then Failure(NoPoseSamples) else Success(State(mp, rc, st.logged))
  }

  /**
   * What batch number `step` does to the state, in the order of the loop body:
   * pose, masks and parts, the intermediate printout, the export write.
   * `width` is the number of points per sample of the joint arrays.
   */
  function Step(cfg: Config, opts: Options, width: nat, st: State, step: nat, b: BatchRows): (res: Result<State, ExportError>)
    requires Good(st) && Consistent(b) && b.imgNames != []
    ensures res.Success? ==> Good(res.value)
    ensures res.Success? && opts.save ==> cfg.evalPose && JointsFit(b, width)
  {
    var posed := if cfg.evalPose then PoseStep(st, b) else Success(st);
    var logs := LogsAt(step, opts.logFreq);
    if posed.Failure? then posed
    else if cfg.evalMasks then Failure(SegmentationUnavailable)
    else if opts.verbose && logs.None? then Failure(ZeroLogFreq)
    else if opts.verbose && logs == Some(true) && cfg.evalMasks then Failure(NoMaskPixels)
    else if opts.save && !cfg.evalPose then Failure(PoseOutputsUnavailable)
    else if opts.save && !JointsFit(b, width) then Failure(JointShapeMismatch)
    else if opts.verbose && logs == Some(true) then Success(posed.value.(logged := posed.value.logged + [step]))
    else posed
  }

  /** The batch loop; the first failing batch ends the run. */
  function Loop(cfg: Config, opts: Options, width: nat, batches: seq<BatchRows>): (res: Result<State, ExportError>)
    requires AllConsistent(batches)
    ensures res.Success? ==> Good(res.value)
  {
    if batches == [] then Success(Start)
    else
      var n := |batches| - 1;
      assert forall i :: 0 <= i < n ==> batches[..n][i] == batches[i];
      match Loop(cfg, opts, width, batches[..n])
      case Failure(e) => Failure(e)
      case Success(st) => Step(cfg, opts, width, st, n, batches[n])
  }

  /** Every field of every batch, one batch after the other. */
  function Stacked(bs: seq<BatchRows>): (o: ExportDict)
    ensures Holds(o, bs)
  {
    ExportDict(
      AllNames(bs),
      AllRows(bs, PredPose), AllRows(bs, PredBetas), AllRows(bs, PredCamera), AllJoints(bs, PredJoints),
      AllRows(bs, GtPose), AllRows(bs, GtBetas), AllJoints(bs, GtJoints),
      AllValues(bs, ErrorMpjpe), AllValues(bs, ErrorRecon), AllValues(bs, CropScale), AllRows(bs, CropCenter))
  }

  const NoOutput: ExportDict := ExportDict([], [], [], [], [], [], [], [], [], [], [], [])

  /** The output dict: the batches' entries when saving, every field empty otherwise. */
  function Exported(save: bool, bs: seq<BatchRows>): ExportDict {
    if save then Stacked(bs) else NoOutput
  }

  /** After the loop: the report and the averages, or -1, with the output dict. */
  function Finish(cfg: Config, opts: Options, fmt: real -> string, st: State, output: ExportDict): Result<Outcome, ExportError>
    requires Good(st)
  {
    if cfg.evalPose then
      if All(st.m) == [] then Failure(NoPoseSamples)
      else
        PairedSameCount(st.m, st.r);
        Success(PoseResult(MeanMm(All(st.m)), MeanMm(All(st.r)), Render(TableOf(st.m, st.r, fmt)), output))
    else if opts.verbose && cfg.evalMasks then Failure(NoMaskPixels)
    else Success(NotPose(output))
  }

  /** The whole run with joint arrays of `width` points per sample. */
  function EvaluateAt(width: nat, datasetName: string, opts: Options, fmt: real -> string,
                      batches: seq<BatchRows>): Result<Outcome, ExportError>
    requires AllConsistent(batches)
  {
    var cfg := Resolve(Export, datasetName);
    match Loop(cfg, opts, width, batches)
    case Failure(e) => Failure(e)
    case Success(st) => Finish(cfg, opts, fmt, st, Exported(opts.save, batches))
  }

  /** The run as the script is written: joint arrays of 14 points, whatever the dataset. */
  function EvaluateAsWritten(datasetName: string, opts: Options, fmt: real -> string,
                             batches: seq<BatchRows>): Result<Outcome, ExportError>
    requires AllConsistent(batches)
  {
    EvaluateAt(JointRows, datasetName, opts, fmt, batches)
  }

  /** The run with joint arrays as wide as the dataset's joint mapper (17 for mpi-inf-3dhp, 14 otherwise). */
  function Evaluate(datasetName: string, opts: Options, fmt: real -> string,
                    batches: seq<BatchRows>): Result<Outcome, ExportError>
    requires AllConsistent(batches)
  {
    EvaluateAt(Resolve(Export, datasetName).jointCount, datasetName, opts, fmt, batches)
  }

  // ---------------------------------------------------------------------------
  // The loop as the script runs it
  // ---------------------------------------------------------------------------

  /**
   * The pose part of the loop body: `enumerate(batch['imgname'][:len(r_error)])`
   * files every sample's two errors, then both dicts are concatenated for the
   * running means.
   */
  method FilePose(st: State, b: BatchRows) returns (res: Result<State, ExportError>)
    requires Good(st) && Consistent(b)
    ensures res == PoseStep(st, b)
  {
    var n := |b.imgNames|;
    var m, r := FileErrors(st.m, st.r, b.imgNames, b.errors, b.rErrors);
    assert b.imgNames[..n] == b.imgNames && b.errors[..n] == b.errors && b.rErrors[..n] == b.rErrors;
    if Totals(m, r).None? {
      return Failure(NoPoseSamples);
    }
    res := Success(State(m, r, st.logged));
  }

  /**
   * The body of the batch loop: file the pose errors and take the running
   * means, fail on the masks that are never rendered, decide whether this step
   * prints, and when saving check that the batch can be written into joint
   * arrays `width` points wide.
   */
  method ProcessBatch(cfg: Config, opts: Options, width: nat, st: State, step: nat, b: BatchRows)
    returns (res: Result<State, ExportError>)
    requires Good(st) && Consistent(b) && b.imgNames != []
    ensures res == Step(cfg, opts, width, st, step, b)
  {
    var st1 := st;
    if cfg.evalPose {
      var posed := FilePose(st, b);
      if posed.Failure? {
        return posed;
      }
      st1 := posed.value;
    }
    if cfg.evalMasks {
      return Failure(SegmentationUnavailable);
    }
    if opts.verbose {
      var logs := LogsAt(step, opts.logFreq);
      if logs.None? {
        return Failure(ZeroLogFreq);
      }
      if logs.value {
        if cfg.evalMasks {
          return Failure(NoMaskPixels);
        }
        st1 := st1.(logged := st1.logged + [step]);
      }
    }
    if opts.save {
      if !cfg.evalPose {
        return Failure(PoseOutputsUnavailable);
      }
      if !JointsFit(b, width) {
        return Failure(JointShapeMismatch);
      }
    }
    res := Success(st1);
  }

  /** One more batch of the loop: the run over the first `step + 1` batches. */
  method Advance(cfg: Config, opts: Options, width: nat, batches: seq<BatchRows>, step: nat, st: State)
    returns (res: Result<State, ExportError>)
    requires AllConsistent(batches) && step < |batches|
    requires Loop(cfg, opts, width, batches[..step]) == Success(st)
    ensures res == Loop(cfg, opts, width, batches[..step + 1])
    ensures res.Success? && opts.save ==> JointsFit(batches[step], width)
  {
    assert batches[..step + 1][..step] == batches[..step];
    res := ProcessBatch(cfg, opts, width, st, step, batches[step]);
  }

  /** After the loop: the report built with `+=`, and the return value. */
  method Conclude(cfg: Config, opts: Options, fmt: real -> string, st: State, output: ExportDict)
    returns (out: Result<Outcome, ExportError>)
    requires Good(st)
    ensures out == Finish(cfg, opts, fmt, st, output)
  {
    if cfg.evalPose {
      if All(st.m) == [] {
        return Failure(NoPoseSamples);
      }
      PairedSameCount(st.m, st.r);
      var report := BuildReport(st.m, st.r, fmt);
      return Success(PoseResult(MeanMm(All(st.m)), MeanMm(All(st.r)), report, output));
    }
    if opts.verbose && cfg.evalMasks {
      return Failure(NoMaskPixels);
    }
    out := Success(NotPose(output));
  }

  /** The output arrays `np.zeros((len(dataset), ...))`, the joint arrays `joints` points wide. */
  method Allocate(capacity: nat, joints: nat) returns (ex: Exporter)
    ensures fresh(ex.Repr()) && ex.Valid()
    ensures ex.capacity == capacity && ex.joints == joints && ex.recorded == []
  {
    ex := new Exporter(capacity, joints);
  }

  /** The buffer's contents after the given batches were processed. */
  function Recorded(save: bool, bs: seq<BatchRows>): seq<BatchRows> {
    if save then bs else []
  }

  /** Writes the batch at the pointer when saving. */
  method Save(ex: Exporter, b: BatchRows, save: bool)
    requires ex.Valid() && Consistent(b)
    requires save ==> JointsFit(b, ex.joints) && |AllNames(ex.recorded)| + |b.imgNames| <= ex.capacity
    modifies ex.Repr()
    ensures ex.Valid() && ex.recorded == old(ex.recorded) + Recorded(save, [b])
  {
    if save {
      ex.PointerCountsNames();
      ex.RecordBatch(b);
    }
  }

  /** The batch loop with the buffer: it ends as `Loop` says, having recorded every batch when saving. */
  method RunBatches(cfg: Config, opts: Options, ex: Exporter, batches: seq<BatchRows>)
    returns (res: Result<State, ExportError>)
    requires AllConsistent(batches) && ex.Valid() && ex.recorded == []
    requires ex.capacity == |AllNames(batches)|
    modifies ex.Repr()
    ensures res == Loop(cfg, opts, ex.joints, batches)
    ensures res.Success? ==> ex.Valid() && ex.recorded == Recorded(opts.save, batches)
  {
    res := Success(Start);
    var step := 0;
    while step < |batches| && res.Success?
      invariant 0 <= step <= |batches|
      invariant res == Loop(cfg, opts, ex.joints, batches[..step])
      invariant res.Success? ==> ex.Valid() && ex.recorded == Recorded(opts.save, batches[..step])
    {
      assert batches[..step + 1] == batches[..step] + [batches[step]];
      AllNamesWithin(batches, step + 1);
      res := Advance(cfg, opts, ex.joints, batches, step, res.value);
      if res.Success? {
        Save(ex, batches[step], opts.save);
      }
      step := step + 1;
    }
    if res.Failure? {
      LoopStopsAtFailure(cfg, opts, ex.joints, batches, step);
    }
    assert batches[..|batches|] == batches;
  }

  /**
   * The script's run with joint arrays `width` points wide: the body models
   * from the module-level cache, output arrays for the whole dataset, the
   * batch loop, then `output[...] = array[:finalLen]` and the report.
   */
  method RunExportAt(cache: Cache, width: nat, datasetName: string, opts: Options, fmt: real -> string,
                     batches: seq<BatchRows>)
    returns (out: Result<Outcome, ExportError>)
    requires AllConsistent(batches) && cache.Valid()
    modifies cache
    ensures cache.Valid() && cache.loads == 1
    ensures out == EvaluateAt(width, datasetName, opts, fmt, batches)
  {
    var smplNeutral, smplMale, smplFemale := cache.Acquire();
    var cfg := Resolve(Export, datasetName);
    var ex := Allocate(|AllNames(batches)|, width);
    var res := RunBatches(cfg, opts, ex, batches);
    if res.Failure? {
      return Failure(res.error);
    }
    var output := ex.Output();
    out := Conclude(cfg, opts, fmt, res.value, output);
  }

  /** The run as the script is written: joint arrays of 14 points. */
  method RunExportAsWritten(cache: Cache, datasetName: string, opts: Options, fmt: real -> string, batches: seq<BatchRows>)
    returns (out: Result<Outcome, ExportError>)
    requires AllConsistent(batches) && cache.Valid()
    modifies cache
    ensures cache.Valid() && cache.loads == 1
    ensures out == EvaluateAsWritten(datasetName, opts, fmt, batches)
  {
    out := RunExportAt(cache, JointRows, datasetName, opts, fmt, batches);
  }

  /** The corrected run: joint arrays as wide as the dataset's joint mapper. */
  method RunExport(cache: Cache, datasetName: string, opts: Options, fmt: real -> string, batches: seq<BatchRows>)
    returns (out: Result<Outcome, ExportError>)
    requires AllConsistent(batches) && cache.Valid()
    modifies cache
    ensures cache.Valid() && cache.loads == 1
    ensures out == Evaluate(datasetName, opts, fmt, batches)
  {
    out := RunExportAt(cache, Resolve(Export, datasetName).jointCount, datasetName, opts, fmt, batches);
  }

  /** The names of a prefix of the batches are no more than all the names. */
  lemma {:induction false} AllNamesWithin(bs: seq<BatchRows>, k: nat)
    requires k <= |bs|
    ensures |AllNames(bs[..k])| <= |AllNames(bs)|
    ensures k > 0 ==> AllNames(bs[..k]) == AllNames(bs[..k - 1]) + bs[k - 1].imgNames
    decreases |bs| - k
  {
    if k > 0 {
      assert bs[..k][..k - 1] == bs[..k - 1];
    }
    if k == |bs| {
      assert bs[..k] == bs;
    } else {
      AllNamesWithin(bs, k + 1);
      assert bs[..k + 1][..k] == bs[..k];
    }
  }

  /** Once a prefix of the batches fails, the whole run fails the same way. */
  lemma {:induction false} LoopStopsAtFailure(cfg: Config, opts: Options, width: nat, batches: seq<BatchRows>, k: nat)
    requires AllConsistent(batches) && k <= |batches|
    requires Loop(cfg, opts, width, batches[..k]).Failure?
    ensures Loop(cfg, opts, width, batches) == Loop(cfg, opts, width, batches[..k])
    decreases |batches| - k
  {
    if k == |batches| {
      assert batches[..k] == batches;
    } else {
      assert batches[..k + 1][..k] == batches[..k];
      LoopStopsAtFailure(cfg, opts, width, batches, k + 1);
    }
  }

  // ---------------------------------------------------------------------------
  // Properties of a run
  // ---------------------------------------------------------------------------

  /** The sequence names of every sample of every batch, in order. */
  function AllKeys(bs: seq<BatchRows>): (keys: seq<string>)
    ensures |keys| == |AllNames(bs)|
  {
    if bs == [] then [] else AllKeys(bs[..|bs| - 1]) + SeqNames(bs[|bs| - 1].imgNames)
  }

  /** Every sample's MPJPE (in metres), in order. */
  function AllMpjpe(bs: seq<BatchRows>): seq<real> {
    if bs == [] then [] else AllMpjpe(bs[..|bs| - 1]) + bs[|bs| - 1].errors
  }

  /** Every sample's reconstruction error (in metres), in order. */
  function AllRecon(bs: seq<BatchRows>): seq<real> {
    if bs == [] then [] else AllRecon(bs[..|bs| - 1]) + bs[|bs| - 1].rErrors
  }

  /** Consistent batches have one error of each kind per sample. */
  lemma {:induction false} ErrorsPerSample(bs: seq<BatchRows>)
    requires AllConsistent(bs)
    ensures |AllMpjpe(bs)| == |AllRecon(bs)| == |AllKeys(bs)|
  {
    if bs != [] {
      var n := |bs| - 1;
      assert forall i :: 0 <= i < n ==> bs[..n][i] == bs[i];
      ErrorsPerSample(bs[..n]);
    }
  }

  /** A successful loop is its last batch's step from the successful loop before it. */
  lemma LoopLast(cfg: Config, opts: Options, width: nat, bs: seq<BatchRows>)
    requires AllConsistent(bs) && bs != [] && Loop(cfg, opts, width, bs).Success?
    ensures var n := |bs| - 1;
      && AllConsistent(bs[..n])
      && Loop(cfg, opts, width, bs[..n]).Success?
      && Step(cfg, opts, width, Loop(cfg, opts, width, bs[..n]).value, n, bs[n]) == Loop(cfg, opts, width, bs)
  {
    var n := |bs| - 1;
    assert forall i :: 0 <= i < n ==> bs[..n][i] == bs[i];
  }

  /** What a successful step does to the dicts and to the logging steps. */
  lemma StepState(cfg: Config, opts: Options, width: nat, st: State, step: nat, b: BatchRows)
    requires Good(st) && Consistent(b) && b.imgNames != [] && Step(cfg, opts, width, st, step, b).Success?
    ensures var st' := Step(cfg, opts, width, st, step, b).value;
      && (cfg.evalPose ==>
            st'.m == Filed(st.m, SeqNames(b.imgNames), b.errors)
            && st'.r == Filed(st.r, SeqNames(b.imgNames), b.rErrors))
      && st'.logged == st.logged + (if opts.verbose && LogsAt(step, opts.logFreq) == Some(true) then [step] else [])
  {
  }

  /**
   * On a pose dataset, after a successful loop the two dicts hold exactly
   * every sample's errors filed under its sequence name, in order.
   */
  lemma {:induction false} PoseLoopState(cfg: Config, opts: Options, width: nat, bs: seq<BatchRows>, st: State)
    requires AllConsistent(bs) && cfg.evalPose && Loop(cfg, opts, width, bs) == Success(st)
    ensures |AllMpjpe(bs)| == |AllRecon(bs)| == |AllKeys(bs)|
    ensures st.m == Filed(Empty, AllKeys(bs), AllMpjpe(bs))
    ensures st.r == Filed(Empty, AllKeys(bs), AllRecon(bs))
  {
    ErrorsPerSample(bs);
    if bs != [] {
      var n := |bs| - 1;
      var init, last := bs[..n], bs[n];
      LoopLast(cfg, opts, width, bs);
      var st0 := Loop(cfg, opts, width, init).value;
      PoseLoopState(cfg, opts, width, init, st0);
      StepState(cfg, opts, width, st0, n, last);
      FiledSplit(Empty, AllKeys(init), AllMpjpe(init), SeqNames(last.imgNames), last.errors);
      FiledSplit(Empty, AllKeys(init), AllRecon(init), SeqNames(last.imgNames), last.rErrors);
    }
  }

  /** The steps, below n, that are logging steps, in increasing order. */
  function LogSteps(n: nat, logFreq: int): seq<nat> {
    if n == 0 then []
    else LogSteps(n - 1, logFreq) + (if LogsAt(n - 1, logFreq) == Some(true) then [n - 1] else [])
  }

  /** With a positive frequency, the logging steps below n are exactly those where (step + 1) is a multiple of it. */
  lemma {:induction false} LogStepsAreMultiples(n: nat, logFreq: int)
    requires logFreq > 0
    ensures forall k: nat :: k in LogSteps(n, logFreq) <==> k < n && (k + 1) % logFreq == 0
  {
    if n > 0 {
      LogStepsAreMultiples(n - 1, logFreq);
      LogsEveryFreqSteps(n - 1, logFreq);
    }
  }

  /** After a successful loop, the recorded logging steps are those of the schedule when verbose, and none otherwise. */
  lemma {:induction false} LoopLogged(cfg: Config, opts: Options, width: nat, bs: seq<BatchRows>, st: State)
    requires AllConsistent(bs) && Loop(cfg, opts, width, bs) == Success(st)
    ensures st.logged == if opts.verbose then LogSteps(|bs|, opts.logFreq) else []
  {
    if bs != [] {
      var n := |bs| - 1;
      LoopLast(cfg, opts, width, bs);
      var st0 := Loop(cfg, opts, width, bs[..n]).value;
      LoopLogged(cfg, opts, width, bs[..n], st0);
      StepState(cfg, opts, width, st0, n, bs[n]);
    }
  }

  /** When the first batch fails, the loop fails. */
  lemma FirstStepFails(cfg: Config, opts: Options, width: nat, bs: seq<BatchRows>)
    requires AllConsistent(bs) && bs != [] && Step(cfg, opts, width, Start, 0, bs[0]).Failure?
    ensures Loop(cfg, opts, width, bs).Failure?
  {
    assert bs[..1][..0] == [];
    LoopStopsAtFailure(cfg, opts, width, bs, 1);
  }

  /** Verbose with `log_freq == 0`, every step raises (`step % 0`) unless it failed before. */
  lemma StepZeroLogFreq(cfg: Config, opts: Options, width: nat, st: State, step: nat, b: BatchRows)
    requires Good(st) && Consistent(b) && b.imgNames != [] && opts.verbose && opts.logFreq == 0
    ensures Step(cfg, opts, width, st, step, b).Failure?
  {
    assert LogsAt(step, opts.logFreq) == None;
  }

  /** Verbose with `log_freq == 0`, the first step raises (`step % 0`). */
  lemma ZeroLogFreqFails(datasetName: string, opts: Options, fmt: real -> string, bs: seq<BatchRows>)
    requires AllConsistent(bs) && bs != [] && opts.verbose && opts.logFreq == 0
    ensures Evaluate(datasetName, opts, fmt, bs).Failure?
  {
    var cfg := Resolve(Export, datasetName);
    StepZeroLogFreq(cfg, opts, cfg.jointCount, Start, 0, bs[0]);
    FirstStepFails(cfg, opts, cfg.jointCount, bs);
  }

  /** Saving off the pose datasets fails on the first batch: the joints to save were never computed. */
  lemma SavingNeedsPose(datasetName: string, opts: Options, fmt: real -> string, bs: seq<BatchRows>)
    requires AllConsistent(bs) && bs != [] && opts.save && datasetName !in PoseDatasets(Export)
    ensures Evaluate(datasetName, opts, fmt, bs).Failure?
  {
    var cfg := Resolve(Export, datasetName);
    FirstStepFails(cfg, opts, cfg.jointCount, bs);
  }

  /** Every field of the stacked batches has one entry per image name. */
  lemma {:induction false} StackedAligned(bs: seq<BatchRows>)
    requires AllConsistent(bs)
    ensures Aligned(Stacked(bs))
  {
    if bs != [] {
      var n := |bs| - 1;
      assert forall i :: 0 <= i < n ==> bs[..n][i] == bs[i];
      StackedAligned(bs[..n]);
    }
  }

  /** A successful run's result carries the output dict of its batches. */
  lemma EvaluateOutput(datasetName: string, opts: Options, fmt: real -> string, bs: seq<BatchRows>)
    requires AllConsistent(bs) && Evaluate(datasetName, opts, fmt, bs).Success?
    ensures Evaluate(datasetName, opts, fmt, bs).value.output == Exported(opts.save, bs)
  {
  }

  /**
   * The output dict: when saving, every batch's entries in order, every field
   * `finalLen` long with `finalLen` the number of samples; otherwise every
   * field empty.
   */
  lemma OutputHoldsBatches(datasetName: string, opts: Options, fmt: real -> string, bs: seq<BatchRows>)
    requires AllConsistent(bs) && Evaluate(datasetName, opts, fmt, bs).Success?
    ensures var o := Evaluate(datasetName, opts, fmt, bs).value.output;
      && (opts.save ==> Holds(o, bs) && Aligned(o) && |o.imageNames| == |AllMpjpe(bs)|)
      && (!opts.save ==> IsEmpty(o))
  {
    EvaluateOutput(datasetName, opts, fmt, bs);
    StackedAligned(bs);
    ErrorsPerSample(bs);
  }

  lemma ScaledConcat(a: seq<real>, b: seq<real>)
    ensures Scaled(a + b) == Scaled(a) + Scaled(b)
  {
    assert forall i :: 0 <= i < |a + b| ==> Scaled(a + b)[i] == (Scaled(a) + Scaled(b))[i];
  }

  /** The stored errors are every sample's errors in millimetres, in order. */
  lemma {:induction false} StoredErrorsInMm(bs: seq<BatchRows>)
    ensures AllValues(bs, ErrorMpjpe) == Scaled(AllMpjpe(bs))
    ensures AllValues(bs, ErrorRecon) == Scaled(AllRecon(bs))
  {
    if bs != [] {
      var n := |bs| - 1;
      StoredErrorsInMm(bs[..n]);
      ScaledConcat(AllMpjpe(bs[..n]), bs[n].errors);
      ScaledConcat(AllRecon(bs[..n]), bs[n].rErrors);
    }
  }

  lemma {:induction false} SumScaled(s: seq<real>)
    ensures Sum(Scaled(s)) == 1000.0 * Sum(s)
  {
    if s != [] {
      var n := |s| - 1;
      assert Scaled(s)[..n] == Scaled(s[..n]);
      SumScaled(s[..n]);
    }
  }

  /** What pose results say about the final dicts. */
  lemma FinishedPose(cfg: Config, opts: Options, fmt: real -> string, st: State, output: ExportDict,
                     a: real, b: real, rep: string, o: ExportDict)
    requires Good(st) && Finish(cfg, opts, fmt, st, output) == Success(PoseResult(a, b, rep, o))
    ensures cfg.evalPose && o == output && All(st.m) != [] && All(st.r) != []
    ensures Mean(All(st.m)) == Some(a / 1000.0) && Mean(All(st.r)) == Some(b / 1000.0)
    ensures rep == Render(TableOf(st.m, st.r, fmt))
  {
    PairedSameCount(st.m, st.r);
    MeanMmIsMean(All(st.m));
    MeanMmIsMean(All(st.r));
  }

  /**
   * The returned averages are the count-weighted means (in millimetres) of
   * every sample's errors over all batches; pose results come only from pose
   * datasets.
   */
  lemma PoseAverages(datasetName: string, opts: Options, fmt: real -> string, bs: seq<BatchRows>,
                     a: real, b: real, rep: string, o: ExportDict)
    requires AllConsistent(bs) && Evaluate(datasetName, opts, fmt, bs) == Success(PoseResult(a, b, rep, o))
    ensures datasetName in PoseDatasets(Export)
    ensures Mean(AllMpjpe(bs)) == Some(a / 1000.0) && Mean(AllRecon(bs)) == Some(b / 1000.0)
  {
    var cfg := Resolve(Export, datasetName);
    var st := Loop(cfg, opts, cfg.jointCount, bs).value;
    FinishedPose(cfg, opts, fmt, st, Exported(opts.save, bs), a, b, rep, o);
    PoseLoopState(cfg, opts, cfg.jointCount, bs, st);
    StreamMean(AllKeys(bs), AllMpjpe(bs));
    StreamMean(AllKeys(bs), AllRecon(bs));
  }

  /** Scaling to millimetres scales the mean. */
  lemma MeanScaled(s: seq<real>, a: real)
    requires Mean(s) == Some(a / 1000.0)
    ensures Mean(Scaled(s)) == Some(a)
  {
    SumScaled(s);
    var n := |s| as real;
    assert Sum(s) / n == a / 1000.0;
    assert Sum(Scaled(s)) / n == 1000.0 * (Sum(s) / n);
  }

  /** When saving, a pose run's output is its batches' stacked entries. */
  lemma SavedPoseOutput(datasetName: string, opts: Options, fmt: real -> string, bs: seq<BatchRows>,
                        a: real, b: real, rep: string, o: ExportDict)
    requires AllConsistent(bs) && opts.save
    requires Evaluate(datasetName, opts, fmt, bs) == Success(PoseResult(a, b, rep, o))
    ensures o == Stacked(bs)
  {
    EvaluateOutput(datasetName, opts, fmt, bs);
  }

  /** When saving, the mean of the exported error columns is the returned average. */
  lemma ExportedErrorsAverage(datasetName: string, opts: Options, fmt: real -> string, bs: seq<BatchRows>,
                              a: real, b: real, rep: string, o: ExportDict)
    requires AllConsistent(bs) && opts.save
    requires Evaluate(datasetName, opts, fmt, bs) == Success(PoseResult(a, b, rep, o))
    ensures Mean(o.errorMpjpe) == Some(a) && Mean(o.errorRecon) == Some(b)
  {
    PoseAverages(datasetName, opts, fmt, bs, a, b, rep, o);
    SavedPoseOutput(datasetName, opts, fmt, bs, a, b, rep, o);
    StoredErrorsInMm(bs);
    MeanScaled(AllMpjpe(bs), a);
    MeanScaled(AllRecon(bs), b);
  }

  /** Off the pose datasets a successful run returns -1. */
  lemma NotPoseReturnsMinusOne(datasetName: string, opts: Options, fmt: real -> string, bs: seq<BatchRows>)
    requires AllConsistent(bs) && datasetName !in PoseDatasets(Export)
    requires Evaluate(datasetName, opts, fmt, bs).Success?
    ensures Evaluate(datasetName, opts, fmt, bs).value.NotPose?
  {
  }

  /**
   * The report lists the sequence names in order of first appearance, and
   * each value line has one cell per name after the average.
   */
  lemma ReportOrder(datasetName: string, opts: Options, fmt: real -> string, bs: seq<BatchRows>,
                    a: real, b: real, rep: string, o: ExportDict)
    requires AllConsistent(bs) && Evaluate(datasetName, opts, fmt, bs) == Success(PoseResult(a, b, rep, o))
    requires forall x :: Clean(fmt(x))
    requires forall i :: 0 <= i < |AllKeys(bs)| ==> Clean(AllKeys(bs)[i])
    ensures var t := Read(rep);
      && t.Some? && t.value.keys == FirstAppearances(AllKeys(bs))
      && |t.value.mpjpeCells| == |t.value.reconCells| == |t.value.keys|
  {
    var cfg := Resolve(Export, datasetName);
    var st := Loop(cfg, opts, cfg.jointCount, bs).value;
    FinishedPose(cfg, opts, fmt, st, Exported(opts.save, bs), a, b, rep, o);
    PoseLoopState(cfg, opts, cfg.jointCount, bs, st);
    FiledKeysFirstAppearance(AllKeys(bs), AllMpjpe(bs));
    assert AllClean(st.m.keys) by {
      forall i | 0 <= i < |st.m.keys| ensures Clean(st.m.keys[i]) {
        assert st.m.keys[i] in AllKeys(bs);
      }
    }
    ReportLayout(st.m, st.r, fmt);
  }

  // ---------------------------------------------------------------------------
  // The joint arrays' width
  // ---------------------------------------------------------------------------

  /** A non-empty batch passes the pose step from the start, leaving samples in both dicts. */
  lemma FirstPoseStep(b: BatchRows)
    requires Consistent(b) && b.imgNames != []
    ensures PoseStep(Start, b).Success?
    ensures All(PoseStep(Start, b).value.m) != []
  {
    StreamMean(SeqNames(b.imgNames), b.errors);
    StreamMean(SeqNames(b.imgNames), b.rErrors);
  }

  /** A one-batch loop is that batch's step from the start. */
  lemma SingleBatchLoop(cfg: Config, opts: Options, width: nat, b: BatchRows)
    requires Consistent(b) && b.imgNames != []
    ensures Loop(cfg, opts, width, [b]) == Step(cfg, opts, width, Start, 0, b)
  {
    assert [b][..0] == [];
  }

  /** Saving a non-empty first batch of a pose dataset, quietly: only the joint shape decides. */
  lemma PoseSaveStep(cfg: Config, width: nat, b: BatchRows)
    requires cfg.evalPose && !cfg.evalMasks && Consistent(b) && b.imgNames != []
    ensures PoseStep(Start, b).Success?
    ensures Step(cfg, Options(true, false, 1), width, Start, 0, b)
      == if JointsFit(b, width) then PoseStep(Start, b) else Failure(JointShapeMismatch)
  {
    FirstPoseStep(b);
  }

  /** Saving mpi-inf-3dhp as written: its 17-joint rows do not fit the 14-joint arrays. */
  lemma AsWrittenRejectsMpiExport(fmt: real -> string, b: BatchRows)
    requires Consistent(b) && b.imgNames != [] && JointsFit(b, 17)
    ensures EvaluateAsWritten("mpi-inf-3dhp", Options(true, false, 1), fmt, [b]) == Failure(JointShapeMismatch)
  {
    assert |b.predJoints[0]| == 17;
    assert !JointsFit(b, JointRows);
    PoseSaveStep(Resolve(Export, "mpi-inf-3dhp"), JointRows, b);
    SingleBatchLoop(Resolve(Export, "mpi-inf-3dhp"), Options(true, false, 1), JointRows, b);
  }

  /** With joint arrays as wide as the joint mapper, the same run is saved. */
  lemma CorrectedSavesMpiExport(fmt: real -> string, b: BatchRows)
    requires Consistent(b) && b.imgNames != [] && JointsFit(b, 17)
    ensures Evaluate("mpi-inf-3dhp", Options(true, false, 1), fmt, [b]).Success?
  {
    var cfg := Resolve(Export, "mpi-inf-3dhp");
    PoseSaveStep(cfg, 17, b);
    SingleBatchLoop(cfg, Options(true, false, 1), 17, b);
    FirstPoseStep(b);
  }

  /** Joint rows as wide as the arrays never make the loop fail on the joint shape. */
  lemma {:induction false} LoopFitsJoints(cfg: Config, opts: Options, width: nat, bs: seq<BatchRows>)
    requires AllConsistent(bs) && forall i :: 0 <= i < |bs| ==> JointsFit(bs[i], width)
    ensures Loop(cfg, opts, width, bs) != Failure(JointShapeMismatch)
  {
    if bs != [] {
      var n := |bs| - 1;
      assert forall i :: 0 <= i < n ==> bs[..n][i] == bs[i];
      LoopFitsJoints(cfg, opts, width, bs[..n]);
    }
  }

  /** When every batch's joints have as many points as the dataset's joint mapper, no run fails on the joint shape. */
  lemma CorrectedWidthNeverMismatches(datasetName: string, opts: Options, fmt: real -> string, bs: seq<BatchRows>)
    requires AllConsistent(bs)
    requires forall i :: 0 <= i < |bs| ==> JointsFit(bs[i], Resolve(Export, datasetName).jointCount)
    ensures Evaluate(datasetName, opts, fmt, bs) != Failure(JointShapeMismatch)
  {
    var cfg := Resolve(Export, datasetName);
    LoopFitsJoints(cfg, opts, cfg.jointCount, bs);
  }

  /** Without saving, the width of the joint arrays plays no part in a step. */
  lemma StepIgnoresWidthUnlessSaving(cfg: Config, opts: Options, w1: nat, w2: nat, st: State, step: nat, b: BatchRows)
    requires Good(st) && Consistent(b) && b.imgNames != [] && !opts.save
    ensures Step(cfg, opts, w1, st, step, b) == Step(cfg, opts, w2, st, step, b)
  {
  }

  /** Without saving, the width of the joint arrays plays no part in the loop. */
  lemma {:induction false} LoopIgnoresWidthUnlessSaving(cfg: Config, opts: Options, w1: nat, w2: nat, bs: seq<BatchRows>)
    requires AllConsistent(bs) && !opts.save
    ensures Loop(cfg, opts, w1, bs) == Loop(cfg, opts, w2, bs)
  {
    if bs != [] {
      var n := |bs| - 1;
      LoopIgnoresWidthUnlessSaving(cfg, opts, w1, w2, bs[..n]);
      assert forall i :: 0 <= i < n ==> bs[..n][i] == bs[i];
      var prev := Loop(cfg, opts, w1, bs[..n]);
      if prev.Success? {
        StepIgnoresWidthUnlessSaving(cfg, opts, w1, w2, prev.value, n, bs[n]);
      }
    }
  }


  /**
   * The script as written and the corrected run differ only when saving
   * mpi-inf-3dhp. Otherwise they are the same run, so every property proved of
   * `Evaluate` holds of the script as written; saving mpi-inf-3dhp with the
   * joint mapper's 17-point rows, the script as written fails.
   */
  lemma AsWrittenVersusCorrected(datasetName: string, opts: Options, fmt: real -> string, bs: seq<BatchRows>)
    requires AllConsistent(bs)
    ensures !opts.save || datasetName != "mpi-inf-3dhp"
      ==> EvaluateAsWritten(datasetName, opts, fmt, bs) == Evaluate(datasetName, opts, fmt, bs)
    ensures opts.save && datasetName == "mpi-inf-3dhp" && bs != [] && (forall i :: 0 <= i < |bs| ==> JointsFit(bs[i], 17))
      ==> EvaluateAsWritten(datasetName, opts, fmt, bs).Failure?
  {
    var cfg := Resolve(Export, datasetName);
    if !opts.save {
      LoopIgnoresWidthUnlessSaving(cfg, opts, JointRows, cfg.jointCount, bs);
    } else if datasetName == "mpi-inf-3dhp" && bs != [] && (forall i :: 0 <= i < |bs| ==> JointsFit(bs[i], 17)) {
      assert |bs[0].predJoints[0]| == 17;
      PoseStepSucceeds(Start, bs[0]);
      FirstStepFails(cfg, opts, JointRows, bs);
    }
  }

  /** A pose step on a non-empty batch always has samples to average: its `np.hstack` never raises. */
  lemma PoseStepSucceeds(st: State, b: BatchRows)
    requires Good(st) && Consistent(b) && b.imgNames != []
    ensures PoseStep(st, b).Success?
  {
    FiledTotals(st.m, SeqNames(b.imgNames), b.errors);
    FiledTotals(st.r, SeqNames(b.imgNames), b.rErrors);
  }

  /**
   * No step fails for want of samples or of mask pixels: a non-empty pose
   * batch has samples, and a mask batch fails before any accuracy is printed.
   */
  lemma StepNeverLacksSamples(cfg: Config, opts: Options, width: nat, st: State, step: nat, b: BatchRows)
    requires Good(st) && Consistent(b) && b.imgNames != []
    ensures Step(cfg, opts, width, st, step, b) != Failure(NoPoseSamples)
    ensures Step(cfg, opts, width, st, step, b) != Failure(NoMaskPixels)
  {
    if cfg.evalPose {
      PoseStepSucceeds(st, b);
    }
  }

  /** The batch loop never fails for want of samples or of mask pixels. */
  lemma {:induction false} LoopNeverLacksSamples(cfg: Config, opts: Options, width: nat, bs: seq<BatchRows>)
    requires AllConsistent(bs)
    ensures Loop(cfg, opts, width, bs) != Failure(NoPoseSamples)
    ensures Loop(cfg, opts, width, bs) != Failure(NoMaskPixels)
  {
    if bs != [] {
      var n := |bs| - 1;
      assert forall i :: 0 <= i < n ==> bs[..n][i] == bs[i];
      LoopNeverLacksSamples(cfg, opts, width, bs[..n]);
      var prev := Loop(cfg, opts, width, bs[..n]);
      if prev.Success? {
        StepNeverLacksSamples(cfg, opts, width, prev.value, n, bs[n]);
      }
    }
  }

  /**
   * On a pose dataset with at least one batch, a run whose batch loop succeeds
   * returns pose results, and none fails for want of samples.
   */
  lemma PoseRunHasSamples(datasetName: string, opts: Options, fmt: real -> string, bs: seq<BatchRows>)
    requires AllConsistent(bs) && bs != [] && datasetName in PoseDatasets(Export)
    ensures Evaluate(datasetName, opts, fmt, bs) != Failure(NoPoseSamples)
    ensures Loop(Resolve(Export, datasetName), opts, Resolve(Export, datasetName).jointCount, bs).Success?
        ==> Evaluate(datasetName, opts, fmt, bs).value.PoseResult?
  {
    var cfg := Resolve(Export, datasetName);
    LoopNeverLacksSamples(cfg, opts, cfg.jointCount, bs);
    var run := Loop(cfg, opts, cfg.jointCount, bs);
    if run.Success? {
      PoseLoopState(cfg, opts, cfg.jointCount, bs, run.value);
      FiledTotals(Empty, AllKeys(bs), AllMpjpe(bs));
      assert |AllMpjpe(bs)| >= |bs[|bs| - 1].errors| > 0;
    }
  }

  /**
   * On `lsp` a batch stops the run on the masks that are never rendered; with
   * no batch, the verbose final printout divides by zero and a quiet run returns -1.
   */
  lemma LspOutcome(opts: Options, fmt: real -> string, bs: seq<BatchRows>)
    requires AllConsistent(bs)
    ensures bs != [] ==> Evaluate("lsp", opts, fmt, bs) == Failure(SegmentationUnavailable)
    ensures bs == [] ==> (Evaluate("lsp", opts, fmt, bs)
      == if opts.verbose then Failure(NoMaskPixels) else Success(NotPose(Exported(opts.save, []))))
  {
    if bs != [] {
      var cfg := Resolve(Export, "lsp");
      FirstStepFails(cfg, opts, cfg.jointCount, bs);
      assert bs[..1][..0] == [];
      LoopStopsAtFailure(cfg, opts, cfg.jointCount, bs, 1);
    }
  }
}
