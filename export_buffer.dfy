/**
 * The export buffer of the evaluation-and-export script: output arrays
 * preallocated for the whole dataset, filled batch by batch at a moving write
 * pointer, then cut to the number of recorded image names.
 */
module ExportBuffer {
  import opened Centering

  /** `s[start:start+len(rows)] = rows`: the window replaced, everything else kept. */
  function Spliced<T>(s: seq<T>, start: nat, rows: seq<T>): (r: seq<T>)
    requires start + |rows| <= |s|
    ensures |r| == |s|
    ensures forall i :: 0 <= i < |s| ==>
      r[i] == if start <= i < start + |rows| then rows[i - start] else s[i]
  {
    s[..start] + rows + s[start + |rows|..]
  }

  /** Writing the same rows twice at the same place is writing them once. */
  lemma SplicedIdempotent<T>(s: seq<T>, start: nat, rows: seq<T>)
    requires start + |rows| <= |s|
    ensures Spliced(Spliced(s, start, rows), start, rows) == Spliced(s, start, rows)
  {
  }

  /** Writing right after a filled prefix extends that prefix by the rows written. */
  lemma SplicedExtends<T>(s: seq<T>, start: nat, rows: seq<T>, filled: seq<T>)
    requires start + |rows| <= |s| && s[..start] == filled
    ensures Spliced(s, start, rows)[..start + |rows|] == filled + rows
  {
    var r := Spliced(s, start, rows);
    assert forall i :: 0 <= i < start ==> r[i] == s[..start][i];
  }

  /** numpy slice assignment into a preallocated array. */
  method WriteRows<T>(a: array<T>, start: nat, rows: seq<T>)
    requires start + |rows| <= a.Length
    modifies a
    ensures a[..] == Spliced(old(a[..]), start, rows)
  {
    forall i | start <= i < start + |rows| {
      a[i] := rows[i - start];
    }
  }

  function Zeros(n: nat): seq<real> {
    seq(n, _ => 0.0)
  }

  /** The row-valued arrays (one vector per sample). */
  datatype RowField = PredPose | PredBetas | PredCamera | GtPose | GtBetas | CropCenter

  /** The joint-valued arrays (a fixed number of points per sample). */
  datatype JointField = PredJoints | GtJoints

  /** The scalar arrays (one number per sample). */
  datatype ValueField = ErrorMpjpe | ErrorRecon | CropScale

  /** The joints per sample of the script's joint arrays, `np.zeros((len(dataset), 14, 3))`. */
  const JointRows: nat := 14

  /** What one batch contributes; `errors` and `rErrors` are in metres. */
  datatype BatchRows = BatchRows(
    imgNames: seq<string>,
    predPose: seq<seq<real>>, predBetas: seq<seq<real>>, predCamera: seq<seq<real>>,
    predJoints: seq<seq<Point>>,
    gtPose: seq<seq<real>>, gtBetas: seq<seq<real>>, gtJoints: seq<seq<Point>>,
    errors: seq<real>, rErrors: seq<real>,
    cropScale: seq<real>, cropCenter: seq<seq<real>>)

  /** Every field holds one entry per image name of the batch. */
  predicate Consistent(b: BatchRows) {
    var n := |b.imgNames|;
    && |b.predPose| == n && |b.predBetas| == n && |b.predCamera| == n && |b.predJoints| == n
    && |b.gtPose| == n && |b.gtBetas| == n && |b.gtJoints| == n
    && |b.errors| == n && |b.rErrors| == n && |b.cropScale| == n && |b.cropCenter| == n
  }

  /** Every joint row of the batch, predicted and ground truth, has `width` points. */
  predicate JointsFit(b: BatchRows, width: nat) {
    && (forall i :: 0 <= i < |b.predJoints| ==> |b.predJoints[i]| == width)
    && (forall i :: 0 <= i < |b.gtJoints| ==> |b.gtJoints[i]| == width)
  }

  /** `error * 1000`, elementwise. */
  function Scaled(s: seq<real>): (r: seq<real>)
    ensures |r| == |s| && forall i :: 0 <= i < |s| ==> r[i] == 1000.0 * s[i]
  {
    seq(|s|, i requires 0 <= i < |s| => 1000.0 * s[i])
  }

  function Rows(b: BatchRows, f: RowField): seq<seq<real>> {
    match f
    case PredPose => b.predPose
    case PredBetas => b.predBetas
    case PredCamera => b.predCamera
    case GtPose => b.gtPose
    case GtBetas => b.gtBetas
    case CropCenter => b.cropCenter
  }

  function Joints(b: BatchRows, f: JointField): seq<seq<Point>> {
    match f
    case PredJoints => b.predJoints
    case GtJoints => b.gtJoints
  }

  /** What is stored of a scalar field: the errors in millimetres, the crop scale as given. */
  function Values(b: BatchRows, f: ValueField): seq<real> {
    match f
    case ErrorMpjpe => Scaled(b.errors)
    case ErrorRecon => Scaled(b.rErrors)
    case CropScale => b.cropScale
  }

  /** The entries of every batch for one field, one after the other. */
  function AllNames(bs: seq<BatchRows>): seq<string> {
    if bs == [] then [] else AllNames(bs[..|bs| - 1]) + bs[|bs| - 1].imgNames
  }

  function AllRows(bs: seq<BatchRows>, f: RowField): seq<seq<real>> {
    if bs == [] then [] else AllRows(bs[..|bs| - 1], f) + Rows(bs[|bs| - 1], f)
  }

  function AllJoints(bs: seq<BatchRows>, f: JointField): seq<seq<Point>> {
    if bs == [] then [] else AllJoints(bs[..|bs| - 1], f) + Joints(bs[|bs| - 1], f)
  }

  function AllValues(bs: seq<BatchRows>, f: ValueField): seq<real> {
    if bs == [] then [] else AllValues(bs[..|bs| - 1], f) + Values(bs[|bs| - 1], f)
  }

  /** The exported dict. */
  datatype ExportDict = ExportDict(
    imageNames: seq<string>,
    predPose: seq<seq<real>>, predBetas: seq<seq<real>>, predCamera: seq<seq<real>>,
    predJoints: seq<seq<Point>>,
    gtPose: seq<seq<real>>, gtBetas: seq<seq<real>>, gtJoints: seq<seq<Point>>,
    errorMpjpe: seq<real>, errorRecon: seq<real>,
    cropScale: seq<real>, cropCenter: seq<seq<real>>)

  /** The dict holding exactly the given batches' entries, in order. */
  predicate Holds(o: ExportDict, bs: seq<BatchRows>) {
    && o.imageNames == AllNames(bs)
    && o.predPose == AllRows(bs, PredPose) && o.predBetas == AllRows(bs, PredBetas)
    && o.predCamera == AllRows(bs, PredCamera) && o.predJoints == AllJoints(bs, PredJoints)
    && o.gtPose == AllRows(bs, GtPose) && o.gtBetas == AllRows(bs, GtBetas)
    && o.gtJoints == AllJoints(bs, GtJoints)
    && o.errorMpjpe == AllValues(bs, ErrorMpjpe) && o.errorRecon == AllValues(bs, ErrorRecon)
    && o.cropScale == AllValues(bs, CropScale) && o.cropCenter == AllRows(bs, CropCenter)
  }

  /** Every field of the dict has one entry per image name. */
  predicate Aligned(o: ExportDict) {
    var n := |o.imageNames|;
    && |o.predPose| == n && |o.predBetas| == n && |o.predCamera| == n && |o.predJoints| == n
    && |o.gtPose| == n && |o.gtBetas| == n && |o.gtJoints| == n
    && |o.errorMpjpe| == n && |o.errorRecon| == n && |o.cropScale| == n && |o.cropCenter| == n
  }

  /** Every field of the dict is empty. */
  predicate IsEmpty(o: ExportDict) {
    o == ExportDict([], [], [], [], [], [], [], [], [], [], [], [])
  }

  /** Every field of the dict is at least n long. */
  predicate Covers(d: ExportDict, n: nat) {
    && n <= |d.predPose| && n <= |d.predBetas| && n <= |d.predCamera| && n <= |d.predJoints|
    && n <= |d.gtPose| && n <= |d.gtBetas| && n <= |d.gtJoints|
    && n <= |d.errorMpjpe| && n <= |d.errorRecon| && n <= |d.cropScale| && n <= |d.cropCenter|
  }

  /** The arrays cut to their first n rows (`[:finalLen]`). */
  function Cut(d: ExportDict, n: nat): (c: ExportDict)
    requires Covers(d, n)
  {
    ExportDict(
      d.imageNames,
      d.predPose[..n], d.predBetas[..n], d.predCamera[..n], d.predJoints[..n],
      d.gtPose[..n], d.gtBetas[..n], d.gtJoints[..n],
      d.errorMpjpe[..n], d.errorRecon[..n], d.cropScale[..n], d.cropCenter[..n])
  }

  /** The state after one batch is written at p: each array spliced, the names extended. */
  function Written(d: ExportDict, p: nat, b: BatchRows): ExportDict
    requires Consistent(b) && Covers(d, p + |b.imgNames|)
  {
    ExportDict(
      d.imageNames + b.imgNames,
      Spliced(d.predPose, p, b.predPose), Spliced(d.predBetas, p, b.predBetas),
      Spliced(d.predCamera, p, b.predCamera), Spliced(d.predJoints, p, b.predJoints),
      Spliced(d.gtPose, p, b.gtPose), Spliced(d.gtBetas, p, b.gtBetas),
      Spliced(d.gtJoints, p, b.gtJoints),
      Spliced(d.errorMpjpe, p, Scaled(b.errors)), Spliced(d.errorRecon, p, Scaled(b.rErrors)),
      Spliced(d.cropScale, p, b.cropScale), Spliced(d.cropCenter, p, b.cropCenter))
  }

  /**
   * The pointer invariant: if the first p rows hold the batches recorded so
   * far, then after writing the next batch at p the first p + n rows hold
   * those batches followed by it.
   */
  lemma WrittenHolds(d: ExportDict, p: nat, b: BatchRows, rec: seq<BatchRows>)
    requires Consistent(b) && Covers(d, p + |b.imgNames|)
    requires Holds(Cut(d, p), rec)
    ensures Covers(Written(d, p, b), p + |b.imgNames|)
    ensures Holds(Cut(Written(d, p, b), p + |b.imgNames|), rec + [b])
  {
    var rec' := rec + [b];
    assert rec'[..|rec'| - 1] == rec;
    SplicedExtends(d.predPose, p, b.predPose, AllRows(rec, PredPose));
    SplicedExtends(d.predBetas, p, b.predBetas, AllRows(rec, PredBetas));
    SplicedExtends(d.predCamera, p, b.predCamera, AllRows(rec, PredCamera));
    SplicedExtends(d.predJoints, p, b.predJoints, AllJoints(rec, PredJoints));
    SplicedExtends(d.gtPose, p, b.gtPose, AllRows(rec, GtPose));
    SplicedExtends(d.gtBetas, p, b.gtBetas, AllRows(rec, GtBetas));
    SplicedExtends(d.gtJoints, p, b.gtJoints, AllJoints(rec, GtJoints));
    SplicedExtends(d.errorMpjpe, p, Scaled(b.errors), AllValues(rec, ErrorMpjpe));
    SplicedExtends(d.errorRecon, p, Scaled(b.rErrors), AllValues(rec, ErrorRecon));
    SplicedExtends(d.cropScale, p, b.cropScale, AllValues(rec, CropScale));
    SplicedExtends(d.cropCenter, p, b.cropCenter, AllRows(rec, CropCenter));
  }

  method ZeroRows(n: nat, width: nat) returns (a: array<seq<real>>)
    ensures fresh(a) && a[..] == seq(n, _ => Zeros(width))
  {
    a := new seq<real>[n](_ => Zeros(width));
  }

  method ZeroJoints(n: nat, width: nat) returns (a: array<seq<Point>>)
    ensures fresh(a) && a[..] == seq(n, _ => seq(width, _ => Origin))
  {
    a := new seq<Point>[n](_ => seq(width, _ => Origin));
  }

  method ZeroValues(n: nat) returns (a: array<real>)
    ensures fresh(a) && a[..] == seq(n, _ => 0.0)
  {
    a := new real[n](_ => 0.0);
  }

  class Exporter {
    const capacity: nat
    /** The points per sample of the two joint arrays. */
    const joints: nat
    const predPose: array<seq<real>>
    const predBetas: array<seq<real>>
    const predCamera: array<seq<real>>
    const gtPose: array<seq<real>>
    const gtBetas: array<seq<real>>
    const cropCenter: array<seq<real>>
    const predJoints: array<seq<Point>>
    const gtJoints: array<seq<Point>>
    const errorMpjpe: array<real>
    const errorRecon: array<real>
    const cropScale: array<real>
    /** `output_imgNames` */
    var imgNames: seq<string>
    /** `outputStartPointer` */
    var ptr: nat
    /** The batches recorded so far. */
    ghost var recorded: seq<BatchRows>

    /** The names and the full arrays. */
    function Contents(): ExportDict
      reads this, predPose, predBetas, predCamera, gtPose, gtBetas, cropCenter,
        predJoints, gtJoints, errorMpjpe, errorRecon, cropScale
    {
      ExportDict(
        imgNames,
        predPose[..], predBetas[..], predCamera[..], predJoints[..],
        gtPose[..], gtBetas[..], gtJoints[..],
        errorMpjpe[..], errorRecon[..], cropScale[..], cropCenter[..])
    }

    /**
     * The arrays are distinct and all of the dataset's length; the pointer is
     * the number of names recorded; below it every array holds exactly the
     * recorded batches' entries, in order.
     */
    ghost predicate Valid()
      reads this, predPose, predBetas, predCamera, gtPose, gtBetas, cropCenter,
        predJoints, gtJoints, errorMpjpe, errorRecon, cropScale
    {
      && predPose != predBetas && predPose != predCamera && predPose != gtPose
      && predPose != gtBetas && predPose != cropCenter && predBetas != predCamera
      && predBetas != gtPose && predBetas != gtBetas && predBetas != cropCenter
      && predCamera != gtPose && predCamera != gtBetas && predCamera != cropCenter
      && gtPose != gtBetas && gtPose != cropCenter && gtBetas != cropCenter
      && predJoints != gtJoints && errorMpjpe != errorRecon && errorMpjpe != cropScale
      && errorRecon != cropScale
      && predPose.Length == capacity && predBetas.Length == capacity
      && predCamera.Length == capacity && gtPose.Length == capacity
      && gtBetas.Length == capacity && cropCenter.Length == capacity
      && predJoints.Length == capacity && gtJoints.Length == capacity
      && errorMpjpe.Length == capacity && errorRecon.Length == capacity
      && cropScale.Length == capacity
      && ptr == |imgNames| <= capacity
      && Holds(Cut(Contents(), ptr), recorded)
    }

    /** Every object the buffer owns. */
    ghost function Repr(): set<object> {
      {this, predPose, predBetas, predCamera, gtPose, gtBetas, cropCenter,
        predJoints, gtJoints, errorMpjpe, errorRecon, cropScale}
    }

    /** The arrays `np.zeros((len(dataset), ...))`, no names, pointer 0. */
    constructor(capacity: nat, joints: nat)
      ensures Valid() && this.capacity == capacity && this.joints == joints
      ensures recorded == [] && imgNames == [] && ptr == 0
      ensures fresh(predPose) && predPose[..] == seq(capacity, _ => Zeros(72))
      ensures fresh(predBetas) && predBetas[..] == seq(capacity, _ => Zeros(10))
      ensures fresh(predCamera) && predCamera[..] == seq(capacity, _ => Zeros(3))
      ensures fresh(gtPose) && gtPose[..] == seq(capacity, _ => Zeros(72))
      ensures fresh(gtBetas) && gtBetas[..] == seq(capacity, _ => Zeros(10))
      ensures fresh(cropCenter) && cropCenter[..] == seq(capacity, _ => Zeros(2))
      ensures fresh(predJoints) && predJoints[..] == seq(capacity, _ => seq(joints, _ => Origin))
      ensures fresh(gtJoints) && gtJoints[..] == seq(capacity, _ => seq(joints, _ => Origin))
      ensures fresh(errorMpjpe) && errorMpjpe[..] == seq(capacity, _ => 0.0)
      ensures fresh(errorRecon) && errorRecon[..] == seq(capacity, _ => 0.0)
      ensures fresh(cropScale) && cropScale[..] == seq(capacity, _ => 0.0)
    {
      var pp := ZeroRows(capacity, 72);
      var pb := ZeroRows(capacity, 10);
      var pc := ZeroRows(capacity, 3);
      var gp := ZeroRows(capacity, 72);
      var gb := ZeroRows(capacity, 10);
      var cc := ZeroRows(capacity, 2);
      var pj := ZeroJoints(capacity, joints);
      var gj := ZeroJoints(capacity, joints);
      var em := ZeroValues(capacity);
      var er := ZeroValues(capacity);
      var cs := ZeroValues(capacity);
      this.capacity := capacity;
      this.joints := joints;
      predPose, predBetas, predCamera, gtPose, gtBetas, cropCenter := pp, pb, pc, gp, gb, cc;
      predJoints, gtJoints := pj, gj;
      errorMpjpe, errorRecon, cropScale := em, er, cs;
      imgNames := [];
      ptr := 0;
      recorded := [];
    }

    /** Lines 337-343 of the script: the predictions, pose, betas and camera written twice. */
    method WritePredictions(b: BatchRows)
      requires Consistent(b) && ptr + |b.imgNames| <= predPose.Length
      requires ptr + |b.imgNames| <= predBetas.Length && ptr + |b.imgNames| <= predCamera.Length
      requires ptr + |b.imgNames| <= predJoints.Length
      requires predPose != predBetas && predPose != predCamera && predBetas != predCamera
      modifies predPose, predBetas, predCamera, predJoints
      ensures predPose[..] == Spliced(old(predPose[..]), ptr, b.predPose)
      ensures predBetas[..] == Spliced(old(predBetas[..]), ptr, b.predBetas)
      ensures predCamera[..] == Spliced(old(predCamera[..]), ptr, b.predCamera)
      ensures predJoints[..] == Spliced(old(predJoints[..]), ptr, b.predJoints)
    {
      WriteRows(predPose, ptr, b.predPose);
      WriteRows(predBetas, ptr, b.predBetas);
      WriteRows(predCamera, ptr, b.predCamera);
      WriteRows(predPose, ptr, b.predPose);
      WriteRows(predBetas, ptr, b.predBetas);
      WriteRows(predCamera, ptr, b.predCamera);
      SplicedIdempotent(old(predPose[..]), ptr, b.predPose);
      SplicedIdempotent(old(predBetas[..]), ptr, b.predBetas);
      SplicedIdempotent(old(predCamera[..]), ptr, b.predCamera);
      WriteRows(predJoints, ptr, b.predJoints);
    }

    /** Lines 346-354: the ground truth, the errors in millimetres and the crop. */
    method WriteTargets(b: BatchRows)
      requires Consistent(b) && ptr + |b.imgNames| <= gtPose.Length
      requires ptr + |b.imgNames| <= gtBetas.Length && ptr + |b.imgNames| <= gtJoints.Length
      requires ptr + |b.imgNames| <= errorMpjpe.Length && ptr + |b.imgNames| <= errorRecon.Length
      requires ptr + |b.imgNames| <= cropScale.Length && ptr + |b.imgNames| <= cropCenter.Length
      requires gtPose != gtBetas && gtPose != cropCenter && gtBetas != cropCenter
      requires errorMpjpe != errorRecon && errorMpjpe != cropScale && errorRecon != cropScale
      modifies gtPose, gtBetas, gtJoints, errorMpjpe, errorRecon, cropScale, cropCenter
      ensures gtPose[..] == Spliced(old(gtPose[..]), ptr, b.gtPose)
      ensures gtBetas[..] == Spliced(old(gtBetas[..]), ptr, b.gtBetas)
      ensures gtJoints[..] == Spliced(old(gtJoints[..]), ptr, b.gtJoints)
      ensures errorMpjpe[..] == Spliced(old(errorMpjpe[..]), ptr, Scaled(b.errors))
      ensures errorRecon[..] == Spliced(old(errorRecon[..]), ptr, Scaled(b.rErrors))
      ensures cropScale[..] == Spliced(old(cropScale[..]), ptr, b.cropScale)
      ensures cropCenter[..] == Spliced(old(cropCenter[..]), ptr, b.cropCenter)
    {
      WriteRows(gtPose, ptr, b.gtPose);
      WriteRows(gtBetas, ptr, b.gtBetas);
      WriteRows(gtJoints, ptr, b.gtJoints);
      WriteRows(errorMpjpe, ptr, Scaled(b.errors));
      WriteRows(errorRecon, ptr, Scaled(b.rErrors));
      WriteRows(cropScale, ptr, b.cropScale);
      WriteRows(cropCenter, ptr, b.cropCenter);
    }

    /** The pointer is the number of names recorded. */
    lemma PointerCountsNames()
      requires Valid()
      ensures ptr == |AllNames(recorded)|
    {
      assert Cut(Contents(), ptr).imageNames == imgNames;
    }

    /**
     * One batch with saving on: rows [ptr, ptr + n) of every array are
     * overwritten with the batch's entries (the errors in millimetres), the
     * names are appended and the pointer advances by n. Rows outside the
     * window keep their contents.
     */
    method RecordBatch(b: BatchRows)
      requires Valid() && Consistent(b) && ptr + |b.imgNames| <= capacity
      modifies this, predPose, predBetas, predCamera, gtPose, gtBetas, cropCenter,
        predJoints, gtJoints, errorMpjpe, errorRecon, cropScale
      ensures Valid()
      ensures Contents() == Written(old(Contents()), old(ptr), b)
      ensures recorded == old(recorded) + [b]
      ensures ptr == old(ptr) + |b.imgNames|
    {
      WritePredictions(b);
      WriteTargets(b);
      imgNames := imgNames + b.imgNames;
      ptr := ptr + |b.imgNames|;
      recorded := recorded + [b];
      assert Contents() == Written(old(Contents()), old(ptr), b);
      WrittenHolds(old(Contents()), old(ptr), b, old(recorded));
    }

    /**
     * `output[...] = array[:finalLen]` with `finalLen = len(output_imgNames)`:
     * every field cut to the number of names, holding the recorded batches.
     */
    function Output(): (o: ExportDict)
      reads this, predPose, predBetas, predCamera, gtPose, gtBetas, cropCenter,
        predJoints, gtJoints, errorMpjpe, errorRecon, cropScale
      requires Valid()
      ensures Holds(o, recorded) && Aligned(o) && o.imageNames == imgNames
    {
      var finalLen := |imgNames|;
      Cut(Contents(), finalLen)
    }
  }
}
