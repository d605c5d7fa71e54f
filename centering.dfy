/**
 * Ground-truth body selection by gender and pelvis centering of the 3D joints.
 * The regressor that turns mesh vertices into joints is a parameter; the
 * joint mappers (lists of joint indices, 14 or 17 long) are inputs.
 */
module Centering {

  datatype Point = Point(x: real, y: real, z: real)

  /** A dataset 3D keypoint: a position and a confidence, which is dropped (`[..., :-1]`). */
  datatype Keypoint = Keypoint(p: Point, conf: real)

  function Sub(a: Point, b: Point): Point {
    Point(a.x - b.x, a.y - b.y, a.z - b.z)
  }

  function Add(a: Point, b: Point): Point {
    Point(a.x + b.x, a.y + b.y, a.z + b.z)
  }

  const Origin := Point(0.0, 0.0, 0.0)

  /** Every index of the mapper picks a joint that exists. */
  predicate FitsMapper(n: nat, mapper: seq<nat>) {
    forall j :: 0 <= j < |mapper| ==> mapper[j] < n
  }

  /**
   * `gt_vertices[gender==1] = gt_vertices_female[gender==1]`: the female body
   * for samples whose gender is 1, the male body for every other value.
   */
  function SelectByGender<V>(gender: seq<int>, male: seq<V>, female: seq<V>): (bodies: seq<V>)
    requires |gender| == |male| == |female|
    ensures |bodies| == |male|
  {
    seq(|male|, i requires 0 <= i < |male| => if gender[i] == 1 then female[i] else male[i])
  }

  /** Each sample's body comes from one of its two candidates, picked by its own gender flag only. */
  lemma SelectByGenderPerSample<V>(gender: seq<int>, male: seq<V>, female: seq<V>, i: nat)
    requires |gender| == |male| == |female| && i < |male|
    ensures SelectByGender(gender, male, female)[i] == female[i] <== gender[i] == 1
    ensures SelectByGender(gender, male, female)[i] == male[i] <== gender[i] != 1
  {
  }

  /** With no sample flagged 1 the male bodies are used throughout, even for other flag values. */
  lemma SelectByGenderAllMale<V>(gender: seq<int>, male: seq<V>, female: seq<V>)
    requires |gender| == |male| == |female|
    requires forall i :: 0 <= i < |gender| ==> gender[i] != 1
    ensures SelectByGender(gender, male, female) == male
  {
  }

  /** The dataset keypoints remapped by `joint_mapper_gt`, without their confidence. */
  function MocapJoints(kps: seq<Keypoint>, mapper: seq<nat>): (joints: seq<Point>)
    requires FitsMapper(|kps|, mapper)
    ensures |joints| == |mapper|
    ensures forall j :: 0 <= j < |mapper| ==> joints[j] == kps[mapper[j]].p
  {
    seq(|mapper|, j requires 0 <= j < |mapper| => kps[mapper[j]].p)
  }

  /**
   * The regressed joints remapped by `joint_mapper_h36m`, minus joint 0 of the
   * regressed set (the pelvis) taken before remapping.
   */
  function Centered(joints: seq<Point>, mapper: seq<nat>): (c: seq<Point>)
    requires |joints| > 0 && FitsMapper(|joints|, mapper)
    ensures |c| == |mapper|
  {
    seq(|mapper|, j requires 0 <= j < |mapper| => Sub(joints[mapper[j]], joints[0]))
  }

  function Translated(joints: seq<Point>, d: Point): (t: seq<Point>)
    ensures |t| == |joints|
  {
    seq(|joints|, i requires 0 <= i < |joints| => Add(joints[i], d))
  }

  /** A centered joint plus the pelvis is the joint the mapper picked. */
  lemma CenteredRelativeToPelvis(joints: seq<Point>, mapper: seq<nat>)
    requires |joints| > 0 && FitsMapper(|joints|, mapper)
    ensures forall j :: 0 <= j < |mapper| ==> Add(Centered(joints, mapper)[j], joints[0]) == joints[mapper[j]]
  {
  }

  /** A mapped pelvis lands on the origin. */
  lemma CenteredPelvisAtOrigin(joints: seq<Point>, mapper: seq<nat>, j: nat)
    requires |joints| > 0 && FitsMapper(|joints|, mapper) && j < |mapper| && mapper[j] == 0
    ensures Centered(joints, mapper)[j] == Origin
  {
  }

  /**
   * Centering forgets where the body is: moving every regressed joint by the
   * same offset leaves the centered joints unchanged. Predictions and rendered
   * ground truth are centered the same way, so a global offset between them
   * does not reach the error.
   */
  lemma CenteredTranslationInvariant(joints: seq<Point>, mapper: seq<nat>, d: Point)
    requires |joints| > 0 && FitsMapper(|joints|, mapper)
    ensures Centered(Translated(joints, d), mapper) == Centered(joints, mapper)
  {
    var t := Translated(joints, d);
    forall j | 0 <= j < |mapper|
      ensures Centered(t, mapper)[j] == Centered(joints, mapper)[j]
    {
      var a := joints[mapper[j]];
      var p := joints[0];
      assert Sub(Add(a, d), Add(p, d)) == Sub(a, p);
    }
  }

  /**
   * The ground-truth joints of one batch: the keypoints for Human3.6M and
   * MPI-INF-3DHP, otherwise the joints regressed from the body of each
   * sample's gender, centered on their pelvis.
   */
  function GroundTruthJoints<V(!new)>(
    fromKeypoints: bool, kps: seq<seq<Keypoint>>, mapperGt: seq<nat>,
    gender: seq<int>, male: seq<V>, female: seq<V>,
    regress: V -> seq<Point>, mapper: seq<nat>): (gt: seq<seq<Point>>)
    requires fromKeypoints ==> forall i :: 0 <= i < |kps| ==> FitsMapper(|kps[i]|, mapperGt)
    requires !fromKeypoints ==> |gender| == |male| == |female|
    requires !fromKeypoints ==> forall v :: |regress(v)| > 0 && FitsMapper(|regress(v)|, mapper)
    ensures fromKeypoints ==> |gt| == |kps|
    ensures !fromKeypoints ==> |gt| == |male|
  {
    if fromKeypoints then
      seq(|kps|, i requires 0 <= i < |kps| => MocapJoints(kps[i], mapperGt))
    else
      var bodies := SelectByGender(gender, male, female);
      seq(|bodies|, i requires 0 <= i < |bodies| => Centered(regress(bodies[i]), mapper))
  }

  /** Rendered ground truth of a sample with gender flag 1 is computed from its female body. */
  lemma RenderedGroundTruthOfSample<V(!new)>(
    kps: seq<seq<Keypoint>>, mapperGt: seq<nat>,
    gender: seq<int>, male: seq<V>, female: seq<V>,
    regress: V -> seq<Point>, mapper: seq<nat>, i: nat)
    requires |gender| == |male| == |female| && i < |male|
    requires forall v :: |regress(v)| > 0 && FitsMapper(|regress(v)|, mapper)
    ensures var gt := GroundTruthJoints(false, kps, mapperGt, gender, male, female, regress, mapper);
      gt[i] == Centered(regress(if gender[i] == 1 then female[i] else male[i]), mapper)
  {
  }
}
