/**
 * Run configuration: the dataset name decides which evaluations run, how many
 * joints the joint mappers keep, and where the ground-truth 3D joints come
 * from. The two scripts differ only in the list of pose datasets.
 */
module RunConfig {

  /** Which of the two evaluation scripts is being run. */
  datatype Script = FromPkl | Export

  /** Ground truth from the dataset's 3D keypoints, or rendered from the body model. */
  datatype GtSource = MocapKeypoints | RenderedBody

  datatype Config = Config(
    evalPose: bool,
    evalMasks: bool,
    evalParts: bool,
    jointCount: nat,
    gtSource: GtSource)

  /** Python's `sub in s` on strings. */
  predicate Contains(s: string, sub: string)
    decreases |s|
  {
    (|sub| <= |s| && s[..|sub|] == sub) || (|s| > 0 && Contains(s[1..], sub))
  }

  /** The datasets on which a script runs pose evaluation. */
  function PoseDatasets(script: Script): set<string> {
    match script
    case FromPkl => {"h36m-p1", "h36m-p2", "3dpw", "3dpw-vibe", "mpi-inf-3dhp"}
    case Export => {"h36m-p1", "h36m-p2", "3dpw", "mpi-inf-3dhp"}
  }

  function Resolve(script: Script, name: string): (c: Config)
    ensures c.evalPose <==> name in PoseDatasets(script)
    ensures c.evalMasks <==> name == "lsp"
    ensures c.evalParts == c.evalMasks
    ensures !(c.evalPose && c.evalMasks)
    ensures c.jointCount == 17 <==> name == "mpi-inf-3dhp"
    ensures c.jointCount == 14 || c.jointCount == 17
  {
    var pose := name in PoseDatasets(script);
    var segmentation := !pose && name == "lsp";
    Config(
      pose, segmentation, segmentation,
      if name == "mpi-inf-3dhp" then 17 else 14,
      if Contains(name, "h36m") || Contains(name, "mpi-inf") then MocapKeypoints else RenderedBody)
  }

  lemma {:induction false} NotContainsMissingLead(s: string, sub: string)
    requires |sub| > 0 && sub[0] !in s
    ensures !Contains(s, sub)
    decreases |s|
  {
    if |sub| <= |s| {
      assert s[..|sub|][0] == s[0];
    }
    if |s| > 0 {
      assert forall c :: c in s[1..] ==> c in s;
      NotContainsMissingLead(s[1..], sub);
    }
  }

  /** The 3DPW datasets render their ground truth from the body model. */
  lemma ThreeDpwRendersGroundTruth(script: Script, name: string)
    requires name == "3dpw" || name == "3dpw-vibe"
    ensures Resolve(script, name).gtSource == RenderedBody
  {
    NotContainsMissingLead(name, "h36m");
    NotContainsMissingLead(name, "mpi-inf");
  }

  /** Human3.6M and MPI-INF-3DHP take their ground truth from the dataset's 3D keypoints. */
  lemma MocapGroundTruth(script: Script, name: string)
    requires name in {"h36m-p1", "h36m-p2", "mpi-inf-3dhp"}
    ensures Resolve(script, name).gtSource == MocapKeypoints
  {
    if name == "mpi-inf-3dhp" {
      assert "mpi-inf-3dhp"[..7] == "mpi-inf";
    } else {
      assert name[..4] == "h36m";
    }
  }

  /**
   * Among the pose datasets, the Human3.6M and MPI-INF-3DHP ones take their
   * ground truth from the dataset's 3D keypoints; the 3DPW ones render it.
   */
  lemma GroundTruthSourceOfPoseDatasets(script: Script, name: string)
    requires name in PoseDatasets(script)
    ensures Resolve(script, name).gtSource == MocapKeypoints
        <==> name in {"h36m-p1", "h36m-p2", "mpi-inf-3dhp"}
  {
    if name == "3dpw" || name == "3dpw-vibe" {
      ThreeDpwRendersGroundTruth(script, name);
    } else {
      MocapGroundTruth(script, name);
    }
  }

  /**
   * The export script evaluates exactly what the pkl script evaluates, except
   * that it has no pose evaluation for "3dpw-vibe".
   */
  lemma ScriptsDifferOnlyOnVibe(name: string)
    ensures name != "3dpw-vibe" ==> Resolve(Export, name) == Resolve(FromPkl, name)
    ensures Resolve(Export, "3dpw-vibe").evalPose != Resolve(FromPkl, "3dpw-vibe").evalPose
  {
  }
}
