/**
 * Naming and loading of the precomputed prediction files read by the pkl
 * evaluation script: one file per sample, named after the sample's sequence,
 * image and dataset index. The file system is the map `files` from existing
 * paths to their contents.
 */
module PklNames {
  import opened Results
  import opened PosixPath
  import Decimal

  /** The three entries the script reads from a prediction file. */
  datatype Prediction = Prediction(rotmat: seq<real>, shape: seq<real>, camera: seq<real>)

  /** One sample of a batch: its image path, its dataset index and its ground-truth payload. */
  datatype Sample = Sample(imgName: string, sampleIndex: int, annotation: seq<real>)

  /** `os.path.basename(name)[:-4]`: the image file name without a four-character extension. */
  function ImgNameOnly(name: string): (r: string)
    ensures '/' !in r
  {
    var b := Basename(name);
    if |b| >= 4 then b[..|b| - 4] else ""
  }

  /** The image name of a file `f` directly under a directory is `f` without its four-character extension. */
  lemma ImgNameOnlyOfFile(pre: string, f: string)
    requires pre == [] || pre[|pre| - 1] == '/'
    requires '/' !in f && |f| >= 4
    ensures ImgNameOnly(pre + f) == f[..|f| - 4]
  {
    BasenameOfSuffix(pre, f);
  }

  /** The f-string `f'{seqName}_{imgNameOnly}_{sample_idx}.pkl'`. */
  function FileNameOf(seqName: string, imgNameOnly: string, sampleIdx: int): string {
    seqName + "_" + imgNameOnly + "_" + Decimal.IntToString(sampleIdx) + ".pkl"
  }

  /** The prediction-file name of the sample with image path `name` and index `sampleIdx`. */
  function PklFileName(name: string, sampleIdx: int): string {
    FileNameOf(SeqName(name), ImgNameOnly(name), sampleIdx)
  }

  /** `os.path.join(pklDir, pklfilename)`. */
  function PklPath(pklDir: string, s: Sample): string {
    Join(pklDir, PklFileName(s.imgName, s.sampleIndex))
  }

  /** Reads the sample index back from a prediction-file name: the text between the last '_' and ".pkl". */
  function ParseSampleIndex(f: string): Option<int> {
    if |f| >= 4 && f[|f| - 4..] == ".pkl" then
      var stem := f[..|f| - 4];
      var i := AfterLast(stem, '_');
      if i > 0 then Decimal.ParseInt(stem[i..]) else None
    else None
  }

  lemma SplitConcat(a: string, b: string)
    ensures (a + b)[..|a|] == a && (a + b)[|a|..] == b
  {
  }

  /** The name starts with the sequence name and '_' and ends in ".pkl". */
  lemma FileNameOfEnds(seqName: string, imgNameOnly: string, sampleIdx: int)
    ensures var f := FileNameOf(seqName, imgNameOnly, sampleIdx);
      f[..|seqName| + 1] == seqName + "_" && f[|f| - 4..] == ".pkl"
  {
    var head := seqName + "_";
    var rest := imgNameOnly + "_" + Decimal.IntToString(sampleIdx);
    assert FileNameOf(seqName, imgNameOnly, sampleIdx) == head + (rest + ".pkl");
    SplitConcat(head, rest + ".pkl");
    SplitConcat(head + rest, ".pkl");
  }

  /** The name holds a separator only if one of its two name parts does. */
  lemma FileNameOfNoSeparator(seqName: string, imgNameOnly: string, sampleIdx: int)
    requires '/' !in seqName && '/' !in imgNameOnly
    ensures '/' !in FileNameOf(seqName, imgNameOnly, sampleIdx)
  {
    var digits := Decimal.IntToString(sampleIdx);
    assert forall i :: 0 <= i < |digits| ==> digits[i] != '/';
  }

  /** The sample index can be read back from the name. */
  lemma FileNameOfIndexRoundTrip(seqName: string, imgNameOnly: string, sampleIdx: int)
    ensures ParseSampleIndex(FileNameOf(seqName, imgNameOnly, sampleIdx)) == Some(sampleIdx)
  {
    var pre := seqName + "_" + imgNameOnly + "_";
    var digits := Decimal.IntToString(sampleIdx);
    var f := pre + digits + ".pkl";
    SplitConcat(pre + digits, ".pkl");
    assert forall i :: 0 <= i < |digits| ==> digits[i] != '_';
    AfterLastOfSuffix(pre, digits, '_');
    SplitConcat(pre, digits);
    Decimal.IntToStringRoundTrip(sampleIdx);
  }

  /**
   * The prediction-file name of a sample starts with its sequence name and '_',
   * ends in ".pkl", holds no separator, and the sample index can be read back.
   */
  lemma PklFileNameLayout(name: string, sampleIdx: int)
    ensures var f := PklFileName(name, sampleIdx);
      && f[..|SeqName(name)| + 1] == SeqName(name) + "_"
      && f[|f| - 4..] == ".pkl"
      && '/' !in f
      && ParseSampleIndex(f) == Some(sampleIdx)
  {
    FileNameOfEnds(SeqName(name), ImgNameOnly(name), sampleIdx);
    FileNameOfNoSeparator(SeqName(name), ImgNameOnly(name), sampleIdx);
    FileNameOfIndexRoundTrip(SeqName(name), ImgNameOnly(name), sampleIdx);
  }

  /** The prediction file of a sample sits directly in `pklDir`. */
  lemma PklPathBasename(pklDir: string, s: Sample)
    ensures Basename(PklPath(pklDir, s)) == PklFileName(s.imgName, s.sampleIndex)
  {
    PklFileNameLayout(s.imgName, s.sampleIndex);
    BasenameOfJoin(pklDir, PklFileName(s.imgName, s.sampleIndex));
  }

  /** The prediction-file paths of a batch, in sample order. */
  function PklPaths(pklDir: string, batch: seq<Sample>): (ps: seq<string>)
    ensures |ps| == |batch|
  {
    if batch == [] then []
    else PklPaths(pklDir, batch[..|batch| - 1]) + [PklPath(pklDir, batch[|batch| - 1])]
  }

  /** Path `i` is the prediction-file path of sample `i`. */
  lemma {:induction false} PklPathAt(pklDir: string, batch: seq<Sample>, i: nat)
    requires i < |batch|
    ensures PklPaths(pklDir, batch)[i] == PklPath(pklDir, batch[i])
  {
    var n := |batch| - 1;
    var prev, last := PklPaths(pklDir, batch[..n]), PklPath(pklDir, batch[n]);
    assert PklPaths(pklDir, batch) == prev + [last];
    if i < n {
      PklPathAt(pklDir, batch[..n], i);
      assert batch[..n][i] == batch[i];
    } else {
      assert (prev + [last])[i] == last;
    }
  }

  /** The i-th path is the prediction-file path of the i-th sample. */
  lemma PklPathsAt(pklDir: string, batch: seq<Sample>)
    ensures forall i :: 0 <= i < |batch| ==> PklPaths(pklDir, batch)[i] == PklPath(pklDir, batch[i])
  {
    forall i | 0 <= i < |batch| {
      PklPathAt(pklDir, batch, i);
    }
  }

  /** Every one of `paths` exists. */
  predicate AllExist(paths: seq<string>, files: map<string, Prediction>) {
    forall i :: 0 <= i < |paths| ==> paths[i] in files
  }

  /** The contents of the existing files among `paths`, in order. */
  function Found(paths: seq<string>, files: map<string, Prediction>): seq<Prediction> {
    if paths == [] then []
    else
      var last := paths[|paths| - 1];
      Found(paths[..|paths| - 1], files) + (if last in files then [files[last]] else [])
  }

  /** The paths among `paths` that do not exist, in order. */
  function Missing(paths: seq<string>, files: map<string, Prediction>): seq<string> {
    if paths == [] then []
    else
      var last := paths[|paths| - 1];
      Missing(paths[..|paths| - 1], files) + (if last in files then [] else [last])
  }

  /** Every path either yields one prediction or is reported missing. */
  lemma {:induction false} FoundAndMissingPartition(paths: seq<string>, files: map<string, Prediction>)
    ensures |Found(paths, files)| + |Missing(paths, files)| == |paths|
    ensures forall p :: p in Missing(paths, files) <==> p in paths && p !in files
  {
    if paths != [] {
      var init := paths[..|paths| - 1];
      FoundAndMissingPartition(init, files);
      assert paths == init + [paths[|paths| - 1]];
    }
  }

  /** With no file missing, the i-th loaded prediction is the content of the i-th sample's file. */
  lemma {:induction false} NoneMissingAllFound(paths: seq<string>, files: map<string, Prediction>)
    requires Missing(paths, files) == []
    ensures AllExist(paths, files) && |Found(paths, files)| == |paths|
    ensures forall i :: 0 <= i < |paths| ==> Found(paths, files)[i] == files[paths[i]]
  {
    if paths != [] {
      var init := paths[..|paths| - 1];
      var last := paths[|paths| - 1];
      assert Missing(init, files) == [];
      NoneMissingAllFound(init, files);
      forall i | 0 <= i < |paths|
        ensures paths[i] in files && Found(paths, files)[i] == files[paths[i]]
      {
        if i < |init| {
          assert paths[i] == init[i];
        }
      }
    }
  }

  /** When every path exists, none is reported missing. */
  lemma {:induction false} AllExistNoneMissing(paths: seq<string>, files: map<string, Prediction>)
    requires AllExist(paths, files)
    ensures Missing(paths, files) == []
  {
    if paths != [] {
      var init := paths[..|paths| - 1];
      assert forall i :: 0 <= i < |init| ==> init[i] == paths[i];
      AllExistNoneMissing(init, files);
    }
  }

  /**
   * The per-batch loop over the samples' prediction-file paths: for each
   * existing file, appends its rotation matrices, shape and camera to the three
   * lists; for a missing file it records the path (the script prints it) and
   * appends nothing. `missingPkl` is set when any file is missing.
   */
  method LoadFiles(paths: seq<string>, files: map<string, Prediction>)
    returns (rotmats: seq<seq<real>>, betas: seq<seq<real>>, cameras: seq<seq<real>>,
             missing: seq<string>, missingPkl: bool)
    ensures var found := Found(paths, files);
      && |rotmats| == |betas| == |cameras| == |found|
      && (forall i :: 0 <= i < |found| ==>
            rotmats[i] == found[i].rotmat && betas[i] == found[i].shape && cameras[i] == found[i].camera)
    ensures missing == Missing(paths, files)
    ensures missingPkl <==> missing != []
  {
    rotmats, betas, cameras, missing, missingPkl := [], [], [], [], false;
    var k := 0;
    while k < |paths|
      invariant 0 <= k <= |paths|
      invariant var found := Found(paths[..k], files);
        && |rotmats| == |betas| == |cameras| == |found|
        && (forall i :: 0 <= i < |found| ==>
              rotmats[i] == found[i].rotmat && betas[i] == found[i].shape && cameras[i] == found[i].camera)
      invariant missing == Missing(paths[..k], files)
      invariant missingPkl <==> missing != []
    {
      var path := paths[k];
      assert paths[..k + 1][..k] == paths[..k];
      if path !in files {
        missingPkl := true;
        missing := missing + [path];
      } else {
        var data := files[path];
        rotmats := rotmats + [data.rotmat];
        betas := betas + [data.shape];
        cameras := cameras + [data.camera];
      }
      k := k + 1;
    }
    assert paths[..|paths|] == paths;
  }

  /** Derives every sample's prediction-file path under `pklDir` and loads the files. */
  method LoadPredictions(pklDir: string, batch: seq<Sample>, files: map<string, Prediction>)
    returns (rotmats: seq<seq<real>>, betas: seq<seq<real>>, cameras: seq<seq<real>>,
             missing: seq<string>, missingPkl: bool)
    ensures var found := Found(PklPaths(pklDir, batch), files);
      && |rotmats| == |betas| == |cameras| == |found|
      && (forall i :: 0 <= i < |found| ==>
            rotmats[i] == found[i].rotmat && betas[i] == found[i].shape && cameras[i] == found[i].camera)
    ensures missing == Missing(PklPaths(pklDir, batch), files)
    ensures missingPkl <==> missing != []
  {
    var paths := PklPaths(pklDir, batch);
    rotmats, betas, cameras, missing, missingPkl := LoadFiles(paths, files);
  }
}
