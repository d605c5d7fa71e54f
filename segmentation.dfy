/**
 * Mask and part confusion counting over label grids (flattened to one
 * sequence of pixels). The rendered masks are never produced by the shipped
 * scripts, so the grids are inputs here.
 */
module Segmentation {

  /** `img > 0`, as 0/1 labels. */
  function MaskOf(img: seq<int>): (m: seq<int>)
    ensures |m| == |img|
    ensures forall i :: 0 <= i < |img| ==> m[i] == (if img[i] > 0 then 1 else 0)
  {
    seq(|img|, i requires 0 <= i < |img| => if img[i] > 0 then 1 else 0)
  }

  /** The label that part ground truth uses for pixels to ignore. */
  const Ignore: int := 255

  function ClassCount(g: seq<int>, c: int): nat {
    if g == [] then 0 else ClassCount(g[..|g| - 1], c) + (if g[|g| - 1] == c then 1 else 0)
  }

  /** `(cgt & cpred).sum()` */
  function Hits(gt: seq<int>, pred: seq<int>, c: int): nat
    requires |gt| == |pred|
  {
    if gt == [] then 0
    else
      Hits(gt[..|gt| - 1], pred[..|pred| - 1], c)
        + (if gt[|gt| - 1] == c && pred[|pred| - 1] == c then 1 else 0)
  }

  /** `(~cgt & cpred).sum()` */
  function FalsePos(gt: seq<int>, pred: seq<int>, c: int): nat
    requires |gt| == |pred|
  {
    if gt == [] then 0
    else
      FalsePos(gt[..|gt| - 1], pred[..|pred| - 1], c)
        + (if gt[|gt| - 1] != c && pred[|pred| - 1] == c then 1 else 0)
  }

  /** `(cgt & ~cpred).sum()` */
  function Misses(gt: seq<int>, pred: seq<int>, c: int): nat
    requires |gt| == |pred|
  {
    if gt == [] then 0
    else
      Misses(gt[..|gt| - 1], pred[..|pred| - 1], c)
        + (if gt[|gt| - 1] == c && pred[|pred| - 1] != c then 1 else 0)
  }

  /** `(gt == pred).sum()` */
  function Agree(gt: seq<int>, pred: seq<int>): nat
    requires |gt| == |pred|
  {
    if gt == [] then 0
    else Agree(gt[..|gt| - 1], pred[..|pred| - 1]) + (if gt[|gt| - 1] == pred[|pred| - 1] then 1 else 0)
  }

  /** The part predictions of class c with `cpred[gt_parts == 255] = 0` applied. */
  function PartPred(gt: seq<int>, pred: seq<int>, c: int): (flags: seq<bool>)
    requires |gt| == |pred|
    ensures |flags| == |gt|
  {
    seq(|gt|, i requires 0 <= i < |gt| => pred[i] == c && gt[i] != Ignore)
  }

  /** Counts of class c with the masked predictions: (tp, fp, fn). */
  function PartCounts(gt: seq<int>, pred: seq<int>, c: int): (nat, nat, nat)
    requires |gt| == |pred|
  {
    if gt == [] then (0, 0, 0)
    else
      var (tp, fp, fn) := PartCounts(gt[..|gt| - 1], pred[..|pred| - 1], c);
      var g := gt[|gt| - 1] == c;
      var p := pred[|pred| - 1] == c && gt[|gt| - 1] != Ignore;
      (tp + (if g && p then 1 else 0), fp + (if !g && p then 1 else 0), fn + (if g && !p then 1 else 0))
  }

  /** `x[x == 255] = 0` */
  function Cleared(g: seq<int>): (r: seq<int>)
    ensures |r| == |g|
    ensures forall i :: 0 <= i < |g| ==> r[i] == (if g[i] == Ignore then 0 else g[i])
  {
    seq(|g|, i requires 0 <= i < |g| => if g[i] == Ignore then 0 else g[i])
  }

  /** The pixel pairs whose ground truth is not ignored. */
  function Kept(gt: seq<int>, pred: seq<int>): (k: (seq<int>, seq<int>))
    requires |gt| == |pred|
    ensures |k.0| == |k.1| <= |gt|
    ensures forall i :: 0 <= i < |k.0| ==> k.0[i] != Ignore
  {
    if gt == [] then ([], [])
    else
      var (g, p) := Kept(gt[..|gt| - 1], pred[..|pred| - 1]);
      if gt[|gt| - 1] == Ignore then (g, p) else (g + [gt[|gt| - 1]], p + [pred[|pred| - 1]])
  }

  // ---------------------------------------------------------------------------
  // Properties of the counts
  // ---------------------------------------------------------------------------

  /** Every ground-truth pixel of class c is a hit or a miss; every predicted one a hit or a false positive. */
  lemma {:induction false} CountsAddUp(gt: seq<int>, pred: seq<int>, c: int)
    requires |gt| == |pred|
    ensures Hits(gt, pred, c) + Misses(gt, pred, c) == ClassCount(gt, c)
    ensures Hits(gt, pred, c) + FalsePos(gt, pred, c) == ClassCount(pred, c)
  {
    if gt != [] {
      CountsAddUp(gt[..|gt| - 1], pred[..|pred| - 1], c);
    }
  }

  /** Agreeing pixels are at most all pixels. */
  lemma {:induction false} AgreeBounded(gt: seq<int>, pred: seq<int>)
    requires |gt| == |pred|
    ensures Agree(gt, pred) <= |gt|
  {
    if gt != [] {
      AgreeBounded(gt[..|gt| - 1], pred[..|pred| - 1]);
    }
  }

  /** On 0/1 masks, the agreeing pixels are the hits of class 0 plus those of class 1. */
  lemma {:induction false} MaskAgreeIsHits(gt: seq<int>, pred: seq<int>)
    requires |gt| == |pred|
    requires forall i :: 0 <= i < |gt| ==> (gt[i] == 0 || gt[i] == 1) && (pred[i] == 0 || pred[i] == 1)
    ensures Agree(gt, pred) == Hits(gt, pred, 0) + Hits(gt, pred, 1)
  {
    if gt != [] {
      MaskAgreeIsHits(gt[..|gt| - 1], pred[..|pred| - 1]);
    }
  }

  /**
   * Pixels whose ground truth is 255 add nothing to any part count: the
   * counts equal the plain counts over the remaining pixels.
   */
  lemma {:induction false} IgnoredAddNothing(gt: seq<int>, pred: seq<int>, c: int)
    requires |gt| == |pred| && c != Ignore
    ensures var (g, p) := Kept(gt, pred);
      PartCounts(gt, pred, c) == (Hits(g, p, c), FalsePos(g, p, c), Misses(g, p, c))
  {
    if gt != [] {
      var n := |gt| - 1;
      IgnoredAddNothing(gt[..n], pred[..n], c);
      var (g, p) := Kept(gt[..n], pred[..n]);
      if gt[n] != Ignore {
        assert (g + [gt[n]])[..|g|] == g && (p + [pred[n]])[..|p|] == p;
      }
    }
  }

  /** Counting uses the masked prediction flags: in those terms each count is the textbook one. */
  lemma {:induction false} PartCountsUseMaskedPred(gt: seq<int>, pred: seq<int>, c: int)
    requires |gt| == |pred|
    ensures var flags := PartPred(gt, pred, c);
      PartCounts(gt, pred, c).0 == FlagCount(gt, flags, c, true, true)
      && PartCounts(gt, pred, c).1 == FlagCount(gt, flags, c, false, true)
      && PartCounts(gt, pred, c).2 == FlagCount(gt, flags, c, true, false)
  {
    if gt != [] {
      var n := |gt| - 1;
      PartCountsUseMaskedPred(gt[..n], pred[..n], c);
      assert PartPred(gt, pred, c)[..n] == PartPred(gt[..n], pred[..n], c);
    }
  }

  /** Pixels with `(gt == c) == g` and `flags == p`. */
  function FlagCount(gt: seq<int>, flags: seq<bool>, c: int, g: bool, p: bool): nat
    requires |gt| == |flags|
  {
    if gt == [] then 0
    else
      FlagCount(gt[..|gt| - 1], flags[..|flags| - 1], c, g, p)
        + (if (gt[|gt| - 1] == c) == g && flags[|flags| - 1] == p then 1 else 0)
  }

  // ---------------------------------------------------------------------------
  // The accumulators
  // ---------------------------------------------------------------------------

  /** In-place `x[x == 255] = 0`. */
  method ClearIgnored(a: array<int>)
    modifies a
    ensures a[..] == Cleared(old(a[..]))
  {
    forall i | 0 <= i < a.Length {
      a[i] := if a[i] == Ignore then 0 else a[i];
    }
  }

  /** The tp/fp/fn arrays (one entry per class), the agreeing-pixel total and the pixel total. */
  class Tally {
    const classes: nat
    const tp: array<int>
    const fp: array<int>
    const fn: array<int>
    var accuracy: int
    var pixelCount: int

    ghost predicate Valid()
      reads this
    {
      tp.Length == classes && fp.Length == classes && fn.Length == classes
        && tp != fp && tp != fn && fp != fn
    }

    /** `np.zeros((classes, 1))` for each array, and zero totals. */
    constructor(classes: nat)
      ensures Valid() && this.classes == classes
      ensures tp[..] == seq(classes, _ => 0) && fp[..] == seq(classes, _ => 0) && fn[..] == seq(classes, _ => 0)
      ensures accuracy == 0 && pixelCount == 0
    {
      this.classes := classes;
      tp := new int[classes](_ => 0);
      fp := new int[classes](_ => 0);
      fn := new int[classes](_ => 0);
      accuracy := 0;
      pixelCount := 0;
    }

    /**
     * One LSP image of the mask evaluation: both grids are thresholded at 0,
     * agreeing pixels and all pixels are added to the totals, and for classes
     * 0 and 1 the hits, false positives and misses are added.
     */
    method AddMask(gtImg: seq<int>, predImg: seq<int>)
      requires Valid() && classes == 2 && |gtImg| == |predImg|
      modifies this, tp, fp, fn
      ensures Valid()
      ensures var gt, pred := MaskOf(gtImg), MaskOf(predImg);
        && accuracy == old(accuracy) + Agree(gt, pred)
        && pixelCount == old(pixelCount) + |gtImg|
        && (forall c :: 0 <= c < 2 ==>
              && tp[c] == old(tp[c]) + Hits(gt, pred, c)
              && fp[c] == old(fp[c]) + FalsePos(gt, pred, c)
              && fn[c] == old(fn[c]) + Misses(gt, pred, c))
    {
      var gt, pred := MaskOf(gtImg), MaskOf(predImg);
      accuracy := accuracy + Agree(gt, pred);
      pixelCount := pixelCount + |gtImg|;
      for c := 0 to 2
        invariant accuracy == old(accuracy) + Agree(gt, pred)
        invariant pixelCount == old(pixelCount) + |gtImg|
        invariant forall d :: 0 <= d < c ==>
          && tp[d] == old(tp[d]) + Hits(gt, pred, d)
          && fp[d] == old(fp[d]) + FalsePos(gt, pred, d)
          && fn[d] == old(fn[d]) + Misses(gt, pred, d)
        invariant forall d :: c <= d < 2 ==> tp[d] == old(tp[d]) && fp[d] == old(fp[d]) && fn[d] == old(fn[d])
      {
        tp[c] := tp[c] + Hits(gt, pred, c);
        fp[c] := fp[c] + FalsePos(gt, pred, c);
        fn[c] := fn[c] + Misses(gt, pred, c);
      }
    }

    /**
     * One LSP image of the part evaluation: for each of the 7 classes the
     * counts with ignored pixels masked out of the prediction; then 255 is
     * replaced by 0 in both grids, in place, and the agreeing pixels and all
     * pixels are added to the totals.
     */
    method AddParts(gtParts: array<int>, predParts: array<int>)
      requires Valid() && classes == 7 && gtParts.Length == predParts.Length
      requires gtParts != predParts
      requires gtParts != tp && gtParts != fp && gtParts != fn
      requires predParts != tp && predParts != fp && predParts != fn
      modifies this, tp, fp, fn, gtParts, predParts
      ensures Valid()
      ensures gtParts[..] == Cleared(old(gtParts[..])) && predParts[..] == Cleared(old(predParts[..]))
      ensures accuracy == old(accuracy) + Agree(gtParts[..], predParts[..])
      ensures pixelCount == old(pixelCount) + gtParts.Length
      ensures forall c :: 0 <= c < 7 ==>
        var (t, p, n) := PartCounts(old(gtParts[..]), old(predParts[..]), c);
        tp[c] == old(tp[c]) + t && fp[c] == old(fp[c]) + p && fn[c] == old(fn[c]) + n
    {
      var gt, pred := gtParts[..], predParts[..];
      for c := 0 to 7
        invariant gtParts[..] == gt && predParts[..] == pred
        invariant accuracy == old(accuracy) && pixelCount == old(pixelCount)
        invariant forall d :: 0 <= d < c ==>
          var (t, p, n) := PartCounts(gt, pred, d);
          tp[d] == old(tp[d]) + t && fp[d] == old(fp[d]) + p && fn[d] == old(fn[d]) + n
        invariant forall d :: c <= d < 7 ==> tp[d] == old(tp[d]) && fp[d] == old(fp[d]) && fn[d] == old(fn[d])
      {
        var (t, p, n) := PartCounts(gt, pred, c);
        tp[c] := tp[c] + t;
        fp[c] := fp[c] + p;
        fn[c] := fn[c] + n;
      }
      ClearIgnored(gtParts);
      ClearIgnored(predParts);
      accuracy := accuracy + Agree(gtParts[..], predParts[..]);
      pixelCount := pixelCount + gtParts.Length;
    }
  }

  /** The mask totals after one image: accuracy grows by no more than the pixel count. */
  lemma MaskAccuracyBounded(gtImg: seq<int>, predImg: seq<int>)
    requires |gtImg| == |predImg|
    ensures Agree(MaskOf(gtImg), MaskOf(predImg)) <= |gtImg|
    ensures forall c :: 0 <= c < 2 ==>
      Hits(MaskOf(gtImg), MaskOf(predImg), c) + Misses(MaskOf(gtImg), MaskOf(predImg), c) == ClassCount(MaskOf(gtImg), c)
  {
    AgreeBounded(MaskOf(gtImg), MaskOf(predImg));
    forall c | 0 <= c < 2 {
      CountsAddUp(MaskOf(gtImg), MaskOf(predImg), c);
    }
  }
}
