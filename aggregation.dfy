/**
 * Per-sequence error buckets. Each of the two dictionaries `quant_mpjpe` and
 * `quant_recon_err` maps a sequence name to the list of per-sample errors filed
 * under it; a Python dict keeps its keys in insertion order, so a bucket set is
 * the key order plus the lists. Averages are taken over the concatenation of
 * all lists in key order (`np.hstack`), i.e. weighted by sample count.
 */
module Aggregation {
  import opened Results
  import PosixPath

  datatype Buckets = Buckets(keys: seq<string>, lists: map<string, seq<real>>)

  /** A freshly created `{}`. */
  const Empty: Buckets := Buckets([], map[])

  predicate Distinct(s: seq<string>) {
    forall i, j :: 0 <= i < j < |s| ==> s[i] != s[j]
  }

  /** The key order lists every key of the dict exactly once, and no list is empty. */
  ghost predicate Valid(b: Buckets) {
    && Distinct(b.keys)
    && (forall k :: k in b.lists <==> k in b.keys)
    && (forall k :: k in b.lists ==> b.lists[k] != [])
  }

  /** The bucket invariant of the two dicts: the same keys in the same order, with lists of equal length. */
  ghost predicate Paired(m: Buckets, r: Buckets) {
    && m.keys == r.keys
    && m.lists.Keys == r.lists.Keys
    && (forall k :: k in m.lists ==> |m.lists[k]| == |r.lists[k]|)
  }

  /** `d[k] = []`, for a key not yet present. */
  function Create(b: Buckets, k: string): Buckets
    requires k !in b.lists
  {
    Buckets(b.keys + [k], b.lists[k := []])
  }

  /** `d[k].append(v)`. */
  function Append(b: Buckets, k: string, v: real): Buckets
    requires k in b.lists
  {
    b.(lists := b.lists[k := b.lists[k] + [v]])
  }

  /** Files one value under `k`, creating the bucket on first sight. */
  function Record(b: Buckets, k: string, v: real): Buckets {
    Append(if k in b.lists then b else Create(b, k), k, v)
  }

  /** Files `vals[i]` under `keys[i]`, for every i in order. */
  function Filed(b: Buckets, keys: seq<string>, vals: seq<real>): Buckets
    requires |keys| == |vals|
  {
    if keys == [] then b
    else Record(Filed(b, keys[..|keys| - 1], vals[..|vals| - 1]), keys[|keys| - 1], vals[|vals| - 1])
  }

  /** The sequence names of a list of image paths. */
  function SeqNames(names: seq<string>): (keys: seq<string>)
    ensures |keys| == |names|
  {
    if names == [] then []
    else SeqNames(names[..|names| - 1]) + [PosixPath.SeqName(names[|names| - 1])]
  }

  /** Key `i` is the sequence name of image path `i`. */
  lemma {:induction false} SeqNameAt(names: seq<string>, i: nat)
    requires i < |names|
    ensures SeqNames(names)[i] == PosixPath.SeqName(names[i])
  {
    var n := |names| - 1;
    if i < n {
      SeqNameAt(names[..n], i);
      assert names[..n][i] == names[i];
    }
  }

  /** The i-th key is the sequence name of the i-th image path. */
  lemma SeqNamesAt(names: seq<string>)
    ensures forall i :: 0 <= i < |names| ==> SeqNames(names)[i] == PosixPath.SeqName(names[i])
  {
    forall i | 0 <= i < |names| {
      SeqNameAt(names, i);
    }
  }

  /** The lists of `keys`, concatenated in that order. */
  function Concat(keys: seq<string>, lists: map<string, seq<real>>): seq<real>
    requires forall k :: k in keys ==> k in lists
  {
    if keys == [] then []
    else Concat(keys[..|keys| - 1], lists) + lists[keys[|keys| - 1]]
  }

  /** `np.hstack([d[k] for k in d])`. */
  function All(b: Buckets): seq<real>
    requires Valid(b)
  {
    Concat(b.keys, b.lists)
  }

  function Sum(s: seq<real>): real {
    if s == [] then 0.0 else Sum(s[..|s| - 1]) + s[|s| - 1]
  }

  /** `np.mean`, which the script only reaches with a non-empty list; None for the empty one. */
  function Mean(s: seq<real>): Option<real> {
    if s == [] then None else Some(Sum(s) / (|s| as real))
  }

  /** The running (and final) totals in millimetres: the means of both concatenations, times 1000. */
  function Totals(mpjpe: Buckets, recon: Buckets): (t: Option<(real, real)>)
    requires Valid(mpjpe) && Valid(recon)
    ensures t.Some? <==> All(mpjpe) != [] && All(recon) != []
  {
    match (Mean(All(mpjpe)), Mean(All(recon)))
    case (Some(m), Some(r)) => Some((m * 1000.0, r * 1000.0))
    case _ => None
  }

  /** The running totals are the means of the two concatenations, in millimetres. */
  lemma TotalsAreMeans(m: Buckets, r: Buckets, t: (real, real))
    requires Valid(m) && Valid(r) && Totals(m, r) == Some(t)
    ensures Mean(All(m)) == Some(t.0 / 1000.0) && Mean(All(r)) == Some(t.1 / 1000.0)
  {
    var x, y := Mean(All(m)).value, Mean(All(r)).value;
    assert t == (x * 1000.0, y * 1000.0);
  }

  // ---------------------------------------------------------------------------
  // Filing keeps the bucket invariants
  // ---------------------------------------------------------------------------

  lemma RecordValid(b: Buckets, k: string, v: real)
    requires Valid(b)
    ensures Valid(Record(b, k, v))
    ensures Record(b, k, v).keys == if k in b.lists then b.keys else b.keys + [k]
  {
  }

  lemma {:induction false} FiledValid(b: Buckets, keys: seq<string>, vals: seq<real>)
    requires Valid(b) && |keys| == |vals|
    ensures Valid(Filed(b, keys, vals))
  {
    if keys != [] {
      FiledValid(b, keys[..|keys| - 1], vals[..|vals| - 1]);
      RecordValid(Filed(b, keys[..|keys| - 1], vals[..|vals| - 1]), keys[|keys| - 1], vals[|vals| - 1]);
    }
  }

  /** Filing the same key in both paired dicts keeps them paired. */
  lemma RecordPaired(m: Buckets, r: Buckets, k: string, e: real, re: real)
    requires Paired(m, r)
    ensures Paired(Record(m, k, e), Record(r, k, re))
  {
  }

  lemma {:induction false} FiledPaired(m: Buckets, r: Buckets, keys: seq<string>, es: seq<real>, rs: seq<real>)
    requires Paired(m, r) && |keys| == |es| == |rs|
    ensures Paired(Filed(m, keys, es), Filed(r, keys, rs))
  {
    if keys != [] {
      var n := |keys| - 1;
      FiledPaired(m, r, keys[..n], es[..n], rs[..n]);
      RecordPaired(Filed(m, keys[..n], es[..n]), Filed(r, keys[..n], rs[..n]), keys[n], es[n], rs[n]);
    }
  }

  /**
   * Filing is independent of how the samples are split into batches: filing two
   * runs of samples one after the other equals filing their concatenation.
   */
  lemma {:induction false} FiledSplit(b: Buckets, k1: seq<string>, v1: seq<real>, k2: seq<string>, v2: seq<real>)
    requires |k1| == |v1| && |k2| == |v2|
    ensures Filed(b, k1 + k2, v1 + v2) == Filed(Filed(b, k1, v1), k2, v2)
  {
    if k2 == [] {
      assert k1 + k2 == k1 && v1 + v2 == v1;
    } else {
      var n := |k2| - 1;
      assert (k1 + k2)[..|k1 + k2| - 1] == k1 + k2[..n];
      assert (v1 + v2)[..|v1 + v2| - 1] == v1 + v2[..n];
      FiledSplit(b, k1, v1, k2[..n], v2[..n]);
    }
  }

  // ---------------------------------------------------------------------------
  // Bucket contents: the errors of each sequence, in arrival order
  // ---------------------------------------------------------------------------

  /** The values among `vals` whose key is `k`, in order. */
  function Column(keys: seq<string>, vals: seq<real>, k: string): seq<real>
    requires |keys| == |vals|
  {
    if keys == [] then []
    else
      Column(keys[..|keys| - 1], vals[..|vals| - 1], k)
        + (if keys[|keys| - 1] == k then [vals[|vals| - 1]] else [])
  }

  /**
   * Starting from no buckets, there is a bucket for exactly the sequence names
   * seen, and the bucket of `k` holds the values filed under `k`, in order.
   */
  lemma {:induction false} FiledBucketIsColumn(keys: seq<string>, vals: seq<real>, k: string)
    requires |keys| == |vals|
    ensures k in Filed(Empty, keys, vals).lists <==> k in keys
    ensures k in keys ==> Filed(Empty, keys, vals).lists[k] == Column(keys, vals, k)
  {
    if keys != [] {
      var n := |keys| - 1;
      FiledBucketIsColumn(keys[..n], vals[..n], k);
      assert keys == keys[..n] + [keys[n]];
      if k !in keys[..n] {
        ColumnOfAbsent(keys[..n], vals[..n], k);
      }
    }
  }

  lemma {:induction false} ColumnOfAbsent(keys: seq<string>, vals: seq<real>, k: string)
    requires |keys| == |vals| && k !in keys
    ensures Column(keys, vals, k) == []
  {
    if keys != [] {
      var n := |keys| - 1;
      assert keys[n] in keys;
      ColumnOfAbsent(keys[..n], vals[..n], k);
    }
  }

  /** The distinct elements of `keys`, in order of first appearance. */
  function FirstAppearances(keys: seq<string>): (firsts: seq<string>)
    ensures Distinct(firsts)
    ensures forall k :: k in firsts <==> k in keys
  {
    if keys == [] then []
    else
      var init := FirstAppearances(keys[..|keys| - 1]);
      var last := keys[|keys| - 1];
      if last in keys[..|keys| - 1] then init else init + [last]
  }

  /** Starting from no buckets, the key order is the order in which sequence names first appear. */
  lemma {:induction false} FiledKeysFirstAppearance(keys: seq<string>, vals: seq<real>)
    requires |keys| == |vals|
    ensures Filed(Empty, keys, vals).keys == FirstAppearances(keys)
  {
    if keys != [] {
      var n := |keys| - 1;
      FiledKeysFirstAppearance(keys[..n], vals[..n]);
      FiledBucketIsColumn(keys[..n], vals[..n], keys[n]);
    }
  }

  /** Paired dicts hold the same number of values in total. */
  lemma {:induction false} PairedConcatLength(keys: seq<string>, m: map<string, seq<real>>, r: map<string, seq<real>>)
    requires forall k :: k in keys ==> k in m && k in r && |m[k]| == |r[k]|
    ensures |Concat(keys, m)| == |Concat(keys, r)|
  {
    if keys != [] {
      assert keys[|keys| - 1] in keys;
      PairedConcatLength(keys[..|keys| - 1], m, r);
    }
  }

  lemma PairedSameCount(m: Buckets, r: Buckets)
    requires Valid(m) && Valid(r) && Paired(m, r)
    ensures |All(m)| == |All(r)|
  {
    PairedConcatLength(m.keys, m.lists, r.lists);
  }

  // ---------------------------------------------------------------------------
  // Totals are count-weighted means over all filed samples
  // ---------------------------------------------------------------------------

  lemma {:induction false} SumAppend(a: seq<real>, b: seq<real>)
    ensures Sum(a + b) == Sum(a) + Sum(b)
  {
    if b != [] {
      var n := |b| - 1;
      assert (a + b)[..|a + b| - 1] == a + b[..n];
      SumAppend(a, b[..n]);
    } else {
      assert a + b == a;
    }
  }

  /** Replacing the list of a key that is not in `keys` leaves their concatenation alone. */
  lemma {:induction false} ConcatOtherKey(keys: seq<string>, lists: map<string, seq<real>>, k: string, l: seq<real>)
    requires forall x :: x in keys ==> x in lists
    requires k !in keys
    ensures Concat(keys, lists[k := l]) == Concat(keys, lists)
  {
    if keys != [] {
      assert keys[|keys| - 1] in keys;
      ConcatOtherKey(keys[..|keys| - 1], lists, k, l);
    }
  }

  /** Appending `v` to the list of a key that occurs once in `keys` adds `v` to the sum and one to the count. */
  lemma {:induction false} ConcatAppendAt(keys: seq<string>, lists: map<string, seq<real>>, k: string, v: real)
    requires forall x :: x in keys ==> x in lists
    requires Distinct(keys) && k in keys
    ensures var c' := Concat(keys, lists[k := lists[k] + [v]]);
      Sum(c') == Sum(Concat(keys, lists)) + v && |c'| == |Concat(keys, lists)| + 1
  {
    var n := |keys| - 1;
    var init := keys[..n];
    var lists' := lists[k := lists[k] + [v]];
    assert forall x :: x in init ==> x in keys;
    assert Distinct(init);
    if keys[n] == k {
      assert k !in init;
      ConcatOtherKey(init, lists, k, lists[k] + [v]);
      SumAppend(Concat(init, lists), lists[k] + [v]);
      SumAppend(Concat(init, lists), lists[k]);
      SumAppend(lists[k], [v]);
    } else {
      assert k in init;
      ConcatAppendAt(init, lists, k, v);
      SumAppend(Concat(init, lists'), lists[keys[n]]);
      SumAppend(Concat(init, lists), lists[keys[n]]);
    }
  }

  /** A key not yet filed goes last in the key order, with a one-element list. */
  lemma RecordNewKey(b: Buckets, k: string, v: real)
    requires k !in b.lists
    ensures Record(b, k, v) == Buckets(b.keys + [k], b.lists[k := [v]])
  {
    assert [] + [v] == [v];
    assert b.lists[k := []][k := [] + [v]] == b.lists[k := [v]];
  }

  lemma ConcatNewKey(keys: seq<string>, lists: map<string, seq<real>>, k: string, l: seq<real>)
    requires forall x :: x in keys ==> x in lists
    requires k !in keys
    ensures Concat(keys + [k], lists[k := l]) == Concat(keys, lists) + l
  {
    assert (keys + [k])[..|keys|] == keys;
    ConcatOtherKey(keys, lists, k, l);
  }

  /** Filing one value adds it to the sum of all values and one to their count. */
  lemma RecordTotals(b: Buckets, k: string, v: real)
    requires Valid(b)
    ensures Valid(Record(b, k, v))
    ensures Sum(All(Record(b, k, v))) == Sum(All(b)) + v
    ensures |All(Record(b, k, v))| == |All(b)| + 1
  {
    RecordValid(b, k, v);
    if k in b.lists {
      ConcatAppendAt(b.keys, b.lists, k, v);
    } else {
      RecordNewKeyAll(b, k, v);
      SumAppend(All(b), [v]);
    }
  }

  /** Filing under a new key appends the value to the concatenation of all buckets. */
  lemma RecordNewKeyAll(b: Buckets, k: string, v: real)
    requires Valid(b) && k !in b.lists
    ensures Valid(Record(b, k, v)) && All(Record(b, k, v)) == All(b) + [v]
  {
    RecordValid(b, k, v);
    RecordNewKey(b, k, v);
    ConcatNewKey(b.keys, b.lists, k, [v]);
  }

  /**
   * The totals after filing are the sum and count of the totals before plus
   * those of the newly filed values, whatever their sequence names.
   */
  lemma {:induction false} FiledTotals(b: Buckets, keys: seq<string>, vals: seq<real>)
    requires Valid(b) && |keys| == |vals|
    ensures Valid(Filed(b, keys, vals))
    ensures Sum(All(Filed(b, keys, vals))) == Sum(All(b)) + Sum(vals)
    ensures |All(Filed(b, keys, vals))| == |All(b)| + |vals|
  {
    if keys != [] {
      var n := |keys| - 1;
      FiledTotals(b, keys[..n], vals[..n]);
      RecordTotals(Filed(b, keys[..n], vals[..n]), keys[n], vals[n]);
    }
  }

  /**
   * The overall average is the plain mean of every filed value in arrival
   * order: grouping by sequence does not change it (a count-weighted mean).
   */
  lemma StreamMean(keys: seq<string>, vals: seq<real>)
    requires |keys| == |vals|
    ensures Valid(Filed(Empty, keys, vals))
    ensures Mean(All(Filed(Empty, keys, vals))) == Mean(vals)
  {
    FiledTotals(Empty, keys, vals);
  }

  /**
   * The example of two samples of 10 and 30 mm in sequence "A" and one of 20 mm
   * in "B": overall mean 20, and 20 in each sequence.
   */
  lemma WorkedExample()
    ensures var b := Filed(Empty, ["A", "B", "A"], [10.0, 20.0, 30.0]);
      && b.keys == ["A", "B"]
      && Mean(b.lists["A"]) == Some(20.0) && Mean(b.lists["B"]) == Some(20.0)
      && Valid(b) && Mean(All(b)) == Some(20.0)
  {
    WorkedExampleBuckets();
    assert [10.0, 30.0][..1] == [10.0];
    assert Sum([10.0, 30.0]) == 40.0;
    assert Sum([20.0]) == 20.0;
    StreamMean(["A", "B", "A"], [10.0, 20.0, 30.0]);
    assert [10.0, 20.0, 30.0][..2][..1] == [10.0];
  }

  lemma WorkedExampleBuckets()
    ensures var b := Filed(Empty, ["A", "B", "A"], [10.0, 20.0, 30.0]);
      b.keys == ["A", "B"] && "A" in b.lists && "B" in b.lists
      && b.lists["A"] == [10.0, 30.0] && b.lists["B"] == [20.0]
  {
    var b1 := Filed(Empty, ["A"], [10.0]);
    assert b1 == Record(Empty, "A", 10.0);
    RecordNewKey(Empty, "A", 10.0);
    var b2 := Filed(Empty, ["A", "B"], [10.0, 20.0]);
    assert ["A", "B"][..1] == ["A"] && [10.0, 20.0][..1] == [10.0];
    assert b2 == Record(b1, "B", 20.0);
    RecordNewKey(b1, "B", 20.0);
    var b := Filed(Empty, ["A", "B", "A"], [10.0, 20.0, 30.0]);
    assert ["A", "B", "A"][..2] == ["A", "B"] && [10.0, 20.0, 30.0][..2] == [10.0, 20.0];
    assert b == Record(b2, "A", 30.0);
  }

  lemma CountWeightedBuckets()
    ensures var b := Filed(Empty, ["A", "A", "B"], [0.0, 0.0, 30.0]);
      b.keys == ["A", "B"] && "A" in b.lists && "B" in b.lists
      && b.lists["A"] == [0.0, 0.0] && b.lists["B"] == [30.0]
  {
    var b1 := Filed(Empty, ["A"], [0.0]);
    assert b1 == Record(Empty, "A", 0.0);
    RecordNewKey(Empty, "A", 0.0);
    var b2 := Filed(Empty, ["A", "A"], [0.0, 0.0]);
    assert ["A", "A"][..1] == ["A"] && [0.0, 0.0][..1] == [0.0];
    assert b2 == Record(b1, "A", 0.0);
    var b := Filed(Empty, ["A", "A", "B"], [0.0, 0.0, 30.0]);
    assert ["A", "A", "B"][..2] == ["A", "A"] && [0.0, 0.0, 30.0][..2] == [0.0, 0.0];
    assert b == Record(b2, "B", 30.0);
    RecordNewKey(b2, "B", 30.0);
  }

  /**
   * The overall average is not the mean of the per-sequence means: two samples
   * of 0 in "A" and one of 30 in "B" average 10, while the sequence means are 0 and 30.
   */
  lemma CountWeightedNotMeanOfMeans()
    ensures var b := Filed(Empty, ["A", "A", "B"], [0.0, 0.0, 30.0]);
      && Valid(b) && Mean(All(b)) == Some(10.0)
      && Mean(b.lists["A"]) == Some(0.0) && Mean(b.lists["B"]) == Some(30.0)
  {
    CountWeightedBuckets();
    assert [0.0, 0.0][..1] == [0.0];
    assert Sum([0.0, 0.0]) == 0.0;
    assert [0.0, 0.0, 30.0][..2] == [0.0, 0.0];
    assert Sum([0.0, 0.0, 30.0]) == 30.0;
    assert Sum([30.0]) == 30.0;
    StreamMean(["A", "A", "B"], [0.0, 0.0, 30.0]);
  }

  // ---------------------------------------------------------------------------
  // The filing loop shared by both scripts
  // ---------------------------------------------------------------------------

  function Min(a: nat, b: nat): nat {
    if a < b then a else b
  }

  /**
   * One step of the loop: the bucket is created in both dicts when the key is
   * missing from the MPJPE dict, and then both values are appended. On paired
   * dicts this is filing the key in each.
   */
  lemma FileStep(m: Buckets, r: Buckets, k: string, e: real, re: real)
    requires Paired(m, r)
    ensures var m1 := if k !in m.lists then Create(m, k) else m;
      var r1 := if k !in m.lists then Create(r, k) else r;
      && k in m1.lists && k in r1.lists
      && Append(m1, k, e) == Record(m, k, e)
      && Append(r1, k, re) == Record(r, k, re)
      && Paired(Record(m, k, e), Record(r, k, re))
  {
    RecordPaired(m, r, k, e, re);
  }

  /**
   * `for ii, p in enumerate(batch['imgname'][:len(r_error)])`: files error[ii]
   * and r_error[ii] under the sequence name of p, creating both buckets
   * together when the name is not yet a key of the MPJPE dict.
   */
  method FileErrors(mpjpe: Buckets, recon: Buckets, names: seq<string>, errors: seq<real>, rErrors: seq<real>)
    returns (mpjpe': Buckets, recon': Buckets)
    requires Valid(mpjpe) && Valid(recon) && Paired(mpjpe, recon)
    requires |errors| >= Min(|names|, |rErrors|)
    ensures var n := Min(|names|, |rErrors|);
      && mpjpe' == Filed(mpjpe, SeqNames(names[..n]), errors[..n])
      && recon' == Filed(recon, SeqNames(names[..n]), rErrors[..n])
    ensures Valid(mpjpe') && Valid(recon') && Paired(mpjpe', recon')
  {
    var n := Min(|names|, |rErrors|);
    var keys := SeqNames(names[..n]);
    mpjpe', recon' := FileKeys(mpjpe, recon, keys, errors[..n], rErrors[..n]);
    FiledValid(mpjpe, keys, errors[..n]);
    FiledValid(recon, keys, rErrors[..n]);
  }

  /** The loop of `FileErrors`, over the sequence names already computed. */
  method FileKeys(mpjpe: Buckets, recon: Buckets, keys: seq<string>, errors: seq<real>, rErrors: seq<real>)
    returns (mpjpe': Buckets, recon': Buckets)
    requires Paired(mpjpe, recon) && |keys| == |errors| == |rErrors|
    ensures mpjpe' == Filed(mpjpe, keys, errors) && recon' == Filed(recon, keys, rErrors)
    ensures Paired(mpjpe', recon')
  {
    mpjpe', recon' := mpjpe, recon;
    var ii := 0;
    while ii < |keys|
      invariant 0 <= ii <= |keys|
      invariant mpjpe' == Filed(mpjpe, keys[..ii], errors[..ii])
      invariant recon' == Filed(recon, keys[..ii], rErrors[..ii])
      invariant Paired(mpjpe', recon')
    {
      var seqName := keys[ii];
      FileStep(mpjpe', recon', seqName, errors[ii], rErrors[ii]);
      if seqName !in mpjpe'.lists {
        mpjpe' := Create(mpjpe', seqName);
        recon' := Create(recon', seqName);
      }
      mpjpe' := Append(mpjpe', seqName, errors[ii]);
      recon' := Append(recon', seqName, rErrors[ii]);
      assert keys[..ii + 1][..ii] == keys[..ii];
      assert errors[..ii + 1][..ii] == errors[..ii];
      assert rErrors[..ii + 1][..ii] == rErrors[..ii];
      ii := ii + 1;
    }
    assert keys[..ii] == keys && errors[..ii] == errors && rErrors[..ii] == rErrors;
  }
}
