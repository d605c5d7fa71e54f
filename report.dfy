/**
 * The final semicolon-delimited report: a line of sequence names in
 * insertion order, then a line of MPJPE values and a line of reconstruction
 * errors, each starting with the overall average and then one value per
 * sequence in the same order. Number formatting (`{:.02f}`) is a parameter.
 */
module Report {
  import opened Results
  import opened Aggregation
  import opened Delimited

  /** The report's cells, already formatted. */
  datatype Table = Table(
    keys: seq<string>,
    mpjpeAvg: string, mpjpeCells: seq<string>,
    reconAvg: string, reconCells: seq<string>)

  const KeysHead := "SeqNames; "
  const MpjpeHead := " MPJPE; "
  const ReconHead := " Recon Error; "

  function KeysLine(t: Table): string {
    KeysHead + Terminated(t.keys, ";")
  }

  function MpjpeLine(t: Table): string {
    MpjpeHead + Terminated([t.mpjpeAvg] + t.mpjpeCells, "; ")
  }

  function ReconLine(t: Table): string {
    ReconHead + Terminated([t.reconAvg] + t.reconCells, "; ")
  }

  /** The three lines, separated by newlines. */
  function Render(t: Table): string {
    KeysLine(t) + "\n" + MpjpeLine(t) + "\n" + ReconLine(t)
  }

  /** `np.hstack(l).mean() * 1000`, on a non-empty list. */
  function MeanMm(s: seq<real>): real
    requires s != []
  {
    Sum(s) / (|s| as real) * 1000.0
  }

  lemma MeanMmIsMean(s: seq<real>)
    requires s != []
    ensures Mean(s) == Some(MeanMm(s) / 1000.0)
  {
  }

  /** One formatted cell per key of `b`, in key order: the mean of its bucket in millimetres. */
  function Cells(b: Buckets, fmt: real -> string): (cells: seq<string>)
    requires Valid(b)
  {
    seq(|b.keys|, i requires 0 <= i < |b.keys| => fmt(MeanMm(b.lists[b.keys[i]])))
  }

  /** The cells of the report on the two dicts; keys are those of the MPJPE dict. */
  function TableOf(m: Buckets, r: Buckets, fmt: real -> string): Table
    requires Valid(m) && Valid(r) && All(m) != [] && All(r) != []
  {
    Table(m.keys,
      "Avg " + fmt(MeanMm(All(m))) + " mm", Cells(m, fmt),
      "Avg " + fmt(MeanMm(All(r))) + "mm", Cells(r, fmt))
  }

  /** No cell can be confused with a delimiter. */
  predicate Clean(x: string) {
    ';' !in x && '\n' !in x
  }

  predicate AllClean(xs: seq<string>) {
    forall i :: 0 <= i < |xs| ==> Clean(xs[i])
  }

  predicate CleanTable(t: Table) {
    AllClean(t.keys) && Clean(t.mpjpeAvg) && AllClean(t.mpjpeCells)
      && Clean(t.reconAvg) && AllClean(t.reconCells)
  }

  /** Strips a fixed prefix. */
  function After(s: string, head: string): Option<string> {
    if head <= s then Some(s[|head|..]) else None
  }

  /** Reads a report line of terminated cells whose first cell is an average. */
  function ReadValues(line: string): Option<(string, seq<string>)> {
    match SplitTerminated(line, "; ")
    case Some(xs) => if xs == [] then None else Some((xs[0], xs[1..]))
    case None => None
  }

  /** Reads a report back into its cells; None if the text is not a report. */
  function Read(s: string): Option<Table> {
    match Cut(s, '\n')
    case None => None
    case Some((l1, rest)) =>
      match Cut(rest, '\n')
      case None => None
      case Some((l2, l3)) =>
        match (After(l1, KeysHead), After(l2, MpjpeHead), After(l3, ReconHead))
        case (Some(k), Some(mv), Some(rv)) =>
          (match (SplitTerminated(k, ";"), ReadValues(mv), ReadValues(rv))
           case (Some(keys), Some((ma, mc)), Some((ra, rc))) => Some(Table(keys, ma, mc, ra, rc))
           case _ => None)
        case _ => None
  }

  lemma AfterPrefix(head: string, rest: string)
    ensures After(head + rest, head) == Some(rest)
  {
    assert head <= head + rest;
    assert (head + rest)[|head|..] == rest;
  }

  lemma ReadValuesRoundTrip(avg: string, cells: seq<string>)
    requires Clean(avg) && AllClean(cells)
    ensures ReadValues(Terminated([avg] + cells, "; ")) == Some((avg, cells))
  {
    var xs := [avg] + cells;
    assert forall i :: 0 <= i < |xs| ==> Clean(xs[i]);
    SplitTerminatedRoundTrip(xs, "; ");
    assert xs[1..] == cells;
  }

  lemma CleanLine(items: seq<string>, t: string)
    requires AllClean(items) && '\n' !in t
    ensures '\n' !in Terminated(items, t)
  {
    TerminatedAvoids(items, t, '\n');
  }

  /** Neither of the first two lines of a clean table holds a newline. */
  lemma LinesClean(t: Table)
    requires CleanTable(t)
    ensures '\n' !in KeysLine(t) && '\n' !in MpjpeLine(t)
  {
    CleanLine(t.keys, ";");
    var mx := [t.mpjpeAvg] + t.mpjpeCells;
    assert AllClean(mx) by { assert forall i :: 0 <= i < |mx| ==> mx[i] == t.mpjpeAvg || mx[i] in t.mpjpeCells; }
    CleanLine(mx, "; ");
  }

  /** Cutting three newline-separated lines at their first two newlines. */
  lemma CutLines(l1: string, l2: string, l3: string)
    requires '\n' !in l1 && '\n' !in l2
    ensures Cut(l1 + "\n" + l2 + "\n" + l3, '\n') == Some((l1, l2 + "\n" + l3))
    ensures Cut(l2 + "\n" + l3, '\n') == Some((l2, l3))
  {
    assert l1 + "\n" + l2 + "\n" + l3 == l1 + ['\n'] + (l2 + "\n" + l3);
    CutFirst(l1, l2 + "\n" + l3, '\n');
    CutFirst(l2, l3, '\n');
  }

  /** Reading a rendered report gives back its cells, when no cell contains ';' or a newline. */
  lemma ReadRender(t: Table)
    requires CleanTable(t)
    ensures Read(Render(t)) == Some(t)
  {
    LinesClean(t);
    CutLines(KeysLine(t), MpjpeLine(t), ReconLine(t));
    AfterPrefix(KeysHead, Terminated(t.keys, ";"));
    AfterPrefix(MpjpeHead, Terminated([t.mpjpeAvg] + t.mpjpeCells, "; "));
    AfterPrefix(ReconHead, Terminated([t.reconAvg] + t.reconCells, "; "));
    SplitTerminatedRoundTrip(t.keys, ";");
    ReadValuesRoundTrip(t.mpjpeAvg, t.mpjpeCells);
    ReadValuesRoundTrip(t.reconAvg, t.reconCells);
  }

  /**
   * The report of the two paired dicts, read back: the sequence names in
   * insertion order, and for each name, at the same position on both value
   * lines, the formatted mean of its bucket in millimetres, after the overall
   * count-weighted averages.
   */
  lemma ReportLayout(m: Buckets, r: Buckets, fmt: real -> string)
    requires Valid(m) && Valid(r) && Paired(m, r) && All(m) != [] && All(r) != []
    requires AllClean(m.keys) && forall x :: Clean(fmt(x))
    ensures var t := Read(Render(TableOf(m, r, fmt)));
      && t.Some?
      && t.value.keys == m.keys
      && t.value.mpjpeAvg == "Avg " + fmt(MeanMm(All(m))) + " mm"
      && t.value.reconAvg == "Avg " + fmt(MeanMm(All(r))) + "mm"
      && |t.value.mpjpeCells| == |t.value.reconCells| == |m.keys|
      && forall i :: 0 <= i < |m.keys| ==>
           && t.value.mpjpeCells[i] == fmt(MeanMm(m.lists[m.keys[i]]))
           && t.value.reconCells[i] == fmt(MeanMm(r.lists[m.keys[i]]))
  {
    var t := TableOf(m, r, fmt);
    assert Clean("Avg " + fmt(MeanMm(All(m))) + " mm") by {
      assert Clean(fmt(MeanMm(All(m))));
    }
    assert Clean("Avg " + fmt(MeanMm(All(r))) + "mm") by {
      assert Clean(fmt(MeanMm(All(r))));
    }
    ReadRender(t);
  }

  /** `for x in items: s += x + t`. */
  method AppendTerminated(s0: string, items: seq<string>, t: string) returns (s: string)
    ensures s == s0 + Terminated(items, t)
  {
    s := s0;
    for i := 0 to |items|
      invariant s == s0 + Terminated(items[..i], t)
    {
      TerminatedSnoc(items[..i], items[i], t);
      assert items[..i + 1] == items[..i] + [items[i]];
      s := s + items[i] + t;
    }
    assert items[..|items|] == items;
  }

  /**
   * Builds the report text with `+=`, as in the script: the names of the MPJPE
   * dict, the MPJPE averages, then the averages of the reconstruction-error
   * dict in its own key order.
   */
  method BuildReport(m: Buckets, r: Buckets, fmt: real -> string) returns (s: string)
    requires Valid(m) && Valid(r) && All(m) != [] && All(r) != []
    ensures s == Render(TableOf(m, r, fmt))
  {
    var t := TableOf(m, r, fmt);
    s := AppendTerminated(KeysHead, m.keys, ";");
    s := s + "\n" + MpjpeHead;
    s := AppendTerminated(s, [t.mpjpeAvg] + Cells(m, fmt), "; ");
    s := s + "\n" + ReconHead;
    s := AppendTerminated(s, [t.reconAvg] + Cells(r, fmt), "; ");
  }
}
