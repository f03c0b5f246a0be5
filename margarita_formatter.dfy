/** Margarita input: per chromosome, one file holding a line of counts, the
    positions one per line, then the rows of every case and after them the
    rows of every control, each row its allele digits run together. */
module MargaritaFormatter {
  import opened Wrappers
  import opened Text
  import opened Populations
  import opened Files
  import opened Encoding
  import opened Haplotypes

  /** The individuals among the first `n` whose affection status is
      `affected`, in population order. */
  function Select(d: PopData, n: nat, affected: bool): (r: seq<nat>)
    requires n <= |d.inds|
    ensures forall j :: 0 <= j < |r| ==> r[j] < n && d.inds[r[j]].affected == affected
  {
    if n == 0 then []
    else Select(d, n - 1, affected) + (if d.inds[n - 1].affected == affected then [n - 1] else [])
  }

  /** `"%d %d %d\n"` of the case rows, the control rows and the loci of the
      chromosome; a diploid population counts two rows per individual. */
  function StatsLine(d: PopData, c: nat): string {
    var numcases := CountAffected(d.inds, |d.inds|);
    var numcontrols := |d.inds| - numcases;
    Join([NatToString(HapCount(d) * numcases), NatToString(HapCount(d) * numcontrols),
          NatToString(|ChromLociPos(d, c)|)], " ") + "\n"
  }

  /** `"\n".join` of `str` of each position, then a newline. */
  function PosText(d: PopData, c: nat): string {
    Join(Floats(ChromLociPos(d, c)), "\n") + "\n"
  }

  /** `'%s\n'` of the allele digits of row `p` of individual `i`, run together. */
  function HapLine(d: PopData, c: nat, i: nat, p: nat): string
    requires HasRow(d, i, p)
  {
    Join(Strs(Haplotype(d, c, i, p)), "") + "\n"
  }

  /** The line of any row of the population, `""` outside it. */
  function Lines(d: PopData, c: nat): (nat, nat) -> string {
    (i: nat, p: nat) => if HasRow(d, i, p) then HapLine(d, c, i, p) else ""
  }

  /** The rows of the first `n` individuals with the given status. */
  function Pass(d: PopData, c: nat, n: nat, affected: bool): seq<string>
    requires n <= |d.inds|
  {
    Layout(Select(d, n, affected), HapCount(d), Lines(d, c))
  }

  /** `"Margarita_%s_%s.txt"`. */
  function FileName(d: PopData, c: nat, root: string): string
    requires c < |d.chromNames|
  {
    "Margarita_" + d.chromNames[c] + "_" + root + ".txt"
  }

  /** The strings written for chromosome `c`: counts, positions, case rows,
      control rows. */
  function ChromLines(d: PopData, c: nat): seq<string> {
    [StatsLine(d, c), PosText(d, c)] + Pass(d, c, |d.inds|, true) + Pass(d, c, |d.inds|, false)
  }

  /** `createFiles(pop, inputfileroot)`: the return sits inside the chromosome
      loop, so only the first chromosome is written and its name comes back;
      a population without chromosomes writes nothing and gives None. */
  method CreateFiles(d: PopData, root: string) returns (r: Option<string>, files: seq<TextFile>)
    requires d.Shaped()
    ensures |d.chromNames| == 0 ==> r.None? && files == []
    ensures |d.chromNames| > 0 ==>
      r == Some(FileName(d, 0, root)) && files == [TextFile(FileName(d, 0, root), ChromLines(d, 0))]
  {
    for chrom := 0 to |d.chromNames|
      invariant chrom == 0
    {
      var outputfilename := FileName(d, chrom, root);
      var out := [StatsLine(d, chrom), PosText(d, chrom)];
      var cases := WritePass(d, chrom, true);
      var controls := WritePass(d, chrom, false);
      out := out + cases + controls;
      return Some(outputfilename), [TextFile(outputfilename, out)];
    }
    return None, [];
  }

  /** One pass over the population writing the rows of every individual
      whose status is `affected`. */
  method WritePass(d: PopData, c: nat, affected: bool) returns (lines: seq<string>)
    requires d.Shaped()
    ensures lines == Pass(d, c, |d.inds|, affected)
  {
    lines := [];
    for ind := 0 to |d.inds|
      invariant lines == Pass(d, c, ind, affected)
    {
      PassStep(d, c, ind, affected);
      if d.inds[ind].affected == affected {
        var rows := WriteRows(d, c, ind);
        lines := lines + rows;
      }
    }
  }

  /** One more individual adds its rows when it has the status, nothing
      otherwise. */
  lemma PassStep(d: PopData, c: nat, ind: nat, affected: bool)
    requires ind < |d.inds|
    ensures Pass(d, c, ind + 1, affected) ==
      Pass(d, c, ind, affected) + (if d.inds[ind].affected == affected then Block(ind, HapCount(d), Lines(d, c)) else [])
  {
    if d.inds[ind].affected == affected {
      assert Select(d, ind + 1, affected) == Select(d, ind, affected) + [ind];
      LayoutSnoc(Select(d, ind, affected), ind, HapCount(d), Lines(d, c));
    } else {
      assert Select(d, ind + 1, affected) == Select(d, ind, affected);
    }
  }

  /** The rows of one individual: both copies of a diploid individual, the
      whole genotype otherwise. */
  method WriteRows(d: PopData, c: nat, ind: nat) returns (rows: seq<string>)
    requires d.Shaped() && ind < |d.inds|
    ensures rows == Block(ind, HapCount(d), Lines(d, c))
  {
    if d.ploidy == 2 {
      rows := [];
      for ploidy := 0 to 2
        invariant rows == Block(ind, ploidy, Lines(d, c))
      {
        rows := rows + [HapLine(d, c, ind, ploidy)];
      }
    } else {
      rows := [HapLine(d, c, ind, 0)];
    }
  }

  /** Strictly ascending, so each individual appears once. */
  predicate Increasing(r: seq<nat>) {
    forall j, k :: 0 <= j < k < |r| ==> r[j] < r[k]
  }

  /** Every individual of the given status among the first `n` is selected. */
  lemma {:induction false} SelectComplete(d: PopData, n: nat, affected: bool, i: nat)
    requires n <= |d.inds| && i < n && d.inds[i].affected == affected
    ensures i in Select(d, n, affected)
  {
    if i < n - 1 {
      SelectComplete(d, n - 1, affected, i);
    }
  }

  /** The selected individuals come in population order, each once. */
  lemma {:induction false} SelectIncreasing(d: PopData, n: nat, affected: bool)
    requires n <= |d.inds|
    ensures Increasing(Select(d, n, affected))
  {
    if n > 0 {
      SelectIncreasing(d, n - 1, affected);
      var prev := Select(d, n - 1, affected);
      if d.inds[n - 1].affected == affected {
        var r := prev + [n - 1];
        assert Select(d, n, affected) == r;
        forall j, k | 0 <= j < k < |r|
          ensures r[j] < r[k]
        {
          assert r[j] == prev[j];
          if k < |prev| {
            assert r[k] == prev[k];
          }
        }
      }
    }
  }

  /** The cases number `CountAffected`, the controls the rest. */
  lemma {:induction false} SelectCount(d: PopData, n: nat)
    requires n <= |d.inds|
    ensures |Select(d, n, true)| == CountAffected(d.inds, n)
    ensures |Select(d, n, false)| == n - CountAffected(d.inds, n)
  {
    if n > 0 {
      SelectCount(d, n - 1);
    }
  }

  /** The counts line agrees with the file: its first two numbers are the
      numbers of case and control rows written after the positions. */
  lemma RowCounts(d: PopData, c: nat)
    ensures var numcases := CountAffected(d.inds, |d.inds|);
      && |Pass(d, c, |d.inds|, true)| == HapCount(d) * numcases
      && |Pass(d, c, |d.inds|, false)| == HapCount(d) * (|d.inds| - numcases)
  {
    SelectCount(d, |d.inds|);
    LayoutLength(Select(d, |d.inds|, true), HapCount(d), Lines(d, c));
    LayoutLength(Select(d, |d.inds|, false), HapCount(d), Lines(d, c));
  }

  /** Three numbers joined by spaces split back into themselves. */
  lemma CountsFields(a: nat, b: nat, n: nat)
    ensures var f := Split(Join([NatToString(a), NatToString(b), NatToString(n)], " "), ' ');
      f == [NatToString(a), NatToString(b), NatToString(n)]
      && ParseNat(f[0]) == a && ParseNat(f[1]) == b && ParseNat(f[2]) == n
  {
    var parts := [NatToString(a), NatToString(b), NatToString(n)];
    forall i | 0 <= i < 3
      ensures ' ' !in parts[i]
    {
      NatFree([a, b, n][i], ' ');
    }
    SplitJoin(parts, ' ');
    ParseNatToString(a);
    ParseNatToString(b);
    ParseNatToString(n);
  }

  /** The counts line splits on spaces into three numbers that read back as
      the case rows, the control rows and the loci of the chromosome. */
  lemma StatsFields(d: PopData, c: nat)
    ensures var line := StatsLine(d, c);
      var f := Split(line[..|line| - 1], ' ');
      var numcases := CountAffected(d.inds, |d.inds|);
      && line[|line| - 1] == '\n'
      && f == [NatToString(HapCount(d) * numcases), NatToString(HapCount(d) * (|d.inds| - numcases)),
               NatToString(|ChromLociPos(d, c)|)]
      && ParseNat(f[0]) == HapCount(d) * numcases
      && ParseNat(f[1]) == HapCount(d) * (|d.inds| - numcases)
      && ParseNat(f[2]) == |ChromLociPos(d, c)|
  {
    var numcases := CountAffected(d.inds, |d.inds|);
    var a, b, n := HapCount(d) * numcases, HapCount(d) * (|d.inds| - numcases), |ChromLociPos(d, c)|;
    var line := StatsLine(d, c);
    assert line[..|line| - 1] == Join([NatToString(a), NatToString(b), NatToString(n)], " ");
    CountsFields(a, b, n);
  }

  /** The positions text splits on newlines into one field per locus of the
      chromosome, each reading back as that locus's position. */
  lemma PosTextFields(d: PopData, c: nat)
    requires |ChromLociPos(d, c)| >= 1
    ensures var t := PosText(d, c);
      && t[|t| - 1] == '\n'
      && Split(t[..|t| - 1], '\n') == Floats(ChromLociPos(d, c))
    ensures var ps := ChromLociPos(d, c);
      forall k :: 0 <= k < |ps| ==> ParseWholeFloat(Floats(ps)[k]) == ps[k]
  {
    var t := PosText(d, c);
    assert t[..|t| - 1] == Join(Floats(ChromLociPos(d, c)), "\n");
    FloatsRoundTrip(ChromLociPos(d, c), '\n');
  }

  /** A row reads back, digit by digit, as the haplotype. */
  lemma HapLineDigits(d: PopData, c: nat, i: nat, p: nat)
    requires d.Shaped() && i < |d.inds| && p < HapCount(d)
    ensures var line := HapLine(d, c, i, p);
      line[|line| - 1] == '\n' && Undigits(line[..|line| - 1]) == Haplotype(d, c, i, p)
  {
    var h := Haplotype(d, c, i, p);
    var line := HapLine(d, c, i, p);
    assert line[..|line| - 1] == Join(Strs(h), "");
    DigitsRoundTrip(h);
  }

  /** Row `p` of the `j`-th case comes at `HapCount * j + p` among the case
      rows, and likewise for the controls; `Select` says who that is. */
  lemma PassAt(d: PopData, c: nat, affected: bool, j: nat, p: nat)
    requires d.Shaped() && p < HapCount(d)
    requires j < |Select(d, |d.inds|, affected)|
    ensures RowIndex(d, j, p) < |Pass(d, c, |d.inds|, affected)|
    ensures Pass(d, c, |d.inds|, affected)[RowIndex(d, j, p)] == HapLine(d, c, Select(d, |d.inds|, affected)[j], p)
  {
    var ids := Select(d, |d.inds|, affected);
    assert HasRow(d, ids[j], p);
    assert RowIndex(d, j, p) < |Pass(d, c, |d.inds|, affected)|
      && Pass(d, c, |d.inds|, affected)[RowIndex(d, j, p)] == Lines(d, c)(ids[j], p) by {
      LayoutIndex(ids, HapCount(d), Lines(d, c), j, p);
    }
  }
}
