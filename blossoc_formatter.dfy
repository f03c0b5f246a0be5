/** Blossoc input: per chromosome, a positions file holding one line of
    positions and a genotype file holding one line per haplotype (diploid) or
    per individual (any other ploidy), led by a 1/0 affection flag. */
module BlossocFormatter {
  import opened Wrappers
  import opened Text
  import opened Populations
  import opened Files
  import opened Encoding
  import opened Haplotypes

  /** The positions line: `str` of each position, space-joined, then a newline. */
  function PosLine(d: PopData, c: nat): string {
    Join(Floats(ChromLociPos(d, c)), " ") + "\n"
  }

  /** `'1'` for an affected individual, `'0'` otherwise. */
  function Flag(d: PopData, i: nat): string
    requires i < |d.inds|
  {
    if d.inds[i].affected then "1" else "0"
  }

  /** `'%s %s\n'` of a flag and a haplotype text. */
  function Row(flag: string, hap: string): string {
    flag + " " + hap + "\n"
  }

  /** `'1 %s\n'` or `'0 %s\n'` of the space-joined 0/1 alleles of row `p` of
      individual `i`. */
  function HapLine(d: PopData, c: nat, i: nat, p: nat): string
    requires HasRow(d, i, p)
  {
    Row(Flag(d, i), Join(Strs(Haplotype(d, c, i, p)), " "))
  }

  /** The line of any row of the population, `""` outside it. */
  function Lines(d: PopData, c: nat): (nat, nat) -> string {
    (i: nat, p: nat) => if HasRow(d, i, p) then HapLine(d, c, i, p) else ""
  }

  /** The genotype lines of the first `n` individuals, in population order. */
  function Body(d: PopData, c: nat, n: nat): seq<string> {
    Layout(Range(n), HapCount(d), Lines(d, c))
  }

  /** `"Blossoc_positions_%s_%s.txt"`. */
  function PosFileName(d: PopData, c: nat, root: string): string
    requires c < |d.chromNames|
  {
    "Blossoc_positions_" + d.chromNames[c] + "_" + root + ".txt"
  }

  /** `"Blossoc_genotypes_%s_%s.txt"`. */
  function GenoFileName(d: PopData, c: nat, root: string): string
    requires c < |d.chromNames|
  {
    "Blossoc_genotypes_" + d.chromNames[c] + "_" + root + ".txt"
  }

  /** `createFiles(pop, inputfileroot)`: the return sits inside the chromosome
      loop, so only the first chromosome is written, positions file first, and
      the names come back genotypes first; no chromosomes gives None. */
  method CreateFiles(d: PopData, root: string) returns (r: Option<seq<string>>, files: seq<TextFile>)
    requires d.Shaped()
    ensures |d.chromNames| == 0 ==> r.None? && files == []
    ensures |d.chromNames| > 0 ==>
      && r == Some([GenoFileName(d, 0, root), PosFileName(d, 0, root)])
      && files == [TextFile(PosFileName(d, 0, root), [PosLine(d, 0)]),
                   TextFile(GenoFileName(d, 0, root), Body(d, 0, |d.inds|))]
  {
    for chrom := 0 to |d.chromNames|
      invariant chrom == 0
    {
      var positionfilename := PosFileName(d, chrom, root);
      var posOut := TextFile(positionfilename, [PosLine(d, chrom)]);
      var genofilename := GenoFileName(d, chrom, root);
      var lines;
      if d.ploidy == 2 {
        lines := WriteDiploid(d, chrom);
      } else {
        lines := WriteHaploid(d, chrom);
      }
      return Some([genofilename, positionfilename]), [posOut, TextFile(genofilename, lines)];
    }
    return None, [];
  }

  /** The diploid loops: every individual, then both of its copies. */
  method WriteDiploid(d: PopData, c: nat) returns (lines: seq<string>)
    requires d.Shaped() && d.ploidy == 2
    ensures lines == Body(d, c, |d.inds|)
  {
    lines := [];
    for ind := 0 to |d.inds|
      invariant lines == Body(d, c, ind)
    {
      var rows := WriteCopies(d, c, ind);
      lines := lines + rows;
      assert Range(ind + 1) == Range(ind) + [ind];
      LayoutSnoc(Range(ind), ind, 2, Lines(d, c));
    }
  }

  /** The inner diploid loop: copy 0, then copy 1, of individual `ind`. */
  method WriteCopies(d: PopData, c: nat, ind: nat) returns (rows: seq<string>)
    requires d.Shaped() && d.ploidy == 2 && ind < |d.inds|
    ensures rows == Block(ind, 2, Lines(d, c))
  {
    rows := [];
    for ploidy := 0 to 2
      invariant rows == Block(ind, ploidy, Lines(d, c))
    {
      rows := rows + [HapLine(d, c, ind, ploidy)];
    }
  }

  /** The loop for any other ploidy: one line per individual. */
  method WriteHaploid(d: PopData, c: nat) returns (lines: seq<string>)
    requires d.Shaped() && d.ploidy != 2
    ensures lines == Body(d, c, |d.inds|)
  {
    lines := [];
    for ind := 0 to |d.inds|
      invariant lines == Body(d, c, ind)
    {
      lines := lines + [HapLine(d, c, ind, 0)];
      LayoutSnoc(Range(ind), ind, 1, Lines(d, c));
    }
  }

  /** Line `RowIndex(i, p)` of the genotype file is row
      `p` of individual `i`: individuals in population order, copy 0 before
      copy 1. */
  lemma BodyAt(d: PopData, c: nat, i: nat, p: nat)
    requires d.Shaped() && i < |d.inds| && p < HapCount(d)
    ensures RowIndex(d, i, p) < |Body(d, c, |d.inds|)|
    ensures Body(d, c, |d.inds|)[RowIndex(d, i, p)] == HapLine(d, c, i, p)
  {
    var ids := Range(|d.inds|);
    LayoutIndex(ids, HapCount(d), Lines(d, c), i, p);
    assert ids[i] == i;
    assert HasRow(d, i, p);
  }

  /** A row splits on spaces into its flag and one field per allele, which
      read back as the haplotype. */
  lemma RowFields(flag: string, h: seq<Allele>)
    requires ' ' !in flag && |h| >= 1
    ensures var line := Row(flag, Join(Strs(h), " "));
      var f := Split(line[..|line| - 1], ' ');
      line[|line| - 1] == '\n' && f == [flag] + Strs(h) && Unstrs(f[1..]) == h
  {
    var line := Row(flag, Join(Strs(h), " "));
    assert line[..|line| - 1] == Join([flag], " ") + " " + Join(Strs(h), " ");
    CodesFree(h, ' ');
    SplitJoinConcat([flag], Strs(h), ' ');
    StrsRoundTrip(h, ' ');
    assert ([flag] + Strs(h))[1..] == Strs(h);
  }

  /** A genotype line splits on spaces into the affection flag and one 0/1
      field per allele, which read back as the row. */
  lemma HapLineFields(d: PopData, c: nat, i: nat, p: nat)
    requires d.Shaped() && i < |d.inds| && p < HapCount(d)
    requires |Haplotype(d, c, i, p)| >= 1
    ensures var line := HapLine(d, c, i, p);
      var f := Split(line[..|line| - 1], ' ');
      && line[|line| - 1] == '\n'
      && |f| == 1 + |Haplotype(d, c, i, p)|
      && f[0] == (if d.inds[i].affected then "1" else "0")
      && Unstrs(f[1..]) == Haplotype(d, c, i, p)
  {
    RowFields(Flag(d, i), Haplotype(d, c, i, p));
  }

  /** The positions line splits on spaces into one field per locus of the
      chromosome, each reading back as that locus's position. */
  lemma PosLineFields(d: PopData, c: nat)
    requires |ChromLociPos(d, c)| >= 1
    ensures var line := PosLine(d, c);
      && line[|line| - 1] == '\n'
      && Split(line[..|line| - 1], ' ') == Floats(ChromLociPos(d, c))
    ensures var ps := ChromLociPos(d, c);
      forall k :: 0 <= k < |ps| ==> ParseWholeFloat(Floats(ps)[k]) == ps[k]
  {
    var line := PosLine(d, c);
    assert line[..|line| - 1] == Join(Floats(ChromLociPos(d, c)), " ");
    FloatsRoundTrip(ChromLociPos(d, c), ' ');
  }
}
