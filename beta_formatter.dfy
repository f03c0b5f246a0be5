/** BETA input: per chromosome, a genotype file holding one line per ploidy
    copy of every individual, a status file holding one flag line per copy,
    so that line `k` of both files describes the same copy, and a positions
    file. */
module BetaFormatter {
  import opened Wrappers
  import opened Text
  import opened Populations
  import opened Files
  import opened Encoding
  import opened Haplotypes

  /** `"Beta_haplotypes_%s_%s.txt"`. */
  function GenoFileName(d: PopData, c: nat, rep: string): string
    requires c < |d.chromNames|
  {
    "Beta_haplotypes_" + d.chromNames[c] + "_" + rep + ".txt"
  }

  /** `"Beta_status_%s_%s.txt"`. */
  function StatusFileName(d: PopData, c: nat, rep: string): string
    requires c < |d.chromNames|
  {
    "Beta_status_" + d.chromNames[c] + "_" + rep + ".txt"
  }

  /** `"Beta_positions_%s_%s.txt"`. */
  function PosFileName(d: PopData, c: nat, rep: string): string
    requires c < |d.chromNames|
  {
    "Beta_positions_" + d.chromNames[c] + "_" + rep + ".txt"
  }

  /** `"\n".join` of `repr(int(x))` of each position, with no newline after
      the last. */
  function PosText(d: PopData, c: nat): string {
    Join(Ints(ChromLociPos(d, c)), "\n")
  }

  /** Individual `i` exists, `y` is one of its ploidy copies and its genotype
      holds every locus in every copy. */
  predicate HasCopy(d: PopData, i: nat, y: nat) {
    i < |d.inds| && y < d.ploidy && d.WellShaped(d.inds[i])
  }

  /** `"1\n"` for an affected individual, `"0\n"` otherwise. */
  function StatusLine(d: PopData, i: nat): string
    requires i < |d.inds|
  {
    if d.inds[i].affected then "1\n" else "0\n"
  }

  /** `" ".join` of the alleles of copy `y` of individual `i` on the
      chromosome, then a newline. */
  function GenoLine(d: PopData, c: nat, i: nat, y: nat): string
    requires HasCopy(d, i, y)
  {
    Join(Strs(d.ChromGenotype(d.inds[i], c, y)), " ") + "\n"
  }

  /** The status line of any copy of the population, `""` outside it. */
  function StatusLines(d: PopData): (nat, nat) -> string {
    (i: nat, y: nat) => if i < |d.inds| then StatusLine(d, i) else ""
  }

  /** The genotype line of any copy of the population, `""` outside it. */
  function GenoLines(d: PopData, c: nat): (nat, nat) -> string {
    (i: nat, y: nat) => if HasCopy(d, i, y) then GenoLine(d, c, i, y) else ""
  }

  /** The status lines of the first `n` individuals: `ploidy` each. */
  function Status(d: PopData, n: nat): seq<string> {
    Layout(Range(n), d.ploidy, StatusLines(d))
  }

  /** The genotype lines of the first `n` individuals: `ploidy` each. */
  function Geno(d: PopData, c: nat, n: nat): seq<string> {
    Layout(Range(n), d.ploidy, GenoLines(d, c))
  }

  /** The line of copy `y` of individual `i` in either file. */
  function CopyIndex(d: PopData, i: nat, y: nat): nat {
    d.ploidy * i + y
  }

  /** `createFiles(pop, reptext)`: the return sits inside the chromosome
      loop, so only the first chromosome is written; the genotype, status
      and positions files are opened in that order and their names come back
      in that order; a population without chromosomes writes nothing and
      gives None. */
  method CreateFiles(d: PopData, rep: string) returns (r: Option<seq<string>>, files: seq<TextFile>)
    requires d.Shaped()
    ensures |d.chromNames| == 0 ==> r.None? && files == []
    ensures |d.chromNames| > 0 ==>
      && r == Some([GenoFileName(d, 0, rep), StatusFileName(d, 0, rep), PosFileName(d, 0, rep)])
      && files == [TextFile(GenoFileName(d, 0, rep), Geno(d, 0, |d.inds|)),
                   TextFile(StatusFileName(d, 0, rep), Status(d, |d.inds|)),
                   TextFile(PosFileName(d, 0, rep), [PosText(d, 0)])]
  {
    for chrom := 0 to |d.chromNames|
      invariant chrom == 0
    {
      var genotypefilename := GenoFileName(d, chrom, rep);
      var phenotypefilename := StatusFileName(d, chrom, rep);
      var positionfilename := PosFileName(d, chrom, rep);
      var positionOut := [PosText(d, chrom)];
      var genoOut, phenoOut := WriteChrom(d, chrom);
      return Some([genotypefilename, phenotypefilename, positionfilename]),
        [TextFile(genotypefilename, genoOut), TextFile(phenotypefilename, phenoOut),
         TextFile(positionfilename, positionOut)];
    }
    return None, [];
  }

  /** The individual loop: the status lines of every copy, then the genotype
      lines of every copy. */
  method WriteChrom(d: PopData, c: nat) returns (genoOut: seq<string>, phenoOut: seq<string>)
    requires d.Shaped()
    ensures genoOut == Geno(d, c, |d.inds|) && phenoOut == Status(d, |d.inds|)
  {
    genoOut, phenoOut := [], [];
    for ind := 0 to |d.inds|
      invariant genoOut == Geno(d, c, ind) && phenoOut == Status(d, ind)
    {
      var flags := WriteStatus(d, ind);
      phenoOut := phenoOut + flags;
      var rows := WriteGeno(d, c, ind);
      genoOut := genoOut + rows;
      assert Range(ind + 1) == Range(ind) + [ind];
      LayoutSnoc(Range(ind), ind, d.ploidy, StatusLines(d));
      LayoutSnoc(Range(ind), ind, d.ploidy, GenoLines(d, c));
    }
  }

  /** The first inner loop: one flag line per copy of individual `ind`. */
  method WriteStatus(d: PopData, ind: nat) returns (flags: seq<string>)
    requires ind < |d.inds|
    ensures flags == Block(ind, d.ploidy, StatusLines(d))
  {
    flags := [];
    for x := 0 to d.ploidy
      invariant flags == Block(ind, x, StatusLines(d))
    {
      if d.inds[ind].affected {
        flags := flags + ["1\n"];
      } else {
        flags := flags + ["0\n"];
      }
    }
  }

  /** The second inner loop: one genotype line per copy of individual `ind`. */
  method WriteGeno(d: PopData, c: nat, ind: nat) returns (rows: seq<string>)
    requires d.Shaped() && ind < |d.inds|
    ensures rows == Block(ind, d.ploidy, GenoLines(d, c))
  {
    rows := [];
    for y := 0 to d.ploidy
      invariant rows == Block(ind, y, GenoLines(d, c))
    {
      rows := rows + [GenoLine(d, c, ind, y)];
    }
  }

  /** Both files hold `ploidy` lines per individual, so they have the same
      length. */
  lemma LinesMatch(d: PopData, c: nat)
    ensures |Geno(d, c, |d.inds|)| == |Status(d, |d.inds|)| == d.ploidy * |d.inds|
  {
    LayoutLength(Range(|d.inds|), d.ploidy, GenoLines(d, c));
    LayoutLength(Range(|d.inds|), d.ploidy, StatusLines(d));
  }

  /** Status line `CopyIndex(i, y)` is the flag of individual `i`. */
  lemma StatusAt(d: PopData, i: nat, y: nat)
    requires i < |d.inds| && y < d.ploidy
    ensures CopyIndex(d, i, y) < |Status(d, |d.inds|)|
    ensures Status(d, |d.inds|)[CopyIndex(d, i, y)] == (if d.inds[i].affected then "1\n" else "0\n")
  {
    assert Status(d, |d.inds|)[CopyIndex(d, i, y)] == StatusLines(d)(i, y) by {
      LayoutIndex(Range(|d.inds|), d.ploidy, StatusLines(d), i, y);
    }
  }

  /** Genotype line `CopyIndex(i, y)` is copy `y` of individual `i`, so it
      sits beside that individual's flag in the status file. */
  lemma GenoAt(d: PopData, c: nat, i: nat, y: nat)
    requires d.Shaped() && i < |d.inds| && y < d.ploidy
    ensures CopyIndex(d, i, y) < |Geno(d, c, |d.inds|)|
    ensures Geno(d, c, |d.inds|)[CopyIndex(d, i, y)] == GenoLine(d, c, i, y)
  {
    assert HasCopy(d, i, y);
    assert Geno(d, c, |d.inds|)[CopyIndex(d, i, y)] == GenoLines(d, c)(i, y) by {
      LayoutIndex(Range(|d.inds|), d.ploidy, GenoLines(d, c), i, y);
    }
  }

  /** A genotype line splits on spaces into one 0/1 field per locus of the
      chromosome, which read back as the copy. */
  lemma GenoLineFields(d: PopData, c: nat, i: nat, y: nat)
    requires HasCopy(d, i, y) && d.ChromBegin(c) < d.ChromEnd(c)
    ensures var line := GenoLine(d, c, i, y);
      var f := Split(line[..|line| - 1], ' ');
      && line[|line| - 1] == '\n'
      && |f| == d.ChromEnd(c) - d.ChromBegin(c)
      && Unstrs(f) == d.ChromGenotype(d.inds[i], c, y)
  {
    var h := d.ChromGenotype(d.inds[i], c, y);
    var line := GenoLine(d, c, i, y);
    assert line[..|line| - 1] == Join(Strs(h), " ");
    StrsRoundTrip(h, ' ');
  }

  /** The positions text splits on newlines into one field per locus of the
      chromosome, each reading back as that locus's position. */
  lemma PosTextFields(d: PopData, c: nat)
    requires |ChromLociPos(d, c)| >= 1
    ensures var f := Split(PosText(d, c), '\n');
      && f == Ints(ChromLociPos(d, c))
      && forall k :: 0 <= k < |f| ==> IntShaped(f[k]) && ParseInt(f[k]) == ChromLociPos(d, c)[k]
  {
    IntsRoundTrip(ChromLociPos(d, c), '\n');
  }
}
