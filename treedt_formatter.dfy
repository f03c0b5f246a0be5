/** TreeDT input: per chromosome, a header naming the markers and one line
    per haplotype (diploid) or per individual (any other ploidy). */
module TreeDTFormatter {
  import opened Wrappers
  import opened Text
  import opened Populations
  import opened Files
  import opened Encoding
  import opened Haplotypes

  /** `"M" + x` for each locus name. */
  function MarkerNames(names: seq<string>): (r: seq<string>)
    ensures |r| == |names| && forall i :: 0 <= i < |names| ==> r[i] == "M" + names[i]
  {
    if names == [] then [] else ["M" + names[0]] + MarkerNames(names[1..])
  }

  /** `"Id Status %s \n"` of the space-joined marker names. */
  function Header(names: seq<string>): string {
    "Id Status " + Join(MarkerNames(names), " ") + " \n"
  }

  /** `" ".join` of the 1/2 codes of a row. */
  function HaploOut(h: seq<Allele>): string {
    Join(Recoded(h), " ")
  }

  /** A body line: the row id, the status column and the codes, joined by
      single spaces and ended by a newline. */
  function Row(id: string, status: string, codes: string): string {
    Join([id, status, codes], " ") + "\n"
  }

  /** The id of row `p` of individual `i`: `case%s_%s`/`control%s_%s` for a
      diploid population, `case%s`/`control%s` otherwise. */
  function RowId(d: PopData, i: nat, p: nat): string
    requires i < |d.inds|
  {
    (if d.inds[i].affected then "case" else "control") + NatToString(i)
      + (if d.ploidy == 2 then "_" + NatToString(p) else "")
  }

  /** The status column: `a`/`c` for a diploid population, `2`/`1` otherwise. */
  function RowStatus(d: PopData, i: nat): string
    requires i < |d.inds|
  {
    if d.ploidy == 2 then (if d.inds[i].affected then "a" else "c")
    else (if d.inds[i].affected then "2" else "1")
  }

  /** The line of row `p` of individual `i`: `"case%s_%s a %s\n"` or
      `"control%s_%s c %s\n"` for a diploid population, `"case%s 2 %s\n"`
      or `"control%s 1 %s\n"` otherwise; `i` is the population index. */
  function HaploLine(d: PopData, c: nat, i: nat, p: nat): string
    requires HasRow(d, i, p)
  {
    Row(RowId(d, i, p), RowStatus(d, i), HaploOut(Haplotype(d, c, i, p)))
  }

  /** The line of any row of the population, `""` outside it. */
  function Lines(d: PopData, c: nat): (nat, nat) -> string {
    (i: nat, p: nat) => if HasRow(d, i, p) then HaploLine(d, c, i, p) else ""
  }

  /** The body lines of the first `n` individuals, in population order. */
  function Body(d: PopData, c: nat, n: nat): seq<string> {
    Layout(Range(n), HapCount(d), Lines(d, c))
  }

  /** `"TreeDT_" + chromName + "_" + infileroot + ".txt"`. */
  function FileName(d: PopData, c: nat, root: string): string
    requires c < |d.chromNames|
  {
    "TreeDT_" + d.chromNames[c] + "_" + root + ".txt"
  }

  /** The file written for chromosome `c`. */
  function ChromFile(d: PopData, c: nat, root: string): TextFile
    requires d.Shaped() && c < |d.chromNames|
  {
    TextFile(FileName(d, c, root), [Header(ChromLociNames(d, c))] + Body(d, c, |d.inds|))
  }

  /** `createFiles(pop, infileroot)`: the return sits inside the chromosome
      loop, so only the first chromosome is written and a one-name list comes
      back; a population without chromosomes writes nothing and gives None. */
  method CreateFiles(d: PopData, root: string) returns (r: Option<seq<string>>, files: seq<TextFile>)
    requires d.Shaped()
    ensures |d.chromNames| == 0 ==> r.None? && files == []
    ensures |d.chromNames| > 0 ==> r == Some([FileName(d, 0, root)]) && files == [ChromFile(d, 0, root)]
  {
    var outfilenames: seq<string> := [];
    for chrom := 0 to |d.chromNames|
      invariant chrom == 0 && outfilenames == []
    {
      var outputfilename := FileName(d, chrom, root);
      outfilenames := outfilenames + [outputfilename];
      var lines;
      if d.ploidy == 2 {
        lines := WriteDiploid(d, chrom);
      } else {
        lines := WriteHaploid(d, chrom);
      }
      var outFile := [Header(ChromLociNames(d, chrom))] + lines;
      assert outFile == ChromFile(d, 0, root).lines;
      assert outfilenames == [FileName(d, 0, root)];
      return Some(outfilenames), [TextFile(outputfilename, outFile)];
    }
    return None, [];
  }

  /** The diploid loops: every individual, then both of its copies. */
  method WriteDiploid(d: PopData, c: nat) returns (lines: seq<string>)
    requires d.Shaped() && d.ploidy == 2
    ensures lines == Body(d, c, |d.inds|)
  {
    lines := [];
    for ind := 0 to |d.inds|
      invariant lines == Body(d, c, ind)
    {
      var rows := WriteCopies(d, c, ind);
      lines := lines + rows;
      assert Range(ind + 1) == Range(ind) + [ind];
      LayoutSnoc(Range(ind), ind, 2, Lines(d, c));
    }
  }

  /** The inner diploid loop: copy 0, then copy 1, of individual `ind`. */
  method WriteCopies(d: PopData, c: nat, ind: nat) returns (rows: seq<string>)
    requires d.Shaped() && d.ploidy == 2 && ind < |d.inds|
    ensures rows == Block(ind, 2, Lines(d, c))
  {
    rows := [];
    for ploidy := 0 to 2
      invariant rows == Block(ind, ploidy, Lines(d, c))
    {
      rows := rows + [HaploLine(d, c, ind, ploidy)];
    }
  }

  /** The loop for any other ploidy: one line per individual. */
  method WriteHaploid(d: PopData, c: nat) returns (lines: seq<string>)
    requires d.Shaped() && d.ploidy != 2
    ensures lines == Body(d, c, |d.inds|)
  {
    lines := [];
    for ind := 0 to |d.inds|
      invariant lines == Body(d, c, ind)
    {
      lines := lines + [HaploLine(d, c, ind, 0)];
      LayoutSnoc(Range(ind), ind, 1, Lines(d, c));
    }
  }

  /** Line `RowIndex(i, p)` of the body is row
      `p` of individual `i`: individuals in population order, copy 0 before
      copy 1. */
  lemma BodyAt(d: PopData, c: nat, i: nat, p: nat)
    requires d.Shaped() && i < |d.inds| && p < HapCount(d)
    ensures RowIndex(d, i, p) < |Body(d, c, |d.inds|)|
    ensures Body(d, c, |d.inds|)[RowIndex(d, i, p)] == HaploLine(d, c, i, p)
  {
    var ids := Range(|d.inds|);
    LayoutIndex(ids, HapCount(d), Lines(d, c), i, p);
    assert ids[i] == i;
    assert HasRow(d, i, p);
  }

  /** A row splits on spaces into its id, its status and one field per code,
      when neither the id nor the status holds a space. */
  lemma RowFields(id: string, status: string, h: seq<Allele>)
    requires ' ' !in id && ' ' !in status && |h| >= 1
    ensures var line := Row(id, status, HaploOut(h));
      line[|line| - 1] == '\n' && Split(line[..|line| - 1], ' ') == [id, status] + Recoded(h)
  {
    var line := Row(id, status, HaploOut(h));
    assert Join([id, status, HaploOut(h)], " ") == id + " " + (status + " " + HaploOut(h));
    assert line[..|line| - 1] == Join([id, status], " ") + " " + Join(Recoded(h), " ");
    CodesFree(h, ' ');
    SplitJoinConcat([id, status], Recoded(h), ' ');
  }

  /** A body line splits on spaces into the row id, the status column and the
      1/2 codes of the row, which read back as the row's alleles. */
  lemma HaploLineFields(d: PopData, c: nat, i: nat, p: nat)
    requires d.Shaped() && i < |d.inds| && p < HapCount(d)
    requires |Haplotype(d, c, i, p)| >= 1
    ensures var line := HaploLine(d, c, i, p);
      var f := Split(line[..|line| - 1], ' ');
      && line[|line| - 1] == '\n'
      && |f| == 2 + |Haplotype(d, c, i, p)|
      && f[0] == RowId(d, i, p) && f[1] == RowStatus(d, i)
      && Unrecoded(f[2..]) == Haplotype(d, c, i, p)
  {
    var h := Haplotype(d, c, i, p);
    NatFree(i, ' ');
    NatFree(p, ' ');
    assert ' ' !in RowId(d, i, p);
    RowFields(RowId(d, i, p), RowStatus(d, i), h);
    RecodedRoundTrip(h);
    var f := [RowId(d, i, p), RowStatus(d, i)] + Recoded(h);
    assert f[2..] == Recoded(h);
  }

  /** The header splits on spaces into `Id`, `Status`, one `M<name>` per
      locus (an empty field when there is none) and, from the trailing space,
      one more empty field. */
  lemma HeaderFields(names: seq<string>)
    requires forall i :: 0 <= i < |names| ==> ' ' !in names[i]
    ensures var line := Header(names);
      && line[|line| - 1] == '\n'
      && Split(line[..|line| - 1], ' ') == ["Id", "Status"] + (if names == [] then [""] else MarkerNames(names)) + [""]
  {
    var m := MarkerNames(names);
    var line := Header(names);
    assert Join(["Id", "Status"], " ") == "Id Status";
    if m == [] {
      assert Join(["", ""], " ") == " ";
      assert line[..|line| - 1] == Join(["Id", "Status"], " ") + " " + Join(["", ""], " ");
      SplitJoinConcat(["Id", "Status"], ["", ""], ' ');
    } else {
      JoinSnoc(m, " ", "");
      assert line[..|line| - 1] == Join(["Id", "Status"], " ") + " " + Join(m + [""], " ");
      forall i | 0 <= i < |m + [""]|
        ensures ' ' !in (m + [""])[i]
      {
        if i < |m| {
          assert (m + [""])[i] == "M" + names[i];
        }
      }
      SplitJoinConcat(["Id", "Status"], m + [""], ' ');
      assert ["Id", "Status"] + (m + [""]) == ["Id", "Status"] + m + [""];
    }
  }
}
