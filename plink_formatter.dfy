/** PLINK input files: a pedigree file (.ped) with one line per individual
    and a map file (.map) with one line per locus. */
module PlinkFormatter {
  import opened Wrappers
  import opened Text
  import opened Populations
  import opened Files
  import opened Encoding

  /** `ind.genotype()`: the ploidy copies one after another. */
  function Flat(g: seq<seq<Allele>>): seq<Allele> {
    if g == [] then [] else Flat(g[..|g| - 1]) + g[|g| - 1]
  }

  /** A diploid genotype flattens to copy 0 followed by copy 1. */
  lemma FlatPair(g: seq<seq<Allele>>)
    requires |g| == 2
    ensures Flat(g) == g[0] + g[1]
  {
    assert g[..1][..0] == [];
    assert Flat(g[..1]) == g[0];
  }

  /** Whether `ind` holds two copies of `numLoc` loci, as a diploid
      individual of a population with `numLoc` loci does. */
  predicate Diploid(ind: Individual, numLoc: nat) {
    |ind.genotype| == 2 && |ind.genotype[0]| == numLoc && |ind.genotype[1]| == numLoc
  }

  /** `"%s %s" % (hap1[i], hap2[i])` for every locus `i`, in locus order. */
  function Pairs(a: seq<string>, b: seq<string>): (r: seq<string>)
    requires |a| == |b|
    ensures |r| == |a|
  {
    if a == [] then [] else [a[0] + " " + b[0]] + Pairs(a[1..], b[1..])
  }

  /** The genotype columns: the pairs of 1/2 codes joined by spaces. */
  function GenoOut(h1: seq<Allele>, h2: seq<Allele>): string
    requires |h1| == |h2|
  {
    Join(Pairs(Recoded(h1), Recoded(h2)), " ")
  }

  /** `"case%d 1 0 0 1 2 %s\n"` or `"control%d 1 0 0 1 1 %s\n"`: the id,
      the fixed columns, the phenotype and the genotype columns separated by
      single spaces. `hap1` is the first `numLoc` alleles of the flat
      genotype and `hap2` the rest. */
  function PedLine(ind: Individual, id: nat, numLoc: nat): string
    requires Diploid(ind, numLoc)
  {
    FlatPair(ind.genotype);
    var geno := Flat(ind.genotype);
    var out := GenoOut(geno[..numLoc], geno[numLoc..]);
    var tag := (if ind.affected then "case" else "control") + NatToString(id);
    Join([tag, "1", "0", "0", "1", if ind.affected then "2" else "1", out], " ") + "\n"
  }

  /** The lines written for the first `n` individuals: line `k` belongs to
      individual `k` and carries id `k`, whatever its status. */
  function PedLines(d: PopData, n: nat): (r: seq<string>)
    requires d.Shaped() && d.ploidy == 2 && n <= |d.inds|
    ensures |r| == n
    ensures forall k :: 0 <= k < n ==> r[k] == PedLine(d.inds[k], k, |d.loci|)
  {
    if n == 0 then [] else PedLines(d, n - 1) + [PedLine(d.inds[n - 1], n - 1, |d.loci|)]
  }

  /** `"%s\t%s\t0\t%s\n"` of the locus's chromosome name, its name and its position. */
  function MapLine(d: PopData, loc: nat): string
    requires loc < |d.loci| && d.loci[loc].chrom < |d.chromNames|
  {
    d.chromNames[d.loci[loc].chrom] + "\t" + d.loci[loc].name + "\t0\t" + WholeFloatToString(d.loci[loc].pos) + "\n"
  }

  /** The map lines of the first `n` loci, one per locus in locus order. */
  function MapLines(d: PopData, n: nat): (r: seq<string>)
    requires d.ChromsNamed() && n <= |d.loci|
    ensures |r| == n
    ensures forall k :: 0 <= k < n ==> r[k] == MapLine(d, k)
  {
    if n == 0 then [] else MapLines(d, n - 1) + [MapLine(d, n - 1)]
  }

  /** `createFiles(pop, inputfileroot)`: nothing but the value 0 (None here)
      for a population that is not diploid; otherwise the .ped and .map
      files and their names. */
  method CreateFiles(d: PopData, root: string) returns (r: Option<seq<string>>, files: seq<TextFile>)
    requires d.ChromsNamed() && d.Shaped()
    ensures d.ploidy != 2 ==> r.None? && files == []
    ensures d.ploidy == 2 ==> r == Some([root + ".ped", root + ".map"])
    ensures d.ploidy == 2 ==> files == [TextFile(root + ".ped", PedLines(d, |d.inds|)), TextFile(root + ".map", MapLines(d, |d.loci|))]
  {
    if d.ploidy != 2 {
      return None, [];
    }
    var markerfilename := root + ".ped";
    var markerOut := WritePed(d);
    var positionfilename := root + ".map";
    var positionOut := WriteMap(d);
    files := [TextFile(markerfilename, markerOut), TextFile(positionfilename, positionOut)];
    r := Some([markerfilename, positionfilename]);
  }

  /** The individual loop: one line per individual, `id_counter` counting
      individuals of both classes together. */
  method WritePed(d: PopData) returns (markerOut: seq<string>)
    requires d.Shaped() && d.ploidy == 2
    ensures markerOut == PedLines(d, |d.inds|)
  {
    var numLoc := d.TotNumLoci();
    markerOut := [];
    var idCounter := 0;
    for k := 0 to |d.inds|
      invariant idCounter == k
      invariant markerOut == PedLines(d, k)
    {
      assert d.WellShaped(d.inds[k]);
      markerOut := markerOut + [PedLine(d.inds[k], idCounter, numLoc)];
      idCounter := idCounter + 1;
    }
  }

  /** The locus loop of the map file. */
  method WriteMap(d: PopData) returns (positionOut: seq<string>)
    requires d.ChromsNamed()
    ensures positionOut == MapLines(d, |d.loci|)
  {
    positionOut := [];
    for loc := 0 to d.TotNumLoci()
      invariant positionOut == MapLines(d, loc)
    {
      positionOut := positionOut + [MapLine(d, loc)];
    }
  }

  /** The pairs of alleles, one field each. */
  function Interleave(a: seq<string>, b: seq<string>): (r: seq<string>)
    requires |a| == |b|
    ensures |r| == 2 * |a|
    ensures forall i :: 0 <= i < |a| ==> r[2 * i] == a[i] && r[2 * i + 1] == b[i]
  {
    if a == [] then []
    else
      var rest := Interleave(a[1..], b[1..]);
      assert forall i :: 1 <= i < |a| ==> rest[2 * (i - 1)] == a[i] && rest[2 * (i - 1) + 1] == b[i];
      [a[0], b[0]] + rest
  }

  /** Joining the "x y" pairs by spaces is joining all codes by spaces. */
  lemma {:induction false} JoinPairs(a: seq<string>, b: seq<string>)
    requires |a| == |b| >= 1
    ensures Join(Pairs(a, b), " ") == Join(Interleave(a, b), " ")
  {
    var codes := Interleave(a, b);
    if |a| == 1 {
      assert codes[1..] == [b[0]];
    } else {
      JoinPairs(a[1..], b[1..]);
      assert codes[1..][1..] == Interleave(a[1..], b[1..]);
    }
  }

  /** No 1/2 code of either copy holds a space. */
  lemma InterleaveFree(h1: seq<Allele>, h2: seq<Allele>)
    requires |h1| == |h2|
    ensures forall i :: 0 <= i < 2 * |h1| ==> ' ' !in Interleave(Recoded(h1), Recoded(h2))[i]
  {
    var a, b := Recoded(h1), Recoded(h2);
    var codes := Interleave(a, b);
    CodesFree(h1, ' ');
    CodesFree(h2, ' ');
    forall i | 0 <= i < |codes| ensures ' ' !in codes[i] {
      if i % 2 == 0 {
        assert codes[2 * (i / 2)] == a[i / 2];
      } else {
        assert codes[2 * (i / 2) + 1] == b[i / 2];
      }
    }
  }

  /** The id, fixed and phenotype columns, then the codes of the two copies
      locus by locus. */
  function PedFields(ind: Individual, id: nat): (r: seq<string>)
    requires |ind.genotype| == 2 && |ind.genotype[0]| == |ind.genotype[1]|
  {
    [(if ind.affected then "case" else "control") + NatToString(id), "1", "0", "0", "1", if ind.affected then "2" else "1"]
      + Interleave(Recoded(ind.genotype[0]), Recoded(ind.genotype[1]))
  }

  /** A .ped line is its fields joined by spaces, then a newline. */
  lemma PedLineSplit(ind: Individual, id: nat, numLoc: nat)
    requires Diploid(ind, numLoc) && numLoc >= 1
    ensures var line := PedLine(ind, id, numLoc);
      line[|line| - 1] == '\n' && Split(line[..|line| - 1], ' ') == PedFields(ind, id)
  {
    FlatPair(ind.genotype);
    var geno := Flat(ind.genotype);
    assert geno[..numLoc] == ind.genotype[0] && geno[numLoc..] == ind.genotype[1];
    var out := GenoOut(ind.genotype[0], ind.genotype[1]);
    var tag := (if ind.affected then "case" else "control") + NatToString(id);
    var status := if ind.affected then "2" else "1";
    var head := [tag, "1", "0", "0", "1", status];
    var codes := Interleave(Recoded(ind.genotype[0]), Recoded(ind.genotype[1]));
    JoinPairs(Recoded(ind.genotype[0]), Recoded(ind.genotype[1]));
    JoinConcat(head, [out], " ");
    assert head + [out] == [tag, "1", "0", "0", "1", status, out];
    InterleaveFree(ind.genotype[0], ind.genotype[1]);
    NatFree(id, ' ');
    SplitJoinConcat(head, codes, ' ');
  }

  /** A .ped line splits on spaces into the id (`case<k>` or `control<k>`),
      the fixed columns 1 0 0 1, the phenotype (2 for affected, 1 for
      unaffected), then for each locus the code of copy 0 and of copy 1. */
  lemma PedLineFields(ind: Individual, id: nat, numLoc: nat)
    requires Diploid(ind, numLoc) && numLoc >= 1
    ensures var line := PedLine(ind, id, numLoc);
      var f := Split(line[..|line| - 1], ' ');
      && line[|line| - 1] == '\n'
      && |f| == 6 + 2 * numLoc
      && f[0] == (if ind.affected then "case" else "control") + NatToString(id)
      && f[1..5] == ["1", "0", "0", "1"]
      && f[5] == (if ind.affected then "2" else "1")
      && forall i :: 0 <= i < numLoc ==> Unrecode(f[6 + 2 * i]) == ind.genotype[0][i] && Unrecode(f[7 + 2 * i]) == ind.genotype[1][i]
  {
    PedLineSplit(ind, id, numLoc);
    var f := PedFields(ind, id);
    var codes := Interleave(Recoded(ind.genotype[0]), Recoded(ind.genotype[1]));
    forall i | 0 <= i < numLoc
      ensures Unrecode(f[6 + 2 * i]) == ind.genotype[0][i] && Unrecode(f[7 + 2 * i]) == ind.genotype[1][i]
    {
      assert f[6 + 2 * i] == codes[2 * i];
      assert f[7 + 2 * i] == codes[2 * i + 1];
    }
  }

  /** A .map line splits on tabs into the chromosome name, the locus name,
      the genetic distance 0 and the position, when the names hold no tab. */
  lemma MapLineFields(d: PopData, loc: nat)
    requires loc < |d.loci| && d.loci[loc].chrom < |d.chromNames|
    requires '\t' !in d.chromNames[d.loci[loc].chrom] && '\t' !in d.loci[loc].name
    ensures var line := MapLine(d, loc);
      && line[|line| - 1] == '\n'
      && Split(line[..|line| - 1], '\t') == [d.chromNames[d.loci[loc].chrom], d.loci[loc].name, "0", WholeFloatToString(d.loci[loc].pos)]
  {
    var chrom, name, pos := d.chromNames[d.loci[loc].chrom], d.loci[loc].name, WholeFloatToString(d.loci[loc].pos);
    var line := MapLine(d, loc);
    assert line[..|line| - 1] == chrom + ['\t'] + (name + ['\t'] + ("0" + ['\t'] + pos));
    assert '\t' !in pos;
    SplitNoSeparator(pos, '\t');
    SplitAfterField("0", '\t', pos);
    SplitAfterField(name, '\t', "0" + ['\t'] + pos);
    SplitAfterField(chrom, '\t', name + ['\t'] + ("0" + ['\t'] + pos));
  }
}
