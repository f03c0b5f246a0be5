/** Removing loci from a population: the rare-allele filter, the file of new
    disease-locus indices, and the removal of the disease loci by name. */
module RemoveSNP {
  import opened Wrappers
  import opened Text
  import opened Populations
  import opened Files

  /** The number of rows of `rows` holding allele 0 at locus `l`. */
  function RowZeros(rows: seq<seq<Allele>>, l: nat): (n: nat)
    ensures n <= |rows|
  {
    if rows == [] then 0
    else RowZeros(rows[..|rows| - 1], l) + (if l < |rows[|rows| - 1]| && rows[|rows| - 1][l] == 0 then 1 else 0)
  }

  /** Allele-0 copies at locus `l` over every individual and ploidy copy. */
  function Zeros(inds: seq<Individual>, l: nat): (n: nat)
    ensures n <= Copies(inds)
  {
    if inds == [] then 0 else Zeros(inds[..|inds| - 1], l) + RowZeros(inds[|inds| - 1].genotype, l)
  }

  /** The number of allele copies per locus: one per ploidy copy of each individual. */
  function Copies(inds: seq<Individual>): nat {
    if inds == [] then 0 else Copies(inds[..|inds| - 1]) + |inds[|inds| - 1].genotype|
  }

  /** `pop.dvars().alleleFreq[l][0]` after `stat(pop, alleleFreq=...)`: the
      share of allele copies at locus `l` that are allele 0 (0 for a
      population without individuals). */
  function AlleleFreq0(d: PopData, l: nat): (f: real)
    ensures 0.0 <= f <= 1.0
  {
    var t := Copies(d.inds);
    if t == 0 then 0.0 else FractionInUnit(Zeros(d.inds, l), t); (Zeros(d.inds, l) as real) / (t as real)
  }

  /** A count over a larger positive total is a fraction between 0 and 1. */
  lemma FractionInUnit(z: nat, t: nat)
    requires 0 < t && z <= t
    ensures 0.0 <= (z as real) / (t as real) <= 1.0
  {
    var f := (z as real) / (t as real);
    assert f * (t as real) == z as real;
  }

  /** The threshold test of `removeRare`. */
  predicate IsRare(d: PopData, l: nat, hi: real, lo: real) {
    AlleleFreq0(d, l) > hi || AlleleFreq0(d, l) < lo
  }

  /** `lociToRemove` restricted to the loci below `n`, in index order. */
  function RareLoci(d: PopData, hi: real, lo: real, n: nat): (r: seq<nat>)
    ensures |r| <= n
    ensures forall k :: 0 <= k < |r| ==> r[k] < n
  {
    if n == 0 then []
    else RareLoci(d, hi, lo, n - 1) + (if IsRare(d, n - 1, hi, lo) then [n - 1] else [])
  }

  /** `lociToRemove`: every locus whose allele-0 frequency is above `hi` or below `lo`. */
  function LociToRemove(d: PopData, hi: real, lo: real): seq<nat> {
    RareLoci(d, hi, lo, d.TotNumLoci())
  }

  /** A locus index is listed exactly when it exists and fails the threshold test. */
  lemma {:induction false} RareLociMember(d: PopData, hi: real, lo: real, n: nat, l: nat)
    ensures l in RareLoci(d, hi, lo, n) <==> l < n && IsRare(d, l, hi, lo)
  {
    if n > 0 {
      RareLociMember(d, hi, lo, n - 1, l);
    }
  }

  /** The list is strictly increasing, so it names no locus twice. */
  lemma {:induction false} RareLociIncreasing(d: PopData, hi: real, lo: real, n: nat)
    ensures forall j, k :: 0 <= j < k < |RareLoci(d, hi, lo, n)| ==> RareLoci(d, hi, lo, n)[j] < RareLoci(d, hi, lo, n)[k]
  {
    if n > 0 {
      RareLociIncreasing(d, hi, lo, n - 1);
    }
  }

  /** Of the indices below `n`, those that survive the removal are the ones
      not listed. */
  lemma {:induction false} KeptRare(d: PopData, hi: real, lo: real, n: nat, total: nat)
    requires n <= total
    ensures Kept(n, set l | l in RareLoci(d, hi, lo, total)) == n - |RareLoci(d, hi, lo, n)|
  {
    if n > 0 {
      KeptRare(d, hi, lo, n - 1, total);
      RareLociMember(d, hi, lo, total, n - 1);
    }
  }

  /** After the removal the population has `totNumLoci - numRemoved` loci:
      the count `removeRare` returns is the number of loci that went away. */
  lemma RemoveRareCount(d: PopData, hi: real, lo: real)
    ensures |RemoveLoci(d, set l | l in LociToRemove(d, hi, lo)).loci| == d.TotNumLoci() - |LociToRemove(d, hi, lo)|
  {
    KeptRare(d, hi, lo, |d.loci|, |d.loci|);
    FilterIdxLength(d.loci, set l | l in LociToRemove(d, hi, lo));
  }

  /** With the default thresholds (0.999999 and 0.000001) and at most a
      million allele copies, a locus is removed exactly when it is
      monomorphic: every copy is allele 1, or every copy is allele 0. */
  lemma DefaultThresholds(d: PopData, l: nat)
    requires 0 < Copies(d.inds) <= 1000000
    ensures IsRare(d, l, 0.999999, 0.000001) <==> Zeros(d.inds, l) == 0 || Zeros(d.inds, l) == Copies(d.inds)
  {
    var z, t := Zeros(d.inds, l), Copies(d.inds);
    var f := AlleleFreq0(d, l);
    assert f == (z as real) / (t as real);
    FractionAbove(z, t);
    FractionBelow(z, t);
    if z == 0 || z == t {
      assert f > 0.999999 || f < 0.000001;
    } else {
      assert !(f > 0.999999) && !(f < 0.000001);
    }
  }

  /** `z / t` exceeds 0.999999 only when `z == t`, once `t` is at most a million. */
  lemma FractionAbove(z: nat, t: nat)
    requires 0 < t <= 1000000 && z <= t
    ensures (z as real) / (t as real) > 0.999999 <==> z == t
  {
    var f := (z as real) / (t as real);
    assert f * (t as real) == z as real;
    if z < t {
      assert (1.0 - f) * (t as real) == (t - z) as real;
      AtLeastOneMillionth(1.0 - f, t as real);
    } else {
      UnitFactor(f, t as real);
    }
  }

  /** `z / t` is below 0.000001 only when `z == 0`, once `t` is at most a million. */
  lemma FractionBelow(z: nat, t: nat)
    requires 0 < t <= 1000000 && z <= t
    ensures (z as real) / (t as real) < 0.000001 <==> z == 0
  {
    var f := (z as real) / (t as real);
    assert f * (t as real) == z as real;
    if z > 0 {
      AtLeastOneMillionth(f, t as real);
    }
  }

  /** A factor that leaves a positive number unchanged is 1. */
  lemma UnitFactor(a: real, b: real)
    requires b > 0.0 && a * b == b
    ensures a == 1.0
  {
    assert (a - 1.0) * b == 0.0;
  }

  /** A factor whose product with a positive number of at most a million
      reaches 1 is at least one millionth. */
  lemma AtLeastOneMillionth(a: real, b: real)
    requires 0.0 < b <= 1000000.0 && a * b >= 1.0
    ensures a >= 0.000001
  {
  }

  /** `[pop.locusByName(x) for x in DPL]`: the index of every name, in
      order; None where a name is missing and simuPOP raises ValueError. */
  function DplIndices(loci: seq<Locus>, dpl: seq<string>): (r: Option<seq<nat>>)
    ensures r.Some? ==> |r.value| == |dpl| && forall i :: 0 <= i < |dpl| ==> r.value[i] < |loci| && loci[r.value[i]].name == dpl[i]
    ensures r.None? <==> exists i :: 0 <= i < |dpl| && LocusByName(loci, dpl[i]).None?
  {
    if dpl == [] then Some([])
    else
      match (DplIndices(loci, dpl[..|dpl| - 1]), LocusByName(loci, dpl[|dpl| - 1]))
      case (Some(ix), Some(l)) => Some(ix + [l])
      case _ => None
  }

  /** `removeRare(pop, thresh_hi, thresh_lo, DPL, savefile)`: remove the rare
      loci in place, save the population when `savefile` is set (the empty
      string stands for False), and return the number removed with the new
      index of each disease locus. A disease locus that was itself removed
      makes the final lookup raise ValueError after the removal and the save. */
  method RemoveRare(pop: Population, fs: FileSystem, hi: real, lo: real, dpl: seq<string>, savefile: string)
    returns (r: Result<(nat, seq<nat>), string>)
    modifies pop, fs
    ensures pop.data == RemoveLoci(old(pop.data), set l | l in LociToRemove(old(pop.data), hi, lo))
    ensures fs.dirs == old(fs.dirs)
    ensures fs.files == if savefile != "" then old(fs.files)[savefile := PopContent(pop.data)] else old(fs.files)
    ensures r == match DplIndices(pop.data.loci, dpl)
                 case None => Failure("ValueError")
                 case Some(ix) => Success((|LociToRemove(old(pop.data), hi, lo)|, ix))
  {
    var lociToRemove := LociToRemove(pop.data, hi, lo);
    pop.RemoveLociInPlace(set l | l in lociToRemove);
    if savefile != "" {
      fs.SavePop(savefile, pop.data);
    }
    var ix := DplIndices(pop.data.loci, dpl);
    if ix.None? {
      return Failure("ValueError");
    }
    r := Success((|lociToRemove|, ix.value));
  }

  /** `"%s,%d\n" % (DPL[x], relLoc[x])`. */
  function SNPLocLine(name: string, index: int): string {
    name + "," + IntToString(index) + "\n"
  }

  /** The lines `writeSNPLoc` writes for the first `n` disease loci. */
  function SNPLocLines(dpl: seq<string>, relLoc: seq<int>, n: nat): (r: seq<string>)
    requires n <= |dpl| && n <= |relLoc|
    ensures |r| == n && forall x :: 0 <= x < n ==> r[x] == SNPLocLine(dpl[x], relLoc[x])
  {
    if n == 0 then [] else SNPLocLines(dpl, relLoc, n - 1) + [SNPLocLine(dpl[n - 1], relLoc[n - 1])]
  }

  /** A line of the file gives back its name and its index: cut off the
      newline and split on the comma. */
  lemma SNPLocLineParse(name: string, index: nat)
    requires ',' !in name
    ensures var line := SNPLocLine(name, index);
      && line[|line| - 1] == '\n'
      && Split(line[..|line| - 1], ',') == [name, NatToString(index)]
      && ParseNat(NatToString(index)) == index
  {
    var line := SNPLocLine(name, index);
    assert line[..|line| - 1] == name + "," + NatToString(index);
    assert ',' !in NatToString(index) by {
      forall k | 0 <= k < |NatToString(index)| ensures NatToString(index)[k] != ',' {
        assert IsDigit(NatToString(index)[k]);
      }
    }
    SplitAfterField(name, ',', NatToString(index));
    SplitNoSeparator(NatToString(index), ',');
    ParseNatToString(index);
  }

  /** `writeSNPLoc(relLoc, filename, DPL)`: one "name,index" line per disease
      locus, in order. An index list shorter than the name list raises
      IndexError after the lines before it are written. */
  method WriteSNPLoc(fs: FileSystem, relLoc: seq<int>, filename: string, dpl: seq<string>) returns (r: Result<(), string>)
    modifies fs
    ensures var n := if |relLoc| < |dpl| then |relLoc| else |dpl|;
      fs.files == old(fs.files)[filename := TextContent(SNPLocLines(dpl, relLoc, n))]
    ensures fs.dirs == old(fs.dirs)
    ensures r == if |relLoc| < |dpl| then Failure("IndexError") else Success(())
  {
    var lines := [];
    var x := 0;
    while x < |dpl|
      invariant x <= |dpl| && x <= |relLoc|
      invariant lines == SNPLocLines(dpl, relLoc, x)
    {
      if x >= |relLoc| {
        fs.WriteText(TextFile(filename, lines));
        return Failure("IndexError");
      }
      lines := lines + [SNPLocLine(dpl[x], relLoc[x])];
      x := x + 1;
    }
    fs.WriteText(TextFile(filename, lines));
    r := Success(());
  }

  /** The outcome of removing the named loci one after the other: the
      population, and the first name that was not found, if any. */
  datatype Removal = Removal(data: PopData, missing: Option<string>)

  /** The loop of `removeDPL` as a specification: remove the locus of each
      name in turn, and stop at the first name that is not there. */
  function RemoveByNames(d: PopData, names: seq<string>): Removal
    decreases |names|
  {
    if names == [] then Removal(d, None)
    else
      match LocusByName(d.loci, names[0])
      case None => Removal(d, Some(names[0]))
      case Some(l) => RemoveByNames(RemoveLoci(d, {l}), names[1..])
  }

  /** `removeDPL(pop, DPL, savefile)`: 0 after removing every listed locus
      (and saving when `savefile` is set), or "Locus X already removed!"
      for the first name not found, with the earlier loci left removed and
      nothing saved. */
  method RemoveDPL(pop: Population, fs: FileSystem, dpl: seq<string>, savefile: string) returns (r: Result<nat, string>)
    modifies pop, fs
    ensures var run := RemoveByNames(old(pop.data), dpl);
      && pop.data == run.data
      && r == (if run.missing.None? then Success(0) else Failure("Locus " + run.missing.value + " already removed!"))
      && fs.files == (if run.missing.None? && savefile != "" then old(fs.files)[savefile := PopContent(run.data)] else old(fs.files))
    ensures fs.dirs == old(fs.dirs)
  {
    var i := 0;
    while i < |dpl|
      invariant i <= |dpl|
      invariant RemoveByNames(old(pop.data), dpl) == RemoveByNames(pop.data, dpl[i..])
      invariant fs.files == old(fs.files) && fs.dirs == old(fs.dirs)
    {
      var locus := dpl[i];
      var l := LocusByName(pop.data.loci, locus);
      if l.None? {
        return Failure("Locus " + locus + " already removed!");
      }
      assert dpl[i..][1..] == dpl[i + 1..];
      pop.RemoveLociInPlace({l.value});
      i := i + 1;
    }
    if savefile != "" {
      fs.SavePop(savefile, pop.data);
    }
    r := Success(0);
  }

  /** Removing the locus of a name leaves no locus of that name, since names
      are distinct. */
  lemma RemoveNamed(d: PopData, name: string, l: nat)
    requires OrderedLoci(d.loci)
    requires LocusByName(d.loci, name) == Some(l)
    ensures LocusByName(RemoveLoci(d, {l}).loci, name).None?
    ensures OrderedLoci(RemoveLoci(d, {l}).loci)
    ensures |RemoveLoci(d, {l}).loci| + 1 == |d.loci|
  {
    var r := RemoveLoci(d, {l}).loci;
    FilterIdxOrdered(d.loci, {l});
    FilterIdxLength(d.loci, {l});
    KeptOne(|d.loci|, l);
    forall k | 0 <= k < |r| ensures r[k].name != name {
      var m :| 0 <= m < |d.loci| && d.loci[m] == r[k] && m != l by {
        FilterIdxFrom(d.loci, {l}, r[k]);
      }
    }
  }

  /** Removing one existing index keeps all the others. */
  lemma {:induction false} KeptOne(n: nat, l: nat)
    requires l < n
    ensures Kept(n, {l}) + 1 == n
  {
    if n - 1 != l {
      KeptOne(n - 1, l);
    } else {
      KeptNone(n - 1, l);
    }
  }

  lemma {:induction false} KeptNone(n: nat, l: nat)
    requires n <= l
    ensures Kept(n, {l}) == n
  {
    if n > 0 {
      KeptNone(n - 1, l);
    }
  }

  /** Every element that survives a filter sits at an index not dropped. */
  lemma {:induction false} FilterIdxFrom<T>(s: seq<T>, drop: set<nat>, x: T)
    requires x in FilterIdx(s, drop)
    ensures exists m :: 0 <= m < |s| && m !in drop && s[m] == x
  {
    if s != [] {
      var init := s[..|s| - 1];
      if x in FilterIdx(init, drop) {
        FilterIdxFrom(init, drop, x);
        var m :| 0 <= m < |init| && m !in drop && init[m] == x;
        assert s[m] == x;
      }
    }
  }

  /** A name that is gone stays gone when further loci are removed. */
  lemma GoneStaysGone(d: PopData, drop: set<nat>, name: string)
    requires LocusByName(d.loci, name).None?
    ensures LocusByName(RemoveLoci(d, drop).loci, name).None?
  {
    var r := RemoveLoci(d, drop).loci;
    forall k | 0 <= k < |r| ensures r[k].name != name {
      FilterIdxFrom(d.loci, drop, r[k]);
    }
  }

  /** After a successful removal none of the names is left, and the
      population has lost one locus per name. */
  lemma {:induction false} RemovedNamesGone(d: PopData, names: seq<string>)
    requires OrderedLoci(d.loci)
    requires RemoveByNames(d, names).missing.None?
    ensures forall n :: n in names ==> LocusByName(RemoveByNames(d, names).data.loci, n).None?
    ensures |RemoveByNames(d, names).data.loci| + |names| == |d.loci|
    decreases |names|
  {
    if names != [] {
      var l := LocusByName(d.loci, names[0]).value;
      var d' := RemoveLoci(d, {l});
      RemoveNamed(d, names[0], l);
      RemovedNamesGone(d', names[1..]);
      StaysGone(d', names[1..], names[0]);
    }
  }

  /** A name already gone is gone after any further removals by name. */
  lemma {:induction false} StaysGone(d: PopData, names: seq<string>, name: string)
    requires LocusByName(d.loci, name).None?
    ensures LocusByName(RemoveByNames(d, names).data.loci, name).None?
    decreases |names|
  {
    if names != [] {
      match LocusByName(d.loci, names[0])
      case None =>
      case Some(l) =>
        GoneStaysGone(d, {l}, name);
        StaysGone(RemoveLoci(d, {l}), names[1..], name);
    }
  }

  /** Calling `removeDPL` a second time with the same names fails on the
      first name, and changes nothing. */
  lemma RemoveTwiceFails(d: PopData, names: seq<string>)
    requires OrderedLoci(d.loci) && names != []
    requires RemoveByNames(d, names).missing.None?
    ensures var once := RemoveByNames(d, names).data;
      RemoveByNames(once, names) == Removal(once, Some(names[0]))
  {
    RemovedNamesGone(d, names);
  }

  /** On failure, the names before the missing one have been removed and the
      missing one is among the names. */
  lemma {:induction false} RemoveByNamesFailure(d: PopData, names: seq<string>)
    requires RemoveByNames(d, names).missing.Some?
    ensures exists k :: (0 <= k < |names| && names[k] == RemoveByNames(d, names).missing.value
      && RemoveByNames(d, names[..k]) == Removal(RemoveByNames(d, names).data, None)
      && LocusByName(RemoveByNames(d, names).data.loci, names[k]).None?)
    decreases |names|
  {
    match LocusByName(d.loci, names[0])
    case None =>
      assert names[..0] == [];
    case Some(l) =>
      var d' := RemoveLoci(d, {l});
      RemoveByNamesFailure(d', names[1..]);
      var k :| 0 <= k < |names[1..]| && names[1..][k] == RemoveByNames(d', names[1..]).missing.value
        && RemoveByNames(d', names[1..][..k]) == Removal(RemoveByNames(d', names[1..]).data, None)
        && LocusByName(RemoveByNames(d', names[1..]).data.loci, names[1..][k]).None?;
      assert names[..k + 1][0] == names[0] && names[..k + 1][1..] == names[1..][..k];
  }
}
