/** The part of a simuPOP population the pipeline reads and changes: the
    ploidy, the chromosomes, the loci (name, position, chromosome) and the
    individuals (affection status and one allele row per ploidy copy). */
module Populations {
  import opened Wrappers

  /** Every module sets simuPOP's binary allele type, so an allele is 0 or 1. */
  type Allele = a: nat | a <= 1

  /** A locus: its name, its position in base pairs, its chromosome index. */
  datatype Locus = Locus(name: string, pos: int, chrom: nat)

  /** `genotype[p][l]` is the allele of ploidy copy `p` at locus `l`. */
  datatype Individual = Individual(affected: bool, genotype: seq<seq<Allele>>)

  /** Loci are ordered by chromosome and carry distinct names, as in simuPOP. */
  ghost predicate OrderedLoci(loci: seq<Locus>) {
    forall l, m :: 0 <= l < m < |loci| ==> loci[l].chrom <= loci[m].chrom && loci[l].name != loci[m].name
  }

  datatype PopData = PopData(ploidy: nat, chromNames: seq<string>, loci: seq<Locus>, inds: seq<Individual>) {

    predicate WellShaped(ind: Individual) {
      |ind.genotype| == ploidy && forall p :: 0 <= p < ploidy ==> |ind.genotype[p]| == |loci|
    }

    /** Every locus lies on a named chromosome. */
    predicate ChromsNamed() {
      forall l :: 0 <= l < |loci| ==> loci[l].chrom < |chromNames|
    }

    /** Every individual holds `ploidy` copies of every locus. */
    predicate Shaped() {
      forall i :: 0 <= i < |inds| ==> WellShaped(inds[i])
    }

    ghost predicate Valid() {
      ploidy >= 1 && ChromsNamed() && OrderedLoci(loci) && Shaped()
    }

    function PopSize(): nat { |inds| }

    function TotNumLoci(): nat { |loci| }

    /** `pop.lociNames()`. */
    function LociNames(): (r: seq<string>)
      ensures |r| == |loci| && forall l :: 0 <= l < |loci| ==> r[l] == loci[l].name
    {
      seq(|loci|, l requires 0 <= l < |loci| => loci[l].name)
    }

    /** `pop.lociPos()`. */
    function LociPos(): (r: seq<int>)
      ensures |r| == |loci| && forall l :: 0 <= l < |loci| ==> r[l] == loci[l].pos
    {
      seq(|loci|, l requires 0 <= l < |loci| => loci[l].pos)
    }

    /** `pop.chromBegin(c)`: the number of loci on earlier chromosomes. */
    function ChromBegin(c: nat): (b: nat)
      ensures b <= |loci|
    {
      CountBelow(loci, c)
    }

    /** `pop.chromEnd(c)`: one past the last locus of chromosome `c`. */
    function ChromEnd(c: nat): (e: nat)
      ensures ChromBegin(c) <= e <= |loci|
    {
      CountBelowMonotone(loci, c);
      CountBelow(loci, c + 1)
    }

    /** `ind.genotype(chroms=c, ploidy=p)`. */
    function ChromGenotype(ind: Individual, c: nat, p: nat): (g: seq<Allele>)
      requires WellShaped(ind) && p < ploidy
      ensures |g| == ChromEnd(c) - ChromBegin(c)
    {
      ind.genotype[p][ChromBegin(c)..ChromEnd(c)]
    }

    /** `ind.genotype(chroms=c)`: chromosome `c` of every ploidy copy, copy 0 first. */
    function ChromGenotypeAll(ind: Individual, c: nat, n: nat): seq<Allele>
      requires WellShaped(ind) && n <= ploidy
    {
      if n == 0 then [] else ChromGenotypeAll(ind, c, n - 1) + ChromGenotype(ind, c, n - 1)
    }

    /** Every copy contributes the loci of the chromosome. */
    lemma {:induction false} ChromGenotypeAllLength(ind: Individual, c: nat, n: nat)
      requires WellShaped(ind) && n <= ploidy
      ensures |ChromGenotypeAll(ind, c, n)| == n * (ChromEnd(c) - ChromBegin(c))
    {
      if n > 0 {
        ChromGenotypeAllLength(ind, c, n - 1);
        var w := ChromEnd(c) - ChromBegin(c);
        assert (n - 1) * w + w == n * w;
      }
    }
  }

  /** The number of loci on chromosomes below `c`. */
  function CountBelow(loci: seq<Locus>, c: nat): (n: nat)
    ensures n <= |loci|
  {
    if loci == [] then 0
    else CountBelow(loci[..|loci| - 1], c) + (if loci[|loci| - 1].chrom < c then 1 else 0)
  }

  lemma {:induction false} CountBelowMonotone(loci: seq<Locus>, c: nat)
    ensures CountBelow(loci, c) <= CountBelow(loci, c + 1)
  {
    if loci != [] {
      CountBelowMonotone(loci[..|loci| - 1], c);
    }
  }

  /** The elements of `s` whose index is not in `drop`, in their order. */
  function FilterIdx<T>(s: seq<T>, drop: set<nat>): (r: seq<T>)
    ensures |r| <= |s|
    ensures forall x :: x in r ==> x in s
  {
    if s == [] then []
    else FilterIdx(s[..|s| - 1], drop) + (if |s| - 1 in drop then [] else [s[|s| - 1]])
  }

  /** How many of the indices below `n` survive a removal of `drop`. */
  function Kept(n: nat, drop: set<nat>): nat {
    if n == 0 then 0 else Kept(n - 1, drop) + (if n - 1 in drop then 0 else 1)
  }

  /** Filtering two sequences of equal length by the same indices gives equal lengths. */
  lemma {:induction false} FilterIdxLength<T>(s: seq<T>, drop: set<nat>)
    ensures |FilterIdx(s, drop)| == Kept(|s|, drop)
  {
    if s != [] {
      FilterIdxLength(s[..|s| - 1], drop);
    }
  }

  /** An index survives exactly when it is not dropped. */
  lemma {:induction false} FilterIdxMember<T>(s: seq<T>, drop: set<nat>, i: nat)
    requires i < |s| && i !in drop
    ensures s[i] in FilterIdx(s, drop)
  {
    if i < |s| - 1 {
      FilterIdxMember(s[..|s| - 1], drop, i);
    }
  }

  /** Removing loci keeps them ordered by chromosome and uniquely named. */
  lemma {:induction false} FilterIdxOrdered(loci: seq<Locus>, drop: set<nat>)
    requires OrderedLoci(loci)
    ensures OrderedLoci(FilterIdx(loci, drop))
  {
    if loci != [] {
      var init := loci[..|loci| - 1];
      FilterIdxOrdered(init, drop);
      var f := FilterIdx(init, drop);
      forall x | x in f
        ensures x.chrom <= loci[|loci| - 1].chrom && x.name != loci[|loci| - 1].name
      {
        var l :| 0 <= l < |init| && init[l] == x;
      }
    }
  }

  /** An individual with the alleles at the dropped loci taken out of every row. */
  function DropAlleles(ind: Individual, drop: set<nat>): (r: Individual)
    ensures r.affected == ind.affected && |r.genotype| == |ind.genotype|
    ensures forall p :: 0 <= p < |ind.genotype| ==> r.genotype[p] == FilterIdx(ind.genotype[p], drop)
  {
    ind.(genotype := seq(|ind.genotype|, p requires 0 <= p < |ind.genotype| => FilterIdx(ind.genotype[p], drop)))
  }

  /** `pop.removeLoci(drop)`: loci and allele columns at those indices disappear. */
  function RemoveLoci(d: PopData, drop: set<nat>): (r: PopData)
    ensures r.ploidy == d.ploidy && r.chromNames == d.chromNames && |r.inds| == |d.inds|
    ensures r.loci == FilterIdx(d.loci, drop)
    ensures forall i :: 0 <= i < |d.inds| ==> r.inds[i] == DropAlleles(d.inds[i], drop)
  {
    d.(loci := FilterIdx(d.loci, drop),
       inds := seq(|d.inds|, i requires 0 <= i < |d.inds| => DropAlleles(d.inds[i], drop)))
  }

  /** Removing loci yields a well-formed population again. */
  lemma RemoveLociValid(d: PopData, drop: set<nat>)
    requires d.Valid()
    ensures RemoveLoci(d, drop).Valid()
  {
    var r := RemoveLoci(d, drop);
    FilterIdxOrdered(d.loci, drop);
    FilterIdxLength(d.loci, drop);
    forall l | 0 <= l < |r.loci| ensures r.loci[l].chrom < |r.chromNames| {
      assert r.loci[l] in d.loci;
    }
    forall i | 0 <= i < |r.inds| ensures r.WellShaped(r.inds[i]) {
      forall p | 0 <= p < r.ploidy ensures |r.inds[i].genotype[p]| == |r.loci| {
        FilterIdxLength(d.inds[i].genotype[p], drop);
      }
    }
  }

  /** `pop.locusByName(name)`: the index of the locus with that name, or
      None where simuPOP raises ValueError. */
  function LocusByName(loci: seq<Locus>, name: string): (r: Option<nat>)
    ensures r.Some? ==> r.value < |loci| && loci[r.value].name == name
    ensures r.None? <==> forall l :: 0 <= l < |loci| ==> loci[l].name != name
  {
    if loci == [] then None
    else if loci[0].name == name then Some(0)
    else
      match LocusByName(loci[1..], name)
      case None => None
      case Some(l) => Some(l + 1)
  }

  /** A population object that simuPOP changes in place. */
  class Population {
    var data: PopData

    constructor (d: PopData)
      ensures data == d
    {
      data := d;
    }

    /** `pop.removeLoci(...)`. */
    method RemoveLociInPlace(drop: set<nat>)
      modifies this
      ensures data == RemoveLoci(old(data), drop)
    {
      data := RemoveLoci(data, drop);
    }
  }
}
