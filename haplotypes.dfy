/** The haplotype rows the TreeDT, Blossoc and Margarita formatters write: a
    diploid population gives one row per ploidy copy, any other population
    one row per individual holding every copy. */
module Haplotypes {
  import opened Populations

  /** Rows per individual: 2 when `pop.ploidy() == 2`, else 1. */
  function HapCount(d: PopData): nat {
    if d.ploidy == 2 then 2 else 1
  }

  /** The position of row `p` of individual `i` when every individual writes
      its rows in population order: `HapCount * i + p`. */
  function RowIndex(d: PopData, i: nat, p: nat): nat {
    HapCount(d) * i + p
  }

  /** Individual `i` exists, `p` is one of its rows and its genotype holds
      every locus in every copy. */
  predicate HasRow(d: PopData, i: nat, p: nat) {
    i < |d.inds| && p < HapCount(d) && d.WellShaped(d.inds[i])
  }

  /** Row `p` of individual `i` on chromosome `c`:
      `ind.genotype(chroms=c, ploidy=p)` for a diploid population,
      `ind.genotype(chroms=c)` otherwise. */
  function Haplotype(d: PopData, c: nat, i: nat, p: nat): seq<Allele>
    requires HasRow(d, i, p)
  {
    if d.ploidy == 2 then d.ChromGenotype(d.inds[i], c, p) else d.ChromGenotypeAll(d.inds[i], c, d.ploidy)
  }

  /** A diploid row holds the loci of the chromosome once, any other row once
      per ploidy copy. */
  lemma HaplotypeLength(d: PopData, c: nat, i: nat, p: nat)
    requires HasRow(d, i, p)
    ensures |Haplotype(d, c, i, p)| == (if d.ploidy == 2 then 1 else d.ploidy) * (d.ChromEnd(c) - d.ChromBegin(c))
  {
    if d.ploidy != 2 {
      d.ChromGenotypeAllLength(d.inds[i], c, d.ploidy);
    }
  }

  /** `locNames[chromBegin(c):chromEnd(c)]`. */
  function ChromLociNames(d: PopData, c: nat): seq<string> {
    d.LociNames()[d.ChromBegin(c)..d.ChromEnd(c)]
  }

  /** `locpos[chromBegin(c):chromEnd(c)]`. */
  function ChromLociPos(d: PopData, c: nat): seq<int> {
    d.LociPos()[d.ChromBegin(c)..d.ChromEnd(c)]
  }

  /** The number of affected individuals among the first `n`. */
  function CountAffected(inds: seq<Individual>, n: nat): (k: nat)
    requires n <= |inds|
    ensures k <= n
  {
    if n == 0 then 0 else CountAffected(inds, n - 1) + (if inds[n - 1].affected then 1 else 0)
  }

  /** `0, 1, ..., n - 1`: the individuals of a population in order. */
  function Range(n: nat): (r: seq<nat>)
    ensures |r| == n && forall i :: 0 <= i < n ==> r[i] == i
  {
    if n == 0 then [] else Range(n - 1) + [n - 1]
  }

  /** The first `k` rows of individual `i`. */
  function Block<T>(i: nat, k: nat, row: (nat, nat) -> T): (r: seq<T>)
    ensures |r| == k && forall p :: 0 <= p < k ==> r[p] == row(i, p)
  {
    if k == 0 then [] else Block(i, k - 1, row) + [row(i, k - 1)]
  }

  /** The rows of the individuals `ids`, `k` rows each, individual after
      individual. */
  function Layout<T>(ids: seq<nat>, k: nat, row: (nat, nat) -> T): seq<T> {
    if ids == [] then [] else Layout(ids[..|ids| - 1], k, row) + Block(ids[|ids| - 1], k, row)
  }

  /** Writing one more individual appends its rows. */
  lemma LayoutSnoc<T>(ids: seq<nat>, i: nat, k: nat, row: (nat, nat) -> T)
    ensures Layout(ids + [i], k, row) == Layout(ids, k, row) + Block(i, k, row)
  {
    assert (ids + [i])[..|ids|] == ids;
  }

  /** `k` rows per individual. */
  lemma {:induction false} LayoutLength<T>(ids: seq<nat>, k: nat, row: (nat, nat) -> T)
    ensures |Layout(ids, k, row)| == k * |ids|
  {
    if ids != [] {
      LayoutLength(ids[..|ids| - 1], k, row);
      assert k * (|ids| - 1) + k == k * |ids|;
    }
  }

  /** Row `p` of the `j`-th individual written follows the rows of the
      individuals before it. */
  lemma {:induction false} LayoutAt<T>(ids: seq<nat>, k: nat, row: (nat, nat) -> T, j: nat, p: nat)
    requires j < |ids| && p < k
    ensures |Layout(ids[..j], k, row)| + p < |Layout(ids, k, row)|
    ensures Layout(ids, k, row)[|Layout(ids[..j], k, row)| + p] == row(ids[j], p)
  {
    var init := ids[..|ids| - 1];
    if j < |ids| - 1 {
      LayoutAt(init, k, row, j, p);
      assert init[..j] == ids[..j];
    } else {
      assert init == ids[..j];
    }
  }

  /** The same position as `k * j + p`. */
  lemma LayoutIndex<T>(ids: seq<nat>, k: nat, row: (nat, nat) -> T, j: nat, p: nat)
    requires j < |ids| && p < k
    ensures k * j + p < |Layout(ids, k, row)| && Layout(ids, k, row)[k * j + p] == row(ids[j], p)
  {
    LayoutAt(ids, k, row, j, p);
    LayoutLength(ids[..j], k, row);
  }
}
