/** The single-gene penetrance model: a risk table from the wild-type risk and
    the genotype relative risk, and the rejection-sampling callback that keeps
    or discards each offspring against the case and control targets. */
module SingleGeneModel {
  import opened Wrappers
  import opened Populations
  import opened Config

  /** Copies of allele 1 at the disease locus: the sum of the two alleles. */
  function Dosage(a0: Allele, a1: Allele): (g: nat)
    ensures g <= 2
    ensures g == 0 <==> a0 == 0 && a1 == 0
    ensures g == 2 <==> a0 == 1 && a1 == 1
  {
    a0 + a1
  }

  /** Risk of disease by dosage 0, 1, 2. The homozygote risk doubles the
      heterozygote risk only when GRR > 1 and falls back to the wild-type
      risk otherwise. */
  function RiskTable(wtr: real, grr: real): (r: seq<real>)
    ensures |r| == 3 && r[0] == wtr && r[1] == wtr * grr
  {
    var hetRisk := wtr * grr;
    var homMutRisk := if grr > 1.0 then wtr * grr * 2.0 else wtr;
    [wtr, hetRisk, homMutRisk]
  }

  /** With GRR > 1 and a non-negative wild-type risk, risk never falls as
      dosage rises; with GRR <= 1 the homozygote is back at the wild-type risk. */
  lemma RiskTableByDosage(wtr: real, grr: real)
    requires wtr >= 0.0
    ensures grr > 1.0 ==> RiskTable(wtr, grr)[0] <= RiskTable(wtr, grr)[1] <= RiskTable(wtr, grr)[2]
    ensures grr > 1.0 ==> RiskTable(wtr, grr)[2] == 2.0 * RiskTable(wtr, grr)[1]
    ensures grr <= 1.0 ==> RiskTable(wtr, grr)[2] == RiskTable(wtr, grr)[0] >= RiskTable(wtr, grr)[1]
  {
    if grr > 1.0 {
      ScaleMonotone(wtr, 1.0, grr);
    } else {
      ScaleMonotone(wtr, grr, 1.0);
    }
  }

  /** Scaling by a non-negative factor keeps the order. */
  lemma ScaleMonotone(a: real, b: real, c: real)
    requires a >= 0.0 && b <= c
    ensures a * b <= a * c
  {
    var d := c - b;
    assert a * c == a * b + a * d;
    assert a * d >= 0.0;
  }

  /** The table holds probabilities exactly when the wild-type risk, the
      heterozygote risk and (for GRR > 1) the doubled risk lie in [0, 1];
      nothing clamps a larger value. */
  lemma RiskTableIsProbability(wtr: real, grr: real)
    requires 0.0 <= wtr && 0.0 <= grr
    ensures (forall k :: 0 <= k < 3 ==> 0.0 <= RiskTable(wtr, grr)[k] <= 1.0)
        <==> wtr <= 1.0 && wtr * grr <= 1.0 && (grr > 1.0 ==> 2.0 * (wtr * grr) <= 1.0)
  {
    var r := RiskTable(wtr, grr);
    NonNegativeProduct(wtr, grr);
    assert r[2] == if grr > 1.0 then 2.0 * (wtr * grr) else wtr;
  }

  lemma NonNegativeProduct(x: real, y: real)
    requires 0.0 <= x && 0.0 <= y
    ensures 0.0 <= x * y
  {
    if x == 0.0 || y == 0.0 {
    } else {
      assert x * y > 0.0 * y;
    }
  }

  /** What `_selectInds` decides for one offspring. */
  datatype Draw = Draw(dosage: nat, affected: bool)

  /** The offspring is kept exactly when its class still has room. */
  predicate Keeps(c: Counters, numCases: int, numControls: int, affected: bool) {
    if affected then c.selectedCase < numCases else c.selectedControl < numControls
  }

  /** The counters after `_selectInds` has seen one offspring. */
  function Step(c: Counters, numCases: int, numControls: int, d: Draw): (r: Counters)
    ensures r.selectedCase + r.selectedControl + r.discardedInds
         == c.selectedCase + c.selectedControl + c.discardedInds + 1
  {
    if d.affected && c.selectedCase < numCases then
      c.(selectedCase := c.selectedCase + 1,
         numWtCases := c.numWtCases + if d.dosage == 0 then 1 else 0)
    else if !d.affected && c.selectedControl < numControls then
      c.(selectedControl := c.selectedControl + 1,
         numMutControls := c.numMutControls + if d.dosage > 0 then 1 else 0)
    else
      c.(discardedInds := c.discardedInds + 1)
  }

  /** One call changes exactly one of the three class counters, by one: the
      case count for a kept affected offspring, the control count for a kept
      unaffected one, the discard count otherwise; an affected offspring whose
      quota is full is discarded, never counted as a control, and vice versa.
      The wild-type-case count grows only with a kept case of dosage 0, the
      mutant-control count only with a kept control of dosage above 0. */
  lemma StepEffect(c: Counters, numCases: int, numControls: int, d: Draw)
    ensures var r := Step(c, numCases, numControls, d);
      var keep := Keeps(c, numCases, numControls, d.affected);
      && r.selectedCase == c.selectedCase + (if keep && d.affected then 1 else 0)
      && r.selectedControl == c.selectedControl + (if keep && !d.affected then 1 else 0)
      && r.discardedInds == c.discardedInds + (if keep then 0 else 1)
      && r.numWtCases == c.numWtCases + (if keep && d.affected && d.dosage == 0 then 1 else 0)
      && r.numMutControls == c.numMutControls + (if keep && !d.affected && d.dosage > 0 then 1 else 0)
  {
  }

  /** The counters after a run of decisions, starting from zero. */
  function Run(numCases: int, numControls: int, ds: seq<Draw>): Counters {
    if ds == [] then Zero
    else Step(Run(numCases, numControls, ds[..|ds| - 1]), numCases, numControls, ds[|ds| - 1])
  }

  /** Every run keeps the sampling invariants: no quota is overshot, every
      candidate is counted exactly once as case, control or discard, and the
      two genotype tallies stay within the classes they count. */
  lemma {:induction false} RunInvariant(numCases: nat, numControls: nat, ds: seq<Draw>)
    ensures var c := Run(numCases, numControls, ds);
      && c.selectedCase <= numCases
      && c.selectedControl <= numControls
      && c.selectedCase + c.selectedControl + c.discardedInds == |ds|
      && c.numWtCases <= c.selectedCase
      && c.numMutControls <= c.selectedControl
  {
    if ds != [] {
      RunInvariant(numCases, numControls, ds[..|ds| - 1]);
    }
  }

  /** The kept offspring fill the generation exactly when both quotas are full. */
  lemma FilledIffBothQuotasFull(numCases: nat, numControls: nat, ds: seq<Draw>)
    ensures var c := Run(numCases, numControls, ds);
      (c.selectedCase + c.selectedControl == numCases + numControls)
        <==> (c.selectedCase == numCases && c.selectedControl == numControls)
  {
    RunInvariant(numCases, numControls, ds);
  }

  /** An offspring produced by mating, before and after the callback marks it. */
  class Offspring {
    var affected: bool
    const genotype: seq<seq<Allele>>

    constructor (g: seq<seq<Allele>>)
      ensures genotype == g && !affected
    {
      genotype := g;
      affected := false;
    }

    function Value(): Individual
      reads this
    {
      Individual(affected, genotype)
    }
  }

  /** The draws the callback needs: both alleles at the disease locus. */
  predicate Diploid(g: seq<seq<Allele>>, locus: nat) {
    |g| >= 2 && locus < |g[0]| && locus < |g[1]|
  }

  /** The decision inputs for one offspring: its dosage and whether the
      uniform draw falls below that dosage's risk. */
  function DrawOf(risks: seq<real>, locus: nat, g: seq<seq<Allele>>, draw: real): (d: Draw)
    requires |risks| == 3 && Diploid(g, locus)
    ensures d.dosage == Dosage(g[0][locus], g[1][locus])
    ensures d.affected == (draw < risks[d.dosage])
  {
    var g1 := Dosage(g[0][locus], g[1][locus]);
    Draw(g1, draw < risks[g1])
  }

  /** `_selectInds(off, param)`: `locus` is `param[0]` and `draw` is the
      value of `random.random()`. */
  method SelectInds(cfg: Globals, off: Offspring, locus: nat, draw: real) returns (kept: bool)
    requires |cfg.risks| == 3 && Diploid(off.genotype, locus)
    modifies cfg, off
    ensures var d := DrawOf(old(cfg.risks), locus, off.genotype, draw);
      && kept == Keeps(old(cfg.Counts()), cfg.numCases, cfg.numControls, d.affected)
      && cfg.Counts() == Step(old(cfg.Counts()), cfg.numCases, cfg.numControls, d)
      && off.affected == (if kept then d.affected else old(off.affected))
    ensures cfg.risks == old(cfg.risks) && cfg.numCases == old(cfg.numCases) && cfg.numControls == old(cfg.numControls)
  {
    var g1 := Dosage(off.genotype[0][locus], off.genotype[1][locus]);
    var affected := draw < cfg.risks[g1];
    if affected {
      if cfg.selectedCase < cfg.numCases {
        off.affected := true;
        cfg.selectedCase := cfg.selectedCase + 1;
        if g1 == 0 {
          cfg.numWtCases := cfg.numWtCases + 1;
        }
        return true;
      }
    } else {
      if cfg.selectedControl < cfg.numControls {
        cfg.selectedControl := cfg.selectedControl + 1;
        off.affected := false;
        if g1 > 0 {
          cfg.numMutControls := cfg.numMutControls + 1;
        }
        return true;
      }
    }
    cfg.discardedInds := cfg.discardedInds + 1;
    return false;
  }

  /** One offspring the mating scheme offers: its genotype and the uniform
      draw `random.random()` returns for it. */
  datatype Candidate = Candidate(genotype: seq<seq<Allele>>, draw: real)

  function DrawsOf(risks: seq<real>, locus: nat, stream: seq<Candidate>): (ds: seq<Draw>)
    requires |risks| == 3 && forall k :: 0 <= k < |stream| ==> Diploid(stream[k].genotype, locus)
    ensures |ds| == |stream|
  {
    seq(|stream|, k requires 0 <= k < |stream| => DrawOf(risks, locus, stream[k].genotype, stream[k].draw))
  }

  /** Consuming one more candidate is one more step of the run. */
  lemma RunExtend(numCases: int, numControls: int, risks: seq<real>, locus: nat, stream: seq<Candidate>, i: nat)
    requires |risks| == 3 && forall k :: 0 <= k < |stream| ==> Diploid(stream[k].genotype, locus)
    requires i < |stream|
    ensures Run(numCases, numControls, DrawsOf(risks, locus, stream[..i + 1]))
         == Step(Run(numCases, numControls, DrawsOf(risks, locus, stream[..i])), numCases, numControls,
                 DrawOf(risks, locus, stream[i].genotype, stream[i].draw))
  {
    assert DrawsOf(risks, locus, stream[..i + 1])[..i] == DrawsOf(risks, locus, stream[..i]);
  }

  function AffectedCount(inds: seq<Individual>): (n: nat)
    ensures n <= |inds|
  {
    if inds == [] then 0
    else AffectedCount(inds[..|inds| - 1]) + if inds[|inds| - 1].affected then 1 else 0
  }

  /** The offspring the callback keeps from a stream of candidates, in
      stream order, each with the status drawn for it. */
  function KeptOf(numCases: int, numControls: int, risks: seq<real>, locus: nat, stream: seq<Candidate>): seq<Individual>
    requires |risks| == 3 && forall k :: 0 <= k < |stream| ==> Diploid(stream[k].genotype, locus)
  {
    if stream == [] then []
    else
      var prev := stream[..|stream| - 1];
      var last := stream[|stream| - 1];
      var d := DrawOf(risks, locus, last.genotype, last.draw);
      KeptOf(numCases, numControls, risks, locus, prev)
        + if Keeps(Run(numCases, numControls, DrawsOf(risks, locus, prev)), numCases, numControls, d.affected)
          then [Individual(d.affected, last.genotype)] else []
  }

  /** Consuming one more candidate appends it to the kept offspring exactly
      when the callback keeps it. */
  lemma KeptExtend(numCases: int, numControls: int, risks: seq<real>, locus: nat, stream: seq<Candidate>, i: nat)
    requires |risks| == 3 && forall k :: 0 <= k < |stream| ==> Diploid(stream[k].genotype, locus)
    requires i < |stream|
    ensures var d := DrawOf(risks, locus, stream[i].genotype, stream[i].draw);
      KeptOf(numCases, numControls, risks, locus, stream[..i + 1])
      == KeptOf(numCases, numControls, risks, locus, stream[..i])
         + if Keeps(Run(numCases, numControls, DrawsOf(risks, locus, stream[..i])), numCases, numControls, d.affected)
           then [Individual(d.affected, stream[i].genotype)] else []
  {
    assert stream[..i + 1][..i] == stream[..i];
  }

  /** The kept offspring agree with the counters: as many as the kept cases
      and controls, and as many affected ones as kept cases. */
  lemma {:induction false} KeptCounts(numCases: int, numControls: int, risks: seq<real>, locus: nat, stream: seq<Candidate>)
    requires |risks| == 3 && forall k :: 0 <= k < |stream| ==> Diploid(stream[k].genotype, locus)
    ensures var c := Run(numCases, numControls, DrawsOf(risks, locus, stream));
      var kept := KeptOf(numCases, numControls, risks, locus, stream);
      |kept| == c.selectedCase + c.selectedControl && AffectedCount(kept) == c.selectedCase
  {
    if stream != [] {
      var n := |stream| - 1;
      var prev := stream[..n];
      KeptCounts(numCases, numControls, risks, locus, prev);
      RunExtend(numCases, numControls, risks, locus, stream, n);
      assert stream[..n + 1] == stream;
      var c0 := Run(numCases, numControls, DrawsOf(risks, locus, prev));
      var d := DrawOf(risks, locus, stream[n].genotype, stream[n].draw);
      StepEffect(c0, numCases, numControls, d);
      var before := KeptOf(numCases, numControls, risks, locus, prev);
      var keep := Keeps(c0, numCases, numControls, d.affected);
      var kept := KeptOf(numCases, numControls, risks, locus, stream);
      assert kept == before + if keep then [Individual(d.affected, stream[n].genotype)] else [];
      if keep {
        assert kept[..|kept| - 1] == before;
        assert AffectedCount(kept) == AffectedCount(before) + if d.affected then 1 else 0;
      } else {
        assert kept == before;
      }
    }
  }

  /** Once both quotas are full every later candidate is discarded: the
      kept offspring of the whole stream are those of the prefix that
      filled them. */
  lemma {:induction false} KeptAfterFull(numCases: nat, numControls: nat, risks: seq<real>, locus: nat,
                                         stream: seq<Candidate>, j: nat)
    requires |risks| == 3 && forall k :: 0 <= k < |stream| ==> Diploid(stream[k].genotype, locus)
    requires j <= |stream|
    requires var c := Run(numCases, numControls, DrawsOf(risks, locus, stream[..j]));
      c.selectedCase == numCases && c.selectedControl == numControls
    ensures KeptOf(numCases, numControls, risks, locus, stream) == KeptOf(numCases, numControls, risks, locus, stream[..j])
    ensures var c := Run(numCases, numControls, DrawsOf(risks, locus, stream));
      c.selectedCase == numCases && c.selectedControl == numControls
    decreases |stream|
  {
    if j == |stream| {
      assert stream[..j] == stream;
    } else {
      var n := |stream| - 1;
      var prev := stream[..n];
      assert prev[..j] == stream[..j];
      KeptAfterFull(numCases, numControls, risks, locus, prev, j);
      FullStep(numCases, numControls, risks, locus, stream);
    }
  }

  /** A candidate offered once both quotas are full is discarded. */
  lemma FullStep(numCases: nat, numControls: nat, risks: seq<real>, locus: nat, stream: seq<Candidate>)
    requires |risks| == 3 && forall k :: 0 <= k < |stream| ==> Diploid(stream[k].genotype, locus)
    requires |stream| > 0
    requires var c := Run(numCases, numControls, DrawsOf(risks, locus, stream[..|stream| - 1]));
      c.selectedCase == numCases && c.selectedControl == numControls
    ensures KeptOf(numCases, numControls, risks, locus, stream)
         == KeptOf(numCases, numControls, risks, locus, stream[..|stream| - 1])
    ensures var c := Run(numCases, numControls, DrawsOf(risks, locus, stream));
      c.selectedCase == numCases && c.selectedControl == numControls
  {
    var n := |stream| - 1;
    RunExtend(numCases, numControls, risks, locus, stream, n);
    KeptExtend(numCases, numControls, risks, locus, stream, n);
    assert stream[..n + 1] == stream;
  }

  /** `reppop.evolve(...)` with the callback as its only selecting operator:
      offspring are offered one by one until `numCases + numControls` are
      kept or the stream runs out. Returns the kept offspring in order and
      the number of candidates consumed. */
  method Evolve(cfg: Globals, locus: nat, stream: seq<Candidate>) returns (offspring: seq<Individual>, used: nat)
    requires cfg.Idle() && |cfg.risks| == 3 && cfg.numCases >= 0 && cfg.numControls >= 0
    requires forall k :: 0 <= k < |stream| ==> Diploid(stream[k].genotype, locus)
    modifies cfg
    ensures cfg.risks == old(cfg.risks) && cfg.numCases == old(cfg.numCases) && cfg.numControls == old(cfg.numControls)
    ensures used <= |stream|
    ensures cfg.Counts() == Run(cfg.numCases, cfg.numControls, DrawsOf(cfg.risks, locus, stream[..used]))
    ensures |offspring| == cfg.selectedCase + cfg.selectedControl && AffectedCount(offspring) == cfg.selectedCase
    ensures |offspring| < cfg.numCases + cfg.numControls ==> used == |stream|
    ensures offspring == KeptOf(cfg.numCases, cfg.numControls, cfg.risks, locus, stream[..used])
  {
    var subPopSize := cfg.numCases + cfg.numControls;
    offspring := [];
    used := 0;
    while used < |stream| && |offspring| < subPopSize
      invariant 0 <= used <= |stream|
      invariant cfg.risks == old(cfg.risks) && cfg.numCases == old(cfg.numCases) && cfg.numControls == old(cfg.numControls)
      invariant cfg.Counts() == Run(cfg.numCases, cfg.numControls, DrawsOf(cfg.risks, locus, stream[..used]))
      invariant offspring == KeptOf(cfg.numCases, cfg.numControls, cfg.risks, locus, stream[..used])
    {
      var off := new Offspring(stream[used].genotype);
      var kept := SelectInds(cfg, off, locus, stream[used].draw);
      RunExtend(cfg.numCases, cfg.numControls, cfg.risks, locus, stream, used);
      KeptExtend(cfg.numCases, cfg.numControls, cfg.risks, locus, stream, used);
      if kept {
        offspring := offspring + [off.Value()];
      }
      used := used + 1;
    }
    KeptCounts(cfg.numCases, cfg.numControls, cfg.risks, locus, stream[..used]);
  }

  /** What the counters after `evolve` say about the generation: it is
      never over-full, a full one holds exactly `numCases` cases, and one that
      is short consumed the whole stream without filling both quotas. */
  lemma GenerationOutcome(numCases: nat, numControls: nat, risks: seq<real>, locus: nat, stream: seq<Candidate>,
                          used: nat, c: Counters)
    requires |risks| == 3 && forall k :: 0 <= k < |stream| ==> Diploid(stream[k].genotype, locus)
    requires used <= |stream| && c == Run(numCases, numControls, DrawsOf(risks, locus, stream[..used]))
    requires c.selectedCase + c.selectedControl < numCases + numControls ==> used == |stream|
    ensures c.selectedCase + c.selectedControl <= numCases + numControls
    ensures c.selectedCase + c.selectedControl == numCases + numControls ==> c.selectedCase == numCases
    ensures c.selectedCase + c.selectedControl < numCases + numControls ==>
      var f := Run(numCases, numControls, DrawsOf(risks, locus, stream));
      f.selectedCase + f.selectedControl < numCases + numControls
  {
    RunInvariant(numCases, numControls, DrawsOf(risks, locus, stream[..used]));
    if used == |stream| {
      assert stream[..used] == stream;
    }
  }

  /** `penetrance(pop, DPL, GRR, wtr, numCases, numControls)`: set the risk
      table and the targets, let the mating scheme fill a generation of
      `numCases + numControls` kept offspring, then zero the counters from
      the tuple `reset()` returns. `locus` is the index of the first disease
      locus; a stream that ends before both quotas fill is a failure here,
      where simuPOP would go on mating. */
  method Penetrance(cfg: Globals, locus: nat, grr: real, wtr: real, numCases: nat, numControls: nat,
                    stream: seq<Candidate>) returns (r: Result<seq<Individual>, string>)
    requires cfg.Idle()
    requires forall k :: 0 <= k < |stream| ==> Diploid(stream[k].genotype, locus)
    modifies cfg
    ensures cfg.Idle()
    ensures cfg.risks == RiskTable(wtr, grr) && cfg.numCases == numCases && cfg.numControls == numControls
    ensures r.Success? ==> |r.value| == numCases + numControls && AffectedCount(r.value) == numCases
    ensures r.Success? ==> r.value == KeptOf(numCases, numControls, RiskTable(wtr, grr), locus, stream)
    ensures var c := Run(numCases, numControls, DrawsOf(RiskTable(wtr, grr), locus, stream));
      r.Success? <==> c.selectedCase + c.selectedControl == numCases + numControls
  {
    cfg.risks := RiskTable(wtr, grr);
    cfg.numCases := numCases;
    cfg.numControls := numControls;

    var offspring, used := Evolve(cfg, locus, stream);
    GenerationOutcome(numCases, numControls, cfg.risks, locus, stream, used, cfg.Counts());
    if |offspring| == numCases + numControls {
      FilledIffBothQuotasFull(numCases, numControls, DrawsOf(cfg.risks, locus, stream[..used]));
      KeptAfterFull(numCases, numControls, cfg.risks, locus, stream, used);
    } else {
      RunInvariant(numCases, numControls, DrawsOf(cfg.risks, locus, stream));
    }
    r := if |offspring| < numCases + numControls then Failure("the candidate stream ended before both quotas were filled")
         else Success(offspring);
    ResetCounters(cfg);
  }

  /** Assigning the tuple `reset()` returns to the five counters. */
  method ResetCounters(cfg: Globals)
    modifies cfg
    ensures cfg.Idle()
    ensures cfg.risks == old(cfg.risks) && cfg.numCases == old(cfg.numCases) && cfg.numControls == old(cfg.numControls)
  {
    cfg.selectedCase, cfg.selectedControl, cfg.discardedInds, cfg.numWtCases, cfg.numMutControls := Reset();
  }
}
