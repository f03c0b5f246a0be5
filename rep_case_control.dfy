/** What `rep_case_control` derives for each point of the replication grid:
    the expanded population it loads, the path it writes the sample to, and
    the wild-type risk, genotype relative risk and number of controls it
    sets on the case/control options. */
module CaseControlGrid {
  import opened Wrappers
  import opened Text
  import opened Replicator

  /** The options `rep_case_control` sets before one `penetrance` call. */
  datatype Job = Job(expandPop: string, sampledPop: string, wtr: real, grr: real, numControls: real)

  /** `"%s/%s.pop" % (maf_dir, maf_dir)`: the expanded population of one MAF
      level and replicate, inside its own directory. */
  function ExpandPop(mafDir: string): (s: string)
    ensures s == PathMaker(mafDir, [mafDir + ".pop"])
  {
    mafDir + "/" + mafDir + ".pop"
  }

  /** `os.path.join(dirpath, "sample.pop")`; the directory never ends in a
      slash (its last character is a replicate digit). */
  function SamplePop(dirpath: string): string {
    dirpath + "/sample.pop"
  }

  /** The options for grid point `q`; a dummy for a point outside the grid,
      which the enumeration never produces. */
  function JobAt(lv: Levels, q: seq<Coord>): Job {
    if InJobGrid(lv, q) then
      Job(ExpandPop(MafDir(lv, q[0])), SamplePop(JobDir(lv, q)),
          lv.wtrs[q[2].level], lv.grrs[q[3].level], lv.ccs[q[1].level])
    else Job("", "", 0.0, 0.0, 0.0)
  }

  /** The options of a point, as a function value for the enumeration. */
  function JobLeaf(lv: Levels): seq<Coord> -> Job {
    q => JobAt(lv, q)
  }

  /** The options of every grid point, in the order of the nested loops. */
  function Jobs(p: RepParams, lv: Levels): seq<Job> {
    Map(JobLeaf(lv), Points(JobShape(p, lv), []))
  }

  /** `q` is a point of the parameter grid: a level and a replicate of each
      of MAF, control count, WTR and GRR. */
  predicate OnJobGrid(p: RepParams, lv: Levels, q: seq<Coord>) {
    && InJobGrid(lv, q)
    && q[0].rep < Clamp(p.mafReplicates) && q[1].rep < Clamp(p.ccReplicates)
    && q[2].rep < Clamp(p.wtrReplicates) && q[3].rep < Clamp(p.grrReplicates)
  }

  lemma OnJobGridFits(p: RepParams, lv: Levels, q: seq<Coord>)
    ensures OnJobGrid(p, lv, q) <==> Fits(JobShape(p, lv), [], q)
  {
    var d := JobShape(p, lv);
    if Fits(d, [], q) {
      assert q[0].level < d[0].levels && q[0].rep < d[0].reps;
      assert q[1].level < d[1].levels && q[1].rep < d[1].reps;
      assert q[2].level < d[2].levels && q[2].rep < d[2].reps;
      assert q[3].level < d[3].levels && q[3].rep < d[3].reps;
    }
  }

  lemma JobShapeVolume(p: RepParams, lv: Levels)
    ensures Volume(JobShape(p, lv)) ==
      (|lv.mafs| * Clamp(p.mafReplicates)) * ((|lv.ccs| * Clamp(p.ccReplicates)) *
      ((|lv.wtrs| * Clamp(p.wtrReplicates)) * (|lv.grrs| * Clamp(p.grrReplicates))))
  {
    var d := JobShape(p, lv);
    assert d[3..] == [d[3]] + [];
    VolumeCons(d[3], []);
    assert d[2..] == [d[2]] + d[3..];
    VolumeCons(d[2], d[3..]);
    assert d[1..] == [d[1]] + d[2..];
    VolumeCons(d[1], d[2..]);
  }

  /** `rep_case_control` runs one sampling per MAF level and replicate,
      control count level and replicate, WTR level and replicate, and GRR
      level and replicate. */
  lemma JobsCount(p: RepParams, lv: Levels)
    ensures |Jobs(p, lv)| ==
      (|lv.mafs| * Clamp(p.mafReplicates)) * ((|lv.ccs| * Clamp(p.ccReplicates)) *
      ((|lv.wtrs| * Clamp(p.wtrReplicates)) * (|lv.grrs| * Clamp(p.grrReplicates))))
  {
    PointsCount(JobShape(p, lv), []);
    JobShapeVolume(p, lv);
  }

  /** Every grid point gets a job, and every job is that of a grid point. */
  lemma JobsMember(p: RepParams, lv: Levels, q: seq<Coord>)
    requires OnJobGrid(p, lv, q)
    ensures JobAt(lv, q) in Jobs(p, lv)
  {
    OnJobGridFits(p, lv, q);
    PointsMember(JobShape(p, lv), [], q);
    var ps := Points(JobShape(p, lv), []);
    var i :| 0 <= i < |ps| && ps[i] == q;
    assert Jobs(p, lv)[i] == JobAt(lv, q);
  }

  lemma JobsOnly(p: RepParams, lv: Levels, i: nat)
    requires i < |Jobs(p, lv)|
    ensures exists q :: OnJobGrid(p, lv, q) && Jobs(p, lv)[i] == JobAt(lv, q)
  {
    var ps := Points(JobShape(p, lv), []);
    var q := ps[i];
    PointsMember(JobShape(p, lv), [], q);
    OnJobGridFits(p, lv, q);
  }

  /** For a grid point, the population is read from `<maf>/<maf>.pop`, the
      sample goes to `<maf>/<cc>/<wtr>/<grr>/sample.pop`, and the risks and
      the control count are that point's levels. */
  lemma JobAtPaths(lv: Levels, q: seq<Coord>)
    requires InJobGrid(lv, q)
    ensures var job := JobAt(lv, q);
      && job.expandPop == PathMaker(MafDir(lv, q[0]), [MafDir(lv, q[0]) + ".pop"])
      && job.sampledPop == PathMaker(MafDir(lv, q[0]), [CcDir(lv, q[1]), WtrDir(lv, q[2]), GrrDir(lv, q[3]), "sample.pop"])
      && job.wtr == lv.wtrs[q[2].level] && job.grr == lv.grrs[q[3].level] && job.numControls == lv.ccs[q[1].level]
  {
    PathMakerExtend(MafDir(lv, q[0]), [CcDir(lv, q[1]), WtrDir(lv, q[2]), GrrDir(lv, q[3])], "sample.pop");
    assert [CcDir(lv, q[1]), WtrDir(lv, q[2]), GrrDir(lv, q[3])] + ["sample.pop"] ==
      [CcDir(lv, q[1]), WtrDir(lv, q[2]), GrrDir(lv, q[3]), "sample.pop"];
  }

  /** The directory a sample is written into is one `dir_setup` creates
      along with the directory of any program below it. */
  lemma SampleDirMade(p: RepParams, lv: Levels, q: seq<Coord>, prog: nat)
    requires InJobGrid(lv, q) && prog < |p.formatters|
    ensures JobDir(lv, q) in Made(DirPath(p, lv, q + [Coord(prog, 0)]))
  {
    var q' := q + [Coord(prog, 0)];
    assert InDirGrid(p, lv, q') && q'[..4] == q;
    var args := [CcDir(lv, q[1]), WtrDir(lv, q[2]), GrrDir(lv, q[3])];
    PathMakerExtend(MafDir(lv, q[0]), args, p.formatters[prog]);
    assert args + [p.formatters[prog]] == [CcDir(lv, q'[1]), WtrDir(lv, q'[2]), GrrDir(lv, q'[3]), p.formatters[q'[4].level]];
    var path := DirPath(p, lv, q');
    var d := JobDir(lv, q);
    assert path == d + "/" + p.formatters[prog];
    assert path[|d|] == '/' && path[..|d|] == d;
  }

  /** The options of a grid point are built from the names and levels of
      its coordinates. */
  lemma JobLeafAt(lv: Levels, q: seq<Coord>)
    requires InJobGrid(lv, q)
    ensures JobLeaf(lv)(q) ==
      Job(ExpandPop(MafDir(lv, q[0])), SamplePop(PathMaker(MafDir(lv, q[0]), [CcDir(lv, q[1]), WtrDir(lv, q[2]), GrrDir(lv, q[3])])),
          lv.wtrs[q[2].level], lv.grrs[q[3].level], lv.ccs[q[1].level])
  {
    assert JobLeaf(lv)(q) == JobAt(lv, q);
  }

  /** The same, for the points in the form the loops of `rep_case_control`
      build them. */
  lemma JobLeafNames(lv: Levels)
    ensures forall maf: nat, mafRep: nat, cc: nat, ccRep: nat, wtr: nat, wtrRep: nat, grr: nat, grrRep: nat
      {:trigger JobLeaf(lv)([] + [Coord(maf, mafRep)] + [Coord(cc, ccRep)] + [Coord(wtr, wtrRep)] + [Coord(grr, grrRep)])}
      | maf < |lv.mafs| && cc < |lv.ccs| && wtr < |lv.wtrs| && grr < |lv.grrs| ::
      JobLeaf(lv)([] + [Coord(maf, mafRep)] + [Coord(cc, ccRep)] + [Coord(wtr, wtrRep)] + [Coord(grr, grrRep)]) ==
      Job(ExpandPop(MafDir(lv, Coord(maf, mafRep))),
          SamplePop(PathMaker(MafDir(lv, Coord(maf, mafRep)),
                              [CcDir(lv, Coord(cc, ccRep)), WtrDir(lv, Coord(wtr, wtrRep)), GrrDir(lv, Coord(grr, grrRep))])),
          lv.wtrs[wtr], lv.grrs[grr], lv.ccs[cc])
  {
    forall maf: nat, mafRep: nat, cc: nat, ccRep: nat, wtr: nat, wtrRep: nat, grr: nat, grrRep: nat
      | maf < |lv.mafs| && cc < |lv.ccs| && wtr < |lv.wtrs| && grr < |lv.grrs|
      ensures JobLeaf(lv)([] + [Coord(maf, mafRep)] + [Coord(cc, ccRep)] + [Coord(wtr, wtrRep)] + [Coord(grr, grrRep)]) ==
        Job(ExpandPop(MafDir(lv, Coord(maf, mafRep))),
            SamplePop(PathMaker(MafDir(lv, Coord(maf, mafRep)),
                                [CcDir(lv, Coord(cc, ccRep)), WtrDir(lv, Coord(wtr, wtrRep)), GrrDir(lv, Coord(grr, grrRep))])),
            lv.wtrs[wtr], lv.grrs[grr], lv.ccs[cc])
    {
      var q := [] + [Coord(maf, mafRep)] + [Coord(cc, ccRep)] + [Coord(wtr, wtrRep)] + [Coord(grr, grrRep)];
      assert q == [Coord(maf, mafRep), Coord(cc, ccRep), Coord(wtr, wtrRep), Coord(grr, grrRep)];
      JobLeafAt(lv, q);
    }
  }

  /** `rep_case_control(rep_opt)`. The level lists exist only once
      `dir_setup` has run; before that the attribute lookup fails. The
      nested loops are the methods below, each of which appends the values
      of `leaf`, the options of a grid point, for the points below the
      coordinates `pre` of the loops around it. */
  method RepCaseControl(o: RepOptions) returns (r: Result<seq<Job>, string>)
    ensures o.levels.None? ==> r == Failure("AttributeError")
    ensures o.levels.Some? ==> r == Success(Jobs(o.params, o.levels.value))
  {
    if o.levels.None? {
      return Failure("AttributeError");
    }
    var p := o.params;
    var lv := o.levels.value;
    JobLeafNames(lv);
    var jobs := AppendMafJobs(p, lv, JobLeaf(lv), []);
    EnumPoints(JobShape(p, lv), JobLeaf(lv), []);
    assert JobShape(p, lv)[0..] == JobShape(p, lv);
    assert [] + Enum(JobShape(p, lv), JobLeaf(lv), []) == Enum(JobShape(p, lv), JobLeaf(lv), []);
    assert jobs == Jobs(p, lv);
    r := Success(jobs);
  }

  /** The MAF level and replicate loops of `rep_case_control`, with the
      population of each MAF directory. */
  method AppendMafJobs(p: RepParams, lv: Levels, ghost leaf: seq<Coord> -> Job, jobs: seq<Job>)
    returns (jobs': seq<Job>)
    requires forall maf: nat, mafRep: nat, cc: nat, ccRep: nat, wtr: nat, wtrRep: nat, grr: nat, grrRep: nat
      {:trigger leaf([] + [Coord(maf, mafRep)] + [Coord(cc, ccRep)] + [Coord(wtr, wtrRep)] + [Coord(grr, grrRep)])}
      | maf < |lv.mafs| && cc < |lv.ccs| && wtr < |lv.wtrs| && grr < |lv.grrs| ::
      leaf([] + [Coord(maf, mafRep)] + [Coord(cc, ccRep)] + [Coord(wtr, wtrRep)] + [Coord(grr, grrRep)]) ==
      Job(ExpandPop(MafDir(lv, Coord(maf, mafRep))),
          SamplePop(PathMaker(MafDir(lv, Coord(maf, mafRep)),
                              [CcDir(lv, Coord(cc, ccRep)), WtrDir(lv, Coord(wtr, wtrRep)), GrrDir(lv, Coord(grr, grrRep))])),
          lv.wtrs[wtr], lv.grrs[grr], lv.ccs[cc])
    ensures jobs' == jobs + Enum(JobShape(p, lv), leaf, [])
  {
    jobs' := jobs;
    var maf := 0;
    while maf < |lv.mafs|
      invariant maf <= |lv.mafs|
      invariant jobs' == jobs + EnumLevels(JobShape(p, lv), leaf, [], maf)
    {
      ghost var s0 := jobs';
      var mafRep := 0;
      while mafRep < p.mafReplicates
        invariant mafRep <= Clamp(p.mafReplicates)
        invariant jobs' == s0 + EnumReps(JobShape(p, lv), leaf, [], maf, mafRep)
      {
        var mafDir := MafDir(lv, Coord(maf, mafRep));
        var expandPop := mafDir + "/" + mafDir + ".pop";
        ghost var before := jobs';
        jobs' := AppendCcJobs(p, lv, mafDir, expandPop, [] + [Coord(maf, mafRep)], leaf, jobs');
        EnumRepsStep(JobShape(p, lv), leaf, [], maf, mafRep, s0, before, jobs');
        mafRep := mafRep + 1;
      }
      EnumLevelsStep(JobShape(p, lv), leaf, [], maf, jobs, s0, jobs');
      maf := maf + 1;
    }
  }

  /** The control-count loops of `rep_case_control` below one MAF directory. */
  method AppendCcJobs(p: RepParams, lv: Levels, mafDir: string, expandPop: string,
                      ghost pre: seq<Coord>, ghost leaf: seq<Coord> -> Job, jobs: seq<Job>)
    returns (jobs': seq<Job>)
    requires |pre| == 1
    requires forall cc: nat, ccRep: nat, wtr: nat, wtrRep: nat, grr: nat, grrRep: nat
      {:trigger leaf(pre + [Coord(cc, ccRep)] + [Coord(wtr, wtrRep)] + [Coord(grr, grrRep)])}
      | cc < |lv.ccs| && wtr < |lv.wtrs| && grr < |lv.grrs| ::
      leaf(pre + [Coord(cc, ccRep)] + [Coord(wtr, wtrRep)] + [Coord(grr, grrRep)]) ==
      Job(expandPop, SamplePop(PathMaker(mafDir, [CcDir(lv, Coord(cc, ccRep)), WtrDir(lv, Coord(wtr, wtrRep)), GrrDir(lv, Coord(grr, grrRep))])),
          lv.wtrs[wtr], lv.grrs[grr], lv.ccs[cc])
    ensures jobs' == jobs + Enum(JobShape(p, lv), leaf, pre)
  {
    jobs' := jobs;
    var cc := 0;
    while cc < |lv.ccs|
      invariant cc <= |lv.ccs|
      invariant jobs' == jobs + EnumLevels(JobShape(p, lv), leaf, pre, cc)
    {
      ghost var s0 := jobs';
      var ccRep := 0;
      while ccRep < p.ccReplicates
        invariant ccRep <= Clamp(p.ccReplicates)
        invariant jobs' == s0 + EnumReps(JobShape(p, lv), leaf, pre, cc, ccRep)
      {
        var ccDir := CcDir(lv, Coord(cc, ccRep));
        ghost var before := jobs';
        jobs' := AppendWtrJobs(p, lv, cc, mafDir, ccDir, expandPop, pre + [Coord(cc, ccRep)], leaf, jobs');
        EnumRepsStep(JobShape(p, lv), leaf, pre, cc, ccRep, s0, before, jobs');
        ccRep := ccRep + 1;
      }
      EnumLevelsStep(JobShape(p, lv), leaf, pre, cc, jobs, s0, jobs');
      cc := cc + 1;
    }
  }

  /** The WTR loops of `rep_case_control`. */
  method AppendWtrJobs(p: RepParams, lv: Levels, cc: nat, mafDir: string, ccDir: string, expandPop: string,
                       ghost pre: seq<Coord>, ghost leaf: seq<Coord> -> Job, jobs: seq<Job>)
    returns (jobs': seq<Job>)
    requires |pre| == 2 && cc < |lv.ccs|
    requires forall wtr: nat, wtrRep: nat, grr: nat, grrRep: nat
      {:trigger leaf(pre + [Coord(wtr, wtrRep)] + [Coord(grr, grrRep)])}
      | wtr < |lv.wtrs| && grr < |lv.grrs| ::
      leaf(pre + [Coord(wtr, wtrRep)] + [Coord(grr, grrRep)]) ==
      Job(expandPop, SamplePop(PathMaker(mafDir, [ccDir, WtrDir(lv, Coord(wtr, wtrRep)), GrrDir(lv, Coord(grr, grrRep))])),
          lv.wtrs[wtr], lv.grrs[grr], lv.ccs[cc])
    ensures jobs' == jobs + Enum(JobShape(p, lv), leaf, pre)
  {
    jobs' := jobs;
    var wtr := 0;
    while wtr < |lv.wtrs|
      invariant wtr <= |lv.wtrs|
      invariant jobs' == jobs + EnumLevels(JobShape(p, lv), leaf, pre, wtr)
    {
      ghost var s0 := jobs';
      var wtrRep := 0;
      while wtrRep < p.wtrReplicates
        invariant wtrRep <= Clamp(p.wtrReplicates)
        invariant jobs' == s0 + EnumReps(JobShape(p, lv), leaf, pre, wtr, wtrRep)
      {
        var wtrDir := WtrDir(lv, Coord(wtr, wtrRep));
        ghost var before := jobs';
        jobs' := AppendGrrJobs(p, lv, cc, wtr, mafDir, ccDir, wtrDir, expandPop, pre + [Coord(wtr, wtrRep)], leaf, jobs');
        EnumRepsStep(JobShape(p, lv), leaf, pre, wtr, wtrRep, s0, before, jobs');
        wtrRep := wtrRep + 1;
      }
      EnumLevelsStep(JobShape(p, lv), leaf, pre, wtr, jobs, s0, jobs');
      wtr := wtr + 1;
    }
  }

  /** The GRR loops of `rep_case_control`: one `penetrance` call per GRR
      level and replicate, with the options taken from the levels of the
      enclosing loops. */
  method AppendGrrJobs(p: RepParams, lv: Levels, cc: nat, wtr: nat, mafDir: string, ccDir: string, wtrDir: string,
                       expandPop: string, ghost pre: seq<Coord>, ghost leaf: seq<Coord> -> Job, jobs: seq<Job>)
    returns (jobs': seq<Job>)
    requires |pre| == 3 && cc < |lv.ccs| && wtr < |lv.wtrs|
    requires forall grr: nat, grrRep: nat {:trigger leaf(pre + [Coord(grr, grrRep)])} | grr < |lv.grrs| ::
      leaf(pre + [Coord(grr, grrRep)]) ==
      Job(expandPop, SamplePop(PathMaker(mafDir, [ccDir, wtrDir, GrrDir(lv, Coord(grr, grrRep))])),
          lv.wtrs[wtr], lv.grrs[grr], lv.ccs[cc])
    ensures jobs' == jobs + Enum(JobShape(p, lv), leaf, pre)
  {
    jobs' := jobs;
    var grr := 0;
    while grr < |lv.grrs|
      invariant grr <= |lv.grrs|
      invariant jobs' == jobs + EnumLevels(JobShape(p, lv), leaf, pre, grr)
    {
      ghost var s0 := jobs';
      var grrRep := 0;
      while grrRep < p.grrReplicates
        invariant grrRep <= Clamp(p.grrReplicates)
        invariant jobs' == s0 + EnumReps(JobShape(p, lv), leaf, pre, grr, grrRep)
      {
        var grrDir := GrrDir(lv, Coord(grr, grrRep));
        var dirpath := PathMaker(mafDir, [ccDir, wtrDir, grrDir]);
        var job := Job(expandPop, SamplePop(dirpath), lv.wtrs[wtr], lv.grrs[grr], lv.ccs[cc]);
        ghost var before := jobs';
        jobs' := jobs' + [job];
        EnumLastRep(JobShape(p, lv), leaf, pre, grr, grrRep, s0, before, jobs');
        grrRep := grrRep + 1;
      }
      assert grrRep == JobShape(p, lv)[|pre|].reps;
      EnumLevelsStep(JobShape(p, lv), leaf, pre, grr, jobs, s0, jobs');
      grr := grr + 1;
    }
  }
}
