/** The replication grid: evenly spaced parameter levels, the directory names
    built from them, the nested enumeration of grid points, directory creation
    with a tally of new directories, and the per-point parameters of the
    case/control sampling. */
module Replicator {
  import opened Wrappers
  import opened Text
  import opened Files

  /** The number of rounds of `xrange(n)`: none when `n` is not positive. */
  function Clamp(n: int): nat {
    if n < 0 then 0 else n
  }

  /** `float_range(low, high, leng)`: one level gives `[high]`; otherwise
      `leng` values from `low` with step `(high - low) / (leng - 1)`. */
  function FloatRange(low: real, high: real, leng: int): (r: seq<real>)
    ensures |r| == Clamp(leng)
    ensures leng == 1 ==> r == [high]
  {
    if leng == 1 then [high]
    else
      var step := (high - low) / ((leng - 1) as real);
      seq(Clamp(leng), i requires 0 <= i < Clamp(leng) => low + (i as real) * step)
  }

  /** With two or more levels the list starts at `low`, ends at `high` and
      every two neighbours are one step apart. */
  lemma FloatRangeEnds(low: real, high: real, leng: int)
    requires leng >= 2
    ensures var r := FloatRange(low, high, leng);
      && r[0] == low && r[leng - 1] == high
      && forall i :: 0 <= i < leng - 1 ==> r[i + 1] - r[i] == (high - low) / ((leng - 1) as real)
  {
    var r := FloatRange(low, high, leng);
    var n := (leng - 1) as real;
    var step := (high - low) / n;
    assert n * step == high - low;
    assert r[leng - 1] == low + n * step;
    forall i | 0 <= i < leng - 1
      ensures r[i + 1] - r[i] == step
    {
      assert ((i + 1) as real) * step == (i as real) * step + step;
    }
  }

  lemma NonPositiveProduct(x: real, y: real)
    requires 0.0 <= x && y <= 0.0
    ensures x * y <= 0.0
  {
    if x > 0.0 && y < 0.0 {
      assert x * y < x * 0.0;
    }
  }

  /** `dir_setup` passes the high bound as `low` and the low bound as
      `high`: the last level is the low bound (the only one for a single
      step), the first is the high bound when there are two or more, and
      the levels never rise when the bounds are in order. */
  lemma {:induction false} DirSetupLevels(hi: real, lo: real, steps: int)
    requires steps >= 1
    ensures var r := FloatRange(hi, lo, steps);
      && r[|r| - 1] == lo
      && (steps >= 2 ==> r[0] == hi)
      && (lo <= hi ==> forall i, j :: 0 <= i <= j < |r| ==> r[j] <= r[i])
  {
    var r := FloatRange(hi, lo, steps);
    if steps >= 2 {
      FloatRangeEnds(hi, lo, steps);
      if lo <= hi {
        var n := (steps - 1) as real;
        var step := (lo - hi) / n;
        assert step * n == lo - hi;
        assert step <= 0.0;
        forall i, j | 0 <= i <= j < |r|
          ensures r[j] <= r[i]
        {
          NonPositiveProduct(((j - i) as real), step);
          assert r[j] - r[i] == ((j - i) as real) * step;
        }
      }
    }
  }

  /** `path_maker(outer, *args)`: the outer directory, a slash, then the
      other names joined by slashes. */
  function PathMaker(outer: string, args: seq<string>): (p: string)
    ensures |p| > |outer| && p[..|outer|] == outer && p[|outer|] == '/'
  {
    outer + "/" + Join(args, "/")
  }

  /** Splitting a made path on '/' gives back its segments when none of
      them holds a slash. */
  lemma PathMakerSplit(outer: string, args: seq<string>)
    requires |args| >= 1
    requires '/' !in outer && forall i :: 0 <= i < |args| ==> '/' !in args[i]
    ensures Split(PathMaker(outer, args), '/') == [outer] + args
  {
    var parts := [outer] + args;
    assert parts[1..] == args;
    assert Join(parts, "/") == PathMaker(outer, args);
    SplitJoin(parts, '/');
  }

  /** Two paths made from slash-free segments are equal only when their
      segments are. */
  lemma PathMakerInjective(o1: string, a1: seq<string>, o2: string, a2: seq<string>)
    requires |a1| >= 1 && |a2| >= 1
    requires '/' !in o1 && forall i :: 0 <= i < |a1| ==> '/' !in a1[i]
    requires '/' !in o2 && forall i :: 0 <= i < |a2| ==> '/' !in a2[i]
    requires PathMaker(o1, a1) == PathMaker(o2, a2)
    ensures o1 == o2 && a1 == a2
  {
    PathMakerSplit(o1, a1);
    PathMakerSplit(o2, a2);
    assert ([o1] + a1)[1..] == a1;
    assert ([o2] + a2)[1..] == a2;
  }

  /** Adding one more name to a made path appends a slash and that name. */
  lemma PathMakerExtend(outer: string, args: seq<string>, x: string)
    requires |args| >= 1
    ensures PathMaker(outer, args + [x]) == PathMaker(outer, args) + "/" + x
  {
    JoinSnoc(args, "/", x);
  }

  /** One nesting level of the grid: how many levels it has and how many
      replicates each level gets. */
  datatype Shape = Shape(levels: nat, reps: nat)

  /** A position in one nesting level: the level index and the 0-based replicate. */
  datatype Coord = Coord(level: nat, rep: nat)

  /** Every completion of `prefix` by one coordinate per remaining level, in
      the order of the nested loops: levels outside, replicates inside them,
      the later nesting levels innermost. */
  function Points(dims: seq<Shape>, prefix: seq<Coord>): seq<seq<Coord>>
    decreases |dims|, 2, 0
  {
    if dims == [] then [prefix] else LevelsBlock(dims, prefix, dims[0].levels)
  }

  /** The first `k` levels of the outermost remaining dimension. */
  function LevelsBlock(dims: seq<Shape>, prefix: seq<Coord>, k: nat): seq<seq<Coord>>
    requires dims != []
    decreases |dims|, 1, k
  {
    if k == 0 then [] else LevelsBlock(dims, prefix, k - 1) + RepsBlock(dims, prefix, k - 1, dims[0].reps)
  }

  /** The first `r` replicates of level `l` of the outermost remaining dimension. */
  function RepsBlock(dims: seq<Shape>, prefix: seq<Coord>, l: nat, r: nat): seq<seq<Coord>>
    requires dims != []
    decreases |dims|, 0, r
  {
    if r == 0 then [] else RepsBlock(dims, prefix, l, r - 1) + Points(dims[1..], prefix + [Coord(l, r - 1)])
  }

  /** The number of grid points: the product of levels times replicates. */
  function Volume(dims: seq<Shape>): nat {
    if dims == [] then 1 else dims[0].levels * dims[0].reps * Volume(dims[1..])
  }

  lemma {:induction false} PointsCount(dims: seq<Shape>, prefix: seq<Coord>)
    ensures |Points(dims, prefix)| == Volume(dims)
    decreases |dims|, 2, 0
  {
    if dims != [] {
      LevelsCount(dims, prefix, dims[0].levels);
      assert dims[0].levels * (dims[0].reps * Volume(dims[1..])) == dims[0].levels * dims[0].reps * Volume(dims[1..]);
    }
  }

  lemma {:induction false} LevelsCount(dims: seq<Shape>, prefix: seq<Coord>, k: nat)
    requires dims != []
    ensures |LevelsBlock(dims, prefix, k)| == k * (dims[0].reps * Volume(dims[1..]))
    decreases |dims|, 1, k
  {
    if k > 0 {
      LevelsCount(dims, prefix, k - 1);
      RepsCount(dims, prefix, k - 1, dims[0].reps);
      var x := dims[0].reps * Volume(dims[1..]);
      assert (k - 1) * x + x == k * x;
    }
  }

  lemma {:induction false} RepsCount(dims: seq<Shape>, prefix: seq<Coord>, l: nat, r: nat)
    requires dims != []
    ensures |RepsBlock(dims, prefix, l, r)| == r * Volume(dims[1..])
    decreases |dims|, 0, r
  {
    if r > 0 {
      RepsCount(dims, prefix, l, r - 1);
      PointsCount(dims[1..], prefix + [Coord(l, r - 1)]);
    }
  }

  /** `p` is `prefix` followed by one in-range coordinate per dimension. */
  predicate Fits(dims: seq<Shape>, prefix: seq<Coord>, p: seq<Coord>) {
    && |p| == |prefix| + |dims|
    && p[..|prefix|] == prefix
    && forall i :: |prefix| <= i < |p| ==> p[i].level < dims[i - |prefix|].levels && p[i].rep < dims[i - |prefix|].reps
  }

  /** Fitting all dimensions is fitting the first one and then the rest
      after the longer prefix. */
  lemma FitsStep(dims: seq<Shape>, prefix: seq<Coord>, p: seq<Coord>)
    requires dims != []
    ensures Fits(dims, prefix, p) <==>
      && |p| > |prefix|
      && p[|prefix|].level < dims[0].levels && p[|prefix|].rep < dims[0].reps
      && Fits(dims[1..], prefix + [p[|prefix|]], p)
  {
    var n := |prefix|;
    if |p| > n {
      if p[..n] == prefix {
        assert p[..n + 1] == prefix + [p[n]];
      }
      if p[..n + 1] == prefix + [p[n]] {
        assert p[..n] == p[..n + 1][..n];
      }
    }
  }

  /** A completion is in the enumeration exactly when it fits. */
  lemma {:induction false} PointsMember(dims: seq<Shape>, prefix: seq<Coord>, p: seq<Coord>)
    ensures p in Points(dims, prefix) <==> Fits(dims, prefix, p)
    decreases |dims|, 2, 0
  {
    if dims == [] {
      if Fits(dims, prefix, p) {
        assert p == p[..|prefix|];
      }
    } else {
      LevelsMember(dims, prefix, dims[0].levels, p);
      FitsStep(dims, prefix, p);
    }
  }

  lemma {:induction false} LevelsMember(dims: seq<Shape>, prefix: seq<Coord>, k: nat, p: seq<Coord>)
    requires dims != []
    ensures p in LevelsBlock(dims, prefix, k) <==>
      && |p| > |prefix|
      && p[|prefix|].level < k && p[|prefix|].rep < dims[0].reps
      && Fits(dims[1..], prefix + [p[|prefix|]], p)
    decreases |dims|, 1, k
  {
    if k > 0 {
      LevelsMember(dims, prefix, k - 1, p);
      RepsMember(dims, prefix, k - 1, dims[0].reps, p);
    }
  }

  lemma {:induction false} RepsMember(dims: seq<Shape>, prefix: seq<Coord>, l: nat, r: nat, p: seq<Coord>)
    requires dims != []
    ensures p in RepsBlock(dims, prefix, l, r) <==>
      && |p| > |prefix|
      && p[|prefix|].level == l && p[|prefix|].rep < r
      && Fits(dims[1..], prefix + [p[|prefix|]], p)
    decreases |dims|, 0, r
  {
    if r > 0 {
      var c := Coord(l, r - 1);
      RepsMember(dims, prefix, l, r - 1, p);
      PointsMember(dims[1..], prefix + [c], p);
      FitsHead(dims[1..], prefix, c, p);
    }
  }

  /** Fitting after `prefix + [c]` fixes the coordinate after `prefix` to `c`. */
  lemma FitsHead(dims: seq<Shape>, prefix: seq<Coord>, c: Coord, p: seq<Coord>)
    ensures Fits(dims, prefix + [c], p) <==>
      |p| > |prefix| && p[|prefix|] == c && Fits(dims, prefix + [p[|prefix|]], p)
  {
    if Fits(dims, prefix + [c], p) {
      assert p[|prefix|] == p[..|prefix| + 1][|prefix|] == (prefix + [c])[|prefix|] == c;
    }
  }

  /** `leaf` of each point, in order. */
  function Map<T>(leaf: seq<Coord> -> T, ps: seq<seq<Coord>>): (r: seq<T>)
    ensures |r| == |ps| && forall i :: 0 <= i < |ps| ==> r[i] == leaf(ps[i])
  {
    if ps == [] then [] else Map(leaf, ps[..|ps| - 1]) + [leaf(ps[|ps| - 1])]
  }

  lemma MapAppend<T>(leaf: seq<Coord> -> T, a: seq<seq<Coord>>, b: seq<seq<Coord>>)
    ensures Map(leaf, a + b) == Map(leaf, a) + Map(leaf, b)
  {
    var l, r := Map(leaf, a + b), Map(leaf, a) + Map(leaf, b);
    forall i | 0 <= i < |l| ensures l[i] == r[i] {
      if i < |a| {
        assert (a + b)[i] == a[i];
      } else {
        assert (a + b)[i] == b[i - |a|];
      }
    }
  }

  /** What nested loops over `dims` append below the outer coordinates
      `prefix`: for each level of the next dimension, for each of its
      replicates, the values below the longer prefix; one `leaf` value for
      a complete point. */
  function Enum<T>(dims: seq<Shape>, leaf: seq<Coord> -> T, prefix: seq<Coord>): seq<T>
    requires |prefix| <= |dims|
    decreases |dims| - |prefix|, 2, 0
  {
    if |prefix| == |dims| then [leaf(prefix)]
    else EnumLevels(dims, leaf, prefix, dims[|prefix|].levels)
  }

  /** The first `k` rounds of the level loop of the next dimension. */
  function EnumLevels<T>(dims: seq<Shape>, leaf: seq<Coord> -> T, prefix: seq<Coord>, k: nat): seq<T>
    requires |prefix| < |dims|
    decreases |dims| - |prefix|, 1, k
  {
    if k == 0 then []
    else EnumLevels(dims, leaf, prefix, k - 1) + EnumReps(dims, leaf, prefix, k - 1, dims[|prefix|].reps)
  }

  /** The first `r` rounds of the replicate loop of level `l`. */
  function EnumReps<T>(dims: seq<Shape>, leaf: seq<Coord> -> T, prefix: seq<Coord>, l: nat, r: nat): seq<T>
    requires |prefix| < |dims|
    decreases |dims| - |prefix|, 0, r
  {
    if r == 0 then []
    else EnumReps(dims, leaf, prefix, l, r - 1) + Enum(dims, leaf, prefix + [Coord(l, r - 1)])
  }

  /** One more round of a level loop, after whatever `base` held before the loop. */
  lemma EnumLevelsStep<T>(dims: seq<Shape>, leaf: seq<Coord> -> T, prefix: seq<Coord>, k: nat, base: seq<T>, before: seq<T>, after: seq<T>)
    requires |prefix| < |dims|
    requires before == base + EnumLevels(dims, leaf, prefix, k)
    requires after == before + EnumReps(dims, leaf, prefix, k, dims[|prefix|].reps)
    ensures after == base + EnumLevels(dims, leaf, prefix, k + 1)
  {
  }

  /** One more round of a replicate loop. */
  lemma EnumRepsStep<T>(dims: seq<Shape>, leaf: seq<Coord> -> T, prefix: seq<Coord>, l: nat, r: nat, base: seq<T>, before: seq<T>, after: seq<T>)
    requires |prefix| < |dims|
    requires before == base + EnumReps(dims, leaf, prefix, l, r)
    requires after == before + Enum(dims, leaf, prefix + [Coord(l, r)])
    ensures after == base + EnumReps(dims, leaf, prefix, l, r + 1)
  {
  }

  /** In the innermost loop, whose dimension has one replicate, each round
      appends the value of one point. */
  lemma EnumLastLevel<T>(dims: seq<Shape>, leaf: seq<Coord> -> T, prefix: seq<Coord>, l: nat, base: seq<T>, before: seq<T>, after: seq<T>)
    requires |prefix| + 1 == |dims| && dims[|prefix|].reps == 1
    requires before == base + EnumLevels(dims, leaf, prefix, l)
    requires after == before + [leaf(prefix + [Coord(l, 0)])]
    ensures after == base + EnumLevels(dims, leaf, prefix, l + 1)
  {
    assert EnumReps(dims, leaf, prefix, l, 1) == Enum(dims, leaf, prefix + [Coord(l, 0)]);
  }

  /** Appending the value of the next point of the innermost dimension. */
  lemma EnumLastRep<T>(dims: seq<Shape>, leaf: seq<Coord> -> T, prefix: seq<Coord>, l: nat, r: nat, base: seq<T>, before: seq<T>, after: seq<T>)
    requires |prefix| + 1 == |dims|
    requires before == base + EnumReps(dims, leaf, prefix, l, r)
    requires after == before + [leaf(prefix + [Coord(l, r)])]
    ensures after == base + EnumReps(dims, leaf, prefix, l, r + 1)
  {
    assert Enum(dims, leaf, prefix + [Coord(l, r)]) == [leaf(prefix + [Coord(l, r)])];
  }

  lemma DropOne(dims: seq<Shape>, i: nat)
    requires i < |dims|
    ensures dims[i..] != [] && dims[i..][0] == dims[i] && dims[i..][1..] == dims[i + 1..]
  {
  }

  /** The nested loops produce the values of the enumerated points, in order. */
  lemma {:induction false} EnumPoints<T>(dims: seq<Shape>, leaf: seq<Coord> -> T, prefix: seq<Coord>)
    requires |prefix| <= |dims|
    ensures Enum(dims, leaf, prefix) == Map(leaf, Points(dims[|prefix|..], prefix))
    decreases |dims| - |prefix|, 2, 0
  {
    if |prefix| == |dims| {
      assert dims[|prefix|..] == [];
    } else {
      DropOne(dims, |prefix|);
      EnumLevelsPoints(dims, leaf, prefix, dims[|prefix|].levels);
    }
  }

  lemma {:induction false} EnumLevelsPoints<T>(dims: seq<Shape>, leaf: seq<Coord> -> T, prefix: seq<Coord>, k: nat)
    requires |prefix| < |dims|
    ensures dims[|prefix|..] != []
    ensures EnumLevels(dims, leaf, prefix, k) == Map(leaf, LevelsBlock(dims[|prefix|..], prefix, k))
    decreases |dims| - |prefix|, 1, k
  {
    var d := dims[|prefix|..];
    DropOne(dims, |prefix|);
    if k > 0 {
      var reps := d[0].reps;
      assert reps == dims[|prefix|].reps;
      calc {
        EnumLevels(dims, leaf, prefix, k);
        EnumLevels(dims, leaf, prefix, k - 1) + EnumReps(dims, leaf, prefix, k - 1, reps);
        { EnumLevelsPoints(dims, leaf, prefix, k - 1);
          EnumRepsPoints(dims, leaf, prefix, k - 1, reps); }
        Map(leaf, LevelsBlock(d, prefix, k - 1)) + Map(leaf, RepsBlock(d, prefix, k - 1, reps));
        { MapAppend(leaf, LevelsBlock(d, prefix, k - 1), RepsBlock(d, prefix, k - 1, reps)); }
        Map(leaf, LevelsBlock(d, prefix, k - 1) + RepsBlock(d, prefix, k - 1, reps));
        Map(leaf, LevelsBlock(d, prefix, k));
      }
    }
  }

  lemma {:induction false} EnumRepsPoints<T>(dims: seq<Shape>, leaf: seq<Coord> -> T, prefix: seq<Coord>, l: nat, r: nat)
    requires |prefix| < |dims|
    ensures dims[|prefix|..] != []
    ensures EnumReps(dims, leaf, prefix, l, r) == Map(leaf, RepsBlock(dims[|prefix|..], prefix, l, r))
    decreases |dims| - |prefix|, 0, r
  {
    var d := dims[|prefix|..];
    DropOne(dims, |prefix|);
    if r > 0 {
      var next := prefix + [Coord(l, r - 1)];
      EnumRepsPoints(dims, leaf, prefix, l, r - 1);
      EnumPoints(dims, leaf, next);
      MapAppend(leaf, RepsBlock(d, prefix, l, r - 1), Points(d[1..], next));
    }
  }

  /** The replicator options: bounds, number of levels and replicates for
      the minor allele frequency, the number of controls, the wild-type risk
      and the genotype relative risk; the programs to make directories for;
      whether to create the directories now. */
  datatype RepParams = RepParams(
    mafRangeHi: real, mafRangeLo: real, mafNumSteps: int, mafReplicates: int,
    ccRangeHi: int, ccRangeLo: int, ccNumSteps: int, ccReplicates: int,
    wtrRangeHi: real, wtrRangeLo: real, wtrNumSteps: int, wtrReplicates: int,
    grrRangeHi: real, grrRangeLo: real, grrNumSteps: int, grrReplicates: int,
    formatters: seq<string>, createDirs: bool)

  /** The option defaults. */
  const Defaults := RepParams(
    0.05, 0.05, 1, 1,
    1000, 1000, 1, 1,
    0.05, 0.05, 1, 1,
    2.0, 1.0, 5, 100,
    ["PLINK"], true)

  /** A validator attached to a numeric option. */
  datatype Check = Between(lo: real, hi: real) | AtLeast(bound: real) | Above(bound: real) | Unchecked

  predicate Passes(c: Check, x: real) {
    match c
    case Between(lo, hi) => lo <= x <= hi
    case AtLeast(b) => x >= b
    case Above(b) => x > b
    case Unchecked => true
  }

  /** The numeric options in declaration order, each with its validator;
      the upper GRR bound has none. */
  const NumericOptions: seq<(string, Check)> := [
    ("MAF_range_hi", Between(0.0, 1.0)), ("MAF_range_lo", Between(0.0, 1.0)),
    ("MAF_num_steps", AtLeast(1.0)), ("MAF_replicates", AtLeast(1.0)),
    ("CC_range_hi", AtLeast(100.0)), ("CC_range_lo", AtLeast(100.0)),
    ("CC_num_steps", AtLeast(1.0)), ("CC_replicates", AtLeast(1.0)),
    ("WTR_range_hi", Between(0.0, 1.0)), ("WTR_range_lo", Between(0.0, 1.0)),
    ("WTR_num_steps", AtLeast(1.0)), ("WTR_replicates", AtLeast(1.0)),
    ("GRR_range_hi", Unchecked), ("GRR_range_lo", Above(0.0)),
    ("GRR_num_steps", AtLeast(1.0)), ("GRR_replicates", AtLeast(1.0))]

  /** The values of the numeric options, in the same order. */
  function NumericValues(p: RepParams): (v: seq<real>)
    ensures |v| == |NumericOptions|
  {
    [p.mafRangeHi, p.mafRangeLo, p.mafNumSteps as real, p.mafReplicates as real,
     p.ccRangeHi as real, p.ccRangeLo as real, p.ccNumSteps as real, p.ccReplicates as real,
     p.wtrRangeHi, p.wtrRangeLo, p.wtrNumSteps as real, p.wtrReplicates as real,
     p.grrRangeHi, p.grrRangeLo, p.grrNumSteps as real, p.grrReplicates as real]
  }

  /** The names of the first `k` numeric options whose validator rejects its value. */
  function RejectedAmong(v: seq<real>, k: nat): (names: seq<string>)
    requires k <= |NumericOptions| == |v|
    ensures |names| <= k
  {
    if k == 0 then []
    else RejectedAmong(v, k - 1) + (if Passes(NumericOptions[k - 1].1, v[k - 1]) then [] else [NumericOptions[k - 1].0])
  }

  /** The options the validators reject, in declaration order. */
  function Rejected(p: RepParams): seq<string> {
    RejectedAmong(NumericValues(p), |NumericOptions|)
  }

  lemma {:induction false} RejectedAmongEmpty(v: seq<real>, k: nat)
    requires k <= |NumericOptions| == |v|
    ensures RejectedAmong(v, k) == [] <==> forall i :: 0 <= i < k ==> Passes(NumericOptions[i].1, v[i])
  {
    if k > 0 {
      RejectedAmongEmpty(v, k - 1);
    }
  }

  /** The validators accept the options exactly when both MAF bounds and
      both WTR bounds lie in [0, 1], both control counts are at least 100,
      every number of steps and of replicates is at least 1 and the lower
      GRR bound is positive. */
  lemma ValidationAccepts(p: RepParams)
    ensures Rejected(p) == [] <==>
      && 0.0 <= p.mafRangeHi <= 1.0 && 0.0 <= p.mafRangeLo <= 1.0
      && 0.0 <= p.wtrRangeHi <= 1.0 && 0.0 <= p.wtrRangeLo <= 1.0
      && p.ccRangeHi >= 100 && p.ccRangeLo >= 100
      && p.mafNumSteps >= 1 && p.ccNumSteps >= 1 && p.wtrNumSteps >= 1 && p.grrNumSteps >= 1
      && p.mafReplicates >= 1 && p.ccReplicates >= 1 && p.wtrReplicates >= 1 && p.grrReplicates >= 1
      && p.grrRangeLo > 0.0
  {
    var v := NumericValues(p);
    RejectedAmongEmpty(v, |NumericOptions|);
    if Rejected(p) == [] {
      assert forall i :: 0 <= i < 16 ==> Passes(NumericOptions[i].1, v[i]);
      assert Passes(NumericOptions[0].1, v[0]) && Passes(NumericOptions[1].1, v[1]);
      assert Passes(NumericOptions[2].1, v[2]) && Passes(NumericOptions[3].1, v[3]);
      assert Passes(NumericOptions[4].1, v[4]) && Passes(NumericOptions[5].1, v[5]);
      assert Passes(NumericOptions[6].1, v[6]) && Passes(NumericOptions[7].1, v[7]);
      assert Passes(NumericOptions[8].1, v[8]) && Passes(NumericOptions[9].1, v[9]);
      assert Passes(NumericOptions[10].1, v[10]) && Passes(NumericOptions[11].1, v[11]);
      assert Passes(NumericOptions[13].1, v[13]) && Passes(NumericOptions[14].1, v[14]);
      assert Passes(NumericOptions[15].1, v[15]);
    }
  }

  /** Whatever the upper GRR bound is, the validators decide the same. */
  lemma GrrHiUnchecked(p: RepParams, x: real)
    ensures Rejected(p.(grrRangeHi := x)) == Rejected(p)
  {
    var v, w := NumericValues(p), NumericValues(p.(grrRangeHi := x));
    forall k: nat | k <= 16 ensures RejectedAmong(w, k) == RejectedAmong(v, k) {
      RejectedAmongAgree(v, w, k);
    }
  }

  lemma {:induction false} RejectedAmongAgree(v: seq<real>, w: seq<real>, k: nat)
    requires k <= |NumericOptions| == |v| == |w|
    requires forall i :: 0 <= i < k ==> Passes(NumericOptions[i].1, v[i]) == Passes(NumericOptions[i].1, w[i])
    ensures RejectedAmong(w, k) == RejectedAmong(v, k)
  {
    if k > 0 {
      RejectedAmongAgree(v, w, k - 1);
    }
  }

  /** The defaults pass every validator. */
  lemma DefaultsAccepted()
    ensures Rejected(Defaults) == []
  {
    ValidationAccepts(Defaults);
  }

  /** The level lists the options object holds once `dir_setup` has set them. */
  datatype Levels = Levels(mafs: seq<real>, ccs: seq<real>, wtrs: seq<real>, grrs: seq<real>)

  /** The levels `dir_setup` derives: each dimension from its high bound
      down to its low bound. */
  function SetupLevels(p: RepParams): (lv: Levels)
    ensures |lv.mafs| == Clamp(p.mafNumSteps) && |lv.ccs| == Clamp(p.ccNumSteps)
    ensures |lv.wtrs| == Clamp(p.wtrNumSteps) && |lv.grrs| == Clamp(p.grrNumSteps)
  {
    Levels(FloatRange(p.mafRangeHi, p.mafRangeLo, p.mafNumSteps),
           FloatRange(p.ccRangeHi as real, p.ccRangeLo as real, p.ccNumSteps),
           FloatRange(p.wtrRangeHi, p.wtrRangeLo, p.wtrNumSteps),
           FloatRange(p.grrRangeHi, p.grrRangeLo, p.grrNumSteps))
  }

  /** The options object: the values given, and the level lists that only
      `dir_setup` sets. */
  class RepOptions {
    const params: RepParams
    var levels: Option<Levels>

    constructor (p: RepParams)
      ensures params == p && levels.None?
    {
      params := p;
      levels := None;
    }
  }

  /** The four parameter dimensions: levels by replicates. */
  function JobShape(p: RepParams, lv: Levels): seq<Shape> {
    [Shape(|lv.mafs|, Clamp(p.mafReplicates)), Shape(|lv.ccs|, Clamp(p.ccReplicates)),
     Shape(|lv.wtrs|, Clamp(p.wtrReplicates)), Shape(|lv.grrs|, Clamp(p.grrReplicates))]
  }

  /** The directory grid: the four parameter dimensions, then the programs. */
  function DirShape(p: RepParams, lv: Levels): seq<Shape> {
    [Shape(|lv.mafs|, Clamp(p.mafReplicates)), Shape(|lv.ccs|, Clamp(p.ccReplicates)),
     Shape(|lv.wtrs|, Clamp(p.wtrReplicates)), Shape(|lv.grrs|, Clamp(p.grrReplicates)),
     Shape(|p.formatters|, 1)]
  }

  /** `"<tag>_<text>_<replicate + 1>"`: replicate numbers in names start at 1. */
  function Segment(tag: string, text: string, rep: nat): (s: string)
    ensures s == tag + "_" + text + "_" + NatToString(rep + 1)
    ensures IsDigit(s[|s| - 1])
  {
    tag + "_" + text + "_" + NatToString(rep + 1)
  }

  /** `"MAF_%.2f_%d"`. */
  function MafDir(lv: Levels, c: Coord): string
    requires c.level < |lv.mafs|
  {
    Segment("MAF", Fixed2(lv.mafs[c.level]), c.rep)
  }

  /** `"cc_%d_%d"`: the control count is a float, truncated by `%d`. */
  function CcDir(lv: Levels, c: Coord): string
    requires c.level < |lv.ccs|
  {
    Segment("cc", IntToString(Trunc(lv.ccs[c.level])), c.rep)
  }

  /** `"WTR_%.2f_%d"`. */
  function WtrDir(lv: Levels, c: Coord): string
    requires c.level < |lv.wtrs|
  {
    Segment("WTR", Fixed2(lv.wtrs[c.level]), c.rep)
  }

  /** `"GRR_%.2f_%d"`. */
  function GrrDir(lv: Levels, c: Coord): string
    requires c.level < |lv.grrs|
  {
    Segment("GRR", Fixed2(lv.grrs[c.level]), c.rep)
  }

  predicate InJobGrid(lv: Levels, q: seq<Coord>) {
    |q| == 4 && q[0].level < |lv.mafs| && q[1].level < |lv.ccs| && q[2].level < |lv.wtrs| && q[3].level < |lv.grrs|
  }

  predicate InDirGrid(p: RepParams, lv: Levels, q: seq<Coord>) {
    && |q| == 5 && q[0].level < |lv.mafs| && q[1].level < |lv.ccs| && q[2].level < |lv.wtrs| && q[3].level < |lv.grrs|
    && q[4].level < |p.formatters|
  }

  /** The directory of one grid point: `MAF_x_r/cc_n_r/WTR_x_r/GRR_x_r`. */
  function JobDir(lv: Levels, q: seq<Coord>): string
    requires InJobGrid(lv, q)
  {
    PathMaker(MafDir(lv, q[0]), [CcDir(lv, q[1]), WtrDir(lv, q[2]), GrrDir(lv, q[3])])
  }

  /** The directory of one grid point and program; the empty string for a
      point outside the grid, which the enumeration never produces. */
  function DirPath(p: RepParams, lv: Levels, q: seq<Coord>): string {
    if InDirGrid(p, lv, q) then
      PathMaker(MafDir(lv, q[0]), [CcDir(lv, q[1]), WtrDir(lv, q[2]), GrrDir(lv, q[3]), p.formatters[q[4].level]])
    else ""
  }

  /** The directory of a point, as a function value for the enumeration. */
  function DirLeaf(p: RepParams, lv: Levels): seq<Coord> -> string {
    q => DirPath(p, lv, q)
  }

  /** Every point of the directory grid names a level and a program that exist. */
  lemma DirPointsInGrid(p: RepParams, lv: Levels)
    ensures forall q :: q in Points(DirShape(p, lv), []) ==> InDirGrid(p, lv, q)
  {
    forall q | q in Points(DirShape(p, lv), []) ensures InDirGrid(p, lv, q) {
      PointsMember(DirShape(p, lv), [], q);
    }
  }

  /** What `dir_path_gen` returns: one path per grid point and program, in
      the order of the nested loops. */
  function DirPaths(p: RepParams, lv: Levels): seq<string> {
    Map(DirLeaf(p, lv), Points(DirShape(p, lv), []))
  }

  /** `q` is a point of the directory grid: a level and a replicate of each
      parameter, then a program (whose only replicate is 0). */
  predicate OnDirGrid(p: RepParams, lv: Levels, q: seq<Coord>) {
    && InDirGrid(p, lv, q)
    && q[0].rep < Clamp(p.mafReplicates) && q[1].rep < Clamp(p.ccReplicates)
    && q[2].rep < Clamp(p.wtrReplicates) && q[3].rep < Clamp(p.grrReplicates) && q[4].rep == 0
  }

  lemma OnDirGridFits(p: RepParams, lv: Levels, q: seq<Coord>)
    ensures OnDirGrid(p, lv, q) <==> Fits(DirShape(p, lv), [], q)
  {
    var d := DirShape(p, lv);
    if Fits(d, [], q) {
      assert q[0].level < d[0].levels && q[0].rep < d[0].reps;
      assert q[1].level < d[1].levels && q[1].rep < d[1].reps;
      assert q[2].level < d[2].levels && q[2].rep < d[2].reps;
      assert q[3].level < d[3].levels && q[3].rep < d[3].reps;
      assert q[4].level < d[4].levels && q[4].rep < d[4].reps;
    }
  }

  lemma DirShapeVolume(p: RepParams, lv: Levels)
    ensures Volume(DirShape(p, lv)) ==
      (|lv.mafs| * Clamp(p.mafReplicates)) * ((|lv.ccs| * Clamp(p.ccReplicates)) *
      ((|lv.wtrs| * Clamp(p.wtrReplicates)) * ((|lv.grrs| * Clamp(p.grrReplicates)) * |p.formatters|)))
  {
    var d := DirShape(p, lv);
    assert d[4..] == [d[4]] + [];
    VolumeCons(d[4], []);
    assert d[3..] == [d[3]] + d[4..];
    VolumeCons(d[3], d[4..]);
    assert d[2..] == [d[2]] + d[3..];
    VolumeCons(d[2], d[3..]);
    assert d[1..] == [d[1]] + d[2..];
    VolumeCons(d[1], d[2..]);
  }

  lemma VolumeCons(s: Shape, rest: seq<Shape>)
    ensures Volume([s] + rest) == s.levels * s.reps * Volume(rest)
  {
    assert ([s] + rest)[1..] == rest;
  }

  /** `dir_path_gen` yields one path per MAF level and replicate, control
      count level and replicate, WTR level and replicate, GRR level and
      replicate, and program. */
  lemma DirPathsCount(p: RepParams, lv: Levels)
    ensures |DirPaths(p, lv)| ==
      (|lv.mafs| * Clamp(p.mafReplicates)) * ((|lv.ccs| * Clamp(p.ccReplicates)) *
      ((|lv.wtrs| * Clamp(p.wtrReplicates)) * ((|lv.grrs| * Clamp(p.grrReplicates)) * |p.formatters|)))
  {
    PointsCount(DirShape(p, lv), []);
    DirShapeVolume(p, lv);
  }

  /** Every grid point's directory is among the paths, and every path is the
      directory of a grid point. */
  lemma DirPathsMember(p: RepParams, lv: Levels, q: seq<Coord>)
    requires OnDirGrid(p, lv, q)
    ensures DirPath(p, lv, q) in DirPaths(p, lv)
  {
    OnDirGridFits(p, lv, q);
    PointsMember(DirShape(p, lv), [], q);
    var ps := Points(DirShape(p, lv), []);
    var i :| 0 <= i < |ps| && ps[i] == q;
    assert DirPaths(p, lv)[i] == DirPath(p, lv, q);
  }

  lemma DirPathsOnly(p: RepParams, lv: Levels, i: nat)
    requires i < |DirPaths(p, lv)|
    ensures exists q :: OnDirGrid(p, lv, q) && DirPaths(p, lv)[i] == DirPath(p, lv, q)
  {
    var ps := Points(DirShape(p, lv), []);
    var q := ps[i];
    PointsMember(DirShape(p, lv), [], q);
    OnDirGridFits(p, lv, q);
  }

  /** No directory name made by `Segment` from slash-free parts contains '/'. */
  lemma SegmentNoSlash(tag: string, text: string, rep: nat)
    requires '/' !in tag && '/' !in text
    ensures '/' !in Segment(tag, text, rep)
  {
    var n := NatToString(rep + 1);
    forall k | 0 <= k < |n| ensures n[k] != '/' {
      assert IsDigit(n[k]);
    }
  }

  lemma Fixed2NoSlash(x: real)
    ensures '/' !in Fixed2(x)
  {
    var f := Fixed2(x);
    forall k | 0 <= k < |f| ensures f[k] != '/' {
      assert IsDigit(f[k]) || f[k] == '.' || f[k] == '-';
    }
  }

  lemma IntToStringNoSlash(i: int)
    ensures '/' !in IntToString(i)
  {
    var t := IntToString(i);
    forall k | 0 <= k < |t| ensures t[k] != '/' {
      assert IsDigit(t[k]) || t[k] == '-';
    }
  }

  /** Each path splits back into its five directory names: the MAF, control
      count, WTR and GRR names (each `tag_value_replicate`, see `Segment`),
      then the program. */
  lemma DirPathSegments(p: RepParams, lv: Levels, q: seq<Coord>)
    requires OnDirGrid(p, lv, q) && '/' !in p.formatters[q[4].level]
    ensures Split(DirPath(p, lv, q), '/') ==
      [MafDir(lv, q[0]), CcDir(lv, q[1]), WtrDir(lv, q[2]), GrrDir(lv, q[3]), p.formatters[q[4].level]]
  {
    Fixed2NoSlash(lv.mafs[q[0].level]);
    Fixed2NoSlash(lv.wtrs[q[2].level]);
    Fixed2NoSlash(lv.grrs[q[3].level]);
    IntToStringNoSlash(Trunc(lv.ccs[q[1].level]));
    SegmentNoSlash("MAF", Fixed2(lv.mafs[q[0].level]), q[0].rep);
    SegmentNoSlash("cc", IntToString(Trunc(lv.ccs[q[1].level])), q[1].rep);
    SegmentNoSlash("WTR", Fixed2(lv.wtrs[q[2].level]), q[2].rep);
    SegmentNoSlash("GRR", Fixed2(lv.grrs[q[3].level]), q[3].rep);
    var args := [CcDir(lv, q[1]), WtrDir(lv, q[2]), GrrDir(lv, q[3]), p.formatters[q[4].level]];
    PathMakerSplit(MafDir(lv, q[0]), args);
    assert [MafDir(lv, q[0])] + args == [MafDir(lv, q[0]), CcDir(lv, q[1]), WtrDir(lv, q[2]), GrrDir(lv, q[3]), p.formatters[q[4].level]];
  }

  /** With the default options there are 5 GRR levels of 100 replicates for
      the one default program: 500 directories. */
  lemma DefaultGrid()
    ensures |DirPaths(Defaults, SetupLevels(Defaults))| == 500
  {
    DirPathsCount(Defaults, SetupLevels(Defaults));
  }

  /** The directory of a grid point is the path made from the names of its
      coordinates. */
  lemma DirLeafAt(p: RepParams, lv: Levels, q: seq<Coord>)
    requires InDirGrid(p, lv, q)
    ensures DirLeaf(p, lv)(q) ==
      PathMaker(MafDir(lv, q[0]), [CcDir(lv, q[1]), WtrDir(lv, q[2]), GrrDir(lv, q[3]), p.formatters[q[4].level]])
  {
  }

  /** The same, for the points in the form the loops of `dir_path_gen`
      build them. */
  lemma DirLeafNames(p: RepParams, lv: Levels)
    ensures forall maf: nat, mafRep: nat, cc: nat, ccRep: nat, wtr: nat, wtrRep: nat, grr: nat, grrRep: nat, prog: nat {:trigger DirLeaf(p, lv)([] + [Coord(maf, mafRep)] + [Coord(cc, ccRep)] + [Coord(wtr, wtrRep)] + [Coord(grr, grrRep)] + [Coord(prog, 0)])}
      | maf < |lv.mafs| && cc < |lv.ccs| && wtr < |lv.wtrs| && grr < |lv.grrs| && prog < |p.formatters| ::
      DirLeaf(p, lv)([] + [Coord(maf, mafRep)] + [Coord(cc, ccRep)] + [Coord(wtr, wtrRep)] + [Coord(grr, grrRep)] + [Coord(prog, 0)]) ==
      PathMaker(MafDir(lv, Coord(maf, mafRep)),
                [CcDir(lv, Coord(cc, ccRep)), WtrDir(lv, Coord(wtr, wtrRep)), GrrDir(lv, Coord(grr, grrRep)), p.formatters[prog]])
  {
    forall maf: nat, mafRep: nat, cc: nat, ccRep: nat, wtr: nat, wtrRep: nat, grr: nat, grrRep: nat, prog: nat
      | maf < |lv.mafs| && cc < |lv.ccs| && wtr < |lv.wtrs| && grr < |lv.grrs| && prog < |p.formatters|
      ensures DirLeaf(p, lv)([] + [Coord(maf, mafRep)] + [Coord(cc, ccRep)] + [Coord(wtr, wtrRep)] + [Coord(grr, grrRep)] + [Coord(prog, 0)]) ==
        PathMaker(MafDir(lv, Coord(maf, mafRep)),
                  [CcDir(lv, Coord(cc, ccRep)), WtrDir(lv, Coord(wtr, wtrRep)), GrrDir(lv, Coord(grr, grrRep)), p.formatters[prog]])
    {
      var q := [] + [Coord(maf, mafRep)] + [Coord(cc, ccRep)] + [Coord(wtr, wtrRep)] + [Coord(grr, grrRep)] + [Coord(prog, 0)];
      assert q == [Coord(maf, mafRep), Coord(cc, ccRep), Coord(wtr, wtrRep), Coord(grr, grrRep), Coord(prog, 0)];
      DirLeafAt(p, lv, q);
    }
  }

  /** `dir_path_gen(rep_opt)`. The nested loops are the methods below, each
      of which appends the values of `leaf`, the directory of a grid point,
      for the points below the coordinates `pre` of the loops around it. */
  method DirPathGen(o: RepOptions) returns (dirpaths: seq<string>)
    requires o.levels.Some?
    ensures dirpaths == DirPaths(o.params, o.levels.value)
  {
    var p := o.params;
    var lv := o.levels.value;
    DirLeafNames(p, lv);
    dirpaths := AppendMafPaths(p, lv, DirLeaf(p, lv), []);
    EnumPoints(DirShape(p, lv), DirLeaf(p, lv), []);
    assert DirShape(p, lv)[0..] == DirShape(p, lv);
  }

  /** The MAF level and replicate loops of `dir_path_gen`. */
  method AppendMafPaths(p: RepParams, lv: Levels, ghost leaf: seq<Coord> -> string, dirpaths: seq<string>)
    returns (dirpaths': seq<string>)
    requires forall maf: nat, mafRep: nat, cc: nat, ccRep: nat, wtr: nat, wtrRep: nat, grr: nat, grrRep: nat, prog: nat {:trigger leaf([] + [Coord(maf, mafRep)] + [Coord(cc, ccRep)] + [Coord(wtr, wtrRep)] + [Coord(grr, grrRep)] + [Coord(prog, 0)])}
      | maf < |lv.mafs| && cc < |lv.ccs| && wtr < |lv.wtrs| && grr < |lv.grrs| && prog < |p.formatters| ::
      leaf([] + [Coord(maf, mafRep)] + [Coord(cc, ccRep)] + [Coord(wtr, wtrRep)] + [Coord(grr, grrRep)] + [Coord(prog, 0)]) ==
      PathMaker(MafDir(lv, Coord(maf, mafRep)),
                [CcDir(lv, Coord(cc, ccRep)), WtrDir(lv, Coord(wtr, wtrRep)), GrrDir(lv, Coord(grr, grrRep)), p.formatters[prog]])
    ensures dirpaths' == dirpaths + Enum(DirShape(p, lv), leaf, [])
  {
    dirpaths' := dirpaths;
    var maf := 0;
    while maf < |lv.mafs|
      invariant maf <= |lv.mafs|
      invariant dirpaths' == dirpaths + EnumLevels(DirShape(p, lv), leaf, [], maf)
    {
      ghost var s0 := dirpaths';
      var mafRep := 0;
      while mafRep < p.mafReplicates
        invariant mafRep <= Clamp(p.mafReplicates)
        invariant dirpaths' == s0 + EnumReps(DirShape(p, lv), leaf, [], maf, mafRep)
      {
        var mafDir := MafDir(lv, Coord(maf, mafRep));
        ghost var before := dirpaths';
        dirpaths' := AppendCcPaths(p, lv, mafDir, [] + [Coord(maf, mafRep)], leaf, dirpaths');
        EnumRepsStep(DirShape(p, lv), leaf, [], maf, mafRep, s0, before, dirpaths');
        mafRep := mafRep + 1;
      }
      EnumLevelsStep(DirShape(p, lv), leaf, [], maf, dirpaths, s0, dirpaths');
      maf := maf + 1;
    }
  }

  /** The control-count level and replicate loops of `dir_path_gen`, below
      the MAF directory. */
  method AppendCcPaths(p: RepParams, lv: Levels, mafDir: string, ghost pre: seq<Coord>, ghost leaf: seq<Coord> -> string,
                       dirpaths: seq<string>)
    returns (dirpaths': seq<string>)
    requires |pre| == 1
    requires forall cc: nat, ccRep: nat, wtr: nat, wtrRep: nat, grr: nat, grrRep: nat, prog: nat {:trigger leaf(pre + [Coord(cc, ccRep)] + [Coord(wtr, wtrRep)] + [Coord(grr, grrRep)] + [Coord(prog, 0)])}
      | cc < |lv.ccs| && wtr < |lv.wtrs| && grr < |lv.grrs| && prog < |p.formatters| ::
      leaf(pre + [Coord(cc, ccRep)] + [Coord(wtr, wtrRep)] + [Coord(grr, grrRep)] + [Coord(prog, 0)]) ==
      PathMaker(mafDir, [CcDir(lv, Coord(cc, ccRep)), WtrDir(lv, Coord(wtr, wtrRep)), GrrDir(lv, Coord(grr, grrRep)), p.formatters[prog]])
    ensures dirpaths' == dirpaths + Enum(DirShape(p, lv), leaf, pre)
  {
    dirpaths' := dirpaths;
    var cc := 0;
    while cc < |lv.ccs|
      invariant cc <= |lv.ccs|
      invariant dirpaths' == dirpaths + EnumLevels(DirShape(p, lv), leaf, pre, cc)
    {
      ghost var s0 := dirpaths';
      var ccRep := 0;
      while ccRep < p.ccReplicates
        invariant ccRep <= Clamp(p.ccReplicates)
        invariant dirpaths' == s0 + EnumReps(DirShape(p, lv), leaf, pre, cc, ccRep)
      {
        var ccDir := CcDir(lv, Coord(cc, ccRep));
        ghost var before := dirpaths';
        dirpaths' := AppendWtrPaths(p, lv, mafDir, ccDir, pre + [Coord(cc, ccRep)], leaf, dirpaths');
        EnumRepsStep(DirShape(p, lv), leaf, pre, cc, ccRep, s0, before, dirpaths');
        ccRep := ccRep + 1;
      }
      EnumLevelsStep(DirShape(p, lv), leaf, pre, cc, dirpaths, s0, dirpaths');
      cc := cc + 1;
    }
  }

  /** The WTR level and replicate loops of `dir_path_gen`. */
  method AppendWtrPaths(p: RepParams, lv: Levels, mafDir: string, ccDir: string, ghost pre: seq<Coord>,
                        ghost leaf: seq<Coord> -> string, dirpaths: seq<string>)
    returns (dirpaths': seq<string>)
    requires |pre| == 2
    requires forall wtr: nat, wtrRep: nat, grr: nat, grrRep: nat, prog: nat {:trigger leaf(pre + [Coord(wtr, wtrRep)] + [Coord(grr, grrRep)] + [Coord(prog, 0)])}
      | wtr < |lv.wtrs| && grr < |lv.grrs| && prog < |p.formatters| ::
      leaf(pre + [Coord(wtr, wtrRep)] + [Coord(grr, grrRep)] + [Coord(prog, 0)]) ==
      PathMaker(mafDir, [ccDir, WtrDir(lv, Coord(wtr, wtrRep)), GrrDir(lv, Coord(grr, grrRep)), p.formatters[prog]])
    ensures dirpaths' == dirpaths + Enum(DirShape(p, lv), leaf, pre)
  {
    dirpaths' := dirpaths;
    var wtr := 0;
    while wtr < |lv.wtrs|
      invariant wtr <= |lv.wtrs|
      invariant dirpaths' == dirpaths + EnumLevels(DirShape(p, lv), leaf, pre, wtr)
    {
      ghost var s0 := dirpaths';
      var wtrRep := 0;
      while wtrRep < p.wtrReplicates
        invariant wtrRep <= Clamp(p.wtrReplicates)
        invariant dirpaths' == s0 + EnumReps(DirShape(p, lv), leaf, pre, wtr, wtrRep)
      {
        var wtrDir := WtrDir(lv, Coord(wtr, wtrRep));
        ghost var before := dirpaths';
        dirpaths' := AppendGrrPaths(p, lv, mafDir, ccDir, wtrDir, pre + [Coord(wtr, wtrRep)], leaf, dirpaths');
        EnumRepsStep(DirShape(p, lv), leaf, pre, wtr, wtrRep, s0, before, dirpaths');
        wtrRep := wtrRep + 1;
      }
      EnumLevelsStep(DirShape(p, lv), leaf, pre, wtr, dirpaths, s0, dirpaths');
      wtr := wtr + 1;
    }
  }

  /** The GRR level and replicate loops of `dir_path_gen`. */
  method AppendGrrPaths(p: RepParams, lv: Levels, mafDir: string, ccDir: string, wtrDir: string,
                        ghost pre: seq<Coord>, ghost leaf: seq<Coord> -> string, dirpaths: seq<string>)
    returns (dirpaths': seq<string>)
    requires |pre| == 3
    requires forall grr: nat, grrRep: nat, prog: nat {:trigger leaf(pre + [Coord(grr, grrRep)] + [Coord(prog, 0)])}
      | grr < |lv.grrs| && prog < |p.formatters| ::
      leaf(pre + [Coord(grr, grrRep)] + [Coord(prog, 0)]) ==
      PathMaker(mafDir, [ccDir, wtrDir, GrrDir(lv, Coord(grr, grrRep)), p.formatters[prog]])
    ensures dirpaths' == dirpaths + Enum(DirShape(p, lv), leaf, pre)
  {
    dirpaths' := dirpaths;
    var grr := 0;
    while grr < |lv.grrs|
      invariant grr <= |lv.grrs|
      invariant dirpaths' == dirpaths + EnumLevels(DirShape(p, lv), leaf, pre, grr)
    {
      ghost var s0 := dirpaths';
      var grrRep := 0;
      while grrRep < p.grrReplicates
        invariant grrRep <= Clamp(p.grrReplicates)
        invariant dirpaths' == s0 + EnumReps(DirShape(p, lv), leaf, pre, grr, grrRep)
      {
        var grrDir := GrrDir(lv, Coord(grr, grrRep));
        ghost var before := dirpaths';
        dirpaths' := AppendProgramPaths(p, lv, mafDir, ccDir, wtrDir, grrDir, pre + [Coord(grr, grrRep)], leaf, dirpaths');
        EnumRepsStep(DirShape(p, lv), leaf, pre, grr, grrRep, s0, before, dirpaths');
        grrRep := grrRep + 1;
      }
      EnumLevelsStep(DirShape(p, lv), leaf, pre, grr, dirpaths, s0, dirpaths');
      grr := grr + 1;
    }
  }

  /** The program loop of `dir_path_gen`: one directory per program. */
  method AppendProgramPaths(p: RepParams, lv: Levels, mafDir: string, ccDir: string, wtrDir: string, grrDir: string,
                            ghost pre: seq<Coord>, ghost leaf: seq<Coord> -> string, dirpaths: seq<string>)
    returns (dirpaths': seq<string>)
    requires |pre| == 4
    requires forall prog: nat {:trigger leaf(pre + [Coord(prog, 0)])} | prog < |p.formatters| ::
      leaf(pre + [Coord(prog, 0)]) == PathMaker(mafDir, [ccDir, wtrDir, grrDir, p.formatters[prog]])
    ensures dirpaths' == dirpaths + Enum(DirShape(p, lv), leaf, pre)
  {
    dirpaths' := dirpaths;
    var prog := 0;
    while prog < |p.formatters|
      invariant prog <= |p.formatters|
      invariant dirpaths' == dirpaths + EnumLevels(DirShape(p, lv), leaf, pre, prog)
    {
      var progDir := p.formatters[prog];
      var path := PathMaker(mafDir, [ccDir, wtrDir, grrDir, progDir]);
      ghost var before := dirpaths';
      dirpaths' := dirpaths' + [path];
      EnumLastLevel(DirShape(p, lv), leaf, pre, prog, dirpaths, before, dirpaths');
      prog := prog + 1;
    }
  }

  /** The directories `os.makedirs(path)` creates: `path` itself and every
      ancestor, the prefixes that stop just before a '/'. */
  function Made(path: string): (m: set<string>)
    ensures path in m
    ensures forall i :: 0 < i < |path| && path[i] == '/' ==> path[..i] in m
  {
    {path} + set i | 0 < i < |path| && path[i] == '/' :: path[..i]
  }

  /** Some ancestor of `path` is an existing file, so `os.makedirs` fails. */
  predicate BlockedByFile(files: map<string, Content>, path: string) {
    exists i :: 0 < i < |path| && path[i] == '/' && path[..i] in files
  }

  /** `mkdir_p(path)`: 1 when the directory is created, 0 when `path`
      already exists (EEXIST), and any other error propagated. */
  function MkdirResult(dirs: set<string>, files: map<string, Content>, denied: set<string>, path: string): (r: Result<nat, string>)
    ensures r.Success? ==> r.value <= 1
    ensures r == Success(0) <==> path in dirs || path in files
  {
    if path in dirs || path in files then Success(0)
    else if path in denied || BlockedByFile(files, path) then Failure("OSError")
    else Success(1)
  }

  /** The directories after `mkdir_p(path)`. */
  function MkdirDirs(dirs: set<string>, files: map<string, Content>, denied: set<string>, path: string): set<string> {
    if MkdirResult(dirs, files, denied, path) == Success(1) then dirs + Made(path) else dirs
  }

  method MkdirP(fs: FileSystem, path: string) returns (r: Result<nat, string>)
    modifies fs
    ensures r == MkdirResult(old(fs.dirs), fs.files, fs.denied, path)
    ensures fs.dirs == MkdirDirs(old(fs.dirs), fs.files, fs.denied, path) && fs.files == old(fs.files)
  {
    if path in fs.dirs || path in fs.files {
      return Success(0);
    }
    if path in fs.denied || BlockedByFile(fs.files, path) {
      return Failure("OSError");
    }
    fs.dirs := fs.dirs + Made(path);
    r := Success(1);
  }

  /** The state of the `mkdir_p` loop of `dir_setup`: the directories, the
      `num_created` tally, and the error that stopped it, if any. */
  datatype SetupRun = SetupRun(dirs: set<string>, created: nat, error: Option<string>)

  /** `mkdir_p` on each path in turn, adding up the results; the first error
      stops the loop. */
  function Setup(dirs: set<string>, files: map<string, Content>, denied: set<string>, paths: seq<string>): SetupRun {
    if paths == [] then SetupRun(dirs, 0, None)
    else
      var st := Setup(dirs, files, denied, paths[..|paths| - 1]);
      var last := paths[|paths| - 1];
      if st.error.Some? then st
      else match MkdirResult(st.dirs, files, denied, last)
        case Failure(e) => st.(error := Some(e))
        case Success(n) => SetupRun(MkdirDirs(st.dirs, files, denied, last), st.created + n, None)
  }

  /** The tally never exceeds the number of paths, and the directories only grow. */
  lemma {:induction false} SetupTally(dirs: set<string>, files: map<string, Content>, denied: set<string>, paths: seq<string>)
    ensures Setup(dirs, files, denied, paths).created <= |paths|
    ensures dirs <= Setup(dirs, files, denied, paths).dirs
  {
    if paths != [] {
      SetupTally(dirs, files, denied, paths[..|paths| - 1]);
    }
  }

  /** After a run without error every path exists as a directory or a file. */
  lemma {:induction false} SetupCovers(dirs: set<string>, files: map<string, Content>, denied: set<string>, paths: seq<string>)
    requires Setup(dirs, files, denied, paths).error.None?
    ensures forall i :: 0 <= i < |paths| ==> paths[i] in Setup(dirs, files, denied, paths).dirs || paths[i] in files
  {
    if paths != [] {
      var init := paths[..|paths| - 1];
      SetupCovers(dirs, files, denied, init);
      var st := Setup(dirs, files, denied, init);
      var after := Setup(dirs, files, denied, paths);
      assert st.dirs <= after.dirs;
      forall i | 0 <= i < |paths| ensures paths[i] in after.dirs || paths[i] in files {
        if i < |paths| - 1 {
          assert paths[i] == init[i];
        }
      }
    }
  }

  /** When every path already exists, a run creates nothing and changes nothing. */
  lemma {:induction false} SetupExisting(dirs: set<string>, files: map<string, Content>, denied: set<string>, paths: seq<string>)
    requires forall i :: 0 <= i < |paths| ==> paths[i] in dirs || paths[i] in files
    ensures Setup(dirs, files, denied, paths) == SetupRun(dirs, 0, None)
  {
    if paths != [] {
      SetupExisting(dirs, files, denied, paths[..|paths| - 1]);
    }
  }

  /** Running `dir_setup`'s loop again after a successful run counts 0 new
      directories and leaves the directories as they were. */
  lemma SetupRerun(dirs: set<string>, files: map<string, Content>, denied: set<string>, paths: seq<string>)
    requires Setup(dirs, files, denied, paths).error.None?
    ensures var st := Setup(dirs, files, denied, paths);
      Setup(st.dirs, files, denied, paths) == SetupRun(st.dirs, 0, None)
  {
    SetupCovers(dirs, files, denied, paths);
    SetupExisting(Setup(dirs, files, denied, paths).dirs, files, denied, paths);
  }

  /** Only a denied path or a file in the way makes the loop stop with an error. */
  lemma {:induction false} SetupSucceeds(dirs: set<string>, files: map<string, Content>, denied: set<string>, paths: seq<string>)
    requires forall i :: 0 <= i < |paths| ==> paths[i] !in denied && !BlockedByFile(files, paths[i])
    ensures Setup(dirs, files, denied, paths).error.None?
  {
    if paths != [] {
      SetupSucceeds(dirs, files, denied, paths[..|paths| - 1]);
    }
  }

  /** Once the loop has stopped, later paths change nothing. */
  lemma {:induction false} SetupStops(dirs: set<string>, files: map<string, Content>, denied: set<string>, paths: seq<string>, n: nat)
    requires n <= |paths| && Setup(dirs, files, denied, paths[..n]).error.Some?
    ensures Setup(dirs, files, denied, paths) == Setup(dirs, files, denied, paths[..n])
    decreases |paths| - n
  {
    if n < |paths| {
      assert paths[..n + 1][..n] == paths[..n];
      SetupStops(dirs, files, denied, paths, n + 1);
    } else {
      assert paths[..n] == paths;
    }
  }

  /** One more `mkdir_p` of the loop, from a state without error. */
  lemma SetupNext(dirs: set<string>, files: map<string, Content>, denied: set<string>, paths: seq<string>, i: nat, d: set<string>, c: nat)
    requires i < |paths| && Setup(dirs, files, denied, paths[..i]) == SetupRun(d, c, None)
    ensures Setup(dirs, files, denied, paths[..i + 1]) ==
      match MkdirResult(d, files, denied, paths[i])
      case Failure(e) => SetupRun(d, c, Some(e))
      case Success(n) => SetupRun(MkdirDirs(d, files, denied, paths[i]), c + n, None)
  {
    assert paths[..i + 1][..i] == paths[..i];
  }

  /** The `mkdir_p` loop of `dir_setup`: each path in turn, counting the
      directories created; an error ends the loop and is returned. */
  method MakeDirs(fs: FileSystem, paths: seq<string>) returns (err: Option<string>, created: nat)
    modifies fs
    ensures fs.files == old(fs.files)
    ensures Setup(old(fs.dirs), fs.files, fs.denied, paths) == SetupRun(fs.dirs, created, err)
  {
    created := 0;
    var i := 0;
    while i < |paths|
      invariant i <= |paths| && fs.files == old(fs.files)
      invariant Setup(old(fs.dirs), fs.files, fs.denied, paths[..i]) == SetupRun(fs.dirs, created, None)
    {
      SetupNext(old(fs.dirs), fs.files, fs.denied, paths, i, fs.dirs, created);
      var made := MkdirP(fs, paths[i]);
      if made.Failure? {
        SetupStops(old(fs.dirs), fs.files, fs.denied, paths, i + 1);
        return Some(made.error), created;
      }
      created := created + made.value;
      i := i + 1;
    }
    assert paths[..i] == paths;
    err := None;
  }

  /** `dir_setup(rep_opt)`: derive and store the levels, generate the paths,
      `mkdir_p` each one and count the new directories. */
  method DirSetup(fs: FileSystem, o: RepOptions) returns (r: Result<seq<string>, string>, created: nat)
    modifies fs, o
    ensures o.levels == Some(SetupLevels(o.params))
    ensures fs.files == old(fs.files)
    ensures var st := Setup(old(fs.dirs), fs.files, fs.denied, DirPaths(o.params, SetupLevels(o.params)));
      && fs.dirs == st.dirs && created == st.created
      && (st.error.None? ==> r == Success(DirPaths(o.params, SetupLevels(o.params))))
      && (st.error.Some? ==> r == Failure(st.error.value))
  {
    o.levels := Some(SetupLevels(o.params));
    var dirpaths := DirPathGen(o);
    var err;
    err, created := MakeDirs(fs, dirpaths);
    r := if err.Some? then Failure(err.value) else Success(dirpaths);
  }
}
