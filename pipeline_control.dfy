/** The pipeline driver: the stage flags and mode, the stages each mode runs
    in their fixed order, the checks that keep existing output files, and
    the reader of marker-list files. Files are a map from path to the size
    of the population the file holds (None for a file that is not a
    population); each mode records what it does as a log of events. */
module PipelineControl {
  import opened Wrappers
  import opened Text
  import opened Registry
  import Format
  import ClineWriter
  import Config
  import SingleGeneModel
  import Files
  import Replicator
  import CaseControlGrid

  /** `pipeline_options`: one flag per stage and the pipeline mode. */
  datatype Options = Options(download: bool, init: bool, expand: bool, penetrance: bool,
                             format: bool, cline: bool, pipelineMode: string)

  /** The stages, in the order both modes run them. */
  datatype Stage = DownloadStage | InitStage | ExpandStage | PenetranceStage | FormatStage | ClineStage

  /** The defaults of `pipeline_options`: every stage off, mode "single". */
  const Defaults := Options(false, false, false, false, false, false, "single")

  /** The position of a stage in the run order. */
  function Rank(s: Stage): nat {
    match s
    case DownloadStage => 0
    case InitStage => 1
    case ExpandStage => 2
    case PenetranceStage => 3
    case FormatStage => 4
    case ClineStage => 5
  }

  /** The stage at each position of the run order. */
  function StageAt(k: nat): (s: Stage)
    requires k < 6
    ensures Rank(s) == k
  {
    if k == 0 then DownloadStage
    else if k == 1 then InitStage
    else if k == 2 then ExpandStage
    else if k == 3 then PenetranceStage
    else if k == 4 then FormatStage
    else ClineStage
  }

  /** The flag that switches a stage on. */
  predicate Enabled(o: Options, s: Stage) {
    match s
    case DownloadStage => o.download
    case InitStage => o.init
    case ExpandStage => o.expand
    case PenetranceStage => o.penetrance
    case FormatStage => o.format
    case ClineStage => o.cline
  }

  /** The enabled stages from position `k` on, in run order. */
  function PlannedFrom(o: Options, k: nat): seq<Stage>
    decreases 6 - k
  {
    if k >= 6 then []
    else (if Enabled(o, StageAt(k)) then [StageAt(k)] else []) + PlannedFrom(o, k + 1)
  }

  /** The stages a mode runs for the given flags. */
  function Planned(o: Options): seq<Stage> {
    PlannedFrom(o, 0)
  }

  /** The stages planned from position `k` are exactly the enabled ones at
      or after `k`. */
  lemma {:induction false} PlannedFromMember(o: Options, k: nat, s: Stage)
    ensures s in PlannedFrom(o, k) <==> Enabled(o, s) && Rank(s) >= k
    decreases 6 - k
  {
    if k < 6 {
      PlannedFromMember(o, k + 1, s);
      if Rank(s) == k {
        assert s == StageAt(k) by {
          match s
          case _ =>
        }
      }
    }
  }

  /** The stages planned from position `k` come in strictly increasing
      position. */
  lemma {:induction false} PlannedFromSorted(o: Options, k: nat)
    ensures forall i, j :: 0 <= i < j < |PlannedFrom(o, k)| ==>
      Rank(PlannedFrom(o, k)[i]) < Rank(PlannedFrom(o, k)[j])
    decreases 6 - k
  {
    if k < 6 {
      PlannedFromSorted(o, k + 1);
      var rest := PlannedFrom(o, k + 1);
      forall j | 0 <= j < |rest|
        ensures Rank(rest[j]) > k
      {
        PlannedFromMember(o, k + 1, rest[j]);
      }
    }
  }

  /** A stage runs exactly when its flag is set, and the stages run in the
      fixed order download, init, expand, penetrance, format, cline. */
  lemma PlannedOrder(o: Options)
    ensures forall s :: s in Planned(o) <==> Enabled(o, s)
    ensures forall i, j :: 0 <= i < j < |Planned(o)| ==> Rank(Planned(o)[i]) < Rank(Planned(o)[j])
  {
    forall s | true
      ensures s in Planned(o) <==> Enabled(o, s)
    {
      PlannedFromMember(o, 0, s);
    }
    PlannedFromSorted(o, 0);
  }

  /** With the default options nothing runs, in single mode. */
  lemma DefaultsRunNothing()
    ensures Planned(Defaults) == [] && Defaults.pipelineMode == "single"
  {
  }

  /** What a mode does, in order. */
  datatype Event =
    | Began(stage: Stage)
    | KeptFile(path: string)
    | Saved(path: string)
    | Loaded(path: string)
    | Reused(path: string)
    | DirsCreated(count: nat)
    | JobsRun(jobs: seq<CaseControlGrid.Job>)

  /** The stages a log shows begun, in order. */
  function StagesOf(log: seq<Event>): seq<Stage> {
    if log == [] then []
    else StagesOf(log[..|log| - 1]) + (if log[|log| - 1].Began? then [log[|log| - 1].stage] else [])
  }

  /** `b` is `a` followed by events that begin no stage. */
  predicate Extends(a: seq<Event>, b: seq<Event>) {
    |a| <= |b| && b[..|a|] == a && forall i :: |a| <= i < |b| ==> !b[i].Began?
  }

  /** Events that begin no stage leave the stages of a log alone. */
  lemma {:induction false} ExtendsStages(a: seq<Event>, b: seq<Event>)
    requires Extends(a, b)
    ensures StagesOf(b) == StagesOf(a)
    decreases |b|
  {
    if |b| > |a| {
      var init := b[..|b| - 1];
      assert init[..|a|] == a;
      ExtendsStages(a, init);
    } else {
      assert b == a;
    }
  }

  /** Beginning a stage adds it to the stages of the log. */
  lemma BeganStage(log: seq<Event>, s: Stage)
    ensures StagesOf(log + [Began(s)]) == StagesOf(log) + [s]
  {
    assert (log + [Began(s)])[..|log|] == log;
  }

  /** Logs extended twice are extended once. */
  lemma ExtendsTrans(a: seq<Event>, b: seq<Event>, c: seq<Event>)
    requires Extends(a, b) && Extends(b, c)
    ensures Extends(a, c)
  {
    assert c[..|a|] == c[..|b|][..|a|];
  }

  /** One more position of the run order: when its stage is enabled it is
      begun and then only non-stage events follow, otherwise nothing
      happens. Either way the stages logged so far stay a prefix of the
      plan. */
  lemma Advance(o: Options, k: nat, whole: seq<Stage>, before: seq<Event>, after: seq<Event>)
    requires k < 6
    requires whole == StagesOf(before) + PlannedFrom(o, k)
    requires Enabled(o, StageAt(k)) ==> Extends(before + [Began(StageAt(k))], after)
    requires !Enabled(o, StageAt(k)) ==> after == before
    ensures whole == StagesOf(after) + PlannedFrom(o, k + 1)
    ensures StagesOf(after) <= whole
    ensures before <= after
  {
    var s := StageAt(k);
    if Enabled(o, s) {
      AdvanceEnabled(o, k, before, after);
      Shift(StagesOf(before), StagesOf(after), s, PlannedFrom(o, k), PlannedFrom(o, k + 1));
      PrefixOfLonger(before, Began(s), after);
    } else {
      assert PlannedFrom(o, k) == PlannedFrom(o, k + 1);
    }
    PrefixOfAppend(StagesOf(after), PlannedFrom(o, k + 1));
  }

  /** Moving the head of the remainder onto the end of the done part keeps
      the whole. */
  lemma Shift<T>(done: seq<T>, done': seq<T>, x: T, todo: seq<T>, todo': seq<T>)
    requires done' == done + [x] && todo == [x] + todo'
    ensures done + todo == done' + todo'
  {
    assert done + ([x] + todo') == (done + [x]) + todo';
  }

  lemma PrefixOfAppend<T>(a: seq<T>, b: seq<T>)
    ensures a <= a + b
  {
    assert (a + b)[..|a|] == a;
  }

  lemma PrefixTrans<T>(a: seq<T>, b: seq<T>, c: seq<T>)
    requires a <= b && b <= c
    ensures a <= c
  {
    assert c[..|a|] == b[..|a|];
  }

  lemma PrefixOfLonger<T>(a: seq<T>, x: T, b: seq<T>)
    requires a + [x] <= b
    ensures a <= b
  {
    assert b[..|a|] == (a + [x])[..|a|];
  }

  /** An enabled stage moves from the plan to the log. */
  lemma AdvanceEnabled(o: Options, k: nat, before: seq<Event>, after: seq<Event>)
    requires k < 6 && Enabled(o, StageAt(k))
    requires Extends(before + [Began(StageAt(k))], after)
    ensures StagesOf(after) == StagesOf(before) + [StageAt(k)]
    ensures PlannedFrom(o, k) == [StageAt(k)] + PlannedFrom(o, k + 1)
  {
    BeganStage(before, StageAt(k));
    ExtendsStages(before + [Began(StageAt(k))], after);
  }

  // ---------------------------------------------------------------------
  // Download

  /** `os.path.join(dir, name)` for a relative `name`. */
  function PathJoin(dir: string, name: string): string {
    if dir == [] || dir[|dir| - 1] == '/' then dir + name else dir + "/" + name
  }

  /** `"HapMap3_%s_chr%d.pop" % (sample, chrom)` inside the destination. */
  function PopFile(dest: string, sample: string, chrom: int): string {
    PathJoin(dest, "HapMap3_" + sample + "_chr" + IntToString(chrom) + ".pop")
  }

  /** One population file the download loop visits. */
  datatype Target = Target(path: string, sample: string, chrom: int)

  /** The files of one chromosome, one per HapMap sample. */
  function Row(dest: string, chrom: int, samples: seq<string>): (r: seq<Target>)
    ensures |r| == |samples|
    ensures forall k :: 0 <= k < |samples| ==>
      r[k] == Target(PopFile(dest, samples[k], chrom), samples[k], chrom)
  {
    if samples == [] then []
    else
      var s := samples[|samples| - 1];
      Row(dest, chrom, samples[..|samples| - 1]) + [Target(PopFile(dest, s, chrom), s, chrom)]
  }

  /** The files the download loop visits: chromosome by chromosome, sample
      by sample. */
  function Targets(dest: string, chroms: seq<int>, samples: seq<string>): seq<Target> {
    if chroms == [] then []
    else Targets(dest, chroms[..|chroms| - 1], samples) + Row(dest, chroms[|chroms| - 1], samples)
  }

  /** The files and the log. */
  datatype Disk = Disk(files: map<string, Option<nat>>, log: seq<Event>)

  /** `path` holds a population of `size` individuals. */
  predicate Current(files: map<string, Option<nat>>, path: string, size: nat) {
    path in files && files[path] == Some(size)
  }

  /** One visit: a file that already holds a population of the expected
      size is kept; any other is fetched and saved over. */
  function Visit(d: Disk, t: Target, expected: string -> nat, fetch: (int, string) -> nat): Disk {
    if Current(d.files, t.path, expected(t.sample)) then Disk(d.files, d.log + [KeptFile(t.path)])
    else Disk(d.files[t.path := Some(fetch(t.chrom, t.sample))], d.log + [Saved(t.path)])
  }

  /** One visit as the driver writes it: the fetch calls `loadHapMapPop`,
      which the driver neither defines nor imports, so every file that is
      not kept raises NameError; only a file already holding a population
      of the expected size gets through, and then as `Visit` would keep it. */
  function VisitAsWritten(d: Disk, t: Target, expected: string -> nat): (r: Result<Disk, string>)
    ensures r.Success? <==> Current(d.files, t.path, expected(t.sample))
    ensures r.Success? ==> forall fetch :: r.value == Visit(d, t, expected, fetch)
  {
    if Current(d.files, t.path, expected(t.sample)) then Success(Disk(d.files, d.log + [KeptFile(t.path)]))
    else Failure("NameError: name 'loadHapMapPop' is not defined")
  }

  /** The visits of a list of files, in order. */
  function VisitAll(d: Disk, ts: seq<Target>, expected: string -> nat, fetch: (int, string) -> nat): Disk {
    if ts == [] then d
    else Visit(VisitAll(d, ts[..|ts| - 1], expected, fetch), ts[|ts| - 1], expected, fetch)
  }

  /** Visiting two lists visits the first, then the second. */
  lemma {:induction false} VisitAllAppend(d: Disk, ts1: seq<Target>, ts2: seq<Target>,
                                          expected: string -> nat, fetch: (int, string) -> nat)
    ensures VisitAll(d, ts1 + ts2, expected, fetch) == VisitAll(VisitAll(d, ts1, expected, fetch), ts2, expected, fetch)
  {
    if ts2 == [] {
      assert ts1 + ts2 == ts1;
    } else {
      var init := ts2[..|ts2| - 1];
      VisitAllAppend(d, ts1, init, expected, fetch);
      assert (ts1 + ts2)[..|ts1 + ts2| - 1] == ts1 + init;
    }
  }

  /** After the download every visited file holds a population, files
      outside the list are untouched, and one event is logged per visit. */
  lemma {:induction false} VisitAllFills(d: Disk, ts: seq<Target>, expected: string -> nat, fetch: (int, string) -> nat)
    ensures var r := VisitAll(d, ts, expected, fetch);
      && (forall i :: 0 <= i < |ts| ==> ts[i].path in r.files && r.files[ts[i].path].Some?)
      && (forall p :: p in d.files ==> p in r.files)
      && (forall p :: p in d.files && (forall i :: 0 <= i < |ts| ==> ts[i].path != p) ==> r.files[p] == d.files[p])
      && |r.log| == |d.log| + |ts| && r.log[..|d.log|] == d.log
  {
    if ts != [] {
      var init := ts[..|ts| - 1];
      VisitAllFills(d, init, expected, fetch);
      var m := VisitAll(d, init, expected, fetch);
      assert m.log == VisitAll(d, ts, expected, fetch).log[..|m.log|];
      forall p | p in d.files && (forall i :: 0 <= i < |ts| ==> ts[i].path != p)
        ensures VisitAll(d, ts, expected, fetch).files[p] == d.files[p]
      {
        assert ts[|ts| - 1].path != p;
        assert forall i :: 0 <= i < |init| ==> init[i].path != p by {
          forall i | 0 <= i < |init| ensures init[i].path != p {
            assert init[i] == ts[i];
          }
        }
      }
      forall i | 0 <= i < |ts|
        ensures ts[i].path in VisitAll(d, ts, expected, fetch).files
        ensures VisitAll(d, ts, expected, fetch).files[ts[i].path].Some?
      {
        if i < |init| {
          assert init[i] == ts[i];
        }
      }
    }
  }

  /** Every file holds a population of the size its sample expects. */
  predicate Complete(files: map<string, Option<nat>>, ts: seq<Target>, expected: string -> nat) {
    forall i :: 0 <= i < |ts| ==> Current(files, ts[i].path, expected(ts[i].sample))
  }

  /** A download directory that is already complete is left as it is:
      every file is kept and only the keeping is logged. */
  lemma {:induction false} CompleteKept(d: Disk, ts: seq<Target>, expected: string -> nat, fetch: (int, string) -> nat)
    requires Complete(d.files, ts, expected)
    ensures VisitAll(d, ts, expected, fetch) == Disk(d.files, d.log + Kept(ts))
  {
    if ts != [] {
      var init := ts[..|ts| - 1];
      assert Complete(d.files, init, expected) by {
        forall i | 0 <= i < |init| ensures Current(d.files, init[i].path, expected(init[i].sample)) {
          assert init[i] == ts[i];
        }
      }
      CompleteKept(d, init, expected, fetch);
      assert Kept(ts) == Kept(init) + [KeptFile(ts[|ts| - 1].path)];
    }
  }

  /** The keep events of a list of files. */
  function Kept(ts: seq<Target>): (r: seq<Event>)
    ensures |r| == |ts| && forall i :: 0 <= i < |ts| ==> r[i] == KeptFile(ts[i].path)
  {
    seq(|ts|, i requires 0 <= i < |ts| => KeptFile(ts[i].path))
  }

  /** When every fetch yields the expected size and a path names a single
      sample, the download leaves the directory complete, so a second run
      keeps every file. */
  lemma {:induction false} FetchCompletes(d: Disk, ts: seq<Target>, expected: string -> nat, fetch: (int, string) -> nat)
    requires forall i :: 0 <= i < |ts| ==> fetch(ts[i].chrom, ts[i].sample) == expected(ts[i].sample)
    requires forall i, j :: 0 <= i < |ts| && 0 <= j < |ts| && ts[i].path == ts[j].path ==> ts[i].sample == ts[j].sample
    ensures Complete(VisitAll(d, ts, expected, fetch).files, ts, expected)
  {
    if ts != [] {
      var init := ts[..|ts| - 1];
      var t := ts[|ts| - 1];
      FetchCompletes(d, init, expected, fetch);
      var m := VisitAll(d, init, expected, fetch);
      var r := VisitAll(d, ts, expected, fetch);
      assert Current(r.files, t.path, expected(t.sample));
      forall i | 0 <= i < |ts|
        ensures Current(r.files, ts[i].path, expected(ts[i].sample))
      {
        if i < |init| && ts[i].path != t.path {
          assert init[i] == ts[i];
        }
      }
    }
  }

  // ---------------------------------------------------------------------
  // Marker lists

  /** A comment line (starting with `#`) or a blank one. */
  predicate CommentLine(line: string) {
    StartsWith(line, "#") || IsBlank(line)
  }

  /** The first white-space word of the first comma field of a line, or
      None where that field is blank and taking its first word raises. */
  function MarkerOf(line: string): Option<string> {
    FirstWord(Split(line, ',')[0])
  }

  /** What one line of a marker list is. */
  datatype LineKind = Comment | Bad | Marker(name: string)

  /** A comment line, a marker line whose first field is blank, or a
      marker line and its marker name. */
  function Classify(line: string): (k: LineKind)
    ensures k.Comment? <==> CommentLine(line)
    ensures k.Bad? <==> !CommentLine(line) && MarkerOf(line).None?
    ensures k.Marker? ==> MarkerOf(line) == Some(k.name)
  {
    if CommentLine(line) then Comment
    else if MarkerOf(line).None? then Bad
    else Marker(MarkerOf(line).value)
  }

  /** The names of the lines as `kind` sees them, in order, skipping
      comments; the first bad line raises IndexError. */
  function ReadAll(lines: seq<string>, kind: string -> LineKind): Result<seq<string>, string> {
    if lines == [] then Success([])
    else
      var prev := ReadAll(lines[..|lines| - 1], kind);
      var k := kind(lines[|lines| - 1]);
      if prev.Failure? || k.Comment? then prev
      else if k.Bad? then Failure("IndexError: list index out of range")
      else Success(prev.value + [k.name])
  }

  /** The marker names of a marker list. */
  function Markers(lines: seq<string>): Result<seq<string>, string> {
    ReadAll(lines, Classify)
  }

  /** The marker loop of `getInitPop`. */
  method ParseMarkers(lines: seq<string>) returns (r: Result<seq<string>, string>)
    ensures r == Markers(lines)
  {
    var names := [];
    for i := 0 to |lines|
      invariant ReadAll(lines[..i], Classify) == Success(names)
    {
      var line := lines[i];
      assert lines[..i + 1][..i] == lines[..i];
      if StartsWith(line, "#") || IsBlank(line) {
        continue;
      }
      var word := FirstWord(Split(line, ',')[0]);
      if word.None? {
        ReadAllFailed(lines, i + 1, Classify);
        return Failure("IndexError: list index out of range");
      }
      names := names + [word.value];
    }
    assert lines[..|lines|] == lines;
    return Success(names);
  }

  /** Once a prefix of the lines raises, the whole list raises the same. */
  lemma {:induction false} ReadAllFailed(lines: seq<string>, k: nat, kind: string -> LineKind)
    requires k <= |lines| && ReadAll(lines[..k], kind).Failure?
    ensures ReadAll(lines, kind) == ReadAll(lines[..k], kind)
    decreases |lines| - k
  {
    if k < |lines| {
      assert lines[..k + 1][..k] == lines[..k];
      ReadAllFailed(lines, k + 1, kind);
    } else {
      assert lines[..k] == lines;
    }
  }

  /** Reading fails exactly when some line is bad. */
  lemma {:induction false} ReadAllFailure(lines: seq<string>, kind: string -> LineKind)
    ensures ReadAll(lines, kind).Failure? <==> exists i :: 0 <= i < |lines| && kind(lines[i]).Bad?
  {
    if lines != [] {
      var init := lines[..|lines| - 1];
      ReadAllFailure(init, kind);
      if exists i :: 0 <= i < |init| && kind(init[i]).Bad? {
        var i :| 0 <= i < |init| && kind(init[i]).Bad?;
        assert lines[i] == init[i];
      }
      if exists i :: 0 <= i < |lines| && kind(lines[i]).Bad? {
        var i :| 0 <= i < |lines| && kind(lines[i]).Bad?;
        if i < |init| {
          assert init[i] == lines[i];
        }
      }
    }
  }

  /** A successful read gives one name per marker line, in order. */
  lemma {:induction false} ReadAllNames(lines: seq<string>, kind: string -> LineKind)
    requires ReadAll(lines, kind).Success?
    ensures |ReadAll(lines, kind).value| <= |lines|
    ensures forall k :: 0 <= k < |ReadAll(lines, kind).value| ==>
      exists i :: 0 <= i < |lines| && kind(lines[i]) == Marker(ReadAll(lines, kind).value[k])
  {
    if lines != [] {
      var init := lines[..|lines| - 1];
      ReadAllNames(init, kind);
      var names := ReadAll(lines, kind).value;
      forall k | 0 <= k < |names|
        ensures exists i :: 0 <= i < |lines| && kind(lines[i]) == Marker(names[k])
      {
        if k < |ReadAll(init, kind).value| {
          var i :| 0 <= i < |init| && kind(init[i]) == Marker(ReadAll(init, kind).value[k]);
          assert lines[i] == init[i];
        } else {
          assert kind(lines[|lines| - 1]) == Marker(names[k]);
        }
      }
    }
  }

  /** Reading a marker list fails exactly when some marker line has a blank
      first field. */
  lemma MarkersFailure(lines: seq<string>)
    ensures Markers(lines).Failure? <==>
      exists i :: 0 <= i < |lines| && !CommentLine(lines[i]) && MarkerOf(lines[i]).None?
  {
    ReadAllFailure(lines, Classify);
    if exists i :: 0 <= i < |lines| && !CommentLine(lines[i]) && MarkerOf(lines[i]).None? {
      var i :| 0 <= i < |lines| && !CommentLine(lines[i]) && MarkerOf(lines[i]).None?;
      assert Classify(lines[i]).Bad?;
    }
  }

  /** Every marker name read is a non-empty word without white space or
      commas, the first word of the first field of a marker line. */
  lemma MarkersWords(lines: seq<string>)
    requires Markers(lines).Success?
    ensures |Markers(lines).value| <= |lines|
    ensures forall k :: 0 <= k < |Markers(lines).value| ==>
      && Word(Markers(lines).value[k])
      && exists i :: 0 <= i < |lines| && !CommentLine(lines[i]) && MarkerOf(lines[i]) == Some(Markers(lines).value[k])
  {
    ReadAllNames(lines, Classify);
    var names := Markers(lines).value;
    forall k | 0 <= k < |names|
      ensures Word(names[k])
      ensures exists i :: 0 <= i < |lines| && !CommentLine(lines[i]) && MarkerOf(lines[i]) == Some(names[k])
    {
      var i :| 0 <= i < |lines| && Classify(lines[i]) == Marker(names[k]);
      MarkerOfWord(lines[i]);
    }
  }

  /** A non-empty string without white space or commas. */
  predicate Word(w: string) {
    |w| >= 1 && forall i :: 0 <= i < |w| ==> !IsSpace(w[i]) && w[i] != ','
  }

  /** A marker name read from a line is a word. */
  lemma MarkerOfWord(line: string)
    ensures MarkerOf(line).Some? ==> Word(MarkerOf(line).value)
  {
    var f := Split(line, ',')[0];
    SplitFirst(line, ',');
    var t := DropSpaces(f);
    if t != [] {
      var w := TakeWord(t);
      forall i | 0 <= i < |w|
        ensures w[i] != ','
      {
        assert w[i] == t[i] == f[|f| - |t| + i];
      }
    }
  }

  /** A line that starts with a marker name followed by a comma, white
      space or nothing gives back that name. */
  lemma MarkerOfLine(name: string, rest: string)
    requires Word(name)
    requires rest == [] || rest[0] == ',' || IsSpace(rest[0])
    ensures MarkerOf(name + rest) == Some(name)
  {
    var line := name + rest;
    var f := Split(line, ',')[0];
    SplitFirst(line, ',');
    assert |f| >= |name|;
    assert f[..|name|] == name;
    assert |f| == |name| || IsSpace(f[|name|]);
    assert DropSpaces(f) == f;
    var w := TakeWord(f);
    assert |w| == |name|;
    assert w == name;
  }

  /** The files of the workspace and what the driver has done so far. */
  class Workspace {
    var files: map<string, Option<nat>>
    var log: seq<Event>

    /** A workspace over the given files, with nothing done yet. */
    constructor (existing: map<string, Option<nat>>)
      ensures files == existing && log == []
    {
      files := existing;
      log := [];
    }

    /** The body of the download loop for one file: `fetch` is the size of
        the population `loadHapMapPop` builds. */
    method DownloadPop(t: Target, expected: string -> nat, fetch: (int, string) -> nat)
      modifies this
      ensures Disk(files, log) == Visit(Disk(old(files), old(log)), t, expected, fetch)
      ensures Extends(old(log), log)
    {
      if t.path in files && files[t.path] == Some(expected(t.sample)) {
        log := log + [KeptFile(t.path)];
      } else {
        var pop := fetch(t.chrom, t.sample);
        files := files[t.path := Some(pop)];
        log := log + [Saved(t.path)];
      }
    }

    /** `downloadData`: unless `skip` is set, visit every HapMap sample of
        every chromosome, keeping files that already hold a population of
        the expected size and fetching the others. */
    method DownloadData(skip: bool, chroms: seq<int>, dest: string, samples: seq<string>,
                        expected: string -> nat, fetch: (int, string) -> nat)
      modifies this
      ensures skip ==> files == old(files) && log == old(log)
      ensures !skip ==> Disk(files, log) == VisitAll(Disk(old(files), old(log)), Targets(dest, chroms, samples), expected, fetch)
      ensures Extends(old(log), log)
    {
      if skip {
        return;
      }
      ghost var d0 := Disk(files, log);
      for i := 0 to |chroms|
        invariant Disk(files, log) == VisitAll(d0, Targets(dest, chroms[..i], samples), expected, fetch)
        invariant Extends(d0.log, log)
      {
        ghost var before := log;
        DownloadChrom(chroms[i], dest, samples, expected, fetch);
        assert chroms[..i + 1][..i] == chroms[..i];
        VisitAllAppend(d0, Targets(dest, chroms[..i], samples), Row(dest, chroms[i], samples), expected, fetch);
        ExtendsTrans(d0.log, before, log);
      }
      assert chroms[..|chroms|] == chroms;
    }

    /** The inner download loop: the files of one chromosome. */
    method DownloadChrom(chrom: int, dest: string, samples: seq<string>,
                         expected: string -> nat, fetch: (int, string) -> nat)
      modifies this
      ensures Disk(files, log) == VisitAll(Disk(old(files), old(log)), Row(dest, chrom, samples), expected, fetch)
      ensures Extends(old(log), log)
    {
      ghost var d0 := Disk(files, log);
      for k := 0 to |samples|
        invariant Disk(files, log) == VisitAll(d0, Row(dest, chrom, samples[..k]), expected, fetch)
        invariant Extends(d0.log, log)
      {
        ghost var before := log;
        var sample := samples[k];
        var popFile := PopFile(dest, sample, chrom);
        DownloadPop(Target(popFile, sample, chrom), expected, fetch);
        assert samples[..k + 1][..k] == samples[..k];
        assert Row(dest, chrom, samples[..k + 1])[..k] == Row(dest, chrom, samples[..k]);
        ExtendsTrans(d0.log, before, log);
      }
      assert samples[..|samples|] == samples;
    }

    /** `getInitPop`: an existing population file is kept; otherwise the
        marker names are read from the marker list, when one is named, the
        selected population (`select` of the names gives its size) is saved
        under `filename` and the marker list under `filename + ".lst"`. A
        marker list with a marker line whose first field is blank raises. */
    method GetInitPop(p: InitPars, lines: seq<string>, select: seq<string> -> nat)
      returns (r: Result<Option<seq<string>>, string>)
      modifies this
      ensures Extends(old(log), log)
      ensures p.filename in old(files) ==>
        r == Success(None) && files == old(files) && log == old(log) + [KeptFile(p.filename)]
      ensures p.filename !in old(files) && p.markerList != "" && Markers(lines).Failure? ==>
        r.Failure? && files == old(files) && log == old(log)
      ensures p.filename !in old(files) && (p.markerList == "" || Markers(lines).Success?) ==>
        var names := if p.markerList == "" then [] else Markers(lines).value;
        && r == Success(Some(names))
        && files == old(files)[p.filename := Some(select(names))][p.filename + ".lst" := None]
        && log == old(log) + [Saved(p.filename), Saved(p.filename + ".lst")]
    {
      if p.filename in files {
        log := log + [KeptFile(p.filename)];
        return Success(None);
      }
      var names := [];
      if p.markerList != "" {
        var parsed := ParseMarkers(lines);
        if parsed.Failure? {
          return Failure(parsed.error);
        }
        names := parsed.value;
      }
      var pop := select(names);
      files := files[p.filename := Some(pop)];
      files := files[p.filename + ".lst" := None];
      log := log + [Saved(p.filename), Saved(p.filename + ".lst")];
      return Success(Some(names));
    }

    /** `getExpandPop`: an existing expanded population is kept; in run mode
        "Now" the initial population is loaded (a missing or non-population
        file raises) and evolved into a population of `evolved`
        individuals, saved when a file name is given and kept in memory; in
        run mode "Batch" only the configuration is saved; any other run mode
        does nothing. */
    method GetExpandPop(p: ExpandPars, evolved: nat) returns (r: Result<Option<nat>, string>)
      modifies this
      ensures Extends(old(log), log)
      ensures p.filename in old(files) ==>
        r == Success(None) && files == old(files) && log == old(log) + [KeptFile(p.filename)]
      ensures p.filename !in old(files) && p.runMode == "Now" && !Loadable(old(files), p.initPop) ==>
        r.Failure? && files == old(files) && log == old(log)
      ensures p.filename !in old(files) && p.runMode == "Now" && Loadable(old(files), p.initPop) ==>
        && r == Success(Some(evolved))
        && files == (if p.filename == "" then old(files) else old(files)[p.filename := Some(evolved)])
        && log == old(log) + [Loaded(p.initPop)] + (if p.filename == "" then [] else [Saved(p.filename)])
      ensures p.filename !in old(files) && p.runMode == "Batch" ==>
        r == Success(None) && files == old(files)[ConfigFile := None] && log == old(log) + [Saved(ConfigFile)]
      ensures p.filename !in old(files) && p.runMode != "Now" && p.runMode != "Batch" ==>
        r == Success(None) && files == old(files) && log == old(log)
    {
      if p.filename in files {
        log := log + [KeptFile(p.filename)];
        return Success(None);
      }
      if p.runMode == "Now" {
        if !(p.initPop in files && files[p.initPop].Some?) {
          return Failure("IOError: cannot load population " + p.initPop);
        }
        log := log + [Loaded(p.initPop)];
        var pop := evolved;
        if p.filename != "" {
          files := files[p.filename := Some(pop)];
          log := log + [Saved(p.filename)];
        }
        return Success(Some(pop));
      } else if p.runMode == "Batch" {
        files := files[ConfigFile := None];
        log := log + [Saved(ConfigFile)];
      }
      return Success(None);
    }

    /** The case/control stage of single mode around the sampling itself:
        after an expansion in this run, the population in memory is reused
        when its file name is the one the sampler asks for, and loaded from
        that file otherwise (a missing or non-population file raises); an
        existing sample file is kept; otherwise the rejection sampler runs
        on the candidates the world supplies and, when both quotas fill,
        the sample it keeps is saved. */
    method CaseControl(expandRan: bool, expandFile: string, p: CaseControlPars, w: World, cfg: Config.Globals)
      returns (r: Result<bool, string>)
      requires cfg.Idle() && Sampleable(w)
      modifies this, cfg
      ensures cfg.Idle()
      ensures Extends(old(log), log)
      ensures expandRan && expandFile != p.expandPop && !Loadable(old(files), p.expandPop) ==>
        r.Failure? && files == old(files) && log == old(log)
      ensures !(expandRan && expandFile != p.expandPop && !Loadable(old(files), p.expandPop)) ==>
        var source := if !expandRan then [] else if expandFile == p.expandPop then [Reused(p.expandPop)] else [Loaded(p.expandPop)];
        if p.sampledPop in old(files) then
          r == Success(false) && files == old(files) && log == old(log) + source + [KeptFile(p.sampledPop)]
        else if Fills(p, w) then
          r == Success(true) && files == old(files)[p.sampledPop := Some(p.numCases + p.numControls)]
          && log == old(log) + source + [Saved(p.sampledPop)]
        else
          r.Failure? && files == old(files) && log == old(log) + source
    {
      if expandRan {
        if expandFile == p.expandPop {
          log := log + [Reused(p.expandPop)];
        } else {
          if !(p.expandPop in files && files[p.expandPop].Some?) {
            return Failure("IOError: cannot load population " + p.expandPop);
          }
          log := log + [Loaded(p.expandPop)];
        }
      }
      if p.sampledPop in files {
        log := log + [KeptFile(p.sampledPop)];
        return Success(false);
      }
      r := SampleAndSave(p, w, cfg);
    }

    /** The sampler runs on the world's candidates; a full sample is saved
        to the sample file. */
    method SampleAndSave(p: CaseControlPars, w: World, cfg: Config.Globals) returns (r: Result<bool, string>)
      requires cfg.Idle() && Sampleable(w)
      modifies this, cfg
      ensures cfg.Idle()
      ensures Fills(p, w) ==>
        r == Success(true) && files == old(files)[p.sampledPop := Some(p.numCases + p.numControls)]
        && log == old(log) + [Saved(p.sampledPop)]
      ensures !Fills(p, w) ==> r.Failure? && files == old(files) && log == old(log)
    {
      var sample := SingleGeneModel.Penetrance(cfg, w.locus, p.grr, p.wtr, p.numCases, p.numControls, w.stream);
      if sample.Failure? {
        return Failure(sample.error);
      }
      files := files[p.sampledPop := Some(|sample.value|)];
      log := log + [Saved(p.sampledPop)];
      return Success(true);
    }

    /** The download stage, when enabled: it cannot fail. */
    method DownloadStep(o: Options, a: Answers, w: World, ghost whole: seq<Stage>)
      modifies this
      ensures old(log) <= log
      requires whole == StagesOf(log) + PlannedFrom(o, 0)
      ensures whole == StagesOf(log) + PlannedFrom(o, 1)
    {
      ghost var before := log;
      if o.download {
        log := log + [Began(DownloadStage)];
        DownloadData(a.download.skip, a.download.chroms, a.download.dest, w.samples, w.expected, w.fetch);
      }
      Advance(o, 0, whole, before, log);
    }

    /** The init stage, when enabled. */
    method InitStep(o: Options, a: Answers, w: World, ghost whole: seq<Stage>) returns (err: Option<string>)
      modifies this
      ensures old(log) <= log
      requires whole == StagesOf(log) + PlannedFrom(o, 1)
      ensures StagesOf(log) <= whole
      ensures err.None? ==> whole == StagesOf(log) + PlannedFrom(o, 2)
      ensures err.Some? ==> o.init
    {
      ghost var before := log;
      err := None;
      if o.init {
        log := log + [Began(InitStage)];
        var made := GetInitPop(a.init, w.markerLines, w.select);
        if made.Failure? {
          err := Some(made.error);
        }
      }
      Advance(o, 1, whole, before, log);
    }

    /** The expand stage, when enabled. */
    method ExpandStep(o: Options, a: Answers, w: World, ghost whole: seq<Stage>) returns (err: Option<string>)
      modifies this
      ensures old(log) <= log
      requires whole == StagesOf(log) + PlannedFrom(o, 2)
      ensures StagesOf(log) <= whole
      ensures err.None? ==> whole == StagesOf(log) + PlannedFrom(o, 3)
      ensures err.Some? ==> o.expand
    {
      ghost var before := log;
      err := None;
      if o.expand {
        err := ExpandRun(a, w);
      }
      Advance(o, 2, whole, before, log);
    }

    /** The expand stage's work: the stage is logged, then the expanded
        population is made or kept. */
    method ExpandRun(a: Answers, w: World) returns (err: Option<string>)
      modifies this
      ensures Extends(old(log) + [Began(ExpandStage)], log)
    {
      log := log + [Began(ExpandStage)];
      var expanded := GetExpandPop(a.expand, w.evolved);
      if expanded.Failure? {
        err := Some(expanded.error);
      } else {
        err := None;
      }
    }

    /** The download, init and expand stages, as both modes run them. */
    method EarlyStages(o: Options, a: Answers, w: World, ghost whole: seq<Stage>) returns (err: Option<string>)
      modifies this
      requires whole == StagesOf(log) + Planned(o)
      ensures StagesOf(log) <= whole
      ensures err.None? ==> whole == StagesOf(log) + PlannedFrom(o, 3)
      ensures err.Some? ==> o.init || o.expand
      ensures old(log) <= log
    {
      DownloadStep(o, a, w, whole);
      err := InitStep(o, a, w, whole);
      if err.None? {
        err := ExpandStep(o, a, w, whole);
      }
    }

    /** The case/control stage of single mode, when enabled. Its dialog
        reads the sampler's options and the `gui` keyword argument; `fix`
        says which of the two the caller supplies. With both, the stage
        samples and saves, or keeps an existing sample. */
    method PenetranceStep(o: Options, fix: Repairs, a: Answers, w: World, cfg: Config.Globals, ghost whole: seq<Stage>)
      returns (err: Option<string>)
      requires whole == StagesOf(log) + PlannedFrom(o, 3)
      requires cfg.Idle() && Sampleable(w)
      modifies this, cfg
      ensures cfg.Idle()
      ensures old(log) <= log
      ensures StagesOf(log) <= whole
      ensures err.None? ==> whole == StagesOf(log) + PlannedFrom(o, 4)
      ensures o.penetrance && !fix.sampler ==> err == Some(NoSamplerOptions)
      ensures o.penetrance && fix.sampler && !fix.gui ==> err == Some(NoGui)
      ensures err.Some? ==> o.penetrance
      ensures !o.penetrance ==> files == old(files)
      ensures err.None? && o.penetrance ==> a.caseControl.sampledPop in files
    {
      ghost var before := log;
      err := None;
      if o.penetrance {
        log := log + [Began(PenetranceStage)];
        if !fix.sampler {
          err := Some(NoSamplerOptions);
        } else if !fix.gui {
          err := Some(NoGui);
        } else {
          var sampled := CaseControl(o.expand, a.expand.filename, a.caseControl, w, cfg);
          if sampled.Failure? {
            err := Some(sampled.error);
          }
        }
      }
      Advance(o, 3, whole, before, log);
    }

    /** The format stage, when enabled: it reads the `gui` keyword argument;
        with a logger the dispatcher cannot abort. */
    method FormatStep(o: Options, hasGui: bool, fp: FormatPars, w: World, ghost whole: seq<Stage>)
      returns (r: Result<seq<seq<string>>, string>)
      modifies this
      requires whole == StagesOf(log) + PlannedFrom(o, 4)
      ensures old(log) <= log
      ensures files == old(files)
      ensures StagesOf(log) <= whole
      ensures r.Success? ==> whole == StagesOf(log) + PlannedFrom(o, 5)
      ensures r.Failure? <==> o.format && !hasGui
      ensures r.Success? ==> r.value == (if o.format then Formatted(fp, w) else [])
    {
      ghost var before := log;
      r := Success([]);
      if o.format {
        log := log + [Began(FormatStage)];
        if !hasGui {
          r := Failure(NoGui);
        } else {
          var made := Format.FormatFiles(fp.formatters, fp.inputfile, w.registry, w.create, true);
          r := Success(made.value);
        }
      }
      Advance(o, 4, whole, before, log);
    }

    /** The script stage of single mode, when enabled: it reads the `gui`
        keyword argument, and a cancelled script dialog exits. */
    method ClineStep(o: Options, hasGui: bool, fp: FormatPars, w: World, ghost whole: seq<Stage>)
      returns (r: Result<seq<string>, string>)
      modifies this
      requires whole == StagesOf(log) + PlannedFrom(o, 5)
      ensures old(log) <= log
      ensures files == old(files)
      ensures StagesOf(log) <= whole
      ensures r.Success? ==> whole == StagesOf(log) + PlannedFrom(o, 6)
      ensures o.cline && !hasGui ==> r.Failure?
      ensures r.Failure? ==> o.cline
      ensures r.Success? && o.cline ==> Scripts(fp, w) == r
      ensures r.Success? && !o.cline ==> r.value == []
    {
      ghost var before := log;
      r := Success([]);
      if o.cline {
        log := log + [Began(ClineStage)];
        if !hasGui {
          r := Failure(NoGui);
        } else {
          r := ClineWriter.Cliner(fp.formatters, w.registry, w.scripts, true);
          if r.Failure? {
            r := Failure("exit status 1");
          }
        }
      }
      Advance(o, 5, whole, before, log);
    }

    /** `single_mode`: the enabled stages in the fixed order. The
        case/control stage reads the sampler's options and the `gui`
        keyword argument, the format and script stages read `gui`; `fix`
        says which of these the caller supplies. When the run succeeds
        every enabled stage has run, a sample file exists, and the format
        and script stages give what the dispatchers give. */
    method SingleMode(o: Options, fix: Repairs, a: Answers, w: World, cfg: Config.Globals) returns (r: Result<Outcome, string>)
      requires cfg.Idle() && Sampleable(w)
      modifies this, cfg
      ensures cfg.Idle()
      ensures StagesOf(log) <= StagesOf(old(log)) + Planned(o)
      ensures r.Success? ==> StagesOf(log) == StagesOf(old(log)) + Planned(o)
      ensures o.penetrance && !fix.sampler ==> r.Failure?
      ensures !fix.gui && (o.penetrance || o.format || o.cline) ==> r.Failure?
      ensures r.Failure? ==> o.init || o.expand || o.penetrance || o.cline || (o.format && !fix.gui)
      ensures r.Success? && o.penetrance ==> a.caseControl.sampledPop in files
      ensures r.Success? ==> r.value.formatted == (if o.format then Formatted(a.format, w) else [])
      ensures r.Success? && o.cline ==> Scripts(a.format, w) == Success(r.value.scripts)
      ensures r.Success? && !o.cline ==> r.value.scripts == []
    {
      ghost var whole := StagesOf(log) + Planned(o);
      var err := EarlyStages(o, a, w, whole);
      if err.Some? {
        return Failure(err.value);
      }
      err := PenetranceStep(o, fix, a, w, cfg, whole);
      if err.Some? {
        return Failure(err.value);
      }
      var formatted := FormatStep(o, fix.gui, a.format, w, whole);
      if formatted.Failure? {
        return Failure(formatted.error);
      }
      var scripts := ClineStep(o, fix.gui, a.format, w, whole);
      if scripts.Failure? {
        return Failure(scripts.error);
      }
      return Success(Outcome(formatted.value, scripts.value));
    }

    /** `replicate_mode`, on the fresh replicate options it builds (no
        levels yet): the keyword arguments carry `gui`, False exactly
        when the pipeline's `gui` setting is "batch"; the directory grid is
        created first when asked for, and a directory that cannot be made
        ends the run; the case/control stage runs the replicate sampler,
        whose dialog reads the sampler's options (`sampler` says whether
        they are supplied) and which needs the grid's levels; the format
        stage formats the replicate dialog's programs from "rep_1.pop" in
        batch mode and asks again otherwise; the script stage names
        `dirpaths`, which is not defined there, and raises. */
    method ReplicateMode(o: Options, gui: string, sampler: bool, ro: Replicator.RepOptions, fs: Files.FileSystem,
                         a: Answers, w: World) returns (r: Result<Outcome, string>)
      requires ro.levels.None?
      modifies this, ro, fs
      ensures old(log) <= log
      ensures fs.files == old(fs.files)
      ensures ro.params.createDirs ==> ro.levels == Some(Replicator.SetupLevels(ro.params))
      ensures !ro.params.createDirs ==> ro.levels == old(ro.levels) && fs.dirs == old(fs.dirs)
      ensures ro.params.createDirs && SetupFails(old(fs.dirs), fs.files, fs.denied, ro.params) ==>
        r.Failure? && log == old(log)
      ensures ro.params.createDirs && !SetupFails(old(fs.dirs), fs.files, fs.denied, ro.params) ==>
        |log| > |old(log)| && log[|old(log)|] == DirsCreated(|GridPaths(ro.params)|)
      ensures StagesOf(log) <= StagesOf(old(log)) + Planned(o)
      ensures r.Success? ==> StagesOf(log) == StagesOf(old(log)) + Planned(o)
      ensures o.cline ==> r.Failure?
      ensures o.penetrance && !sampler ==> r.Failure?
      ensures o.penetrance && !ro.params.createDirs ==> r.Failure?
      ensures r.Failure? ==> o.init || o.expand || o.penetrance || o.cline
                             || (ro.params.createDirs && SetupFails(old(fs.dirs), fs.files, fs.denied, ro.params))
      ensures r.Success? && o.penetrance ==>
        ro.levels.Some? && JobsRun(CaseControlGrid.Jobs(ro.params, ro.levels.value)) in log
      ensures r.Success? ==>
        r.value == Outcome(if o.format then Formatted(ReplicateFormatPars(gui, ro.params.formatters, a), w) else [], [])
    {
      ghost var whole := StagesOf(log) + Planned(o);
      var made := CreateDirs(ro, fs);
      if made.Some? {
        return Failure(made.value);
      }
      ghost var created := log;
      var err := EarlyStages(o, a, w, whole);
      if err.Some? {
        return Failure(err.value);
      }
      r := ReplicateLate(o, sampler, ro, ReplicateFormatPars(gui, ro.params.formatters, a), w, whole);
      assert created <= log;
    }

    /** The directory grid, when asked for: the set-up makes the grid's
        directories, and the driver logs how many paths the grid has; a
        directory that cannot be made is an error. */
    method CreateDirs(ro: Replicator.RepOptions, fs: Files.FileSystem) returns (err: Option<string>)
      modifies this, ro, fs
      ensures StagesOf(log) == StagesOf(old(log))
      ensures fs.files == old(fs.files)
      ensures !ro.params.createDirs ==>
        err.None? && log == old(log) && ro.levels == old(ro.levels) && fs.dirs == old(fs.dirs)
      ensures ro.params.createDirs ==>
        && ro.levels == Some(Replicator.SetupLevels(ro.params))
        && fs.dirs == Replicator.Setup(old(fs.dirs), fs.files, fs.denied, GridPaths(ro.params)).dirs
        && (err.Some? <==> SetupFails(old(fs.dirs), fs.files, fs.denied, ro.params))
      ensures err.Some? ==> log == old(log)
      ensures err.None? ==> log == old(log) + (if ro.params.createDirs then [DirsCreated(|GridPaths(ro.params)|)] else [])
    {
      err := None;
      if ro.params.createDirs {
        var made, created := Replicator.DirSetup(fs, ro);
        if made.Failure? {
          return Some(made.error);
        }
        log := log + [DirsCreated(|made.value|)];
        assert Extends(old(log), log);
        ExtendsStages(old(log), log);
      }
    }

    /** The case/control stage of replicate mode, when enabled: its
        dialog reads the sampler's options (`sampler` says whether they are
        supplied), and with them it runs the job list of the grid, which
        needs the grid's levels. */
    method RepSampling(o: Options, sampler: bool, ro: Replicator.RepOptions, ghost whole: seq<Stage>)
      returns (err: Option<string>)
      modifies this
      requires whole == StagesOf(log) + PlannedFrom(o, 3)
      ensures old(log) <= log
      ensures StagesOf(log) <= whole
      ensures err.None? ==> whole == StagesOf(log) + PlannedFrom(o, 4)
      ensures err.Some? <==> o.penetrance && (!sampler || ro.levels.None?)
      ensures o.penetrance && !sampler ==> err == Some(NoSamplerOptions)
      ensures err.None? && o.penetrance ==>
        ro.levels.Some? && log == old(log) + [Began(PenetranceStage), JobsRun(CaseControlGrid.Jobs(ro.params, ro.levels.value))]
      ensures !o.penetrance ==> log == old(log)
    {
      BeginStage(o, 3, whole);
      if o.penetrance {
        if !sampler {
          return Some(NoSamplerOptions);
        }
        var jobs := CaseControlGrid.RepCaseControl(ro);
        if jobs.Failure? {
          return Some(jobs.error);
        }
        LogJobs(jobs.value);
        assert log == old(log) + [Began(PenetranceStage), JobsRun(jobs.value)];
        PrefixOfAppend(old(log), [Began(PenetranceStage), JobsRun(jobs.value)]);
        PrefixOfAppend(StagesOf(log), PlannedFrom(o, 4));
      }
      err := None;
    }

    /** Logging the job list of the grid leaves the stages alone. */
    method LogJobs(jobs: seq<CaseControlGrid.Job>)
      modifies this
      ensures log == old(log) + [JobsRun(jobs)]
      ensures StagesOf(log) == StagesOf(old(log))
    {
      log := log + [JobsRun(jobs)];
      assert Extends(old(log), log);
      ExtendsStages(old(log), log);
    }

    /** The case/control, format and script stages of replicate mode. */
    method ReplicateLate(o: Options, sampler: bool, ro: Replicator.RepOptions, fp: FormatPars, w: World,
                         ghost whole: seq<Stage>)
      returns (r: Result<Outcome, string>)
      modifies this
      requires whole == StagesOf(log) + PlannedFrom(o, 3)
      ensures old(log) <= log
      ensures StagesOf(log) <= whole
      ensures r.Success? ==> StagesOf(log) == whole
      ensures r.Failure? <==> (o.penetrance && (!sampler || ro.levels.None?)) || o.cline
      ensures o.penetrance && sampler && ro.levels.Some? ==>
        JobsRun(CaseControlGrid.Jobs(ro.params, ro.levels.value)) in log
      ensures r.Success? ==> r.value == Outcome(if o.format then Formatted(fp, w) else [], [])
    {
      ghost var start := log;
      var err := RepSampling(o, sampler, ro, whole);
      if err.Some? {
        return Failure(err.value);
      }
      ghost var sampled := log;
      var formatted := FormatStep(o, true, fp, w, whole);
      ghost var mid := log;
      BeginStage(o, 5, whole);
      PrefixTrans(start, sampled, mid);
      PrefixTrans(start, mid, log);
      PrefixTrans(sampled, mid, log);
      if o.penetrance {
        assert log[|sampled| - 1] == sampled[|sampled| - 1];
      }
      if o.cline {
        return Failure("NameError: name 'dirpaths' is not defined");
      }
      return Success(Outcome(formatted.value, []));
    }

    /** The bookkeeping of one position of the run order with nothing else
        done: its stage is logged as begun exactly when it is enabled. */
    method BeginStage(o: Options, k: nat, ghost whole: seq<Stage>)
      modifies this
      requires k < 6 && whole == StagesOf(log) + PlannedFrom(o, k)
      ensures log == old(log) + (if Enabled(o, StageAt(k)) then [Began(StageAt(k))] else [])
      ensures whole == StagesOf(log) + PlannedFrom(o, k + 1)
      ensures StagesOf(log) <= whole
    {
      ghost var before := log;
      if Enabled(o, StageAt(k)) {
        log := log + [Began(StageAt(k))];
      }
      Advance(o, k, whole, before, log);
    }

    /** The entry point: the mode the options name, with the sampler's
        options and the `gui` keyword argument supplied to the stages that
        read them; an unknown mode does nothing. */
    method Run(o: Options, gui: string, ro: Replicator.RepOptions, fs: Files.FileSystem, cfg: Config.Globals,
               a: Answers, w: World) returns (r: Result<Outcome, string>)
      requires cfg.Idle() && Sampleable(w) && ro.levels.None?
      modifies this, ro, fs, cfg
      ensures o.pipelineMode == "single" ==>
        && StagesOf(log) <= StagesOf(old(log)) + Planned(o)
        && (r.Success? ==> StagesOf(log) == StagesOf(old(log)) + Planned(o))
        && (r.Failure? ==> o.init || o.expand || o.penetrance || o.cline)
        && (r.Success? && o.penetrance ==> a.caseControl.sampledPop in files)
        && (r.Success? ==> r.value.formatted == (if o.format then Formatted(a.format, w) else []))
      ensures o.pipelineMode == "replicates" ==>
        && StagesOf(log) <= StagesOf(old(log)) + Planned(o)
        && (r.Success? ==> StagesOf(log) == StagesOf(old(log)) + Planned(o))
        && (o.cline ==> r.Failure?)
        && (o.penetrance && !ro.params.createDirs ==> r.Failure?)
        && (r.Success? && o.penetrance ==>
              ro.levels.Some? && JobsRun(CaseControlGrid.Jobs(ro.params, ro.levels.value)) in log)
        && (r.Success? ==>
              r.value == Outcome(if o.format then Formatted(ReplicateFormatPars(gui, ro.params.formatters, a), w) else [], []))
      ensures o.pipelineMode != "single" && o.pipelineMode != "replicates" ==>
        r == Success(Outcome([], [])) && files == old(files) && log == old(log)
    {
      if o.pipelineMode == "single" {
        r := SingleMode(o, Repairs(true, true), a, w, cfg);
      } else if o.pipelineMode == "replicates" {
        r := ReplicateMode(o, gui, true, ro, fs, a, w);
      } else {
        r := Success(Outcome([], []));
      }
    }
  }

  /** What the case/control dialogs raise as written: `singleGeneModel`
      defines no `options`. */
  const NoSamplerOptions := "AttributeError: 'module' object has no attribute 'options'"

  /** What a dialog raises when the `gui` keyword argument is missing. */
  const NoGui := "KeyError: 'gui'"

  /** What single mode's callers supply to the stage dialogs: the `gui`
      keyword argument, and the sampler's options. */
  datatype Repairs = Repairs(gui: bool, sampler: bool)

  /** Every candidate the world supplies carries two alleles at the
      disease locus. */
  predicate Sampleable(w: World) {
    forall k :: 0 <= k < |w.stream| ==> SingleGeneModel.Diploid(w.stream[k].genotype, w.locus)
  }

  /** The rejection sampler fills both quotas on the world's candidates. */
  predicate Fills(p: CaseControlPars, w: World)
    requires Sampleable(w)
  {
    var c := SingleGeneModel.Run(p.numCases, p.numControls,
                                 SingleGeneModel.DrawsOf(SingleGeneModel.RiskTable(p.wtr, p.grr), w.locus, w.stream));
    c.selectedCase + c.selectedControl == p.numCases + p.numControls
  }

  /** The directories of the replicate grid, at the levels the set-up computes. */
  function GridPaths(p: Replicator.RepParams): seq<string> {
    Replicator.DirPaths(p, Replicator.SetupLevels(p))
  }

  /** Making the grid's directories over the given directories and files fails. */
  predicate SetupFails(dirs: set<string>, files: map<string, Files.Content>, denied: set<string>, p: Replicator.RepParams) {
    Replicator.Setup(dirs, files, denied, GridPaths(p)).error.Some?
  }

  /** The input file `format` falls back on when no dialog asks for one. */
  const DefaultInputFile := "rep_1.pop"

  /** The format dialog's answers in replicate mode: asked again unless the
      `gui` setting is "batch", otherwise the replicate dialog's programs
      and the default input file. */
  function ReplicateFormatPars(gui: string, formatters: seq<string>, a: Answers): (fp: FormatPars)
    ensures gui == "batch" ==> fp == FormatPars(formatters, DefaultInputFile)
    ensures gui != "batch" ==> fp == a.format
  {
    if gui != "batch" then a.format else FormatPars(formatters, DefaultInputFile)
  }

  /** The name `getExpandPop` saves a batch configuration under. */
  const ConfigFile := "simuGWAS.config"

  /** `path` exists and holds a population. */
  predicate Loadable(files: map<string, Option<nat>>, path: string) {
    path in files && files[path].Some?
  }

  /** The answers of the download dialog. */
  datatype DownloadPars = DownloadPars(skip: bool, chroms: seq<int>, dest: string)

  /** The answers of the marker-selection dialog. */
  datatype InitPars = InitPars(filename: string, markerList: string)

  /** The answers of the expansion dialog. */
  datatype ExpandPars = ExpandPars(filename: string, runMode: string, initPop: string)

  /** The answers of the case/control dialog: the expanded population, the
      sample file, and the sampler's risks and quotas. */
  datatype CaseControlPars = CaseControlPars(expandPop: string, sampledPop: string, grr: real, wtr: real,
                                             numCases: nat, numControls: nat)

  /** The answers of the format and script dialogs. */
  datatype FormatPars = FormatPars(formatters: seq<string>, inputfile: string)

  /** The answers of every stage's dialog. */
  datatype Answers = Answers(download: DownloadPars, init: InitPars, expand: ExpandPars,
                             caseControl: CaseControlPars, format: FormatPars)

  /** What code outside the driver supplies: the HapMap samples and their
      sizes, the size of each population a foreign call builds, the lines
      of the marker list, the index of the disease locus and the offspring
      the mating scheme offers the sampler, with their draws, the registry, each formatter's result and each
      script dialog's answer. */
  datatype World = World(samples: seq<string>, expected: string -> nat, fetch: (int, string) -> nat,
                         markerLines: seq<string>, select: seq<string> -> nat, evolved: nat,
                         locus: nat, stream: seq<SingleGeneModel.Candidate>,
                         registry: seq<Entry>, create: (Entry, string) -> seq<string>,
                         scripts: Entry -> Option<string>)

  /** What the format and script stages return. */
  datatype Outcome = Outcome(formatted: seq<seq<string>>, scripts: seq<string>)

  /** What `format` gives for the format dialog's answers, with a logger. */
  function Formatted(fp: FormatPars, w: World): seq<seq<string>> {
    Apply(Flagged(Selected(fp.formatters, w.registry), false),
          Format.CreateWith(Format.InputFileRoot(fp.inputfile), w.create))
  }

  /** What `cliner` gives for the format dialog's answers, with a logger. */
  function Scripts(fp: FormatPars, w: World): Result<seq<string>, string> {
    if exists e :: e in Selected(fp.formatters, w.registry) && ClineWriter.Aborts(e, w.scripts, true)
    then Failure("exit status 1")
    else Success(Apply(Flagged(Selected(fp.formatters, w.registry), true), ClineWriter.BashName(w.scripts)))
  }
}
