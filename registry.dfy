/** The program registry: the `AnalysisMethod` record every analysis method
    fills in, the module paths its accessors import, and the rule by which
    the format and script dispatchers pick entries for the requested program
    names. */
module Registry {
  import opened Wrappers
  import opened Text

  /** `AnalysisMethod`: a program's name and what DPLSim can do for it. */
  class AnalysisMethod {
    var name: Option<string>
    var format: bool
    var cline: bool
    var cluster: bool
    var input: bool

    /** A fresh entry has no name and no capability. */
    constructor ()
      ensures name == None && !format && !cline && !cluster && !input
    {
      name := None;
      format := false;
      cline := false;
      cluster := false;
      input := false;
    }

    /** The record the dispatchers read of a named entry. */
    function Snapshot(): (e: Entry)
      reads this
      requires name.Some?
      ensures Some(e.name) == name && e.format == format && e.cline == cline
    {
      Entry(name.value, format, cline)
    }

    /** `getFormatter()`: the formatter module of the program when `format`
        is set, nothing otherwise; lower-casing a missing name raises. */
    function GetFormatter(): (r: Result<Option<string>, string>)
      reads this
      ensures !format ==> r == Success(None)
      ensures format && name.None? ==> r.Failure?
      ensures format && name.Some? ==> r == Success(Some(ModulePath(name.value, "formatter")))
    {
      if !format then Success(None)
      else if name.None? then Failure("'NoneType' object has no attribute 'lower'")
      else Success(Some(ModulePath(name.value, "formatter")))
    }

    /** `getClineFunction()`: the script-writer module of the program when
        `cline` is set, nothing otherwise. */
    function GetClineFunction(): (r: Result<Option<string>, string>)
      reads this
      ensures !cline ==> r == Success(None)
      ensures cline && name.None? ==> r.Failure?
      ensures cline && name.Some? ==> r == Success(Some(ModulePath(name.value, "cline")))
    {
      if !cline then Success(None)
      else if name.None? then Failure("'NoneType' object has no attribute 'lower'")
      else Success(Some(ModulePath(name.value, "cline")))
    }
  }

  /** What the dispatchers read of a registry entry: its name (`getName()`;
      every registered program names itself) and its `format` and `cline`
      flags (`hasFormatFunction()`, `hasClineFunction()`). */
  datatype Entry = Entry(name: string, format: bool, cline: bool)

  /** `"DPLSim.analysisMethods.%s.<leaf>" % name.lower()`. */
  function ModulePath(name: string, leaf: string): string {
    "DPLSim.analysisMethods." + Lower(name) + "." + leaf
  }

  /** A module path splits on dots into the package, the subpackage, the
      lower-cased program name and the leaf module, when neither the name
      nor the leaf holds a dot. */
  lemma ModulePathFields(name: string, leaf: string)
    requires '.' !in name && '.' !in leaf
    ensures Split(ModulePath(name, leaf), '.') == ["DPLSim", "analysisMethods", Lower(name), leaf]
  {
    var low := Lower(name);
    assert '.' !in low by {
      forall i | 0 <= i < |low|
        ensures low[i] != '.'
      {
        assert low[i] == LowerChar(name[i]);
      }
    }
    assert ModulePath(name, leaf) == "DPLSim.analysisMethods." + (low + ['.'] + leaf);
    DottedFields(low + ['.'] + leaf);
    SplitAfterField(low, '.', leaf);
    SplitNoSeparator(leaf, '.');
  }

  /** Upper-casing forgets a lower-casing. */
  lemma UpperLower(s: string)
    ensures Upper(Lower(s)) == Upper(s)
  {
    forall i | 0 <= i < |s|
      ensures Upper(Lower(s))[i] == Upper(s)[i]
    {
      assert Lower(s)[i] == LowerChar(s[i]);
    }
  }

  /** The names the format option offers: the third dotted component of
      `"DPLSim.analysisMethods.<dir>"`, upper-cased, for each program
      directory. */
  function ChooseFrom(dirs: seq<string>): (r: seq<string>)
    ensures |r| == |dirs|
  {
    if dirs == [] then []
    else
      var d := dirs[|dirs| - 1];
      DottedFields(d);
      ChooseFrom(dirs[..|dirs| - 1]) + [Upper(Split("DPLSim.analysisMethods." + d, '.')[2])]
  }

  /** `"DPLSim.analysisMethods.<dir>"` splits into the two package names and
      the fields of the directory name. */
  lemma DottedFields(d: string)
    ensures Split("DPLSim.analysisMethods." + d, '.') == ["DPLSim", "analysisMethods"] + Split(d, '.')
  {
    assert "DPLSim.analysisMethods." + d == "DPLSim" + ['.'] + ("analysisMethods." + d) by {
      assert "DPLSim.analysisMethods." == "DPLSim" + ['.'] + "analysisMethods.";
    }
    assert "analysisMethods." + d == "analysisMethods" + ['.'] + d;
    SplitAfterField("DPLSim", '.', "analysisMethods." + d);
    SplitAfterField("analysisMethods", '.', d);
  }

  /** Each offered name is the upper-cased directory name, when the directory
      name holds no dot. */
  lemma {:induction false} ChooseFromNames(dirs: seq<string>)
    requires forall i :: 0 <= i < |dirs| ==> '.' !in dirs[i]
    ensures forall i :: 0 <= i < |dirs| ==> ChooseFrom(dirs)[i] == Upper(dirs[i])
  {
    if dirs != [] {
      var d := dirs[|dirs| - 1];
      ChooseFromNames(dirs[..|dirs| - 1]);
      DottedFields(d);
      SplitNoSeparator(d, '.');
    }
  }

  /** `methodNames`: `getName()` of every entry, as it is, not upper-cased. */
  function Names(reg: seq<Entry>): (r: seq<string>)
    ensures |r| == |reg| && forall j :: 0 <= j < |reg| ==> r[j] == reg[j].name
  {
    if reg == [] then [] else Names(reg[..|reg| - 1]) + [reg[|reg| - 1].name]
  }

  /** `a.name.upper() == m.upper()`. */
  predicate SameName(e: Entry, m: string) {
    Upper(e.name) == Upper(m)
  }

  /** The entries whose upper-cased name is the requested name's, in
      registry order. */
  function MatchesIn(m: string, reg: seq<Entry>): (r: seq<Entry>)
    ensures forall j :: 0 <= j < |r| ==> r[j] in reg && SameName(r[j], m)
  {
    if reg == [] then []
    else MatchesIn(m, reg[..|reg| - 1]) + (if SameName(reg[|reg| - 1], m) then [reg[|reg| - 1]] else [])
  }

  /** A requested name is considered only if its upper-cased form is,
      verbatim, one of the registry's names. */
  predicate Considered(m: string, reg: seq<Entry>) {
    Upper(m) in Names(reg)
  }

  /** The entries both dispatch loops reach for one requested name. */
  function Matches(m: string, reg: seq<Entry>): seq<Entry> {
    if Considered(m, reg) then MatchesIn(m, reg) else []
  }

  /** `Matches` against a fixed registry. */
  function MatchesOf(reg: seq<Entry>): string -> seq<Entry> {
    m => Matches(m, reg)
  }

  /** What `f` gives for each name of `req`, name after name. */
  function Gather<T>(req: seq<string>, f: string -> seq<T>): seq<T> {
    if req == [] then [] else Gather(req[..|req| - 1], f) + f(req[|req| - 1])
  }

  /** The entries reached for the requested names, name after name. */
  function Selected(req: seq<string>, reg: seq<Entry>): seq<Entry> {
    Gather(req, MatchesOf(reg))
  }

  /** The entries among `es` with the flag set, in order. */
  function Flagged(es: seq<Entry>, cline: bool): (r: seq<Entry>)
    ensures forall j :: 0 <= j < |r| ==> r[j] in es && (if cline then r[j].cline else r[j].format)
  {
    if es == [] then []
    else
      var e := es[|es| - 1];
      Flagged(es[..|es| - 1], cline) + (if (if cline then e.cline else e.format) then [e] else [])
  }

  /** `f` of each entry, in order. */
  function Apply<R>(es: seq<Entry>, f: Entry -> R): (r: seq<R>)
    ensures |r| == |es| && forall j :: 0 <= j < |es| ==> r[j] == f(es[j])
  {
    seq(|es|, j requires 0 <= j < |es| => f(es[j]))
  }

  /** Applying `f` distributes over concatenation. */
  lemma ApplyAppend<R>(es1: seq<Entry>, es2: seq<Entry>, f: Entry -> R)
    ensures Apply(es1 + es2, f) == Apply(es1, f) + Apply(es2, f)
  {
    var r := Apply(es1 + es2, f);
    forall j | 0 <= j < |es1 + es2|
      ensures r[j] == (Apply(es1, f) + Apply(es2, f))[j]
    {
      if j >= |es1| {
        assert (es1 + es2)[j] == es2[j - |es1|];
      }
    }
  }

  /** Applying `f` to the flagged entries of two lists concatenates the
      results for each. */
  lemma ApplyFlaggedAppend<R>(es1: seq<Entry>, es2: seq<Entry>, cline: bool, f: Entry -> R)
    ensures Apply(Flagged(es1 + es2, cline), f) == Apply(Flagged(es1, cline), f) + Apply(Flagged(es2, cline), f)
  {
    FlaggedAppend(es1, es2, cline);
    ApplyAppend(Flagged(es1, cline), Flagged(es2, cline), f);
  }

  /** One more entry adds `f` of it exactly when it has the flag. */
  lemma ApplyFlaggedSnoc<R>(es: seq<Entry>, e: Entry, cline: bool, f: Entry -> R)
    ensures Apply(Flagged(es + [e], cline), f) ==
      Apply(Flagged(es, cline), f) + (if (if cline then e.cline else e.format) then [f(e)] else [])
  {
    assert (es + [e])[..|es|] == es;
  }

  /** One more requested name adds the entries it reaches. */
  lemma SelectedSnoc(req: seq<string>, m: string, reg: seq<Entry>)
    ensures Selected(req + [m], reg) == Selected(req, reg) + Matches(m, reg)
  {
    assert (req + [m])[..|req|] == req;
  }

  /** An entry is matched exactly when it is in the registry under the
      requested name, whatever the case. */
  lemma {:induction false} MatchesInMember(m: string, reg: seq<Entry>, e: Entry)
    ensures e in MatchesIn(m, reg) <==> e in reg && SameName(e, m)
  {
    if reg != [] {
      MatchesInMember(m, reg[..|reg| - 1], e);
      assert reg == reg[..|reg| - 1] + [reg[|reg| - 1]];
    }
  }

  /** Gathering over two lists of names gathers over each. */
  lemma {:induction false} GatherAppend<T>(req1: seq<string>, req2: seq<string>, f: string -> seq<T>)
    ensures Gather(req1 + req2, f) == Gather(req1, f) + Gather(req2, f)
  {
    if req2 == [] {
      assert req1 + req2 == req1;
    } else {
      var init := req2[..|req2| - 1];
      var last := req2[|req2| - 1];
      var both := req1 + req2;
      GatherAppend(req1, init, f);
      assert both[..|both| - 1] == req1 + init && both[|both| - 1] == last;
      assert Gather(both, f) == Gather(req1 + init, f) + f(last);
      assert Gather(req2, f) == Gather(init, f) + f(last);
    }
  }

  /** Requests are served in order: the entries for a longer request list
      extend those for its prefix with the entries for the added names. */
  lemma SelectedAppend(req1: seq<string>, req2: seq<string>, reg: seq<Entry>)
    ensures Selected(req1 + req2, reg) == Selected(req1, reg) + Selected(req2, reg)
  {
    GatherAppend(req1, req2, MatchesOf(reg));
  }

  /** An entry is selected exactly when some requested name passes the
      verbatim gate and equals the entry's name up to case. */
  lemma {:induction false} SelectedMember(req: seq<string>, reg: seq<Entry>, e: Entry)
    ensures e in Selected(req, reg) <==>
      e in reg && exists k :: 0 <= k < |req| && Considered(req[k], reg) && SameName(e, req[k])
  {
    if req != [] {
      var init := req[..|req| - 1];
      var m := req[|req| - 1];
      SelectedMember(init, reg, e);
      MatchesInMember(m, reg, e);
      if e in Selected(req, reg) {
        if e !in Selected(init, reg) {
          assert e in Matches(m, reg);
          assert 0 <= |req| - 1 < |req| && Considered(req[|req| - 1], reg) && SameName(e, req[|req| - 1]);
        } else {
          var k :| 0 <= k < |init| && Considered(init[k], reg) && SameName(e, init[k]);
          assert req[k] == init[k];
        }
      }
      if e in reg && exists k :: 0 <= k < |req| && Considered(req[k], reg) && SameName(e, req[k]) {
        var k :| 0 <= k < |req| && Considered(req[k], reg) && SameName(e, req[k]);
        if k < |init| {
          assert init[k] == req[k];
        } else {
          assert e in Matches(m, reg);
        }
      }
    }
  }

  /** A name whose upper-cased form is not verbatim a registry name selects
      nothing, even when an entry has that name in another case. */
  lemma SkippedName(req: seq<string>, m: string, reg: seq<Entry>)
    requires !Considered(m, reg)
    ensures Selected(req + [m], reg) == Selected(req, reg)
  {
    assert (req + [m])[..|req|] == req;
  }

  /** Filtering distributes over concatenation. */
  lemma {:induction false} FlaggedAppend(es1: seq<Entry>, es2: seq<Entry>, cline: bool)
    ensures Flagged(es1 + es2, cline) == Flagged(es1, cline) + Flagged(es2, cline)
  {
    if es2 != [] {
      var init := es2[..|es2| - 1];
      FlaggedAppend(es1, init, cline);
      assert (es1 + es2)[..|es1 + es2| - 1] == es1 + init;
    } else {
      assert es1 + es2 == es1;
    }
  }
}
