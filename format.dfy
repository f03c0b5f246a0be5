/** `format`: for each requested program name, the formatters of the
    registry entries under that name write their input files, and the
    dispatcher collects what each `createFiles` call returns. */
module Format {
  import opened Wrappers
  import opened Text
  import opened Registry

  /** `infile.split(".")[0]`: the input file name up to its first dot, or
      the whole name when it has none. */
  function InputFileRoot(infile: string): (r: string)
    ensures '.' !in r && |r| <= |infile| && r == infile[..|r|]
    ensures |r| < |infile| ==> infile[|r|] == '.'
  {
    SplitFirst(infile, '.');
    Split(infile, '.')[0]
  }

  /** `createFiles(pop, inputfileroot)` of an entry's formatter, the
      population being fixed for the whole call. */
  function CreateWith<R>(root: string, create: (Entry, string) -> R): Entry -> R {
    e => create(e, root)
  }

  /** A reached entry aborts the run when it has no formatter and there is
      no logger: the `else` branch calls `logger.info` unguarded. */
  predicate Aborts(e: Entry, logger: bool) {
    !e.format && !logger
  }

  /** `format(pars, logger)`: the result of `createFiles` for every selected
      entry that has a formatter, in request order then registry order; the
      run aborts exactly when some selected entry has no formatter and there
      is no logger. */
  method FormatFiles<R>(formatters: seq<string>, infile: string, reg: seq<Entry>,
                        create: (Entry, string) -> R, logger: bool)
    returns (r: Result<seq<R>, string>)
    ensures r.Failure? <==> exists e :: e in Selected(formatters, reg) && Aborts(e, logger)
    ensures r.Success? ==>
      r.value == Apply(Flagged(Selected(formatters, reg), false), CreateWith(InputFileRoot(infile), create))
  {
    var root := InputFileRoot(infile);
    var filenames := [];
    for i := 0 to |formatters|
      invariant filenames == Apply(Flagged(Selected(formatters[..i], reg), false), CreateWith(root, create))
      invariant forall e :: e in Selected(formatters[..i], reg) ==> !Aborts(e, logger)
    {
      var m := formatters[i];
      assert formatters[..i + 1] == formatters[..i] + [m];
      SelectedSnoc(formatters[..i], m, reg);
      if Upper(m) in Names(reg) {
        var made := FormatName(m, reg, root, create, logger);
        if made.Failure? {
          var e :| e in MatchesIn(m, reg) && Aborts(e, logger);
          MatchesInMember(m, reg, e);
          SelectedMember(formatters, reg, e);
          return Failure(made.error);
        }
        assert Matches(m, reg) == MatchesIn(m, reg);
        ApplyFlaggedAppend(Selected(formatters[..i], reg), MatchesIn(m, reg), false, CreateWith(root, create));
        filenames := filenames + made.value;
      } else {
        assert Selected(formatters[..i + 1], reg) == Selected(formatters[..i], reg);
      }
    }
    assert formatters[..|formatters|] == formatters;
    return Success(filenames);
  }

  /** The inner loop for one considered name: every registry entry under
      that name, up to case, in registry order. */
  method FormatName<R>(m: string, reg: seq<Entry>, root: string, create: (Entry, string) -> R, logger: bool)
    returns (r: Result<seq<R>, string>)
    ensures r.Failure? <==> exists e :: e in MatchesIn(m, reg) && Aborts(e, logger)
    ensures r.Success? ==> r.value == Apply(Flagged(MatchesIn(m, reg), false), CreateWith(root, create))
  {
    var made := [];
    for j := 0 to |reg|
      invariant made == Apply(Flagged(MatchesIn(m, reg[..j]), false), CreateWith(root, create))
      invariant forall e :: e in MatchesIn(m, reg[..j]) ==> !Aborts(e, logger)
    {
      var a := reg[j];
      ghost var before := MatchesIn(m, reg[..j]);
      assert reg[..j + 1][..j] == reg[..j];
      if Upper(a.name) == Upper(m) {
        assert MatchesIn(m, reg[..j + 1]) == before + [a];
        ApplyFlaggedSnoc(before, a, false, CreateWith(root, create));
        if a.format {
          made := made + [create(a, root)];
        } else if !logger {
          MatchesInMember(m, reg, a);
          return Failure("'NoneType' object has no attribute 'info'");
        }
      } else {
        assert MatchesIn(m, reg[..j + 1]) == before;
      }
    }
    assert reg[..|reg|] == reg;
    return Success(made);
  }
}
