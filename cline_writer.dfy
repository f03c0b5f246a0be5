/** `cliner`: for each requested program name, the script writers of the
    registry entries under that name ask for their options and write a
    script, and the dispatcher collects the script names. */
module ClineWriter {
  import opened Wrappers
  import opened Text
  import opened Registry

  /** A reached entry aborts the run when it has a script writer whose
      option dialog is cancelled (`sys.exit(1)`), or when it has none and
      there is no logger (the `else` branch calls `logger.info` unguarded). */
  predicate Aborts(e: Entry, answers: Entry -> Option<string>, logger: bool) {
    if e.cline then answers(e).None? else !logger
  }

  /** The `bashname` option the dialog of an entry's script writer returns. */
  function BashName(answers: Entry -> Option<string>): Entry -> string {
    e => if answers(e).Some? then answers(e).value else ""
  }

  /** `cliner(pars, logger)`: the script name of every selected entry that
      has a script writer, in request order then registry order; the run
      aborts exactly when some selected entry aborts. `answers(e)` is what
      the option dialog of `e`'s script writer returns, None when it is
      cancelled. */
  method Cliner(formatters: seq<string>, reg: seq<Entry>, answers: Entry -> Option<string>, logger: bool)
    returns (r: Result<seq<string>, string>)
    ensures r.Failure? <==> exists e :: e in Selected(formatters, reg) && Aborts(e, answers, logger)
    ensures r.Success? ==> r.value == Apply(Flagged(Selected(formatters, reg), true), BashName(answers))
  {
    var filenames := [];
    for i := 0 to |formatters|
      invariant filenames == Apply(Flagged(Selected(formatters[..i], reg), true), BashName(answers))
      invariant forall e :: e in Selected(formatters[..i], reg) ==> !Aborts(e, answers, logger)
    {
      var m := formatters[i];
      assert formatters[..i + 1] == formatters[..i] + [m];
      SelectedSnoc(formatters[..i], m, reg);
      if Upper(m) in Names(reg) {
        var written := ClineName(m, reg, answers, logger);
        if written.Failure? {
          var e :| e in MatchesIn(m, reg) && Aborts(e, answers, logger);
          MatchesInMember(m, reg, e);
          SelectedMember(formatters, reg, e);
          return Failure(written.error);
        }
        assert Matches(m, reg) == MatchesIn(m, reg);
        ApplyFlaggedAppend(Selected(formatters[..i], reg), MatchesIn(m, reg), true, BashName(answers));
        filenames := filenames + written.value;
      } else {
        assert Selected(formatters[..i + 1], reg) == Selected(formatters[..i], reg);
      }
    }
    assert formatters[..|formatters|] == formatters;
    return Success(filenames);
  }

  /** The inner loop for one considered name: every registry entry under
      that name, up to case, in registry order. */
  method ClineName(m: string, reg: seq<Entry>, answers: Entry -> Option<string>, logger: bool)
    returns (r: Result<seq<string>, string>)
    ensures r.Failure? <==> exists e :: e in MatchesIn(m, reg) && Aborts(e, answers, logger)
    ensures r.Success? ==> r.value == Apply(Flagged(MatchesIn(m, reg), true), BashName(answers))
  {
    var names := [];
    for j := 0 to |reg|
      invariant names == Apply(Flagged(MatchesIn(m, reg[..j]), true), BashName(answers))
      invariant forall e :: e in MatchesIn(m, reg[..j]) ==> !Aborts(e, answers, logger)
    {
      var a := reg[j];
      ghost var before := MatchesIn(m, reg[..j]);
      assert reg[..j + 1][..j] == reg[..j];
      if Upper(a.name) == Upper(m) {
        assert MatchesIn(m, reg[..j + 1]) == before + [a];
        ApplyFlaggedSnoc(before, a, true, BashName(answers));
        if a.cline {
          var bashname := answers(a);
          if bashname.None? {
            MatchesInMember(m, reg, a);
            return Failure("exit status 1");
          }
          names := names + [bashname.value];
        } else if !logger {
          MatchesInMember(m, reg, a);
          return Failure("'NoneType' object has no attribute 'info'");
        }
      } else {
        assert MatchesIn(m, reg[..j + 1]) == before;
      }
    }
    assert reg[..|reg|] == reg;
    return Success(names);
  }
}
