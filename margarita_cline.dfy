/** The Margarita script writer: a header line, one `java` command running
    the Margarita jar and, when asked to clean up, one `rm` line. */
module MargaritaCline {
  import opened Text
  import opened Files

  /** The options `clineWriter` reads; the script name and its directory
      never reach the script text. */
  datatype Params = Params(inputfile: string, memory: int, permutations: int, numArgs: int,
                           smartPerm: bool, numSmart: int, bashname: string,
                           margaritaLoc: string, cleanup: bool, dirname: string)

  /** The words of the command: `java`, the heap limit `-Xmx<memory>`,
      `-jar`, the jar, the input file, the number of ARGs and of
      permutations, then `--smart` and its give-up count for smart
      permutations. */
  function Words(pars: Params): seq<string> {
    ["java", "-Xmx" + IntToString(pars.memory), "-jar", pars.margaritaLoc, pars.inputfile,
     IntToString(pars.numArgs), IntToString(pars.permutations)]
      + (if pars.smartPerm then ["--smart", IntToString(pars.numSmart)] else [])
  }

  /** The script text `clineWriter(pars)` writes, one element per write:
      the header, the command, then the removal of the input file when
      cleaning up. */
  method ClineWriter(pars: Params) returns (lines: seq<string>)
    ensures lines == [Shebang, Join(Words(pars), " ") + "\n"] + (if pars.cleanup then [Rm(pars.inputfile)] else [])
  {
    lines := [Shebang];
    var xmx, args, perm := "-Xmx" + IntToString(pars.memory), IntToString(pars.numArgs), IntToString(pars.permutations);
    if pars.smartPerm {
      lines := lines + [Join(["java", xmx, "-jar", pars.margaritaLoc, pars.inputfile, args, perm,
                              "--smart", IntToString(pars.numSmart)], " ") + "\n"];
      assert ["java", xmx, "-jar", pars.margaritaLoc, pars.inputfile, args, perm,
              "--smart", IntToString(pars.numSmart)] == Words(pars);
    } else {
      lines := lines + [Join(["java", xmx, "-jar", pars.margaritaLoc, pars.inputfile, args, perm], " ") + "\n"];
      assert ["java", xmx, "-jar", pars.margaritaLoc, pars.inputfile, args, perm] == Words(pars);
    }
    if pars.cleanup {
      lines := lines + [Join(["rm", pars.inputfile], " ") + "\n"];
    }
  }

  /** The shell splits the command back into its words when neither the
      jar nor the input file holds a space; `--smart` and its count are there
      exactly for smart permutations. */
  lemma CommandFields(pars: Params)
    requires ' ' !in pars.margaritaLoc && ' ' !in pars.inputfile
    ensures var line := Join(Words(pars), " ") + "\n";
      var f := Split(line[..|line| - 1], ' ');
      && f == Words(pars)
      && |f| == (if pars.smartPerm then 9 else 7)
      && f[0] == "java" && f[2] == "-jar" && f[3] == pars.margaritaLoc && f[4] == pars.inputfile
      && (pars.smartPerm ==> f[7] == "--smart")
  {
    var w := Words(pars);
    var line := Join(w, " ") + "\n";
    assert line[..|line| - 1] == Join(w, " ");
    forall i | 0 <= i < |w|
      ensures ' ' !in w[i]
    {
      if i == 1 {
        assert w[1] == "-Xmx" + IntToString(pars.memory);
      }
    }
    SplitJoin(w, ' ');
  }

  /** The numeric words read back as the options: the heap limit after
      `-Xmx`, the ARG count, the permutations and the smart give-up count. */
  lemma WordsNumbers(pars: Params)
    ensures var w := Words(pars);
      && w[1][..4] == "-Xmx" && IntShaped(w[1][4..]) && ParseInt(w[1][4..]) == pars.memory
      && IntShaped(w[5]) && ParseInt(w[5]) == pars.numArgs
      && IntShaped(w[6]) && ParseInt(w[6]) == pars.permutations
      && (pars.smartPerm ==> IntShaped(w[8]) && ParseInt(w[8]) == pars.numSmart)
  {
    var w := Words(pars);
    ParseIntToString(pars.memory);
    ParseIntToString(pars.numArgs);
    ParseIntToString(pars.permutations);
    ParseIntToString(pars.numSmart);
    assert w[1][4..] == IntToString(pars.memory);
  }
}
