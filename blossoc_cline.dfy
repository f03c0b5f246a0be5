/** The Blossoc script writer: a header line, one `blossoc` command and,
    when asked to clean up, one `rm` line per input file. */
module BlossocCline {
  import opened Text
  import opened Files

  /** The options `clineWriter` reads; the score function, the permutation
      count, the script name and its directory never reach the script text. */
  datatype Params = Params(genotypefile: string, positionsfile: string, scoreFunction: string,
                           permutations: int, unphased: bool, outputfilename: string,
                           cleanup: bool, bashname: string, dirname: string)

  /** The words of the command: `-u0` follows `blossoc` unless the data are
      declared unphased, then the positions file, the genotype file, `-o`
      and the output file. */
  function Words(pars: Params): seq<string> {
    ["blossoc"] + (if pars.unphased then [] else ["-u0"])
      + [pars.positionsfile, pars.genotypefile, "-o", pars.outputfilename]
  }

  /** The script text `clineWriter(pars)` writes, one element per write:
      the header, the command, then the removal of the positions file and of
      the genotype file when cleaning up. */
  method ClineWriter(pars: Params) returns (lines: seq<string>)
    ensures lines == [Shebang, Join(Words(pars), " ") + "\n"]
      + (if pars.cleanup then [Rm(pars.positionsfile), Rm(pars.genotypefile)] else [])
  {
    lines := [Shebang];
    if pars.unphased {
      lines := lines + [Join(["blossoc", pars.positionsfile, pars.genotypefile, "-o", pars.outputfilename], " ") + "\n"];
      assert ["blossoc", pars.positionsfile, pars.genotypefile, "-o", pars.outputfilename] == Words(pars);
    } else {
      lines := lines + [Join(["blossoc", "-u0", pars.positionsfile, pars.genotypefile, "-o", pars.outputfilename], " ") + "\n"];
      assert ["blossoc", "-u0", pars.positionsfile, pars.genotypefile, "-o", pars.outputfilename] == Words(pars);
    }
    if pars.cleanup {
      lines := lines + [Join(["rm", pars.positionsfile], " ") + "\n"];
      lines := lines + [Join(["rm", pars.genotypefile], " ") + "\n"];
    }
  }

  /** The shell splits the command into `blossoc`, then `-u0` only when the
      data are phased (six fields against five), the positions file, the genotype file, `-o` and the
      output file, when no file name holds a space. */
  lemma CommandFields(pars: Params)
    requires ' ' !in pars.positionsfile && ' ' !in pars.genotypefile && ' ' !in pars.outputfilename
    ensures var line := Join(Words(pars), " ") + "\n";
      var f := Split(line[..|line| - 1], ' ');
      var k := if pars.unphased then 1 else 2;
      && f == Words(pars)
      && |f| == k + 4
      && f[0] == "blossoc" && (!pars.unphased ==> f[1] == "-u0")
      && f[k] == pars.positionsfile && f[k + 1] == pars.genotypefile
      && f[k + 2] == "-o" && f[k + 3] == pars.outputfilename
  {
    var w := Words(pars);
    var line := Join(w, " ") + "\n";
    assert line[..|line| - 1] == Join(w, " ");
    forall i | 0 <= i < |w|
      ensures ' ' !in w[i]
    {
    }
    SplitJoin(w, ' ');
    if pars.unphased {
      assert w == ["blossoc", pars.positionsfile, pars.genotypefile, "-o", pars.outputfilename];
    } else {
      assert w == ["blossoc", "-u0", pars.positionsfile, pars.genotypefile, "-o", pars.outputfilename];
    }
  }
}
