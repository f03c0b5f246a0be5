/** The PLINK script writer: a header line and one `plink` command whose
    last two slots hold the `--assoc` and `--noweb` flags or nothing. */
module PlinkCline {
  import opened Text
  import opened Files

  /** The options `clineWriter` reads. */
  datatype Params = Params(filestem: string, outfilestem: string, assoc: bool, noweb: bool, bashname: string)

  /** The words of `"plink --file %s --out %s %s %s"`: the format string puts
      one space between consecutive slots, so the command is these words
      joined by single spaces; a flag that is off fills its slot with `""`. */
  function Words(pars: Params): seq<string> {
    ["plink", "--file", pars.filestem, "--out", pars.outfilestem,
     if pars.assoc then "--assoc" else "", if pars.noweb then "--noweb" else ""]
  }

  /** `clineWriter(pars)`: the flag words first, then the header and the
      command, each a single write. */
  method ClineWriter(pars: Params) returns (bashfile: TextFile)
    ensures bashfile.name == pars.bashname
    ensures bashfile.lines == [Shebang, Join(Words(pars), " ") + "\n"]
  {
    var a, n;
    if pars.assoc {
      a := "--assoc";
    } else {
      a := "";
    }
    if pars.noweb {
      n := "--noweb";
    } else {
      n := "";
    }
    var lines := [Shebang];
    lines := lines + [Join(["plink", "--file", pars.filestem, "--out", pars.outfilestem, a, n], " ") + "\n"];
    bashfile := TextFile(pars.bashname, lines);
  }

  /** The shell splits the command back into its words when neither file
      stem holds a space: seven fields, the flags in the last two, and a
      flag that is off leaves an empty field (a doubled or trailing space). */
  lemma CommandFields(pars: Params)
    requires ' ' !in pars.filestem && ' ' !in pars.outfilestem
    ensures var line := Join(Words(pars), " ") + "\n";
      var f := Split(line[..|line| - 1], ' ');
      && |f| == 7
      && f[0] == "plink" && f[1] == "--file" && f[2] == pars.filestem
      && f[3] == "--out" && f[4] == pars.outfilestem
      && (f[5] == "--assoc" <==> pars.assoc) && (f[5] == "" <==> !pars.assoc)
      && (f[6] == "--noweb" <==> pars.noweb) && (f[6] == "" <==> !pars.noweb)
  {
    var w := Words(pars);
    var line := Join(w, " ") + "\n";
    assert line[..|line| - 1] == Join(w, " ");
    forall i | 0 <= i < |w|
      ensures ' ' !in w[i]
    {
    }
    SplitJoin(w, ' ');
  }
}
