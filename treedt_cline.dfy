/** The TreeDT script writer: a header line, then one `treedt` command chosen
    by the run mode, with no newline after it. */
module TreeDTCline {
  import opened Text
  import opened Files
  import opened Encoding

  /** The options `clineWriter` reads; `mode` is the option named `method`. */
  datatype Params = Params(inputfile: string, mode: string, permutations: int,
                           correctLoc: int, fixedTrees: int, bashname: string)

  /** The five run modes the writer knows. */
  predicate Supported(m: string) {
    m == "s" || m == "p" || m == "P" || m == "k" || m == "K"
  }

  /** The mode letter on the command line: only the file check keeps its
      letter; every permutation mode is run as `p`. */
  function Mode(m: string): string {
    if m == "s" then "s" else "p"
  }

  /** The numbers after the input file: none for the file check; otherwise
      the permutations, then the correct location for `P` and `K`, then the
      number of fixed subtrees for `k` and `K`. */
  function Args(pars: Params): seq<int> {
    if pars.mode == "s" then []
    else
      [pars.permutations]
      + (if pars.mode == "P" || pars.mode == "K" then [pars.correctLoc] else [])
      + (if pars.mode == "k" || pars.mode == "K" then [pars.fixedTrees] else [])
  }

  /** The command of a supported mode: its words joined by single spaces, as
      each branch's format string lays them out. */
  function Command(pars: Params): string {
    Join(["treedt", Mode(pars.mode), pars.inputfile] + Ints(Args(pars)), " ")
  }

  /** `clineWriter(pars)`: the header, then the command of the chosen mode;
      an unsupported mode writes only the header. */
  method ClineWriter(pars: Params) returns (bashfile: TextFile)
    ensures bashfile.name == pars.bashname
    ensures bashfile.lines == [Shebang] + (if Supported(pars.mode) then [Command(pars)] else [])
  {
    var lines := [Shebang];
    var perm, loc, trees := IntToString(pars.permutations), IntToString(pars.correctLoc), IntToString(pars.fixedTrees);
    if pars.mode == "s" {
      lines := lines + [Join(["treedt", "s", pars.inputfile], " ")];
      assert Ints(Args(pars)) == [];
      assert ["treedt", "s", pars.inputfile] == ["treedt", Mode(pars.mode), pars.inputfile] + Ints(Args(pars));
    } else if pars.mode == "p" {
      lines := lines + [Join(["treedt", "p", pars.inputfile, perm], " ")];
      assert Ints(Args(pars)) == [perm];
      assert ["treedt", "p", pars.inputfile, perm] == ["treedt", Mode(pars.mode), pars.inputfile] + Ints(Args(pars));
    } else if pars.mode == "P" {
      lines := lines + [Join(["treedt", "p", pars.inputfile, perm, loc], " ")];
      assert Ints(Args(pars)) == [perm, loc];
      assert ["treedt", "p", pars.inputfile, perm, loc] == ["treedt", Mode(pars.mode), pars.inputfile] + Ints(Args(pars));
    } else if pars.mode == "k" {
      lines := lines + [Join(["treedt", "p", pars.inputfile, perm, trees], " ")];
      assert Ints(Args(pars)) == [perm, trees];
      assert ["treedt", "p", pars.inputfile, perm, trees] == ["treedt", Mode(pars.mode), pars.inputfile] + Ints(Args(pars));
    } else if pars.mode == "K" {
      lines := lines + [Join(["treedt", "p", pars.inputfile, perm, loc, trees], " ")];
      assert Ints(Args(pars)) == [perm, loc, trees];
      assert ["treedt", "p", pars.inputfile, perm, loc, trees] == ["treedt", Mode(pars.mode), pars.inputfile] + Ints(Args(pars));
    }
    bashfile := TextFile(pars.bashname, lines);
  }

  /** The shell splits a supported command back into `treedt`, the mode
      letter, the input file and the numbers, which read back as `Args`, when
      the input file holds no space; the command carries no newline. */
  lemma CommandFields(pars: Params)
    requires ' ' !in pars.inputfile && '\n' !in pars.inputfile
    ensures var f := Split(Command(pars), ' ');
      && f == ["treedt", Mode(pars.mode), pars.inputfile] + Ints(Args(pars))
      && |f| == 3 + |Args(pars)|
      && (forall k :: 3 <= k < |f| ==> IntShaped(f[k]) && ParseInt(f[k]) == Args(pars)[k - 3])
      && '\n' !in Command(pars)
  {
    var args := Args(pars);
    var w := ["treedt", Mode(pars.mode), pars.inputfile] + Ints(args);
    forall i | 0 <= i < |w|
      ensures ' ' !in w[i] && '\n' !in w[i] && (i >= 3 ==> IntShaped(w[i]) && ParseInt(w[i]) == args[i - 3])
    {
      if i >= 3 {
        assert w[i] == IntToString(args[i - 3]);
        ParseIntToString(args[i - 3]);
      }
    }
    SplitJoin(w, ' ');
    JoinFree(w, " ", '\n');
  }
}
