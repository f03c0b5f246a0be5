/** The file system as the pipeline sees it: the directories that exist, and
    the files that exist with what was last written to them. */
module Files {
  import opened Populations
  import opened Text

  datatype Content =
    | TextContent(lines: seq<string>)   // the strings passed to write(), in order
    | PopContent(pop: PopData)          // a population saved by simuPOP
    | ConfigContent                     // a saved option file

  /** The first line every script writer writes. It lacks the `!`, so the
      shell reads it as a comment rather than an interpreter line. */
  const Shebang := "#/bin/bash\n"

  /** `"rm %s\n"` of a file: the clean-up line of the Blossoc and Margarita
      scripts. */
  function Rm(file: string): string {
    Join(["rm", file], " ") + "\n"
  }

  /** An `rm` line splits into `rm` and the file it removes. */
  lemma RmFields(file: string)
    requires ' ' !in file
    ensures var line := Rm(file);
      line[|line| - 1] == '\n' && Split(line[..|line| - 1], ' ') == ["rm", file]
  {
    var line := Rm(file);
    assert line[..|line| - 1] == Join(["rm", file], " ");
    SplitJoin(["rm", file], ' ');
  }

  /** A text file as a formatter or script writer produces it. */
  datatype TextFile = TextFile(name: string, lines: seq<string>)

  class FileSystem {
    var dirs: set<string>
    var files: map<string, Content>
    /** Paths whose creation fails for a reason other than "already exists"
        (permission denied, a bad path). */
    const denied: set<string>

    constructor (dirs0: set<string>, files0: map<string, Content>, denied0: set<string>)
      ensures dirs == dirs0 && files == files0 && denied == denied0
    {
      dirs, files, denied := dirs0, files0, denied0;
    }

    /** `os.path.isfile(path)`. */
    predicate IsFile(path: string)
      reads this
    {
      path in files
    }

    /** `pop.save(path)`. */
    method SavePop(path: string, pop: PopData)
      modifies this
      ensures files == old(files)[path := PopContent(pop)] && dirs == old(dirs)
    {
      files := files[path := PopContent(pop)];
    }

    /** Writing out a text file. */
    method WriteText(f: TextFile)
      modifies this
      ensures files == old(files)[f.name := TextContent(f.lines)] && dirs == old(dirs)
    {
      files := files[f.name := TextContent(f.lines)];
    }
  }
}
