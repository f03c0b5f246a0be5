# DPLSim core, modelled in Dafny

DPLSim is a simulation pipeline for disease-locus association studies:
1. It downloads HapMap populations, selects markers and expands the population forward in time.
2. It draws case/control samples under a single-gene penetrance model.
3. It removes rare or disease loci.
4. It lays out a replication grid of parameter directories.
5. It writes the input files and shell scripts of five association programs: PLINK, TreeDT, Blossoc, Margarita and BETA.

This project models that core and proves what each part promises.

- **Case/control acceptance** (`single_gene_model.dfy`, `config.dfy`). `_selectInds` is a method on a `Globals` object whose fields are the module globals of `config.py`. It is proved against `Step`, a pure function on the five counters. Further lemmas prove:
  - the sampling invariants (no quota is overshot, and every candidate is counted exactly once);
  - the dosage-indexed risk table.

  The mating loop of `evolve` is a finite stream of candidates.
- **Replication grid** (`replicator.dfy`, `rep_case_control.dfy`):
  - `float_range` and the levels `dir_setup` derives;
  - `path_maker` and its split/injectivity round trip;
  - the nested loops of `dir_path_gen` and `rep_case_control`. Each is a method per loop level, proved against a generic enumeration of grid points, so that both the count and the membership of the produced paths and jobs are proved;
  - `mkdir_p` and the directory set-up loop over a `FileSystem` object;
  - the option validators.
- **Locus removal** (`remove_snp.dfy`, `population.dfy`). `removeRare`, `writeSNPLoc` and `removeDPL` work on a `Population` object whose data is removed in place. Lemmas cover:
  - which loci are rare;
  - that the default thresholds remove only monomorphic loci;
  - the round trip of the relative-location file;
  - that a second `removeDPL` with the same names fails.
- **Formatters** (`*_formatter.dfy`, with `haplotypes.dfy` and `encoding.dfy`). Each `createFiles` is a method returning the text files it writes. Each line layout has a split lemma that reads the line back into its fields and alleles.
- **Script writers** (`*_cline.dfy`). Each `clineWriter` returns the script text. Each command line splits back into its words.
- **Registry and dispatch** (`registry.dfy`, `format.dfy`, `cline_writer.dfy`):
  - the `AnalysisMethod` class;
  - the module paths;
  - `format` and `cliner`, proved against `Selected`, which gives the entries each requested name reaches.
- **Pipeline sequencing** (`pipeline_control.dfy`). A `Workspace` object holds the files and an event log. Both modes are proved to begin exactly the enabled stages, in the fixed order. The case/control stage of single mode runs the sampler above and saves what it keeps; that of replicate mode runs the job list of a grid the directory set-up has made. The download, marker-list and existing-file checks are modelled too.

Some behaviour of the source is modelled as written:
- The formatters of TreeDT, Blossoc, Margarita and BETA return from inside their chromosome loop, so only the first chromosome is written.
- TreeDT's script writer runs every permutation mode as `treedt p`.
- `dir_setup` passes each high bound as `float_range`'s `low`, so the levels run from high to low.
- `config.reset` changes no module state; its caller assigns the tuple it returns.
- The script stage of replicate mode names an undefined `dirpaths` and raises.
- The case/control dialogs of both modes read `singleGeneModel.options`, which is not defined, and single mode calls its dialogs without the `gui` keyword argument. The stages take flags saying whether these are supplied: as written they fail, and the entry point supplies both.

## Model

| member | source | states |
|---|---|---|
| Config.Globals.constructor | config.py:5-12 | the counters start at zero, the risks at 1, 1, 1 and both quotas at 1000 |
| Config.Reset | config.py:14-23 | the returned 5-tuple is all zeros; no module state changes |
| SingleGeneModel.Dosage | singleGeneModel.py:26 | the dosage is at most 2; it is 0 exactly for two wild-type alleles and 2 exactly for two mutant alleles |
| SingleGeneModel.RiskTable | singleGeneModel.py:59-65 | the table has three entries: the wild-type risk, then `wtr * GRR` |
| SingleGeneModel.RiskTableByDosage | singleGeneModel.py:59-65 | for GRR > 1 the risk rises with dosage and the homozygote risk is twice the heterozygote risk; otherwise the homozygote falls back to the wild-type risk |
| SingleGeneModel.RiskTableIsProbability | singleGeneModel.py:59-65 | all three risks lie in [0, 1] exactly when `wtr`, `wtr * GRR` and (for GRR > 1) twice that are at most 1; nothing clamps larger values |
| SingleGeneModel.Step | singleGeneModel.py:24-44 | one offspring adds exactly one to the sum of kept cases, kept controls and discards |
| SingleGeneModel.StepEffect | singleGeneModel.py:28-44 | a kept affected offspring counts as a case (and as a wild-type case at dosage 0); a kept unaffected one counts as a control (and as a mutant control at dosage > 0); any other offspring is discarded |
| SingleGeneModel.RunInvariant | singleGeneModel.py:24-44 | after any run of offspring no quota is exceeded, every offspring is counted exactly once, and the genotype tallies stay within their classes |
| SingleGeneModel.FilledIffBothQuotasFull | singleGeneModel.py:66-79 | the generation of `numCases + numControls` is full exactly when both quotas are full |
| SingleGeneModel.DrawOf | singleGeneModel.py:26-27 | the dosage is the sum of the two alleles at the disease locus, and the offspring is affected exactly when the uniform draw is below the risk of that dosage |
| SingleGeneModel.SelectInds | singleGeneModel.py:24-44 | it keeps the offspring exactly when its class has room, advances the counters by `Step`, marks the status of a kept offspring, and leaves risks and quotas alone |
| SingleGeneModel.RunExtend | singleGeneModel.py:69-79 | consuming one more candidate is one more `Step` of the run |
| SingleGeneModel.Evolve | singleGeneModel.py:69-79 | the counters equal the run over the candidates used; the offspring are exactly the kept candidates of that run, in stream order (`KeptOf`), `cases + controls` of them with `cases` affected; a short generation used up the whole stream |
| SingleGeneModel.KeptExtend | singleGeneModel.py:69-79 | consuming one more candidate appends it, with its drawn status, to the kept offspring exactly when the callback keeps it |
| SingleGeneModel.KeptCounts | singleGeneModel.py:69-79 | the kept candidates number the selected cases plus controls of the run, and the affected among them are the selected cases |
| SingleGeneModel.FullStep | singleGeneModel.py:69-79 | once both quotas are full, a further candidate is rejected and the run stays full |
| SingleGeneModel.KeptAfterFull | singleGeneModel.py:69-79 | candidates after the generation filled change neither the kept offspring nor the full run |
| SingleGeneModel.GenerationOutcome | singleGeneModel.py:69-79 | a generation is never over-full, a full one holds exactly `numCases` cases, and a short one could not have been filled from the stream |
| SingleGeneModel.Penetrance | singleGeneModel.py:48-82 | it sets the risk table and the quotas; it succeeds exactly when the run over the whole stream fills both quotas, and then returns the kept candidates of the stream in order (`KeptOf`), `numCases + numControls` of them with `numCases` affected; the counters end at zero either way |
| SingleGeneModel.ResetCounters | singleGeneModel.py:81 | assigning the tuple `reset()` returns leaves every counter at zero and the risks and quotas unchanged |
| Populations.ChromBegin | analysisMethods/treedt/formatter.py:16 | the first locus of a chromosome is within the loci |
| Populations.ChromEnd | analysisMethods/treedt/formatter.py:16 | the end of a chromosome's loci is at or after its beginning and within the loci |
| Populations.ChromGenotype | analysisMethods/treedt/formatter.py:29 | one copy's genotype on a chromosome holds one allele per locus of that chromosome |
| Populations.ChromGenotypeAllLength | analysisMethods/treedt/formatter.py:36 | the whole genotype on a chromosome holds that chromosome's loci once per ploidy copy |
| Populations.RemoveLoci | removeSNP.py:30 | removing loci keeps ploidy, chromosome names and individuals, drops the listed loci, and drops their allele columns from every copy |
| Populations.DropAlleles | removeSNP.py:30 | an individual keeps its status and ploidy copies, each copy losing exactly the alleles of the dropped loci |
| Populations.FilterIdxOrdered | removeSNP.py:30 | the loci that remain are still ordered by chromosome and distinctly named |
| Populations.RemoveLociValid | removeSNP.py:30 | a well-formed population stays well-formed after any removal |
| Populations.LocusByName | removeSNP.py:33 | it returns the index of the locus with that name, and fails exactly when no locus has it |
| Populations.Population.RemoveLociInPlace | removeSNP.py:51 | the population's data becomes `RemoveLoci` of the old data |
| RemoveSNP.AlleleFreq0 | removeSNP.py:28-29 | the allele-0 frequency lies in [0, 1] |
| RemoveSNP.RareLoci | removeSNP.py:29 | the listed loci exist |
| RemoveSNP.RareLociMember | removeSNP.py:29 | a locus is listed exactly when it exists and its allele-0 frequency is above `thresh_hi` or below `thresh_lo` |
| RemoveSNP.RareLociIncreasing | removeSNP.py:29 | the list is strictly increasing, so no locus is listed twice |
| RemoveSNP.RemoveRareCount | removeSNP.py:29-33 | after the removal the population has `totNumLoci - len(lociToRemove)` loci, so the returned count is the number of loci removed |
| RemoveSNP.DefaultThresholds | removeSNP.py:18-21 | with the default thresholds (and at most a million allele copies) a locus is removed exactly when it is monomorphic |
| RemoveSNP.DplIndices | removeSNP.py:33 | it gives each disease locus's new index, whose locus carries that name; it fails exactly when some name is missing |
| RemoveSNP.RemoveRare | removeSNP.py:18-33 | the rare loci are removed in place; the population is saved when `savefile` is given; the result is the count and the new indices, or ValueError for a missing name after the removal and save |
| Files.FileSystem.SavePop | removeSNP.py:31-32 | saving puts the population at the path and changes no other file or directory |
| RemoveSNP.SNPLocLines | removeSNP.py:40-41 | line `x` is the name and relative location of disease locus `x` |
| RemoveSNP.SNPLocLineParse | removeSNP.py:41 | a line splits on its comma back into the name and the index, which parses back |
| RemoveSNP.WriteSNPLoc | removeSNP.py:35-42 | the file holds one line per disease locus, in order; a shorter location list writes the lines it can, then fails with IndexError |
| RemoveSNP.RemoveDPL | removeSNP.py:44-56 | each named locus is removed in turn; it returns 0 (saving when asked) or "Locus X already removed!" for the first missing name, keeping earlier removals and not saving |
| RemoveSNP.RemoveNamed | removeSNP.py:51 | removing a named locus leaves no locus of that name and one locus fewer |
| RemoveSNP.GoneStaysGone | removeSNP.py:51 | a name that is absent stays absent after further removals |
| RemoveSNP.RemovedNamesGone | removeSNP.py:49-53 | after a successful run none of the names remains, and one locus per name is gone |
| RemoveSNP.StaysGone | removeSNP.py:49-53 | an absent name stays absent after any removal by names |
| RemoveSNP.RemoveTwiceFails | removeSNP.py:70-72 | a second `removeDPL` with the same names fails on the first name and changes nothing |
| RemoveSNP.RemoveByNamesFailure | removeSNP.py:49-53 | on failure the missing name is among the names, the names before it have been removed, and it is absent |
| Replicator.FloatRange | replicator.py:201-222 | the list has `leng` values (none for `leng` <= 0), and `[high]` when `leng` is 1 |
| Replicator.FloatRangeEnds | replicator.py:218-222 | with two or more levels the list runs from `low` to `high` in equal steps of `(high - low) / (leng - 1)` |
| Replicator.DirSetupLevels | replicator.py:250-253 | with the bounds swapped the last level is the low bound, the first is the high bound, and the levels never increase |
| Replicator.PathMaker | replicator.py:70-77 | a made path starts with the outer directory and a slash |
| Replicator.PathMakerSplit | replicator.py:76 | splitting a path made from slash-free names on '/' gives back the names |
| Replicator.PathMakerInjective | replicator.py:76 | two paths made from slash-free names are equal only when their names are |
| Replicator.PathMakerExtend | replicator.py:76 | one more name appends a slash and that name |
| Replicator.Segment | replicator.py:227-238 | a grid directory name is the tag, the value and the 1-based replicate joined by underscores, ending in a digit |
| Replicator.PointsCount | replicator.py:227-241 | the nested loops visit levels times replicates points per dimension |
| Replicator.PointsMember | replicator.py:227-241 | a point is visited exactly when each coordinate is within its dimension's levels and replicates |
| Replicator.EnumPoints | replicator.py:227-241 | the nested loops append the value of each visited point, in the order of the loops |
| Replicator.ValidationAccepts | replicator.py:79-194 | the validators accept exactly when both MAF and both WTR bounds lie in [0, 1], both control counts are at least 100, all step and replicate counts are at least 1, and the lower GRR bound is positive |
| Replicator.RejectedAmongEmpty | replicator.py:79-194 | no option among the first `k` is rejected exactly when each of their values passes its validator |
| Replicator.GrrHiUnchecked | replicator.py:159-163 | the upper GRR bound has no validator, so it never changes the verdict |
| Replicator.DefaultsAccepted | replicator.py:79-194 | the default options pass every validator |
| Replicator.SetupLevels | replicator.py:250-253 | each dimension gets as many levels as its number of steps |
| Replicator.RepOptions.constructor | replicator.py:79-194 | the options as given, with no levels until the set-up runs |
| Replicator.DirPointsInGrid | replicator.py:227-241 | every visited point names an existing level and program |
| Replicator.DirPathsCount | replicator.py:224-242 | one path per MAF, control count, WTR and GRR level and replicate, and per program |
| Replicator.DirPathsMember | replicator.py:224-242 | the directory of every grid point is among the paths |
| Replicator.DirPathsOnly | replicator.py:224-242 | every path is the directory of some grid point |
| Replicator.DirPathSegments | replicator.py:229-241 | each path splits on '/' into its MAF, control count, WTR, GRR and program directory names |
| Replicator.DefaultGrid | replicator.py:224-242 | the default options give 500 directories |
| Replicator.DirLeafAt | replicator.py:241 | a grid point's directory is `path_maker` of its coordinates' names |
| Replicator.DirPathGen | replicator.py:224-242 | the result is the directory of every grid point, in loop order |
| Replicator.AppendMafPaths | replicator.py:227-229 | the MAF loops append the paths below each MAF level and replicate |
| Replicator.AppendCcPaths | replicator.py:230-232 | the control-count loops append the paths below each level and replicate |
| Replicator.AppendWtrPaths | replicator.py:233-235 | the WTR loops append the paths below each level and replicate |
| Replicator.AppendGrrPaths | replicator.py:236-238 | the GRR loops append the paths below each level and replicate |
| Replicator.AppendProgramPaths | replicator.py:239-241 | the program loop appends one path per program |
| Replicator.Made | replicator.py:62 | `os.makedirs` makes the path and every ancestor directory |
| Replicator.MkdirResult | replicator.py:60-68 | the result is 0 exactly when the path exists, 1 when it is created, and an error otherwise |
| Replicator.MkdirP | replicator.py:60-68 | the result is `MkdirResult`; on 1 the path and its ancestors become directories; files are untouched |
| Replicator.SetupTally | replicator.py:265-267 | `num_created` never exceeds the number of paths, and directories are only added |
| Replicator.SetupCovers | replicator.py:264-267 | after a run without error every path exists |
| Replicator.SetupExisting | replicator.py:265-267 | when every path exists a run creates nothing |
| Replicator.SetupRerun | replicator.py:264-267 | running the set-up again after a successful run creates 0 directories and changes nothing |
| Replicator.SetupSucceeds | replicator.py:265-267 | only a denied path or a file in the way stops the loop |
| Replicator.SetupStops | replicator.py:60-68 | the first error ends the loop; later paths change nothing |
| Replicator.SetupNext | replicator.py:265-267 | one more path adds its `mkdir_p` result to the tally, or ends the loop with its error |
| Replicator.MakeDirs | replicator.py:265-267 | the directories, the tally and the error are those of `Setup` over the paths |
| Replicator.DirSetup | replicator.py:244-269 | it stores the levels, creates every grid directory, and returns the paths (or the error) with the count of new directories |
| CaseControlGrid.ExpandPop | replicator.py:293 | the expanded population is `<maf>/<maf>.pop` |
| CaseControlGrid.JobsCount | replicator.py:289-313 | one sampling per MAF, control count, WTR and GRR level and replicate |
| CaseControlGrid.JobsMember | replicator.py:289-313 | every point of the parameter grid gets its job |
| CaseControlGrid.JobsOnly | replicator.py:289-313 | every job is that of a point of the parameter grid |
| CaseControlGrid.JobAtPaths | replicator.py:292-312 | a job reads `<maf>/<maf>.pop`, writes `<maf>/<cc>/<wtr>/<grr>/sample.pop`, and takes its point's WTR, GRR and control-count levels |
| CaseControlGrid.SampleDirMade | replicator.py:307-312 | the directory a sample goes into is one `dir_setup` creates |
| CaseControlGrid.JobLeafAt | replicator.py:307-312 | a job is built from the names and levels of its point's coordinates |
| CaseControlGrid.RepCaseControl | replicator.py:282-313 | with the sampler's options supplied: without the levels set by `dir_setup` it fails with AttributeError; otherwise it yields the job of every grid point, in loop order |
| CaseControlGrid.AppendMafJobs | replicator.py:289-296 | the MAF loops append the jobs below each MAF level and replicate |
| CaseControlGrid.AppendCcJobs | replicator.py:297-299 | the control-count loops append the jobs below each level and replicate |
| CaseControlGrid.AppendWtrJobs | replicator.py:300-302 | the WTR loops append the jobs below each level and replicate |
| CaseControlGrid.AppendGrrJobs | replicator.py:303-313 | the GRR loops append one job per GRR level and replicate |
| Encoding.RecodedRoundTrip | analysisMethods/treedt/formatter.py:29 | space-joined 1/2 codes split back into the codes, which decode to the haplotype |
| Encoding.StrsRoundTrip | analysisMethods/blossoc/formatter.py:34 | joined allele digits split back and decode to the haplotype |
| Encoding.DigitsRoundTrip | analysisMethods/margarita/formatter.py:31 | concatenated allele digits read back character by character as the haplotype |
| Encoding.FloatsRoundTrip | analysisMethods/blossoc/formatter.py:25 | joined `str` positions split back and parse to the positions |
| Encoding.IntsRoundTrip | analysisMethods/beta/formatter.py:24 | joined `repr(int)` positions split back and parse to the positions |
| Haplotypes.HaplotypeLength | analysisMethods/blossoc/formatter.py:32-40 | a diploid row holds the chromosome's loci once; any other row holds them once per ploidy copy |
| Haplotypes.CountAffected | analysisMethods/margarita/formatter.py:3 | the number of cases is at most the number of individuals |
| PlinkFormatter.FlatPair | analysisMethods/plink/formatter.py:17-19 | a diploid flat genotype is copy 0 followed by copy 1, so `hap1` and `hap2` are the two copies |
| PlinkFormatter.Pairs | analysisMethods/plink/formatter.py:20 | one pair per locus |
| PlinkFormatter.PedLines | analysisMethods/plink/formatter.py:15-26 | line `k` is the .ped line of individual `k` with id `k`, whatever its status |
| PlinkFormatter.MapLines | analysisMethods/plink/formatter.py:32-34 | line `k` is the .map line of locus `k` |
| PlinkFormatter.CreateFiles | analysisMethods/plink/formatter.py:1-36 | a non-diploid population writes nothing and returns no names; otherwise it writes the .ped and .map files and returns their names |
| Files.RmFields | analysisMethods/blossoc/cline.py:82-84 | an `rm` line of the Blossoc and Margarita scripts splits into `rm` and the file it removes |
| Files.FileSystem.WriteText | analysisMethods/plink/formatter.py:13-36 | writing a text file puts its lines at its name and changes no other file or directory |
| PlinkFormatter.WritePed | analysisMethods/plink/formatter.py:15-27 | the loop writes `PedLines` for every individual |
| PlinkFormatter.WriteMap | analysisMethods/plink/formatter.py:30-35 | the loop writes `MapLines` for every locus |
| PlinkFormatter.JoinPairs | analysisMethods/plink/formatter.py:20 | joining the "x y" pairs by spaces joins all codes by spaces, copy 0 and copy 1 alternating |
| PlinkFormatter.PedLineSplit | analysisMethods/plink/formatter.py:20-24 | a .ped line is its fields joined by single spaces, then a newline |
| PlinkFormatter.PedLineFields | analysisMethods/plink/formatter.py:20-24 | a .ped line splits into the id (`case<k>`/`control<k>`), `1 0 0 1`, the phenotype 2/1 and, per locus, the codes of copy 0 and copy 1, which decode to the alleles |
| PlinkFormatter.MapLineFields | analysisMethods/plink/formatter.py:33 | a .map line splits on tabs into the chromosome name, the locus name, 0 and the position |
| TreeDTFormatter.MarkerNames | analysisMethods/treedt/formatter.py:23 | `M` prefixed to each locus name |
| TreeDTFormatter.CreateFiles | analysisMethods/treedt/formatter.py:1-43 | only the first chromosome's file is written and its name returned; no chromosomes writes nothing and returns None |
| TreeDTFormatter.WriteDiploid | analysisMethods/treedt/formatter.py:26-33 | the loops write both copies of every individual in population order |
| TreeDTFormatter.WriteCopies | analysisMethods/treedt/formatter.py:28-33 | copy 0 is written before copy 1 |
| TreeDTFormatter.WriteHaploid | analysisMethods/treedt/formatter.py:35-40 | one line per individual in population order |
| Haplotypes.LayoutLength | analysisMethods/blossoc/formatter.py:31-44 | a layout of `k` rows per individual has `k` times as many rows as individuals |
| TreeDTFormatter.BodyAt | analysisMethods/treedt/formatter.py:26-40 | line `RowIndex(i, p)` is row `p` of individual `i` |
| TreeDTFormatter.RowFields | analysisMethods/treedt/formatter.py:31-40 | a row splits on spaces into its id, its status and its codes |
| TreeDTFormatter.HaploLineFields | analysisMethods/treedt/formatter.py:29-40 | a body line gives back the row id (`case<i>_<p>` or `case<i>`), the status (a/c or 2/1) and codes that decode to the row's alleles |
| TreeDTFormatter.HeaderFields | analysisMethods/treedt/formatter.py:23 | the header splits into `Id`, `Status`, one `M<name>` per locus, and an empty field from the trailing space |
| BlossocFormatter.CreateFiles | analysisMethods/blossoc/formatter.py:7-46 | only the first chromosome is written (positions file, then genotypes); the names come back genotypes first; no chromosomes gives None |
| BlossocFormatter.WriteDiploid | analysisMethods/blossoc/formatter.py:31-38 | both copies of every individual, in population order |
| BlossocFormatter.WriteCopies | analysisMethods/blossoc/formatter.py:33-38 | copy 0 before copy 1 |
| BlossocFormatter.WriteHaploid | analysisMethods/blossoc/formatter.py:39-44 | one line per individual, in population order |
| BlossocFormatter.BodyAt | analysisMethods/blossoc/formatter.py:31-44 | line `RowIndex(i, p)` is row `p` of individual `i` |
| BlossocFormatter.RowFields | analysisMethods/blossoc/formatter.py:36-44 | a row splits into its flag and allele digits that decode to the haplotype |
| BlossocFormatter.HapLineFields | analysisMethods/blossoc/formatter.py:34-44 | a genotype line gives back the affection flag 1/0 and the row's alleles |
| BlossocFormatter.PosLineFields | analysisMethods/blossoc/formatter.py:25 | the positions line splits into one field per locus, each parsing back to its position |
| MargaritaFormatter.Select | analysisMethods/margarita/formatter.py:27-45 | the selected individuals exist and have the requested status |
| MargaritaFormatter.CreateFiles | analysisMethods/margarita/formatter.py:1-47 | only the first chromosome's file is written (counts, positions, case rows, control rows) and its name returned; no chromosomes gives None |
| MargaritaFormatter.WritePass | analysisMethods/margarita/formatter.py:27-45 | one pass writes the rows of exactly the individuals with the given status, in population order |
| MargaritaFormatter.PassStep | analysisMethods/margarita/formatter.py:27-35 | one more individual adds its rows exactly when it has the status |
| MargaritaFormatter.WriteRows | analysisMethods/margarita/formatter.py:29-35 | both copies of a diploid individual, else its whole genotype |
| MargaritaFormatter.SelectComplete | analysisMethods/margarita/formatter.py:27-28 | every individual with the status is selected |
| MargaritaFormatter.SelectIncreasing | analysisMethods/margarita/formatter.py:27 | the selection is in population order, each individual once |
| MargaritaFormatter.SelectCount | analysisMethods/margarita/formatter.py:3-5 | the cases number `numcases` and the controls the rest |
| MargaritaFormatter.RowCounts | analysisMethods/margarita/formatter.py:17-20 | the first two numbers of the counts line are the numbers of case and control rows in the file |
| MargaritaFormatter.CountsFields | analysisMethods/margarita/formatter.py:18 | three numbers joined by spaces split and parse back |
| MargaritaFormatter.StatsFields | analysisMethods/margarita/formatter.py:17-20 | the counts line gives back the case rows, control rows and loci of the chromosome |
| MargaritaFormatter.PosTextFields | analysisMethods/margarita/formatter.py:25 | the positions split on newlines into one field per locus, each parsing back to its position |
| MargaritaFormatter.HapLineDigits | analysisMethods/margarita/formatter.py:31-32 | a row reads back digit by digit as the haplotype |
| MargaritaFormatter.PassAt | analysisMethods/margarita/formatter.py:27-45 | row `p` of the `j`-th selected individual sits at `HapCount * j + p` |
| BetaFormatter.CreateFiles | analysisMethods/beta/formatter.py:1-38 | only the first chromosome is written (genotype, status and positions files) and their names returned in that order; no chromosomes gives None |
| BetaFormatter.WriteChrom | analysisMethods/beta/formatter.py:27-34 | the loop writes the status lines and genotype lines of every copy |
| BetaFormatter.WriteStatus | analysisMethods/beta/formatter.py:28-32 | one flag line per ploidy copy |
| BetaFormatter.WriteGeno | analysisMethods/beta/formatter.py:33-34 | one genotype line per ploidy copy |
| BetaFormatter.LinesMatch | analysisMethods/beta/formatter.py:27-34 | the two files have `ploidy` lines per individual, so they are equally long |
| BetaFormatter.StatusAt | analysisMethods/beta/formatter.py:28-32 | status line `ploidy * i + y` is individual `i`'s flag |
| BetaFormatter.GenoAt | analysisMethods/beta/formatter.py:33-34 | genotype line `ploidy * i + y` is copy `y` of individual `i`, beside its flag |
| BetaFormatter.GenoLineFields | analysisMethods/beta/formatter.py:34 | a genotype line splits into one digit per locus of the chromosome, decoding to the copy |
| BetaFormatter.PosTextFields | analysisMethods/beta/formatter.py:24 | the positions split on newlines into one field per locus, each parsing back to its position |
| PlinkCline.ClineWriter | analysisMethods/plink/cline.py:47-59 | the script is the header, then the `plink` command with `--assoc`/`--noweb` or empty slots |
| PlinkCline.CommandFields | analysisMethods/plink/cline.py:58 | the command splits into seven words; the flags are present exactly when set |
| TreeDTCline.ClineWriter | analysisMethods/treedt/cline.py:53-80 | the header, then the command of a supported mode (none otherwise) |
| TreeDTCline.CommandFields | analysisMethods/treedt/cline.py:57-76 | the command splits into `treedt`, the mode letter, the input file and the numbers of that mode, which parse back |
| BlossocCline.ClineWriter | analysisMethods/blossoc/cline.py:74-88 | the header, the command (with `-u0` unless unphased), then `rm` of both input files when cleaning up |
| BlossocCline.CommandFields | analysisMethods/blossoc/cline.py:77-80 | the command splits back into its words; `-u0` is present exactly for phased data |
| MargaritaCline.ClineWriter | analysisMethods/margarita/cline.py:69-82 | the header, the `java` command (with `--smart` for smart permutations), then `rm` of the input when cleaning up |
| MargaritaCline.CommandFields | analysisMethods/margarita/cline.py:72-75 | the command splits back into nine or seven words, with `--smart` exactly for smart permutations |
| MargaritaCline.WordsNumbers | analysisMethods/margarita/cline.py:72-75 | the heap limit, ARG count, permutations and smart count parse back from their words |
| Registry.AnalysisMethod.constructor | __init__.py:66-72 | a fresh entry has no name and every capability off |
| Registry.AnalysisMethod.Snapshot | __init__.py:85-108 | the record the dispatchers read carries the entry's name and its format and script flags |
| Registry.AnalysisMethod.GetFormatter | __init__.py:74-83 | the formatter module path when `format` is set, nothing otherwise; a missing name fails |
| Registry.AnalysisMethod.GetClineFunction | __init__.py:109-115 | the script-writer module path when `cline` is set, nothing otherwise; a missing name fails |
| Registry.ModulePathFields | __init__.py:81 | a module path splits on dots into the package, the subpackage, the lower-cased name and the leaf |
| Registry.UpperLower | format.py:46 | a lower-cased name matches its own upper-cased form |
| Registry.ChooseFrom | format.py:11 | one offered name per program directory |
| Registry.DottedFields | analysisMethods/__init__.py:11 | a package path splits into the two package names and the directory's own fields |
| Registry.ChooseFromNames | format.py:11 | each offered name is its upper-cased directory name |
| Registry.Names | analysisMethods/__init__.py:36 | one name per entry, as given, not upper-cased |
| Registry.MatchesIn | format.py:45-46 | every match is a registry entry with the requested name up to case |
| Registry.MatchesInMember | format.py:45-46 | an entry matches exactly when it is in the registry and has the requested name up to case |
| Registry.Flagged | format.py:47 | the kept entries have the capability |
| Registry.FlaggedAppend | format.py:47 | filtering by the capability distributes over concatenation |
| Registry.ApplyFlaggedSnoc | format.py:47-49 | one more entry adds its result exactly when it has the capability |
| Registry.SelectedSnoc | format.py:43-46 | one more requested name adds the entries it reaches |
| Registry.SelectedAppend | format.py:43 | requests are served in order |
| Registry.SelectedMember | format.py:43-46 | an entry is reached exactly when some request passes the verbatim `methodNames` gate and equals its name up to case |
| Registry.SkippedName | format.py:44 | a name whose upper-cased form is not verbatim a registry name reaches nothing |
| Format.InputFileRoot | format.py:28 | the root is the longest dot-free prefix of the input file name |
| Format.FormatFiles | format.py:25-54 | it returns the `createFiles` result of every reached entry with a formatter, in request then registry order; it aborts exactly when a reached entry has none and there is no logger |
| Format.FormatName | format.py:45-53 | the same for the entries of one requested name |
| ClineWriter.Cliner | cline_writer.py:25-51 | it returns the script name of every reached entry with a script writer, in order; it aborts exactly when a reached entry's dialog is cancelled, or it has no writer and there is no logger |
| ClineWriter.ClineName | cline_writer.py:38-50 | the same for the entries of one requested name |
| PipelineControl.StageAt | scripts/pipeline_control.py:253-283 | the stage at each position has that rank in the run order |
| PipelineControl.PlannedFromMember | scripts/pipeline_control.py:253-283 | the stages planned from position `k` are exactly the enabled ones at or after `k` |
| PipelineControl.PlannedFromSorted | scripts/pipeline_control.py:253-283 | planned stages come in strictly increasing position |
| PipelineControl.PlannedOrder | scripts/pipeline_control.py:253-283 | a stage runs exactly when its flag is set, in the fixed order |
| PipelineControl.DefaultsRunNothing | scripts/pipeline_control.py:6-42 | the default options run no stage, in single mode |
| PipelineControl.Advance | scripts/pipeline_control.py:253-283 | each position of the run order begins its stage exactly when enabled, keeping the logged stages a prefix of the plan |
| PipelineControl.Row | scripts/pipeline_control.py:75-77 | one file per HapMap sample, named `HapMap3_<sample>_chr<chrom>.pop` in the destination |
| PipelineControl.VisitAsWritten | scripts/pipeline_control.py:78-91 | a file is kept exactly when it already holds a population of the expected size; any other file raises NameError |
| PipelineControl.VisitAllAppend | scripts/pipeline_control.py:75-91 | visiting two lists visits the first, then the second |
| PipelineControl.VisitAllFills | scripts/pipeline_control.py:75-91 | after the download every visited file holds a population, other files are untouched, and one event is logged per file |
| PipelineControl.CompleteKept | scripts/pipeline_control.py:79-84 | a complete download directory is left as is, every file logged as kept |
| PipelineControl.FetchCompletes | scripts/pipeline_control.py:75-91 | when fetches give the expected sizes, the directory ends complete, so a second run keeps everything |
| PipelineControl.Classify | scripts/pipeline_control.py:139-142 | a line is a comment, a marker line with a blank first field, or a marker line with its name |
| PipelineControl.ParseMarkers | scripts/pipeline_control.py:136-142 | the loop computes `Markers` of the lines |
| PipelineControl.ReadAllFailure | scripts/pipeline_control.py:139-142 | reading fails exactly when some line is bad |
| PipelineControl.ReadAllNames | scripts/pipeline_control.py:139-142 | a successful read gives one name per marker line, in order |
| PipelineControl.MarkersFailure | scripts/pipeline_control.py:142 | a marker list fails exactly when some marker line has a blank first field |
| PipelineControl.MarkersWords | scripts/pipeline_control.py:142 | every marker name read is a non-empty word of its line's first comma field |
| PipelineControl.MarkerOfWord | scripts/pipeline_control.py:142 | a name read is a word without white space or commas |
| PipelineControl.MarkerOfLine | scripts/pipeline_control.py:142 | a line starting with a name and a comma, white space or nothing gives that name back |
| PipelineControl.Workspace.constructor | scripts/pipeline_control.py:328-332 | a workspace over the existing files, with an empty log |
| PipelineControl.Workspace.DownloadPop | scripts/pipeline_control.py:77-91 | the files and log become `Visit` of the old ones: keep a current file, otherwise fetch and save |
| PipelineControl.Workspace.DownloadData | scripts/pipeline_control.py:45-93 | unless skipped, every sample of every chromosome is visited in order |
| PipelineControl.Workspace.DownloadChrom | scripts/pipeline_control.py:76-91 | the files of one chromosome are visited in order |
| PipelineControl.Workspace.GetInitPop | scripts/pipeline_control.py:95-164 | an existing file is kept; a bad marker list fails; otherwise the population and its `.lst` are saved |
| PipelineControl.Workspace.GetExpandPop | scripts/pipeline_control.py:166-196 | an existing file is kept; "Now" loads the initial population (failing when it is missing) and saves the expanded one; "Batch" saves the config; other modes do nothing |
| PipelineControl.Workspace.CaseControl | scripts/pipeline_control.py:263-277 | the expanded population is reused or loaded (failing when missing); an existing sample file is kept; otherwise the sample is saved, holding `numCases + numControls` individuals, exactly when the sampler fills both quotas on the candidates, and the stage fails when it cannot |
| PipelineControl.Workspace.SampleAndSave | scripts/pipeline_control.py:274-277 | the sample file is saved, holding `numCases + numControls` individuals, exactly when the sampler fills both quotas on the candidates; otherwise nothing changes and the stage fails |
| PipelineControl.Workspace.DownloadStep | scripts/pipeline_control.py:254-255 | the download stage never fails and keeps the plan |
| PipelineControl.Workspace.InitStep | scripts/pipeline_control.py:257-258 | the init stage keeps the plan and can fail only when enabled |
| PipelineControl.Workspace.ExpandStep | scripts/pipeline_control.py:260-261 | the expand stage keeps the plan and can fail only when enabled |
| PipelineControl.Workspace.EarlyStages | scripts/pipeline_control.py:254-261 | the first three stages run in order and fail only through init or expand |
| PipelineControl.Workspace.PenetranceStep | scripts/pipeline_control.py:213-221 | as written (no sampler options) an enabled stage raises AttributeError; with the options but without `gui` it raises KeyError; it fails only when enabled, and a successful enabled stage leaves a sample file |
| PipelineControl.Workspace.FormatStep | scripts/pipeline_control.py:279-280 | the format stage fails exactly when enabled without `gui`, otherwise returns what `format` gives, and changes no population file |
| PipelineControl.Workspace.ClineStep | scripts/pipeline_control.py:282-283 | the script stage fails when enabled without `gui`, otherwise returns what `cliner` gives, and changes no population file |
| PipelineControl.Workspace.SingleMode | scripts/pipeline_control.py:253-283 | the enabled stages begin in the fixed order; without the sampler options an enabled case/control stage aborts, and without `gui` any case/control, format or script stage aborts; a successful run begins all of them, leaves a sample file, and returns the format and script results |
| PipelineControl.Workspace.ReplicateMode | scripts/pipeline_control.py:285-317 | starting from fresh replicate options without levels, the grid is made first when asked for, and a directory that cannot be made ends the run before any stage; otherwise its size is logged and the stages run in the fixed order; an enabled script stage always fails, and so does an enabled case/control stage without the sampler options or without the grid (no `createDirs`), since the sampler needs the grid's levels; a successful case/control stage ran the whole job list; the format results use the replicate programs in batch mode |
| PipelineControl.Workspace.CreateDirs | scripts/pipeline_control.py:296-298 | when asked for, the set-up makes the grid (failing as `dir_setup` fails, logging nothing) and sets the levels, and the number of grid paths is logged; otherwise nothing changes |
| PipelineControl.Workspace.RepSampling | scripts/pipeline_control.py:310-311 | an enabled case/control stage of replicate mode fails exactly when the sampler options are missing (AttributeError) or the grid levels are not set; otherwise it logs the stage and then the job list of the grid |
| PipelineControl.Workspace.ReplicateLate | scripts/pipeline_control.py:310-317 | the last three stages run in order; the run fails exactly when the script stage is enabled or the case/control stage is enabled without the sampler options or without the grid levels; otherwise an enabled case/control stage logs the job list of the grid |
| PipelineControl.Workspace.Run | scripts/pipeline_control.py:335-338 | the chosen mode runs with the sampler options and `gui` supplied: single mode then fails only through an enabled init, expand, case/control or script stage and leaves a sample file on success; replicate mode fails through an enabled script stage, or an enabled case/control stage without `createDirs`, runs the job list on success, and then returns the replicate programs' format results; an unknown mode does nothing |

## Left out

- Logging is left out. It only reports, except where a missing logger crashes. In `format` and `cliner` that case is modelled, as the `logger` flag. In the driver, the driver always passes a logger, so that case is not modelled.
- The simuOpt dialogs (`getParam`, `guiGetParam`) are left out. Their answers are parameters (`Answers`, the `RepParams` of a `RepOptions` object, the `answers` of `cliner`), and a cancelled dialog is `None`.
- Foreign simuPOP calls are left out. `stat`, `loadPopulation`, `evolve`'s mating and `clone` are modelled by their results:
  - allele frequencies computed from the genotypes;
  - a file map from path to population size;
  - a finite candidate stream;
  - the population data.
- The HapMap fetch, `getHapMapMarkers`, `saveMarkerList` and `simuGWAS` are left out. They are parameters of the `World` datatype.
- Module discovery by `os.listdir` and dynamic imports are left out. The registry is a list of entries, and the formatter each entry reaches is a parameter.
- `os.chmod` of the scripts and the script directory are left out, as are the blossoc and margarita `open(os.path.join(...` calls. Those writers return the script text rather than a named file, because their `open` call has an unbalanced parenthesis (analysisMethods/blossoc/cline.py:75, analysisMethods/margarita/cline.py:70).
- The blossoc and margarita script writers (analysisMethods/blossoc/cline.py:68-70, analysisMethods/margarita/cline.py:63-65) also lack a comma after `"default": "."` in their option tables, so neither module compiles and `cliner` fails when `getClineFunction` imports one of them. The model writes their scripts as if the modules compiled.
- `print` statements are left out, including TreeDT's "not supported" message.
- `rep_bash` is left out: it is never reached, because the script stage of replicate mode raises first.
- The BETA script writer is not part of this model, and neither are `parse_control.py`, `simuGWASsetup.py` or `analysisMethods/simupop/input.py`.
- `cliner`'s unused `inputfileroot` is left out.
- Positions are whole base pairs: `str(float)` is the integer followed by `.0`. Fractional positions are not modelled.
- `Text.Fixed2`: `"%.2f"` is modelled on exact reals, rounding half away from zero. The source rounds the binary float it holds, breaking exact ties to even, so a tie can go the other way: `"%.2f" % 0.125` is "0.12" there, "0.13" here, and 0.675, stored slightly below, gives "0.67" there, "0.68" here. This can change a grid directory name built from a level such as those of `float_range(0.5, 0.0, 5)`.
- `Replicator.ValidationAccepts` models the numeric validators only. The type checks of simuOpt are left out.
- `PipelineControl.Workspace.ReplicateLate`: with the sampler options supplied, the case/control stage logs the job list of the grid (`CaseControlGrid.RepCaseControl`). The sampling of each job and its saved sample are not modelled: the source saves `case_control_dataset` under `pars.sampledPop`, neither of which is defined (replicator.py:313-315).
- The candidate offspring of single mode's sampler (`World.stream`) and the index of the disease locus (`World.locus`, what `lociByNames` gives for the chosen name) are parameters: the mating scheme that produces them is a foreign simuPOP call.
- `RemoveSNP.DefaultThresholds` holds only for populations with at most a million allele copies. With more copies, a locus with a single minor copy also falls below 0.000001.
- `SingleGeneModel.SelectInds`: `random.random()` is the parameter `draw`.
- `SingleGeneModel.Penetrance`: the sampled generation is returned as a list of individuals. simuPOP's population object around it is not modelled.

## Findings

| source | as written | input that shows it | evidently intended | confidence | as-written member | corrected member |
|---|---|---|---|---|---|---|
| scripts/pipeline_control.py:88 | a file that is missing, or that holds a population of the wrong size, is fetched by `loadHapMapPop`, which the driver never defines or imports, so the download raises NameError | an empty destination directory with `skip` False | fetch and save the population, after which the directory is complete | not executed | PipelineControl.VisitAsWritten | PipelineControl.Workspace.DownloadPop |
| scripts/pipeline_control.py:216 | `getCaseControl` reads `singleGeneModel.options`, which that module never defines, so an enabled case/control stage of single mode raises AttributeError before its dialog (and line 275 would pass the options object where `penetrance` expects a population) | single mode with `penetrance` True | the stage asks for the sampler's options, samples the expanded population and saves the sample | not executed | PipelineControl.Workspace.PenetranceStep | PipelineControl.Workspace.CaseControl |
| scripts/pipeline_control.py:233 | `single_mode` calls `get_formatters` and `get_cline` without keyword arguments, and each reads `kwargs['gui']` (also line 243), so the stage raises KeyError | single mode with `format` True | the stage shows its dialog and runs `format` or `cliner` | not executed | PipelineControl.Workspace.SingleMode | PipelineControl.Workspace.Run |
| replicator.py:287 | `rep_case_control` also reads `singleGeneModel.options`, so an enabled case/control stage of replicate mode raises AttributeError before any job (and line 314 saves an undefined `case_control_dataset`) | replicate mode with `penetrance` True | the stage samples every point of the grid | not executed | PipelineControl.Workspace.ReplicateLate | CaseControlGrid.RepCaseControl |
