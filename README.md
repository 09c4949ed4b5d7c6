# bench5 in Dafny

bench5 is a helper for running the SPEC CPU benchmarks on the gem5 simulator.
It organises the SimPoint flow into operations that run in order: basic-block
vectors, simpoints, checkpoints, simulation from checkpoints, elastic traces,
trace replay, full simulation and memory profiling. `main` checks the chosen
operations and benchmarks. Each operation builds a spawn list with one
`Simulation` object per benchmark (and per CPU model, memory technology and
case for detailed runs). The executor then runs the list under a counting
semaphore. A watchdog kills children that exhaust host memory or run too
long. Each job's log is scanned for known failure signatures, and its output
folder is renamed or deleted.

This project models that core:

- **Wrappers** (`wrappers.dfy`): `Option` and `Result`.
- **Strings** (`strings.dfy`): Python's `str.split` on one character,
  `str.join`, substring `in`, the ordering of `sorted` on strings, and `str()`
  of integers.
- **Paths** (`paths.dfy`): `os.path.join`, `os.path.basename` and `uppath`.
- **Sorting** (`sorting.dfy`): a stable sort of strings, and the sorted keys
  of a dictionary.
- **Bench** (`bench.dfy`): the functions of `bench5.py`:
  - `cmd_join` with its `shlex.split` round trip;
  - `get_ss_params` and `get_params`;
  - the operation check and the benchmark resolution of `main`;
  - the group expansion of `main`;
  - the instance list of `detailed_sim`.
- **Spec2006** (`spec2006.dfy`): the SPEC CPU2006 benchmark list
  (`benchsuites/spec2006.py`) and `get_preprocessing`.
- **Classifier** (`classifier.dfy`): the failure causes and the log-signature
  chain of `run_in_thread`.
- **Reconciler** (`reconciler.dfy`): the clean-up and renaming of a job's
  output. The filesystem is a set of component paths.
- **Engine** (`engine.dfy`): the executor of `execute` as a class `Executor`.
  Its fields are the state the threads share: free semaphore slots, `sp_pids`,
  `sp_fail`, the two counters, the shutdown flag, the filesystem, and where
  each thread is. Each method is one atomic step of one thread. The scheduler
  picks the interleaving.
- **Simulation** (`simulation.dfy`): the class hierarchy of `simclass.py` as
  one class `Sim`. Its constant `kind` names the subclass. Its fields are the
  object's attributes, and `Snapshot()` reads them as one value.
  - Every method is proved equal to a function of the old snapshot. That
    function gives the new attributes and the exception raised, if any. An
    exception after a partial update keeps the partial update, as Python does.
  - The methods cover: the constructors; `addWorkload` (with the single-workload
    and `TraceReplay` variants); `_setOutputParam`; `setDetailedParams` and
    `_setCpuSysParams`; `generateCommand`; and the `prepareEnvironment` of the
    base class, `CptGeneration`, `TraceGeneration` and `CptSimulation`.
  - `CptSimulation.generateCommand` is the method `CptGenerateCommands`; the
    base `generateCommand` is `GenerateCommand`.
- **Checkpoints** (`checkpoints.dfy`): the checkpoint selection of
  `CptSimulation.prepareEnvironment`:
  - the list of folder names;
  - the weight parsed from each name with `float()`;
  - the stable sort by falling weight;
  - the `--cpts` cut with Python slice semantics.
- **SimParams** (`simparams.dfy`): the tables of `simparams.py`, and what they
  give for the two CPU models listed.

Inputs the source draws from the world become parameters:

- the set of existing files and directories;
- a directory listing;
- the lines of a simpoint file;
- the chosen simpoint index;
- the resident memory and the age of each child;
- whether a `/proc` entry exists;
- host memory.

Where the code and its documentation disagree, the model follows the code.
Three such points are modelled as written:

- `setDetailedParams` (simclass.py:115-131) gives the data cache position 0
  of each level tuple and the instruction cache position 1. The tables
  document the order as L1I, L1D, L2, L3 (simparams.py line 28). Every
  method and specification function of the cache setup reads the positions
  as written: `Simulation.AsWrittenRows`. The documented reading
  (`Simulation.DocumentedRows`) appears only in
  `SimParams.A53DataCacheDocumented`, the corrected half of the finding.

- `_setOutputParam` (simclass.py:166-178) names every output file with the
  abbreviation of the first workload. A later workload adds only its own
  subset to the name.
- In `sim_conf_id` (bench5.py:408-415), the conditional expression binds
  looser than the concatenation. The id is therefore either the whole joined
  text or just "full".

Two disagreements are listed under "## Findings". For the cache rows, the
main model keeps the written reading and the documented one stands beside
it.

## Model

| member | source | states |
|---|---|---|
| Strings.Split | bench5.py:168 | `str.split(sep)` yields at least one piece, and no piece contains the separator |
| Strings.SplitJoin | bench5.py:407-415 | splitting a "/"-joined list of slash-free components gives the components back |
| Strings.JoinSplit | bench5.py:54 | joining the pieces of a split with the separator gives back the original string |
| Strings.SplitNoSeparator | bench5.py:175-178 | a string without the separator splits into itself alone |
| Strings.Without | bench5.py:411-414 | `replace(c, "")` leaves no `c`, keeps every other character as often as it occurred, never grows, and changes nothing when there is no `c` |
| Strings.NatToString | simclass.py:315 | `str()` of a natural number is a non-empty string of decimal digits |
| Strings.NatToStringValue | simclass.py:315 | the decimal digits of `str(n)` read back as `n` |
| Paths.PathJoin | bench5.py:167 | `os.path.join(a, b)`: an absolute `b` replaces `a`; otherwise one slash separates a non-empty `a` that has no trailing slash from `b`, and an empty `a` or one ending in a slash is simply followed by `b` |
| Paths.JoinAllIsSlashJoin | simclass.py:198-199 | joining plain directory names onto a base puts one slash between them and yields a base again |
| Paths.Basename | bench5.py:401 | `os.path.basename` is the suffix of the path after its last slash: it contains no slash, and it is the whole path or is preceded by a slash |
| Paths.DropLast | bench5.py:54 | the slice `[:-n]` drops the last `n` items, and gives the empty list for `n == 0` or for `n` at least the length |
| Paths.UppathComponents | bench5.py:54 | `uppath(p, n)` keeps exactly the leading components of `p`, all but the last `n` |
| Sorting.SortSorted | simclass.py:312-313 | `sorted(flags)` is ordered and a permutation of the flags |
| Sorting.InsertPerm | simclass.py:312-313 | inserting into a sorted list adds exactly that element |
| Sorting.InsertSorted | simclass.py:312-313 | inserting into a sorted list keeps it sorted |
| Sorting.SortedSet | simclass.py:314-315 | `sorted(params)` lists every key exactly once, in strictly increasing order |
| Bench.CmdJoin | bench5.py:97-104 | the loop of `cmd_join` yields the concatenation of every argument rendered: quoted when it holds a space, followed by one space |
| Bench.LexPlain | bench5.py:97-104 | lexing characters other than spaces and quotes extends the current token |
| Bench.LexQuoted | bench5.py:97-104 | inside quotes every character but the quote joins the token |
| Bench.LexRendered | bench5.py:97-104 | one rendered argument lexes back to itself, whatever text follows it |
| Bench.CmdJoinRoundTrip | bench5.py:97-104 | `shlex.split(cmd_join(args)) == args` for every list of non-empty arguments that have no quote or shell-special character |
| Bench.CmdJoinDropsEmpty | bench5.py:97-104 | an empty argument does not survive the round trip |
| Bench.EntryOf | bench5.py:203-204 | `table.get(b_name, "")`: the entry when present, the empty string otherwise |
| Bench.GetSsParams | bench5.py:194-213 | a set missing from any of the three tables is an error. Otherwise, a benchmark with subsets yields one `(ss_set, params[i], input[i])` per subset, in order; a string entry gives "" per position and a short tuple is an `IndexError`. A benchmark without subsets yields `(b_set, params, input)` |
| Bench.WellFormedCovers | bench5.py:206-210 | when every tuple is as long as its subset list, the positional reads of `get_ss_params` stay in bounds, and benchmarks without subsets have string entries |
| Bench.ExeName | bench5.py:174-177 | the listed executable name plus `_base.<arch>`; otherwise the second dot-separated piece of the name ("b" for "a.b.c") plus `_base.<arch>`, which is missing (an `IndexError`) exactly when the name has no dot |
| Strings.SplitNoSeparatorIff | bench5.py:168 | `b_name.split('.')` has one piece exactly when there is no dot (also bench5.py line 177) |
| Bench.MemSize | bench5.py:186-189 | "2GB" unless the set's table has a non-empty size for the benchmark, which then wins; an empty entry gives "2GB", so the result is never empty |
| Bench.GetParams | bench5.py:166-190 | the benchmark folder must exist; the executable name needs a dot when unlisted, and the executable must exist. On success the result is the executable name, the preprocessing entry (or "") and the memory size |
| Bench.CheckOpsIsGapTest | bench5.py:908-916 | no operation selected is refused; the three patterns refused as "not consecutive" are exactly a gap among the first four operations; every other selection is accepted |
| Bench.FirstMatching | bench5.py:918-927 | a name resolves to the first listed benchmark equal to it or to its number before the dot, and nothing is found exactly when none matches |
| Bench.Lookup | bench5.py:920-925 | the inner loop with its `break` finds `FirstMatching` |
| Bench.ResolveBenchmarks | bench5.py:918-929 | all names resolve, each replaced in place by its match; otherwise the first unknown name is reported, and every name before it resolved |
| Bench.ExpandGroupsAsWritten | bench5.py:892-894 | as written: a single benchmark on a list without `bench_groups` raises; any other count of names is kept |
| Bench.SingleBenchmarkWithoutGroups | bench5.py:892-894 | naming one benchmark fails under the written group lookup when the list defines no groups |
| Bench.ExpandGroups | bench5.py:892-894 | intended: a single name that is a group expands to the group; everything else is kept |
| Bench.ExpandGroupsAgrees | bench5.py:892-894 | where the written lookup succeeds it equals the intended one, and it fails exactly for one name without a groups table |
| Bench.WithDefault | bench5.py:567-570 | `d.get(k, d.get("default"))` |
| Bench.TechInstancesMembers | bench5.py:565-570 | for one model, the triples exist exactly when every technology has cases (its own or the default). They are then exactly `(model, tech, case)` for each technology and each of its cases |
| Bench.InstancesMembers | bench5.py:560-570 | the comprehension of `detailed_sim` exists exactly when every model has technologies and every technology cases. It then holds exactly the triples of each model's technologies and their cases |
| Bench.TraceGenInstances | bench5.py:571-572 | in trace generation every model appears once, in order, with empty technology and case |
| Spec2006.GetPreprocessing | benchsuites/spec2006.py:193-211 | only the listed benchmarks have preprocessing, and it is one of their listed commands |
| Spec2006.WrfLittleEndian | benchsuites/spec2006.py:194-199 | little-endian 481.wrf uses the 32-bit data for 32 bits and the 64-bit data otherwise |
| Spec2006.WrfBigEndian | benchsuites/spec2006.py:200-204 | any other endianness selects the big-endian data, by word size |
| Spec2006.Sphinx3Endianness | benchsuites/spec2006.py:205-209 | 482.sphinx3 keeps the raw files of its endianness; the word size plays no part |
| Spec2006.NoPreprocessing | benchsuites/spec2006.py:211 | every other benchmark has none |
| Spec2006.ParamsTestWellFormed | benchsuites/spec2006.py:58-167 | the test set's parameter tuples are as long as their subset lists |
| Spec2006.InputTestWellFormed | benchsuites/spec2006.py:58-85 | the test set's input tuples are as long as their subset lists (also benchsuites/spec2006.py lines 168-190) |
| Spec2006.ParamsTrainWellFormed | benchsuites/spec2006.py:58-167 | the same for the train set's parameters |
| Spec2006.InputTrainWellFormed | benchsuites/spec2006.py:58-85 | the same for the train set's inputs (also benchsuites/spec2006.py lines 168-190) |
| Spec2006.ParamsRefWellFormed | benchsuites/spec2006.py:58-167 | the same for the ref set's parameters |
| Spec2006.InputRefWellFormed | benchsuites/spec2006.py:58-85 | the same for the ref set's inputs (also benchsuites/spec2006.py lines 168-190) |
| Spec2006.SubsetsCovered | bench5.py:194-213 | on this list `get_ss_params` reads every tuple within bounds, in every set, for every benchmark |
| Spec2006.MemSizeOutsideTrain | benchsuites/spec2006.py:49-55 | every benchmark outside the train set gets the default 2GB |
| Spec2006.MemSizeInTrain | benchsuites/spec2006.py:49-55 | in the train set, only 459.GemsFDTD, 465.tonto and 481.wrf get 4GB |
| Classifier.TagInjective | bench5.py:426-428 | distinct causes give distinct "err_<cause>_" prefixes |
| Classifier.ClassifyIsFirstMatch | bench5.py:368-397 | the if/elif chain equals a scan of the signature table that stops at the first match |
| Classifier.FirstMatchSpec | bench5.py:368-397 | the scan from test `k` yields the cause of the first test from `k` that the log passes, and nothing when none passes |
| Classifier.ClassifyFirstWins | bench5.py:368-397 | a log is classified exactly when it passes some test, and then by the first test it passes |
| Classifier.OutOfMemoryIsOom | bench5.py:370-373 | a log with the out-of-memory line and without the mmap line is "oom" |
| Classifier.IncompleteNeedsBothMarkers | bench5.py:394-397 | "incompl" needs the resume marker and the absence of the completion marker, and it is the verdict exactly when, besides, none of the eleven table signatures occurs |
| Classifier.ClassifyNotWatchdog | bench5.py:368-397 | the log never yields the watchdog's "hostmem" or "timeout" |
| Reconciler.RemoveTree | bench5.py:404 | `shutil.rmtree(root)` removes exactly the root and everything below it |
| Reconciler.RenameEffect | bench5.py:430-431 | `os.rename(src, dst)` on separate trees: what was under `dst` is replaced by the tree of `src`, `src` is gone, and nothing else changes |
| Reconciler.OutPathIsParent | bench5.py:401-402 | `out_path` is the work path, or exactly its parent when the job ran in "tmp" |
| Reconciler.SimConfIdFull | bench5.py:408-415 | without "cpt" in the output path the id is "full" |
| Reconciler.SimConfIdCheckpoint | bench5.py:407-415 | with "cpt", the id joins the benchmark number, the architecture, the target, model, technology and case with their separators removed, and "cpt" plus the checkpoint number |
| Reconciler.ErrPathApart | bench5.py:426-428 | the "err_<cause>_" folder lies neither inside nor above the output folder |
| Reconciler.StatsApart | bench5.py:416-420 | the stats file and its renamed copy are distinct and both inside the output folder |
| Reconciler.ShutdownDeletesOutput | bench5.py:403-404 | shutdown without `--keep-tmp` removes the output subtree and nothing else, and fails only when the folder is missing |
| Reconciler.PrefixStepsStayInside | bench5.py:416-423 | renaming the stats file and deleting "tmp" change nothing outside the output folder |
| Reconciler.FailureRenamesOutput | bench5.py:424-431 | a failed job that is reconciled without error leaves nothing at its output folder; its "err_" folder holds exactly the former output tree after the stats move and the tmp removal, with any stale contents gone; nothing outside those two changes |
| Reconciler.FailureMovesOutput | bench5.py:424-431 | with the stats not renamed and no tmp folder dropped, the "err_" folder holds exactly the former output tree, nothing is left at the output folder and nothing outside changes |
| Reconciler.SuccessStaysInside | bench5.py:405-423 | a job that did not fail changes nothing outside its output folder |
| Reconciler.ReconcileIdempotent | bench5.py:405-423 | reconciling again an output that did not fail and did not run in "tmp" changes nothing |
| Engine.RemoveFirstDropsFirst | bench5.py:435 | `list.remove(pid)` drops exactly the first occurrence |
| Engine.StartKeepsAccounted | bench5.py:447-451 | taking a free slot for a new thread keeps the accounting |
| Engine.StepKeepsAccounted | bench5.py:332-440 | a thread step that moves a slot, a pid and the counters consistently keeps the accounting |
| Engine.LaunchKeepsAccounted | bench5.py:339-344 | a thread that sees shutdown gives its slot back, or goes on to launch, and either way keeps the accounting |
| Engine.RegisterKeepsAccounted | bench5.py:354-356 | registering a child appends its pid, counts the spawn, and keeps the accounting |
| Engine.AdvanceKeepsAccounted | bench5.py:361-431 | moving between registered phases with the same pid keeps the accounting |
| Engine.FinishKeepsAccounted | bench5.py:433-440 | a finishing thread holds a pid in `sp_pids`; removing it, counting the termination and releasing the slot keeps the accounting |
| Engine.Executor.constructor | bench5.py:57-71 | all slots free, no pids or failures, zero counters, no shutdown |
| Engine.Executor.Acquire | bench5.py:447-451 | `sem.acquire` on a free slot starts a thread for the next entry; otherwise nothing changes |
| Engine.Executor.CheckShutdown | bench5.py:339-342 | with shutdown set, the thread releases its slot and ends; otherwise it goes on to launch |
| Engine.Executor.Register | bench5.py:354-360 | the pid is counted and appended, and a kill is requested exactly when shutdown is set and the child is alive |
| Engine.Executor.Fail | bench5.py:247-252 | `sp_fail[pid] = cause` overwrites any earlier cause |
| Engine.Executor.ClassifyLog | bench5.py:368-397 | unless the child already failed or shutdown is set, the first matching signature is recorded as its cause |
| Engine.Executor.ReconcileOutput | bench5.py:399-431 | the filesystem becomes the result of `Reconcile`; an exception leaves the thread crashed holding its slot |
| Engine.Executor.Finish | bench5.py:433-440 | the pid leaves `sp_pids`, the termination is counted, and the slot is released |
| Engine.Executor.FindLargest | bench5.py:261-268 | the first eligible child with the largest positive resident set, or none when every eligible child uses nothing |
| Engine.Executor.MemoryGuard | bench5.py:256-276 | with under a tenth of host memory available and some child listed, that child is marked "hostmem"; otherwise nothing changes |
| Engine.Executor.TimeGuard | bench5.py:278-290 | with the time limit on, exactly the eligible children older than six hours are marked "timeout", each once; earlier causes are kept |
| Engine.Executor.Watchdog | bench5.py:256-290 | one round marks at most one memory victim ("hostmem"), the largest child eligible before the round and none exactly when memory is ample, no child runs or every eligible one has zero size; then the overdue children other than it ("timeout"); nothing else in `sp_fail` changes |
| Engine.Executor.Interrupt | bench5.py:476-481 | a keyboard interrupt sets shutdown and kills exactly the children in `sp_pids` |
| Engine.Executor.SlotBound | bench5.py:447-451 | no more children are listed than there are slots |
| Engine.Executor.TermsBelowSpawns | bench5.py:354-356 | terminations never outnumber spawns (also bench5.py lines 434-436) |
| Engine.Executor.RegisteredIff | bench5.py:354-356 | a pid is in `sp_pids` exactly when a registered thread carries it (also bench5.py lines 434-435) |
| Engine.Executor.AllDone | bench5.py:455-457 | once every thread was skipped or finished, all slots are free, `sp_pids` is empty, and terminations equal spawns |
| Simulation.InitialIsEmpty | simclass.py:55-70 | a fresh object has no workload, is not prepared, has none of the workload parameters, has a target directory, and is detailed exactly for the four detailed subclasses |
| Simulation.Abbreviation | simclass.py:170-171 | `b_spl[0] + b_spl[1]` is missing (an `IndexError`) exactly when the name has no dot |
| Simulation.OutputEntries | simclass.py:166-178 | one output file per workload, named with the first workload's abbreviation and the workload's own subset |
| Simulation.Column | simclass.py:203-215 | one column of the calls, entry by entry |
| Simulation.ParamsStep | simclass.py:187-212 | a successful call sets the parameters of the first workload or extends those of the earlier ones, with only `output` beside |
| Simulation.NamesStep | simclass.py:197-229 | a successful call updates the workload id, subsets, base folder, output path and data path |
| Simulation.ShapeStep | simclass.py:231-233 | a successful call appends the workload, sets `output` from all workloads, and changes no other attribute |
| Simulation.AddOneParams | simclass.py:189-195 | the first call sets command, memory size, one CPU, and the options and input when non-empty |
| Simulation.FirstParamsAfter | simclass.py:189-195 | the first workload's parameters meet the accumulation invariant for one call |
| Simulation.AddOneNames | simclass.py:197-229 | the first call's names and paths |
| Simulation.AddOne | simclass.py:180-234 | one call on a fresh object meets everything a run of calls leaves |
| Simulation.AddMoreParams | simclass.py:203-212 | after a later call the CPU count is the number of calls, the memory size the first one's, and the command the `;`-joined commands |
| Simulation.AddMoreCounts | simclass.py:204-212 | the CPU count and memory size after one more call |
| Simulation.AddMoreCommand | simclass.py:203 | the command is the `;`-joined list of `./exe` of every call |
| Simulation.AddMoreOptions | simclass.py:206-208 | the options are the `;`-joined options of every call, the first entry present only when set by the first call |
| Simulation.AddMoreInput | simclass.py:209-211 | the same for the input files |
| Simulation.TextPush | simclass.py:206-211 | an extended text is the joined column of one more call |
| Simulation.AddMoreNames | simclass.py:214-229 | the id and subsets are `_`-joined over the calls, and the base folder names the joined id |
| Simulation.AddMoreShape | simclass.py:231-233 | the workloads are those of the calls, and the output files follow them |
| Simulation.AddAllAccumulates | simclass.py:180-234 | after k successful `addWorkload` calls on a fresh object: k workloads; k CPUs; the texts joined over the calls; the names and paths derived from them; k output files; nothing else changed |
| Simulation.AddOneMore | simclass.py:180-234 | one more successful call after k keeps that invariant |
| Simulation.ColumnPush | simclass.py:203-215 | a joined column of one more call is the old joined column, the separator and the new entry |
| Simulation.PrefetcherOf | simclass.py:104-107 | `hwp_config.get(name, "")`: the entry for a known name, nothing otherwise |
| Simulation.IfValid | simclass.py:41-44 | `add_if_valid` sets the key exactly when the value is truthy |
| Simulation.Key | simclass.py:110-162 | a parameter key begins with its cache prefix and ends with its suffix |
| Simulation.HwpFrame | simclass.py:110-114 | the prefetcher parameters touch no key outside their four |
| Simulation.HwpParamsSet | simclass.py:110-114 | each of the four prefetcher parameters is present exactly when it was or the field is truthy, and then holds the field |
| Simulation.CacheFrame | simclass.py:115-120 | the level parameters touch no key outside their six |
| Simulation.CacheParamsSet | simclass.py:115-120 | the six level parameters hold the latencies, size and associativity of the row |
| Simulation.LevelParamsKept | simclass.py:110-162 | the parameters of a level survive any change that leaves their prefix alone |
| Simulation.HwpUntouched | simclass.py:110-114 | one cache's prefetcher leaves the keys of another cache alone |
| Simulation.CacheUntouched | simclass.py:115-120 | one cache's level leaves the keys of another cache alone |
| Simulation.CpuSysParams | simclass.py:80-88 | CPU type, clock and voltage come from the model, system clock and voltage are fixed at 1.2GHz and 1.2V, and no other key changes |
| Simulation.Level | simclass.py:115 | `cache[hier[i]][case][i]` exists exactly when each lookup is in range |
| Simulation.Hierarchy | simclass.py:99-102 | the model's own technology row when the model is listed, the default row otherwise, and a `KeyError` for an unknown technology |
| Simulation.DetailedFlags | simclass.py:108-151 | "hwp-override", "caches" and "l2cache" first; the bank flag of a level exactly when its count is truthy; "l3cache" exactly when the hierarchy has a third level |
| Simulation.ReplayOverride | simclass.py:586-591 | only `TraceReplay` changes anything after the base method |
| Simulation.L1Set | simclass.py:108-131 | the data and instruction caches hold the rows they are given |
| Simulation.L1Untouched | simclass.py:108-131 | the first level leaves other prefixes alone |
| Simulation.L2Set | simclass.py:132-146 | the second level holds its row, and `l2-num-banks` is present exactly for a truthy count |
| Simulation.L2Untouched | simclass.py:132-146 | the second level leaves other prefixes alone |
| Simulation.L3Set | simclass.py:147-162 | with a third level, it holds its row, and `l3-num-banks` is present exactly for a truthy count |
| Simulation.L3Untouched | simclass.py:147-162 | the third level leaves other prefixes alone |
| Simulation.KeptAfterL2L3 | simclass.py:132-162 | the first-level parameters survive the second and third levels |
| Simulation.CachesLevels | simclass.py:108-162 | every first-level cache holds its row, and so do the second level and any third level |
| Simulation.CachesNoL3 | simclass.py:147 | without a third level no "l3" key changes |
| Simulation.CachesL2Banks | simclass.py:133-135 | `l2-num-banks` is present with the count exactly when the count is truthy |
| Simulation.CachesL3Banks | simclass.py:149-151 | with a third level, the same holds for `l3-num-banks` |
| Simulation.CachesUntouched | simclass.py:108-162 | the cache parameters leave alone every key outside the four cache prefixes and the bank keys |
| Simulation.DetailedRefusals | simclass.py:93-103 | the dummy classes always refuse; a non-detailed class other than `TraceGeneration` refuses; a missing table raises after the CPU parameters were set; success exactly when every table lookup succeeds (also simclass.py lines 332-333, 524-527) |
| Simulation.TraceGenerationDetailed | simclass.py:524-527 | `TraceGeneration` sets only the CPU and system parameters and the script, and records the model with empty technology and case, whatever the tables |
| Simulation.DetailedSetCaches | simclass.py:93-164 | a successful call appends the detailed flags, records the configuration, gives the data cache the level at position 0 and the instruction cache the level at position 1 as the code reads them, holds the second- and third-level rows, and sets the CPU type, which is "TraceCPU" for a replay (also simclass.py lines 586-591) |
| Simulation.CachesKeepCpu | simclass.py:108-164 | the cache parameters, with the data cache from position 0 and the instruction cache from position 1, keep the CPU type that `_setCpuSysParams` set, and the replay override replaces only it (also simclass.py lines 586-588) |
| Simulation.AppendDebug | simclass.py:306-310 | the debug-flag loop appends the flags separated by commas, with a space after the last |
| Simulation.AppendFlags | simclass.py:312-313 | the flag loop appends `--f ` for each flag in order |
| Simulation.AppendParams | simclass.py:314-315 | the parameter loop appends `--k="v" ` for each key in order |
| Simulation.GeneratedErrors | simclass.py:293-303 | errors come in order: dummy class, no simulator, not prepared, missing configuration file; success exactly when none applies. The configuration is the set one, or se.py under the gem5 directory (also simclass.py lines 335-336) |
| Simulation.FlagsPartOccurs | simclass.py:312-313 | the option of each flag follows the options of the flags before it |
| Simulation.ParamsPartOccurs | simclass.py:314-315 | the option of each parameter follows those of the keys before it |
| Simulation.CommandShape | simclass.py:305-316 | the command is the head, then the flags as a sorted permutation, then every key once in strictly increasing order |
| Simulation.CommandHasFlag | simclass.py:312-313 | every flag appears as `--f ` in the command |
| Simulation.CommandHasParam | simclass.py:314-315 | every parameter appears as `--k="v" ` in the command |
| Simulation.GeneratedShape | simclass.py:293-316 | a generated command has that shape, and names every flag and every parameter of the object |
| Simulation.FirstSimpoint | simclass.py:553-559 | the simpoint of the first line with the index, and nothing exactly when no line has it |
| Simulation.FindSimpoint | simclass.py:553-559 | the loop with its `break` finds `FirstSimpoint` |
| Simulation.HalfTowardZero | simclass.py:562 | `int(n / 2)`: truncation toward zero |
| Simulation.FastForwardBound | simclass.py:562-568 | the fast-forward point is the centred point when that skips at least `trace_skip`, and `trace_skip` otherwise; it is never below `trace_skip`, and the traced window before the simpoint is at most half the traced instructions |
| Simulation.EnvPreparedErrors | simclass.py:277-279 | preparation fails without a workload; for `TraceGeneration` it also fails with a model that is not out-of-order, and, when simpoints are needed, with a missing or zero simpoint. A failure changes nothing (also simclass.py lines 424-425, 529-534, 553-561) |
| Simulation.EnvPreparedState | simclass.py:277-291 | success marks the object prepared and gives the scratch folder and log file. `CptGeneration` adds `take-simpoint-checkpoint`; `TraceGeneration` with simpoints sets a fast-forward of at least `trace_skip`; nothing else changes (also simclass.py lines 434-437, 562-570) |
| Simulation.PreparedThenGenerated | simclass.py:290 | after a successful preparation `generateCommand` no longer refuses for want of one (also simclass.py lines 296-297) |
| Simulation.CptEntries | simclass.py:468-474 | `cpt_info` holds, for each selected checkpoint, its number and its folder inside the output path |
| Simulation.CptPaths | simclass.py:469-473 | each checkpoint gets its scratch folder and its `<wl_id>.log` |
| Simulation.PlanEntriesFolders | simclass.py:457-474 | every entry numbers a listed checkpoint folder (between 1 and their count) and names its folder |
| Simulation.PlanEntriesOrder | simclass.py:461-474 | the entries follow the plan, their numbers are distinct, and there are `--cpts` of them when that is positive and less than the count, and all of them otherwise |
| Simulation.CptPreparedOk | simclass.py:452-478 | the successful case: `cpt_info`, the restore flag, `checkpoint-dir`, prepared, and the per-checkpoint paths |
| Simulation.CptPreparedState | simclass.py:452-478 | a successful checkpoint preparation records exactly those changes and no other |
| Simulation.CptPreparedErrors | simclass.py:452-463 | it fails without a workload, without any checkpoint folder, or on a name whose weight does not parse; a failure changes nothing |
| Simulation.RecordCheckpoints | simclass.py:466-474 | the loop records the entries and paths in the selected order |
| Simulation.CptRunStep | simclass.py:480-487 | one more round runs after the earlier ones succeeded |
| Simulation.CptRunStops | simclass.py:480-487 | once a round raises, the later ones do not run |
| Simulation.OutputSetFrame | simclass.py:166-178 | `_setOutputParam` changes only `output` |
| Simulation.CommandStarts | simclass.py:305 | a command starts with the simulator and its output folder |
| Simulation.GeneratedNames | simclass.py:305 | a generated command starts with the simulator and the output folder, and holds every parameter (also simclass.py lines 314-315) |
| Simulation.CptStepCommand | simclass.py:480-487 | a round's command starts with the simulator and the checkpoint's folder (given as `--outdir`), and names its number in `checkpoint-restore` |
| Simulation.CptRunCommands | simclass.py:480-487 | without an exception there is one command per checkpoint, in order, each the command of its checkpoint |
| Simulation.Sim.constructor | simclass.py:54-70 | the attributes each subclass's constructor sets (also simclass.py lines 346-352, 370-374, 410-415, 443-450, 492-500, 504-522, 576-584, 671-674) |
| Simulation.Sim.CondAppend | simclass.py:47-49 | `cond_append` adds the flag exactly when the test holds |
| Simulation.Sim.AddIfValid | simclass.py:41-44 | `add_if_valid` on the parameters |
| Simulation.Sim.SetSimPath | simclass.py:75-78 | the dummy classes refuse; otherwise the path must name a file and is then recorded (also simclass.py lines 329-330) |
| Simulation.Sim.AddWorkload | simclass.py:180-234 | the exception or new state of `addWorkload` (also simclass.py lines 354-357, 376-379, 417-420) |
| Simulation.Sim.SetWorkloadParams | simclass.py:187-212 | the parameters of the first workload, or of a later one (a missing `cmd` or CPU count raises) |
| Simulation.Sim.SetFirstParams | simclass.py:189-195 | the parameters of the first workload |
| Simulation.Sim.SetLaterParams | simclass.py:203-212 | the parameters of a later workload; a missing CPU count raises after the texts were extended |
| Simulation.Sim.SetWorkloadNames | simclass.py:197-199 | the id, subsets and base folder (also simclass.py lines 214-216) |
| Simulation.Sim.SetWorkloadPaths | simclass.py:200-201 | the output and data paths (also simclass.py lines 217-229) |
| Simulation.Sim.SetOutputParam | simclass.py:166-178 | refused without workloads or without a dot in the first name; otherwise `output` joins the output files with ";" |
| Simulation.Sim.AddReplayWorkload | simclass.py:594-630 | `TraceReplay.addWorkload` |
| Simulation.Sim.CountReplayWorkload | simclass.py:599-622 | memory size, CPU count and data path of a replay |
| Simulation.Sim.SetReplayOutPath | simclass.py:624-627 | the output path of a replay |
| Simulation.Sim.SetDetailedParams | simclass.py:93-164 | the new state and error are those of `DetailedSet`: "not supported" for the dummy classes, only the CPU and an empty configuration for trace generation, "not detailed" for an atomic simulation, else the table part; the caches take the first-level positions as written (also simclass.py lines 332-333, 524-527, 586-591) |
| Simulation.Sim.SetTablesParams | simclass.py:99-164 | a missing hierarchy, memory table or level row gives `MissingTable` and changes nothing; otherwise the state is that of the table part, with the data cache from position 0 and the instruction cache from position 1 |
| Simulation.Sim.SetTablesDone | simclass.py:108-164 | once the tables are found: the caches (data cache from position 0, instruction cache from position 1, as written), then the configuration, then the trace replay's CPU type and script |
| Simulation.Sim.SetReplayOverride | simclass.py:588-590 | the trace CPU and script of a replay |
| Simulation.Sim.SetCpuSysParams | simclass.py:80-91 | `_setCpuSysParams` |
| Simulation.Sim.SetCaches | simclass.py:108-162 | the detailed flags are appended and all levels' parameters set, the first level from the positions the code reads |
| Simulation.Sim.SetL1 | simclass.py:108-131 | the flags gain "hwp-override" and "caches"; the data cache and its prefetcher take the level at position 0, the instruction cache and its prefetcher the level at position 1 |
| Simulation.Sim.SetL2 | simclass.py:132-146 | the second level |
| Simulation.Sim.SetL3 | simclass.py:147-162 | the third level |
| Simulation.Sim.SetBanks | simclass.py:133-135 | the bank flag and count of a level (also simclass.py lines 149-151) |
| Simulation.Sim.SetHwpParams | simclass.py:110-114 | the four prefetcher parameters |
| Simulation.Sim.SetCacheParams | simclass.py:115-120 | the six level parameters |
| Simulation.Sim.GenerateCommand | simclass.py:293-316 | the result of `Generated`; only the configuration fallback changes the state (also simclass.py lines 335-336) |
| Simulation.Sim.BasePrepare | simclass.py:277-291 | the base `prepareEnvironment` |
| Simulation.Sim.PrepareEnvironment | simclass.py:277-291 | `prepareEnvironment` of every class but `CptSimulation` and `TraceReplay` (also simclass.py lines 382-400, 423-438, 529-571) |
| Simulation.Sim.PrepareTrace | simclass.py:529-571 | `TraceGeneration.prepareEnvironment` |
| Simulation.Sim.PrepareCheckpoints | simclass.py:452-478 | `CptSimulation.prepareEnvironment` |
| Simulation.Sim.CptGenerateCommands | simclass.py:480-487 | no checkpoint list raises and changes nothing; otherwise the state and commands of the rounds in order, stopping at the first exception |
| Simulation.Sim.CptRound | simclass.py:483-486 | one round of that loop |
| Simulation.Sim.CommitCheckpoints | simclass.py:475-477 | the end of the checkpoint preparation |
| Checkpoints.Matching | simclass.py:457-459 | the names kept are exactly those that contain "cpt.simpoint_" |
| Checkpoints.FoldersSorted | simclass.py:457-459 | `cpt_folders` is sorted, a permutation of the matching names, and holds exactly them |
| Checkpoints.Pow10 | simclass.py:462-463 | a power of ten is at least one |
| Checkpoints.ParseFloat | simclass.py:462-463 | a parsed unsigned decimal is never negative |
| Checkpoints.ParseWhole | simclass.py:462-463 | `float(str(n)) == n` |
| Checkpoints.Weighed | simclass.py:460-463 | the weights fail exactly when some name has no sixth `_` field or its field does not parse; otherwise folder i gets number i+1 and its parsed weight |
| Checkpoints.InsertByWeightPerm | simclass.py:462-463 | inserting by weight adds exactly that checkpoint |
| Checkpoints.SortByWeightChain | simclass.py:462-463 | the sort by falling weight is a permutation, and each neighbour pair is ordered |
| Checkpoints.SortByWeightOrdered | simclass.py:461-463 | `sorted(key=weight, reverse=True)` is stable: heavier first, and equal weights keep their numbering order; it is a permutation |
| Checkpoints.SelectedPrefix | simclass.py:464-465 | a positive `--cpts` below the count keeps that many first entries; zero or a count not below it keeps them all; a negative one drops entries from the end |
| Checkpoints.WeighedEntry | simclass.py:461-463 | every weighed checkpoint names the folder at its number and carries that folder's weight |
| Checkpoints.PlanOrdered | simclass.py:457-465 | the plan is ordered by falling weight then number. Each entry is a listed folder with its number and weight, and the count is `--cpts` when below the count of folders and all of them otherwise |
| Checkpoints.WeighedNumbered | simclass.py:461 | the checkpoints are numbered 1, 2, … in folder order |
| Checkpoints.SelectionKeeps | simclass.py:464-465 | the cut keeps the order and only entries it was given |
| Checkpoints.SortedKeeps | simclass.py:462-463 | the sorted list is ordered, as long as its input, and holds only its entries |
| Checkpoints.PlanComplete | simclass.py:457-465 | without a cut the plan is a permutation of all weighed checkpoints |
| SimParams.A53Levels | simparams.py:5-12 | the Cortex-A53 takes the default two-level hierarchy; its first row is 2-way and its second 4-way (also simparams.py lines 30-37, 58-69) |
| SimParams.I7Levels | simparams.py:30-37 | the Core i7 has its own three-level hierarchy, every row present (also simparams.py lines 58-63) |
| SimParams.A53DataCacheAsWritten | simclass.py:115-131 | as written, the Cortex-A53's data cache is given the 2-way row documented as L1I, and its instruction cache the 4-way L1D row |
| SimParams.A53DataCacheDocumented | simparams.py:28 | with the documented rows, the data cache is 4-way and the instruction cache 2-way, every field from its own row (also simparams.py lines 52-56) |

## Left out

- `log`, `progress_bar`, `print` and the console: output only.
- Argument parsing (`argparse`), tilde expansion (`path`), `check_prerequisites`, `get_host_mem`, `get_rss`, `gen_sge_job` and the SGE template, `get_sim_info`, `detailed_list`, `simple_sim`, `simulate` and the rest of `main`: setup and I/O around the core. The memory, `/proc` and age readings are inputs to the watchdog.
- Threads, locks and the one-second sleeps: the executor is a set of atomic steps whose interleaving is free. The locks make each step atomic.
- `subprocess`, `os.kill`, `shutil`, `os.makedirs`, `mirror_dir`, `force_symlink` and the preprocessing shell command: outside effects. Only the renames and deletions of the output reconciliation are modelled, on an abstract filesystem.
- `_prepareFolder`'s folder and symlink work, and the `isdir`/`isfile` assertions on data paths: filesystem effects. The model returns the paths `_prepareFolder` returns.
- The spec2017 branches of `_prepareFolder` and `benchsuites/spec2017.py`: only the CPU2006 list is modelled.
- `TraceReplay.prepareEnvironment`: it probes trace files and their `.gz` variants on disk. `TraceReplay.addWorkload` and `setDetailedParams` are modelled.
- SPGeneration's BBV-file checks (the `sed | wc` interval count) and `getBBVFilePath`, and `getOutPath`: filesystem and shell. SPGeneration's preparation is modelled as the base preparation.
- Reading the weight file of `TraceGeneration` and `max(weights, key=...)`: the chosen index is an input. The simpoint lines are given already split, with integer values.
- `float()` beyond unsigned decimal text (signs, exponents, "inf"/"nan", spaces): checkpoint names written by gem5 carry plain decimals. Floating-point rounding is not modelled; weights are exact rationals.
- `--trace-insts / 2` in floating point: for values beyond 2^53 Python's float division rounds. The model truncates the exact half.
- The `bytes()` comparison of memory sizes in `addWorkload` (simclass.py:204-205, 612-613): under Python 3 `bytes` of a string raises, and under Python 2 it compares text. The model keeps the first workload's memory size.
- The watchdog's memory test `float(avail) / float(total) < 0.1` is modelled as `10 * avail < total` on natural numbers. `total` is required to be positive, since Python would divide by zero.
- Python's `None` for unset paths: an unset path is the empty string, and the "None" text that `os.path.join` would fail on is not modelled.
- The `--atrace`/`--ctrace` options that the constructors read are not defined by the argument parser. The model takes them as inputs.
- `sim_conf_id` reads eight path components; the model requires slash-free components for its lemma about the value and returns an error where Python raises `IndexError`.
- Simulation.DetailedSet: when a cache level or an entry of the hierarchy is missing, Python raises after appending flags and setting some cache parameters. The model reports `MissingTable` with only the CPU and system parameters set.
- Simulation.CptStepCommand: states the start of each command and its `checkpoint-restore` parameter. It does not state the remaining options, which `GeneratedShape` covers.

## Findings

| source | as written | input that shows it | evidently intended | confidence | as-written member | corrected member |
|---|---|---|---|---|---|---|
| bench5.py:892-894 | `args.benchmarks[0] in benchlist.bench_groups` is read even when the benchmark list defines no `bench_groups`, as `benchsuites/spec2006.py` does not | one benchmark name, e.g. `bench5.py 401.bzip2 …` with the CPU2006 list: the attribute lookup raises | a list without groups has no names to expand, so the names are kept | medium, not executed | Bench.ExpandGroupsAsWritten | Bench.ExpandGroups |
| simclass.py:115-131 | the L1D parameters read row 0 of each level tuple and of `mem_technologies`, and the L1I parameters read row 1. The tables document the order as L1I, L1D, L2, L3 (simparams.py lines 28 and 52-56) | model sc-a53-odn2, technology sram-only, case typical: `l1d_assoc` is 2 and `l1i_assoc` is 4 | the data cache from the L1D row (4-way) and the instruction cache from the L1I row (2-way) | medium, not executed | SimParams.A53DataCacheAsWritten | SimParams.A53DataCacheDocumented |
