/** The `Simulation` class hierarchy of simclass.py. One class stands for every
    subclass; its `kind` says which one it is and selects the overriding
    methods. An object collects gem5 options in `params`, `flags` and
    `debugFlags`, the workloads it runs, and the paths derived from them; it
    prepares its environment once and then yields the gem5 command line. */
module Simulation {
  import opened Wrappers
  import opened Strings
  import opened Paths
  import opened Sorting
  import opened Bench
  import opened Checkpoints

  /** A value of the `_params` dictionary: gem5 options take strings and
      integers. */
  datatype Value = S(s: string) | N(n: int)

  /** Python truthiness: a non-empty string, a non-zero number. */
  predicate Truthy(v: Value)
  {
    match v
    case S(s) => s != ""
    case N(n) => n != 0
  }

  /** `str(v)`. */
  function Text(v: Value): string
  {
    match v
    case S(s) => s
    case N(n) => IntToString(n)
  }

  /** The concrete subclasses of `Simulation`, one per operation. */
  datatype Kind =
    | BBVGeneration | SPGeneration | CptGeneration | CptSimulation
    | FullSimulation | TraceGeneration | TraceReplay | MemProfile

  /** The subclasses of `DummySimulation`, which refuse simulator settings. */
  predicate Dummy(k: Kind)
  {
    k == SPGeneration || k == MemProfile
  }

  /** The subclasses whose `addWorkload` refuses a second workload. */
  predicate SingleWorkload(k: Kind)
  {
    k == BBVGeneration || k == SPGeneration || k == CptGeneration
  }

  /** The command-line arguments the classes read. A missing prefetcher option
      is None. */
  datatype Args = Args(
    arch: string, outDir: string, dataDir: string, gem5Dir: string,
    intSize: int, warmup: int, cpts: int,
    traceSkip: int, traceInsts: int, traceNohint: bool, traceCfg: string,
    l2Banks: int, l3Banks: int,
    l1iHwp: Option<string>, l1dHwp: Option<string>, l2Hwp: Option<string>, l3Hwp: Option<string>,
    atrace: bool, ctrace: bool)

  /** An element of `_workloads`: benchmark, its general parameters, subset. */
  datatype Workload = Workload(bName: string, bParams: BenchParams, subset: string)

  /** A subset as `addWorkload` receives it: name, options, input file. */
  datatype Subset = Subset(name: string, options: string, input: string)

  /** `_det_conf`: the model, memory technology and case of a detailed run. */
  datatype DetConf = DetConf(model: CpuModel, tech: string, memCase: string)

  /** The exceptions the methods raise (and the assertion of
      `TraceGeneration`/`TraceReplay` on the CPU model). */
  datatype SimError =
    | NoTargetDir | NoDetailedConf | AlreadyPrepared | MultipleWorkloads | NoWorkload
    | NoDotInName | KeyMissing | NotDetailed | NotSupported | MissingTable
    | SimulatorNotFound(bin: string) | NoSimulator | NotPrepared | MissingConfig(cfg: string)
    | NotOutOfOrder(core: string) | InvalidSimpoint | NoCheckpoints | BadCheckpointName
    | NoCheckpointList

  /** The attributes of a simulation object. Python's `None` for an unset path
      is the empty string here; both are false. */
  datatype SimState = SimState(
    kind: Kind,
    debugFlags: seq<string>,
    flags: seq<string>,
    workloads: seq<Workload>,
    params: map<string, Value>,
    targetDir: string,
    trailingDir: string,
    binPath: string,
    cfgPath: string,
    outPath: string,
    prereqDir: string,
    detConf: Option<DetConf>,
    detailed: bool,
    envPrep: bool,
    wlId: string,
    wlSs: string,
    baseSf: string,
    dataPath: string,
    cptInfo: Option<seq<(int, string)>>)

  /** The trace debug flags of `CptSimulation`, `FullSimulation` and
      `TraceReplay`, as appended by `cond_append`. */
  function TraceDebugFlags(args: Args): seq<string>
  {
    (if args.atrace then ["AccessTrace"] else []) + (if args.ctrace then ["ConflictTrace"] else [])
  }

  /** The object each constructor builds. */
  function Initial(kind: Kind, args: Args): SimState
  {
    var blank := SimState(kind, [], [], [], map[], "", "", "", "", "", "", None, false, false, "", "", "", "", None);
    match kind
    case BBVGeneration =>
      blank.(params := map["cpu-type" := S("NonCachingSimpleCPU"), "simpoint-interval" := N(args.intSize)],
             flags := ["simpoint-profile"], targetDir := "bbv")
    case SPGeneration => blank.(targetDir := "simpoint", prereqDir := "bbv")
    case CptGeneration =>
      blank.(params := map["cpu-type" := S("AtomicSimpleCPU")], targetDir := "checkpoint", prereqDir := "simpoint")
    case CptSimulation =>
      blank.(detailed := true, targetDir := "simulation", prereqDir := "checkpoint", debugFlags := TraceDebugFlags(args))
    case FullSimulation =>
      blank.(detailed := true, targetDir := "simulation", trailingDir := "full", debugFlags := TraceDebugFlags(args))
    case TraceGeneration =>
      blank.(detailed := true, flags := ["hwp-override", "caches", "elastic-trace-en"],
             params := map["mem-type" := S("SimpleMemory"), "fast-forward" := N(args.traceSkip),
                           "maxinsts" := N(args.traceInsts), "data-trace-file" := S("deptrace.proto.gz"),
                           "inst-trace-file" := S("fetchtrace.proto.gz")],
             targetDir := "trace", prereqDir := if args.traceNohint then "" else "simpoint")
    case TraceReplay =>
      blank.(detailed := true, targetDir := "simulation", trailingDir := "trace_replay", prereqDir := "trace",
             debugFlags := TraceDebugFlags(args))
    case MemProfile => blank.(targetDir := "profile")
  }

  /** The parameters that only the workloads set. */
  predicate NoWorkloadKeys(p: map<string, Value>)
  {
    "cmd" !in p && "mem-size" !in p && "options" !in p && "input" !in p && "num-cpus" !in p && "output" !in p
  }

  /** A fresh object holds no workload and none of the parameters the
      workloads set; the detailed modes are exactly those that start
      detailed. */
  lemma InitialIsEmpty(kind: Kind, args: Args)
    ensures Initial(kind, args).workloads == [] && !Initial(kind, args).envPrep
    ensures NoWorkloadKeys(Initial(kind, args).params)
    ensures Initial(kind, args).detailed <==> kind in {CptSimulation, FullSimulation, TraceGeneration, TraceReplay}
    ensures Initial(kind, args).targetDir != ""
  {
    match kind {
      case BBVGeneration =>
      case SPGeneration =>
      case CptGeneration =>
      case CptSimulation =>
      case FullSimulation =>
      case TraceGeneration =>
      case TraceReplay =>
      case MemProfile =>
    }
  }

  // ---------------------------------------------------------------------
  // addWorkload

  /** `b_spl[0] + b_spl[1]` of a benchmark name ("401bzip2" for
      "401.bzip2"); None is the `IndexError` of a name without a dot. */
  function Abbreviation(bName: string): (r: Option<string>)
    ensures r.None? <==> '.' !in bName
  {
    var spl := Split(bName, '.');
    SplitNoSeparatorIff(bName, '.');
    if |spl| < 2 then None else Some(spl[0] + spl[1])
  }

  /** The output file of one workload in `_setOutputParam`. */
  function OutFile(outPath: string, abbr: string, subset: string): string
  {
    PathJoin(outPath, abbr + "." + subset + ".out")
  }

  /** One output file per workload, every one named with the first
      workload's abbreviation (`b_abbr` is recomputed from
      `self._workloads[0]` inside the loop). */
  function OutputEntries(outPath: string, abbr: string, ws: seq<Workload>): (r: seq<string>)
    ensures |r| == |ws|
    ensures forall i :: 0 <= i < |ws| ==> r[i] == OutFile(outPath, abbr, ws[i].subset)
  {
    seq(|ws|, i requires 0 <= i < |ws| => OutFile(outPath, abbr, ws[i].subset))
  }

  /** The `output` parameter: the output files joined by ";". */
  function OutputValue(outPath: string, abbr: string, ws: seq<Workload>): string
  {
    Join(OutputEntries(outPath, abbr, ws), ';')
  }

  /** `os.path.join(out_path, model, tech, case)` of a detailed run. */
  function DetailedPath(outPath: string, conf: DetConf): string
  {
    JoinAll([outPath, conf.model.name, conf.tech, conf.memCase])
  }

  /** What a call leaves behind: the new attributes and the exception it
      raised, if any. An exception raised half-way keeps the changes made
      before it, as in the source. */
  type Outcome = (SimState, Option<SimError>)

  /** The parameters of the first workload: command, memory size, the
      options and input only when non-empty, one CPU. */
  function FirstParams(p: map<string, Value>, bp: BenchParams, sub: Subset): map<string, Value>
  {
    var p1 := p["cmd" := S("./" + bp.exe)]["mem-size" := S(bp.memSize)];
    var p2 := if sub.options != "" then p1["options" := S(sub.options)] else p1;
    var p3 := if sub.input != "" then p2["input" := S(sub.input)] else p2;
    p3["num-cpus" := N(1)]
  }

  /** A later workload extends the command, the options and the input with
      ";" (options and input also when empty). */
  function ExtendedText(p: map<string, Value>, bp: BenchParams, sub: Subset): map<string, Value>
    requires "cmd" in p
  {
    var p1 := p["cmd" := S(Text(p["cmd"]) + ";./" + bp.exe)];
    var p2 := p1["options" := S(if "options" in p1 then Text(p1["options"]) + ";" + sub.options else ";" + sub.options)];
    p2["input" := S(if "input" in p2 then Text(p2["input"]) + ";" + sub.input else ";" + sub.input)]
  }

  /** A count of CPUs is present. */
  predicate HasCpuCount(p: map<string, Value>)
  {
    "num-cpus" in p && p["num-cpus"].N?
  }

  /** The output path of an object after its calls: output directory,
      architecture and workload, target directory, subsets, then the
      detailed configuration and the trailing directory when present. */
  function OutPathFor(st: SimState, args: Args, baseSf: string, wlSs: string): string
    requires st.detailed ==> st.detConf.Some?
  {
    var out0 := JoinAll([args.outDir, baseSf, st.targetDir, wlSs]);
    var out1 := if st.detailed then DetailedPath(out0, st.detConf.value) else out0;
    if st.trailingDir != "" then PathJoin(out1, st.trailingDir) else out1
  }

  /** The parameters after a later workload: extended texts, one more CPU. */
  function LaterParams(p: map<string, Value>, bp: BenchParams, sub: Subset): map<string, Value>
    requires "cmd" in p && HasCpuCount(p)
  {
    ExtendedText(p, bp, sub)["num-cpus" := N(p["num-cpus"].n + 1)]
  }

  /** `_wl_id`: the number of the benchmark, appended with "_" after the
      first workload. */
  function NextId(st: SimState, bName: string): string
  {
    var prefix := Split(bName, '.')[0];
    if |st.workloads| == 0 then prefix else st.wlId + "_" + prefix
  }

  /** `_wl_ss`: the subset names joined by "_". */
  function NextSs(st: SimState, sub: Subset): string
  {
    if |st.workloads| == 0 then sub.name else st.wlSs + "_" + sub.name
  }

  /** `_base_sf`: the architecture joined with the benchmark name for one
      workload and with the workload id for several. */
  function NextBaseSf(st: SimState, args: Args, bName: string): string
  {
    PathJoin(args.arch, if |st.workloads| == 0 then bName else NextId(st, bName))
  }

  /** The data path of the prerequisite step, when there is one. */
  function DataPathFor(st: SimState, args: Args, baseSf: string, wlSs: string): string
  {
    if st.prereqDir != "" then JoinAll([args.dataDir, baseSf, st.prereqDir, wlSs]) else st.dataPath
  }

  /** The workload id, subsets and base folder after one more workload. */
  function WithNames(st: SimState, args: Args, bName: string, sub: Subset): SimState
  {
    st.(wlId := NextId(st, bName), wlSs := NextSs(st, sub), baseSf := NextBaseSf(st, args, bName))
  }

  /** The output and data paths derived from the names. */
  function WithPaths(st: SimState, args: Args): SimState
    requires st.detailed ==> st.detConf.Some?
  {
    st.(outPath := OutPathFor(st, args, st.baseSf, st.wlSs), dataPath := DataPathFor(st, args, st.baseSf, st.wlSs))
  }

  /** The outcome of `_setOutputParam`. */
  function OutputSet(st: SimState): Outcome
  {
    if |st.workloads| == 0 then (st, Some(NoWorkload))
    else match Abbreviation(st.workloads[0].bName)
      case None => (st, Some(NoDotInName))
      case Some(abbr) => (st.(params := st.params["output" := S(OutputValue(st.outPath, abbr, st.workloads))]), None)
  }

  /** The outcome of `addWorkload` (with the one-workload guard of
      `BBVGeneration`, `SPGeneration` and `CptGeneration`, and the stripped
      copy in `TraceReplay`): the guards in order, the parameters, the
      names, the paths, the new workload, the output files. */
  function Added(st: SimState, args: Args, bName: string, bp: BenchParams, sub: Subset): Outcome
  {
    if SingleWorkload(st.kind) && |st.workloads| > 0 then (st, Some(MultipleWorkloads))
    else if st.kind == TraceReplay then ReplayAdded(st, args, bName, bp, sub)
    else if st.targetDir == "" then (st, Some(NoTargetDir))
    else if st.detailed && st.detConf.None? then (st, Some(NoDetailedConf))
    else if st.envPrep then (st, Some(AlreadyPrepared))
    else if |st.workloads| > 0 && "cmd" !in st.params then (st, Some(KeyMissing))
    else if |st.workloads| > 0 && !HasCpuCount(st.params) then
      (st.(params := ExtendedText(st.params, bp, sub)), Some(KeyMissing))
    else
      var p := if |st.workloads| == 0 then FirstParams(st.params, bp, sub) else LaterParams(st.params, bp, sub);
      var named := WithNames(st.(params := p), args, bName, sub);
      OutputSet(WithPaths(named, args).(workloads := st.workloads + [Workload(bName, bp, sub.name)]))
  }

  /** The data path of one replayed workload: its trace folder for the
      model. */
  function ReplayData(st: SimState, args: Args, bName: string, sub: Subset, conf: DetConf): string
  {
    JoinAll([args.dataDir, args.arch, bName, st.prereqDir, sub.name, conf.model.name])
  }

  /** The output path of a replay: always with the model, technology, case
      and trailing directory. */
  function ReplayOutPath(st: SimState, args: Args, conf: DetConf): string
  {
    PathJoin(DetailedPath(JoinAll([args.outDir, st.baseSf, st.targetDir, st.wlSs]), conf), st.trailingDir)
  }

  /** `TraceReplay.addWorkload`: no target-directory check, no command,
      options, input or output; the data paths of all workloads are joined
      by ";". */
  function ReplayAdded(st: SimState, args: Args, bName: string, bp: BenchParams, sub: Subset): Outcome
  {
    if st.detConf.None? then (st, Some(NoDetailedConf))
    else if st.envPrep then (st, Some(AlreadyPrepared))
    else if |st.workloads| > 0 && !HasCpuCount(st.params) then (st, Some(KeyMissing))
    else
      var conf := st.detConf.value;
      var data := ReplayData(st, args, bName, sub, conf);
      var counted := if |st.workloads| == 0
        then st.(params := st.params["mem-size" := S(bp.memSize)]["num-cpus" := N(1)], dataPath := data)
        else st.(params := st.params["num-cpus" := N(st.params["num-cpus"].n + 1)], dataPath := st.dataPath + ";" + data);
      var named := WithNames(counted, args, bName, sub);
      (named.(outPath := ReplayOutPath(named, args, conf), workloads := st.workloads + [Workload(bName, bp, sub.name)]), None)
  }

  /** One `addWorkload` call. */
  datatype Request = Request(bName: string, bp: BenchParams, sub: Subset)

  /** A sequence of `addWorkload` calls; the first exception ends it. */
  function AddAll(st: SimState, args: Args, reqs: seq<Request>): Outcome
    decreases |reqs|
  {
    if |reqs| == 0 then (st, None)
    else
      var before := AddAll(st, args, reqs[..|reqs| - 1]);
      if before.1.Some? then before
      else
        var r := reqs[|reqs| - 1];
        Added(before.0, args, r.bName, r.bp, r.sub)
  }

  function CmdOf(r: Request): string { "./" + r.bp.exe }
  function PrefixOf(r: Request): string { Split(r.bName, '.')[0] }
  function SubsetOf(r: Request): string { r.sub.name }
  function OptionsOf(r: Request): string { r.sub.options }
  function InputOf(r: Request): string { r.sub.input }

  /** One column of a sequence of calls. */
  function Column(reqs: seq<Request>, f: Request -> string): (r: seq<string>)
    ensures |r| == |reqs|
    ensures forall i :: 0 <= i < |reqs| ==> r[i] == f(reqs[i])
  {
    seq(|reqs|, i requires 0 <= i < |reqs| => f(reqs[i]))
  }

  /** A state that accepts workloads: a non-replay object with its target
      directory, its detailed configuration when detailed, not prepared, and
      no workload yet. */
  predicate Fresh(st: SimState)
  {
    st.kind != TraceReplay && st.targetDir != "" && (st.detailed ==> st.detConf.Some?) &&
    !st.envPrep && st.workloads == [] && NoWorkloadKeys(st.params)
  }

  /** The guards a non-replay object passes. */
  predicate Accepting(s: SimState)
  {
    s.kind != TraceReplay && s.targetDir != "" && (s.detailed ==> s.detConf.Some?) && !s.envPrep
  }

  /** An object that takes one more workload: accepting, and with a command
      and a CPU count once it holds a workload named with a dot. */
  predicate Ready(s: SimState, r: Request)
  {
    Accepting(s) &&
    (if |s.workloads| == 0 then '.' in r.bName
     else !SingleWorkload(s.kind) && '.' in s.workloads[0].bName && "cmd" in s.params && HasCpuCount(s.params))
  }

  /** The parameters of a successful call: those of the first or of a later
      workload, then the output files. */
  lemma ParamsStep(s: SimState, args: Args, r: Request)
    requires Ready(s, r)
    ensures var t := Added(s, args, r.bName, r.bp, r.sub);
      && t.1.None? && "output" in t.0.params
      && t.0.params == (if |s.workloads| == 0 then FirstParams(s.params, r.bp, r.sub)
                        else LaterParams(s.params, r.bp, r.sub))["output" := t.0.params["output"]]
  {
  }

  /** The names and paths of a successful call. */
  lemma NamesStep(s: SimState, args: Args, r: Request)
    requires Ready(s, r)
    ensures var u := Added(s, args, r.bName, r.bp, r.sub).0;
      && u.wlId == NextId(s, r.bName) && u.wlSs == NextSs(s, r.sub) && u.baseSf == NextBaseSf(s, args, r.bName)
      && u.outPath == OutPathFor(s, args, u.baseSf, u.wlSs)
      && u.dataPath == DataPathFor(s, args, u.baseSf, u.wlSs)
  {
  }

  /** The workloads and output files of a successful call; nothing but the
      workload attributes changes. */
  lemma ShapeStep(s: SimState, args: Args, r: Request)
    requires Ready(s, r)
    ensures var u := Added(s, args, r.bName, r.bp, r.sub).0;
      && u.workloads == s.workloads + [Workload(r.bName, r.bp, r.sub.name)]
      && '.' in u.workloads[0].bName
      && "output" in u.params
      && u.params["output"] == S(OutputValue(u.outPath, Abbreviation(u.workloads[0].bName).value, u.workloads))
      && u == s.(workloads := u.workloads, params := u.params, wlId := u.wlId, wlSs := u.wlSs,
                 baseSf := u.baseSf, outPath := u.outPath, dataPath := u.dataPath)
  {
  }

  /** The parameters after k successful calls. */
  predicate ParamsAfter(p: map<string, Value>, reqs: seq<Request>)
    requires |reqs| >= 1
  {
    CountsAfter(p, reqs) && JoinedAfter(p, reqs, "cmd", CmdOf) &&
    TextAfter(p, reqs, "options", OptionsOf) && TextAfter(p, reqs, "input", InputOf)
  }

  /** The CPU count is the number of calls; the memory size is the first
      call's. */
  predicate CountsAfter(p: map<string, Value>, reqs: seq<Request>)
    requires |reqs| >= 1
  {
    "num-cpus" in p && p["num-cpus"] == N(|reqs|) && "mem-size" in p && p["mem-size"] == S(reqs[0].bp.memSize)
  }

  /** A parameter holding the ";"-joined column of the calls. */
  predicate JoinedAfter(p: map<string, Value>, reqs: seq<Request>, key: string, f: Request -> string)
  {
    key in p && p[key] == S(Join(Column(reqs, f), ';'))
  }

  /** The options or the input: set by the first call only when non-empty,
      the ";"-joined column once there are two calls. */
  predicate TextAfter(p: map<string, Value>, reqs: seq<Request>, key: string, f: Request -> string)
    requires |reqs| >= 1
  {
    (key in p <==> f(reqs[0]) != "" || |reqs| > 1) &&
    (|reqs| == 1 && key in p ==> p[key] == S(f(reqs[0]))) &&
    (|reqs| > 1 ==> JoinedAfter(p, reqs, key, f))
  }

  /** The names and paths after k successful calls. */
  predicate NamesAfter(st: SimState, args: Args, s: SimState, reqs: seq<Request>)
    requires |reqs| >= 1 && (st.detailed ==> st.detConf.Some?)
  {
    && s.wlId == Join(Column(reqs, PrefixOf), '_')
    && s.wlSs == Join(Column(reqs, SubsetOf), '_')
    && s.baseSf == PathJoin(args.arch, if |reqs| == 1 then reqs[0].bName else s.wlId)
    && s.outPath == OutPathFor(st, args, s.baseSf, s.wlSs)
    && s.dataPath == DataPathFor(st, args, s.baseSf, s.wlSs)
  }

  /** The workloads after k successful calls, with nothing but the
      workload attributes changed. */
  predicate ShapeAfter(st: SimState, s: SimState, reqs: seq<Request>)
  {
    && |s.workloads| == |reqs|
    && (forall i :: 0 <= i < |reqs| ==> s.workloads[i] == Workload(reqs[i].bName, reqs[i].bp, reqs[i].sub.name))
    && s == st.(workloads := s.workloads, params := s.params, wlId := s.wlId, wlSs := s.wlSs,
                baseSf := s.baseSf, outPath := s.outPath, dataPath := s.dataPath)
  }

  /** The output files after k successful calls. */
  predicate OutputAfter(s: SimState, reqs: seq<Request>)
    requires |reqs| >= 1 && '.' in reqs[0].bName
  {
    "output" in s.params && s.params["output"] == S(OutputValue(s.outPath, Abbreviation(reqs[0].bName).value, s.workloads))
  }

  /** Everything a run of k successful calls leaves. */
  predicate Accumulated(st: SimState, args: Args, reqs: seq<Request>, res: Outcome)
    requires |reqs| >= 1 && '.' in reqs[0].bName && (st.detailed ==> st.detConf.Some?)
  {
    res.1.None? && ShapeAfter(st, res.0, reqs) && ParamsAfter(res.0.params, reqs) &&
    NamesAfter(st, args, res.0, reqs) && OutputAfter(res.0, reqs)
  }

  /** The first call. */
  lemma AddOneParams(st: SimState, args: Args, r: Request)
    requires Fresh(st) && '.' in r.bName
    ensures ParamsAfter(Added(st, args, r.bName, r.bp, r.sub).0.params, [r])
  {
    ParamsStep(st, args, r);
    FirstParamsAfter(st.params, r, Added(st, args, r.bName, r.bp, r.sub).0.params["output"]);
  }

  lemma FirstParamsAfter(p: map<string, Value>, r: Request, out: Value)
    requires NoWorkloadKeys(p)
    ensures ParamsAfter(FirstParams(p, r.bp, r.sub)["output" := out], [r])
  {
    assert Column([r], CmdOf) == [CmdOf(r)];
    assert [r][0] == r;
  }

  lemma AddOneNames(st: SimState, args: Args, r: Request)
    requires Fresh(st) && '.' in r.bName
    ensures NamesAfter(st, args, Added(st, args, r.bName, r.bp, r.sub).0, [r])
  {
    NamesStep(st, args, r);
    assert Column([r], PrefixOf) == [PrefixOf(r)];
    assert Column([r], SubsetOf) == [SubsetOf(r)];
  }

  lemma AddOne(st: SimState, args: Args, r: Request)
    requires Fresh(st) && '.' in r.bName
    ensures Accumulated(st, args, [r], Added(st, args, r.bName, r.bp, r.sub))
  {
    ParamsStep(st, args, r);
    ShapeStep(st, args, r);
    AddOneParams(st, args, r);
    AddOneNames(st, args, r);
  }

  /** A later call extends the parameters. */
  lemma AddMoreParams(reqs: seq<Request>, r: Request, p: map<string, Value>, out: Value)
    requires |reqs| >= 1 && ParamsAfter(p, reqs)
    ensures ParamsAfter(LaterParams(p, r.bp, r.sub)["output" := out], reqs + [r])
  {
    AddMoreCounts(reqs, r, p, out);
    AddMoreCommand(reqs, r, p, out);
    AddMoreOptions(reqs, r, p, out);
    AddMoreInput(reqs, r, p, out);
  }

  lemma AddMoreCounts(reqs: seq<Request>, r: Request, p: map<string, Value>, out: Value)
    requires |reqs| >= 1 && ParamsAfter(p, reqs)
    ensures CountsAfter(LaterParams(p, r.bp, r.sub)["output" := out], reqs + [r])
  {
    assert (reqs + [r])[0] == reqs[0];
  }

  lemma AddMoreCommand(reqs: seq<Request>, r: Request, p: map<string, Value>, out: Value)
    requires |reqs| >= 1 && ParamsAfter(p, reqs)
    ensures JoinedAfter(LaterParams(p, r.bp, r.sub)["output" := out], reqs + [r], "cmd", CmdOf)
  {
    var q := LaterParams(p, r.bp, r.sub)["output" := out];
    var all := reqs + [r];
    assert all[..|all| - 1] == reqs;
    assert q["cmd"] == S(Text(p["cmd"]) + ";" + CmdOf(r));
    ColumnPush(all, CmdOf);
  }

  lemma AddMoreOptions(reqs: seq<Request>, r: Request, p: map<string, Value>, out: Value)
    requires |reqs| >= 1 && ParamsAfter(p, reqs)
    ensures TextAfter(LaterParams(p, r.bp, r.sub)["output" := out], reqs + [r], "options", OptionsOf)
  {
    var q := LaterParams(p, r.bp, r.sub)["output" := out];
    assert q["options"] == S((if "options" in p then Text(p["options"]) else "") + ";" + OptionsOf(r));
    TextPush(reqs, r, p, "options", OptionsOf);
  }

  lemma AddMoreInput(reqs: seq<Request>, r: Request, p: map<string, Value>, out: Value)
    requires |reqs| >= 1 && ParamsAfter(p, reqs)
    ensures TextAfter(LaterParams(p, r.bp, r.sub)["output" := out], reqs + [r], "input", InputOf)
  {
    var q := LaterParams(p, r.bp, r.sub)["output" := out];
    assert q["input"] == S((if "input" in p then Text(p["input"]) else "") + ";" + InputOf(r));
    TextPush(reqs, r, p, "input", InputOf);
  }

  /** An extended options or input text is the joined column of one more
      call. */
  lemma TextPush(reqs: seq<Request>, r: Request, p: map<string, Value>, key: string, f: Request -> string)
    requires |reqs| >= 1 && TextAfter(p, reqs, key, f)
    ensures Join(Column(reqs + [r], f), ';') == (if key in p then Text(p[key]) else "") + ";" + f(r)
  {
    var all := reqs + [r];
    assert all[..|all| - 1] == reqs;
    ColumnPush(all, f);
    if |reqs| == 1 {
      assert Column(reqs, f) == [f(reqs[0])];
    }
  }

  /** A later call extends the names and paths. */
  lemma AddMoreNames(st: SimState, args: Args, reqs: seq<Request>, r: Request, s: SimState)
    requires |reqs| >= 1 && (st.detailed ==> st.detConf.Some?) && NamesAfter(st, args, s, reqs)
    requires Ready(s, r) && |s.workloads| > 0
    requires s.targetDir == st.targetDir && s.trailingDir == st.trailingDir && s.prereqDir == st.prereqDir
    requires s.detailed == st.detailed && s.detConf == st.detConf
    ensures NamesAfter(st, args, Added(s, args, r.bName, r.bp, r.sub).0, reqs + [r])
  {
    NamesStep(s, args, r);
    var all := reqs + [r];
    assert all[..|all| - 1] == reqs;
    ColumnPush(all, PrefixOf);
    ColumnPush(all, SubsetOf);
  }

  /** A later call keeps the shape and renames the output files. */
  lemma AddMoreShape(st: SimState, args: Args, reqs: seq<Request>, r: Request, s: SimState)
    requires |reqs| >= 1 && '.' in reqs[0].bName && ShapeAfter(st, s, reqs) && Ready(s, r)
    ensures ShapeAfter(st, Added(s, args, r.bName, r.bp, r.sub).0, reqs + [r])
    ensures OutputAfter(Added(s, args, r.bName, r.bp, r.sub).0, reqs + [r])
  {
    ShapeStep(s, args, r);
  }

  /** After k successful `addWorkload` calls there are k workloads and k
      CPUs; the command is the ";"-joined list of "./exe" entries, the
      memory size is the first call's, options and input are ";"-joined
      once there are two workloads; the workload id and the subsets are
      "_"-joined; the output path and the output files follow the combined
      names, every output file named after the first benchmark; nothing
      else changes. */
  lemma {:induction false} AddAllAccumulates(st: SimState, args: Args, reqs: seq<Request>)
    requires Fresh(st) && |reqs| >= 1 && '.' in reqs[0].bName
    requires SingleWorkload(st.kind) ==> |reqs| == 1
    ensures Accumulated(st, args, reqs, AddAll(st, args, reqs))
    decreases |reqs|
  {
    var n := |reqs|;
    var init := reqs[..n - 1];
    var r := reqs[n - 1];
    if n == 1 {
      assert init == [] && reqs == [r];
      AddOne(st, args, r);
    } else {
      assert init[0] == reqs[0];
      AddAllAccumulates(st, args, init);
      var before := AddAll(st, args, init);
      assert before.1.None? && before == (before.0, None);
      AddAllLast(st, args, reqs);
      AddOneMore(st, args, reqs, before.0);
    }
  }

  /** Once the earlier calls succeeded, the run is the last call applied to
      their state. */
  lemma AddAllLast(st: SimState, args: Args, reqs: seq<Request>)
    requires |reqs| >= 1 && AddAll(st, args, reqs[..|reqs| - 1]).1.None?
    ensures var r := reqs[|reqs| - 1];
      AddAll(st, args, reqs) == Added(AddAll(st, args, reqs[..|reqs| - 1]).0, args, r.bName, r.bp, r.sub)
  {
  }

  /** One more successful call after k. */
  lemma AddOneMore(st: SimState, args: Args, reqs: seq<Request>, s: SimState)
    requires Fresh(st) && |reqs| >= 2 && '.' in reqs[0].bName && !SingleWorkload(st.kind)
    requires Accumulated(st, args, reqs[..|reqs| - 1], (s, None))
    ensures var r := reqs[|reqs| - 1]; Accumulated(st, args, reqs, Added(s, args, r.bName, r.bp, r.sub))
  {
    var init, r := reqs[..|reqs| - 1], reqs[|reqs| - 1];
    assert init[0] == reqs[0] && init + [r] == reqs;
    assert Ready(s, r);
    ParamsStep(s, args, r);
    var t := Added(s, args, r.bName, r.bp, r.sub).0;
    AddMoreParams(init, r, s.params, t.params["output"]);
    AddMoreNames(st, args, init, r, s);
    AddMoreShape(st, args, init, r, s);
  }

  /** A column of one more call is the old column and one more entry. */
  lemma ColumnPush(reqs: seq<Request>, f: Request -> string)
    requires |reqs| >= 2
    ensures Join(Column(reqs, f), ';') == Join(Column(reqs[..|reqs| - 1], f), ';') + ";" + f(reqs[|reqs| - 1])
    ensures Join(Column(reqs, f), '_') == Join(Column(reqs[..|reqs| - 1], f), '_') + "_" + f(reqs[|reqs| - 1])
  {
    assert Column(reqs, f)[..|reqs| - 1] == Column(reqs[..|reqs| - 1], f);
  }

  // ---------------------------------------------------------------------
  // setDetailedParams

  /** An entry of `simparams.hwp_config`: type, degree, latency, queue size. */
  datatype Prefetcher = Prefetcher(hwpType: string, degree: int, latency: int, queueSize: int)

  /** One cache level of `simparams.mem_configs`: read, write, tag and
      response latencies, size and associativity. */
  datatype CacheLevel = CacheLevel(dataLat: int, writeLat: int, tagLat: int, respLat: int, size: string, assoc: int)

  /** The tables of simparams.py that `setDetailedParams` reads. */
  datatype SimTables = SimTables(
    memTechnologies: map<string, map<string, seq<string>>>,
    memConfigs: map<string, map<string, map<string, seq<CacheLevel>>>>,
    hwpConfig: map<string, Prefetcher>)

  /** The positions, in a hierarchy and in a row of `mem_configs`, that feed
      the first-level data cache and the first-level instruction cache. */
  datatype L1Rows = L1Rows(data: nat, inst: nat)

  /** The positions `setDetailedParams` reads: 0 for the data cache. The
      model of the method uses these. */
  const AsWrittenRows := L1Rows(0, 1)

  /** The positions the tables document, "(L1I, L1D, L2, L3)": 1 for the
      data cache. */
  const DocumentedRows := L1Rows(1, 0)

  /** `hwp_config.get(args.x_hwp, "")`: absent options and unknown names give
      no prefetcher. */
  function PrefetcherOf(tables: SimTables, name: Option<string>): (r: Option<Prefetcher>)
    ensures r.Some? <==> name.Some? && name.value in tables.hwpConfig
    ensures r.Some? ==> r.value == tables.hwpConfig[name.value]
  {
    match name
    case None => None
    case Some(n) => Get(tables.hwpConfig, n)
  }

  /** `add_if_valid(params, key, value)`. */
  function IfValid(p: map<string, Value>, key: string, v: Value): (r: map<string, Value>)
    ensures Truthy(v) ==> r == p[key := v]
    ensures !Truthy(v) ==> r == p
  {
    if Truthy(v) then p[key := v] else p
  }

  /** String `x` begins with `pre`. */
  predicate Begins(pre: string, x: string)
  {
    |pre| <= |x| && x[..|pre|] == pre
  }

  /** The key `prefix + suffix`; it begins with the prefix and determines the
      suffix. */
  function Key(prefix: string, suffix: string): (k: string)
    ensures Begins(prefix, k) && k[|prefix|..] == suffix
  {
    assert (prefix + suffix)[..|prefix|] == prefix;
    prefix + suffix
  }

  /** Two prefixes no key begins with both of. */
  predicate Apart(a: string, b: string)
  {
    if |a| <= |b| then b[..|a|] != a else a[..|b|] != b
  }

  /** A key that begins with one of two apart prefixes does not begin with
      the other. */
  lemma ApartKeys(a: string, b: string, k: string)
    requires Apart(a, b) && Begins(a, k)
    ensures !Begins(b, k)
  {
  }

  /** Prefixes that differ at a position both have are apart. */
  lemma ApartAt(a: string, b: string, i: nat)
    requires i < |a| && i < |b| && a[i] != b[i]
    ensures Apart(a, b)
  {
    if |a| <= |b| {
      assert b[..|a|][i] == b[i];
    } else {
      assert a[..|b|][i] == a[i];
    }
  }

  /** A key that differs from a prefix at a position both have does not
      begin with it. */
  lemma NotBeginsAt(a: string, k: string, i: nat)
    requires i < |a| && i < |k| && a[i] != k[i]
    ensures !Begins(a, k)
  {
    if |a| <= |k| {
      assert k[..|a|][i] == k[i];
    }
  }

  /** One of the four prefetcher parameters of a cache. */
  predicate HwpKey(prefix: string, k: string)
  {
    Begins(prefix, k) && k[|prefix|..] in {"-hwp-type", "-hwp-deg", "-hwp-lat", "-hwp-qs"}
  }

  /** One of the six parameters of a cache level. */
  predicate CacheKey(prefix: string, k: string)
  {
    Begins(prefix, k) && k[|prefix|..] in {"-data-lat", "-write-lat", "-tag-lat", "-resp-lat", "_size", "_assoc"}
  }

  /** `k` has the same presence and value in both maps. */
  predicate Same(p: map<string, Value>, r: map<string, Value>, k: string)
  {
    (k in r <==> k in p) && (k in p ==> r[k] == p[k])
  }

  /** No key beginning with `prefix` differs between the two maps. */
  ghost predicate Untouched(p: map<string, Value>, r: map<string, Value>, prefix: string)
  {
    forall k :: Begins(prefix, k) ==> Same(p, r, k)
  }

  /** The four prefetcher parameters of one cache, each only when truthy:
      nothing changes without a prefetcher, and only those four keys with
      one. */
  function HwpParams(p: map<string, Value>, prefix: string, hwp: Option<Prefetcher>): (r: map<string, Value>)
    ensures hwp.None? ==> r == p
  {
    match hwp
    case None => p
    case Some(h) =>
      var p1 := IfValid(p, Key(prefix, "-hwp-type"), S(h.hwpType));
      var p2 := IfValid(p1, Key(prefix, "-hwp-deg"), N(h.degree));
      var p3 := IfValid(p2, Key(prefix, "-hwp-lat"), N(h.latency));
      IfValid(p3, Key(prefix, "-hwp-qs"), N(h.queueSize))
  }

  /** Only the four prefetcher keys of the cache change. */
  lemma HwpFrame(p: map<string, Value>, prefix: string, hwp: Option<Prefetcher>, k: string)
    requires !HwpKey(prefix, k)
    ensures Same(p, HwpParams(p, prefix, hwp), k)
  {
  }

  /** With a prefetcher, each of its four parameters is set exactly when its
      value is truthy, and then to that value. */
  lemma HwpParamsSet(p: map<string, Value>, prefix: string, h: Prefetcher)
    ensures var r := HwpParams(p, prefix, Some(h));
      (Key(prefix, "-hwp-type") in r <==> Key(prefix, "-hwp-type") in p || h.hwpType != "") &&
      (h.hwpType != "" ==> r[Key(prefix, "-hwp-type")] == S(h.hwpType))
    ensures var r := HwpParams(p, prefix, Some(h));
      (Key(prefix, "-hwp-deg") in r <==> Key(prefix, "-hwp-deg") in p || h.degree != 0) &&
      (h.degree != 0 ==> r[Key(prefix, "-hwp-deg")] == N(h.degree))
    ensures var r := HwpParams(p, prefix, Some(h));
      (Key(prefix, "-hwp-lat") in r <==> Key(prefix, "-hwp-lat") in p || h.latency != 0) &&
      (h.latency != 0 ==> r[Key(prefix, "-hwp-lat")] == N(h.latency))
    ensures var r := HwpParams(p, prefix, Some(h));
      (Key(prefix, "-hwp-qs") in r <==> Key(prefix, "-hwp-qs") in p || h.queueSize != 0) &&
      (h.queueSize != 0 ==> r[Key(prefix, "-hwp-qs")] == N(h.queueSize))
  {
    var t, d, l, q := Key(prefix, "-hwp-type"), Key(prefix, "-hwp-deg"), Key(prefix, "-hwp-lat"), Key(prefix, "-hwp-qs");
    assert t[|prefix|..] == "-hwp-type" && d[|prefix|..] == "-hwp-deg";
    assert l[|prefix|..] == "-hwp-lat" && q[|prefix|..] == "-hwp-qs";
    assert t != d && t != l && t != q && d != l && d != q && l != q;
  }

  /** The six parameters of one cache level; no other key changes. */
  function CacheParams(p: map<string, Value>, prefix: string, c: CacheLevel): map<string, Value>
  {
    p[Key(prefix, "-data-lat") := N(c.dataLat)][Key(prefix, "-write-lat") := N(c.writeLat)]
     [Key(prefix, "-tag-lat") := N(c.tagLat)][Key(prefix, "-resp-lat") := N(c.respLat)]
     [Key(prefix, "_size") := S(c.size)][Key(prefix, "_assoc") := N(c.assoc)]
  }

  /** Only the six keys of the level change. */
  lemma CacheFrame(p: map<string, Value>, prefix: string, c: CacheLevel, k: string)
    requires !CacheKey(prefix, k)
    ensures Same(p, CacheParams(p, prefix, c), k)
  {
  }

  /** The six parameters of a cache hold the fields of the level. */
  predicate LevelParams(r: map<string, Value>, prefix: string, c: CacheLevel)
  {
    Key(prefix, "-data-lat") in r && r[Key(prefix, "-data-lat")] == N(c.dataLat) &&
    Key(prefix, "-write-lat") in r && r[Key(prefix, "-write-lat")] == N(c.writeLat) &&
    Key(prefix, "-tag-lat") in r && r[Key(prefix, "-tag-lat")] == N(c.tagLat) &&
    Key(prefix, "-resp-lat") in r && r[Key(prefix, "-resp-lat")] == N(c.respLat) &&
    Key(prefix, "_size") in r && r[Key(prefix, "_size")] == S(c.size) &&
    Key(prefix, "_assoc") in r && r[Key(prefix, "_assoc")] == N(c.assoc)
  }

  /** Each of the six parameters holds its field of the level. */
  lemma CacheParamsSet(p: map<string, Value>, prefix: string, c: CacheLevel)
    ensures LevelParams(CacheParams(p, prefix, c), prefix, c)
  {
    var keys := [Key(prefix, "-data-lat"), Key(prefix, "-write-lat"), Key(prefix, "-tag-lat"),
                 Key(prefix, "-resp-lat"), Key(prefix, "_size"), Key(prefix, "_assoc")];
    assert keys[0][|prefix|..] == "-data-lat" && keys[1][|prefix|..] == "-write-lat";
    assert keys[2][|prefix|..] == "-tag-lat" && keys[3][|prefix|..] == "-resp-lat";
    assert keys[4][|prefix|..] == "_size" && keys[5][|prefix|..] == "_assoc";
    assert forall i, j :: 0 <= i < j < 6 ==> keys[i] != keys[j];
  }

  /** The parameters of a level survive a change that leaves their prefix
      untouched. */
  lemma LevelParamsKept(p: map<string, Value>, r: map<string, Value>, prefix: string, c: CacheLevel)
    requires LevelParams(p, prefix, c) && Untouched(p, r, prefix)
    ensures LevelParams(r, prefix, c)
  {
    assert Same(p, r, Key(prefix, "-data-lat")) && Same(p, r, Key(prefix, "-write-lat"));
    assert Same(p, r, Key(prefix, "-tag-lat")) && Same(p, r, Key(prefix, "-resp-lat"));
    assert Same(p, r, Key(prefix, "_size")) && Same(p, r, Key(prefix, "_assoc"));
  }

  /** The prefetcher of one cache leaves the keys of an apart prefix alone. */
  lemma HwpUntouched(p: map<string, Value>, a: string, b: string, hwp: Option<Prefetcher>)
    requires Apart(a, b)
    ensures Untouched(p, HwpParams(p, b, hwp), a)
  {
    forall k | Begins(a, k) ensures Same(p, HwpParams(p, b, hwp), k) {
      ApartKeys(a, b, k);
      HwpFrame(p, b, hwp, k);
    }
  }

  /** The level of one cache leaves the keys of an apart prefix alone. */
  lemma CacheUntouched(p: map<string, Value>, a: string, b: string, c: CacheLevel)
    requires Apart(a, b)
    ensures Untouched(p, CacheParams(p, b, c), a)
  {
    forall k | Begins(a, k) ensures Same(p, CacheParams(p, b, c), k) {
      ApartKeys(a, b, k);
      CacheFrame(p, b, c, k);
    }
  }

  /** Leaving a prefix untouched composes. */
  lemma UntouchedTrans(p: map<string, Value>, q: map<string, Value>, r: map<string, Value>, a: string)
    requires Untouched(p, q, a) && Untouched(q, r, a)
    ensures Untouched(p, r, a)
  {
    forall k | Begins(a, k) ensures Same(p, r, k) {
      assert Same(p, q, k) && Same(q, r, k);
    }
  }

  /** `_setCpuSysParams`: CPU type, clock and voltage from the model, fixed
      system clock and voltage. */
  function CpuSysParams(p: map<string, Value>, model: CpuModel): (r: map<string, Value>)
    ensures r.Keys == p.Keys + {"cpu-type", "cpu-clock", "cpu-voltage", "sys-clock", "sys-voltage"}
    ensures r["cpu-type"] == S(model.core) && r["cpu-clock"] == S(model.freq) && r["cpu-voltage"] == S(model.voltage)
    ensures r["sys-clock"] == S("1.2GHz") && r["sys-voltage"] == S("1.2V")
  {
    p["cpu-type" := S(model.core)]["cpu-clock" := S(model.freq)]["cpu-voltage" := S(model.voltage)]
     ["sys-clock" := S("1.2GHz")]["sys-voltage" := S("1.2V")]
  }

  /** The gem5 configuration script of a model. */
  function ModelConfig(args: Args, model: CpuModel): string
  {
    JoinAll([args.gem5Dir, "configs", "example", model.config])
  }

  /** The state after `_setCpuSysParams`. */
  function CpuSys(st: SimState, args: Args, model: CpuModel): SimState
  {
    st.(params := CpuSysParams(st.params, model), cfgPath := ModelConfig(args, model))
  }

  /** `cache[hier[i]][case][i]`; None is a `KeyError` or `IndexError`. */
  function Level(cache: map<string, map<string, seq<CacheLevel>>>, hier: seq<string>, memCase: string, i: nat): (r: Option<CacheLevel>)
    ensures r.Some? <==> i < |hier| && hier[i] in cache && memCase in cache[hier[i]] && i < |cache[hier[i]][memCase]|
  {
    if i < |hier| && hier[i] in cache && memCase in cache[hier[i]] && i < |cache[hier[i]][memCase]|
    then Some(cache[hier[i]][memCase][i]) else None
  }

  /** The memory hierarchy of a model and technology: the model's own row
      of `mem_technologies` or the default one. */
  function Hierarchy(tables: SimTables, model: CpuModel, tech: string): (r: Option<seq<string>>)
    ensures r.Some? ==> |r.value| >= 4
    ensures var mt := tables.memTechnologies;
      model.name in mt && tech in mt[model.name] && |mt[model.name][tech]| >= 4 ==> r == Some(mt[model.name][tech])
    ensures var mt := tables.memTechnologies;
      model.name in mt && tech !in mt[model.name] ==> r.None?
    ensures var mt := tables.memTechnologies;
      model.name !in mt && "default" in mt && tech in mt["default"] && |mt["default"][tech]| >= 4 ==> r == Some(mt["default"][tech])
  {
    var row := if model.name in tables.memTechnologies then model.name else "default";
    if row in tables.memTechnologies && tech in tables.memTechnologies[row]
       && |tables.memTechnologies[row][tech]| >= 4
    then Some(tables.memTechnologies[row][tech]) else None
  }

  /** Whether the hierarchy has a third-level cache. */
  predicate HasL3(hier: seq<string>)
    requires |hier| >= 4
  {
    hier[3] != "none"
  }

  /** The flags `setDetailedParams` appends, in order. */
  function DetailedFlags(args: Args, hier: seq<string>): (r: seq<string>)
    requires |hier| >= 4
    ensures |r| >= 3 && r[..3] == ["hwp-override", "caches", "l2cache"]
    ensures "l2-enable-banks" in r <==> args.l2Banks != 0
    ensures "l3cache" in r <==> HasL3(hier)
    ensures "l3-enable-banks" in r <==> HasL3(hier) && args.l3Banks != 0
  {
    ["hwp-override", "caches"] + L2Flags(args) + L3Flags(args, hier)
  }

  /** The flags of the second level. */
  function L2Flags(args: Args): seq<string>
  {
    ["l2cache"] + (if args.l2Banks != 0 then ["l2-enable-banks"] else [])
  }

  /** The flags of the third level. */
  function L3Flags(args: Args, hier: seq<string>): seq<string>
    requires |hier| >= 4
  {
    if HasL3(hier) then ["l3cache"] + (if args.l3Banks != 0 then ["l3-enable-banks"] else []) else []
  }

  /** The cache levels a configuration needs, all present. */
  predicate LevelsPresent(cache: map<string, map<string, seq<CacheLevel>>>, hier: seq<string>, memCase: string)
    requires |hier| >= 4
  {
    Level(cache, hier, memCase, 0).Some? && Level(cache, hier, memCase, 1).Some? &&
    Level(cache, hier, memCase, 2).Some? && (HasL3(hier) ==> Level(cache, hier, memCase, 3).Some?)
  }

  /** The parameters of the two first-level caches, data cache first. */
  function L1Params(p: map<string, Value>, args: Args, tables: SimTables, hier: seq<string>,
                    cache: map<string, map<string, seq<CacheLevel>>>, memCase: string, rows: L1Rows): map<string, Value>
    requires Level(cache, hier, memCase, rows.data).Some? && Level(cache, hier, memCase, rows.inst).Some?
  {
    var p1 := CacheParams(HwpParams(p, "l1d", PrefetcherOf(tables, args.l1dHwp)), "l1d", Level(cache, hier, memCase, rows.data).value);
    CacheParams(HwpParams(p1, "l1i", PrefetcherOf(tables, args.l1iHwp)), "l1i", Level(cache, hier, memCase, rows.inst).value)
  }

  /** `l2-num-banks` when the bank count is truthy. */
  function BankParam(p: map<string, Value>, key: string, banks: int): map<string, Value>
  {
    if banks != 0 then p[key := N(banks)] else p
  }

  /** The parameters of the second level. */
  function L2Params(p: map<string, Value>, args: Args, tables: SimTables, hier: seq<string>,
                    cache: map<string, map<string, seq<CacheLevel>>>, memCase: string): map<string, Value>
    requires Level(cache, hier, memCase, 2).Some?
  {
    CacheParams(HwpParams(BankParam(p, "l2-num-banks", args.l2Banks), "l2", PrefetcherOf(tables, args.l2Hwp)),
                "l2", Level(cache, hier, memCase, 2).value)
  }

  /** The parameters of the third level, when the hierarchy has one. */
  function L3Params(p: map<string, Value>, args: Args, tables: SimTables, hier: seq<string>,
                    cache: map<string, map<string, seq<CacheLevel>>>, memCase: string): map<string, Value>
    requires |hier| >= 4 && (HasL3(hier) ==> Level(cache, hier, memCase, 3).Some?)
  {
    if !HasL3(hier) then p
    else CacheParams(HwpParams(BankParam(p, "l3-num-banks", args.l3Banks), "l3", PrefetcherOf(tables, args.l3Hwp)),
                     "l3", Level(cache, hier, memCase, 3).value)
  }

  /** The cache parameters `setDetailedParams` sets, reading the
      first-level rows at `rows`. */
  function CachesParams(p: map<string, Value>, args: Args, tables: SimTables, hier: seq<string>,
                        cache: map<string, map<string, seq<CacheLevel>>>, memCase: string, rows: L1Rows): map<string, Value>
    requires |hier| >= 4 && LevelsPresent(cache, hier, memCase)
    requires Level(cache, hier, memCase, rows.data).Some? && Level(cache, hier, memCase, rows.inst).Some?
  {
    L3Params(L2Params(L1Params(p, args, tables, hier, cache, memCase, rows), args, tables, hier, cache, memCase),
             args, tables, hier, cache, memCase)
  }

  /** The state after `setDetailedParams(model, tech, case, args)`, with the
      overrides of the dummy classes, `TraceGeneration` and `TraceReplay`. */
  function DetailedSet(st: SimState, args: Args, tables: SimTables, model: CpuModel, tech: string, memCase: string): Outcome
  {
    if Dummy(st.kind) then (st, Some(NotSupported))
    else if st.kind == TraceGeneration then (CpuSys(st, args, model).(detConf := Some(DetConf(model, "", ""))), None)
    else if !st.detailed then (st, Some(NotDetailed))
    else TablesSet(CpuSys(st, args, model), args, tables, model, tech, memCase)
  }

  /** The part of `setDetailedParams` that reads the memory tables: a table
      without the model, technology or case raises after the CPU and system
      parameters are set. */
  function TablesSet(st: SimState, args: Args, tables: SimTables, model: CpuModel, tech: string, memCase: string): Outcome
  {
    match Hierarchy(tables, model, tech)
    case None => (st, Some(MissingTable))
    case Some(hier) =>
      if model.name !in tables.memConfigs || !LevelsPresent(tables.memConfigs[model.name], hier, memCase) then (st, Some(MissingTable))
      else (TablesDone(st, args, tables, model, tech, memCase, hier, tables.memConfigs[model.name]), None)
  }

  /** The state once the tables are all found: caches, the configuration,
      and the trace replay's CPU type and script. */
  function TablesDone(st: SimState, args: Args, tables: SimTables, model: CpuModel, tech: string, memCase: string,
                      hier: seq<string>, cache: map<string, map<string, seq<CacheLevel>>>): SimState
    requires |hier| >= 4 && LevelsPresent(cache, hier, memCase)
  {
    ReplayOverride(CachesSet(st, args, tables, hier, cache, memCase).(detConf := Some(DetConf(model, tech, memCase))), args)
  }

  /** `TraceReplay.setDetailedParams` after the base method: the trace CPU
      and the trace replay script. */
  function ReplayOverride(st: SimState, args: Args): (r: SimState)
    ensures st.kind != TraceReplay ==> r == st
  {
    if st.kind == TraceReplay then
      st.(params := st.params["cpu-type" := S("TraceCPU")],
          cfgPath := JoinAll([args.gem5Dir, "configs", "example", args.traceCfg]))
    else st
  }

  /** The flags and cache parameters, with the first-level rows the method
      reads. */
  function CachesSet(st: SimState, args: Args, tables: SimTables, hier: seq<string>,
                     cache: map<string, map<string, seq<CacheLevel>>>, memCase: string): SimState
    requires |hier| >= 4 && LevelsPresent(cache, hier, memCase)
  {
    st.(flags := st.flags + DetailedFlags(args, hier),
        params := CachesParams(st.params, args, tables, hier, cache, memCase, AsWrittenRows))
  }

  /** A bank count changes no key of a prefix the bank key lacks. */
  lemma BankUntouched(p: map<string, Value>, a: string, key: string, banks: int)
    requires !Begins(a, key)
    ensures Untouched(p, BankParam(p, key, banks), a)
  {
  }

  /** The first-level caches hold the levels at `rows`. */
  lemma L1Set(p: map<string, Value>, args: Args, tables: SimTables, hier: seq<string>,
              cache: map<string, map<string, seq<CacheLevel>>>, memCase: string, rows: L1Rows)
    requires Level(cache, hier, memCase, rows.data).Some? && Level(cache, hier, memCase, rows.inst).Some?
    ensures var r := L1Params(p, args, tables, hier, cache, memCase, rows);
      LevelParams(r, "l1d", Level(cache, hier, memCase, rows.data).value) &&
      LevelParams(r, "l1i", Level(cache, hier, memCase, rows.inst).value)
  {
    var d, i := Level(cache, hier, memCase, rows.data).value, Level(cache, hier, memCase, rows.inst).value;
    var q0 := HwpParams(p, "l1d", PrefetcherOf(tables, args.l1dHwp));
    var q1 := CacheParams(q0, "l1d", d);
    var q2 := HwpParams(q1, "l1i", PrefetcherOf(tables, args.l1iHwp));
    CacheParamsSet(q0, "l1d", d);
    ApartAt("l1d", "l1i", 2);
    HwpUntouched(q1, "l1d", "l1i", PrefetcherOf(tables, args.l1iHwp));
    CacheUntouched(q2, "l1d", "l1i", i);
    UntouchedTrans(q1, q2, CacheParams(q2, "l1i", i), "l1d");
    LevelParamsKept(q1, CacheParams(q2, "l1i", i), "l1d", d);
    CacheParamsSet(q2, "l1i", i);
  }

  /** The first-level caches leave the keys of an apart prefix alone. */
  lemma L1Untouched(p: map<string, Value>, args: Args, tables: SimTables, hier: seq<string>,
                    cache: map<string, map<string, seq<CacheLevel>>>, memCase: string, rows: L1Rows, a: string)
    requires Level(cache, hier, memCase, rows.data).Some? && Level(cache, hier, memCase, rows.inst).Some?
    requires Apart(a, "l1d") && Apart(a, "l1i")
    ensures Untouched(p, L1Params(p, args, tables, hier, cache, memCase, rows), a)
  {
    var q0 := HwpParams(p, "l1d", PrefetcherOf(tables, args.l1dHwp));
    var q1 := CacheParams(q0, "l1d", Level(cache, hier, memCase, rows.data).value);
    var q2 := HwpParams(q1, "l1i", PrefetcherOf(tables, args.l1iHwp));
    HwpUntouched(p, a, "l1d", PrefetcherOf(tables, args.l1dHwp));
    CacheUntouched(q0, a, "l1d", Level(cache, hier, memCase, rows.data).value);
    HwpUntouched(q1, a, "l1i", PrefetcherOf(tables, args.l1iHwp));
    CacheUntouched(q2, a, "l1i", Level(cache, hier, memCase, rows.inst).value);
    UntouchedTrans(p, q0, q1, a);
    UntouchedTrans(p, q1, q2, a);
    UntouchedTrans(p, q2, L1Params(p, args, tables, hier, cache, memCase, rows), a);
  }

  /** The second level holds its level and, with a truthy bank count, the
      bank count. */
  lemma L2Set(p: map<string, Value>, args: Args, tables: SimTables, hier: seq<string>,
              cache: map<string, map<string, seq<CacheLevel>>>, memCase: string)
    requires Level(cache, hier, memCase, 2).Some?
    ensures var r := L2Params(p, args, tables, hier, cache, memCase);
      LevelParams(r, "l2", Level(cache, hier, memCase, 2).value) && BankAfter(p, r, "l2-num-banks", args.l2Banks)
  {
    var q0 := BankParam(p, "l2-num-banks", args.l2Banks);
    var q1 := HwpParams(q0, "l2", PrefetcherOf(tables, args.l2Hwp));
    CacheParamsSet(q1, "l2", Level(cache, hier, memCase, 2).value);
    assert "l2-num-banks"[2..] == "-num-banks";
    assert !HwpKey("l2", "l2-num-banks") && !CacheKey("l2", "l2-num-banks");
  }

  /** The second level leaves the keys of an apart prefix alone. */
  lemma L2Untouched(p: map<string, Value>, args: Args, tables: SimTables, hier: seq<string>,
                    cache: map<string, map<string, seq<CacheLevel>>>, memCase: string, a: string)
    requires Level(cache, hier, memCase, 2).Some? && Apart(a, "l2") && !Begins(a, "l2-num-banks")
    ensures Untouched(p, L2Params(p, args, tables, hier, cache, memCase), a)
  {
    var q0 := BankParam(p, "l2-num-banks", args.l2Banks);
    var q1 := HwpParams(q0, "l2", PrefetcherOf(tables, args.l2Hwp));
    BankUntouched(p, a, "l2-num-banks", args.l2Banks);
    HwpUntouched(q0, a, "l2", PrefetcherOf(tables, args.l2Hwp));
    CacheUntouched(q1, a, "l2", Level(cache, hier, memCase, 2).value);
    UntouchedTrans(p, q0, q1, a);
    UntouchedTrans(p, q1, L2Params(p, args, tables, hier, cache, memCase), a);
  }

  /** The third level, when present, holds its level and, with a truthy
      bank count, the bank count. */
  lemma L3Set(p: map<string, Value>, args: Args, tables: SimTables, hier: seq<string>,
              cache: map<string, map<string, seq<CacheLevel>>>, memCase: string)
    requires |hier| >= 4 && HasL3(hier) && Level(cache, hier, memCase, 3).Some?
    ensures var r := L3Params(p, args, tables, hier, cache, memCase);
      LevelParams(r, "l3", Level(cache, hier, memCase, 3).value) && BankAfter(p, r, "l3-num-banks", args.l3Banks)
  {
    var q0 := BankParam(p, "l3-num-banks", args.l3Banks);
    var q1 := HwpParams(q0, "l3", PrefetcherOf(tables, args.l3Hwp));
    CacheParamsSet(q1, "l3", Level(cache, hier, memCase, 3).value);
    assert "l3-num-banks"[2..] == "-num-banks";
    assert !HwpKey("l3", "l3-num-banks") && !CacheKey("l3", "l3-num-banks");
  }

  /** The third level leaves the keys of an apart prefix alone. */
  lemma L3Untouched(p: map<string, Value>, args: Args, tables: SimTables, hier: seq<string>,
                    cache: map<string, map<string, seq<CacheLevel>>>, memCase: string, a: string)
    requires |hier| >= 4 && (HasL3(hier) ==> Level(cache, hier, memCase, 3).Some?)
    requires Apart(a, "l3") && !Begins(a, "l3-num-banks")
    ensures Untouched(p, L3Params(p, args, tables, hier, cache, memCase), a)
  {
    if HasL3(hier) {
      var q0 := BankParam(p, "l3-num-banks", args.l3Banks);
      var q1 := HwpParams(q0, "l3", PrefetcherOf(tables, args.l3Hwp));
      BankUntouched(p, a, "l3-num-banks", args.l3Banks);
      HwpUntouched(q0, a, "l3", PrefetcherOf(tables, args.l3Hwp));
      CacheUntouched(q1, a, "l3", Level(cache, hier, memCase, 3).value);
      UntouchedTrans(p, q0, q1, a);
      UntouchedTrans(p, q1, L3Params(p, args, tables, hier, cache, memCase), a);
    }
  }

  /** A bank count parameter after a level: present with the count exactly
      when the count is truthy, unchanged otherwise. */
  predicate BankAfter(p: map<string, Value>, r: map<string, Value>, key: string, banks: int)
  {
    (key in r <==> key in p || banks != 0) && (banks != 0 ==> r[key] == N(banks)) && (banks == 0 ==> Same(p, r, key))
  }

  /** The parameters of a level other than the second and third survive
      those two levels. */
  lemma KeptAfterL2L3(q: map<string, Value>, args: Args, tables: SimTables, hier: seq<string>,
                      cache: map<string, map<string, seq<CacheLevel>>>, memCase: string, a: string, c: CacheLevel)
    requires |hier| >= 4 && LevelsPresent(cache, hier, memCase) && LevelParams(q, a, c)
    requires Apart(a, "l2") && !Begins(a, "l2-num-banks") && Apart(a, "l3") && !Begins(a, "l3-num-banks")
    ensures LevelParams(L3Params(L2Params(q, args, tables, hier, cache, memCase), args, tables, hier, cache, memCase), a, c)
  {
    var q2 := L2Params(q, args, tables, hier, cache, memCase);
    L2Untouched(q, args, tables, hier, cache, memCase, a);
    LevelParamsKept(q, q2, a, c);
    L3Untouched(q2, args, tables, hier, cache, memCase, a);
    LevelParamsKept(q2, L3Params(q2, args, tables, hier, cache, memCase), a, c);
  }

  /** The cache parameters of `setDetailedParams`: each first-level cache
      holds the level at its position in `rows`, the second level its own,
      the third level its own when the hierarchy has a third level. */
  lemma CachesLevels(p: map<string, Value>, args: Args, tables: SimTables, hier: seq<string>,
                     cache: map<string, map<string, seq<CacheLevel>>>, memCase: string, rows: L1Rows)
    requires |hier| >= 4 && LevelsPresent(cache, hier, memCase)
    requires Level(cache, hier, memCase, rows.data).Some? && Level(cache, hier, memCase, rows.inst).Some?
    ensures var r := CachesParams(p, args, tables, hier, cache, memCase, rows);
      && LevelParams(r, "l1d", Level(cache, hier, memCase, rows.data).value)
      && LevelParams(r, "l1i", Level(cache, hier, memCase, rows.inst).value)
      && LevelParams(r, "l2", Level(cache, hier, memCase, 2).value)
      && (HasL3(hier) ==> LevelParams(r, "l3", Level(cache, hier, memCase, 3).value))
  {
    var r1 := L1Params(p, args, tables, hier, cache, memCase, rows);
    var r2 := L2Params(r1, args, tables, hier, cache, memCase);
    L1Set(p, args, tables, hier, cache, memCase, rows);
    ApartAt("l1d", "l2", 1); NotBeginsAt("l1d", "l2-num-banks", 1);
    ApartAt("l1d", "l3", 1); NotBeginsAt("l1d", "l3-num-banks", 1);
    KeptAfterL2L3(r1, args, tables, hier, cache, memCase, "l1d", Level(cache, hier, memCase, rows.data).value);
    ApartAt("l1i", "l2", 1); NotBeginsAt("l1i", "l2-num-banks", 1);
    ApartAt("l1i", "l3", 1); NotBeginsAt("l1i", "l3-num-banks", 1);
    KeptAfterL2L3(r1, args, tables, hier, cache, memCase, "l1i", Level(cache, hier, memCase, rows.inst).value);
    L2Set(r1, args, tables, hier, cache, memCase);
    ApartAt("l2", "l3", 1); NotBeginsAt("l2", "l3-num-banks", 1);
    L3Untouched(r2, args, tables, hier, cache, memCase, "l2");
    LevelParamsKept(r2, L3Params(r2, args, tables, hier, cache, memCase), "l2", Level(cache, hier, memCase, 2).value);
    if HasL3(hier) {
      L3Set(r2, args, tables, hier, cache, memCase);
    }
  }

  /** Without a third level no key beginning with "l3" changes. */
  lemma CachesNoL3(p: map<string, Value>, args: Args, tables: SimTables, hier: seq<string>,
                   cache: map<string, map<string, seq<CacheLevel>>>, memCase: string, rows: L1Rows)
    requires |hier| >= 4 && LevelsPresent(cache, hier, memCase) && !HasL3(hier)
    requires Level(cache, hier, memCase, rows.data).Some? && Level(cache, hier, memCase, rows.inst).Some?
    ensures Untouched(p, CachesParams(p, args, tables, hier, cache, memCase, rows), "l3")
  {
    var r1 := L1Params(p, args, tables, hier, cache, memCase, rows);
    ApartAt("l3", "l1d", 1); ApartAt("l3", "l1i", 1);
    L1Untouched(p, args, tables, hier, cache, memCase, rows, "l3");
    ApartAt("l3", "l2", 1); NotBeginsAt("l3", "l2-num-banks", 1);
    L2Untouched(r1, args, tables, hier, cache, memCase, "l3");
    UntouchedTrans(p, r1, L2Params(r1, args, tables, hier, cache, memCase), "l3");
  }

  /** The second level's bank count after `setDetailedParams`: present with
      the count exactly when the count is truthy. */
  lemma CachesL2Banks(p: map<string, Value>, args: Args, tables: SimTables, hier: seq<string>,
                      cache: map<string, map<string, seq<CacheLevel>>>, memCase: string, rows: L1Rows)
    requires |hier| >= 4 && LevelsPresent(cache, hier, memCase)
    requires Level(cache, hier, memCase, rows.data).Some? && Level(cache, hier, memCase, rows.inst).Some?
    ensures BankAfter(p, CachesParams(p, args, tables, hier, cache, memCase, rows), "l2-num-banks", args.l2Banks)
  {
    var key := "l2-num-banks";
    var r1 := L1Params(p, args, tables, hier, cache, memCase, rows);
    var r2 := L2Params(r1, args, tables, hier, cache, memCase);
    ApartAt(key, "l1d", 1); ApartAt(key, "l1i", 1);
    L1Untouched(p, args, tables, hier, cache, memCase, rows, key);
    assert Begins(key, key) && Same(p, r1, key);
    L2Set(r1, args, tables, hier, cache, memCase);
    ApartAt(key, "l3", 1); NotBeginsAt(key, "l3-num-banks", 1);
    L3Untouched(r2, args, tables, hier, cache, memCase, key);
    assert Same(r2, L3Params(r2, args, tables, hier, cache, memCase), key);
  }

  /** The third level's bank count after `setDetailedParams`: with a third
      level, present with the count exactly when the count is truthy. */
  lemma CachesL3Banks(p: map<string, Value>, args: Args, tables: SimTables, hier: seq<string>,
                      cache: map<string, map<string, seq<CacheLevel>>>, memCase: string, rows: L1Rows)
    requires |hier| >= 4 && LevelsPresent(cache, hier, memCase) && HasL3(hier)
    requires Level(cache, hier, memCase, rows.data).Some? && Level(cache, hier, memCase, rows.inst).Some?
    ensures BankAfter(p, CachesParams(p, args, tables, hier, cache, memCase, rows), "l3-num-banks", args.l3Banks)
  {
    var key := "l3-num-banks";
    var r1 := L1Params(p, args, tables, hier, cache, memCase, rows);
    var r2 := L2Params(r1, args, tables, hier, cache, memCase);
    ApartAt(key, "l1d", 1); ApartAt(key, "l1i", 1);
    L1Untouched(p, args, tables, hier, cache, memCase, rows, key);
    assert Begins(key, key) && Same(p, r1, key);
    ApartAt(key, "l2", 1); NotBeginsAt(key, "l2-num-banks", 1);
    L2Untouched(r1, args, tables, hier, cache, memCase, key);
    assert Same(r1, r2, key);
    L3Set(r2, args, tables, hier, cache, memCase);
  }

  /** The cache parameters leave alone every key apart from the four cache
      prefixes. */
  lemma CachesUntouched(p: map<string, Value>, args: Args, tables: SimTables, hier: seq<string>,
                        cache: map<string, map<string, seq<CacheLevel>>>, memCase: string, rows: L1Rows, a: string)
    requires |hier| >= 4 && LevelsPresent(cache, hier, memCase)
    requires Level(cache, hier, memCase, rows.data).Some? && Level(cache, hier, memCase, rows.inst).Some?
    requires Apart(a, "l1d") && Apart(a, "l1i") && Apart(a, "l2") && Apart(a, "l3")
    requires !Begins(a, "l2-num-banks") && !Begins(a, "l3-num-banks")
    ensures Untouched(p, CachesParams(p, args, tables, hier, cache, memCase, rows), a)
  {
    var r1 := L1Params(p, args, tables, hier, cache, memCase, rows);
    var r2 := L2Params(r1, args, tables, hier, cache, memCase);
    L1Untouched(p, args, tables, hier, cache, memCase, rows, a);
    L2Untouched(r1, args, tables, hier, cache, memCase, a);
    L3Untouched(r2, args, tables, hier, cache, memCase, a);
    UntouchedTrans(p, r1, r2, a);
    UntouchedTrans(p, r2, L3Params(r2, args, tables, hier, cache, memCase), a);
  }

  /** Setting one key leaves alone every prefix the key lacks. */
  lemma UpdateUntouched(p: map<string, Value>, a: string, key: string, v: Value)
    requires !Begins(a, key)
    ensures Untouched(p, p[key := v], a)
  {
  }

  /** The refusals of `setDetailedParams`: the dummy classes always, the
      other non-detailed classes except `TraceGeneration`; a missing table
      entry raises with only the CPU and system parameters set. */
  lemma DetailedRefusals(st: SimState, args: Args, tables: SimTables, model: CpuModel, tech: string, memCase: string)
    ensures Dummy(st.kind) ==> DetailedSet(st, args, tables, model, tech, memCase) == (st, Some(NotSupported))
    ensures !Dummy(st.kind) && st.kind != TraceGeneration && !st.detailed ==>
              DetailedSet(st, args, tables, model, tech, memCase) == (st, Some(NotDetailed))
    ensures DetailedSet(st, args, tables, model, tech, memCase).1 == Some(MissingTable) ==>
              DetailedSet(st, args, tables, model, tech, memCase).0 == CpuSys(st, args, model)
    ensures var r := DetailedSet(st, args, tables, model, tech, memCase);
      r.1.None? <==> (!Dummy(st.kind) && (st.kind == TraceGeneration ||
        (st.detailed && Hierarchy(tables, model, tech).Some? && model.name in tables.memConfigs &&
         LevelsPresent(tables.memConfigs[model.name], Hierarchy(tables, model, tech).value, memCase))))
  {
  }

  /** `TraceGeneration` ignores the technology, the case and the memory
      tables: it sets the CPU and system parameters and the model alone. */
  lemma TraceGenerationDetailed(st: SimState, args: Args, tables: SimTables, model: CpuModel, tech: string, memCase: string)
    requires st.kind == TraceGeneration
    ensures var r := DetailedSet(st, args, tables, model, tech, memCase);
      && r.1.None? && r.0.flags == st.flags && r.0.detConf == Some(DetConf(model, "", ""))
      && r.0.params == CpuSysParams(st.params, model) && r.0.cfgPath == ModelConfig(args, model)
      && r == DetailedSet(st, args, SimTables(map[], map[], map[]), model, "", "")
  {
  }

  /** A successful `setDetailedParams` of a detailed class: the flags of its
      hierarchy appended, the configuration recorded, the first-level data
      cache from position 0 and the instruction cache from position 1, as
      the code reads them, the other levels from their own rows; the CPU
      type is the model's, or the trace CPU when replaying traces. */
  lemma DetailedSetCaches(st: SimState, args: Args, tables: SimTables, model: CpuModel, tech: string, memCase: string)
    requires st.kind != TraceGeneration && DetailedSet(st, args, tables, model, tech, memCase).1.None?
    ensures var r := DetailedSet(st, args, tables, model, tech, memCase).0;
      var hier := Hierarchy(tables, model, tech).value;
      var cache := tables.memConfigs[model.name];
      && r.flags == st.flags + DetailedFlags(args, hier)
      && r.detConf == Some(DetConf(model, tech, memCase))
      && LevelParams(r.params, "l1d", Level(cache, hier, memCase, 0).value)
      && LevelParams(r.params, "l1i", Level(cache, hier, memCase, 1).value)
      && LevelParams(r.params, "l2", Level(cache, hier, memCase, 2).value)
      && (HasL3(hier) ==> LevelParams(r.params, "l3", Level(cache, hier, memCase, 3).value))
      && "cpu-type" in r.params && r.params["cpu-type"] == S(if st.kind == TraceReplay then "TraceCPU" else model.core)
  {
    var hier := Hierarchy(tables, model, tech).value;
    var cache := tables.memConfigs[model.name];
    CachesKeepCpu(CpuSysParams(st.params, model), args, tables, hier, cache, memCase, st.kind == TraceReplay);
  }

  /** The cache parameters with the rows the method reads, then the trace CPU
      when `replay`: every level holds its row and the CPU type is the
      trace CPU or what it was. */
  lemma CachesKeepCpu(p0: map<string, Value>, args: Args, tables: SimTables, hier: seq<string>,
                      cache: map<string, map<string, seq<CacheLevel>>>, memCase: string, replay: bool)
    requires |hier| >= 4 && LevelsPresent(cache, hier, memCase) && "cpu-type" in p0
    ensures var p := CachesParams(p0, args, tables, hier, cache, memCase, AsWrittenRows);
      var q := if replay then p["cpu-type" := S("TraceCPU")] else p;
      && LevelParams(q, "l1d", Level(cache, hier, memCase, 0).value)
      && LevelParams(q, "l1i", Level(cache, hier, memCase, 1).value)
      && LevelParams(q, "l2", Level(cache, hier, memCase, 2).value)
      && (HasL3(hier) ==> LevelParams(q, "l3", Level(cache, hier, memCase, 3).value))
      && "cpu-type" in q && q["cpu-type"] == (if replay then S("TraceCPU") else p0["cpu-type"])
  {
    var p := CachesParams(p0, args, tables, hier, cache, memCase, AsWrittenRows);
    CachesLevels(p0, args, tables, hier, cache, memCase, AsWrittenRows);
    ApartAt("cpu-type", "l1d", 0); ApartAt("cpu-type", "l1i", 0); ApartAt("cpu-type", "l2", 0); ApartAt("cpu-type", "l3", 0);
    NotBeginsAt("cpu-type", "l2-num-banks", 0); NotBeginsAt("cpu-type", "l3-num-banks", 0);
    CachesUntouched(p0, args, tables, hier, cache, memCase, AsWrittenRows, "cpu-type");
    assert Begins("cpu-type", "cpu-type") && Same(p0, p, "cpu-type");
    if replay {
      var q := p["cpu-type" := S("TraceCPU")];
      NotBeginsAt("l1d", "cpu-type", 0); NotBeginsAt("l1i", "cpu-type", 0);
      NotBeginsAt("l2", "cpu-type", 0); NotBeginsAt("l3", "cpu-type", 0);
      UpdateUntouched(p, "l1d", "cpu-type", S("TraceCPU"));
      UpdateUntouched(p, "l1i", "cpu-type", S("TraceCPU"));
      UpdateUntouched(p, "l2", "cpu-type", S("TraceCPU"));
      UpdateUntouched(p, "l3", "cpu-type", S("TraceCPU"));
      LevelParamsKept(p, q, "l1d", Level(cache, hier, memCase, 0).value);
      LevelParamsKept(p, q, "l1i", Level(cache, hier, memCase, 1).value);
      LevelParamsKept(p, q, "l2", Level(cache, hier, memCase, 2).value);
      if HasL3(hier) {
        LevelParamsKept(p, q, "l3", Level(cache, hier, memCase, 3).value);
      }
    }
  }

  // ---------------------------------------------------------------------
  // generateCommand

  /** The configuration script used when none is set. */
  function DefaultConfig(args: Args): string
  {
    JoinAll([args.gem5Dir, "configs", "example", "se.py"])
  }

  /** The `--debug-flags=` option: the flags separated by commas. */
  function DebugPart(d: seq<string>): string
  {
    if |d| == 0 then "" else "--debug-flags=" + Join(d, ',') + " "
  }

  /** `--f ` for each flag, in the given order. */
  function FlagsPart(fs: seq<string>): string
    decreases |fs|
  {
    if |fs| == 0 then "" else FlagsPart(fs[..|fs| - 1]) + "--" + fs[|fs| - 1] + " "
  }

  /** `--k="v" ` for one parameter. */
  function ParamText(k: string, v: Value): string
  {
    "--" + k + "=\"" + Text(v) + "\" "
  }

  /** `--k="v" ` for each key, in the given order. */
  function ParamsPart(keys: seq<string>, p: map<string, Value>): string
    requires forall i :: 0 <= i < |keys| ==> keys[i] in p
    decreases |keys|
  {
    if |keys| == 0 then "" else ParamsPart(keys[..|keys| - 1], p) + ParamText(keys[|keys| - 1], p[keys[|keys| - 1]])
  }

  /** The text before the flags: binary and output directory, debug flags,
      configuration script. */
  function CommandHead(bin: string, out: string, debug: seq<string>, cfg: string): string
  {
    bin + " --outdir=" + out + " " + DebugPart(debug) + cfg + " "
  }

  /** The gem5 command line: the head, the flags in sorted order, the
      parameters in sorted key order. */
  function CommandText(bin: string, out: string, debug: seq<string>, cfg: string, flags: seq<string>, p: map<string, Value>): string
  {
    CommandHead(bin, out, debug, cfg) + FlagsPart(Sort(flags)) + ParamsPart(SortedSet(p.Keys), p)
  }

  /** The debug-flag loop of `generateCommand`: a comma after every flag
      but the last, a blank after the last. */
  method AppendDebug(command: string, d: seq<string>) returns (r: string)
    ensures r == command + DebugPart(d)
  {
    r := command;
    if |d| == 0 {
      return;
    }
    r := r + "--debug-flags=";
    var i := 0;
    while i < |d|
      invariant 0 <= i <= |d|
      invariant r == command + "--debug-flags=" + DebugSoFar(d, i)
    {
      DebugSoFarStep(command + "--debug-flags=", d, i);
      r := r + d[i];
      r := r + (if i != |d| - 1 then "," else " ");
      i := i + 1;
    }
    assert d[..|d|] == d;
  }

  /** The text of the debug-flag loop after its first `i` rounds. */
  function DebugSoFar(d: seq<string>, i: nat): string
    requires i <= |d|
  {
    if i == 0 then "" else Join(d[..i], ',') + (if i == |d| then " " else ",")
  }

  /** One round of the debug-flag loop appends the flag and its separator. */
  lemma DebugSoFarStep(head: string, d: seq<string>, i: nat)
    requires i < |d|
    ensures head + DebugSoFar(d, i + 1) == head + DebugSoFar(d, i) + d[i] + (if i != |d| - 1 then "," else " ")
  {
    assert d[..i + 1][..i] == d[..i];
  }

  /** One more flag extends `FlagsPart` by that flag's option. */
  lemma FlagsPartSnoc(command: string, fs: seq<string>, j: nat)
    requires j < |fs|
    ensures command + FlagsPart(fs[..j + 1]) == command + FlagsPart(fs[..j]) + "--" + fs[j] + " "
  {
    assert fs[..j + 1][..j] == fs[..j];
  }

  /** The flag loop of `generateCommand`. */
  method AppendFlags(command: string, fs: seq<string>) returns (r: string)
    ensures r == command + FlagsPart(fs)
  {
    r := command;
    var j := 0;
    while j < |fs|
      invariant 0 <= j <= |fs|
      invariant r == command + FlagsPart(fs[..j])
    {
      FlagsPartSnoc(command, fs, j);
      r := r + "--" + fs[j] + " ";
      j := j + 1;
    }
    assert fs[..|fs|] == fs;
  }

  /** One more key extends `ParamsPart` by that key's text. */
  lemma ParamsPartSnoc(command: string, ks: seq<string>, j: nat, p: map<string, Value>)
    requires j < |ks| && forall i :: 0 <= i < |ks| ==> ks[i] in p
    ensures command + ParamsPart(ks[..j + 1], p) == command + ParamsPart(ks[..j], p) + ParamText(ks[j], p[ks[j]])
  {
    assert ks[..j + 1][..j] == ks[..j];
  }

  /** The parameter loop of `generateCommand`. */
  method AppendParams(command: string, ks: seq<string>, p: map<string, Value>) returns (r: string)
    requires forall i :: 0 <= i < |ks| ==> ks[i] in p
    ensures r == command + ParamsPart(ks, p)
  {
    r := command;
    var j := 0;
    while j < |ks|
      invariant 0 <= j <= |ks|
      invariant r == command + ParamsPart(ks[..j], p)
    {
      ParamsPartSnoc(command, ks, j, p);
      r := r + ParamText(ks[j], p[ks[j]]);
      j := j + 1;
    }
    assert ks[..|ks|] == ks;
  }

  /** The configuration script `generateCommand` falls back on. */
  function ConfigAfter(st: SimState, args: Args): string
  {
    if Dummy(st.kind) || st.binPath == "" || !st.envPrep || st.cfgPath != "" then st.cfgPath else DefaultConfig(args)
  }

  /** The result of `generateCommand`: refused by the dummy classes, without
      a simulator, before preparation and without a configuration file;
      otherwise the command text. `files` are the files that exist. */
  function Generated(st: SimState, args: Args, files: set<string>): Result<string, SimError>
  {
    if Dummy(st.kind) then Err(NotSupported)
    else if st.binPath == "" then Err(NoSimulator)
    else if !st.envPrep then Err(NotPrepared)
    else
      var cfg := ConfigAfter(st, args);
      if cfg !in files then Err(MissingConfig(cfg))
      else Ok(CommandText(st.binPath, st.outPath, st.debugFlags, cfg, st.flags, st.params))
  }

  /** `generateCommand` raises exactly in the dummy classes, without a
      simulator, before preparation and without the configuration file, in
      that order; an unset configuration falls back on se.py. */
  lemma GeneratedErrors(st: SimState, args: Args, files: set<string>)
    ensures var g := Generated(st, args, files);
      && (Dummy(st.kind) ==> g == Err(NotSupported))
      && (!Dummy(st.kind) && st.binPath == "" ==> g == Err(NoSimulator))
      && (!Dummy(st.kind) && st.binPath != "" && !st.envPrep ==> g == Err(NotPrepared))
      && (g.Ok? <==> !Dummy(st.kind) && st.binPath != "" && st.envPrep && ConfigAfter(st, args) in files)
    ensures !Dummy(st.kind) && st.binPath != "" && st.envPrep ==>
              ConfigAfter(st, args) == (if st.cfgPath == "" then DefaultConfig(args) else st.cfgPath)
  {
  }

  /** An occurrence stays where it is when text is appended. */
  lemma OccursBefore(b: string, c: string, sub: string, i: int)
    requires OccursAt(b, sub, i)
    ensures OccursAt(b + c, sub, i)
  {
    assert (b + c)[i..i + |sub|] == b[i..i + |sub|];
  }

  /** An occurrence moves by the length of text prepended. */
  lemma OccursAfter(a: string, b: string, sub: string, i: int)
    requires OccursAt(b, sub, i)
    ensures OccursAt(a + b, sub, |a| + i)
  {
    assert (a + b)[|a| + i..|a| + i + |sub|] == b[i..i + |sub|];
  }

  /** The option of the j-th flag follows the options of the flags before. */
  lemma {:induction false} FlagsPartOccurs(fs: seq<string>, j: nat)
    requires j < |fs|
    ensures OccursAt(FlagsPart(fs), "--" + fs[j] + " ", |FlagsPart(fs[..j])|)
    decreases |fs|
  {
    var init := fs[..|fs| - 1];
    var piece := "--" + fs[|fs| - 1] + " ";
    assert FlagsPart(fs) == FlagsPart(init) + piece;
    if j == |fs| - 1 {
      assert fs[..j] == init;
      assert OccursAt(piece, piece, 0);
      OccursAfter(FlagsPart(init), piece, piece, 0);
    } else {
      FlagsPartOccurs(init, j);
      assert init[..j] == fs[..j];
      OccursBefore(FlagsPart(init), piece, "--" + fs[j] + " ", |FlagsPart(fs[..j])|);
    }
  }

  /** The concatenation of pieces of text, in order. */
  function Concat(parts: seq<string>): string
    decreases |parts|
  {
    if |parts| == 0 then "" else Concat(parts[..|parts| - 1]) + parts[|parts| - 1]
  }

  /** The j-th piece follows the pieces before it. */
  lemma {:induction false} ConcatOccurs(parts: seq<string>, j: nat)
    requires j < |parts|
    ensures OccursAt(Concat(parts), parts[j], |Concat(parts[..j])|)
    decreases |parts|
  {
    var init := parts[..|parts| - 1];
    var piece := parts[|parts| - 1];
    if j == |parts| - 1 {
      assert parts[..j] == init;
      assert OccursAt(piece, piece, 0);
      OccursAfter(Concat(init), piece, piece, 0);
    } else {
      ConcatOccurs(init, j);
      assert init[..j] == parts[..j] && init[j] == parts[j];
      OccursBefore(Concat(init), piece, parts[j], |Concat(parts[..j])|);
    }
  }

  /** The options `--k="v" ` of the keys, one piece per key. */
  function Rendered(ks: seq<string>, p: map<string, Value>): (r: seq<string>)
    requires forall i :: 0 <= i < |ks| ==> ks[i] in p
    ensures |r| == |ks|
    decreases |ks|
  {
    if |ks| == 0 then [] else Rendered(ks[..|ks| - 1], p) + [ParamText(ks[|ks| - 1], p[ks[|ks| - 1]])]
  }

  /** The options of a prefix of the keys are a prefix of the pieces, and
      the parameter options are the pieces joined. */
  lemma {:induction false} RenderedPrefix(ks: seq<string>, p: map<string, Value>, j: nat)
    requires forall i :: 0 <= i < |ks| ==> ks[i] in p
    requires j <= |ks|
    ensures Rendered(ks[..j], p) == Rendered(ks, p)[..j]
    ensures ParamsPart(ks, p) == Concat(Rendered(ks, p))
    decreases |ks|
  {
    if |ks| > 0 {
      var init := ks[..|ks| - 1];
      if j < |ks| {
        RenderedPrefix(init, p, j);
        assert init[..j] == ks[..j];
      } else {
        assert ks[..j] == ks;
        RenderedPrefix(init, p, 0);
      }
      var r := Rendered(ks, p);
      assert r[..|ks| - 1] == Rendered(init, p);
    }
  }

  /** The option of the j-th parameter follows those of the keys before. */
  lemma ParamsPartOccurs(ks: seq<string>, p: map<string, Value>, j: nat)
    requires forall i :: 0 <= i < |ks| ==> ks[i] in p
    requires j < |ks|
    ensures OccursAt(ParamsPart(ks, p), ParamText(ks[j], p[ks[j]]), |ParamsPart(ks[..j], p)|)
  {
    var r := Rendered(ks, p);
    RenderedPrefix(ks, p, j);
    RenderedPrefix(ks, p, j + 1);
    RenderedPrefix(ks[..j], p, 0);
    assert ks[..j + 1][..j] == ks[..j];
    assert Rendered(ks[..j + 1], p)[j] == ParamText(ks[j], p[ks[j]]);
    ConcatOccurs(r, j);
  }

  /** The command text is the head, then `--f ` for the flags as a sorted
      permutation of the given ones, then `--k="v" ` for the parameter keys
      strictly ascending, each key once. */
  lemma CommandShape(bin: string, out: string, debug: seq<string>, cfg: string, flags: seq<string>, p: map<string, Value>)
    ensures exists fs, ks ::
      && Sorted(fs) && multiset(fs) == multiset(flags)
      && StrictlySorted(ks) && |ks| == |p| && (forall k :: k in ks <==> k in p)
      && CommandText(bin, out, debug, cfg, flags, p) == CommandHead(bin, out, debug, cfg) + FlagsPart(fs) + ParamsPart(ks, p)
  {
    SortSorted(flags);
    var fs, ks := Sort(flags), SortedSet(p.Keys);
    assert CommandText(bin, out, debug, cfg, flags, p) == CommandHead(bin, out, debug, cfg) + FlagsPart(fs) + ParamsPart(ks, p);
  }

  /** An occurrence in the middle part of a concatenation. */
  lemma OccursMid(a: string, b: string, c: string, sub: string, i: int)
    requires OccursAt(b, sub, i)
    ensures OccursAt(a + b + c, sub, |a| + i)
  {
    OccursAfter(a, b, sub, i);
    OccursBefore(a + b, c, sub, |a| + i);
  }

  /** Every flag sits at some position of the sorted flags. */
  lemma SortHas(flags: seq<string>, f: string)
    requires f in flags
    ensures exists j :: 0 <= j < |Sort(flags)| && Sort(flags)[j] == f
  {
    SortSorted(flags);
    assert f in multiset(Sort(flags));
  }

  /** Every flag appears as `--f ` in the sorted flags' options, wherever
      they are placed. */
  lemma FlagsHave(head: string, rest: string, flags: seq<string>, f: string)
    requires f in flags
    ensures exists i :: OccursAt(head + FlagsPart(Sort(flags)) + rest, "--" + f + " ", i)
  {
    SortHas(flags, f);
    var fs := Sort(flags);
    var j :| 0 <= j < |fs| && fs[j] == f;
    FlagsPartOccurs(fs, j);
    OccursMid(head, FlagsPart(fs), rest, "--" + f + " ", |FlagsPart(fs[..j])|);
  }

  /** Every parameter appears as `--k="v" ` in the options of the sorted
      keys, wherever they are placed. */
  lemma ParamsHave(head: string, p: map<string, Value>, k: string)
    requires k in p
    ensures exists i :: OccursAt(head + ParamsPart(SortedSet(p.Keys), p), ParamText(k, p[k]), i)
  {
    var ks := SortedSet(p.Keys);
    var j :| 0 <= j < |ks| && ks[j] == k;
    ParamsPartOccurs(ks, p, j);
    OccursAfter(head, ParamsPart(ks, p), ParamText(k, p[k]), |ParamsPart(ks[..j], p)|);
  }

  /** Every flag appears as `--f ` in the command text. */
  lemma CommandHasFlag(bin: string, out: string, debug: seq<string>, cfg: string, flags: seq<string>, p: map<string, Value>, f: string)
    requires f in flags
    ensures exists i :: OccursAt(CommandText(bin, out, debug, cfg, flags, p), "--" + f + " ", i)
  {
    FlagsHave(CommandHead(bin, out, debug, cfg), ParamsPart(SortedSet(p.Keys), p), flags, f);
    assert CommandText(bin, out, debug, cfg, flags, p) == CommandHead(bin, out, debug, cfg) + FlagsPart(Sort(flags)) + ParamsPart(SortedSet(p.Keys), p);
  }

  /** Every parameter appears as `--k="v" ` in the command text. */
  lemma CommandHasParam(bin: string, out: string, debug: seq<string>, cfg: string, flags: seq<string>, p: map<string, Value>, k: string)
    requires k in p
    ensures exists i :: OccursAt(CommandText(bin, out, debug, cfg, flags, p), ParamText(k, p[k]), i)
  {
    ParamsHave(CommandHead(bin, out, debug, cfg) + FlagsPart(Sort(flags)), p, k);
    assert CommandText(bin, out, debug, cfg, flags, p) == CommandHead(bin, out, debug, cfg) + FlagsPart(Sort(flags)) + ParamsPart(SortedSet(p.Keys), p);
  }

  /** A successful `generateCommand` has the shape of `CommandShape`, with
      the object's flags and parameters and the configuration it falls back
      on, and names every flag and parameter set. */
  lemma GeneratedShape(st: SimState, args: Args, files: set<string>)
    requires Generated(st, args, files).Ok?
    ensures exists fs, ks ::
      && Sorted(fs) && multiset(fs) == multiset(st.flags)
      && StrictlySorted(ks) && |ks| == |st.params| && (forall k :: k in ks <==> k in st.params)
      && Generated(st, args, files).value ==
           CommandHead(st.binPath, st.outPath, st.debugFlags, ConfigAfter(st, args)) + FlagsPart(fs) + ParamsPart(ks, st.params)
    ensures forall f :: f in st.flags ==> exists i :: OccursAt(Generated(st, args, files).value, "--" + f + " ", i)
    ensures forall k :: k in st.params ==> exists i :: OccursAt(Generated(st, args, files).value, ParamText(k, st.params[k]), i)
  {
    var cfg := ConfigAfter(st, args);
    CommandShape(st.binPath, st.outPath, st.debugFlags, cfg, st.flags, st.params);
    forall f | f in st.flags
      ensures exists i :: OccursAt(Generated(st, args, files).value, "--" + f + " ", i)
    {
      CommandHasFlag(st.binPath, st.outPath, st.debugFlags, cfg, st.flags, st.params, f);
    }
    forall k | k in st.params
      ensures exists i :: OccursAt(Generated(st, args, files).value, ParamText(k, st.params[k]), i)
    {
      CommandHasParam(st.binPath, st.outPath, st.debugFlags, cfg, st.flags, st.params, k);
    }
  }

  // ---------------------------------------------------------------------
  // prepareEnvironment

  /** `tmp_path` of `_prepareFolder`: the scratch folder inside an output
      folder. */
  function TmpPath(out: string): string
  {
    JoinAll([out, "tmp"])
  }

  /** The log file of `prepareEnvironment`:
      `<wl_id>_<target_dir>[_<trailing_dir>].log` in the output folder. */
  function LogPath(st: SimState): string
  {
    JoinAll([st.outPath, st.wlId + "_" + st.targetDir + (if st.trailingDir == "" then "" else "_" + st.trailingDir) + ".log"])
  }

  /** The scratch folder and log file a preparation yields. */
  type Prepared = (SimState, Result<(string, string), SimError>)

  /** The base `prepareEnvironment`: the object is marked prepared. */
  function BasePrepared(st: SimState): Prepared
  {
    if |st.workloads| == 0 then (st, Err(NoWorkload))
    else (st.(envPrep := true), Ok((TmpPath(st.outPath), LogPath(st))))
  }

  /** A line of a simpoint file: the simpoint in intervals and its index. */
  datatype SimpointLine = SimpointLine(value: int, idx: string)

  /** The loop of `TraceGeneration.prepareEnvironment` over the simpoint
      file: the value on the first line with the index sought. */
  function FirstSimpoint(lines: seq<SimpointLine>, idx: string): (r: Option<int>)
    ensures r.Some? <==> exists i :: 0 <= i < |lines| && lines[i].idx == idx
    ensures r.Some? ==> exists i :: 0 <= i < |lines| && lines[i] == SimpointLine(r.value, idx) &&
                                    forall j :: 0 <= j < i ==> lines[j].idx != idx
    decreases |lines|
  {
    if |lines| == 0 then None
    else if lines[0].idx == idx then Some(lines[0].value)
    else
      var r := FirstSimpoint(lines[1..], idx);
      assert forall i :: 1 <= i < |lines| ==> lines[1..][i - 1] == lines[i];
      r
  }

  /** The loop of `TraceGeneration.prepareEnvironment` over the simpoint
      file, which stops at the first line with the index sought. */
  method FindSimpoint(lines: seq<SimpointLine>, idx: string) returns (bbv: Option<int>)
    ensures bbv == FirstSimpoint(lines, idx)
  {
    var i := 0;
    while i < |lines|
      invariant 0 <= i <= |lines|
      invariant FirstSimpoint(lines[i..], idx) == FirstSimpoint(lines, idx)
    {
      if lines[i].idx == idx {
        return Some(lines[i].value);
      }
      assert lines[i..][1..] == lines[i + 1..];
      i := i + 1;
    }
    return None;
  }

  /** `int(n / 2)` in Python 3: true division, then truncation toward zero. */
  function HalfTowardZero(n: int): (r: int)
    ensures n >= 0 ==> 0 <= n - 2 * r <= 1
    ensures n < 0 ==> 0 <= 2 * r - n <= 1
  {
    if n >= 0 then n / 2 else -((-n) / 2)
  }

  /** The fast-forward point of an elastic trace: half the traced
      instructions before the simpoint, but never fewer than `trace_skip`
      instructions skipped. */
  function FastForward(bbv: int, intSize: int, traceInsts: int, traceSkip: int): int
  {
    var ff := bbv * intSize - HalfTowardZero(traceInsts);
    if ff < traceSkip then traceSkip else ff
  }

  /** The fast-forward point is the centred one when that skips at least
      `trace_skip` instructions, and `trace_skip` otherwise. */
  lemma FastForwardBound(bbv: int, intSize: int, traceInsts: int, traceSkip: int)
    ensures FastForward(bbv, intSize, traceInsts, traceSkip) >= traceSkip
    ensures var centred := bbv * intSize - HalfTowardZero(traceInsts);
      FastForward(bbv, intSize, traceInsts, traceSkip) == if centred >= traceSkip then centred else traceSkip
    ensures traceInsts >= 0 ==>
      var c := bbv * intSize - FastForward(bbv, intSize, traceInsts, traceSkip);
      2 * c <= traceInsts
  {
  }

  /** `TraceGeneration.prepareEnvironment`: an out-of-order model is needed;
      with simpoints as prerequisite, the trace starts around the simpoint
      `spIndex` (the heaviest, found in the weights file) of the simpoint
      file `lines`. */
  function TracePrepared(st: SimState, args: Args, spIndex: string, lines: seq<SimpointLine>): Prepared
  {
    if |st.workloads| == 0 then (st, Err(NoWorkload))
    else if st.detConf.None? then (st, Err(NoDetailedConf))
    else if !st.detConf.value.model.outOfOrder then (st, Err(NotOutOfOrder(st.detConf.value.model.core)))
    else if st.prereqDir == "" then BasePrepared(st)
    else
      match FirstSimpoint(lines, spIndex)
      case None => (st, Err(InvalidSimpoint))
      case Some(bbv) =>
        if bbv == 0 then (st, Err(InvalidSimpoint))
        else BasePrepared(st.(params := st.params["fast-forward" := N(FastForward(bbv, args.intSize, args.traceInsts, args.traceSkip))]))
  }

  /** The simpoint and weight files of a workload. */
  function SimpointFile(st: SimState): string
  {
    JoinAll([st.dataPath, "simpoint_" + st.wlSs])
  }

  function WeightFile(st: SimState): string
  {
    JoinAll([st.dataPath, "weight_" + st.wlSs])
  }

  /** The `take-simpoint-checkpoint` option: both files, the interval size
      and the warm-up length. */
  function TakeCheckpoint(st: SimState, args: Args): string
  {
    SimpointFile(st) + "," + WeightFile(st) + "," + IntToString(args.intSize) + "," + IntToString(args.warmup)
  }

  /** `prepareEnvironment` of every class but `CptSimulation` and
      `TraceReplay`. */
  function EnvPrepared(st: SimState, args: Args, spIndex: string, lines: seq<SimpointLine>): Prepared
  {
    if st.kind == TraceGeneration then TracePrepared(st, args, spIndex, lines)
    else
      var (s, r) := BasePrepared(st);
      if st.kind == CptGeneration && r.Ok? then
        (s.(params := s.params["take-simpoint-checkpoint" := S(TakeCheckpoint(st, args))]), r)
      else (s, r)
  }

  /** A preparation fails only without a workload and, for `TraceGeneration`,
      without a detailed configuration, on an in-order model or on a missing
      or zero simpoint; it then changes nothing. */
  lemma EnvPreparedErrors(st: SimState, args: Args, spIndex: string, lines: seq<SimpointLine>)
    ensures var (s, r) := EnvPrepared(st, args, spIndex, lines);
      && (r.Err? ==> s == st)
      && (|st.workloads| == 0 ==> r == Err(NoWorkload))
      && (st.kind != TraceGeneration ==> (r.Ok? <==> |st.workloads| > 0))
      && (st.kind == TraceGeneration ==> (r.Ok? <==>
            |st.workloads| > 0 && st.detConf.Some? && st.detConf.value.model.outOfOrder &&
            (st.prereqDir != "" ==> FirstSimpoint(lines, spIndex).Some? && FirstSimpoint(lines, spIndex) != Some(0))))
  {
  }

  /** A successful preparation marks the object prepared and yields the
      scratch folder and log file of its output folder; it changes only the
      checkpoint option of `CptGeneration` and the fast-forward point of a
      `TraceGeneration` with simpoints, which skips at least `trace_skip`. */
  lemma EnvPreparedState(st: SimState, args: Args, spIndex: string, lines: seq<SimpointLine>)
    requires EnvPrepared(st, args, spIndex, lines).1.Ok?
    ensures var (s, r) := EnvPrepared(st, args, spIndex, lines);
      && s.envPrep
      && r.value == (TmpPath(st.outPath), LogPath(st))
      && s.(params := st.params, envPrep := st.envPrep) == st
      && (st.kind == CptGeneration ==> s.params == st.params["take-simpoint-checkpoint" := S(TakeCheckpoint(st, args))])
      && (st.kind == TraceGeneration && st.prereqDir != "" ==>
            "fast-forward" in s.params && s.params["fast-forward"].N? && s.params["fast-forward"].n >= args.traceSkip &&
            s.params == st.params["fast-forward" := s.params["fast-forward"]])
      && (st.kind != CptGeneration && (st.kind != TraceGeneration || st.prereqDir == "") ==> s.params == st.params)
  {
    if st.kind == TraceGeneration && st.prereqDir != "" {
      var bbv := FirstSimpoint(lines, spIndex).value;
      FastForwardBound(bbv, args.intSize, args.traceInsts, args.traceSkip);
    }
  }

  /** After a successful preparation `generateCommand` no longer refuses for
      want of it. */
  lemma PreparedThenGenerated(st: SimState, args: Args, spIndex: string, lines: seq<SimpointLine>, files: set<string>)
    requires EnvPrepared(st, args, spIndex, lines).1.Ok? && !Dummy(st.kind) && st.binPath != ""
    ensures Generated(EnvPrepared(st, args, spIndex, lines).0, args, files) != Err(NotPrepared)
  {
    EnvPreparedState(st, args, spIndex, lines);
  }

  // ---------------------------------------------------------------------
  // CptSimulation

  /** `cpt_info`: each selected checkpoint's number and output folder. */
  function CptEntries(out: string, sel: seq<Checkpoint>): (r: seq<(int, string)>)
    ensures |r| == |sel|
    ensures forall i :: 0 <= i < |sel| ==> r[i] == (sel[i].idx, JoinAll([out, sel[i].name]))
  {
    seq(|sel|, i requires 0 <= i < |sel| => (sel[i].idx, JoinAll([out, sel[i].name])))
  }

  /** The scratch folder and log file of each checkpoint's output folder. */
  function CptPaths(info: seq<(int, string)>, wlId: string): (r: seq<(string, string)>)
    ensures |r| == |info|
    ensures forall i :: 0 <= i < |info| ==> r[i] == (TmpPath(info[i].1), JoinAll([info[i].1, wlId + ".log"]))
  {
    seq(|info|, i requires 0 <= i < |info| => (TmpPath(info[i].1), JoinAll([info[i].1, wlId + ".log"])))
  }

  /** The folders and log files a checkpoint preparation yields. */
  type CptOutcome = (SimState, Result<seq<(string, string)>, SimError>)

  /** `CptSimulation.prepareEnvironment`: `names` lists the data directory.
      Without any checkpoint folder, or with a folder whose weight does not
      parse, nothing changes; otherwise the selection is recorded, the
      restore flag and the checkpoint directory are set and the object is
      prepared. */
  function CptPrepared(st: SimState, names: seq<string>, cpts: int): CptOutcome
  {
    if |st.workloads| == 0 then (st, Err(NoWorkload))
    else
      var folders := Folders(names);
      if |folders| == 0 then (st, Err(NoCheckpoints))
      else match Plan(folders, cpts)
        case None => (st, Err(BadCheckpointName))
        case Some(sel) =>
          var info := CptEntries(st.outPath, sel);
          (st.(cptInfo := Some(info), flags := st.flags + ["restore-simpoint-checkpoint"],
               params := st.params["checkpoint-dir" := S(st.dataPath)], envPrep := true),
           Ok(CptPaths(info, st.wlId)))
  }

  /** The entries recorded for a plan over the sorted checkpoint folders of
      a listing: each is a folder of the listing holding "cpt.simpoint_", by
      its number in name order, in its own output folder. */
  lemma PlanEntriesFolders(out: string, names: seq<string>, cpts: int)
    requires Plan(Folders(names), cpts).Some?
    ensures var folders := Folders(names);
      var info := CptEntries(out, Plan(folders, cpts).value);
      forall i :: 0 <= i < |info| ==>
        1 <= info[i].0 <= |folders| &&
        Contains(folders[info[i].0 - 1], CptPrefix) && folders[info[i].0 - 1] in names &&
        info[i].1 == JoinAll([out, folders[info[i].0 - 1]])
  {
    var folders := Folders(names);
    var sel := Plan(folders, cpts).value;
    PlanOrdered(folders, cpts);
    FoldersSorted(names);
    var info := CptEntries(out, sel);
    forall i | 0 <= i < |info|
      ensures 1 <= info[i].0 <= |folders| && Contains(folders[info[i].0 - 1], CptPrefix) && folders[info[i].0 - 1] in names
    {
      assert folders[sel[i].idx - 1] in folders;
    }
  }

  /** The entries follow the plan, whose order `PlanOrdered` states: no
      number twice; the first `cpts` when 0 < cpts < count, all of them
      when cpts is 0 or at least the count. */
  lemma PlanEntriesOrder(out: string, folders: seq<string>, cpts: int)
    requires Plan(folders, cpts).Some?
    ensures var sel := Plan(folders, cpts).value;
      var info := CptEntries(out, sel);
      && (forall i :: 0 <= i < |info| ==> info[i].0 == sel[i].idx)
      && (forall i, j :: 0 <= i < j < |info| ==> info[i].0 != info[j].0)
      && (0 < cpts < |folders| ==> |info| == cpts)
      && (cpts == 0 || cpts >= |folders| ==> |info| == |folders|)
  {
    var sel := Plan(folders, cpts).value;
    PlanOrdered(folders, cpts);
    var info := CptEntries(out, sel);
    forall i, j | 0 <= i < j < |info|
      ensures info[i].0 != info[j].0
    {
      assert Before(sel[i], sel[j]);
    }
  }

  /** The successful case of `CptPrepared`, spelt out. */
  lemma CptPreparedOk(st: SimState, names: seq<string>, cpts: int)
    requires |st.workloads| > 0 && |Folders(names)| > 0 && Plan(Folders(names), cpts).Some?
    ensures var info := CptEntries(st.outPath, Plan(Folders(names), cpts).value);
      CptPrepared(st, names, cpts) ==
        (st.(cptInfo := Some(info), flags := st.flags + ["restore-simpoint-checkpoint"],
             params := st.params["checkpoint-dir" := S(st.dataPath)], envPrep := true),
         Ok(CptPaths(info, st.wlId)))
  {
  }

  /** A successful checkpoint preparation records the entries of
      `PlanEntries` for the object's output folder, sets the restore flag and
      the checkpoint directory, marks the object prepared and yields each
      entry's scratch folder and log file; nothing else changes. */
  lemma CptPreparedState(st: SimState, names: seq<string>, cpts: int)
    requires CptPrepared(st, names, cpts).1.Ok?
    ensures var (s, r) := CptPrepared(st, names, cpts);
      && |st.workloads| > 0 && |Folders(names)| > 0 && Plan(Folders(names), cpts).Some?
      && s.cptInfo == Some(CptEntries(st.outPath, Plan(Folders(names), cpts).value))
      // the entries are those of PlanEntriesFolders and PlanEntriesOrder
      && s.flags == st.flags + ["restore-simpoint-checkpoint"]
      && s.params == st.params["checkpoint-dir" := S(st.dataPath)]
      && s.envPrep
      && s.(cptInfo := st.cptInfo, flags := st.flags, params := st.params, envPrep := st.envPrep) == st
      && r.value == CptPaths(s.cptInfo.value, st.wlId)
  {
  }

  /** A checkpoint preparation fails without a workload, without any
      checkpoint folder or on a folder name without a weight, and then
      changes nothing. */
  lemma CptPreparedErrors(st: SimState, names: seq<string>, cpts: int)
    ensures var (s, r) := CptPrepared(st, names, cpts);
      && (r.Err? ==> s == st)
      && (|st.workloads| == 0 ==> r == Err(NoWorkload))
      && (|st.workloads| > 0 && |Folders(names)| == 0 ==> r == Err(NoCheckpoints))
      && (r.Ok? <==> |st.workloads| > 0 && |Folders(names)| > 0 && Plan(Folders(names), cpts).Some?)
  {
  }

  /** The loop of `CptSimulation.prepareEnvironment` over the selected
      checkpoints: each one's output folder, scratch folder and log file. */
  method RecordCheckpoints(out: string, wlId: string, sel: seq<Checkpoint>) returns (info: seq<(int, string)>, paths: seq<(string, string)>)
    ensures info == CptEntries(out, sel)
    ensures paths == CptPaths(info, wlId)
  {
    paths := [];
    info := [];
    var i := 0;
    while i < |sel|
      invariant 0 <= i <= |sel|
      invariant |info| == i && |paths| == i
      invariant forall k :: 0 <= k < i ==> info[k] == (sel[k].idx, JoinAll([out, sel[k].name]))
      invariant forall k :: 0 <= k < i ==> paths[k] == (TmpPath(info[k].1), JoinAll([info[k].1, wlId + ".log"]))
    {
      var cptOut := JoinAll([out, sel[i].name]);
      var cptLog := JoinAll([cptOut, wlId + ".log"]);
      paths := paths + [(JoinAll([cptOut, "tmp"]), cptLog)];
      info := info + [(sel[i].idx, cptOut)];
      i := i + 1;
    }
  }

  /** One round of `CptSimulation.generateCommand`: the output folder of
      checkpoint `e`, the output parameter, the restore option, and the base
      command. */
  function CptStep(st: SimState, args: Args, files: set<string>, e: (int, string)): (SimState, Result<string, SimError>)
  {
    var o := OutputSet(st.(outPath := e.1));
    if o.1.Some? then (o.0, Err(o.1.value))
    else
      var s := o.0.(params := o.0.params["checkpoint-restore" := N(e.0)]);
      (s.(cfgPath := ConfigAfter(s, args)), Generated(s, args, files))
  }

  /** The rounds over `info` in order, stopping at the first exception. */
  function CptRun(st: SimState, args: Args, files: set<string>, info: seq<(int, string)>): (SimState, seq<string>, Option<SimError>)
    decreases |info|
  {
    if |info| == 0 then (st, [], None)
    else
      var (s, cmds, err) := CptRun(st, args, files, info[..|info| - 1]);
      if err.Some? then (s, cmds, err)
      else
        var (t, c) := CptStep(s, args, files, info[|info| - 1]);
        match c
        case Err(e) => (t, cmds, Some(e))
        case Ok(cmd) => (t, cmds + [cmd], None)
  }

  /** One more round of `CptRun` where the earlier ones succeeded. */
  lemma CptRunStep(st: SimState, args: Args, files: set<string>, info: seq<(int, string)>, i: nat)
    requires i < |info| && CptRun(st, args, files, info[..i]).2.None?
    ensures var r := CptRun(st, args, files, info[..i]);
      var c := CptStep(r.0, args, files, info[i]);
      CptRun(st, args, files, info[..i + 1]) ==
        if c.1.Err? then (c.0, r.1, Some(c.1.error)) else (c.0, r.1 + [c.1.value], None)
  {
    assert info[..i + 1][..i] == info[..i];
  }

  /** Once a round fails, the later ones do not run. */
  lemma {:induction false} CptRunStops(st: SimState, args: Args, files: set<string>, info: seq<(int, string)>, k: nat)
    requires k <= |info| && CptRun(st, args, files, info[..k]).2.Some?
    ensures CptRun(st, args, files, info) == CptRun(st, args, files, info[..k])
    decreases |info|
  {
    if k < |info| {
      var init := info[..|info| - 1];
      assert init[..k] == info[..k];
      CptRunStops(st, args, files, init, k);
    } else {
      assert info[..k] == info;
    }
  }

  /** `output` is the only attribute `_setOutputParam` changes. */
  lemma OutputSetFrame(st: SimState)
    ensures OutputSet(st).0 == st.(params := OutputSet(st).0.params)
  {
  }

  /** A prefix stays a prefix when text is appended. */
  lemma StartsWithAppend(s: string, prefix: string, more: string)
    requires StartsWith(s, prefix)
    ensures StartsWith(s + more, prefix)
  {
    assert (s + more)[..|prefix|] == s[..|prefix|];
  }

  /** A command starts with the simulator and the output folder. */
  lemma CommandStarts(bin: string, out: string, debug: seq<string>, cfg: string, flags: seq<string>, p: map<string, Value>)
    ensures StartsWith(CommandText(bin, out, debug, cfg, flags, p), bin + " --outdir=" + out + " ")
  {
    var h := bin + " --outdir=" + out + " ";
    assert StartsWith(h, h);
    StartsWithAppend(h, h, DebugPart(debug));
    StartsWithAppend(h + DebugPart(debug), h, cfg);
    StartsWithAppend(h + DebugPart(debug) + cfg, h, " ");
    var head := CommandHead(bin, out, debug, cfg);
    StartsWithAppend(head, h, FlagsPart(Sort(flags)));
    StartsWithAppend(head + FlagsPart(Sort(flags)), h, ParamsPart(SortedSet(p.Keys), p));
  }

  /** A successful `generateCommand` starts with the simulator and the
      output folder and names every parameter. */
  lemma GeneratedNames(st: SimState, args: Args, files: set<string>, k: string)
    requires Generated(st, args, files).Ok? && k in st.params
    ensures StartsWith(Generated(st, args, files).value, st.binPath + " --outdir=" + st.outPath + " ")
    ensures exists j :: OccursAt(Generated(st, args, files).value, ParamText(k, st.params[k]), j)
  {
    var cfg := ConfigAfter(st, args);
    CommandStarts(st.binPath, st.outPath, st.debugFlags, cfg, st.flags, st.params);
    CommandHasParam(st.binPath, st.outPath, st.debugFlags, cfg, st.flags, st.params, k);
  }

  /** The command of checkpoint `e`: it names the checkpoint's output folder
      and restores that checkpoint. */
  ghost predicate CommandFor(cmd: string, bin: string, e: (int, string))
  {
    StartsWith(cmd, bin + " --outdir=" + e.1 + " ") &&
    exists j :: OccursAt(cmd, ParamText("checkpoint-restore", N(e.0)), j)
  }

  /** A round's command is the command of its checkpoint; the simulator, the
      workloads and the preparation stay. */
  lemma CptStepCommand(st: SimState, args: Args, files: set<string>, e: (int, string))
    requires CptStep(st, args, files, e).1.Ok?
    ensures CommandFor(CptStep(st, args, files, e).1.value, st.binPath, e)
    ensures var s := CptStep(st, args, files, e).0;
      s.binPath == st.binPath && s.workloads == st.workloads && s.envPrep == st.envPrep
  {
    var o := OutputSet(st.(outPath := e.1));
    OutputSetFrame(st.(outPath := e.1));
    var s := o.0.(params := o.0.params["checkpoint-restore" := N(e.0)]);
    assert s.binPath == st.binPath && s.outPath == e.1;
    GeneratedNames(s, args, files, "checkpoint-restore");
  }

  /** A run without an exception is the run without its last round,
      also without an exception, followed by that round's command. */
  lemma CptRunLast(st: SimState, args: Args, files: set<string>, info: seq<(int, string)>)
    requires |info| > 0 && CptRun(st, args, files, info).2.None?
    ensures var r := CptRun(st, args, files, info[..|info| - 1]);
      var c := CptStep(r.0, args, files, info[|info| - 1]);
      && r.2.None? && c.1.Ok?
      && CptRun(st, args, files, info) == (c.0, r.1 + [c.1.value], None)
  {
  }

  /** Extending the commands of the first rounds by the last round's. */
  lemma CommandsSnoc(cs: seq<string>, c: string, bin: string, info: seq<(int, string)>)
    requires |cs| + 1 == |info|
    requires forall i :: 0 <= i < |cs| ==> CommandFor(cs[i], bin, info[..|cs|][i])
    requires CommandFor(c, bin, info[|cs|])
    ensures forall i :: 0 <= i < |info| ==> CommandFor((cs + [c])[i], bin, info[i])
  {
    forall i | 0 <= i < |info|
      ensures CommandFor((cs + [c])[i], bin, info[i])
    {
      if i < |cs| {
        assert info[..|cs|][i] == info[i] && (cs + [c])[i] == cs[i];
      }
    }
  }

  /** Without an exception there is one command per checkpoint, in order,
      each naming its output folder and restoring its checkpoint. */
  lemma {:induction false} CptRunCommands(st: SimState, args: Args, files: set<string>, info: seq<(int, string)>)
    requires CptRun(st, args, files, info).2.None?
    ensures var r := CptRun(st, args, files, info);
      && |r.1| == |info|
      && r.0.binPath == st.binPath && r.0.workloads == st.workloads && r.0.envPrep == st.envPrep
      && forall i :: 0 <= i < |info| ==> CommandFor(r.1[i], st.binPath, info[i])
    decreases |info|
  {
    if |info| > 0 {
      var n := |info| - 1;
      var init := info[..n];
      CptRunLast(st, args, files, info);
      CptRunCommands(st, args, files, init);
      var r := CptRun(st, args, files, init);
      var c := CptStep(r.0, args, files, info[n]);
      CptStepCommand(r.0, args, files, info[n]);
      CommandsSnoc(r.1, c.1.value, st.binPath, info);
    }
  }

  // ---------------------------------------------------------------------
  // The simulation object

  class Sim {
    const kind: Kind
    var debugFlags: seq<string>
    var flags: seq<string>
    var workloads: seq<Workload>
    var params: map<string, Value>
    const targetDir: string
    const trailingDir: string
    var binPath: string
    var cfgPath: string
    var outPath: string
    const prereqDir: string
    var detConf: Option<DetConf>
    const detailed: bool
    var envPrep: bool
    var wlId: string
    var wlSs: string
    var baseSf: string
    var dataPath: string
    var cptInfo: Option<seq<(int, string)>>

    /** The object's attributes as one value. */
    function Snapshot(): SimState
      reads this
    {
      SimState(kind, debugFlags, flags, workloads, params, targetDir, trailingDir, binPath, cfgPath,
               outPath, prereqDir, detConf, detailed, envPrep, wlId, wlSs, baseSf, dataPath, cptInfo)
    }

    /** The constructor of the subclass `kind`. */
    constructor (kind: Kind, args: Args)
      ensures Snapshot() == Initial(kind, args)
    {
      this.kind := kind;
      var s := Initial(kind, args);
      targetDir, trailingDir, prereqDir, detailed := s.targetDir, s.trailingDir, s.prereqDir, s.detailed;
      debugFlags, flags, workloads, params := s.debugFlags, s.flags, s.workloads, s.params;
      binPath, cfgPath, outPath, detConf, envPrep := s.binPath, s.cfgPath, s.outPath, s.detConf, s.envPrep;
      wlId, wlSs, baseSf, dataPath, cptInfo := s.wlId, s.wlSs, s.baseSf, s.dataPath, s.cptInfo;
    }

    /** `cond_append(self._debug_flags, test, flag)`. */
    method CondAppend(test: bool, flag: string)
      modifies this
      ensures Snapshot() == old(Snapshot()).(debugFlags := old(debugFlags) + if test then [flag] else [])
    {
      if test {
        debugFlags := debugFlags + [flag];
      }
    }

    /** `add_if_valid(self._params, key, value)`. */
    method AddIfValid(key: string, value: Value)
      modifies this
      ensures Snapshot() == old(Snapshot()).(params := IfValid(old(params), key, value))
    {
      if Truthy(value) {
        params := params[key := value];
      }
    }

    /** `setSimPath(bin_path)`: the path must name a file; the dummy classes
        refuse it. */
    method SetSimPath(bin: string, files: set<string>) returns (err: Option<SimError>)
      modifies this
      ensures Dummy(kind) ==> err == Some(NotSupported)
      ensures !Dummy(kind) && bin !in files ==> err == Some(SimulatorNotFound(bin))
      ensures err.None? <==> !Dummy(kind) && bin in files
      ensures Snapshot() == if err.None? then old(Snapshot()).(binPath := bin) else old(Snapshot())
    {
      if Dummy(kind) {
        return Some(NotSupported);
      }
      if bin !in files {
        return Some(SimulatorNotFound(bin));
      }
      binPath := bin;
      return None;
    }

    /** `addWorkload(b_name, b_params, subset, args)`. */
    method AddWorkload(args: Args, bName: string, bp: BenchParams, sub: Subset) returns (err: Option<SimError>)
      modifies this
      ensures (Snapshot(), err) == Added(old(Snapshot()), args, bName, bp, sub)
    {
      if SingleWorkload(kind) && |workloads| > 0 {
        return Some(MultipleWorkloads);
      }
      if kind == TraceReplay {
        err := AddReplayWorkload(args, bName, bp, sub);
        return;
      }
      if targetDir == "" {
        return Some(NoTargetDir);
      }
      if detailed && detConf.None? {
        return Some(NoDetailedConf);
      }
      if envPrep {
        return Some(AlreadyPrepared);
      }
      err := SetWorkloadParams(bp, sub);
      if err.Some? {
        return;
      }
      SetWorkloadNames(args, bName, sub);
      SetWorkloadPaths(args);
      workloads := workloads + [Workload(bName, bp, sub.name)];
      err := SetOutputParam();
    }

    /** The parameter updates of `addWorkload`, for the first and for later
        workloads. */
    method SetWorkloadParams(bp: BenchParams, sub: Subset) returns (err: Option<SimError>)
      modifies this
      ensures |old(workloads)| == 0 ==> err.None? && params == FirstParams(old(params), bp, sub)
      ensures |old(workloads)| > 0 && "cmd" !in old(params) ==> err == Some(KeyMissing) && params == old(params)
      ensures |old(workloads)| > 0 && "cmd" in old(params) && !HasCpuCount(old(params)) ==>
                err == Some(KeyMissing) && params == ExtendedText(old(params), bp, sub)
      ensures |old(workloads)| > 0 && "cmd" in old(params) && HasCpuCount(old(params)) ==>
                err.None? && params == LaterParams(old(params), bp, sub)
      ensures Snapshot() == old(Snapshot()).(params := params)
    {
      if |workloads| == 0 {
        SetFirstParams(bp, sub);
        return None;
      }
      if "cmd" !in params {
        return Some(KeyMissing);
      }
      err := SetLaterParams(bp, sub);
    }

    /** The parameters of the first workload. */
    method SetFirstParams(bp: BenchParams, sub: Subset)
      modifies this
      ensures params == FirstParams(old(params), bp, sub)
      ensures Snapshot() == old(Snapshot()).(params := params)
    {
      params := params["cmd" := S("./" + bp.exe)];
      params := params["mem-size" := S(bp.memSize)];
      if sub.options != "" {
        params := params["options" := S(sub.options)];
      }
      if sub.input != "" {
        params := params["input" := S(sub.input)];
      }
      params := params["num-cpus" := N(1)];
    }

    /** The parameters of a later workload; a missing CPU count raises after
        the texts were extended. */
    method SetLaterParams(bp: BenchParams, sub: Subset) returns (err: Option<SimError>)
      requires "cmd" in params
      modifies this
      ensures !HasCpuCount(old(params)) ==> err == Some(KeyMissing) && params == ExtendedText(old(params), bp, sub)
      ensures HasCpuCount(old(params)) ==> err.None? && params == LaterParams(old(params), bp, sub)
      ensures Snapshot() == old(Snapshot()).(params := params)
    {
      params := params["cmd" := S(Text(params["cmd"]) + ";./" + bp.exe)];
      params := params["options" := S(if "options" in params then Text(params["options"]) + ";" + sub.options else ";" + sub.options)];
      params := params["input" := S(if "input" in params then Text(params["input"]) + ";" + sub.input else ";" + sub.input)];
      if !HasCpuCount(params) {
        return Some(KeyMissing);
      }
      params := params["num-cpus" := N(params["num-cpus"].n + 1)];
      return None;
    }

    /** The workload id, subsets and base folder of one more workload. */
    method SetWorkloadNames(args: Args, bName: string, sub: Subset)
      modifies this
      ensures Snapshot() == WithNames(old(Snapshot()), args, bName, sub)
    {
      ghost var s0 := Snapshot();
      var prefix := Split(bName, '.')[0];
      if |workloads| == 0 {
        wlId, wlSs := prefix, sub.name;
        baseSf := PathJoin(args.arch, bName);
      } else {
        wlId, wlSs := wlId + "_" + prefix, wlSs + "_" + sub.name;
        baseSf := PathJoin(args.arch, wlId);
      }
      assert wlId == NextId(s0, bName) && wlSs == NextSs(s0, sub) && baseSf == NextBaseSf(s0, args, bName);
    }

    /** The output and data paths of `addWorkload`. */
    method SetWorkloadPaths(args: Args)
      requires detailed ==> detConf.Some?
      modifies this
      ensures Snapshot() == WithPaths(old(Snapshot()), args)
    {
      ghost var s0 := Snapshot();
      outPath := JoinAll([args.outDir, baseSf, targetDir, wlSs]);
      if detailed {
        outPath := DetailedPath(outPath, detConf.value);
      }
      if trailingDir != "" {
        outPath := PathJoin(outPath, trailingDir);
      }
      if prereqDir != "" {
        dataPath := JoinAll([args.dataDir, baseSf, prereqDir, wlSs]);
      }
      assert outPath == OutPathFor(s0, args, baseSf, wlSs) && dataPath == DataPathFor(s0, args, baseSf, wlSs);
    }

    /** `_setOutputParam`: refused without workloads; otherwise one output
        file per workload, all named after the first workload. */
    method SetOutputParam() returns (err: Option<SimError>)
      modifies this
      ensures (Snapshot(), err) == OutputSet(old(Snapshot()))
    {
      if |workloads| == 0 {
        return Some(NoWorkload);
      }
      var abbr := Abbreviation(workloads[0].bName);
      if abbr.None? {
        return Some(NoDotInName);
      }
      ghost var entries := OutputEntries(outPath, abbr.value, workloads);
      var output := OutFile(outPath, abbr.value, workloads[0].subset);
      assert entries[..1] == [entries[0]];
      var i := 1;
      while i < |workloads|
        invariant 1 <= i <= |workloads|
        invariant output == Join(entries[..i], ';')
      {
        assert entries[..i + 1][..i] == entries[..i];
        output := output + ";" + OutFile(outPath, abbr.value, workloads[i].subset);
        i := i + 1;
      }
      assert entries[..i] == entries;
      params := params["output" := S(output)];
      return None;
    }

    /** `TraceReplay.addWorkload`. */
    method AddReplayWorkload(args: Args, bName: string, bp: BenchParams, sub: Subset) returns (err: Option<SimError>)
      requires kind == TraceReplay
      modifies this
      ensures (Snapshot(), err) == ReplayAdded(old(Snapshot()), args, bName, bp, sub)
    {
      if detConf.None? {
        return Some(NoDetailedConf);
      }
      if envPrep {
        return Some(AlreadyPrepared);
      }
      ghost var s0 := Snapshot();
      var conf := detConf.value;
      var data := JoinAll([args.dataDir, args.arch, bName, prereqDir, sub.name, conf.model.name]);
      assert data == ReplayData(s0, args, bName, sub, conf);
      var ws := workloads + [Workload(bName, bp, sub.name)];
      err := CountReplayWorkload(bp, data);
      if err.Some? {
        return;
      }
      SetWorkloadNames(args, bName, sub);
      SetReplayOutPath(args, conf);
      workloads := ws;
      return None;
    }

    /** The memory size, CPU count and data path of a replayed workload. */
    method CountReplayWorkload(bp: BenchParams, data: string) returns (err: Option<SimError>)
      modifies this
      ensures |old(workloads)| == 0 ==> (err.None? &&
        Snapshot() == old(Snapshot()).(params := old(params)["mem-size" := S(bp.memSize)]["num-cpus" := N(1)], dataPath := data))
      ensures |old(workloads)| > 0 && !HasCpuCount(old(params)) ==> err == Some(KeyMissing) && Snapshot() == old(Snapshot())
      ensures |old(workloads)| > 0 && HasCpuCount(old(params)) ==> (err.None? &&
        Snapshot() == old(Snapshot()).(params := old(params)["num-cpus" := N(old(params)["num-cpus"].n + 1)],
                                       dataPath := old(dataPath) + ";" + data))
    {
      if |workloads| == 0 {
        params := params["mem-size" := S(bp.memSize)];
        params := params["num-cpus" := N(1)];
        dataPath := data;
      } else {
        if !HasCpuCount(params) {
          return Some(KeyMissing);
        }
        params := params["num-cpus" := N(params["num-cpus"].n + 1)];
        dataPath := dataPath + ";" + data;
      }
      return None;
    }

    /** The output path of a replayed workload. */
    method SetReplayOutPath(args: Args, conf: DetConf)
      modifies this
      ensures Snapshot() == old(Snapshot()).(outPath := ReplayOutPath(old(Snapshot()), args, conf))
    {
      outPath := JoinAll([args.outDir, baseSf, targetDir, wlSs]);
      outPath := DetailedPath(outPath, conf);
      outPath := PathJoin(outPath, trailingDir);
    }
    /** `setDetailedParams(model, tech, case, args)`, with the overrides of
        the dummy classes, `TraceGeneration` and `TraceReplay`. */
    method SetDetailedParams(args: Args, tables: SimTables, model: CpuModel, tech: string, memCase: string)
      returns (err: Option<SimError>)
      modifies this
      ensures (Snapshot(), err) == DetailedSet(old(Snapshot()), args, tables, model, tech, memCase)
    {
      if Dummy(kind) {
        return Some(NotSupported);
      }
      if kind == TraceGeneration {
        SetCpuSysParams(args, model);
        detConf := Some(DetConf(model, "", ""));
        return None;
      }
      if !detailed {
        return Some(NotDetailed);
      }
      SetCpuSysParams(args, model);
      err := SetTablesParams(args, tables, model, tech, memCase);
    }

    /** The memory-table part of `setDetailedParams`. */
    method SetTablesParams(args: Args, tables: SimTables, model: CpuModel, tech: string, memCase: string)
      returns (err: Option<SimError>)
      modifies this
      ensures (Snapshot(), err) == TablesSet(old(Snapshot()), args, tables, model, tech, memCase)
    {
      var hier := Hierarchy(tables, model, tech);
      if hier.None? || model.name !in tables.memConfigs || !LevelsPresent(tables.memConfigs[model.name], hier.value, memCase) {
        return Some(MissingTable);
      }
      SetTablesDone(args, tables, model, tech, memCase, hier.value, tables.memConfigs[model.name]);
      return None;
    }

    /** The caches and the configuration, once the tables are all found. */
    method SetTablesDone(args: Args, tables: SimTables, model: CpuModel, tech: string, memCase: string,
                         hier: seq<string>, cache: map<string, map<string, seq<CacheLevel>>>)
      requires |hier| >= 4 && LevelsPresent(cache, hier, memCase)
      modifies this
      ensures Snapshot() == TablesDone(old(Snapshot()), args, tables, model, tech, memCase, hier, cache)
    {
      SetCaches(args, tables, hier, cache, memCase);
      detConf := Some(DetConf(model, tech, memCase));
      SetReplayOverride(args);
    }

    /** The trace CPU and script of `TraceReplay`. */
    method SetReplayOverride(args: Args)
      modifies this
      ensures Snapshot() == ReplayOverride(old(Snapshot()), args)
    {
      if kind == TraceReplay {
        params := params["cpu-type" := S("TraceCPU")];
        cfgPath := JoinAll([args.gem5Dir, "configs", "example", args.traceCfg]);
      }
    }

    /** `_setCpuSysParams(model, args)`. */
    method SetCpuSysParams(args: Args, model: CpuModel)
      modifies this
      ensures Snapshot() == CpuSys(old(Snapshot()), args, model)
    {
      params := params["cpu-type" := S(model.core)];
      params := params["cpu-clock" := S(model.freq)];
      params := params["cpu-voltage" := S(model.voltage)];
      params := params["sys-clock" := S("1.2GHz")];
      params := params["sys-voltage" := S("1.2V")];
      cfgPath := JoinAll([args.gem5Dir, "configs", "example", model.config]);
    }

    /** The flags and parameters of the caches, level by level, reading the
        first-level rows where the tables document them. */
    method SetCaches(args: Args, tables: SimTables, hier: seq<string>,
                     cache: map<string, map<string, seq<CacheLevel>>>, memCase: string)
      requires |hier| >= 4 && LevelsPresent(cache, hier, memCase)
      modifies this
      ensures Snapshot() == CachesSet(old(Snapshot()), args, tables, hier, cache, memCase)
    {
      ghost var f0 := flags;
      SetL1(args, tables, hier, cache, memCase);
      ghost var f1 := flags;
      SetL2(args, tables, hier, cache, memCase);
      ghost var f2 := flags;
      SetL3(args, tables, hier, cache, memCase);
      assert flags == f2 + L3Flags(args, hier) && f2 == f1 + L2Flags(args) && f1 == f0 + ["hwp-override", "caches"];
      assert flags == f0 + DetailedFlags(args, hier);
    }

    /** The first-level caches: data cache, then instruction cache. */
    method SetL1(args: Args, tables: SimTables, hier: seq<string>,
                 cache: map<string, map<string, seq<CacheLevel>>>, memCase: string)
      requires |hier| >= 4 && LevelsPresent(cache, hier, memCase)
      modifies this
      ensures Snapshot() == old(Snapshot()).(flags := old(flags) + ["hwp-override", "caches"],
        params := L1Params(old(params), args, tables, hier, cache, memCase, AsWrittenRows))
    {
      flags := flags + ["hwp-override", "caches"];
      SetHwpParams("l1d", PrefetcherOf(tables, args.l1dHwp));
      SetCacheParams("l1d", Level(cache, hier, memCase, AsWrittenRows.data).value);
      SetHwpParams("l1i", PrefetcherOf(tables, args.l1iHwp));
      SetCacheParams("l1i", Level(cache, hier, memCase, AsWrittenRows.inst).value);
    }

    /** The second level, with its banks when the count is truthy. */
    method SetL2(args: Args, tables: SimTables, hier: seq<string>,
                 cache: map<string, map<string, seq<CacheLevel>>>, memCase: string)
      requires |hier| >= 4 && LevelsPresent(cache, hier, memCase)
      modifies this
      ensures Snapshot() == old(Snapshot()).(flags := old(flags) + L2Flags(args),
        params := L2Params(old(params), args, tables, hier, cache, memCase))
    {
      flags := flags + ["l2cache"];
      SetBanks("l2-enable-banks", "l2-num-banks", args.l2Banks);
      SetHwpParams("l2", PrefetcherOf(tables, args.l2Hwp));
      SetCacheParams("l2", Level(cache, hier, memCase, 2).value);
    }

    /** The third level when the hierarchy has one, with its banks when the
        count is truthy. */
    method SetL3(args: Args, tables: SimTables, hier: seq<string>,
                 cache: map<string, map<string, seq<CacheLevel>>>, memCase: string)
      requires |hier| >= 4 && LevelsPresent(cache, hier, memCase)
      modifies this
      ensures Snapshot() == old(Snapshot()).(flags := old(flags) + L3Flags(args, hier),
        params := L3Params(old(params), args, tables, hier, cache, memCase))
    {
      if HasL3(hier) {
        flags := flags + ["l3cache"];
        SetBanks("l3-enable-banks", "l3-num-banks", args.l3Banks);
        SetHwpParams("l3", PrefetcherOf(tables, args.l3Hwp));
        SetCacheParams("l3", Level(cache, hier, memCase, 3).value);
      }
    }

    /** The bank flag and count of a level, when the count is truthy. */
    method SetBanks(flag: string, key: string, banks: int)
      modifies this
      ensures Snapshot() == old(Snapshot()).(flags := old(flags) + (if banks != 0 then [flag] else []),
                                             params := BankParam(old(params), key, banks))
    {
      if banks != 0 {
        flags := flags + [flag];
        params := params[key := N(banks)];
      }
    }

    /** The four prefetcher parameters of one cache, each through
        `add_if_valid`. */
    method SetHwpParams(prefix: string, hwp: Option<Prefetcher>)
      modifies this
      ensures Snapshot() == old(Snapshot()).(params := HwpParams(old(params), prefix, hwp))
    {
      match hwp {
        case None =>
        case Some(h) =>
          AddIfValid(Key(prefix, "-hwp-type"), S(h.hwpType));
          AddIfValid(Key(prefix, "-hwp-deg"), N(h.degree));
          AddIfValid(Key(prefix, "-hwp-lat"), N(h.latency));
          AddIfValid(Key(prefix, "-hwp-qs"), N(h.queueSize));
      }
    }

    /** The six parameters of one cache level. */
    method SetCacheParams(prefix: string, c: CacheLevel)
      modifies this
      ensures Snapshot() == old(Snapshot()).(params := CacheParams(old(params), prefix, c))
    {
      params := params[Key(prefix, "-data-lat") := N(c.dataLat)];
      params := params[Key(prefix, "-write-lat") := N(c.writeLat)];
      params := params[Key(prefix, "-tag-lat") := N(c.tagLat)];
      params := params[Key(prefix, "-resp-lat") := N(c.respLat)];
      params := params[Key(prefix, "_size") := S(c.size)];
      params := params[Key(prefix, "_assoc") := N(c.assoc)];
    }

    /** `generateCommand(args)`: the checks, the fallback on se.py (kept
        even when the file then turns out to be missing) and the text of
        the command. `files` are the files that exist. */
    method GenerateCommand(args: Args, files: set<string>) returns (r: Result<string, SimError>)
      modifies this
      ensures r == Generated(old(Snapshot()), args, files)
      ensures Snapshot() == old(Snapshot()).(cfgPath := ConfigAfter(old(Snapshot()), args))
    {
      if Dummy(kind) {
        return Err(NotSupported);
      }
      if binPath == "" {
        return Err(NoSimulator);
      }
      if !envPrep {
        return Err(NotPrepared);
      }
      if cfgPath == "" {
        cfgPath := DefaultConfig(args);
      }
      if cfgPath !in files {
        return Err(MissingConfig(cfgPath));
      }
      var command := binPath + " --outdir=" + outPath + " ";
      command := AppendDebug(command, debugFlags);
      command := command + cfgPath + " ";
      command := AppendFlags(command, Sort(flags));
      command := AppendParams(command, SortedSet(params.Keys), params);
      return Ok(command);
    }

    /** The base `prepareEnvironment` (the folder preparation aside). */
    method BasePrepare() returns (r: Result<(string, string), SimError>)
      modifies this
      ensures (Snapshot(), r) == BasePrepared(old(Snapshot()))
    {
      if |workloads| == 0 {
        return Err(NoWorkload);
      }
      var tmp := JoinAll([outPath, "tmp"]);
      var log := LogPath(Snapshot());
      envPrep := true;
      return Ok((tmp, log));
    }

    /** `prepareEnvironment(benchsuite, args)` of every class but
        `CptSimulation` and `TraceReplay`; `spIndex` and `lines` are the
        heaviest simpoint and the simpoint file `TraceGeneration` reads. */
    method PrepareEnvironment(args: Args, spIndex: string, lines: seq<SimpointLine>) returns (r: Result<(string, string), SimError>)
      requires kind != CptSimulation && kind != TraceReplay
      modifies this
      ensures (Snapshot(), r) == EnvPrepared(old(Snapshot()), args, spIndex, lines)
    {
      if kind == TraceGeneration {
        r := PrepareTrace(args, spIndex, lines);
        return;
      }
      var st := Snapshot();
      r := BasePrepare();
      if kind == CptGeneration && r.Ok? {
        params := params["take-simpoint-checkpoint" := S(TakeCheckpoint(st, args))];
      }
    }

    /** `TraceGeneration.prepareEnvironment`. */
    method PrepareTrace(args: Args, spIndex: string, lines: seq<SimpointLine>) returns (r: Result<(string, string), SimError>)
      modifies this
      ensures (Snapshot(), r) == TracePrepared(old(Snapshot()), args, spIndex, lines)
    {
      if |workloads| == 0 {
        return Err(NoWorkload);
      }
      if detConf.None? {
        return Err(NoDetailedConf);
      }
      if !detConf.value.model.outOfOrder {
        return Err(NotOutOfOrder(detConf.value.model.core));
      }
      if prereqDir != "" {
        var bbv := FindSimpoint(lines, spIndex);
        if bbv.None? || bbv.value == 0 {
          return Err(InvalidSimpoint);
        }
        var offset := HalfTowardZero(args.traceInsts);
        var ff := bbv.value * args.intSize - offset;
        if ff < args.traceSkip {
          ff := args.traceSkip;
        }
        params := params["fast-forward" := N(ff)];
      }
      r := BasePrepare();
    }

    /** `CptSimulation.prepareEnvironment(benchsuite, args)`: `names` lists
        the data directory. */
    method PrepareCheckpoints(args: Args, names: seq<string>) returns (r: Result<seq<(string, string)>, SimError>)
      requires kind == CptSimulation
      modifies this
      ensures (Snapshot(), r) == CptPrepared(old(Snapshot()), names, args.cpts)
    {
      if |workloads| == 0 {
        return Err(NoWorkload);
      }
      var folders := Folders(names);
      if |folders| == 0 {
        return Err(NoCheckpoints);
      }
      var plan := Plan(folders, args.cpts);
      if plan.None? {
        return Err(BadCheckpointName);
      }
      var info, paths := RecordCheckpoints(outPath, wlId, plan.value);
      CptPreparedOk(Snapshot(), names, args.cpts);
      CommitCheckpoints(info);
      return Ok(paths);
    }

    /** `CptSimulation.generateCommand(args)`: one command per recorded
        checkpoint, each in the checkpoint's output folder and restoring it.
        Before the preparation there is no `cpt_info` to read. */
    method CptGenerateCommands(args: Args, files: set<string>) returns (r: Result<seq<string>, SimError>)
      requires kind == CptSimulation
      modifies this
      ensures old(cptInfo).None? ==> r == Err(NoCheckpointList) && Snapshot() == old(Snapshot())
      ensures old(cptInfo).Some? ==>
        var run := CptRun(old(Snapshot()), args, files, old(cptInfo).value);
        Snapshot() == run.0 && r == if run.2.Some? then Err(run.2.value) else Ok(run.1)
    {
      if cptInfo.None? {
        return Err(NoCheckpointList);
      }
      var info := cptInfo.value;
      ghost var st := Snapshot();
      var cmds: seq<string> := [];
      var i := 0;
      while i < |info|
        invariant 0 <= i <= |info|
        invariant (Snapshot(), cmds, None) == CptRun(st, args, files, info[..i])
      {
        CptRunStep(st, args, files, info, i);
        var c := CptRound(args, files, info[i]);
        if c.Err? {
          CptRunStops(st, args, files, info, i + 1);
          return Err(c.error);
        }
        cmds := cmds + [c.value];
        i := i + 1;
      }
      assert info[..|info|] == info;
      return Ok(cmds);
    }

    /** One round of the loop of `CptSimulation.generateCommand`. */
    method CptRound(args: Args, files: set<string>, e: (int, string)) returns (c: Result<string, SimError>)
      modifies this
      ensures (Snapshot(), c) == CptStep(old(Snapshot()), args, files, e)
    {
      outPath := e.1;
      var err := SetOutputParam();
      if err.Some? {
        return Err(err.value);
      }
      params := params["checkpoint-restore" := N(e.0)];
      c := GenerateCommand(args, files);
    }

    /** The end of `CptSimulation.prepareEnvironment`: the selection, the
        restore flag, the checkpoint directory, the object prepared. */
    method CommitCheckpoints(info: seq<(int, string)>)
      modifies this
      ensures Snapshot() == old(Snapshot()).(cptInfo := Some(info), flags := old(flags) + ["restore-simpoint-checkpoint"],
                                             params := old(params)["checkpoint-dir" := S(dataPath)], envPrep := true)
    {
      cptInfo := Some(info);
      flags := flags + ["restore-simpoint-checkpoint"];
      params := params["checkpoint-dir" := S(dataPath)];
      envPrep := true;
    }
  }
}
