/** The command and parameter helpers of bench5.py: `cmd_join` (and the
    `shlex.split` it is meant to invert), the benchmark-list lookups
    `get_ss_params` and `get_params`, the operation and benchmark checks of
    `main`, and the instance list of `detailed_sim`. */
module Bench {
  import opened Wrappers
  import opened Strings
  import opened Paths

  // ---------------------------------------------------------------------
  // cmd_join and shlex.split

  /** One argument as `cmd_join` writes it: in single quotes when it holds a
      space, and followed by a space either way. */
  function Rendered(param: string): string
  {
    if ' ' in param then "'" + param + "' " else param + " "
  }

  /** The text `cmd_join` builds from an argument list. */
  function RenderedAll(params: seq<string>): string
    decreases |params|
  {
    if |params| == 0 then "" else Rendered(params[0]) + RenderedAll(params[1..])
  }

  /** `cmd_join(split_cmd)`: the loop that appends each rendered argument. */
  method CmdJoin(splitCmd: seq<string>) returns (cmd: string)
    ensures cmd == RenderedAll(splitCmd)
  {
    cmd := "";
    var i := 0;
    while i < |splitCmd|
      invariant 0 <= i <= |splitCmd|
      invariant cmd + RenderedAll(splitCmd[i..]) == RenderedAll(splitCmd)
    {
      assert splitCmd[i..][1..] == splitCmd[i + 1..];
      var piece := Rendered(splitCmd[i]);
      assert RenderedAll(splitCmd[i..]) == piece + RenderedAll(splitCmd[i + 1..]);
      assert (cmd + piece) + RenderedAll(splitCmd[i + 1..]) == cmd + (piece + RenderedAll(splitCmd[i + 1..]));
      cmd := cmd + piece;
      i := i + 1;
    }
    assert splitCmd[i..] == [];
  }

  /** Characters that `shlex` treats specially beyond the space and the single
      quote; the lexer below is a model of `shlex.split` on text free of them. */
  predicate ShellSafe(c: char)
  {
    c != '"' && c != '\\' && c != '\t' && c != '\n' && c != '\r'
  }

  /** An argument `cmd_join` can carry: not empty, no single quote, and none of
      the other characters `shlex` would interpret. */
  predicate Carried(p: string)
  {
    |p| > 0 && '\'' !in p && forall i :: 0 <= i < |p| ==> ShellSafe(p[i])
  }

  function Prefixed(words: seq<string>, rest: Option<seq<string>>): Option<seq<string>>
  {
    match rest
    case None => None
    case Some(ws) => Some(words + ws)
  }

  /** POSIX-mode `shlex.split` over spaces and single quotes. `word` is the
      token read so far, `inWord` whether a token has started (an empty pair
      of quotes starts one), `quoted` whether the reader is inside quotes. An
      unclosed quote is the `ValueError` "No closing quotation", here None. */
  function Lex(s: string, word: string, inWord: bool, quoted: bool): Option<seq<string>>
    decreases |s|
  {
    if |s| == 0 then
      if quoted then None else Some(if inWord then [word] else [])
    else if quoted then
      if s[0] == '\'' then Lex(s[1..], word, true, false)
      else Lex(s[1..], word + [s[0]], true, true)
    else if s[0] == ' ' then
      Prefixed(if inWord then [word] else [], Lex(s[1..], "", false, false))
    else if s[0] == '\'' then Lex(s[1..], word, true, true)
    else Lex(s[1..], word + [s[0]], true, false)
  }

  function ShlexSplit(s: string): Option<seq<string>>
  {
    Lex(s, "", false, false)
  }

  /** Reading characters that are neither a space nor a quote extends the
      current token. */
  lemma {:induction false} LexPlain(w: string, rest: string, word: string, inWord: bool)
    requires ' ' !in w && '\'' !in w
    ensures Lex(w + rest, word, inWord, false) == Lex(rest, word + w, inWord || |w| > 0, false)
    decreases |w|
  {
    if |w| > 0 {
      assert (w + rest)[0] == w[0];
      assert (w + rest)[1..] == w[1..] + rest;
      assert w[0] in w;
      LexPlain(w[1..], rest, word + [w[0]], true);
      assert word + [w[0]] + w[1..] == word + w;
    } else {
      assert w + rest == rest;
      assert word + w == word;
    }
  }

  /** Inside quotes, every character but the quote joins the token. */
  lemma {:induction false} LexQuoted(q: string, rest: string, word: string)
    requires '\'' !in q
    ensures Lex(q + rest, word, true, true) == Lex(rest, word + q, true, true)
    decreases |q|
  {
    if |q| > 0 {
      assert (q + rest)[0] == q[0];
      assert (q + rest)[1..] == q[1..] + rest;
      assert q[0] in q;
      LexQuoted(q[1..], rest, word + [q[0]]);
      assert word + [q[0]] + q[1..] == word + q;
    } else {
      assert q + rest == rest;
      assert word + q == word;
    }
  }

  /** One rendered argument lexes back to itself, whatever follows it. */
  lemma LexRendered(p: string, rest: string)
    requires Carried(p)
    ensures Lex(Rendered(p) + rest, "", false, false) == Prefixed([p], Lex(rest, "", false, false))
  {
    if ' ' in p {
      var s := "'" + p + "' " + rest;
      assert s[0] == '\'' && s[1..] == p + ("' " + rest);
      LexQuoted(p, "' " + rest, "");
      var t := "' " + rest;
      assert t[0] == '\'' && t[1..] == " " + rest;
      var u := " " + rest;
      assert u[0] == ' ' && u[1..] == rest;
      assert "" + p == p;
    } else {
      assert p + " " + rest == p + (" " + rest);
      LexPlain(p, " " + rest, "", false);
      var u := " " + rest;
      assert u[0] == ' ' && u[1..] == rest;
      assert "" + p == p;
    }
  }

  /** `shlex.split(cmd_join(args)) == args` for every list of carried
      arguments: the dry-run printout reproduces the spawned command. */
  lemma {:induction false} CmdJoinRoundTrip(params: seq<string>)
    requires forall i :: 0 <= i < |params| ==> Carried(params[i])
    ensures ShlexSplit(RenderedAll(params)) == Some(params)
    decreases |params|
  {
    if |params| > 0 {
      CmdJoinRoundTrip(params[1..]);
      LexRendered(params[0], RenderedAll(params[1..]));
      assert [params[0]] + params[1..] == params;
    }
  }

  /** An empty argument does not survive: `cmd_join([""])` is a lone space. */
  lemma CmdJoinDropsEmpty()
    ensures ShlexSplit(RenderedAll([""])) == Some([])
  {
    assert [""][1..] == [];
    assert Rendered("") == " ";
    assert RenderedAll([""]) == " " + "";
    assert " "[1..] == "";
    var none: seq<string> := [];
    assert Lex(" ", "", false, false) == Prefixed(none, Lex("", "", false, false));
    assert none + none == none;
  }

  // ---------------------------------------------------------------------
  // Benchmark lists

  /** A value of the `params`, `input` or `preprocessing` tables: a string or
      a tuple of strings. (Python's `("x")` is the string `x`.) */
  datatype Entry = Str(s: string) | Tup(items: seq<string>)

  /** The module-level tables of a benchmark list. Every dictionary keeps its
      Python key order where it matters. `benchGroups` is None for a list that
      defines no `bench_groups`. */
  datatype Suite = Suite(
    benchmarks: seq<string>,
    exeName: map<string, string>,
    preprocessing: map<string, Entry>,
    memSize: map<string, map<string, string>>,
    subset: map<string, map<string, seq<string>>>,
    params: map<string, map<string, Entry>>,
    input: map<string, map<string, Entry>>,
    benchGroups: Option<map<string, seq<string>>>)

  /** One element of the list `get_ss_params` returns: the subset name and
      the workload's parameters and input file. */
  datatype SubsetArgs = SubsetArgs(subset: string, params: Entry, input: Entry)

  datatype SsError = UnknownSet | IndexError

  /** `table.get(b_name, "")`. */
  function EntryOf(table: map<string, Entry>, bName: string): (r: Entry)
    ensures bName in table ==> r == table[bName]
    ensures bName !in table ==> r == Str("")
  {
    if bName in table then table[bName] else Str("")
  }

  /** Position `i` of a table value as `get_ss_params` reads it: the item of a
      tuple, the empty string for a plain string. None is the `IndexError` of a
      short tuple. */
  function Pick(e: Entry, i: nat): Option<string>
  {
    match e
    case Str(_) => Some("")
    case Tup(items) => if i < |items| then Some(items[i]) else None
  }

  /** Every position below `n` can be read from both values. */
  predicate Covers(params: Entry, input: Entry, n: nat)
  {
    forall i :: 0 <= i < n ==> Pick(params, i).Some? && Pick(input, i).Some?
  }

  /** The value the loop of `get_ss_params` produces for position `i`. */
  function SubsetArg(subsets: seq<string>, bSet: string, params: Entry, input: Entry, i: nat): SubsetArgs
    requires i < |subsets| && Pick(params, i).Some? && Pick(input, i).Some?
  {
    SubsetArgs(subsets[i] + "_" + bSet, Str(Pick(params, i).value), Str(Pick(input, i).value))
  }

  /** `get_ss_params(b_name, b_set)`. A set missing from any of the three
      tables is the "couldn't find benchmark set" exit. A benchmark with
      subsets gets one entry per subset, named `subset_set`, with the
      positional parameters and input (or "" when the table holds a plain
      string); a short tuple raises `IndexError`. Any other benchmark gets the
      single entry `(bSet, params, input)` with the table values as they are. */
  method GetSsParams(suite: Suite, bName: string, bSet: string) returns (r: Result<seq<SubsetArgs>, SsError>)
    ensures r == Err(UnknownSet) <==> bSet !in suite.subset || bSet !in suite.params || bSet !in suite.input
    ensures r.Err? && r != Err(UnknownSet) ==> r == Err(IndexError)
    ensures r.Ok? ==>
      var params := EntryOf(suite.params[bSet], bName);
      var input := EntryOf(suite.input[bSet], bName);
      if bName in suite.subset[bSet] then
        var subsets := suite.subset[bSet][bName];
        Covers(params, input, |subsets|) && |r.value| == |subsets| &&
        forall i :: 0 <= i < |subsets| ==> r.value[i] == SubsetArg(subsets, bSet, params, input, i)
      else r.value == [SubsetArgs(bSet, params, input)]
    ensures r == Err(IndexError) ==>
      bSet in suite.subset && bSet in suite.params && bSet in suite.input &&
      bName in suite.subset[bSet] &&
      var params := EntryOf(suite.params[bSet], bName);
      var input := EntryOf(suite.input[bSet], bName);
      !Covers(params, input, |suite.subset[bSet][bName]|)
  {
    if bSet !in suite.subset || bSet !in suite.params || bSet !in suite.input {
      return Err(UnknownSet);
    }
    var params := EntryOf(suite.params[bSet], bName);
    var input := EntryOf(suite.input[bSet], bName);
    if bName !in suite.subset[bSet] {
      return Ok([SubsetArgs(bSet, params, input)]);
    }
    var subsets := suite.subset[bSet][bName];
    var arguments: seq<SubsetArgs> := [];
    var i := 0;
    while i < |subsets|
      invariant 0 <= i <= |subsets|
      invariant Covers(params, input, i)
      invariant |arguments| == i
      invariant forall j :: 0 <= j < i ==> arguments[j] == SubsetArg(subsets, bSet, params, input, j)
    {
      var p := Pick(params, i);
      var q := Pick(input, i);
      if p.None? || q.None? {
        return Err(IndexError);
      }
      arguments := arguments + [SubsetArgs(subsets[i] + "_" + bSet, Str(p.value), Str(q.value))];
      i := i + 1;
    }
    return Ok(arguments);
  }

  /** Tuples of `params` and `input` are exactly as long as the subset list
      of their benchmark, and only benchmarks with subsets have tuples. This
      is what the positional reading of `get_ss_params` relies on. */
  predicate WellFormedSet(subsets: map<string, seq<string>>, table: map<string, Entry>)
  {
    forall b :: b in table && table[b].Tup? ==> b in subsets && |table[b].items| == |subsets[b]|
  }

  /** On well-formed tables `get_ss_params` never raises `IndexError`, and
      the entries of a benchmark without subsets are plain strings. */
  lemma WellFormedCovers(subsets: map<string, seq<string>>, params: map<string, Entry>, input: map<string, Entry>, bName: string)
    requires WellFormedSet(subsets, params) && WellFormedSet(subsets, input)
    ensures bName in subsets ==> Covers(EntryOf(params, bName), EntryOf(input, bName), |subsets[bName]|)
    ensures bName !in subsets ==> EntryOf(params, bName).Str? && EntryOf(input, bName).Str?
  {
  }

  // ---------------------------------------------------------------------
  // get_params

  /** The general parameters of one benchmark: executable name, the raw
      `preprocessing` table value, and the memory size. */
  datatype BenchParams = BenchParams(exe: string, preproc: Entry, memSize: string)

  /** The failures of `get_params`: its two assertions and the `IndexError`
      of `b_spl[1]` on a name without a dot. */
  datatype ParamsError = NotFound(bName: string) | NoExecutable(folder: string) | NoDot

  const DefaultMemSize := "2GB"

  /** The executable name: the table's name if it has one, else the second
      dot-separated piece of the benchmark name ("b" for "a.b.c"); then
      `_base.` and the arch. */
  function ExeName(suite: Suite, bName: string, arch: string): (r: Option<string>)
    ensures bName in suite.exeName ==> r == Some(suite.exeName[bName] + "_base." + arch)
    ensures bName !in suite.exeName ==> (r.None? <==> '.' !in bName)
    ensures bName !in suite.exeName && '.' in bName ==>
      |Split(bName, '.')| >= 2 && r == Some(Split(bName, '.')[1] + "_base." + arch)
  {
    if bName in suite.exeName then Some(suite.exeName[bName] + "_base." + arch)
    else
      var spl := Split(bName, '.');
      SplitNoSeparatorIff(bName, '.');
      if |spl| < 2 then None else Some(spl[1] + "_base." + arch)
  }

  /** The memory size `get_params` selects: the set's `mem_size` entry for
      the benchmark when there is a non-empty one, "2GB" otherwise. */
  function MemSize(memSize: map<string, map<string, string>>, bName: string, bSet: string): (r: string)
    ensures r == DefaultMemSize || (bSet in memSize && bName in memSize[bSet] && r == memSize[bSet][bName])
    ensures r != ""
    ensures bSet in memSize && bName in memSize[bSet] && memSize[bSet][bName] == "" ==> r == DefaultMemSize
    ensures r != DefaultMemSize && r != "" <==>
      bSet in memSize && bName in memSize[bSet] &&
      memSize[bSet][bName] != "" && memSize[bSet][bName] != DefaultMemSize
  {
    if bSet in memSize && bName in memSize[bSet] && memSize[bSet][bName] != ""
    then memSize[bSet][bName]
    else DefaultMemSize
  }

  /** `get_params(args, b_name)`. The benchmark folder `spec_dir/b_name` must
      be a directory and `spec_dir/b_name/exe/<exe>` a file; `dirs` and
      `files` are the directories and files that exist. */
  function GetParams(suite: Suite, specDir: string, bName: string, arch: string, bSet: string,
                     dirs: set<string>, files: set<string>): (r: Result<BenchParams, ParamsError>)
    ensures r == Err(NotFound(bName)) <==> PathJoin(specDir, bName) !in dirs
    ensures r == Err(NoDot) <==> PathJoin(specDir, bName) in dirs && ExeName(suite, bName, arch).None?
    ensures r.Ok? <==>
      PathJoin(specDir, bName) in dirs && ExeName(suite, bName, arch).Some? &&
      PathJoin(PathJoin(PathJoin(specDir, bName), "exe"), ExeName(suite, bName, arch).value) in files
    ensures r.Ok? ==>
      r.value.exe == ExeName(suite, bName, arch).value &&
      r.value.preproc == (if bName in suite.preprocessing then suite.preprocessing[bName] else Str("")) &&
      r.value.memSize == MemSize(suite.memSize, bName, bSet)
  {
    if PathJoin(specDir, bName) !in dirs then Err(NotFound(bName))
    else match ExeName(suite, bName, arch)
      case None => Err(NoDot)
      case Some(exe) =>
        var folder := PathJoin(PathJoin(specDir, bName), "exe");
        if PathJoin(folder, exe) !in files then Err(NoExecutable(folder))
        else
          var preproc := if bName in suite.preprocessing then suite.preprocessing[bName] else Str("");
          Ok(BenchParams(exe, preproc, MemSize(suite.memSize, bName, bSet)))
  }

  // ---------------------------------------------------------------------
  // The checks of main

  /** The operations in the order `main` runs them. */
  const Operations: seq<string> := ["bbv_gen", "sp_gen", "cpt_gen", "cpt_sim",
                                    "trc_gen", "trc_sim", "full_sim", "profile"]

  datatype OpsVerdict = Accepted | NoOperation | NotConsecutive

  /** The check of the selected operations: at least one must be selected,
      and three patterns over the first four (bbv, simpoints, checkpoints,
      execute) are refused. */
  function CheckOps(bools: seq<bool>): (r: OpsVerdict)
    requires |bools| == |Operations|
  {
    if true !in bools then NoOperation
    else if (bools[1] && !bools[2] && bools[3]) ||
            (bools[0] && !bools[1] && bools[2]) ||
            (bools[0] && !bools[1] && bools[3]) then NotConsecutive
    else Accepted
  }

  /** Some unselected operation lies between two selected ones among the
      first four. */
  predicate HasGap(bools: seq<bool>)
    requires |bools| >= 4
  {
    exists i, j, k :: 0 <= i < j < k < 4 && bools[i] && !bools[j] && bools[k]
  }

  /** The three patterns are exactly the gaps: a selection passes the check
      iff it is non-empty and the simpoint-related operations it holds are
      consecutive. */
  lemma CheckOpsIsGapTest(bools: seq<bool>)
    requires |bools| == |Operations|
    ensures CheckOps(bools) == NoOperation <==> forall i :: 0 <= i < |bools| ==> !bools[i]
    ensures CheckOps(bools) == NotConsecutive <==> true in bools && HasGap(bools)
    ensures CheckOps(bools) == Accepted <==> true in bools && !HasGap(bools)
  {
    if bools[1] && !bools[2] && bools[3] { assert bools[1] && !bools[2] && bools[3]; }
    if bools[0] && !bools[1] && bools[2] { assert bools[0] && !bools[1] && bools[2]; }
    if bools[0] && !bools[1] && bools[3] { assert bools[0] && !bools[1] && bools[3]; }
    if true in bools {
      var n :| 0 <= n < |bools| && bools[n];
    }
  }

  /** A command-line name matches a listed benchmark when it is the full
      name or the part before the first dot ("401" for "401.bzip2"). */
  predicate NameMatches(name: string, listed: string)
  {
    name == listed || name == Split(listed, '.')[0]
  }

  /** The first listed benchmark the name matches. */
  function FirstMatching(name: string, listed: seq<string>): (r: Option<string>)
    ensures r.None? <==> forall j :: 0 <= j < |listed| ==> !NameMatches(name, listed[j])
    ensures r.Some? ==> exists j :: 0 <= j < |listed| && listed[j] == r.value && NameMatches(name, listed[j]) &&
                          forall l :: 0 <= l < j ==> !NameMatches(name, listed[l])
    decreases |listed|
  {
    if |listed| == 0 then None
    else if NameMatches(name, listed[0]) then
      Some(listed[0])
    else
      var rest := FirstMatching(name, listed[1..]);
      assert forall j :: 1 <= j < |listed| ==> listed[j] == listed[1..][j - 1];
      if rest.Some? then
        var j :| 0 <= j < |listed[1..]| && listed[1..][j] == rest.value && NameMatches(name, listed[1..][j]) &&
                 forall l :: 0 <= l < j ==> !NameMatches(name, listed[1..][l]);
        assert listed[j + 1] == rest.value;
        rest
      else rest
  }

  /** The inner `for bl_bench in benchlist.benchmarks` loop with its
      `break`. */
  method Lookup(name: string, listed: seq<string>) returns (found: Option<string>)
    ensures found == FirstMatching(name, listed)
  {
    var j := 0;
    while j < |listed|
      invariant 0 <= j <= |listed|
      invariant FirstMatching(name, listed) == FirstMatching(name, listed[j..])
    {
      assert listed[j..][1..] == listed[j + 1..];
      if NameMatches(name, listed[j]) {
        return Some(listed[j]);
      }
      j := j + 1;
    }
    return None;
  }

  /** The benchmark check of `main`: every name is replaced by the first
      listed benchmark it matches; the first name matching none is the
      "unknown benchmark" exit. */
  method ResolveBenchmarks(names: seq<string>, listed: seq<string>) returns (r: Result<seq<string>, string>)
    ensures r.Ok? <==> forall i :: 0 <= i < |names| ==> FirstMatching(names[i], listed).Some?
    ensures r.Ok? ==> (|r.value| == |names| &&
      forall i :: 0 <= i < |names| ==> Some(r.value[i]) == FirstMatching(names[i], listed))
    ensures r.Err? ==>
      exists k :: 0 <= k < |names| && r.error == names[k] && FirstMatching(names[k], listed).None? &&
                  forall i :: 0 <= i < k ==> FirstMatching(names[i], listed).Some?
  {
    var resolved: seq<string> := [];
    var i := 0;
    while i < |names|
      invariant 0 <= i <= |names| && |resolved| == i
      invariant forall j :: 0 <= j < i ==> Some(resolved[j]) == FirstMatching(names[j], listed)
    {
      var found := Lookup(names[i], listed);
      if found.None? {
        return Err(names[i]);
      }
      resolved := resolved + [found.value];
      i := i + 1;
    }
    return Ok(resolved);
  }

  datatype GroupError = NoGroupsTable

  /** The group expansion of `main` as written: a single name that is a key
      of `bench_groups` stands for that group. The lookup of `bench_groups`
      happens whenever exactly one name is given, so it fails on a list that
      has no such table. */
  function ExpandGroupsAsWritten(names: seq<string>, groups: Option<map<string, seq<string>>>): (r: Result<seq<string>, GroupError>)
    ensures |names| != 1 ==> r == Ok(names)
    ensures |names| == 1 && groups.None? ==> r == Err(NoGroupsTable)
  {
    if |names| != 1 then Ok(names)
    else match groups
      case None => Err(NoGroupsTable)
      case Some(g) => Ok(if names[0] in g then g[names[0]] else names)
  }

  /** A single benchmark named on the command line stops the run when the list
      defines no `bench_groups`. */
  lemma SingleBenchmarkWithoutGroups(name: string)
    ensures ExpandGroupsAsWritten([name], None).Err?
  {
  }

  /** The evidently intended expansion: a list without groups has no names to
      expand. */
  function ExpandGroups(names: seq<string>, groups: Option<map<string, seq<string>>>): (r: seq<string>)
    ensures groups.None? ==> r == names
    ensures |names| == 1 && groups.Some? && names[0] in groups.value ==> r == groups.value[names[0]]
    ensures !(|names| == 1 && groups.Some? && names[0] in groups.value) ==> r == names
  {
    if |names| == 1 && groups.Some? && names[0] in groups.value then groups.value[names[0]] else names
  }

  /** Where the written lookup succeeds it agrees with the intended one, and
      only a missing table tells them apart. */
  lemma ExpandGroupsAgrees(names: seq<string>, groups: Option<map<string, seq<string>>>)
    ensures ExpandGroupsAsWritten(names, groups).Ok? ==> ExpandGroupsAsWritten(names, groups).value == ExpandGroups(names, groups)
    ensures ExpandGroupsAsWritten(names, groups).Err? <==> |names| == 1 && groups.None?
  {
  }

  // ---------------------------------------------------------------------
  // detailed_sim instances

  /** A CPU model of `simparams.cpu_models[arch]`: its name and its tuple. */
  datatype CpuModel = CpuModel(name: string, core: string, config: string, voltage: string, freq: string, outOfOrder: bool)

  /** One `(model, tech, case)` triple of `detailed_sim`. */
  datatype Instance = Instance(model: CpuModel, tech: string, memCase: string)

  /** A lookup with the "default" key as fallback, as `d.get(k, d.get("default"))`. */
  function WithDefault(table: map<string, seq<string>>, key: string): (r: Option<seq<string>>)
    ensures key in table ==> r == Some(table[key])
    ensures key !in table ==> r == Get(table, "default")
  {
    if key in table then Some(table[key]) else Get(table, "default")
  }

  /** The cases of one technology for one model, in order. */
  function CaseInstances(model: CpuModel, tech: string, cases: seq<string>): seq<Instance>
  {
    seq(|cases|, i requires 0 <= i < |cases| => Instance(model, tech, cases[i]))
  }

  /** The instances of one model: for each of its technologies, that
      technology's cases. None is the `TypeError` of iterating `None` when a
      technology has neither cases nor a default. */
  function TechInstances(model: CpuModel, techs: seq<string>, memCases: map<string, seq<string>>): Option<seq<Instance>>
    decreases |techs|
  {
    if |techs| == 0 then Some([])
    else match WithDefault(memCases, techs[0])
      case None => None
      case Some(cases) =>
        match TechInstances(model, techs[1..], memCases)
        case None => None
        case Some(rest) => Some(CaseInstances(model, techs[0], cases) + rest)
  }

  /** The comprehension of `detailed_sim`: every model, with its memory
      technologies (its own keys or the default ones), with their cases;
      in trace generation, each model once with empty technology and case. */
  function Instances(cpu: seq<CpuModel>, memTech: map<string, seq<string>>, memCases: map<string, seq<string>>,
                     traceGen: bool): Option<seq<Instance>>
    decreases |cpu|
  {
    if traceGen then Some(seq(|cpu|, i requires 0 <= i < |cpu| => Instance(cpu[i], "", "")))
    else if |cpu| == 0 then Some([])
    else match WithDefault(memTech, cpu[0].name)
      case None => None
      case Some(techs) =>
        match TechInstances(cpu[0], techs, memCases)
        case None => None
        case Some(first) =>
          match Instances(cpu[1..], memTech, memCases, false)
          case None => None
          case Some(rest) => Some(first + rest)
  }

  /** A triple the comprehension yields for one model. */
  predicate TechYields(model: CpuModel, techs: seq<string>, memCases: map<string, seq<string>>, x: Instance)
  {
    x.model == model &&
    exists t :: 0 <= t < |techs| && techs[t] == x.tech && WithDefault(memCases, techs[t]).Some? &&
                x.memCase in WithDefault(memCases, techs[t]).value
  }

  predicate TechsDefined(techs: seq<string>, memCases: map<string, seq<string>>)
  {
    forall t :: 0 <= t < |techs| ==> WithDefault(memCases, techs[t]).Some?
  }

  lemma {:induction false} TechInstancesMembers(model: CpuModel, techs: seq<string>, memCases: map<string, seq<string>>)
    ensures TechInstances(model, techs, memCases).Some? <==> TechsDefined(techs, memCases)
    ensures TechInstances(model, techs, memCases).Some? ==>
      forall x :: x in TechInstances(model, techs, memCases).value <==> TechYields(model, techs, memCases, x)
    decreases |techs|
  {
    if |techs| > 0 {
      TechInstancesMembers(model, techs[1..], memCases);
      assert forall t :: 1 <= t < |techs| ==> techs[t] == techs[1..][t - 1];
      if TechInstances(model, techs, memCases).Some? {
        var cases := WithDefault(memCases, techs[0]).value;
        var rest := TechInstances(model, techs[1..], memCases).value;
        assert TechInstances(model, techs, memCases).value == CaseInstances(model, techs[0], cases) + rest;
        forall x
          ensures x in TechInstances(model, techs, memCases).value <==> TechYields(model, techs, memCases, x)
        {
          if x in CaseInstances(model, techs[0], cases) {
            var k :| 0 <= k < |cases| && CaseInstances(model, techs[0], cases)[k] == x;
            assert cases[k] == x.memCase;
          }
          if x.model == model && x.tech == techs[0] && x.memCase in cases {
            var k :| 0 <= k < |cases| && cases[k] == x.memCase;
            assert CaseInstances(model, techs[0], cases)[k] == x;
          }
          if TechYields(model, techs, memCases, x) {
            var t :| 0 <= t < |techs| && techs[t] == x.tech && WithDefault(memCases, techs[t]).Some? &&
                     x.memCase in WithDefault(memCases, techs[t]).value;
            if t > 0 {
              assert TechYields(model, techs[1..], memCases, x);
            }
          }
          if TechYields(model, techs[1..], memCases, x) {
            var t :| 0 <= t < |techs[1..]| && techs[1..][t] == x.tech && WithDefault(memCases, techs[1..][t]).Some? &&
                     x.memCase in WithDefault(memCases, techs[1..][t]).value;
            assert techs[t + 1] == x.tech;
          }
        }
      } else if WithDefault(memCases, techs[0]).Some? {
        var t :| 0 <= t < |techs[1..]| && WithDefault(memCases, techs[1..][t]).None?;
        assert techs[t + 1] == techs[1..][t];
      }
    }
  }

  /** The instance list exists exactly when every model has technologies and
      every one of those has cases, and then it holds exactly the triples
      (model, tech, case) with tech among the model's technologies and case
      among the technology's cases. */
  lemma {:induction false} InstancesMembers(cpu: seq<CpuModel>, memTech: map<string, seq<string>>, memCases: map<string, seq<string>>)
    ensures Instances(cpu, memTech, memCases, false).Some? <==>
      forall m :: 0 <= m < |cpu| ==> WithDefault(memTech, cpu[m].name).Some? &&
                                     TechsDefined(WithDefault(memTech, cpu[m].name).value, memCases)
    ensures Instances(cpu, memTech, memCases, false).Some? ==>
      forall x :: x in Instances(cpu, memTech, memCases, false).value <==>
        exists m :: 0 <= m < |cpu| && TechYields(cpu[m], WithDefault(memTech, cpu[m].name).value, memCases, x)
    decreases |cpu|
  {
    if |cpu| > 0 {
      InstancesMembers(cpu[1..], memTech, memCases);
      assert forall m :: 1 <= m < |cpu| ==> cpu[m] == cpu[1..][m - 1];
      var techs := WithDefault(memTech, cpu[0].name);
      if techs.Some? {
        TechInstancesMembers(cpu[0], techs.value, memCases);
      }
      if Instances(cpu, memTech, memCases, false).Some? {
        var first := TechInstances(cpu[0], techs.value, memCases).value;
        var rest := Instances(cpu[1..], memTech, memCases, false).value;
        forall x
          ensures x in Instances(cpu, memTech, memCases, false).value <==>
            exists m :: 0 <= m < |cpu| && TechYields(cpu[m], WithDefault(memTech, cpu[m].name).value, memCases, x)
        {
          if x in rest {
            var m :| 0 <= m < |cpu[1..]| && TechYields(cpu[1..][m], WithDefault(memTech, cpu[1..][m].name).value, memCases, x);
            assert TechYields(cpu[m + 1], WithDefault(memTech, cpu[m + 1].name).value, memCases, x);
          }
          if x in first {
            assert TechYields(cpu[0], WithDefault(memTech, cpu[0].name).value, memCases, x);
          }
          if exists m :: 0 <= m < |cpu| && TechYields(cpu[m], WithDefault(memTech, cpu[m].name).value, memCases, x) {
            var m :| 0 <= m < |cpu| && TechYields(cpu[m], WithDefault(memTech, cpu[m].name).value, memCases, x);
            if m > 0 {
              assert TechYields(cpu[1..][m - 1], WithDefault(memTech, cpu[1..][m - 1].name).value, memCases, x);
            }
          }
        }
      } else if techs.Some? && TechInstances(cpu[0], techs.value, memCases).Some? {
        var m :| 0 <= m < |cpu[1..]| && !(WithDefault(memTech, cpu[1..][m].name).Some? &&
                                        TechsDefined(WithDefault(memTech, cpu[1..][m].name).value, memCases));
        assert cpu[m + 1] == cpu[1..][m];
      }
    }
  }

  /** In trace generation every model appears once, in order, with empty
      technology and case. */
  lemma TraceGenInstances(cpu: seq<CpuModel>, memTech: map<string, seq<string>>, memCases: map<string, seq<string>>)
    ensures Instances(cpu, memTech, memCases, true).Some?
    ensures |Instances(cpu, memTech, memCases, true).value| == |cpu|
    ensures forall i :: 0 <= i < |cpu| ==> Instances(cpu, memTech, memCases, true).value[i] == Instance(cpu[i], "", "")
  {
  }
}
