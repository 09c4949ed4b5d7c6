/** Output reconciliation after a job ends (bench5.py:399-431): the
    filesystem is a set of paths, each path the sequence of its components
    (what `split('/')` gives); `shutil.rmtree` drops a subtree and `os.rename`
    / `shutil.move` re-root one. */
module Reconciler {
  import opened Wrappers
  import opened Strings
  import opened Paths
  import opened Classifier

  type Path = seq<string>
  type FileSystem = set<Path>

  /** `p` is `root` or lies below it. */
  predicate Under(root: Path, p: Path)
  {
    |root| <= |p| && p[..|root|] == root
  }

  /** Neither path lies below the other. */
  predicate Apart(a: Path, b: Path)
  {
    !Under(a, b) && !Under(b, a)
  }

  /** `shutil.rmtree(root)`: the root and everything below it disappear. */
  function RemoveTree(fs: FileSystem, root: Path): (r: FileSystem)
    ensures forall p :: p in r <==> p in fs && !Under(root, p)
  {
    set p | p in fs && !Under(root, p)
  }

  /** `os.rename(src, dst)`: whatever was at `dst` is replaced, and every path
      below `src` moves below `dst`. */
  function Rename(fs: FileSystem, src: Path, dst: Path): FileSystem
  {
    (set p | p in fs && !Under(src, p) && !Under(dst, p)) +
    (set p | p in fs && Under(src, p) :: dst + p[|src|..])
  }

  lemma UnderAppend(root: Path, rest: Path, other: Path)
    requires Apart(root, other)
    ensures !Under(other, root + rest)
  {
  }

  /** What a rename does, for source and destination apart from each other:
      the source subtree is gone, the destination subtree mirrors it, and
      every other path stays as it was. */
  lemma RenameEffect(fs: FileSystem, src: Path, dst: Path)
    requires Apart(src, dst)
    ensures forall p :: !Under(src, p) && !Under(dst, p) ==> (p in Rename(fs, src, dst) <==> p in fs)
    ensures forall p :: Under(src, p) ==> p !in Rename(fs, src, dst)
    ensures forall q :: Under(dst, q) ==> (q in Rename(fs, src, dst) <==> src + q[|dst|..] in fs)
  {
    var r := Rename(fs, src, dst);
    forall p | Under(src, p) ensures p !in r {
      if p in r {
        var p0 :| p0 in fs && Under(src, p0) && p == dst + p0[|src|..];
        UnderAppend(dst, p0[|src|..], src);
      }
    }
    forall q | Under(dst, q) ensures q in r <==> src + q[|dst|..] in fs {
      var p0 := src + q[|dst|..];
      assert Under(src, p0);
      assert p0[|src|..] == q[|dst|..];
      assert dst + q[|dst|..] == q;
      if q in r {
        var p1 :| p1 in fs && Under(src, p1) && q == dst + p1[|src|..];
        assert q[|dst|..] == p1[|src|..];
        assert p1 == src + p1[|src|..];
      }
    }
  }

  /** Failures while reconciling: a path that `rmtree` or `rename` expected
      is missing, or a path segment `sim_conf_id` indexes is absent. */
  datatype FsError = MissingPath(path: Path) | IndexError

  /** The filesystem when reconciliation ends, normally or at the point where
      an exception escaped, with that exception. */
  datatype Outcome = Outcome(fs: FileSystem, error: Option<FsError>)

  /** `out_path`: the work path, or its parent when the job ran in "tmp". */
  function OutPath(workPath: string): string
  {
    if Basename(workPath) != "tmp" then workPath else Uppath(workPath, 1)
  }

  /** The job ran in a "tmp" directory exactly when `out_path` is its parent
      directory, for work paths with at least one slash. */
  lemma OutPathIsParent(workPath: string)
    requires '/' in workPath
    ensures Basename(workPath) != "tmp" ==> OutPath(workPath) == workPath
    ensures Split(OutPath(workPath), '/') + ["tmp"] == Split(workPath, '/') <==> Basename(workPath) == "tmp"
  {
    var c := Split(workPath, '/');
    SplitCount(workPath);
    if Basename(workPath) == "tmp" {
      UppathComponents(workPath, 1);
      assert c[..|c| - 1] + ["tmp"] == c;
    }
  }

  /** A string with a slash splits into at least two pieces. */
  lemma {:induction false} SplitCount(s: string)
    requires '/' in s
    ensures |Split(s, '/')| >= 2
    decreases |s|
  {
    if s[0] != '/' {
      assert '/' in s[1..];
      SplitCount(s[1..]);
    }
  }

  /** The configuration id of bench5.py:407-415. The conditional expression
      binds loosest, so it covers the whole concatenation: without "cpt" in
      the path the id is just "full", and with it the id needs eight path
      segments and an '_' in the last of them. */
  function SimConfId(outPath: string): Result<string, FsError>
  {
    if !Contains(outPath, "cpt") then Ok("full")
    else
      var segs := Split(outPath, '/');
      var details := if |segs| <= 8 then segs else segs[|segs| - 8..];
      if |details| < 8 then Err(IndexError)
      else
        var cpt := Split(details[7], '_');
        if |cpt| < 2 then Err(IndexError)
        else Ok(Split(details[1], '.')[0] + "_" + details[0] + "_" +
                Without(details[3], '_') + "_" + Without(details[4], '-') + "_" +
                Without(details[5], '-') + "_" + Without(details[6], '-') + "_" +
                ("cpt" + cpt[1]))
  }

  /** Without "cpt" anywhere in the output path the id is "full". */
  lemma SimConfIdFull(outPath: string)
    requires !Contains(outPath, "cpt")
    ensures SimConfId(outPath) == Ok("full")
  {
  }

  /** For a checkpoint output path built from slash-free components, the id
      is made of its last eight components. */
  lemma SimConfIdCheckpoint(c: seq<string>)
    requires |c| >= 8 && forall i :: 0 <= i < |c| ==> '/' !in c[i]
    requires Contains(Join(c, '/'), "cpt") && |Split(c[|c| - 1], '_')| >= 2
    ensures var n := |c|;
      SimConfId(Join(c, '/')) == Ok(Split(c[n - 7], '.')[0] + "_" + c[n - 8] + "_" +
        Without(c[n - 5], '_') + "_" + Without(c[n - 4], '-') + "_" +
        Without(c[n - 3], '-') + "_" + Without(c[n - 2], '-') + "_" +
        ("cpt" + Split(c[n - 1], '_')[1]))
  {
    SplitJoin(c, '/');
  }

  /** The name of a failed job's output directory: "err_<cause>_" before
      the last component. */
  function ErrPath(out: Path, c: Cause): Path
    requires |out| >= 1
  {
    out[..|out| - 1] + ["err_" + Tag(c) + "_" + out[|out| - 1]]
  }

  lemma ErrPathApart(out: Path, c: Cause)
    requires |out| >= 1
    ensures Apart(out, ErrPath(out, c))
  {
    var d := ErrPath(out, c);
    assert d[|out| - 1] != out[|out| - 1];
  }

  /** The stats file and its renamed copy, side by side in `out`. */
  function StatsPath(out: Path): Path { out + ["stats.txt"] }

  function RenamedStatsPath(out: Path, id: string): Path { out + [id + "_stats.txt"] }

  lemma StatsApart(out: Path, id: string)
    ensures Apart(StatsPath(out), RenamedStatsPath(out, id))
    ensures Under(out, StatsPath(out)) && Under(out, RenamedStatsPath(out, id))
  {
    var a, b := StatsPath(out), RenamedStatsPath(out, id);
    assert a[|out|] != b[|out|];
  }

  /** The optional stats move: with `--rename`, `stats.txt` becomes
      `<id>_stats.txt` when it exists. */
  function StatsMoved(fs: FileSystem, outC: Path, id: string, rename: bool): FileSystem
  {
    if rename && StatsPath(outC) in fs then Rename(fs, StatsPath(outC), RenamedStatsPath(outC, id)) else fs
  }

  /** The filesystem after the stats move and, for a job that ran in "tmp"
      without `--keep-tmp`, the removal of the "tmp" directory. */
  function Staged(fs: FileSystem, workPath: string, id: string, keepTmp: bool, rename: bool): FileSystem
  {
    var fs1 := StatsMoved(fs, Split(OutPath(workPath), '/'), id, rename);
    if Basename(workPath) == "tmp" && !keepTmp then RemoveTree(fs1, Split(workPath, '/')) else fs1
  }

  /** Reconciliation of one job's output (bench5.py:399-431), given the
      job's recorded cause, the shutdown flag and the `--keep-tmp` and
      `--rename` options. */
  function Reconcile(fs: FileSystem, workPath: string, cause: Option<Cause>,
                     shutdown: bool, keepTmp: bool, rename: bool): Outcome
  {
    var out := OutPath(workPath);
    var outC := Split(out, '/');
    if !keepTmp && shutdown then
      if outC in fs then Outcome(RemoveTree(fs, outC), None)
      else Outcome(fs, Some(MissingPath(outC)))
    else
      match SimConfId(out)
      case Err(e) => Outcome(fs, Some(e))
      case Ok(id) =>
        var fs1 := StatsMoved(fs, outC, id, rename);
        var workC := Split(workPath, '/');
        var dropTmp := Basename(workPath) == "tmp" && !keepTmp;
        if dropTmp && workC !in fs1 then Outcome(fs1, Some(MissingPath(workC)))
        else
          var fs2 := Staged(fs, workPath, id, keepTmp, rename);
          match cause
          case None => Outcome(fs2, None)
          case Some(c) =>
            var dest := ErrPath(outC, c);
            var fs3 := if dest in fs2 then RemoveTree(fs2, dest) else fs2;
            if outC in fs3 then Outcome(Rename(fs3, outC, dest), None)
            else Outcome(fs3, Some(MissingPath(outC)))
  }

  /** Shutdown without `--keep-tmp`: the whole output subtree goes, nothing
      else changes and nothing is renamed or created. */
  lemma ShutdownDeletesOutput(fs: FileSystem, workPath: string, cause: Option<Cause>, rename: bool)
    ensures var o := Reconcile(fs, workPath, cause, true, false, rename);
      var outC := Split(OutPath(workPath), '/');
      && (o.error.None? <==> outC in fs)
      && (forall p :: p in o.fs <==> p in fs && (o.error.Some? || !Under(outC, p)))
      && o.fs <= fs
  {
  }

  /** The changes made outside the stats file and "tmp": after the optional
      stats move and tmp removal, nothing outside `out` has changed. */
  lemma PrefixStepsStayInside(fs: FileSystem, workPath: string, id: string, keepTmp: bool, rename: bool)
    requires '/' in workPath
    ensures var outC := Split(OutPath(workPath), '/');
      forall p :: !Under(outC, p) ==> (p in Staged(fs, workPath, id, keepTmp, rename) <==> p in fs)
  {
    var outC := Split(OutPath(workPath), '/');
    var dropTmp := Basename(workPath) == "tmp" && !keepTmp;
    StatsApart(outC, id);
    RenameEffect(fs, StatsPath(outC), RenamedStatsPath(outC, id));
    OutPathIsParent(workPath);
    forall p | !Under(outC, p)
      ensures !Under(StatsPath(outC), p) && !Under(RenamedStatsPath(outC, id), p)
      ensures dropTmp ==> !Under(Split(workPath, '/'), p)
    {
      UnderTrans(outC, StatsPath(outC), p);
      UnderTrans(outC, RenamedStatsPath(outC, id), p);
      if dropTmp { UnderTrans(outC, Split(workPath, '/'), p); }
    }
  }

  lemma UnderTrans(a: Path, b: Path, p: Path)
    requires Under(a, b)
    ensures Under(b, p) ==> Under(a, p)
  {
    if Under(b, p) {
      assert p[..|b|][..|a|] == p[..|a|];
    }
  }

  /** A failed job whose output is reconciled without error ends up renamed:
      nothing is left below `out`; the "err_<cause>_" directory holds exactly
      the output tree as the stats move and the tmp removal left it, so
      nothing of an earlier directory of that name survives; every path
      outside these two subtrees is as it was. */
  lemma FailureRenamesOutput(fs: FileSystem, workPath: string, c: Cause,
                             shutdown: bool, keepTmp: bool, rename: bool)
    requires '/' in workPath
    requires keepTmp || !shutdown
    ensures var o := Reconcile(fs, workPath, Some(c), shutdown, keepTmp, rename);
      var outC := Split(OutPath(workPath), '/');
      var dest := ErrPath(outC, c);
      o.error.None? ==>
        && SimConfId(OutPath(workPath)).Ok?
        && (forall p :: Under(outC, p) ==> p !in o.fs)
        && dest in o.fs
        && (forall q :: Under(dest, q) ==>
              (q in o.fs <==> outC + q[|dest|..] in Staged(fs, workPath, SimConfId(OutPath(workPath)).value, keepTmp, rename)))
        && (forall p :: !Under(outC, p) && !Under(dest, p) ==> (p in o.fs <==> p in fs))
  {
    var o := Reconcile(fs, workPath, Some(c), shutdown, keepTmp, rename);
    var outC := Split(OutPath(workPath), '/');
    if o.error.None? {
      var id := SimConfId(OutPath(workPath)).value;
      PrefixStepsStayInside(fs, workPath, id, keepTmp, rename);
      var fs2 := Staged(fs, workPath, id, keepTmp, rename);
      var dest := ErrPath(outC, c);
      var fs3 := if dest in fs2 then RemoveTree(fs2, dest) else fs2;
      assert outC in fs3;
      assert o.fs == Rename(fs3, outC, dest);
      ErrPathApart(outC, c);
      RenameEffect(fs3, outC, dest);
      assert |outC| >= 1;
      assert outC + dest[|dest|..] == outC;
      assert dest + dest[|dest|..] == dest;
      assert Under(dest, dest);
      forall q | Under(dest, q)
        ensures outC + q[|dest|..] in fs3 <==> outC + q[|dest|..] in fs2
      {
        UnderAppend(outC, q[|dest|..], dest);
      }
    }
  }

  /** Without `--rename` and outside "tmp" (or with `--keep-tmp`), the
      "err_<cause>_" directory of a failed job holds exactly what the output
      directory held. */
  lemma FailureMovesOutput(fs: FileSystem, workPath: string, c: Cause, shutdown: bool, keepTmp: bool)
    requires '/' in workPath
    requires keepTmp || !shutdown
    requires keepTmp || Basename(workPath) != "tmp"
    ensures var o := Reconcile(fs, workPath, Some(c), shutdown, keepTmp, false);
      var outC := Split(OutPath(workPath), '/');
      var dest := ErrPath(outC, c);
      o.error.None? ==>
        && (forall p :: Under(outC, p) ==> p !in o.fs)
        && (forall q :: Under(dest, q) ==> (q in o.fs <==> outC + q[|dest|..] in fs))
        && (forall p :: !Under(outC, p) && !Under(dest, p) ==> (p in o.fs <==> p in fs))
  {
    FailureRenamesOutput(fs, workPath, c, shutdown, keepTmp, false);
  }

  /** A job that did not fail and did not run in "tmp" only has its stats
      file moved, inside `out`; everything outside `out` is untouched. */
  lemma SuccessStaysInside(fs: FileSystem, workPath: string, shutdown: bool, keepTmp: bool, rename: bool)
    requires '/' in workPath
    requires keepTmp || !shutdown
    ensures var o := Reconcile(fs, workPath, None, shutdown, keepTmp, rename);
      forall p :: !Under(Split(OutPath(workPath), '/'), p) ==> (p in o.fs <==> p in fs)
  {
    var out := OutPath(workPath);
    if SimConfId(out).Ok? {
      PrefixStepsStayInside(fs, workPath, SimConfId(out).value, keepTmp, rename);
    }
  }

  /** Reconciling an already reconciled output that did not fail and did not
      run in "tmp" changes nothing: the stats file has been renamed already. */
  lemma ReconcileIdempotent(fs: FileSystem, workPath: string, shutdown: bool, keepTmp: bool, rename: bool)
    requires keepTmp || !shutdown
    requires Basename(workPath) != "tmp"
    requires Reconcile(fs, workPath, None, shutdown, keepTmp, rename).error.None?
    ensures var fs1 := Reconcile(fs, workPath, None, shutdown, keepTmp, rename).fs;
      Reconcile(fs1, workPath, None, shutdown, keepTmp, rename) == Outcome(fs1, None)
  {
    var outC := Split(OutPath(workPath), '/');
    var id := SimConfId(OutPath(workPath)).value;
    var fs1 := Reconcile(fs, workPath, None, shutdown, keepTmp, rename).fs;
    if rename && StatsPath(outC) in fs {
      StatsApart(outC, id);
      RenameEffect(fs, StatsPath(outC), RenamedStatsPath(outC, id));
      assert Under(StatsPath(outC), StatsPath(outC));
      assert StatsPath(outC) !in fs1;
    }
  }
}
