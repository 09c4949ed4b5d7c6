/** The parallel executor of bench5.py:245-481: a counting semaphore of
    `max_proc` slots, the list of running child pids, the map of failed
    pids, the spawn/termination counters, the shutdown flag and the
    watchdog. Each spawned thread is a program counter (`Phase`) and each
    method is one atomic step of one thread; the interleaving of steps is
    the scheduler's choice. */
module Engine {
  import opened Wrappers
  import opened Classifier
  import opened Reconciler

  /** Process ids handed out by the operating system are positive. */
  type Pid = p: int | p > 0 witness 1

  /** One spawn-list entry: command, optional stdin file, work path, log path. */
  datatype Job = Job(cmd: seq<string>, inName: string, workPath: string, logPath: string)

  /** Where the thread running one spawn-list entry is in `run_in_thread`. */
  datatype Phase =
    | Started              // holds a slot, has not looked at the shutdown flag
    | Launching            // past the shutdown test, child not yet registered
    | Running(pid: Pid)    // child registered in sp_pids
    | Classified(pid: Pid) // log checked for failure signatures
    | Reconciled(pid: Pid) // output directory cleaned up or renamed
    | Crashed(pid: Pid)    // an exception escaped the cleanup: the thread died
                           // holding its slot and its sp_pids entry
    | Skipped              // saw the shutdown flag and gave its slot back
    | Finished(pid: Pid)   // unregistered and gave its slot back

  function HoldsSlot(p: Phase): bool { !p.Skipped? && !p.Finished? }
  function Registered(p: Phase): bool { p.Running? || p.Classified? || p.Reconciled? || p.Crashed? }
  function Spawned(p: Phase): bool { Registered(p) || p.Finished? }
  function Done(p: Phase): bool { p.Finished? }

  /** Number of elements of `s` satisfying `f`. */
  function Count<T>(s: seq<T>, f: T -> bool): (n: nat)
    ensures n <= |s|
  {
    if s == [] then 0 else Count(s[..|s| - 1], f) + (if f(s[|s| - 1]) then 1 else 0)
  }

  lemma CountAppend<T>(s: seq<T>, x: T, f: T -> bool)
    ensures Count(s + [x], f) == Count(s, f) + (if f(x) then 1 else 0)
  {
    assert (s + [x])[..|s|] == s;
  }

  lemma {:induction false} CountUpdate<T>(s: seq<T>, i: nat, x: T, f: T -> bool)
    requires i < |s|
    ensures Count(s[i := x], f) + (if f(s[i]) then 1 else 0) == Count(s, f) + (if f(x) then 1 else 0)
    decreases |s|
  {
    var n := |s| - 1;
    if i < n {
      assert s[i := x][..n] == s[..n][i := x];
      CountUpdate(s[..n], i, x, f);
    } else {
      assert s[i := x][..n] == s[..n];
    }
  }

  lemma {:induction false} CountMono<T>(s: seq<T>, f: T -> bool, g: T -> bool)
    requires forall i :: 0 <= i < |s| && f(s[i]) ==> g(s[i])
    ensures Count(s, f) <= Count(s, g)
    decreases |s|
  {
    if s != [] {
      CountMono(s[..|s| - 1], f, g);
    }
  }

  lemma {:induction false} CountNone<T>(s: seq<T>, f: T -> bool)
    requires forall i :: 0 <= i < |s| ==> !f(s[i])
    ensures Count(s, f) == 0
    decreases |s|
  {
    if s != [] {
      CountNone(s[..|s| - 1], f);
    }
  }

  /** The pids the threads of `s` have registered and not yet removed. */
  function LivePids(s: seq<Phase>): multiset<Pid>
  {
    if s == [] then multiset{}
    else LivePids(s[..|s| - 1]) + PidBag(s[|s| - 1])
  }

  /** The pid a thread contributes to sp_pids, if any. */
  function PidBag(p: Phase): multiset<Pid>
  {
    if Registered(p) then multiset{p.pid} else multiset{}
  }

  lemma LivePidsAppend(s: seq<Phase>, x: Phase)
    ensures LivePids(s + [x]) == LivePids(s) + PidBag(x)
  {
    assert (s + [x])[..|s|] == s;
  }

  lemma {:induction false} LivePidsUpdate(s: seq<Phase>, i: nat, x: Phase)
    requires i < |s|
    ensures LivePids(s[i := x]) + PidBag(s[i]) == LivePids(s) + PidBag(x)
    decreases |s|
  {
    var n := |s| - 1;
    var t := s[i := x];
    assert LivePids(s) == LivePids(s[..n]) + PidBag(s[n]);
    assert LivePids(t) == LivePids(t[..n]) + PidBag(t[n]);
    if i < n {
      assert t[..n] == s[..n][i := x];
      assert s[..n][i] == s[i] && t[n] == s[n];
      LivePidsUpdate(s[..n], i, x);
      assert LivePids(t) + PidBag(s[i])
          == LivePids(s[..n][i := x]) + PidBag(s[i]) + PidBag(s[n]);
    } else {
      assert t[..n] == s[..n];
    }
  }

  lemma MultisetCancel(a: multiset<Pid>, b: multiset<Pid>, c: multiset<Pid>)
    requires a + c == b + c
    ensures a == b
  {
    forall o ensures a[o] == b[o] {
      assert (a + c)[o] == (b + c)[o];
    }
  }

  lemma MultisetEmptyRight(a: multiset<Pid>)
    ensures a + multiset{} == a
  {
    forall o ensures (a + multiset{})[o] == a[o] {
    }
  }

  lemma {:induction false} LivePidsSize(s: seq<Phase>)
    ensures |LivePids(s)| == Count(s, Registered)
    decreases |s|
  {
    if s != [] {
      LivePidsSize(s[..|s| - 1]);
    }
  }

  /** A pid is live exactly when some registered thread holds it. */
  lemma {:induction false} LivePidsMember(s: seq<Phase>, pid: Pid)
    ensures pid in LivePids(s) <==> exists i :: 0 <= i < |s| && Registered(s[i]) && s[i].pid == pid
    decreases |s|
  {
    if s != [] {
      var n := |s| - 1;
      LivePidsMember(s[..n], pid);
      if pid in LivePids(s[..n]) {
        var i :| 0 <= i < n && Registered(s[..n][i]) && s[..n][i].pid == pid;
        assert s[i] == s[..n][i];
      }
      if exists i :: 0 <= i < |s| && Registered(s[i]) && s[i].pid == pid {
        var i :| 0 <= i < |s| && Registered(s[i]) && s[i].pid == pid;
        if i < n {
          assert s[..n][i] == s[i];
        }
      }
    }
  }

  /** Index of the first occurrence of `x`. */
  function IndexOf(s: seq<Pid>, x: Pid): (k: nat)
    requires x in s
    ensures k < |s| && s[k] == x && x !in s[..k]
  {
    if s[0] == x then 0
    else
      var k := IndexOf(s[1..], x);
      assert s[..k + 1] == [s[0]] + s[1..][..k];
      k + 1
  }

  /** list.remove: drop the first occurrence. */
  function RemoveFirst(s: seq<Pid>, x: Pid): (r: seq<Pid>)
    requires x in s
    ensures |r| == |s| - 1
  {
    if s[0] == x then s[1..] else [s[0]] + RemoveFirst(s[1..], x)
  }

  /** What list.remove leaves: the list without its first `x`. */
  lemma {:induction false} RemoveFirstDropsFirst(s: seq<Pid>, x: Pid)
    requires x in s
    ensures RemoveFirst(s, x) == s[..IndexOf(s, x)] + s[IndexOf(s, x) + 1..]
  {
    if s[0] != x {
      RemoveFirstDropsFirst(s[1..], x);
      var k := IndexOf(s[1..], x);
      assert IndexOf(s, x) == k + 1;
      assert s[..k + 1] == [s[0]] + s[1..][..k];
      assert s[k + 2..] == s[1..][k + 1..];
      calc {
        RemoveFirst(s, x);
        [s[0]] + RemoveFirst(s[1..], x);
        [s[0]] + (s[1..][..k] + s[1..][k + 1..]);
        s[..k + 1] + s[k + 2..];
      }
    }
  }

  /** The multiset of a list's elements, built element by element. */
  function Bag(s: seq<Pid>): multiset<Pid>
  {
    if s == [] then multiset{} else multiset{s[0]} + Bag(s[1..])
  }

  lemma {:induction false} BagIsMultiset(s: seq<Pid>)
    ensures Bag(s) == multiset(s)
  {
    if s != [] {
      BagIsMultiset(s[1..]);
      assert s == [s[0]] + s[1..];
    }
  }

  lemma BagAppend(s: seq<Pid>, x: Pid)
    ensures Bag(s + [x]) + multiset{} == Bag(s) + multiset{x}
  {
    BagIsMultiset(s + [x]);
    BagIsMultiset(s);
  }

  lemma {:induction false} BagRemoveFirst(s: seq<Pid>, x: Pid)
    requires x in s
    ensures Bag(RemoveFirst(s, x)) + multiset{x} == Bag(s) + multiset{}
  {
    var r := RemoveFirst(s, x);
    if s[0] != x {
      BagRemoveFirst(s[1..], x);
      assert r[0] == s[0] && r[1..] == RemoveFirst(s[1..], x);
      assert Bag(r) == multiset{s[0]} + Bag(r[1..]);
      assert Bag(s) == multiset{s[0]} + Bag(s[1..]);
      forall o ensures (Bag(r) + multiset{x})[o] == (Bag(s) + multiset{})[o] {
        assert (Bag(r[1..]) + multiset{x})[o] == (Bag(s[1..]) + multiset{})[o];
      }
    } else {
      assert Bag(s) == multiset{x} + Bag(r);
      forall o ensures (Bag(r) + multiset{x})[o] == (Bag(s) + multiset{})[o] {
      }
    }
  }

  function Ind(b: bool): nat { if b then 1 else 0 }

  /** Slot accounting over plain values: a slot is free or held by a thread;
      the pid list holds the pid of every registered thread; the counters
      count spawned and finished threads. */
  predicate Accounted(maxProc: nat, free: nat, pids: seq<Pid>, countPids: nat, countTerm: nat, threads: seq<Phase>)
  {
    && free + Count(threads, HoldsSlot) == maxProc
    && Bag(pids) == LivePids(threads)
    && countPids == Count(threads, Spawned)
    && countTerm == Count(threads, Done)
  }

  /** A new thread that takes a free slot keeps the accounting. */
  lemma StartKeepsAccounted(maxProc: nat, free: nat, pids: seq<Pid>, countPids: nat, countTerm: nat, threads: seq<Phase>)
    requires Accounted(maxProc, free, pids, countPids, countTerm, threads) && free > 0
    ensures Accounted(maxProc, free - 1, pids, countPids, countTerm, threads + [Started])
  {
    CountAppend(threads, Started, HoldsSlot);
    CountAppend(threads, Started, Spawned);
    CountAppend(threads, Started, Done);
    LivePidsAppend(threads, Started);
    MultisetEmptyRight(LivePids(threads));
  }

  /** One thread moving to phase `x` keeps the accounting when the slot
      count, the pid list and the counters change by what it gives up and
      takes on. */
  lemma StepKeepsAccounted(maxProc: nat, free: nat, pids: seq<Pid>, countPids: nat, countTerm: nat,
                           threads: seq<Phase>, i: nat, x: Phase,
                           free': nat, pids': seq<Pid>, countPids': nat, countTerm': nat)
    requires Accounted(maxProc, free, pids, countPids, countTerm, threads) && i < |threads|
    requires free' + Ind(HoldsSlot(x)) == free + Ind(HoldsSlot(threads[i]))
    requires Bag(pids') + PidBag(threads[i]) == Bag(pids) + PidBag(x)
    requires countPids' + Ind(Spawned(threads[i])) == countPids + Ind(Spawned(x))
    requires countTerm' + Ind(Done(threads[i])) == countTerm + Ind(Done(x))
    ensures Accounted(maxProc, free', pids', countPids', countTerm', threads[i := x])
  {
    CountStep(threads, i, x, HoldsSlot, maxProc - free, maxProc - free');
    CountStep(threads, i, x, Spawned, countPids, countPids');
    CountStep(threads, i, x, Done, countTerm, countTerm');
    PidsStep(Bag(pids), threads, i, x, Bag(pids'));
  }

  lemma CountStep(threads: seq<Phase>, i: nat, x: Phase, f: Phase -> bool, c: int, c': int)
    requires i < |threads| && c == Count(threads, f)
    requires c' + Ind(f(threads[i])) == c + Ind(f(x))
    ensures c' == Count(threads[i := x], f)
  {
    CountUpdate(threads, i, x, f);
  }

  lemma PidsStep(b: multiset<Pid>, threads: seq<Phase>, i: nat, x: Phase, b': multiset<Pid>)
    requires i < |threads| && b == LivePids(threads)
    requires b' + PidBag(threads[i]) == b + PidBag(x)
    ensures b' == LivePids(threads[i := x])
  {
    LivePidsUpdate(threads, i, x);
    MultisetCancel(LivePids(threads[i := x]), b', PidBag(threads[i]));
  }

  /** A thread that looks at the shutdown flag either gives its slot back
      or goes on to launch its child; both keep the accounting. */
  lemma LaunchKeepsAccounted(maxProc: nat, free: nat, pids: seq<Pid>, countPids: nat, countTerm: nat,
                             threads: seq<Phase>, i: nat)
    requires Accounted(maxProc, free, pids, countPids, countTerm, threads)
    requires i < |threads| && threads[i] == Started
    ensures Accounted(maxProc, free + 1, pids, countPids, countTerm, threads[i := Skipped])
    ensures Accounted(maxProc, free, pids, countPids, countTerm, threads[i := Launching])
  {
    StepKeepsAccounted(maxProc, free, pids, countPids, countTerm, threads, i, Skipped,
                       free + 1, pids, countPids, countTerm);
    StepKeepsAccounted(maxProc, free, pids, countPids, countTerm, threads, i, Launching,
                       free, pids, countPids, countTerm);
  }

  /** Registering the child appends its pid and counts the spawn. */
  lemma RegisterKeepsAccounted(maxProc: nat, free: nat, pids: seq<Pid>, countPids: nat, countTerm: nat,
                               threads: seq<Phase>, i: nat, pid: Pid)
    requires Accounted(maxProc, free, pids, countPids, countTerm, threads)
    requires i < |threads| && threads[i] == Launching
    ensures Accounted(maxProc, free, pids + [pid], countPids + 1, countTerm, threads[i := Running(pid)])
  {
    BagAppend(pids, pid);
    StepKeepsAccounted(maxProc, free, pids, countPids, countTerm, threads, i, Running(pid),
                       free, pids + [pid], countPids + 1, countTerm);
  }

  /** A registered thread moving to another registered phase with the same
      pid keeps the accounting. */
  lemma AdvanceKeepsAccounted(maxProc: nat, free: nat, pids: seq<Pid>, countPids: nat, countTerm: nat,
                              threads: seq<Phase>, i: nat, x: Phase)
    requires Accounted(maxProc, free, pids, countPids, countTerm, threads)
    requires i < |threads| && Registered(threads[i]) && Registered(x) && x.pid == threads[i].pid
    ensures Accounted(maxProc, free, pids, countPids, countTerm, threads[i := x])
  {
    StepKeepsAccounted(maxProc, free, pids, countPids, countTerm, threads, i, x,
                       free, pids, countPids, countTerm);
  }

  /** A thread that finishes removes a pid the list holds and keeps the
      accounting. */
  lemma FinishKeepsAccounted(maxProc: nat, free: nat, pids: seq<Pid>, countPids: nat, countTerm: nat,
                             threads: seq<Phase>, i: nat)
    requires Accounted(maxProc, free, pids, countPids, countTerm, threads)
    requires i < |threads| && threads[i].Reconciled?
    ensures threads[i].pid in pids
    ensures Accounted(maxProc, free + 1, RemoveFirst(pids, threads[i].pid), countPids, countTerm + 1,
                      threads[i := Finished(threads[i].pid)])
  {
    var pid := threads[i].pid;
    LivePidsMember(threads, pid);
    assert pid in Bag(pids);
    BagIsMultiset(pids);
    BagRemoveFirst(pids, pid);
    StepKeepsAccounted(maxProc, free, pids, countPids, countTerm, threads, i, Finished(pid),
                       free + 1, RemoveFirst(pids, pid), countPids, countTerm + 1);
  }

  /** The watchdog's wall-clock limit, in seconds (six hours). */
  const TimeLimit: int := 6 * 60 * 60

  /** A pid the watchdog may target: not failed yet and its /proc entry exists. */
  predicate Eligible(p: Pid, fail: map<Pid, Cause>, alive: set<Pid>)
  {
    p !in fail && p in alive
  }

  /** `pids[k]` is the child the memory guard kills: eligible, with a
      positive resident set size, none larger, and none as large before it. */
  predicate LargestAt(pids: seq<Pid>, k: int, fail: map<Pid, Cause>, alive: set<Pid>, rss: Pid -> nat)
  {
    && 0 <= k < |pids|
    && Eligible(pids[k], fail, alive) && rss(pids[k]) > 0
    && (forall j :: 0 <= j < |pids| && Eligible(pids[j], fail, alive) ==> rss(pids[j]) <= rss(pids[k]))
    && (forall j :: 0 <= j < k && Eligible(pids[j], fail, alive) ==> rss(pids[j]) < rss(pids[k]))
  }

  /** The pids the time guard marks: eligible and older than the limit. */
  predicate Overdue(p: Pid, fail: map<Pid, Cause>, alive: set<Pid>, age: Pid -> int)
  {
    Eligible(p, fail, alive) && age(p) > TimeLimit
  }

  /** The executor's mutable state at one instant. */
  datatype State = State(free: nat, spPids: seq<Pid>, spFail: map<Pid, Cause>,
                         countPids: nat, countTerm: nat, shutdown: bool,
                         fs: FileSystem, threads: seq<Phase>)

  class Executor {
    const maxProc: nat
    const jobs: seq<Job>
    const keepTmp: bool
    const rename: bool
    var free: nat
    var spPids: seq<Pid>
    var spFail: map<Pid, Cause>
    var countPids: nat
    var countTerm: nat
    var shutdown: bool
    var fs: FileSystem
    var threads: seq<Phase>

    function Snapshot(): State
      reads this
    {
      State(free, spPids, spFail, countPids, countTerm, shutdown, fs, threads)
    }

    /** Slot accounting: a slot is free or held by a thread; sp_pids holds the
        pid of every registered thread; the counters count spawned and
        finished threads. */
    predicate Valid()
      reads this
    {
      |threads| <= |jobs| && Accounted(maxProc, free, spPids, countPids, countTerm, threads)
    }

    constructor(maxProc: nat, jobs: seq<Job>, keepTmp: bool, rename: bool, fs: FileSystem)
      ensures Valid()
      ensures this.maxProc == maxProc && this.jobs == jobs
      ensures this.keepTmp == keepTmp && this.rename == rename
      ensures Snapshot() == State(maxProc, [], map[], 0, 0, false, fs, [])
    {
      this.maxProc := maxProc;
      this.jobs := jobs;
      this.keepTmp := keepTmp;
      this.rename := rename;
      this.fs := fs;
      free := maxProc;
      spPids := [];
      spFail := map[];
      countPids := 0;
      countTerm := 0;
      shutdown := false;
      threads := [];
    }

    /** The spawn loop takes a slot and starts a thread for the next entry;
        with no slot free it waits and nothing happens. */
    method Acquire() returns (started: bool)
      requires Valid() && |threads| < |jobs|
      modifies this
      ensures Valid()
      ensures started <==> old(free) > 0
      ensures Snapshot() == if started
        then old(Snapshot()).(free := old(free) - 1, threads := old(threads) + [Started])
        else old(Snapshot())
    {
      started := free > 0;
      if started {
        StartKeepsAccounted(maxProc, free, spPids, countPids, countTerm, threads);
        free, threads := free - 1, threads + [Started];
      }
    }

    /** A thread that sees the shutdown flag gives its slot back and ends. */
    method CheckShutdown(i: nat) returns (skipped: bool)
      requires Valid() && i < |threads| && threads[i] == Started
      modifies this
      ensures Valid()
      ensures skipped == shutdown
      ensures Snapshot() == if skipped
        then old(Snapshot()).(free := old(free) + 1, threads := old(threads)[i := Skipped])
        else old(Snapshot()).(threads := old(threads)[i := Launching])
    {
      skipped := shutdown;
      LaunchKeepsAccounted(maxProc, free, spPids, countPids, countTerm, threads, i);
      if skipped {
        free, threads := free + 1, threads[i := Skipped];
      } else {
        threads := threads[i := Launching];
      }
    }

    /** The child `pid` has been started: it is counted and appended to
        sp_pids; if shutdown began meanwhile and its /proc entry exists
        (`alive`), it is to be killed. */
    method Register(i: nat, pid: Pid, alive: bool) returns (kill: bool)
      requires Valid() && i < |threads| && threads[i] == Launching
      modifies this
      ensures Valid()
      ensures kill == (shutdown && alive)
      ensures Snapshot() == old(Snapshot()).(spPids := old(spPids) + [pid], countPids := old(countPids) + 1,
                                             threads := old(threads)[i := Running(pid)])
    {
      RegisterKeepsAccounted(maxProc, free, spPids, countPids, countTerm, threads, i, pid);
      countPids, spPids, threads := countPids + 1, spPids + [pid], threads[i := Running(pid)];
      kill := shutdown && alive;
    }

    /** `fail`: record a cause for a pid; a later cause overwrites an earlier one. */
    method Fail(pid: Pid, cause: Cause)
      modifies this
      ensures Snapshot() == old(Snapshot()).(spFail := old(spFail)[pid := cause])
    {
      spFail := spFail[pid := cause];
    }

    /** After the child exits, its log is scanned unless it already failed or
        shutdown has begun. */
    method ClassifyLog(i: nat, log: string)
      requires Valid() && i < |threads| && threads[i].Running?
      modifies this
      ensures Valid()
      ensures var pid := old(threads[i]).pid;
        Snapshot() == old(Snapshot()).(
          threads := old(threads)[i := Classified(pid)],
          spFail := if pid !in old(spFail) && !shutdown && Classify(log).Some?
                    then old(spFail)[pid := Classify(log).value] else old(spFail))
    {
      var pid := threads[i].pid;
      AdvanceKeepsAccounted(maxProc, free, spPids, countPids, countTerm, threads, i, Classified(pid));
      if pid !in spFail && !shutdown {
        var cause := Classify(log);
        if cause.Some? {
          Fail(pid, cause.value);
        }
      }
      threads := threads[i := Classified(pid)];
    }

    /** Cleanup of the job's output directory; an exception leaves the
        thread dead with its slot and its sp_pids entry. */
    method ReconcileOutput(i: nat)
      requires Valid() && i < |threads| && threads[i].Classified?
      modifies this
      ensures Valid()
      ensures var pid := old(threads[i]).pid;
        var o := Reconcile(old(fs), jobs[i].workPath, Get(spFail, pid), shutdown, keepTmp, rename);
        Snapshot() == old(Snapshot()).(
          fs := o.fs,
          threads := old(threads)[i := if o.error.None? then Reconciled(pid) else Crashed(pid)])
    {
      var pid := threads[i].pid;
      var o := Reconcile(fs, jobs[i].workPath, Get(spFail, pid), shutdown, keepTmp, rename);
      var next := if o.error.None? then Reconciled(pid) else Crashed(pid);
      AdvanceKeepsAccounted(maxProc, free, spPids, countPids, countTerm, threads, i, next);
      fs, threads := o.fs, threads[i := next];
    }

    /** The thread removes its pid from sp_pids, counts the termination and
        gives its slot back. */
    method Finish(i: nat)
      requires Valid() && i < |threads| && threads[i].Reconciled?
      modifies this
      ensures Valid()
      ensures var pid := old(threads[i]).pid;
        && pid in old(spPids)
        && Snapshot() == old(Snapshot()).(
             spPids := RemoveFirst(old(spPids), pid), countTerm := old(countTerm) + 1,
             free := old(free) + 1, threads := old(threads)[i := Finished(pid)])
    {
      var pid := threads[i].pid;
      FinishKeepsAccounted(maxProc, free, spPids, countPids, countTerm, threads, i);
      spPids, countTerm, free, threads := RemoveFirst(spPids, pid), countTerm + 1, free + 1, threads[i := Finished(pid)];
    }

    /** The memory guard's search: the first eligible child with the
        strictly largest positive resident set size. */
    method FindLargest(alive: set<Pid>, rss: Pid -> nat) returns (target: Option<Pid>)
      ensures target.None? <==>
        forall j :: 0 <= j < |spPids| && Eligible(spPids[j], spFail, alive) ==> rss(spPids[j]) == 0
      ensures target.Some? ==>
        exists k :: LargestAt(spPids, k, spFail, alive, rss) && spPids[k] == target.value
    {
      var best: Pid := 1;
      var mem: nat := 0;
      ghost var at := 0;
      var j := 0;
      while j < |spPids|
        invariant 0 <= j <= |spPids|
        invariant mem == 0 ==>
          forall q :: 0 <= q < j && Eligible(spPids[q], spFail, alive) ==> rss(spPids[q]) == 0
        invariant mem > 0 ==>
          && 0 <= at < j && spPids[at] == best && Eligible(best, spFail, alive) && rss(best) == mem
          && (forall q :: 0 <= q < j && Eligible(spPids[q], spFail, alive) ==> rss(spPids[q]) <= mem)
          && (forall q :: 0 <= q < at && Eligible(spPids[q], spFail, alive) ==> rss(spPids[q]) < mem)
      {
        var pid := spPids[j];
        if pid !in spFail && pid in alive {
          var m := rss(pid);
          if m > mem {
            best, mem, at := pid, m, j;
          }
        }
        j := j + 1;
      }
      target := if mem > 0 then Some(best) else None;
      if mem > 0 {
        assert LargestAt(spPids, at, spFail, alive, rss);
      }
    }

    /** With under a tenth of host memory available and some child running,
        the largest eligible child is marked "hostmem" (and killed). */
    method MemoryGuard(total: nat, avail: nat, alive: set<Pid>, rss: Pid -> nat) returns (killed: Option<Pid>)
      requires total > 0
      modifies this
      ensures killed.Some? ==>
        && 10 * avail < total
        && (exists k :: LargestAt(spPids, k, old(spFail), alive, rss) && spPids[k] == killed.value)
      ensures killed.None? <==>
        || 10 * avail >= total || spPids == []
        || forall j :: 0 <= j < |spPids| && Eligible(spPids[j], old(spFail), alive) ==> rss(spPids[j]) == 0
      ensures Snapshot() == if killed.Some?
        then old(Snapshot()).(spFail := old(spFail)[killed.value := Hostmem])
        else old(Snapshot())
    {
      killed := None;
      if 10 * avail < total && |spPids| > 0 {
        killed := FindLargest(alive, rss);
        if killed.Some? {
          Fail(killed.value, Hostmem);
        }
      }
    }

    /** With the time limit on, every eligible child older than six hours is
        marked "timeout" (and killed), in sp_pids order, once each. */
    method TimeGuard(limitTime: bool, alive: set<Pid>, age: Pid -> int) returns (killed: seq<Pid>)
      modifies this
      ensures !limitTime ==> killed == [] && spFail == old(spFail)
      ensures limitTime ==> forall p :: p in killed <==> p in spPids && Overdue(p, old(spFail), alive, age)
      ensures forall a, b :: 0 <= a < b < |killed| ==> killed[a] != killed[b]
      ensures forall p :: p in spFail <==> p in old(spFail) || p in killed
      ensures forall p :: p in old(spFail) ==> spFail[p] == old(spFail)[p]
      ensures forall p :: p in killed ==> spFail[p] == Timeout
      ensures Snapshot() == old(Snapshot()).(spFail := spFail)
    {
      killed := [];
      if limitTime {
        ghost var fail0 := spFail;
        var j := 0;
        while j < |spPids|
          invariant 0 <= j <= |spPids|
          invariant forall p :: p in killed <==> p in spPids[..j] && Overdue(p, fail0, alive, age)
          invariant forall a, b :: 0 <= a < b < |killed| ==> killed[a] != killed[b]
          invariant forall p :: p in spFail <==> p in fail0 || p in killed
          invariant forall p :: p in fail0 ==> spFail[p] == fail0[p]
          invariant forall p :: p in killed ==> spFail[p] == Timeout
          invariant Snapshot() == old(Snapshot()).(spFail := spFail)
        {
          var pid := spPids[j];
          assert spPids[..j + 1] == spPids[..j] + [pid];
          if pid !in spFail && pid in alive && age(pid) > TimeLimit {
            Fail(pid, Timeout);
            killed := killed + [pid];
          }
          j := j + 1;
        }
        assert spPids[..j] == spPids;
      }
    }

    /** One watchdog round: the memory guard, then the time guard. The memory
        victim is the largest child eligible before the round. */
    method Watchdog(limitTime: bool, total: nat, avail: nat, memAlive: set<Pid>,
                    rss: Pid -> nat, timeAlive: set<Pid>, age: Pid -> int)
      returns (memKilled: Option<Pid>, timeKilled: seq<Pid>)
      requires total > 0
      modifies this
      ensures memKilled.Some? ==> 10 * avail < total && memKilled.value in spPids
      ensures memKilled.Some? ==>
        exists k :: LargestAt(spPids, k, old(spFail), memAlive, rss) && spPids[k] == memKilled.value
      ensures memKilled.None? <==>
        || 10 * avail >= total || spPids == []
        || forall j :: 0 <= j < |spPids| && Eligible(spPids[j], old(spFail), memAlive) ==> rss(spPids[j]) == 0
      ensures memKilled.Some? ==> memKilled.value !in timeKilled
      ensures forall p :: p in spFail <==> p in old(spFail) || Some(p) == memKilled || p in timeKilled
      ensures forall p :: p in timeKilled ==> spFail[p] == Timeout
      ensures memKilled.Some? ==> spFail[memKilled.value] == Hostmem
      ensures forall p :: p in old(spFail) ==> spFail[p] == old(spFail)[p]
      ensures forall p :: p in timeKilled <==>
        limitTime && p in spPids && Some(p) != memKilled && Overdue(p, old(spFail), timeAlive, age)
      ensures Snapshot() == old(Snapshot()).(spFail := spFail)
    {
      memKilled := MemoryGuard(total, avail, memAlive, rss);
      timeKilled := TimeGuard(limitTime, timeAlive, age);
    }

    /** Keyboard interrupt: set the shutdown flag and kill every child in sp_pids. */
    method Interrupt() returns (killed: seq<Pid>)
      modifies this
      ensures killed == spPids
      ensures Snapshot() == old(Snapshot()).(shutdown := true)
    {
      shutdown := true;
      killed := spPids;
    }

    /** No more children run at once than there are slots. */
    lemma SlotBound()
      requires Valid()
      ensures |spPids| <= maxProc
      ensures free <= maxProc
    {
      LivePidsSize(threads);
      BagIsMultiset(spPids);
      assert |multiset(spPids)| == |spPids|;
      CountMono(threads, Registered, HoldsSlot);
    }

    /** Terminations never outnumber spawns. */
    lemma TermsBelowSpawns()
      requires Valid()
      ensures countTerm <= countPids
    {
      CountMono(threads, Done, Spawned);
    }

    /** A pid is in sp_pids exactly when a registered thread carries it. */
    lemma RegisteredIff(pid: Pid)
      requires Valid()
      ensures pid in spPids <==>
        exists i :: 0 <= i < |threads| && Registered(threads[i]) && threads[i].pid == pid
    {
      BagIsMultiset(spPids);
      assert pid in spPids <==> pid in multiset(spPids);
      LivePidsMember(threads, pid);
    }

    /** Once every thread was skipped or finished, all slots are free again,
        sp_pids is empty and every spawned child was counted as terminated. */
    lemma AllDone()
      requires Valid()
      requires forall i :: 0 <= i < |threads| ==> threads[i].Skipped? || threads[i].Finished?
      ensures free == maxProc && spPids == [] && countTerm == countPids
    {
      CountNone(threads, HoldsSlot);
      CountNone(threads, Registered);
      LivePidsSize(threads);
      BagIsMultiset(spPids);
      assert |multiset(spPids)| == 0;
      CountMono(threads, Done, Spawned);
      CountMono(threads, Spawned, Done);
    }
  }
}
