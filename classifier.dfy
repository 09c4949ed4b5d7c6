/** Failure causes and the log-signature classifier of `run_in_thread`
    (bench5.py:368-397). */
module Classifier {
  import opened Wrappers
  import opened Strings

  /** The cause tags written to `sp_fail`: twelve come from the job's log,
      `Hostmem` and `Timeout` from the watchdog. */
  datatype Cause =
    | Alloc | Oom | Parse | Syscall | Instr | Unmapad | Ptfault
    | Sigsegv | Invptr | Unknown | Fortran | Incompl
    | Hostmem | Timeout

  /** The tag string, as it appears in the "err_<cause>_" directory prefix. */
  function Tag(c: Cause): string
  {
    match c
    case Alloc => "alloc"
    case Oom => "oom"
    case Parse => "parse"
    case Syscall => "syscall"
    case Instr => "instr"
    case Unmapad => "unmapad"
    case Ptfault => "ptfault"
    case Sigsegv => "sigsegv"
    case Invptr => "invptr"
    case Unknown => "unknown"
    case Fortran => "fortran"
    case Incompl => "incompl"
    case Hostmem => "hostmem"
    case Timeout => "timeout"
  }

  /** Distinct causes have distinct tags. */
  lemma TagInjective(a: Cause, b: Cause)
    requires Tag(a) == Tag(b)
    ensures a == b
  {
  }

  /** The log signatures of bench5.py:373-393. */
  const MmapSig := "fatal: Could not mmap"
  const OomSig := "fatal: Out of memory"
  const ParseSig := "fatal: Can't load checkpoint file"
  const SyscallSig := "fatal: syscall"
  const InstrSig := "panic: Unrecognized/invalid instruction"
  const UnmappedSig := "panic: Tried to write unmapped address"
  const PageFaultSig := "panic: Page table fault"
  const SegfaultSig := "gem5 has encountered a segmentation fault!"
  const InvalidPointerSig := "Attempt to free invalid pointer"
  const BacktraceSig := "--- BEGIN LIBC BACKTRACE ---"
  const FortranSig := "Fortran runtime error"

  /** The plain substring signatures, in the order the if/elif chain tests
      them. */
  const Signatures: seq<(string, Cause)> := [
    (MmapSig, Alloc),
    (OomSig, Oom),
    (ParseSig, Parse),
    (SyscallSig, Syscall),
    (InstrSig, Instr),
    (UnmappedSig, Unmapad),
    (PageFaultSig, Ptfault),
    (SegfaultSig, Sigsegv),
    (InvalidPointerSig, Invptr),
    (BacktraceSig, Unknown),
    (FortranSig, Fortran)
  ]

  /** The last test of the chain: a resume marker without its completion
      marker. */
  predicate IncompleteResume(log: string)
  {
    Contains(log, "Resuming from SimPoint") && !Contains(log, "Done running SimPoint!")
  }

  /** The if/elif chain of bench5.py:373-397, written out branch by branch. */
  function Classify(log: string): Option<Cause>
  {
    if Contains(log, MmapSig) then Some(Alloc)
    else if Contains(log, OomSig) then Some(Oom)
    else if Contains(log, ParseSig) then Some(Parse)
    else if Contains(log, SyscallSig) then Some(Syscall)
    else if Contains(log, InstrSig) then Some(Instr)
    else if Contains(log, UnmappedSig) then Some(Unmapad)
    else if Contains(log, PageFaultSig) then Some(Ptfault)
    else if Contains(log, SegfaultSig) then Some(Sigsegv)
    else if Contains(log, InvalidPointerSig) then Some(Invptr)
    else if Contains(log, BacktraceSig) then Some(Unknown)
    else if Contains(log, FortranSig) then Some(Fortran)
    else if IncompleteResume(log) then Some(Incompl)
    else None
  }

  /** A reference classifier: scan the signature table from entry `k` and
      take the first entry whose signature occurs, then fall back on the
      incomplete-resume test. */
  function FirstMatch(log: string, k: nat): Option<Cause>
    requires k <= |Signatures|
    decreases |Signatures| - k
  {
    if k == |Signatures| then (if IncompleteResume(log) then Some(Incompl) else None)
    else if Contains(log, Signatures[k].0) then Some(Signatures[k].1)
    else FirstMatch(log, k + 1)
  }

  /** Test number `i` of the chain: signature `i`, or the incomplete-resume
      test as number 11. */
  predicate Matches(log: string, i: nat)
    requires i <= |Signatures|
  {
    if i < |Signatures| then Contains(log, Signatures[i].0) else IncompleteResume(log)
  }

  function CauseAt(i: nat): Cause
    requires i <= |Signatures|
  {
    if i < |Signatures| then Signatures[i].1 else Incompl
  }

  /** The chain and the table scan agree on every log. */
  lemma ClassifyIsFirstMatch(log: string)
    ensures Classify(log) == FirstMatch(log, 0)
  {
    assert FirstMatch(log, 11) == if IncompleteResume(log) then Some(Incompl) else None;
    assert FirstMatch(log, 10) == if Contains(log, FortranSig) then Some(Fortran) else FirstMatch(log, 11);
    assert FirstMatch(log, 9) == if Contains(log, BacktraceSig) then Some(Unknown) else FirstMatch(log, 10);
    assert FirstMatch(log, 8) == if Contains(log, InvalidPointerSig) then Some(Invptr) else FirstMatch(log, 9);
    assert FirstMatch(log, 7) == if Contains(log, SegfaultSig) then Some(Sigsegv) else FirstMatch(log, 8);
    assert FirstMatch(log, 6) == if Contains(log, PageFaultSig) then Some(Ptfault) else FirstMatch(log, 7);
    assert FirstMatch(log, 5) == if Contains(log, UnmappedSig) then Some(Unmapad) else FirstMatch(log, 6);
    assert FirstMatch(log, 4) == if Contains(log, InstrSig) then Some(Instr) else FirstMatch(log, 5);
    assert FirstMatch(log, 3) == if Contains(log, SyscallSig) then Some(Syscall) else FirstMatch(log, 4);
    assert FirstMatch(log, 2) == if Contains(log, ParseSig) then Some(Parse) else FirstMatch(log, 3);
    assert FirstMatch(log, 1) == if Contains(log, OomSig) then Some(Oom) else FirstMatch(log, 2);
    assert FirstMatch(log, 0) == if Contains(log, MmapSig) then Some(Alloc) else FirstMatch(log, 1);
  }

  /** Test `i` is the first test from number `k` on that the log passes. */
  predicate FirstPassed(log: string, k: nat, i: nat)
  {
    k <= i <= |Signatures| && Matches(log, i) && forall j :: k <= j < i ==> !Matches(log, j)
  }

  lemma {:induction false} FirstMatchSpec(log: string, k: nat)
    requires k <= |Signatures|
    ensures var r := FirstMatch(log, k);
      && (r.Some? <==> exists i :: k <= i <= |Signatures| && Matches(log, i))
      && (r.Some? ==> exists i :: FirstPassed(log, k, i) && CauseAt(i) == r.value)
    decreases |Signatures| - k
  {
    if k == |Signatures| {
      if IncompleteResume(log) { assert FirstPassed(log, k, k); }
    } else {
      FirstMatchSpec(log, k + 1);
      if Contains(log, Signatures[k].0) {
        assert FirstPassed(log, k, k);
      } else {
        assert !Matches(log, k);
        if FirstMatch(log, k).Some? {
          var i :| FirstPassed(log, k + 1, i) && CauseAt(i) == FirstMatch(log, k).value;
          assert FirstPassed(log, k, i);
        }
      }
    }
  }

  /** What the classifier returns: the cause of the first test in chain
      order that the log passes, and nothing when it passes none. */
  lemma ClassifyFirstWins(log: string)
    ensures Classify(log).Some? <==> exists i :: 0 <= i <= |Signatures| && Matches(log, i)
    ensures Classify(log).Some? ==> exists i :: FirstPassed(log, 0, i) && CauseAt(i) == Classify(log).value
  {
    ClassifyIsFirstMatch(log);
    FirstMatchSpec(log, 0);
  }

  /** A later signature decides only when no earlier one occurs: an
      out-of-memory line without an mmap failure line reads as `Oom`. */
  lemma OutOfMemoryIsOom(log: string)
    requires Contains(log, OomSig) && !Contains(log, MmapSig)
    ensures Classify(log) == Some(Oom)
  {
  }

  /** "incompl" needs the resume marker and the absence of the completion
      marker; the completion marker alone rules it out. It is the verdict
      exactly when, besides, none of the table's signatures occurs. */
  lemma IncompleteNeedsBothMarkers(log: string)
    ensures Classify(log) == Some(Incompl) ==>
      Contains(log, "Resuming from SimPoint") && !Contains(log, "Done running SimPoint!")
    ensures Classify(log) == Some(Incompl) <==>
      IncompleteResume(log) && forall i :: 0 <= i < |Signatures| ==> !Contains(log, Signatures[i].0)
  {
    ClassifyIsFirstMatch(log);
    FirstMatchIncomplete(log, 0);
  }

  /** The table scan from entry `k` ends in "incompl" exactly when no
      signature from `k` on occurs and the resume test passes. */
  lemma {:induction false} FirstMatchIncomplete(log: string, k: nat)
    requires k <= |Signatures|
    ensures FirstMatch(log, k) == Some(Incompl) <==>
      IncompleteResume(log) && forall i :: k <= i < |Signatures| ==> !Contains(log, Signatures[i].0)
    decreases |Signatures| - k
  {
    if k < |Signatures| {
      FirstMatchIncomplete(log, k + 1);
      assert Signatures[k].1 != Incompl;
    }
  }

  /** The classifier never produces the watchdog's causes. */
  lemma ClassifyNotWatchdog(log: string)
    ensures Classify(log) != Some(Hostmem) && Classify(log) != Some(Timeout)
  {
  }
}
