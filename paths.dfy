/** POSIX path helpers of Python's `os.path` as the scripts use them, and the
    `uppath` lambda of bench5.py. */
module Paths {
  import opened Strings

  /** `os.path.join(a, b)`: an absolute `b` replaces `a`; otherwise a slash is
      put between them unless `a` is empty or already ends with one. */
  function PathJoin(a: string, b: string): (r: string)
    ensures |b| > 0 && b[0] == '/' ==> r == b
    ensures (|b| == 0 || b[0] != '/') && |a| > 0 && a[|a| - 1] != '/' ==> r == a + "/" + b
    ensures (|b| == 0 || b[0] != '/') && (|a| == 0 || a[|a| - 1] == '/') ==> r == a + b
  {
    if |b| > 0 && b[0] == '/' then b
    else if |a| == 0 || a[|a| - 1] == '/' then a + b
    else a + "/" + b
  }

  /** `os.path.join(p0, p1, ...)`, which joins from the left. */
  function JoinAll(parts: seq<string>): string
    requires |parts| >= 1
    decreases |parts|
  {
    if |parts| == 1 then parts[0]
    else PathJoin(JoinAll(parts[..|parts| - 1]), parts[|parts| - 1])
  }

  /** A directory name: not empty and free of slashes. */
  predicate Component(x: string)
  {
    |x| > 0 && '/' !in x
  }

  /** A path to join onto: not empty and not ending with a slash. */
  predicate Base(x: string)
  {
    |x| > 0 && x[|x| - 1] != '/'
  }

  /** Joining plain directory names onto a base is putting slashes between
      them. */
  lemma {:induction false} JoinAllIsSlashJoin(parts: seq<string>)
    requires |parts| >= 1 && Base(parts[0])
    requires forall i :: 1 <= i < |parts| ==> Component(parts[i])
    ensures JoinAll(parts) == Join(parts, '/')
    ensures Base(JoinAll(parts))
    decreases |parts|
  {
    if |parts| > 1 {
      var init := parts[..|parts| - 1];
      JoinAllIsSlashJoin(init);
      var last := parts[|parts| - 1];
      assert Component(last);
      assert last[|last| - 1] in last;
    }
  }

  /** `os.path.basename(p)`: what follows the last slash. */
  function Basename(p: string): (r: string)
    ensures '/' !in r
    ensures |r| <= |p| && r == p[|p| - |r|..]
    ensures |r| < |p| ==> p[|p| - |r| - 1] == '/'
  {
    var c := Split(p, '/');
    SplitLastSuffix(p, '/');
    c[|c| - 1]
  }

  /** Python's `lst[:-n]` for a count `n`: all but the last `n` items, and
      nothing at all when `n` is zero. */
  function DropLast<T>(lst: seq<T>, n: nat): (r: seq<T>)
    ensures n == 0 || n >= |lst| ==> r == []
    ensures 0 < n < |lst| ==> r == lst[..|lst| - n]
  {
    if n == 0 || n >= |lst| then [] else lst[..|lst| - n]
  }

  /** `uppath(_path, n)` of bench5.py: the path with its last `n` components
      cut off. */
  function Uppath(p: string, n: nat): string
  {
    Join(DropLast(Split(p, '/'), n), '/')
  }

  /** For n at least one, `uppath` leaves exactly the leading components. */
  lemma UppathComponents(p: string, n: nat)
    requires 0 < n < |Split(p, '/')|
    ensures Split(Uppath(p, n), '/') == Split(p, '/')[..|Split(p, '/')| - n]
  {
    var c := Split(p, '/');
    var d := DropLast(c, n);
    assert d == c[..|c| - n];
    forall i | 0 <= i < |d|
      ensures '/' !in d[i]
    {
      assert d[i] == c[i];
    }
    assert Uppath(p, n) == Join(d, '/');
    SplitJoin(d, '/');
  }
}
