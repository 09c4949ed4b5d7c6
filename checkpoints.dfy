/** The checkpoint selection of `CptSimulation.prepareEnvironment`: the
    folders of the data directory whose name holds "cpt.simpoint_", sorted by
    name and numbered from 1, then reordered by the weight written in their
    name, heaviest first (a stable sort), and cut to the `--cpts` first ones. */
module Checkpoints {
  import opened Wrappers
  import opened Strings
  import opened Sorting

  /** The marker of a checkpoint folder gem5 writes. */
  const CptPrefix := "cpt.simpoint_"

  /** A checkpoint: its number in name order, its folder, its weight. */
  datatype Checkpoint = Checkpoint(idx: int, name: string, weight: real)

  /** The directory entries that name checkpoint folders, in listing order. */
  function Matching(names: seq<string>): (r: seq<string>)
    ensures |r| <= |names|
    ensures forall x :: x in r <==> x in names && Contains(x, CptPrefix)
    decreases |names|
  {
    if |names| == 0 then []
    else
      var last := names[|names| - 1];
      var init := Matching(names[..|names| - 1]);
      assert names == names[..|names| - 1] + [last];
      if Contains(last, CptPrefix) then init + [last] else init
  }

  /** `sorted([d for d in listdir(data_path) if "cpt.simpoint_" in d])`. */
  function Folders(names: seq<string>): seq<string>
  {
    Sort(Matching(names))
  }

  /** The folders are the checkpoint entries of the listing, in name order. */
  lemma FoldersSorted(names: seq<string>)
    ensures Sorted(Folders(names))
    ensures multiset(Folders(names)) == multiset(Matching(names))
    ensures forall x :: x in Folders(names) <==> x in names && Contains(x, CptPrefix)
  {
    SortSorted(Matching(names));
    forall x
      ensures x in Folders(names) <==> x in Matching(names)
    {
      assert x in Folders(names) <==> x in multiset(Folders(names));
    }
  }

  /** A non-empty run of decimal digits. */
  predicate Digits(s: string)
  {
    |s| > 0 && forall i :: 0 <= i < |s| ==> '0' <= s[i] <= '9'
  }

  /** 10 to the power n. */
  function Pow10(n: nat): (r: nat)
    ensures r >= 1
  {
    if n == 0 then 1 else 10 * Pow10(n - 1)
  }

  /** `float(t)` for a decimal fraction: digits, at most one point, digits
      on at least one side of it. Anything else does not parse. */
  function ParseFloat(t: string): (r: Option<real>)
    ensures r.Some? ==> r.value >= 0.0
  {
    var p := Split(t, '.');
    if |p| == 1 && Digits(p[0]) then
      DecimalNonNegative(p[0]);
      Some(DecimalValue(p[0]) as real)
    else if |p| == 2 && (Digits(p[0]) || p[0] == "") && (Digits(p[1]) || p[1] == "") && p[0] + p[1] != "" then
      DecimalNonNegative(p[0]);
      DecimalNonNegative(p[1]);
      Some(DecimalValue(p[0]) as real + DecimalValue(p[1]) as real / Pow10(|p[1]|) as real)
    else None
  }

  /** Digits stand for a natural number. */
  lemma {:induction false} DecimalNonNegative(s: string)
    requires Digits(s) || s == ""
    ensures DecimalValue(s) >= 0
    decreases |s|
  {
    if |s| > 0 {
      if |s| > 1 {
        DecimalNonNegative(s[..|s| - 1]);
      }
    }
  }

  /** A string of digits has no point in it. */
  lemma DigitsNoPoint(s: string)
    requires Digits(s)
    ensures Split(s, '.') == [s]
  {
    assert '.' !in s;
    SplitNoSeparator(s, '.');
  }

  /** `str(n)` of a natural number reads back as that number. */
  lemma ParseWhole(n: nat)
    ensures ParseFloat(NatToString(n)) == Some(n as real)
  {
    DigitsNoPoint(NatToString(n));
    NatToStringValue(n);
  }

  /** `float(name.split('_')[5])`: the weight field of a checkpoint folder;
      a missing field or a field that is not a number does not parse. */
  function WeightOf(name: string): Option<real>
  {
    var fields := Split(name, '_');
    if |fields| < 6 then None else ParseFloat(fields[5])
  }

  /** The folders numbered from 1 and weighed, or `None` when a weight does
      not parse. */
  function Weighed(folders: seq<string>): (r: Option<seq<Checkpoint>>)
    ensures r.None? <==> exists i :: 0 <= i < |folders| && WeightOf(folders[i]).None?
    ensures r.Some? ==> (|r.value| == |folders| &&
      forall i :: 0 <= i < |folders| ==> r.value[i] == Checkpoint(i + 1, folders[i], WeightOf(folders[i]).value))
    decreases |folders|
  {
    if |folders| == 0 then Some([])
    else
      var n := |folders|;
      match Weighed(folders[..n - 1])
      case None =>
        assert forall i :: 0 <= i < n - 1 ==> folders[..n - 1][i] == folders[i];
        None
      case Some(init) =>
        assert forall i :: 0 <= i < n - 1 ==> folders[..n - 1][i] == folders[i];
        match WeightOf(folders[n - 1])
        case None => None
        case Some(w) => Some(init + [Checkpoint(n, folders[n - 1], w)])
  }

  /** `a` precedes `b` in the reordered list: heavier, or as heavy and
      numbered earlier. */
  predicate Before(a: Checkpoint, b: Checkpoint)
  {
    a.weight > b.weight || (a.weight == b.weight && a.idx < b.idx)
  }

  /** Inserting before the first checkpoint no heavier. */
  function InsertByWeight(x: Checkpoint, s: seq<Checkpoint>): seq<Checkpoint>
    decreases |s|
  {
    if |s| == 0 then [x]
    else if x.weight >= s[0].weight then [x] + s
    else [s[0]] + InsertByWeight(x, s[1..])
  }

  /** `sorted(cpts, key=weight, reverse=True)`. */
  function SortByWeight(s: seq<Checkpoint>): seq<Checkpoint>
    decreases |s|
  {
    if |s| == 0 then [] else InsertByWeight(s[0], SortByWeight(s[1..]))
  }

  /** Every checkpoint precedes the next. */
  predicate Chain(s: seq<Checkpoint>)
  {
    forall i :: 0 <= i < |s| - 1 ==> Before(s[i], s[i + 1])
  }

  /** Every checkpoint precedes all later ones. */
  predicate Ordered(s: seq<Checkpoint>)
  {
    forall i, j :: 0 <= i < j < |s| ==> Before(s[i], s[j])
  }

  /** Numbers strictly increasing, as they come out of the numbering. */
  predicate Numbered(s: seq<Checkpoint>)
  {
    forall i, j :: 0 <= i < j < |s| ==> s[i].idx < s[j].idx
  }

  /** `Before` is transitive, so a chain is ordered. */
  lemma {:induction false} ChainOrdered(s: seq<Checkpoint>)
    requires Chain(s)
    ensures Ordered(s)
    decreases |s|
  {
    if |s| > 1 {
      ChainOrdered(s[1..]);
      forall j | 1 <= j < |s|
        ensures Before(s[0], s[j])
      {
        if j > 1 {
          assert Before(s[1..][0], s[1..][j - 1]);
        }
      }
      forall i, j | 0 <= i < j < |s|
        ensures Before(s[i], s[j])
      {
        if i > 0 {
          assert Before(s[1..][i - 1], s[1..][j - 1]);
        }
      }
    }
  }

  /** Inserting adds exactly one checkpoint; the head is the new one or the
      old head. */
  lemma {:induction false} InsertByWeightPerm(x: Checkpoint, s: seq<Checkpoint>)
    ensures multiset(InsertByWeight(x, s)) == multiset(s) + multiset{x}
    ensures |s| > 0 ==> InsertByWeight(x, s)[0] == x || InsertByWeight(x, s)[0] == s[0]
    decreases |s|
  {
    if |s| > 0 && x.weight < s[0].weight {
      InsertByWeightPerm(x, s[1..]);
      assert s == [s[0]] + s[1..];
    }
  }

  /** A checkpoint numbered before all others keeps the chain when inserted. */
  lemma {:induction false} InsertByWeightChain(x: Checkpoint, s: seq<Checkpoint>)
    requires Chain(s)
    requires forall y :: y in s ==> x.idx < y.idx
    ensures Chain(InsertByWeight(x, s))
    decreases |s|
  {
    if |s| > 0 && x.weight < s[0].weight {
      var t := InsertByWeight(x, s[1..]);
      assert Chain(s[1..]) by {
        forall i | 0 <= i < |s[1..]| - 1
          ensures Before(s[1..][i], s[1..][i + 1])
        {
          assert s[1..][i] == s[i + 1] && s[1..][i + 1] == s[i + 2];
        }
      }
      InsertByWeightChain(x, s[1..]);
      InsertByWeightPerm(x, s[1..]);
      var r := [s[0]] + t;
      assert Before(s[0], t[0]);
      forall i | 0 <= i < |r| - 1
        ensures Before(r[i], r[i + 1])
      {
        if i > 0 {
          assert r[i] == t[i - 1] && r[i + 1] == t[i];
        }
      }
    }
  }

  /** Sorting keeps the checkpoints and, on numbered input, orders them
      heaviest first with ties in number order: Python's sort is stable. */
  lemma SortByWeightOrdered(s: seq<Checkpoint>)
    requires Numbered(s)
    ensures multiset(SortByWeight(s)) == multiset(s)
    ensures Ordered(SortByWeight(s))
  {
    SortByWeightChain(s);
    ChainOrdered(SortByWeight(s));
  }

  /** The tail of a numbered list is numbered, and numbered after its head. */
  lemma NumberedTail(s: seq<Checkpoint>)
    requires Numbered(s) && |s| > 0
    ensures Numbered(s[1..])
    ensures forall y :: y in s[1..] ==> s[0].idx < y.idx
  {
    forall i, j | 0 <= i < j < |s[1..]|
      ensures s[1..][i].idx < s[1..][j].idx
    {
      assert s[1..][i] == s[i + 1] && s[1..][j] == s[j + 1];
    }
  }

  /** The chain form of `SortByWeightOrdered`, which its induction uses. */
  lemma {:induction false} SortByWeightChain(s: seq<Checkpoint>)
    requires Numbered(s)
    ensures multiset(SortByWeight(s)) == multiset(s)
    ensures Chain(SortByWeight(s))
    decreases |s|
  {
    if |s| > 0 {
      var rest := SortByWeight(s[1..]);
      NumberedTail(s);
      SortByWeightChain(s[1..]);
      forall y | y in rest
        ensures s[0].idx < y.idx
      {
        assert y in multiset(s[1..]);
      }
      InsertByWeightChain(s[0], rest);
      InsertByWeightPerm(s[0], rest);
      assert s == [s[0]] + s[1..];
    }
  }

  /** `s[:n]` of Python: a negative `n` drops that many from the end. */
  function Prefix<T>(s: seq<T>, n: int): seq<T>
  {
    if n >= |s| then s
    else if n >= 0 then s[..n]
    else if |s| + n >= 0 then s[..|s| + n]
    else []
  }

  /** `if args.cpts and args.cpts < len(s): s = s[:args.cpts]`. */
  function Selected<T>(s: seq<T>, cpts: int): seq<T>
  {
    if cpts != 0 && cpts < |s| then Prefix(s, cpts) else s
  }

  /** The selection is a prefix: the `cpts` first when 0 < cpts < count,
      everything when cpts is 0 or at least the count, and for a negative
      `cpts` all but the last -cpts. */
  lemma SelectedPrefix<T>(s: seq<T>, cpts: int)
    ensures var r := Selected(s, cpts);
      && |r| <= |s| && r == s[..|r|]
      && (0 < cpts < |s| ==> |r| == cpts)
      && (cpts == 0 || cpts >= |s| ==> r == s)
      && (cpts < 0 ==> |r| == if |s| + cpts >= 0 then |s| + cpts else 0)
  {
  }

  /** The checkpoints to simulate, or `None` when a folder name carries no
      weight. */
  function Plan(folders: seq<string>, cpts: int): Option<seq<Checkpoint>>
  {
    match Weighed(folders)
    case None => None
    case Some(ws) => Some(Selected(SortByWeight(ws), cpts))
  }

  /** A weighed checkpoint is the folder its number names, with the weight
      its name carries. */
  lemma WeighedEntry(folders: seq<string>, c: Checkpoint)
    requires Weighed(folders).Some? && c in Weighed(folders).value
    ensures 1 <= c.idx <= |folders| && c.name == folders[c.idx - 1]
    ensures WeightOf(c.name) == Some(c.weight)
  {
    var ws := Weighed(folders).value;
    var k :| 0 <= k < |ws| && ws[k] == c;
  }

  /** What the plan promises: each entry is the folder its number names,
      with its weight; heaviest first, ties in number order, no number
      twice; the first `cpts` of the reordered list when 0 < cpts < count,
      all of them when cpts is 0 or at least the count. */
  lemma PlanOrdered(folders: seq<string>, cpts: int)
    requires Plan(folders, cpts).Some?
    ensures var r := Plan(folders, cpts).value;
      && Ordered(r)
      && (forall i :: 0 <= i < |r| ==> 1 <= r[i].idx <= |folders| && r[i].name == folders[r[i].idx - 1]
                                       && WeightOf(r[i].name) == Some(r[i].weight))
      && (0 < cpts < |folders| ==> |r| == cpts)
      && (cpts == 0 || cpts >= |folders| ==> |r| == |folders|)
  {
    var ws := Weighed(folders).value;
    WeighedNumbered(folders);
    SortSelected(ws, cpts);
    var r := Plan(folders, cpts).value;
    assert r == Selected(SortByWeight(ws), cpts);
    WeighedEntries(folders, r);
  }

  /** Checkpoints drawn from the weighed folders are entries of them. */
  lemma WeighedEntries(folders: seq<string>, r: seq<Checkpoint>)
    requires Weighed(folders).Some? && forall c :: c in r ==> c in Weighed(folders).value
    ensures forall i :: 0 <= i < |r| ==>
      1 <= r[i].idx <= |folders| && r[i].name == folders[r[i].idx - 1] && WeightOf(r[i].name) == Some(r[i].weight)
  {
    forall i | 0 <= i < |r|
      ensures 1 <= r[i].idx <= |folders| && r[i].name == folders[r[i].idx - 1]
      ensures WeightOf(r[i].name) == Some(r[i].weight)
    {
      var c := r[i];
      assert c in r;
      WeighedEntry(folders, c);
    }
  }

  /** Reordering numbered checkpoints and cutting the list keeps it ordered
      and made of them, with the length the cut gives. */
  lemma SortSelected(ws: seq<Checkpoint>, cpts: int)
    requires Numbered(ws)
    ensures var r := Selected(SortByWeight(ws), cpts);
      && Ordered(r) && (forall c :: c in r ==> c in ws)
      && (0 < cpts < |ws| ==> |r| == cpts)
      && (cpts == 0 || cpts >= |ws| ==> |r| == |ws|)
  {
    SortedKeeps(ws);
    SelectionKeeps(SortByWeight(ws), cpts);
  }

  /** The weighed folders come numbered. */
  lemma WeighedNumbered(folders: seq<string>)
    requires Weighed(folders).Some?
    ensures Numbered(Weighed(folders).value)
  {
  }

  /** A selection of an ordered list is ordered and made of its elements. */
  lemma SelectionKeeps(t: seq<Checkpoint>, cpts: int)
    requires Ordered(t)
    ensures Ordered(Selected(t, cpts))
    ensures forall c :: c in Selected(t, cpts) ==> c in t
    ensures 0 < cpts < |t| ==> |Selected(t, cpts)| == cpts
    ensures cpts == 0 || cpts >= |t| ==> Selected(t, cpts) == t
  {
    SelectedPrefix(t, cpts);
    var r := Selected(t, cpts);
    assert forall i :: 0 <= i < |r| ==> r[i] == t[i];
  }

  /** The reordered list of numbered checkpoints: ordered, as long as the
      input, and made of its checkpoints. */
  lemma SortedKeeps(ws: seq<Checkpoint>)
    requires Numbered(ws)
    ensures Ordered(SortByWeight(ws)) && |SortByWeight(ws)| == |ws|
    ensures forall c :: c in SortByWeight(ws) ==> c in ws
  {
    SortByWeightOrdered(ws);
    assert |multiset(SortByWeight(ws))| == |multiset(ws)|;
    forall c | c in SortByWeight(ws)
      ensures c in ws
    {
      assert c in multiset(SortByWeight(ws));
    }
  }

  /** Without a cut the plan holds every folder exactly once. */
  lemma PlanComplete(folders: seq<string>, cpts: int)
    requires Plan(folders, cpts).Some?
    requires cpts == 0 || cpts >= |folders|
    ensures multiset(Plan(folders, cpts).value) == multiset(Weighed(folders).value)
  {
    var ws := Weighed(folders).value;
    SortByWeightOrdered(ws);
  }
}
