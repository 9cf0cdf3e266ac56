/** Upload coverage, eviction under a byte budget, and the commit. */
module Cache {
  import opened Basics

  const MAX_U64 := 0xFFFF_FFFF_FFFF_FFFF

  type U64 = n: nat | n <= 0xFFFF_FFFF_FFFF_FFFF

  function SaturatingAdd(a: U64, b: U64): U64 {
    if a + b > MAX_U64 then MAX_U64 else a + b
  }

  function SaturatingSub(a: U64, b: U64): U64 {
    if a < b then 0 else a - b
  }

  function Max(a: U64, b: U64): U64 {
    if a < b then b else a
  }

  // ---------------------------------------------------------------- coverage

  /** An uploaded chunk: first and last byte, both included. */
  type Range = (U64, U64)

  predicate RangeBefore(a: Range, b: Range) {
    a.0 < b.0 || (a.0 == b.0 && a.1 <= b.1)
  }

  function InsertRange(rs: seq<Range>, r: Range): (s: seq<Range>)
    ensures multiset(s) == multiset(rs) + multiset{r}
  {
    if rs == [] then [r]
    else if RangeBefore(r, rs[0]) then
      assert multiset([r] + rs) == multiset{r} + multiset(rs);
      [r] + rs
    else
      assert rs == [rs[0]] + rs[1..];
      [rs[0]] + InsertRange(rs[1..], r)
  }

  function SortRanges(rs: seq<Range>): (s: seq<Range>)
    ensures multiset(s) == multiset(rs)
  {
    if rs == [] then []
    else
      assert rs == [rs[0]] + rs[1..];
      InsertRange(SortRanges(rs[1..]), rs[0])
  }

  predicate Ascending(rs: seq<Range>) {
    forall i, k | 0 <= i < k < |rs| :: RangeBefore(rs[i], rs[k])
  }

  lemma {:induction false} InsertAscends(rs: seq<Range>, r: Range)
    requires Ascending(rs)
    ensures Ascending(InsertRange(rs, r))
  {
    if rs != [] && !RangeBefore(r, rs[0]) {
      var tail := InsertRange(rs[1..], r);
      InsertAscends(rs[1..], r);
      forall k | 0 <= k < |tail| ensures RangeBefore(rs[0], tail[k]) {
        assert tail[k] in multiset(tail);
        assert tail[k] == r || tail[k] in rs[1..];
      }
    }
  }

  lemma {:induction false} SortAscends(rs: seq<Range>)
    ensures Ascending(SortRanges(rs))
  {
    if rs != [] {
      SortAscends(rs[1..]);
      InsertAscends(SortRanges(rs[1..]), rs[0]);
    }
  }

  predicate CoveredBy(rs: seq<Range>, byte: nat) {
    exists r | r in rs :: r.0 <= byte <= r.1
  }

  /** Every byte below `size` was uploaded. */
  predicate Complete(rs: seq<Range>, size: nat) {
    forall byte | 0 <= byte < size :: CoveredBy(rs, byte)
  }

  lemma SameRanges(a: seq<Range>, b: seq<Range>, byte: nat)
    requires multiset(a) == multiset(b)
    ensures CoveredBy(a, byte) <==> CoveredBy(b, byte)
  {
    forall r ensures r in a <==> r in b {
      assert r in a <==> r in multiset(a);
      assert r in b <==> r in multiset(b);
    }
  }

  /** True exactly when the ranges, in any order and however they overlap, leave no byte out. */
  method RangesCover(ranges: seq<Range>, size: U64) returns (covers: bool)
    requires size > 0
    ensures covers <==> Complete(ranges, size)
  {
    var sorted := SortRanges(ranges);
    SortAscends(ranges);
    forall byte: nat ensures CoveredBy(sorted, byte) <==> CoveredBy(ranges, byte) { SameRanges(sorted, ranges, byte); }
    hide SortRanges, CoveredBy;
    assert Complete(sorted, size) <==> Complete(ranges, size);
    var covered: U64 := 0;
    var i := 0;
    while i < |sorted|
      invariant 0 <= i <= |sorted| && covered < size
      invariant Complete(sorted, covered)
      invariant forall k | 0 <= k < i :: SaturatingAdd(sorted[k].1, 1) <= covered
    {
      var range := sorted[i];
      if range.0 > covered {
        GapIsUncovered(sorted, i, covered);
        return false;
      }
      CoverageGrows(sorted, i, covered);
      covered := Max(covered, SaturatingAdd(range.1, 1));
      if covered >= size { return true; }
      i := i + 1;
    }
    GapIsUncovered(sorted, i, covered);
    return false;
  }

  /** When all earlier ranges end before `covered` and all later ones start behind it, that byte is missing. */
  lemma GapIsUncovered(sorted: seq<Range>, i: nat, covered: U64)
    requires Ascending(sorted) && i <= |sorted| && covered < MAX_U64
    requires forall k | 0 <= k < i :: SaturatingAdd(sorted[k].1, 1) <= covered
    requires i < |sorted| ==> sorted[i].0 > covered
    ensures !CoveredBy(sorted, covered)
  {
    forall r | r in sorted ensures !(r.0 <= covered <= r.1) {
      var k :| 0 <= k < |sorted| && sorted[k] == r;
      assert k > i ==> RangeBefore(sorted[i], sorted[k]);
    }
  }

  lemma CoverageGrows(sorted: seq<Range>, i: nat, covered: U64)
    requires i < |sorted| && sorted[i].0 <= covered && Complete(sorted, covered)
    ensures Complete(sorted, Max(covered, SaturatingAdd(sorted[i].1, 1)))
  {
    forall byte: nat | covered <= byte < SaturatingAdd(sorted[i].1, 1) ensures CoveredBy(sorted, byte) {
      assert sorted[i] in sorted;
    }
  }

  // ---------------------------------------------------------------- eviction

  datatype Entry = Entry(scope: string, key: string, version: string, size: U64, accessed: U64, created: U64)

  datatype Outcome = Removed | Missing | Broken

  datatype Failure = NoSpace | Filesystem

  function Total(es: seq<Entry>): nat {
    if es == [] then 0 else es[0].size + Total(es[1..])
  }

  /** The sum as the fold computes it. */
  function SaturatingTotal(es: seq<Entry>): U64 {
    if es == [] then 0 else SaturatingAdd(SaturatingTotal(es[..|es| - 1]), es[|es| - 1].size)
  }

  /** Least recently accessed first, ties by creation. */
  predicate Older(a: Entry, b: Entry) {
    a.accessed < b.accessed || (a.accessed == b.accessed && a.created <= b.created)
  }

  /** A stable insertion: behind every entry that is not younger. */
  function InsertEntry(es: seq<Entry>, e: Entry): (r: seq<Entry>)
    ensures multiset(r) == multiset(es) + multiset{e}
  {
    if es == [] || Older(es[|es| - 1], e) then es + [e]
    else
      assert es == es[..|es| - 1] + [es[|es| - 1]];
      InsertEntry(es[..|es| - 1], e) + [es[|es| - 1]]
  }

  function ByAge(es: seq<Entry>): (r: seq<Entry>)
    ensures multiset(r) == multiset(es)
  {
    if es == [] then []
    else
      assert es == es[..|es| - 1] + [es[|es| - 1]];
      InsertEntry(ByAge(es[..|es| - 1]), es[|es| - 1])
  }

  predicate InOrder(es: seq<Entry>) {
    forall i, k | 0 <= i < k < |es| :: Older(es[i], es[k])
  }

  lemma {:induction false} InsertKeepsOrder(es: seq<Entry>, e: Entry)
    requires InOrder(es)
    ensures InOrder(InsertEntry(es, e))
  {
    if es != [] && !Older(es[|es| - 1], e) {
      var last := es[|es| - 1];
      var front := InsertEntry(es[..|es| - 1], e);
      InsertKeepsOrder(es[..|es| - 1], e);
      forall k | 0 <= k < |front| ensures Older(front[k], last) {
        assert front[k] in multiset(front);
        assert front[k] == e || front[k] in es[..|es| - 1];
      }
    }
  }

  lemma {:induction false} ByAgeInOrder(es: seq<Entry>)
    ensures InOrder(ByAge(es))
  {
    if es != [] {
      ByAgeInOrder(es[..|es| - 1]);
      InsertKeepsOrder(ByAge(es[..|es| - 1]), es[|es| - 1]);
    }
  }

  /** The budget of one eviction: entries last accessed before the cutoff are expired. */
  datatype Budget = Budget(cutoff: U64, maximum: U64, required: U64)

  predicate Evicts(b: Budget, e: Entry, total: U64) {
    e.accessed < b.cutoff || SaturatingAdd(total, b.required) > b.maximum
  }

  /** What is left on disk, the running total, and why the sweep failed. */
  datatype Sweep = Sweep(left: seq<Entry>, total: U64, error: Option<Failure>)
  {
    /** The same sweep behind entries that stay. */
    function Behind(kept: seq<Entry>): Sweep {
      Sweep(kept + left, total, error)
    }
  }

  /** What the loop makes of `es` and of the running total, whatever the file system does. */
  function Evicted(b: Budget, es: seq<Entry>, total: U64, outcome: Entry -> Outcome): Sweep {
    if es == [] then Sweep([], total, None)
    else if !Evicts(b, es[0], total) then Evicted(b, es[1..], total, outcome).Behind([es[0]])
    else match outcome(es[0])
      case Broken => Sweep(es, total, Some(Filesystem))
      case Missing => Evicted(b, es[1..], total, outcome)
      case Removed => Evicted(b, es[1..], SaturatingSub(total, es[0].size), outcome)
  }

  /** The comparison behind the loop; what the loop deleted stays deleted. */
  function Checked(b: Budget, s: Sweep): Sweep {
    if s.error.None? && SaturatingAdd(s.total, b.required) > b.maximum then s.(error := Some(NoSpace)) else s
  }

  /** The result of a whole eviction. */
  function Eviction(b: Budget, entries: seq<Entry>, outcome: Entry -> Outcome): Sweep {
    Checked(b, Evicted(b, ByAge(entries), SaturatingTotal(entries), outcome))
  }

  lemma BehindBoth(kept: seq<Entry>, e: Entry, s: Sweep)
    ensures s.Behind([e]).Behind(kept) == s.Behind(kept + [e]) && s.Behind([]) == s
  {
    assert kept + ([e] + s.left) == (kept + [e]) + s.left;
    assert [] + s.left == s.left;
  }

  method SumSizes(entries: seq<Entry>) returns (total: U64)
    ensures total == SaturatingTotal(entries)
  {
    total := 0;
    var i := 0;
    while i < |entries|
      invariant 0 <= i <= |entries| && total == SaturatingTotal(entries[..i])
    {
      assert entries[..i + 1][..i] == entries[..i];
      total := SaturatingAdd(total, entries[i].size);
      i := i + 1;
    }
    assert entries[..i] == entries;
  }

  method EvictForSpace(b: Budget, entries: seq<Entry>, outcome: Entry -> Outcome) returns (s: Sweep)
    ensures s == Eviction(b, entries, outcome)
  {
    var total := SumSizes(entries);
    var sorted := ByAge(entries);
    ghost var start := total;
    hide ByAge, SaturatingTotal;
    var kept: seq<Entry> := [];
    var i := 0;
    BehindBoth([], Entry("", "", "", 0, 0, 0), Evicted(b, sorted, total, outcome));
    assert sorted[0..] == sorted;
    while i < |sorted|
      invariant 0 <= i <= |sorted|
      invariant Evicted(b, sorted[i..], total, outcome).Behind(kept) == Evicted(b, sorted, start, outcome)
    {
      var entry := sorted[i];
      assert sorted[i..][0] == entry && sorted[i..][1..] == sorted[i + 1..];
      if Evicts(b, entry, total) {
        match outcome(entry)
        case Removed => total := SaturatingSub(total, entry.size);
        case Missing =>
        case Broken => return Sweep(kept + sorted[i..], total, Some(Filesystem));
      } else {
        BehindBoth(kept, entry, Evicted(b, sorted[i + 1..], total, outcome));
        kept := kept + [entry];
      }
      i := i + 1;
    }
    assert kept + [] == kept;
    return Checked(b, Sweep(kept, total, None));
  }

  // ---------------------------------------------------------------- exact LRU

  lemma {:induction false} TotalConcat(a: seq<Entry>, b: seq<Entry>)
    ensures Total(a + b) == Total(a) + Total(b)
  {
    if a == [] {
      assert a + b == b;
    } else {
      assert (a + b)[1..] == a[1..] + b;
      TotalConcat(a[1..], b);
    }
  }

  lemma {:induction false} SaturatingTotalIs(es: seq<Entry>)
    ensures SaturatingTotal(es) == if Total(es) > MAX_U64 then MAX_U64 else Total(es)
  {
    if es != [] {
      var front, last := es[..|es| - 1], es[|es| - 1];
      assert es == front + [last];
      SaturatingTotalIs(front);
      TotalConcat(front, [last]);
      assert Total([last]) == last.size;
    }
  }

  lemma {:induction false} TotalInserted(es: seq<Entry>, e: Entry)
    ensures Total(InsertEntry(es, e)) == Total(es) + e.size
  {
    if es == [] || Older(es[|es| - 1], e) {
      TotalConcat(es, [e]);
    } else {
      var front, last := es[..|es| - 1], es[|es| - 1];
      TotalInserted(front, e);
      TotalConcat(InsertEntry(front, e), [last]);
      TotalConcat(front, [last]);
      assert es == front + [last];
    }
    assert Total([e]) == e.size;
  }

  lemma {:induction false} TotalByAge(es: seq<Entry>)
    ensures Total(ByAge(es)) == Total(es)
  {
    hide InsertEntry, Older;
    if es != [] {
      var front, last := es[..|es| - 1], es[|es| - 1];
      TotalByAge(front);
      TotalInserted(ByAge(front), last);
      TotalConcat(front, [last]);
      assert es == front + [last] && Total([last]) == last.size;
    }
  }

  predicate NothingBroken(outcome: Entry -> Outcome, es: seq<Entry>) {
    forall e | e in es :: outcome(e) == Removed
  }

  predicate Fresh(b: Budget, es: seq<Entry>, k: nat) {
    forall i | k <= i < |es| :: es[i].accessed >= b.cutoff
  }

  /** The running total when all of `es` is left: the true total short of what saturation lost. */
  function Counted(es: seq<Entry>, lost: nat): nat {
    if Total(es) < lost then 0 else Total(es) - lost
  }

  /** Without the first `k` entries nothing expired is left and the new entry seems to fit. */
  predicate Seems(b: Budget, es: seq<Entry>, lost: nat, k: nat) {
    k <= |es| && Fresh(b, es, k) && (b.maximum == MAX_U64 || Counted(es[k..], lost) + b.required <= b.maximum)
  }

  /** The shortest prefix whose removal seems to suffice. */
  predicate StopsAt(b: Budget, es: seq<Entry>, lost: nat, k: nat) {
    Seems(b, es, lost, k) && forall m | 0 <= m < k :: !Seems(b, es, lost, m)
  }

  /** What the loop keeps is everything behind that prefix. */
  lemma {:induction false} EvictsPrefix(b: Budget, es: seq<Entry>, lost: nat, outcome: Entry -> Outcome) returns (k: nat)
    requires InOrder(es) && NothingBroken(outcome, es) && Counted(es, lost) <= MAX_U64 && b.required <= b.maximum
    ensures StopsAt(b, es, lost, k) && Counted(es[k..], lost) <= MAX_U64
    ensures Evicted(b, es, Counted(es, lost), outcome) == Sweep(es[k..], Counted(es[k..], lost), None)
  {
    if es == [] {
      return 0;
    }
    var rest := es[1..];
    assert es == [es[0]] + rest && es[0..] == es;
    assert NothingBroken(outcome, rest) && InOrder(rest);
    if Evicts(b, es[0], Counted(es, lost)) {
      var m := EvictsPrefix(b, rest, lost, outcome);
      k := m + 1;
      assert !Seems(b, es, lost, 0);
      LongerPrefix(b, es, lost, m);
    } else {
      k := 0;
      assert Fresh(b, es, 0) by {
        forall i | 0 < i < |es| ensures es[i].accessed >= b.cutoff { assert Older(es[0], es[i]); }
      }
      NothingMoreEvicted(b, es, Counted(es, lost), outcome);
    }
  }

  lemma LongerPrefix(b: Budget, es: seq<Entry>, lost: nat, m: nat)
    requires es != [] && StopsAt(b, es[1..], lost, m) && !Seems(b, es, lost, 0)
    ensures StopsAt(b, es, lost, m + 1) && es[m + 1..] == es[1..][m..]
  {
    var rest := es[1..];
    forall k: nat | k <= |rest| ensures Seems(b, rest, lost, k) <==> Seems(b, es, lost, k + 1) {
      assert rest[k..] == es[k + 1..];
      assert forall i | 0 <= i < |rest| :: rest[i] == es[i + 1];
      if Fresh(b, rest, k) {
        forall i | k + 1 <= i < |es| ensures es[i].accessed >= b.cutoff { assert rest[i - 1] == es[i]; }
      }
    }
    forall n | 0 <= n < m + 1 ensures !Seems(b, es, lost, n) {
      if n > 0 { assert !Seems(b, rest, lost, n - 1); }
    }
  }

  lemma {:induction false} NothingMoreEvicted(b: Budget, es: seq<Entry>, total: U64, outcome: Entry -> Outcome)
    requires Fresh(b, es, 0) && SaturatingAdd(total, b.required) <= b.maximum
    ensures Evicted(b, es, total, outcome) == Sweep(es, total, None)
  {
    if es != [] {
      NothingMoreEvicted(b, es[1..], total, outcome);
      assert es == [es[0]] + es[1..];
    }
  }

  function Lost(entries: seq<Entry>): nat {
    if Total(entries) > MAX_U64 then Total(entries) - MAX_U64 else 0
  }

  /** Whatever the sizes: the shortest prefix in age order goes after which the new entry seems to fit. */
  lemma EvictionStops(b: Budget, entries: seq<Entry>, outcome: Entry -> Outcome) returns (k: nat)
    requires NothingBroken(outcome, entries) && b.required <= b.maximum
    ensures var es := ByAge(entries);
      && StopsAt(b, es, Lost(entries), k)
      && Eviction(b, entries, outcome).left == es[k..] && Eviction(b, entries, outcome).error == None
  {
    var es := ByAge(entries);
    ByAgeInOrder(entries);
    SaturatingTotalIs(entries);
    TotalByAge(entries);
    SameEntries(outcome, entries, es);
    hide ByAge, SaturatingTotal;
    k := EvictsPrefix(b, es, Lost(entries), outcome);
  }

  /** A new entry larger than the whole budget is refused, and the store is empty afterwards. */
  lemma TooLargeEmptiesStore(b: Budget, entries: seq<Entry>, outcome: Entry -> Outcome)
    requires NothingBroken(outcome, entries) && b.required > b.maximum
    ensures Eviction(b, entries, outcome).left == [] && Eviction(b, entries, outcome).error == Some(NoSpace)
  {
    SameEntries(outcome, entries, ByAge(entries));
    EverythingEvicted(b, ByAge(entries), SaturatingTotal(entries), outcome);
  }

  lemma {:induction false} EverythingEvicted(b: Budget, es: seq<Entry>, total: U64, outcome: Entry -> Outcome)
    requires NothingBroken(outcome, es) && b.required > b.maximum
    ensures Evicted(b, es, total, outcome).left == [] && Evicted(b, es, total, outcome).error == None
  {
    if es != [] {
      assert es[0] in es && forall e | e in es[1..] :: e in es;
      EverythingEvicted(b, es[1..], SaturatingSub(total, es[0].size), outcome);
    }
  }

  /** Without the first `k` entries nothing expired is left and the new entry fits. */
  predicate Enough(b: Budget, es: seq<Entry>, k: nat) {
    k <= |es| && Fresh(b, es, k) && Total(es[k..]) + b.required <= b.maximum
  }

  /**
   * Eviction is exact LRU: the shortest sufficient prefix in age order goes, and it fails exactly
   * when the new entry alone exceeds the budget.
   */
  lemma EvictionIsExactLru(b: Budget, entries: seq<Entry>, outcome: Entry -> Outcome) returns (k: nat)
    requires NothingBroken(outcome, entries) && SizesFit(b.maximum, entries, b.required)
    ensures Eviction(b, entries, outcome).error == if b.required <= b.maximum then None else Some(NoSpace)
    ensures var es := ByAge(entries);
      && k <= |es| && Eviction(b, entries, outcome).left == es[k..] && (forall m | 0 <= m < k :: !Enough(b, es, m))
      && (b.required <= b.maximum ==> Enough(b, es, k))
  {
    var es := ByAge(entries);
    if b.required <= b.maximum {
      k := EvictionStops(b, entries, outcome);
      TotalByAge(entries);
      hide ByAge;
      forall m: nat | m <= |es| ensures Seems(b, es, 0, m) <==> Enough(b, es, m) {
        SuffixBelow(es, 0, m);
      }
    } else {
      k := |es|;
      TooLargeEmptiesStore(b, entries, outcome);
    }
  }

  /** Whatever stays was used no earlier than whatever goes, and of two last used together the older goes. */
  lemma EvictionSpares(b: Budget, entries: seq<Entry>, outcome: Entry -> Outcome, kept: Entry, gone: Entry)
    requires NothingBroken(outcome, entries) && kept in Eviction(b, entries, outcome).left
    requires gone in entries && gone !in Eviction(b, entries, outcome).left
    ensures gone.accessed < kept.accessed || (gone.accessed == kept.accessed && gone.created <= kept.created)
  {
    hide *;
    if b.required > b.maximum {
      TooLargeEmptiesStore(b, entries, outcome);
    } else {
      var k := EvictionStops(b, entries, outcome);
      ByAgeInOrder(entries);
      assert gone in multiset(ByAge(entries));
      StopsWithin(b, ByAge(entries), Lost(entries), k);
      FrontIsOlder(ByAge(entries), k, gone, kept);
    }
  }

  lemma StopsWithin(b: Budget, es: seq<Entry>, lost: nat, k: nat)
    requires StopsAt(b, es, lost, k)
    ensures k <= |es|
  {
  }

  lemma FrontIsOlder(es: seq<Entry>, k: nat, gone: Entry, kept: Entry)
    requires InOrder(es) && k <= |es| && gone in es && gone !in es[k..] && kept in es[k..]
    ensures gone.accessed < kept.accessed || (gone.accessed == kept.accessed && gone.created <= kept.created)
  {
    assert es == es[..k] + es[k..];
    var i :| 0 <= i < k && es[..k][i] == gone;
    var m :| 0 <= m < |es[k..]| && es[k..][m] == kept;
    assert Older(es[i], es[k + m]);
  }

  /** A shorter suffix weighs no more. */
  lemma SuffixBelow(es: seq<Entry>, k: nat, m: nat)
    requires k <= m <= |es|
    ensures Total(es[m..]) <= Total(es[k..])
  {
    assert es[k..] == es[k..m] + es[m..];
    TotalConcat(es[k..m], es[m..]);
  }

  lemma SameEntries(outcome: Entry -> Outcome, a: seq<Entry>, b: seq<Entry>)
    requires NothingBroken(outcome, a) && multiset(a) == multiset(b)
    ensures NothingBroken(outcome, b)
  {
    forall e | e in b ensures e in a { assert e in multiset(a); }
  }

  // ---------------------------------------------------------------- entries whose files are gone already

  /** What deleting the entries marked in `went` freed; a file that was missing frees nothing. */
  function Freed(es: seq<Entry>, went: seq<bool>, outcome: Entry -> Outcome): nat
    requires |went| == |es|
  {
    if es == [] then 0
    else (if went[0] && outcome(es[0]) == Removed then es[0].size else 0) + Freed(es[1..], went[1..], outcome)
  }

  function Kept(es: seq<Entry>, went: seq<bool>): seq<Entry>
    requires |went| == |es|
  {
    if es == [] then [] else (if went[0] then [] else [es[0]]) + Kept(es[1..], went[1..])
  }

  /** Each entry goes exactly when it is expired or what is counted before it leaves too little space. */
  predicate Sweeps(b: Budget, es: seq<Entry>, total: nat, went: seq<bool>, outcome: Entry -> Outcome)
    requires |went| == |es|
  {
    forall i | 0 <= i < |es| ::
      went[i] <==> es[i].accessed < b.cutoff || total - Freed(es[..i], went[..i], outcome) + b.required > b.maximum
  }

  /** The sweep over files that may be missing: who goes, what stays, and the total it ends with. */
  lemma {:induction false} SweepExactly(b: Budget, es: seq<Entry>, total: U64, outcome: Entry -> Outcome) returns (went: seq<bool>)
    requires Total(es) <= total && total + b.required <= MAX_U64 && forall e | e in es :: outcome(e) != Broken
    ensures |went| == |es| && Sweeps(b, es, total, went, outcome) && Freed(es, went, outcome) <= Total(es)
    ensures Evicted(b, es, total, outcome) == Sweep(Kept(es, went), total - Freed(es, went, outcome), None)
  {
    went := [];
    if es != [] {
      var e, rest := es[0], es[1..];
      assert e in es && forall x | x in rest :: x in es;
      var goes := Evicts(b, e, total);
      EvictedStep(b, es, total, outcome);
      assert Total(es) == e.size + Total(rest);
      hide *;
      var left := if goes && outcome(e) == Removed then total - e.size else total;
      var more := SweepExactly(b, rest, left, outcome);
      went := [goes] + more;
      assert went[1..] == more;
      FreedStep(es, went, outcome);
      SweepsLonger(b, es, total, went, outcome);
    }
  }

  lemma FreedStep(es: seq<Entry>, went: seq<bool>, outcome: Entry -> Outcome)
    requires es != [] && |went| == |es|
    ensures Freed(es, went, outcome)
            == (if went[0] && outcome(es[0]) == Removed then es[0].size else 0) + Freed(es[1..], went[1..], outcome)
    ensures Kept(es, went) == (if went[0] then [] else [es[0]]) + Kept(es[1..], went[1..])
  {
  }

  lemma EvictedStep(b: Budget, es: seq<Entry>, total: U64, outcome: Entry -> Outcome)
    requires es != [] && outcome(es[0]) != Broken && es[0].size <= total
    ensures var goes := Evicts(b, es[0], total);
            var rest := Evicted(b, es[1..], if goes && outcome(es[0]) == Removed then total - es[0].size else total, outcome);
            Evicted(b, es, total, outcome) == if goes then rest else rest.Behind([es[0]])
  {
    hide Evicts;
  }

  lemma SweepsLonger(b: Budget, es: seq<Entry>, total: U64, went: seq<bool>, outcome: Entry -> Outcome)
    requires es != [] && |went| == |es| && es[0].size <= total && total + b.required <= MAX_U64
    requires went[0] <==> Evicts(b, es[0], total)
    requires Sweeps(b, es[1..], if went[0] && outcome(es[0]) == Removed then total - es[0].size else total, went[1..], outcome)
    ensures Sweeps(b, es, total, went, outcome)
  {
    var rest, more := es[1..], went[1..];
    forall i | 0 <= i < |es|
      ensures went[i] <==> es[i].accessed < b.cutoff || total - Freed(es[..i], went[..i], outcome) + b.required > b.maximum
    {
      if i > 0 {
        assert es[..i][1..] == rest[..i - 1] && went[..i][1..] == more[..i - 1];
        assert more[i - 1] == went[i] && rest[i - 1] == es[i];
      }
    }
  }

  // ---------------------------------------------------------------- beyond 64 bits

  /** Nothing behind the first `k` entries is expired; it exceeds the budget, but no more than the count hides. */
  predicate Deceives(b: Budget, es: seq<Entry>, lost: nat, k: nat) {
    && k <= |es| && Fresh(b, es, k) && Total(es[k..]) + b.required > b.maximum
    && (b.maximum == MAX_U64 || Total(es[k..]) + b.required <= b.maximum + lost)
  }

  /** An accepted entry leaves the store above its budget if and only if some unexpired suffix deceives the count. */
  lemma LeavesTooMuchExactly(b: Budget, entries: seq<Entry>, outcome: Entry -> Outcome)
    requires NothingBroken(outcome, entries) && b.required <= b.maximum
    ensures Total(Eviction(b, entries, outcome).left) + b.required > b.maximum
            <==> exists k :: Deceives(b, ByAge(entries), Lost(entries), k)
  {
    var es := ByAge(entries);
    var k := EvictionStops(b, entries, outcome);
    hide ByAge;
    if Total(es[k..]) + b.required > b.maximum {
      assert Deceives(b, es, Lost(entries), k);
    }
    if m :| Deceives(b, es, Lost(entries), m) {
      assert Seems(b, es, Lost(entries), m);
      SuffixBelow(es, k, m);
    }
  }

  const HALF: U64 := 0x8000_0000_0000_0000

  function Sample(accessed: U64): Entry {
    Entry("s", "k", "v", HALF, accessed, 0)
  }

  /** Sorting leaves what is in order alone. */
  lemma {:induction false} InOrderStays(es: seq<Entry>)
    requires InOrder(es)
    ensures ByAge(es) == es
  {
    hide Older;
    if es != [] {
      var front, last := es[..|es| - 1], es[|es| - 1];
      InOrderStays(front);
      assert front != [] ==> Older(front[|front| - 1], last);
      assert es == front + [last];
    }
  }

  lemma SampleTotals()
    ensures Total([Sample(1), Sample(2)]) == HALF + HALF
    ensures Total([Sample(0), Sample(1), Sample(2)]) == HALF + HALF + HALF
  {
    var e, f, g := Sample(0), Sample(1), Sample(2);
    assert [e, f, g][1..] == [f, g] && [f, g][1..] == [g] && [g][1..] == [];
    assert Total([g]) == HALF;
  }

  /** The fold over the sizes saturates: with three entries of half the range, two are taken for none too many. */
  lemma SaturationLeavesTooMuch()
    ensures var b, es := Budget(0, HALF, 0), [Sample(0), Sample(1), Sample(2)];
            Total(Eviction(b, es, _ => Removed).left) + b.required > b.maximum
  {
    var b, es := Budget(0, HALF, 0), [Sample(0), Sample(1), Sample(2)];
    SampleTotals();
    InOrderStays(es);
    assert es[1..] == [Sample(1), Sample(2)];
    hide ByAge, Total, Sample;
    assert Deceives(b, es, Lost(es), 1) by { assert es[1].accessed == 1 && es[2].accessed == 2; }
    LeavesTooMuchExactly(b, es, _ => Removed);
  }

  /** With the largest budget the comparison never fails: two entries of half the range stay beside a third. */
  lemma LargestBudgetNeverEvicts()
    ensures var b, es := Budget(0, MAX_U64, HALF), [Sample(1), Sample(2)];
            Total(Eviction(b, es, _ => Removed).left) + b.required > b.maximum
  {
    var b, es := Budget(0, MAX_U64, HALF), [Sample(1), Sample(2)];
    SampleTotals();
    InOrderStays(es);
    assert es[0..] == es;
    hide ByAge, Total, Sample;
    assert Deceives(b, es, Lost(es), 0);
    LeavesTooMuchExactly(b, es, _ => Removed);
  }

  /** The sizes add up within 64 bits. */
  predicate SizesFit(maximum: U64, entries: seq<Entry>, size: U64) {
    Total(entries) <= MAX_U64 && (maximum < MAX_U64 || Total(entries) + size <= MAX_U64)
  }

  // ---------------------------------------------------------------- the store

  const RETENTION := 604_800_000

  /** `file` says of each byte of the upload whether a chunk wrote it; a gap left by seeking reads as false. */
  datatype Reservation = Reservation(key: string, version: string, ranges: seq<Range>, file: seq<bool>, committed: bool)
  {
    /** Every recorded range is on disk. */
    predicate RangesWritten() {
      forall r | r in ranges :: RangeWritten(file, r)
    }
  }

  predicate RangeWritten(file: seq<bool>, r: Range) {
    r.1 < |file| && forall byte | r.0 <= byte <= r.1 :: file[byte]
  }

  datatype Status = Created | NoContent | Stored | BadRequest | NotFound | Conflict | TooLarge | Internal

  function Cutoff(now: U64): U64 {
    SaturatingSub(now, RETENTION)
  }

  /** Entries not used for seven days are expired. */
  lemma CutoffIs(now: U64)
    ensures Cutoff(now) == if now < 7 * 24 * 60 * 60 * 1000 then 0 else now - 7 * 24 * 60 * 60 * 1000
  {
  }

  /** Writing `n` bytes at `start`, extending the file where needed. */
  function Written(file: seq<bool>, start: nat, n: nat): seq<bool> {
    var length := if n > 0 && start + n > |file| then start + n else |file|;
    seq(length, i requires 0 <= i < length => (start <= i < start + n) || (i < |file| && file[i]))
  }

  predicate Holds(entries: seq<Entry>, scope: string, key: string, version: string) {
    exists e | e in entries :: e.scope == scope && e.key == key && e.version == version
  }

  /** The entries of one scope that are not expired, and all of other scopes. */
  function Unexpired(entries: seq<Entry>, scope: string, cutoff: U64): (r: seq<Entry>)
    ensures forall e :: e in r <==> e in entries && (e.scope == scope ==> e.accessed >= cutoff)
  {
    if entries == [] then []
    else
      assert entries == [entries[0]] + entries[1..];
      (if entries[0].scope == scope && entries[0].accessed < cutoff then [] else [entries[0]]) + Unexpired(entries[1..], scope, cutoff)
  }

  lemma {:induction false} UnexpiredTotal(entries: seq<Entry>, scope: string, cutoff: U64)
    ensures Total(Unexpired(entries, scope, cutoff)) <= Total(entries)
  {
    if entries != [] {
      UnexpiredTotal(entries[1..], scope, cutoff);
      var head := if entries[0].scope == scope && entries[0].accessed < cutoff then [] else [entries[0]];
      TotalConcat(head, Unexpired(entries[1..], scope, cutoff));
      assert Total([entries[0]]) == entries[0].size;
    }
  }

  /** Further writing takes nothing back, and a fully received chunk is all there. */
  lemma WritingKeeps(r: Reservation, start: U64, end: U64, n: nat)
    requires r.RangesWritten() && start <= end
    ensures r.(file := Written(r.file, start, n)).RangesWritten()
    ensures n == end - start + 1 ==> r.(file := Written(r.file, start, n), ranges := r.ranges + [(start, end)]).RangesWritten()
  {
    var file := Written(r.file, start, n);
    assert |r.file| <= |file| && forall byte | 0 <= byte < |r.file| && r.file[byte] :: file[byte];
    forall range | range in r.ranges ensures RangeWritten(file, range) {
      assert RangeWritten(r.file, range);
    }
    if n == end - start + 1 {
      assert RangeWritten(file, (start, end));
    }
  }

  lemma CompleteIsWritten(r: Reservation, size: nat)
    requires r.RangesWritten() && Complete(r.ranges, size) && |r.file| == size
    ensures forall byte | 0 <= byte < size :: r.file[byte]
  {
    forall byte | 0 <= byte < size ensures r.file[byte] {
      assert CoveredBy(r.ranges, byte);
      var range :| range in r.ranges && range.0 <= byte <= range.1;
      assert RangeWritten(r.file, range);
    }
  }

  function Sum(frames: seq<nat>): nat {
    if frames == [] then 0 else Sum(frames[..|frames| - 1]) + frames[|frames| - 1]
  }

  lemma {:induction false} SumGrows(frames: seq<nat>, i: nat)
    requires i <= |frames|
    ensures Sum(frames[..i]) <= Sum(frames)
  {
    if i < |frames| {
      var front := frames[..|frames| - 1];
      assert front[..i] == frames[..i];
      SumGrows(front, i);
    } else {
      assert frames[..i] == frames;
    }
  }

  /** The bytes written: those of the frames before the first one that goes beyond what is expected. */
  method Receive(frames: seq<nat>, expected: nat) returns (written: nat, fits: bool)
    ensures fits <==> Sum(frames) <= expected
    ensures exists i | 0 <= i <= |frames| :: written == Sum(frames[..i]) && (if fits then i == |frames| else i < |frames| && Sum(frames[..i + 1]) > expected)
    ensures written <= expected && (fits ==> written == Sum(frames))
  {
    written := 0;
    var i := 0;
    while i < |frames|
      invariant 0 <= i <= |frames| && written == Sum(frames[..i]) && written <= expected
    {
      assert frames[..i + 1][..i] == frames[..i];
      if written + frames[i] > expected {
        SumGrows(frames, i + 1);
        return written, false;
      }
      written := written + frames[i];
      i := i + 1;
    }
    assert frames[..i] == frames;
    fits := true;
  }

  class WorkflowCache {
    const scope: string
    const maximumBytes: U64
    const maximumEntryBytes: U64
    var entries: seq<Entry>
    var reservations: map<nat, Reservation>
    var nextReservation: nat

    ghost predicate Valid()
      reads this
    {
      forall id | id in reservations :: id < nextReservation && reservations[id].RangesWritten()
    }

    constructor (scope: string, maximumBytes: U64, maximumEntryBytes: U64, entries: seq<Entry>)
      ensures Valid() && this.entries == entries && reservations == map[]
      ensures this.scope == scope && this.maximumBytes == maximumBytes && this.maximumEntryBytes == maximumEntryBytes
    {
      this.scope, this.maximumBytes, this.maximumEntryBytes := scope, maximumBytes, maximumEntryBytes;
      this.entries, reservations, nextReservation := entries, map[], 0;
    }

    method Reserve(key: string, version: string, announced: Option<U64>, now: U64) returns (status: Status, id: nat)
      requires Valid()
      modifies this
      ensures Valid()
      ensures entries == old(entries) || entries == Unexpired(old(entries), scope, Cutoff(now))
      ensures status == Created <==> (announced.Some? ==> announced.value <= maximumEntryBytes)
                                     && !Holds(Unexpired(old(entries), scope, Cutoff(now)), scope, key, version)
      ensures status == Created ==>
        id !in old(reservations) && reservations == old(reservations)[id := Reservation(key, version, [], [], false)]
      ensures status != Created ==> reservations == old(reservations)
    {
      id := nextReservation;
      if announced.Some? && announced.value > maximumEntryBytes { return TooLarge, id; }
      entries := Unexpired(entries, scope, Cutoff(now));
      if Holds(entries, scope, key, version) { return Conflict, id; }
      nextReservation := nextReservation + 1;
      reservations := reservations[id := Reservation(key, version, [], [], false)];
      status := Created;
    }

    /** A chunk announced as `start-end` arrives in frames; each is written unless it goes beyond the announcement. */
    method UploadChunk(id: nat, start: U64, end: U64, frames: seq<nat>) returns (status: Status)
      requires Valid() && start <= end
      modifies this`reservations
      ensures Valid()
      ensures status == NoContent ==>
        && id in old(reservations) && id in reservations && Sum(frames) == end - start + 1
        && reservations[id].ranges == old(reservations)[id].ranges + [(start, end)]
      ensures status == NoContent <==> end < maximumEntryBytes && id in old(reservations) && !old(reservations)[id].committed
                                       && Sum(frames) == end - start + 1
      ensures status != NoContent ==>
        forall k | k in reservations :: k in old(reservations) && reservations[k].ranges == old(reservations)[k].ranges
    {
      if end >= maximumEntryBytes { return TooLarge; }
      if id !in reservations { return NotFound; }
      var r := reservations[id];
      if r.committed { return Conflict; }
      var expected := end - start + 1;
      var n, fits := Receive(frames, expected);
      assert reservations[id].RangesWritten();
      WritingKeeps(r, start, end, n);
      hide Written, Max;
      r := r.(file := Written(r.file, start, n));
      if fits && n == expected {
        r := r.(ranges := r.ranges + [(start, end)]);
        status := NoContent;
      } else {
        status := BadRequest;
      }
      reservations := reservations[id := r];
    }

    /**
     * Stores a complete upload: nothing missing in it, its key new in the scope, the least recently
     * used entries gone as far as needed, and the whole store within its budget.
     */
    method Commit(id: nat, size: U64, now: U64) returns (status: Status)
      requires Valid()
      modifies this`entries, this`reservations
      ensures Valid()
      ensures status == Stored ==>
        && id in old(reservations) && !old(reservations)[id].committed
        && |old(reservations)[id].file| == size && (forall byte | 0 <= byte < size :: old(reservations)[id].file[byte])
        && reservations == old(reservations)[id := old(reservations)[id].(committed := true)]
      ensures status == Stored ==>
        var r, rest := old(reservations)[id], Unexpired(old(entries), scope, Cutoff(now));
        && !Holds(rest, scope, r.key, r.version)
        && var swept := Eviction(Budget(Cutoff(now), maximumBytes, size), rest, _ => Removed);
           swept.error.None? && entries == swept.left + [Entry(scope, r.key, r.version, size, now, now)]
      ensures status == Stored && SizesFit(maximumBytes, old(entries), size) ==> Total(entries) <= maximumBytes
      ensures status == Internal ==> size > maximumBytes && entries == []
      ensures status == Stored ==> size <= maximumBytes
      ensures status != Stored ==> reservations == old(reservations)
      ensures status !in {Stored, Internal} ==> entries in {old(entries), Unexpired(old(entries), scope, Cutoff(now))}
    {
      if size == 0 || size > maximumEntryBytes { return TooLarge; }
      if id !in reservations { return NotFound; }
      var r := reservations[id];
      if r.committed { return NoContent; }
      var covered := RangesCover(r.ranges, size);
      if !covered { return BadRequest; }
      if |r.file| != size { return BadRequest; }
      CompleteIsWritten(r, size);
      hide *;
      entries := Unexpired(entries, scope, Cutoff(now));
      if Holds(entries, scope, r.key, r.version) { return Conflict; }
      var budget := Budget(Cutoff(now), maximumBytes, size);
      var swept := EvictForSpace(budget, entries, _ => Removed);
      RefusedForSpace(budget, entries);
      ghost var rest := entries;
      entries := swept.left;
      if swept.error.Some? { return Internal; }
      var entry := Entry(scope, r.key, r.version, size, now, now);
      entries := entries + [entry];
      CommitKeepsReservations(reservations, id, nextReservation);
      reservations := reservations[id := r.(committed := true)];
      UnexpiredFit(maximumBytes, old(entries), size, scope, Cutoff(now));
      if SizesFit(maximumBytes, old(entries), size) {
        StoredWithinBudget(budget, rest, entry);
      }
      status := Stored;
    }
  }

  lemma UnexpiredFit(maximum: U64, entries: seq<Entry>, size: U64, scope: string, cutoff: U64)
    ensures SizesFit(maximum, entries, size) ==> SizesFit(maximum, Unexpired(entries, scope, cutoff), size)
  {
    UnexpiredTotal(entries, scope, cutoff);
  }

  lemma CommitKeepsReservations(reservations: map<nat, Reservation>, id: nat, next: nat)
    requires forall k | k in reservations :: k < next && reservations[k].RangesWritten()
    requires id in reservations
    ensures var after := reservations[id := reservations[id].(committed := true)];
            forall k | k in after :: k < next && after[k].RangesWritten()
  {
    assert reservations[id].RangesWritten();
  }

  /** Space is refused exactly to entries larger than the whole budget, and then nothing is left. */
  lemma RefusedForSpace(b: Budget, entries: seq<Entry>)
    ensures Eviction(b, entries, _ => Removed).error.Some? <==> b.required > b.maximum
    ensures b.required > b.maximum ==> Eviction(b, entries, _ => Removed).left == []
  {
    hide Eviction;
    if b.required > b.maximum {
      TooLargeEmptiesStore(b, entries, _ => Removed);
    } else {
      var _ := EvictionStops(b, entries, _ => Removed);
    }
  }

  /** After a successful eviction the new entry fits. */
  lemma StoredWithinBudget(b: Budget, entries: seq<Entry>, entry: Entry)
    requires b.required <= b.maximum && SizesFit(b.maximum, entries, b.required) && entry.size == b.required
    ensures Total(Eviction(b, entries, _ => Removed).left + [entry]) <= b.maximum
  {
    hide Eviction, ByAge;
    var _ := EvictionIsExactLru(b, entries, _ => Removed);
    TotalConcat(Eviction(b, entries, _ => Removed).left, [entry]);
    assert Total([entry]) == entry.size;
  }
}
