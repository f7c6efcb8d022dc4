/** Longest-processing-time assignment of test files to CI shards. */
module TestShards {
  import opened Sorting

  type File = string

  datatype Result<+T> = Ok(value: T) | InvalidCount

  const HISTORY: File := "src/features/history/HistoryPage.test.tsx"
  const FILE_SETUP_SECONDS := 3.0
  const DEFAULT_WEIGHT := 0.25

  /** Measured seconds of a file; times are exact reals here, doubles in the program. */
  type Weights = map<File, real>

  ghost predicate ValidWeights(weights: Weights) {
    forall f :: f in weights ==> weights[f] >= 0.0
  }

  function Cost(weights: Weights, file: File): real {
    (if file in weights then weights[file] else DEFAULT_WEIGHT) + FILE_SETUP_SECONDS
  }

  /** Dearest first, equal costs by name. */
  predicate ComesBefore(weights: Weights, a: File, b: File) {
    Cost(weights, a) > Cost(weights, b) || (Cost(weights, a) == Cost(weights, b) && StringLeq(a, b))
  }

  function Order(weights: Weights): (File, File) -> bool {
    (a, b) => ComesBefore(weights, a, b)
  }

  lemma OrderIsTotal(weights: Weights)
    ensures TotalOrder(Order(weights))
  {
    StringOrder();
  }

  predicate Dedicated(files: seq<File>, count: int) {
    count >= 4 && HISTORY in files
  }

  function Without(files: seq<File>, file: File): seq<File> {
    if files == [] then []
    else if files[0] == file then Without(files[1..], file)
    else [files[0]] + Without(files[1..], file)
  }

  /** The files left for the LPT loop, in the order it takes them. */
  function Rest(weights: Weights, files: seq<File>, count: int): seq<File> {
    Sort(if Dedicated(files, count) then Without(files, HISTORY) else files, Order(weights))
  }

  function Costs(weights: Weights, files: seq<File>): seq<real> {
    seq(|files|, i requires 0 <= i < |files| => Cost(weights, files[i]))
  }

  // ----- Schedules: bins[i] is the bin that takes job i.

  function Load(bins: seq<nat>, costs: seq<real>, bin: nat): real
    requires |bins| == |costs|
  {
    if bins == [] then 0.0
    else
      var n := |bins| - 1;
      Load(bins[..n], costs[..n], bin) + if bins[n] == bin then costs[n] else 0.0
  }

  function TotalLoad(bins: seq<nat>, costs: seq<real>, first: nat, count: nat): real
    requires |bins| == |costs| && first <= count
    decreases count - first
  {
    if first == count then 0.0 else Load(bins, costs, first) + TotalLoad(bins, costs, first + 1, count)
  }

  function Sum(costs: seq<real>): real {
    if costs == [] then 0.0 else Sum(costs[..|costs| - 1]) + costs[|costs| - 1]
  }

  predicate InRange(bins: seq<nat>, first: nat, count: nat) {
    forall i :: 0 <= i < |bins| ==> first <= bins[i] < count
  }

  ghost predicate NonNegative(costs: seq<real>) {
    forall i :: 0 <= i < |costs| ==> costs[i] >= 0.0
  }

  ghost predicate IsMakespanBound(bins: seq<nat>, costs: seq<real>, bound: real)
    requires |bins| == |costs|
  {
    forall b: nat :: Load(bins, costs, b) <= bound
  }

  /** The bin the inner loop picks: the first of the least loaded bins from `first`. */
  ghost predicate IsFirstLeast(bins: seq<nat>, costs: seq<real>, first: nat, count: nat, target: nat)
    requires |bins| == |costs|
  {
    && first <= target < count
    && (forall b: nat :: first <= b < count ==> Load(bins, costs, target) <= Load(bins, costs, b))
    && (forall b: nat :: first <= b < target ==> Load(bins, costs, target) < Load(bins, costs, b))
  }

  /** A schedule built by always taking the first least loaded bin. */
  ghost predicate IsGreedy(bins: seq<nat>, costs: seq<real>, first: nat, count: nat) {
    && |bins| == |costs|
    && forall n :: 0 <= n < |bins| ==> IsFirstLeast(bins[..n], costs[..n], first, count, bins[n])
  }

  lemma {:induction false} GreedyIsUnique(a: seq<nat>, b: seq<nat>, costs: seq<real>, first: nat, count: nat)
    requires IsGreedy(a, costs, first, count) && IsGreedy(b, costs, first, count)
    ensures a == b
  {
    if a != [] {
      var n := |a| - 1;
      GreedyPrefix(a, costs, first, count, n);
      GreedyPrefix(b, costs, first, count, n);
      GreedyIsUnique(a[..n], b[..n], costs[..n], first, count);
      FirstLeastIsUnique(a[..n], costs[..n], first, count, a[n], b[n]);
      assert a == a[..n] + [a[n]] && b == b[..n] + [b[n]];
    }
  }

  lemma GreedyPrefix(bins: seq<nat>, costs: seq<real>, first: nat, count: nat, n: nat)
    requires IsGreedy(bins, costs, first, count) && n <= |bins|
    ensures IsGreedy(bins[..n], costs[..n], first, count)
  {
    forall k | 0 <= k < n ensures IsFirstLeast(bins[..n][..k], costs[..n][..k], first, count, bins[..n][k]) {
      assert bins[..n][..k] == bins[..k] && costs[..n][..k] == costs[..k];
    }
  }

  lemma FirstLeastIsUnique(bins: seq<nat>, costs: seq<real>, first: nat, count: nat, s: nat, t: nat)
    requires |bins| == |costs|
    requires IsFirstLeast(bins, costs, first, count, s) && IsFirstLeast(bins, costs, first, count, t)
    ensures s == t
  {
    assert Load(bins, costs, s) <= Load(bins, costs, t) <= Load(bins, costs, s);
  }

  // ----- Load arithmetic

  lemma {:induction false} LoadSplit(bins: seq<nat>, costs: seq<real>, bin: nat, i: nat)
    requires |bins| == |costs| && i < |bins|
    ensures Load(bins, costs, bin) == Load(bins, costs[i := 0.0], bin) + if bins[i] == bin then costs[i] else 0.0
  {
    var n := |bins| - 1;
    if i < n {
      LoadSplit(bins[..n], costs[..n], bin, i);
      assert costs[i := 0.0][..n] == costs[..n][i := 0.0];
    } else {
      assert costs[i := 0.0][..n] == costs[..n];
    }
  }

  lemma {:induction false} LoadIsNonNegative(bins: seq<nat>, costs: seq<real>, bin: nat)
    requires |bins| == |costs| && NonNegative(costs)
    ensures Load(bins, costs, bin) >= 0.0
  {
    if bins != [] {
      LoadIsNonNegative(bins[..|bins| - 1], costs[..|bins| - 1], bin);
    }
  }

  /** A positive load has a job that contributes to it. */
  lemma {:induction false} SomeJob(bins: seq<nat>, costs: seq<real>, bin: nat) returns (i: nat)
    requires |bins| == |costs| && Load(bins, costs, bin) > 0.0
    ensures i < |bins| && bins[i] == bin && costs[i] > 0.0
  {
    var n := |bins| - 1;
    if bins[n] == bin && costs[n] > 0.0 {
      i := n;
    } else {
      i := SomeJob(bins[..n], costs[..n], bin);
    }
  }

  lemma {:induction false} PrefixLoad(bins: seq<nat>, costs: seq<real>, bin: nat, n: nat)
    requires |bins| == |costs| && n <= |bins| && NonNegative(costs)
    ensures Load(bins[..n], costs[..n], bin) <= Load(bins, costs, bin)
  {
    if n == |bins| {
      assert bins[..n] == bins && costs[..n] == costs;
    } else {
      var m := |bins| - 1;
      assert bins[..m][..n] == bins[..n] && costs[..m][..n] == costs[..n];
      PrefixLoad(bins[..m], costs[..m], bin, n);
    }
  }

  lemma {:induction false} TotalOfLastJob(bins: seq<nat>, costs: seq<real>, first: nat, count: nat)
    requires |bins| == |costs| > 0 && first <= count
    ensures var n := |bins| - 1;
            TotalLoad(bins, costs, first, count)
            == TotalLoad(bins[..n], costs[..n], first, count) + if first <= bins[n] < count then costs[n] else 0.0
    decreases count - first
  {
    if first < count {
      TotalOfLastJob(bins, costs, first + 1, count);
    }
  }

  /** Every job is counted in exactly one bin: the loads add up to the costs. */
  lemma {:induction false} LoadsAddUp(bins: seq<nat>, costs: seq<real>, first: nat, count: nat)
    requires |bins| == |costs| && first <= count && InRange(bins, first, count)
    ensures TotalLoad(bins, costs, first, count) == Sum(costs)
  {
    if bins == [] {
      EmptyTotal(first, count);
    } else {
      var n := |bins| - 1;
      LoadsAddUp(bins[..n], costs[..n], first, count);
      TotalOfLastJob(bins, costs, first, count);
    }
  }

  lemma {:induction false} EmptyTotal(first: nat, count: nat)
    requires first <= count
    ensures TotalLoad([], [], first, count) == 0.0
    decreases count - first
  {
    if first < count { EmptyTotal(first + 1, count); }
  }

  lemma {:induction false} TotalAtLeast(bins: seq<nat>, costs: seq<real>, first: nat, count: nat, low: real)
    requires |bins| == |costs| && first <= count
    requires forall b: nat :: first <= b < count ==> Load(bins, costs, b) >= low
    ensures TotalLoad(bins, costs, first, count) >= (count - first) as real * low
    decreases count - first
  {
    if first < count { TotalAtLeast(bins, costs, first + 1, count, low); }
  }

  lemma {:induction false} TotalAtMost(bins: seq<nat>, costs: seq<real>, first: nat, count: nat, high: real)
    requires |bins| == |costs| && first <= count
    requires forall b: nat :: first <= b < count ==> Load(bins, costs, b) <= high
    ensures TotalLoad(bins, costs, first, count) <= (count - first) as real * high
    decreases count - first
  {
    if first < count { TotalAtMost(bins, costs, first + 1, count, high); }
  }

  // ----- The approximation bound

  /** load <= (4/3 - 1/(3m)) * opt, without the division. */
  ghost predicate WithinGraham(load: real, opt: real, m: nat) {
    3.0 * (m as real) * load <= (4.0 * (m as real) - 1.0) * opt
  }

  ghost predicate Descending(costs: seq<real>) {
    forall i, j :: 0 <= i < j < |costs| ==> costs[i] >= costs[j]
  }

  /** Job i is alone in its bin. */
  ghost predicate Alone(bins: seq<nat>, i: nat)
    requires i < |bins|
  {
    forall k :: 0 <= k < |bins| && k != i ==> bins[k] != bins[i]
  }

  /** Jobs alone in their greedy bin weigh two, all others one; so does job |bins|. */
  ghost function PairWeights(bins: seq<nat>): (w: seq<real>)
    ensures |w| == |bins| + 1 && NonNegative(w)
  {
    seq(|bins| + 1, i requires 0 <= i <= |bins| => if i < |bins| && Alone(bins, i) then 2.0 else 1.0)
  }

  lemma EveryBinHoldsTwo(bins: seq<nat>, costs: seq<real>, b: nat)
    requires |bins| == |costs| && Load(bins, costs, b) > 0.0
    ensures Load(bins, PairWeights(bins)[..|bins|], b) >= 2.0
  {
    var w := PairWeights(bins)[..|bins|];
    var i := SomeJob(bins, costs, b);
    LoadSplit(bins, w, b, i);
    var w' := w[i := 0.0];
    LoadIsNonNegative(bins, w', b);
    if !Alone(bins, i) {
      var k :| 0 <= k < |bins| && k != i && bins[k] == bins[i];
      LoadSplit(bins, w', b, k);
      LoadIsNonNegative(bins, w'[k := 0.0], b);
    }
  }

  /** Two jobs share a bin of `other`, so their costs fit into its makespan. */
  lemma TwoJobsFit(other: seq<nat>, costs: seq<real>, opt: real, i: nat, k: nat)
    requires |other| == |costs| && NonNegative(costs) && IsMakespanBound(other, costs, opt)
    requires i < |costs| && k < |costs| && i != k && other[i] == other[k]
    ensures costs[i] + costs[k] <= opt
  {
    LoadSplit(other, costs, other[i], i);
    LoadSplit(other, costs[i := 0.0], other[i], k);
    LoadIsNonNegative(other, costs[i := 0.0][k := 0.0], other[i]);
  }

  lemma ThreeJobsFit(other: seq<nat>, costs: seq<real>, opt: real, i: nat, j: nat, k: nat)
    requires |other| == |costs| && NonNegative(costs) && IsMakespanBound(other, costs, opt)
    requires i < |costs| && j < |costs| && k < |costs| && i != j && j != k && i != k
    requires other[i] == other[j] == other[k]
    ensures costs[i] + costs[j] + costs[k] <= opt
  {
    LoadSplit(other, costs, other[i], i);
    LoadSplit(other, costs[i := 0.0], other[i], j);
    LoadSplit(other, costs[i := 0.0][j := 0.0], other[i], k);
    LoadIsNonNegative(other, costs[i := 0.0][j := 0.0][k := 0.0], other[i]);
  }

  /** If every job costs over a third of `opt` and nothing fits beside a lone greedy job, then
      no bin of a schedule within `opt` has pair weight above two. */
  lemma OptimalBinHoldsTwo(bins: seq<nat>, other: seq<nat>, costs: seq<real>, opt: real, b: nat)
    requires |other| == |costs| == |bins| + 1 && NonNegative(costs) && IsMakespanBound(other, costs, opt)
    requires forall i :: 0 <= i < |costs| ==> 3.0 * costs[i] > opt
    requires forall i, k :: 0 <= i < |bins| && Alone(bins, i) && 0 <= k < |costs| ==> costs[i] + costs[k] > opt
    ensures Load(other, PairWeights(bins), b) <= 2.0
  {
    var w := PairWeights(bins);
    if Load(other, w, b) > 2.0 {
      var i := SomeJob(other, w, b);
      LoadSplit(other, w, b, i);
      var k := SomeJob(other, w[i := 0.0], b);
      TwoJobsFit(other, costs, opt, i, k);
      LoadSplit(other, w[i := 0.0], b, k);
      var l := SomeJob(other, w[i := 0.0][k := 0.0], b);
      ThreeJobsFit(other, costs, opt, i, k, l);
      assert false;
    }
  }

  lemma {:induction false} SumSplitLast(w: seq<real>)
    requires |w| > 0
    ensures Sum(w) == Sum(w[..|w| - 1]) + w[|w| - 1]
  {
  }

  /** When every bin holds at least `x` before the last job and at most `x` with it elsewhere,
      the last job weighs nothing. */
  lemma NoRoomForMore(bins: seq<nat>, other: seq<nat>, w: seq<real>, first: nat, count: nat, x: real)
    requires |other| == |w| == |bins| + 1 && first < count && InRange(bins, first, count)
             && InRange(other, first, count)
    requires forall b: nat :: first <= b < count ==> Load(bins, w[..|bins|], b) >= x && Load(other, w, b) <= x
    ensures w[|bins|] <= 0.0
  {
    hide Load, Sum;
    TotalAtLeast(bins, w[..|bins|], first, count, x);
    TotalAtMost(other, w, first, count, x);
    LoadsAddUp(bins, w[..|bins|], first, count);
    LoadsAddUp(other, w, first, count);
    SumSplitLast(w);
  }

  /** The case of large jobs: placing the last, smallest job on the least load stays within
      the makespan of any schedule of the same jobs. */
  lemma LargeJobsAreOptimal(bins: seq<nat>, other: seq<nat>, costs: seq<real>, first: nat, count: nat, low: real,
                            opt: real)
    requires |other| == |costs| == |bins| + 1 && first < count
    requires InRange(bins, first, count) && InRange(other, first, count)
    requires NonNegative(costs) && Descending(costs) && IsMakespanBound(other, costs, opt)
    requires 3.0 * costs[|bins|] > opt
    requires forall b: nat :: first <= b < count ==> Load(bins, costs[..|bins|], b) >= low
    ensures low + costs[|bins|] <= opt
  {
    hide Load;
    var n := |bins|;
    if low + costs[n] > opt {
      var w := PairWeights(bins);
      LoadSplit(other, costs, other[n], n);
      LoadIsNonNegative(other, costs[n := 0.0], other[n]);
      forall b: nat | first <= b < count ensures Load(bins, w[..n], b) >= 2.0 {
        EveryBinHoldsTwo(bins, costs[..n], b);
      }
      forall i, k | 0 <= i < n && Alone(bins, i) && 0 <= k < |costs| ensures costs[i] + costs[k] > opt {
        LoneLoad(bins, costs[..n], i);
      }
      forall b: nat | first <= b < count ensures Load(other, w, b) <= 2.0 {
        OptimalBinHoldsTwo(bins, other, costs, opt, b);
      }
      NoRoomForMore(bins, other, w, first, count, 2.0);
      assert false;
    }
  }

  lemma LoneLoad(bins: seq<nat>, costs: seq<real>, i: nat)
    requires |bins| == |costs| && i < |bins| && Alone(bins, i)
    ensures Load(bins, costs, bins[i]) == costs[i]
  {
    LoadSplit(bins, costs, bins[i], i);
    var rest := costs[i := 0.0];
    if Load(bins, rest, bins[i]) > 0.0 {
      var k := SomeJob(bins, rest, bins[i]);
      assert false;
    }
    NoJobNoLoad(bins, rest, bins[i]);
  }

  lemma {:induction false} NoJobNoLoad(bins: seq<nat>, costs: seq<real>, bin: nat)
    requires |bins| == |costs| && forall k :: 0 <= k < |bins| && bins[k] == bin ==> costs[k] == 0.0
    ensures Load(bins, costs, bin) == 0.0
  {
    if bins != [] {
      NoJobNoLoad(bins[..|bins| - 1], costs[..|bins| - 1], bin);
    }
  }

  /** The least load and the last job together are paid for by the average load. */
  lemma AverageBound(bins: seq<nat>, other: seq<nat>, costs: seq<real>, first: nat, count: nat, low: real, opt: real)
    requires |other| == |costs| == |bins| + 1 && first < count
    requires InRange(bins, first, count) && InRange(other, first, count) && IsMakespanBound(other, costs, opt)
    requires forall b: nat :: first <= b < count ==> Load(bins, costs[..|bins|], b) >= low
    ensures (count - first) as real * low + costs[|bins|] <= (count - first) as real * opt
  {
    TotalAtLeast(bins, costs[..|bins|], first, count, low);
    LoadsAddUp(bins, costs[..|bins|], first, count);
    TotalAtMost(other, costs, first, count, opt);
    LoadsAddUp(other, costs, first, count);
    SumSplitLast(costs);
  }

  /** The job that is placed last on the least loaded of m bins ends within 4/3 - 1/(3m) of `opt`. */
  lemma LastJobBound(bins: seq<nat>, other: seq<nat>, costs: seq<real>, first: nat, count: nat, low: real, opt: real)
    requires |other| == |costs| == |bins| + 1 && first < count
    requires InRange(bins, first, count) && InRange(other, first, count)
    requires NonNegative(costs) && Descending(costs) && IsMakespanBound(other, costs, opt)
    requires forall b: nat :: first <= b < count ==> Load(bins, costs[..|bins|], b) >= low
    ensures WithinGraham(low + costs[|bins|], opt, count - first)
  {
    var m := count - first;
    var last := costs[|bins|];
    if 3.0 * last > opt {
      LargeJobsAreOptimal(bins, other, costs, first, count, low, opt);
      LoadIsNonNegative(other, costs, first);
      ScaleLarge(low + last, opt, m);
    } else {
      AverageBound(bins, other, costs, first, count, low, opt);
      ScaleSmall(low, last, opt, m);
    }
  }

  lemma ScaleLarge(x: real, opt: real, bins: nat)
    requires x <= opt && bins >= 1 && opt >= 0.0
    ensures WithinGraham(x, opt, bins)
  {
    var m := bins as real;
    assert m * x <= m * opt;
    assert (4.0 * m - 1.0) * opt == 3.0 * (m * opt) + (m - 1.0) * opt;
    assert (m - 1.0) * opt >= 0.0;
  }

  lemma ScaleSmall(low: real, last: real, opt: real, bins: nat)
    requires bins >= 1 && 3.0 * last <= opt && bins as real * low + last <= bins as real * opt
    ensures WithinGraham(low + last, opt, bins)
  {
    var m := bins as real;
    assert (m - 1.0) * (3.0 * last) <= (m - 1.0) * opt;
    assert (m - 1.0) * (3.0 * last) == 3.0 * (m * last) - 3.0 * last;
    assert (m - 1.0) * opt == m * opt - opt;
    assert 3.0 * m * (low + last) == 3.0 * (m * low) + 3.0 * (m * last);
    assert (4.0 * m - 1.0) * opt == 4.0 * (m * opt) - opt;
  }

  // ----- Plans: the lists of files the assignment returns

  function FilesIn(bins: seq<nat>, files: seq<File>, bin: nat): seq<File>
    requires |bins| == |files|
  {
    if bins == [] then []
    else
      var n := |bins| - 1;
      FilesIn(bins[..n], files[..n], bin) + if bins[n] == bin then [files[n]] else []
  }

  function First(files: seq<File>, count: int): nat {
    if Dedicated(files, count) then 1 else 0
  }

  /** The one list of bins that greedy LPT gives: History alone in bin 0 when it has its own
      bin, and in every other bin the files of its greedy schedule, in the order taken. */
  ghost predicate IsPlan(weights: Weights, files: seq<File>, count: int, plan: seq<seq<File>>, bins: seq<nat>) {
    var rest := Rest(weights, files, count);
    && |plan| == count
    && IsGreedy(bins, Costs(weights, rest), First(files, count), count)
    && HoldsSchedule(plan, Dedicated(files, count), bins, rest)
  }

  ghost predicate HoldsSchedule(plan: seq<seq<File>>, dedicated: bool, bins: seq<nat>, files: seq<File>) {
    && |bins| == |files|
    && forall b :: 0 <= b < |plan| ==>
         plan[b] == (if dedicated && b == 0 then [HISTORY] else []) + FilesIn(bins, files, b)
  }

  ghost predicate AreLoads(loads: seq<real>, bins: seq<nat>, costs: seq<real>) {
    |bins| == |costs| && forall b :: 0 <= b < |loads| ==> loads[b] == Load(bins, costs, b)
  }

  ghost predicate IsFirstLeastOf(loads: seq<real>, first: nat, target: nat) {
    && first <= target < |loads|
    && (forall b :: first <= b < |loads| ==> loads[target] <= loads[b])
    && (forall b :: first <= b < target ==> loads[target] < loads[b])
  }

  /** The search for the bin that takes the next file. */
  method LeastLoaded(loads: array<real>, first: nat) returns (target: nat)
    requires first < loads.Length
    ensures IsFirstLeastOf(loads[..], first, target)
  {
    target := first;
    for index := target + 1 to loads.Length
      invariant first <= target < index
      invariant forall b :: first <= b < index ==> loads[target] <= loads[b]
      invariant forall b :: first <= b < target ==> loads[target] < loads[b]
    {
      if loads[index] < loads[target] { target := index; }
    }
  }

  lemma LeastOfLoads(loads: seq<real>, bins: seq<nat>, costs: seq<real>, first: nat, target: nat)
    requires AreLoads(loads, bins, costs) && IsFirstLeastOf(loads, first, target)
    ensures IsFirstLeast(bins, costs, first, |loads|, target)
  {
  }

  /** Puts a file into a bin and its cost on the bin's load. */
  method PlaceFile(bins: array<seq<File>>, loads: array<real>, target: nat, file: File, cost: real)
    requires target < bins.Length == loads.Length
    modifies bins, loads
    ensures bins[..] == old(bins[..])[target := old(bins[target]) + [file]]
    ensures loads[..] == old(loads[..])[target := old(loads[target]) + cost]
  {
    bins[target] := bins[target] + [file];
    loads[target] := loads[target] + cost;
  }

  /** The loop over the files that share bins, dearest first. */
  method AssignRest(weights: Weights, rest: seq<File>, dedicated: bool, bins: array<seq<File>>, loads: array<real>)
    returns (ghost schedule: seq<nat>)
    requires bins.Length == loads.Length > (if dedicated then 1 else 0)
    requires forall b ::
               0 <= b < bins.Length ==> loads[b] == 0.0 && bins[b] == if dedicated && b == 0 then [HISTORY] else []
    modifies bins, loads
    ensures IsGreedy(schedule, Costs(weights, rest), if dedicated then 1 else 0, bins.Length)
    ensures HoldsSchedule(bins[..], dedicated, schedule, rest)
  {
    hide Load, FilesIn, IsGreedy, AreLoads, HoldsSchedule, IsFirstLeast, Cost;
    ghost var costs := Costs(weights, rest);
    var first := if dedicated then 1 else 0;
    schedule := [];
    NothingScheduled(costs, rest, first, bins.Length, loads[..], bins[..], dedicated);
    for k := 0 to |rest|
      invariant IsGreedy(schedule, costs[..k], first, bins.Length) && |schedule| == k
      invariant AreLoads(loads[..], schedule, costs[..k])
      invariant HoldsSchedule(bins[..], dedicated, schedule, rest[..k])
    {
      var target := LeastLoaded(loads, first);
      LeastOfLoads(loads[..], schedule, costs[..k], first, target);
      ScheduleOneMore(schedule, costs, rest, k, first, bins.Length, target, loads[..], bins[..], dedicated);
      PlaceFile(bins, loads, target, rest[k], Cost(weights, rest[k]));
      schedule := schedule + [target];
    }
    assert costs[..|rest|] == costs && rest[..|rest|] == rest;
  }

  method AssignTestShards(weights: Weights, files: seq<File>, count: int)
    returns (r: Result<seq<seq<File>>>, ghost schedule: seq<nat>)
    ensures r.InvalidCount? <==> count < 1
    ensures r.Ok? ==> IsPlan(weights, files, count, r.value, schedule)
  {
    hide IsGreedy, HoldsSchedule, Rest;
    if count < 1 {
      return InvalidCount, [];
    }
    var bins := new seq<File>[count](_ => []);
    var loads := new real[count](_ => 0.0);
    var dedicated := count >= 4 && HISTORY in files;
    if dedicated {
      bins[0] := bins[0] + [HISTORY];
    }
    schedule := AssignRest(weights, Rest(weights, files, count), dedicated, bins, loads);
    r := Ok(bins[..]);
  }

  lemma NothingScheduled(costs: seq<real>, files: seq<File>, first: nat, count: nat, loads: seq<real>,
                         plan: seq<seq<File>>, dedicated: bool)
    requires |loads| == |plan| == count && forall b :: 0 <= b < count ==> loads[b] == 0.0
    requires forall b :: 0 <= b < count ==> plan[b] == if dedicated && b == 0 then [HISTORY] else []
    ensures IsGreedy([], costs[..0], first, count) && AreLoads(loads, [], costs[..0])
            && HoldsSchedule(plan, dedicated, [], files[..0])
  {
  }

  /** One turn of the loop: file k joins bin `target`. */
  lemma ScheduleOneMore(bins: seq<nat>, costs: seq<real>, files: seq<File>, k: nat, first: nat, count: nat, target: nat,
                        loads: seq<real>, plan: seq<seq<File>>, dedicated: bool)
    requires |bins| == k < |costs| == |files| && IsGreedy(bins, costs[..k], first, count)
    requires IsFirstLeast(bins, costs[..k], first, count, target) && target < |loads| == |plan|
    requires AreLoads(loads, bins, costs[..k]) && HoldsSchedule(plan, dedicated, bins, files[..k])
    ensures var next := bins + [target];
            && IsGreedy(next, costs[..k + 1], first, count)
            && AreLoads(loads[target := loads[target] + costs[k]], next, costs[..k + 1])
            && HoldsSchedule(plan[target := plan[target] + [files[k]]], dedicated, next, files[..k + 1])
  {
    var next := bins + [target];
    GreedyExtends(bins, costs[..k], first, count, target, costs[k]);
    assert costs[..k + 1] == costs[..k] + [costs[k]];
    assert next[..k] == bins && costs[..k + 1][..k] == costs[..k] && files[..k + 1][..k] == files[..k];
  }

  lemma GreedyExtends(bins: seq<nat>, costs: seq<real>, first: nat, count: nat, target: nat, cost: real)
    requires IsGreedy(bins, costs, first, count) && IsFirstLeast(bins, costs, first, count, target)
    ensures IsGreedy(bins + [target], costs + [cost], first, count)
  {
    var b, c := bins + [target], costs + [cost];
    forall k | 0 <= k < |b| ensures IsFirstLeast(b[..k], c[..k], first, count, b[k]) {
      assert b[..k] == bins[..k] && c[..k] == costs[..k];
      assert bins[..|bins|] == bins && costs[..|bins|] == costs;
    }
  }

  // ----- Main results

  /** Permuting the input files does not change the plan. */
  lemma PlanIgnoresInputOrder(weights: Weights, files: seq<File>, permuted: seq<File>, count: int,
                              plan: seq<seq<File>>, plan': seq<seq<File>>, bins: seq<nat>, bins': seq<nat>)
    requires multiset(files) == multiset(permuted)
    requires IsPlan(weights, files, count, plan, bins) && IsPlan(weights, permuted, count, plan', bins')
    ensures plan == plan'
  {
    assert HISTORY in files <==> HISTORY in multiset(files);
    assert HISTORY in permuted <==> HISTORY in multiset(permuted);
    OrderIsTotal(weights);
    WithoutElements(files, HISTORY);
    WithoutElements(permuted, HISTORY);
    SortOfPermutation(if Dedicated(files, count) then Without(files, HISTORY) else files,
                      if Dedicated(files, count) then Without(permuted, HISTORY) else permuted, Order(weights));
    GreedyIsUnique(bins, bins', Costs(weights, Rest(weights, files, count)), First(files, count), count);
  }

  lemma {:induction false} WithoutElements(files: seq<File>, file: File)
    ensures multiset(Without(files, file)) == multiset(files)[file := 0]
  {
    if files != [] {
      WithoutElements(files[1..], file);
      assert files == [files[0]] + files[1..];
    }
  }

  function Flatten(plan: seq<seq<File>>): seq<File> {
    if plan == [] then [] else Flatten(plan[..|plan| - 1]) + plan[|plan| - 1]
  }

  /** Every occurrence of a file lands in exactly one bin; only repeated History files are
      merged into one, and only when History has its own bin. */
  lemma PlanHoldsEveryFile(weights: Weights, files: seq<File>, count: int, plan: seq<seq<File>>, bins: seq<nat>)
    requires count >= 1 && IsPlan(weights, files, count, plan, bins)
    ensures multiset(Flatten(plan))
            == if Dedicated(files, count) then multiset(files)[HISTORY := 1] else multiset(files)
  {
    var rest := Rest(weights, files, count);
    RestIsSorted(weights, files, count);
    WithoutElements(files, HISTORY);
    GreedyInRange(bins, Costs(weights, rest), First(files, count), count);
    FlattenedBins(bins, rest, count, plan, if Dedicated(files, count) then [HISTORY] else []);
    assert plan[..count] == plan;
  }

  lemma GreedyInRange(bins: seq<nat>, costs: seq<real>, first: nat, count: nat)
    requires IsGreedy(bins, costs, first, count)
    ensures InRange(bins, first, count)
  {
    forall n | 0 <= n < |bins| ensures first <= bins[n] < count {
      assert IsFirstLeast(bins[..n], costs[..n], first, count, bins[n]);
    }
  }

  /** The files of the jobs whose bin is below `count`. */
  function FilesBelow(bins: seq<nat>, files: seq<File>, count: nat): seq<File>
    requires |bins| == |files|
  {
    if bins == [] then []
    else
      var n := |bins| - 1;
      FilesBelow(bins[..n], files[..n], count) + if bins[n] < count then [files[n]] else []
  }

  lemma {:induction false} FilesBelowStep(bins: seq<nat>, files: seq<File>, count: nat)
    requires |bins| == |files|
    ensures multiset(FilesBelow(bins, files, count + 1))
         == multiset(FilesBelow(bins, files, count)) + multiset(FilesIn(bins, files, count))
  {
    if bins != [] { FilesBelowStep(bins[..|bins| - 1], files[..|bins| - 1], count); }
  }

  lemma {:induction false} FilesBelowAll(bins: seq<nat>, files: seq<File>, count: nat)
    requires |bins| == |files|
    ensures InRange(bins, 0, count) ==> FilesBelow(bins, files, count) == files
    ensures FilesBelow(bins, files, 0) == []
  {
    if bins != [] {
      FilesBelowAll(bins[..|bins| - 1], files[..|bins| - 1], count);
      assert files == files[..|files| - 1] + [files[|files| - 1]];
    }
  }

  lemma {:induction false} FlattenedBelow(bins: seq<nat>, files: seq<File>, count: nat, plan: seq<seq<File>>,
                                          front: seq<File>)
    requires |bins| == |files| && |plan| >= count >= 1
    requires forall b: nat :: b < |plan| ==> plan[b] == (if b == 0 then front else []) + FilesIn(bins, files, b)
    ensures multiset(Flatten(plan[..count])) == multiset(front) + multiset(FilesBelow(bins, files, count))
  {
    FilesBelowStep(bins, files, count - 1);
    assert plan[..count][..count - 1] == plan[..count - 1];
    if count == 1 {
      FilesBelowAll(bins, files, 0);
    } else {
      FlattenedBelow(bins, files, count - 1, plan, front);
    }
  }

  lemma FlattenedBins(bins: seq<nat>, files: seq<File>, count: nat, plan: seq<seq<File>>, front: seq<File>)
    requires |bins| == |files| && |plan| == count >= 1 && InRange(bins, 0, count)
    requires forall b: nat :: b < count ==> plan[b] == (if b == 0 then front else []) + FilesIn(bins, files, b)
    ensures multiset(Flatten(plan[..count])) == multiset(front) + multiset(files)
  {
    FlattenedBelow(bins, files, count, plan, front);
    FilesBelowAll(bins, files, count);
  }

  lemma {:induction false} CostOfBin(weights: Weights, bins: seq<nat>, files: seq<File>, bin: nat)
    requires |bins| == |files|
    ensures Sum(Costs(weights, FilesIn(bins, files, bin))) == Load(bins, Costs(weights, files), bin)
  {
    if bins != [] {
      var n := |bins| - 1;
      CostOfBin(weights, bins[..n], files[..n], bin);
      assert Costs(weights, files)[..n] == Costs(weights, files[..n]);
      var front := FilesIn(bins[..n], files[..n], bin);
      var all := FilesIn(bins, files, bin);
      if bins[n] == bin {
        assert Costs(weights, all)[..|all| - 1] == Costs(weights, front);
      } else {
        assert all == front;
      }
    }
  }

  /** Graham's bound: with m bins for the scheduled files, no bin of the plan costs more than
      4/3 - 1/(3m) of the makespan of any other assignment of the same files to those bins. */
  lemma PlanIsNearlyOptimal(weights: Weights, files: seq<File>, count: int, plan: seq<seq<File>>, bins: seq<nat>,
                            other: seq<nat>, opt: real, b: nat)
    requires ValidWeights(weights) && count >= 1 && IsPlan(weights, files, count, plan, bins)
    requires var rest := Rest(weights, files, count);
             && |other| == |rest| && InRange(other, First(files, count), count)
             && IsMakespanBound(other, Costs(weights, rest), opt)
    requires First(files, count) <= b < count
    ensures WithinGraham(Sum(Costs(weights, plan[b])), opt, count - First(files, count))
  {
    var rest, first := Rest(weights, files, count), First(files, count);
    var costs := Costs(weights, rest);
    RestIsSorted(weights, files, count);
    SortedCostsDescend(weights, rest);
    BinCost(weights, files, count, plan, bins, b);
    GreedyLoadBound(bins, other, costs, first, count, opt, b);
  }

  lemma BinCost(weights: Weights, files: seq<File>, count: int, plan: seq<seq<File>>, bins: seq<nat>, b: nat)
    requires IsPlan(weights, files, count, plan, bins) && First(files, count) <= b < count
    ensures Sum(Costs(weights, plan[b])) == Load(bins, Costs(weights, Rest(weights, files, count)), b)
  {
    var rest := Rest(weights, files, count);
    assert plan[b] == [] + FilesIn(bins, rest, b) == FilesIn(bins, rest, b);
    CostOfBin(weights, bins, rest, b);
  }

  lemma RestIsSorted(weights: Weights, files: seq<File>, count: int)
    ensures IsSortOf(Rest(weights, files, count),
                     if Dedicated(files, count) then Without(files, HISTORY) else files, Order(weights))
  {
    OrderIsTotal(weights);
    SortIsCorrect(if Dedicated(files, count) then Without(files, HISTORY) else files, Order(weights));
  }

  lemma SortedCostsDescend(weights: Weights, files: seq<File>)
    requires Sorted(files, Order(weights)) && ValidWeights(weights)
    ensures Descending(Costs(weights, files)) && NonNegative(Costs(weights, files))
  {
    forall i, j | 0 <= i < j < |files| ensures Cost(weights, files[i]) >= Cost(weights, files[j]) {
      assert Order(weights)(files[i], files[j]);
    }
  }

  /** By induction to the last job of bin b, which was then least loaded. */
  lemma {:induction false} GreedyLoadBound(bins: seq<nat>, other: seq<nat>, costs: seq<real>, first: nat, count: nat,
                                           opt: real, b: nat)
    requires IsGreedy(bins, costs, first, count) && |other| == |costs| && first <= b < count
    requires InRange(other, first, count) && NonNegative(costs) && Descending(costs)
    requires IsMakespanBound(other, costs, opt)
    ensures WithinGraham(Load(bins, costs, b), opt, count - first)
  {
    if bins == [] {
      assert Load(other, costs, b) <= opt;
      ScaleLarge(0.0, opt, count - first);
    } else {
      var n := |bins| - 1;
      GreedyPrefix(bins, costs, first, count, n);
      GreedyInRange(bins, costs, first, count);
      if bins[n] == b {
        assert IsFirstLeast(bins[..n], costs[..n], first, count, b);
        LastJobBound(bins[..n], other, costs, first, count, Load(bins[..n], costs[..n], b), opt);
      } else {
        forall c: nat ensures Load(other[..n], costs[..n], c) <= opt {
          PrefixLoad(other, costs, c, n);
          assert Load(other, costs, c) <= opt;
        }
        GreedyLoadBound(bins[..n], other[..n], costs[..n], first, count, opt, b);
      }
    }
  }
}
