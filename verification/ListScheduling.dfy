/** Placing jobs on machines: the arithmetic behind the longest-first bound,
    over costs and placements alone. */
module ListScheduling {

  function Sum(c: seq<real>): real {
    if c == [] then 0.0 else Sum(c[..|c| - 1]) + c[|c| - 1]
  }

  /** The cost `place` puts on machine `k`. */
  function Load(c: seq<real>, place: seq<nat>, k: nat): real
    requires |place| == |c|
  {
    if c == [] then 0.0
    else
      var n := |c| - 1;
      Load(c[..n], place[..n], k) + if place[n] == k then c[n] else 0.0
  }

  /** `m` times `x`, as a sum. */
  ghost function Multiple(m: nat, x: real): real {
    if m == 0 then 0.0 else Multiple(m - 1, x) + x
  }

  lemma {:induction false} MultipleIsProduct(m: nat, x: real)
    ensures Multiple(m, x) == m as real * x
  {
    if m > 0 {
      MultipleIsProduct(m - 1, x);
      assert m as real * x == (m - 1) as real * x + x;
    }
  }

  lemma {:induction false} MultipleAdds(m: nat, x: real, y: real)
    ensures Multiple(m, x + y) == Multiple(m, x) + Multiple(m, y)
  {
    if m > 0 { MultipleAdds(m - 1, x, y); }
  }

  lemma {:induction false} MultipleMonotone(m: nat, x: real, y: real)
    requires x <= y
    ensures Multiple(m, x) <= Multiple(m, y)
  {
    if m > 0 { MultipleMonotone(m - 1, x, y); }
  }

  ghost predicate Within(place: seq<nat>, m: nat) {
    forall i :: 0 <= i < |place| ==> place[i] < m
  }

  ghost predicate NonNegative(c: seq<real>) {
    forall i :: 0 <= i < |c| ==> c[i] >= 0.0
  }

  ghost predicate LongestFirst(c: seq<real>) {
    forall i, j :: 0 <= i < j < |c| ==> c[i] >= c[j]
  }

  /** What the first `m` machines carry together. */
  ghost function Carried(c: seq<real>, place: seq<nat>, m: nat): real
    requires |place| == |c|
  {
    if m == 0 then 0.0 else Carried(c, place, m - 1) + Load(c, place, m - 1)
  }

  lemma {:induction false} CarriedStep(c: seq<real>, place: seq<nat>, m: nat)
    requires |place| == |c| > 0
    ensures var n := |c| - 1;
            Carried(c, place, m) == Carried(c[..n], place[..n], m) + if place[n] < m then c[n] else 0.0
  {
    if m > 0 { CarriedStep(c, place, m - 1); }
  }

  lemma {:induction false} NothingCarried(m: nat)
    ensures Carried([], [], m) == 0.0
  {
    if m > 0 { NothingCarried(m - 1); }
  }

  /** Nothing is lost: the machines together carry every job. */
  lemma {:induction false} CarriedIsSum(c: seq<real>, place: seq<nat>, m: nat)
    requires |place| == |c| && Within(place, m)
    ensures Carried(c, place, m) == Sum(c)
  {
    if c == [] {
      NothingCarried(m);
    } else {
      CarriedStep(c, place, m);
      CarriedIsSum(c[..|c| - 1], place[..|c| - 1], m);
    }
  }

  lemma {:induction false} CarriedAtLeast(c: seq<real>, place: seq<nat>, m: nat, x: real)
    requires |place| == |c|
    requires forall k: nat :: k < m ==> Load(c, place, k) >= x
    ensures Carried(c, place, m) >= Multiple(m, x)
  {
    if m > 0 {
      CarriedAtLeast(c, place, m - 1, x);
    }
  }

  lemma {:induction false} CarriedAtMost(c: seq<real>, place: seq<nat>, m: nat, x: real)
    requires |place| == |c|
    requires forall k: nat :: k < m ==> Load(c, place, k) <= x
    ensures Carried(c, place, m) <= Multiple(m, x)
  {
    if m > 0 {
      CarriedAtMost(c, place, m - 1, x);
    }
  }

  lemma {:induction false} LoadGrows(c: seq<real>, place: seq<nat>, k: nat, n: nat)
    requires |place| == |c| && NonNegative(c) && n <= |c|
    ensures Load(c[..n], place[..n], k) <= Load(c, place, k)
    decreases |c|
  {
    if n < |c| {
      var p := |c| - 1;
      LoadGrows(c[..p], place[..p], k, n);
      assert c[..p][..n] == c[..n] && place[..p][..n] == place[..n];
    } else {
      assert c[..n] == c && place[..n] == place;
    }
  }

  /** A machine carries at least each of its jobs, and each two of them. */
  lemma {:induction false} LoadCoversJob(c: seq<real>, place: seq<nat>, i: nat)
    requires |place| == |c| && NonNegative(c) && i < |c|
    ensures Load(c, place, place[i]) >= c[i]
  {
    LoadGrows(c, place, place[i], i + 1);
    LoadGrows(c[..i + 1], place[..i + 1], place[i], 0);
    assert c[..i + 1][..i] == c[..i] && place[..i + 1][..i] == place[..i];
    LoadGrows(c[..i], place[..i], place[i], 0);
  }

  lemma {:induction false} LoadCoversPair(c: seq<real>, place: seq<nat>, i: nat, j: nat)
    requires |place| == |c| && NonNegative(c) && i < j < |c| && place[i] == place[j]
    ensures Load(c, place, place[i]) >= c[i] + c[j]
  {
    LoadGrows(c, place, place[j], j + 1);
    assert c[..j + 1][..j] == c[..j] && place[..j + 1][..j] == place[..j];
    LoadCoversJob(c[..j], place[..j], i);
  }

  /** Weight 2 for the first `h` jobs and 1 for the others. */
  ghost function Weights(n: nat, h: nat): seq<real> {
    seq(n, i => if i < h then 2.0 else 1.0)
  }

  lemma {:induction false} WeightsSum(n: nat, h: nat)
    requires h <= n
    ensures Sum(Weights(n, h)) == (n + h) as real
  {
    var w := Weights(n, h);
    if n > 0 {
      if h < n {
        assert w[..n - 1] == Weights(n - 1, h);
        WeightsSum(n - 1, h);
      } else {
        assert w[..n - 1] == Weights(n - 1, h - 1);
        WeightsSum(n - 1, h - 1);
      }
    }
  }

  /** A machine of weight under 2 carries at most one job, and not one of the
      first `h`: its cost is at most `x` when the later jobs cost at most `x`. */
  lemma {:induction false} LightMachine(c: seq<real>, place: seq<nat>, h: nat, k: nat, x: real)
    requires |place| == |c| && NonNegative(c) && h <= |c| && x >= 0.0
    requires forall i :: h <= i < |c| ==> c[i] <= x
    ensures Load(Weights(|c|, h), place, k) >= 0.0
    ensures Load(Weights(|c|, h), place, k) < 2.0 ==> Load(c, place, k) <= x
    ensures Load(Weights(|c|, h), place, k) < 1.0 ==> Load(c, place, k) == 0.0
  {
    if c != [] {
      var n := |c| - 1;
      var h' := if h <= n then h else n;
      assert Weights(|c|, h)[..n] == Weights(n, h');
      LightMachine(c[..n], place[..n], h', k, x);
    }
  }

  /** A machine within `M` weighs at most 2, when its jobs each exceed a third
      of `M` and none of the first `h` can share a machine within `M`. */
  lemma {:induction false} HeavyMachine(c: seq<real>, place: seq<nat>, h: nat, k: nat, M: real)
    requires |place| == |c| && h <= |c| && M >= 0.0
    requires forall i :: 0 <= i < |c| ==> 3.0 * c[i] > M
    requires forall i, j :: 0 <= i < j < |c| && i < h ==> c[i] + c[j] > M
    requires Load(c, place, k) <= M
    ensures var w := Load(Weights(|c|, h), place, k);
            || (w == 0.0 && forall i :: 0 <= i < |c| ==> place[i] != k)
            || (w == 1.0 && 3.0 * Load(c, place, k) > M && exists i :: 0 <= i < |c| && place[i] == k)
            || (w == 2.0 && 3.0 * Load(c, place, k) > 2.0 * M && exists i :: 0 <= i < |c| && place[i] == k)
            || (w == 2.0 && exists i :: 0 <= i < h && place[i] == k)
  {
    if c != [] {
      var n := |c| - 1;
      var h' := if h <= n then h else n;
      assert Weights(|c|, h)[..n] == Weights(n, h');
      LoadGrows(c, place, k, n);
      HeavyMachine(c[..n], place[..n], h', k, M);
      if place[n] == k {
        forall i | 0 <= i < n && place[..n][i] == k ensures i >= h {
          LoadCoversPair(c, place, i, n);
        }
        var w', w := Load(Weights(n, h'), place[..n], k), Load(Weights(|c|, h), place, k);
        assert Load(c, place, k) == Load(c[..n], place[..n], k) + c[n];
        if n < h {
          assert w' == 0.0 && w == 2.0;
        } else {
          assert w == w' + 1.0 && w' <= 1.0;
          LoadCoversJob(c, place, n);
        }
      }
    }
  }

  /** Some machine carries at most `x` before the last of `m + t` jobs is placed,
      when all but the `m - t` longest cost at most `x`. */
  lemma SomeLightMachine(c: seq<real>, place: seq<nat>, m: nat, t: nat, x: real) returns (k: nat)
    requires |place| == |c| && NonNegative(c) && Within(place, m) && x >= 0.0
    requires 1 <= t <= m && |c| == m + t - 1
    requires forall i :: m - t <= i < |c| ==> c[i] <= x
    ensures k < m && Load(c, place, k) <= x
  {
    var w := Weights(|c|, m - t);
    if forall j: nat :: j < m ==> Load(w, place, j) >= 2.0 {
      CarriedAtLeast(w, place, m, 2.0);
      MultipleIsProduct(m, 2.0);
      CarriedIsSum(w, place, m);
      WeightsSum(|c|, m - t);
      assert false;
    }
    k :| k < m && Load(w, place, k) < 2.0;
    LightMachine(c, place, m - t, k, x);
  }

  /** When every job exceeds a third of the best heaviest load `M`, there are at
      most `2m` of them, and job `m - t` fits beside the last of `m + t`. */
  lemma LongJobsPair(c: seq<real>, rival: seq<nat>, m: nat, t: nat, M: real)
    requires |rival| == |c| && Within(rival, m) && m >= 1 && M >= 0.0
    requires LongestFirst(c) && forall i :: 0 <= i < |c| ==> 3.0 * c[i] > M
    requires forall k: nat :: k < m ==> Load(c, rival, k) <= M
    requires |c| == m + t && t >= 1
    ensures t <= m && c[m - t] + c[|c| - 1] <= M
  {
    var h := if t <= m then m - t + 1 else 0;
    if t > m || c[m - t] + c[|c| - 1] > M {
      var w := Weights(|c|, h);
      forall k: nat | k < m ensures Load(w, rival, k) <= 2.0 {
        HeavyMachine(c, rival, h, k, M);
      }
      CarriedAtMost(w, rival, m, 2.0);
      MultipleIsProduct(m, 2.0);
      CarriedIsSum(w, rival, m);
      WeightsSum(|c|, h);
      assert false;
    }
  }

  /** With no more jobs than machines, some machine is still empty when the last
      one is placed. */
  lemma SomeEmptyMachine(c: seq<real>, place: seq<nat>, m: nat) returns (k: nat)
    requires |place| == |c| < m && NonNegative(c) && Within(place, m)
    ensures k < m && Load(c, place, k) <= 0.0
  {
    var w := Weights(|c|, |c|);
    if forall j: nat :: j < m ==> Load(w, place, j) >= 2.0 {
      CarriedAtLeast(w, place, m, 2.0);
      MultipleIsProduct(m, 2.0);
      CarriedIsSum(w, place, m);
      WeightsSum(|c|, |c|);
      assert false;
    }
    k :| k < m && Load(w, place, k) < 2.0;
    LightMachine(c, place, |c|, k, 0.0);
  }

  /** A machine no heavier than any other carries at most the average. */
  lemma LightestIsBelowAverage(c: seq<real>, place: seq<nat>, m: nat, low: real)
    requires |place| == |c| && Within(place, m)
    requires forall k: nat :: k < m ==> low <= Load(c, place, k)
    ensures Multiple(m, low) <= Sum(c)
  {
    CarriedAtLeast(c, place, m, low);
    CarriedIsSum(c, place, m);
  }

  /** `load` is at most 4/3 - 1/(3m) times `M`. */
  ghost predicate WithinBound(load: real, m: nat, M: real) {
    3.0 * Multiple(m, load) <= 4.0 * Multiple(m, M) - M
  }

  /** The longest-first step: a job no longer than those before it, placed on a
      machine no heavier than any other, stays within 4/3 - 1/(3m) of the best
      heaviest load `M`. */
  lemma LastJobBound(c: seq<real>, last: real, place: seq<nat>, rival: seq<nat>, m: nat, low: real, load: real, M: real)
    requires load == low + last
    requires m >= 1 && NonNegative(c + [last]) && LongestFirst(c + [last])
    requires |place| == |c| && Within(place, m)
    requires |rival| == |c| + 1 && Within(rival, m)
    requires forall k: nat :: k < m ==> low <= Load(c, place, k)
    requires forall k: nat :: k < m ==> Load(c + [last], rival, k) <= M
    ensures WithinBound(load, m, M)
  {
    var d := c + [last];
    if 3.0 * last > M {
      LongLastJob(c, last, place, rival, m, low, M);
      assert M >= 0.0 by { LoadCoversJob(d, rival, |c|); }
      BoundWhenOptimal(m, load, M);
    } else {
      LightestLeavesRoom(c, last, place, rival, m, low, M);
      BoundWhenShort(m, low, last, load, M);
    }
  }

  /** The average before the last job leaves room for it in the rival. */
  lemma LightestLeavesRoom(c: seq<real>, last: real, place: seq<nat>, rival: seq<nat>, m: nat, low: real, M: real)
    requires |place| == |c| && Within(place, m)
    requires |rival| == |c| + 1 && Within(rival, m)
    requires forall k: nat :: k < m ==> low <= Load(c, place, k)
    requires forall k: nat :: k < m ==> Load(c + [last], rival, k) <= M
    ensures Multiple(m, low) <= Multiple(m, M) - last
  {
    var d := c + [last];
    LightestIsBelowAverage(c, place, m, low);
    CarriedAtMost(d, rival, m, M);
    CarriedIsSum(d, rival, m);
    assert d[..|c|] == c;
  }

  lemma BoundWhenOptimal(m: nat, load: real, M: real)
    requires m >= 1 && load <= M && M >= 0.0
    ensures WithinBound(load, m, M)
  {
    MultipleMonotone(m, load, M);
    MultipleMonotone(m - 1, 0.0, M);
    MultipleIsProduct(m - 1, 0.0);
  }

  lemma BoundWhenShort(m: nat, low: real, last: real, load: real, M: real)
    requires m >= 1 && 3.0 * last <= M && load == low + last
    requires Multiple(m, low) <= Multiple(m, M) - last
    ensures WithinBound(load, m, M)
  {
    MultipleAdds(m, low, last);
    MultipleThird(m - 1, last, M);
  }

  lemma MultipleThird(n: nat, last: real, M: real)
    requires 3.0 * last <= M
    ensures 3.0 * Multiple(n, last) <= Multiple(n, M)
  {
    MultipleAdds(n, last, last);
    MultipleAdds(n, last + last, last);
    MultipleMonotone(n, last + last + last, M);
  }

  lemma BoundAsProduct(load: real, m: nat, M: real)
    ensures WithinBound(load, m, M) <==> (3 * m) as real * load <= (4 * m - 1) as real * M
  {
    MultipleIsProduct(m, load);
    MultipleIsProduct(m, M);
  }

  lemma AllLong(d: seq<real>, M: real)
    requires d != [] && LongestFirst(d) && 3.0 * d[|d| - 1] > M
    ensures forall i :: 0 <= i < |d| ==> 3.0 * d[i] > M
  {
    forall i | 0 <= i < |d| ensures 3.0 * d[i] > M { assert i == |d| - 1 || d[i] >= d[|d| - 1]; }
  }

  ghost predicate Starts(d: seq<real>, c: seq<real>)
    requires |c| <= |d|
  {
    forall i :: 0 <= i < |c| ==> c[i] == d[i]
  }

  lemma ShorterFrom(c: seq<real>, d: seq<real>, from: nat)
    requires |d| == |c| + 1 && Starts(d, c) && NonNegative(d) && LongestFirst(d) && from < |d|
    ensures NonNegative(c) && d[from] >= 0.0 && forall i :: from <= i < |c| ==> c[i] <= d[from]
  {
    forall i | from <= i < |c| ensures c[i] <= d[from] { assert i == from || d[from] >= d[i]; }
  }

  lemma LightLoad(c: seq<real>, place: seq<nat>, m: nat, t: nat, x: real, low: real)
    requires |place| == |c| && NonNegative(c) && Within(place, m) && x >= 0.0
    requires 1 <= t <= m && |c| == m + t - 1 && forall i :: m - t <= i < |c| ==> c[i] <= x
    requires forall k: nat :: k < m ==> low <= Load(c, place, k)
    ensures low <= x
  {
    var k := SomeLightMachine(c, place, m, t, x);
  }

  /** With as many earlier jobs as machines, some machine holds no more than the job that a rival pairs the
      last with. */
  lemma ManyLongJobs(c: seq<real>, d: seq<real>, place: seq<nat>, rival: seq<nat>, m: nat, t: nat, low: real, M: real)
    requires m >= 1 && |d| == |c| + 1 && Starts(d, c) && NonNegative(d) && LongestFirst(d) && M >= 0.0
    requires |place| == |c| && Within(place, m) && |rival| == |d| && Within(rival, m)
    requires forall k: nat :: k < m ==> low <= Load(c, place, k)
    requires forall k: nat :: k < m ==> Load(d, rival, k) <= M
    requires (forall i :: 0 <= i < |d| ==> 3.0 * d[i] > M) && |d| == m + t && t >= 1
    ensures low + d[|c|] <= M
  {
    LongJobsPair(d, rival, m, t, M);
    var x := d[m - t];
    ShorterFrom(c, d, m - t);
    LightLoad(c, place, m, t, x, low);
  }

  /** The same step is optimal when the job exceeds a third of `M`. */
  lemma LongLastJob(c: seq<real>, last: real, place: seq<nat>, rival: seq<nat>, m: nat, low: real, M: real)
    requires m >= 1 && NonNegative(c + [last]) && LongestFirst(c + [last])
    requires |place| == |c| && Within(place, m)
    requires |rival| == |c| + 1 && Within(rival, m)
    requires forall k: nat :: k < m ==> low <= Load(c, place, k)
    requires forall k: nat :: k < m ==> Load(c + [last], rival, k) <= M
    requires 3.0 * last > M
    ensures low + last <= M
  {
    var d := c + [last];
    LoadCoversJob(d, rival, |c|);
    AllLong(d, M);
    if |c| < m {
      assert forall i :: 0 <= i < |c| ==> c[i] == d[i];
      var k := SomeEmptyMachine(c, place, m);
    } else {
      ManyLongJobs(c, d, place, rival, m, |d| - m, low, M);
    }
  }
}
