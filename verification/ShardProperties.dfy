/** What the shard split promises: an exact partition, the balance between
    shards, the same split on every runner, and Graham's bound for longest
    processing time first. */
module ShardProperties {
  import opened Sorting
  import opened Text
  import opened ListScheduling
  import opened Shards

  // ---- Groups of files and their times

  function Costs(files: seq<string>, times: Times): (c: seq<real>)
    ensures |c| == |files|
  {
    seq(|files|, i requires 0 <= i < |files| => times.Of(files[i]))
  }

  /** The seconds a group of files takes. */
  function Time(files: seq<string>, times: Times): real {
    Sum(Costs(files, times))
  }

  function Groups(shards: seq<Shard>): (g: seq<seq<string>>)
    ensures |g| == |shards|
  {
    seq(|shards|, k requires 0 <= k < |shards| => shards[k].files)
  }

  /** Every file of every group, with its multiplicity. */
  ghost function Contents(groups: seq<seq<string>>): multiset<string> {
    if groups == [] then multiset{}
    else Contents(groups[..|groups| - 1]) + multiset(groups[|groups| - 1])
  }

  lemma {:induction false} ContentsUpdate(groups: seq<seq<string>>, k: nat, g: seq<string>, file: string)
    requires k < |groups|
    ensures Contents(groups[k := g])[file] + multiset(groups[k])[file] == Contents(groups)[file] + multiset(g)[file]
  {
    var n := |groups| - 1;
    var updated := groups[k := g];
    if k == n {
      assert updated[..n] == groups[..n];
    } else {
      assert updated[..n] == groups[..n][k := g] && updated[n] == groups[n];
      ContentsUpdate(groups[..n], k, g, file);
    }
  }

  lemma {:induction false} ContentsFind(groups: seq<seq<string>>, file: string) returns (k: nat, i: nat)
    requires file in Contents(groups)
    ensures k < |groups| && i < |groups[k]| && groups[k][i] == file
  {
    var n := |groups| - 1;
    if file in multiset(groups[n]) {
      assert file in groups[n];
      k, i := n, 0;
      i :| 0 <= i < |groups[n]| && groups[n][i] == file;
    } else {
      k, i := ContentsFind(groups[..n], file);
    }
  }

  function Without<T>(s: seq<T>, i: nat): (r: seq<T>)
    requires i < |s|
    ensures |r| == |s| - 1
  {
    s[..i] + s[i + 1..]
  }

  lemma WithoutContents<T>(s: seq<T>, i: nat)
    requires i < |s|
    ensures multiset(Without(s, i)) == multiset(s) - multiset{s[i]}
  {
    assert s == s[..i] + [s[i]] + s[i + 1..];
  }

  lemma {:induction false} SumWithout(c: seq<real>, i: nat)
    requires i < |c|
    ensures Sum(Without(c, i)) == Sum(c) - c[i]
  {
    var n := |c| - 1;
    if i == n {
      assert Without(c, i) == c[..n];
    } else {
      assert Without(c, i)[..n - 1] == Without(c[..n], i);
      SumWithout(c[..n], i);
    }
  }

  lemma TimeWithout(files: seq<string>, i: nat, times: Times)
    requires i < |files|
    ensures Time(Without(files, i), times) == Time(files, times) - times.Of(files[i])
  {
    SumWithout(Costs(files, times), i);
    assert Costs(Without(files, i), times) == Without(Costs(files, times), i);
  }

  lemma TimeAppend(files: seq<string>, file: string, times: Times)
    ensures Time(files + [file], times) == Time(files, times) + times.Of(file)
  {
    var c := Costs(files + [file], times);
    assert c[..|files|] == Costs(files, times);
  }

  /** The time of a group does not depend on the order of its files. */
  lemma {:induction false} TimeIgnoresOrder(a: seq<string>, b: seq<string>, times: Times)
    requires multiset(a) == multiset(b)
    ensures Time(a, times) == Time(b, times)
    decreases |a|
  {
    assert |multiset(a)| == |a| && |multiset(b)| == |b|;
    if a != [] {
      assert a[0] in multiset(b);
      assert a[0] in b;
      var j :| 0 <= j < |b| && b[j] == a[0];
      WithoutContents(a, 0);
      WithoutContents(b, j);
      TimeWithout(a, 0, times);
      TimeWithout(b, j, times);
      TimeIgnoresOrder(Without(a, 0), Without(b, j), times);
    }
  }

  // ---- The greedy placement

  function Files(jobs: seq<Job>): (f: seq<string>)
    ensures |f| == |jobs|
  {
    seq(|jobs|, i requires 0 <= i < |jobs| => jobs[i].file)
  }

  ghost predicate TimedBy(jobs: seq<Job>, times: Times) {
    forall i :: 0 <= i < |jobs| ==> jobs[i].seconds == times.Of(jobs[i].file)
  }

  /** The shard each job goes to. */
  ghost function Choices(jobs: seq<Job>, count: nat): (place: seq<nat>)
    requires count >= 1
    ensures |place| == |jobs| && Within(place, count)
  {
    if jobs == [] then []
    else
      var n := |jobs| - 1;
      Choices(jobs[..n], count) + [Lightest(Greedy(jobs[..n], count))]
  }

  lemma {:induction false} GreedyLoads(jobs: seq<Job>, times: Times, count: nat, k: nat)
    requires k < count && TimedBy(jobs, times)
    ensures Greedy(jobs, count)[k].seconds == Load(Costs(Files(jobs), times), Choices(jobs, count), k)
  {
    if jobs != [] {
      var n := |jobs| - 1;
      GreedyLoads(jobs[..n], times, count, k);
      LastLoad(jobs, times, count, k);
      var prior := Greedy(jobs[..n], count);
      assert Greedy(jobs, count) == Place(prior, jobs[n]);
      assert Place(prior, jobs[n])[k].seconds
          == prior[k].seconds + if Lightest(prior) == k then jobs[n].seconds else 0.0;
    }
  }

  /** The last job adds its time to the load of its shard alone. */
  lemma LastLoad(jobs: seq<Job>, times: Times, count: nat, k: nat)
    requires jobs != [] && k < count && TimedBy(jobs, times)
    ensures var n := |jobs| - 1;
      Load(Costs(Files(jobs), times), Choices(jobs, count), k)
      == Load(Costs(Files(jobs[..n]), times), Choices(jobs[..n], count), k)
         + if Lightest(Greedy(jobs[..n], count)) == k then jobs[n].seconds else 0.0
  {
    var n := |jobs| - 1;
    LastCost(jobs, times);
    LoadPush(Costs(Files(jobs[..n]), times), jobs[n].seconds, Choices(jobs[..n], count),
             Lightest(Greedy(jobs[..n], count)), k);
  }

  lemma LoadPush(c: seq<real>, cost: real, place: seq<nat>, p: nat, k: nat)
    requires |c| == |place|
    ensures Load(c + [cost], place + [p], k) == Load(c, place, k) + if p == k then cost else 0.0
  {
    assert (c + [cost])[..|c|] == c && (place + [p])[..|c|] == place;
  }

  lemma LastCost(jobs: seq<Job>, times: Times)
    requires jobs != [] && TimedBy(jobs, times)
    ensures Costs(Files(jobs), times) == Costs(Files(jobs[..|jobs| - 1]), times) + [jobs[|jobs| - 1].seconds]
  {
    var n := |jobs| - 1;
    assert forall i | 0 <= i < n :: Files(jobs)[i] == Files(jobs[..n])[i];
  }

  lemma {:induction false} NothingPlaced(groups: seq<seq<string>>)
    requires forall k :: 0 <= k < |groups| ==> groups[k] == []
    ensures Contents(groups) == multiset{}
  {
    if groups != [] { NothingPlaced(groups[..|groups| - 1]); }
  }

  lemma FilesLast(jobs: seq<Job>, file: string)
    requires jobs != []
    ensures var n := |jobs| - 1;
      multiset(Files(jobs))[file] == multiset(Files(jobs[..n]))[file] + multiset{jobs[n].file}[file]
  {
    var n := |jobs| - 1;
    assert Files(jobs) == Files(jobs[..n]) + [jobs[n].file];
  }

  lemma {:induction false} GreedyPartitions(jobs: seq<Job>, count: nat, file: string)
    requires count >= 1
    ensures Contents(Groups(Greedy(jobs, count)))[file] == multiset(Files(jobs))[file]
  {
    if jobs == [] {
      NothingPlaced(Groups(Greedy(jobs, count)));
    } else {
      var n := |jobs| - 1;
      GreedyPartitions(jobs[..n], count, file);
      FilesLast(jobs, file);
      PlacePartitions(Greedy(jobs[..n], count), jobs[n], file);
    }
  }

  lemma PlacePartitions(before: seq<Shard>, job: Job, file: string)
    requires before != []
    ensures Contents(Groups(Place(before, job)))[file] == Contents(Groups(before))[file] + multiset{job.file}[file]
  {
    var k := Lightest(before);
    var g := before[k].files + [job.file];
    assert Groups(Place(before, job)) == Groups(before)[k := g];
    ContentsUpdate(Groups(before), k, g, file);
  }

  lemma {:induction false} GreedyTimes(jobs: seq<Job>, times: Times, count: nat, k: nat)
    requires k < count && TimedBy(jobs, times)
    ensures Greedy(jobs, count)[k].seconds == Time(Greedy(jobs, count)[k].files, times)
  {
    if jobs != [] {
      var n := |jobs| - 1;
      GreedyTimes(jobs[..n], times, count, k);
      TimeAppend(Greedy(jobs[..n], count)[k].files, jobs[n].file, times);
    }
  }

  /** No shard ends heavier than a shard it could have chosen, by more than any
      of its files takes: every file of a heavier shard costs at least the gap. */
  lemma {:induction false} GreedyBalances(jobs: seq<Job>, times: Times, count: nat, p: nat, q: nat, file: string)
    requires p < count && q < count && TimedBy(jobs, times)
    requires forall i :: 0 <= i < |jobs| ==> jobs[i].seconds >= 0.0
    requires forall i, j :: 0 <= i < j < |jobs| ==> jobs[i].seconds >= jobs[j].seconds
    requires file in Greedy(jobs, count)[p].files
    ensures file in Files(jobs)
    ensures Greedy(jobs, count)[p].seconds - Greedy(jobs, count)[q].seconds <= times.Of(file)
  {
    var n := |jobs| - 1;
    var before := Greedy(jobs[..n], count);
    assert Files(jobs) == Files(jobs[..n]) + [jobs[n].file];
    if file in before[p].files {
      GreedyBalances(jobs[..n], times, count, p, q, file);
      var i :| 0 <= i < n && Files(jobs[..n])[i] == file;
      assert jobs[i].file == file && jobs[i].seconds >= jobs[n].seconds;
    }
  }

  // ---- A rival split of the same files, as a placement of the sorted ones

  /** The last file, taken out of the group that holds it. */
  lemma TakeLast(files: seq<string>, groups: seq<seq<string>>) returns (k: nat, i: nat)
    requires files != [] && Contents(groups) == multiset(files)
    ensures k < |groups| && i < |groups[k]| && groups[k][i] == files[|files| - 1]
    ensures Contents(groups[k := Without(groups[k], i)]) == multiset(files[..|files| - 1])
  {
    var n := |files| - 1;
    assert files == files[..n] + [files[n]];
    k, i := ContentsFind(groups, files[n]);
    var g := Without(groups[k], i);
    WithoutContents(groups[k], i);
    assert groups[k][i] in multiset(groups[k]);
    forall file ensures Contents(groups[k := g])[file] == multiset(files[..n])[file] {
      ContentsUpdate(groups, k, g, file);
    }
  }

  lemma EmptyGroups(groups: seq<seq<string>>, k: nat)
    requires Contents(groups) == multiset{} && k < |groups|
    ensures groups[k] == []
  {
    if groups[k] != [] {
      ContentsUpdate(groups, k, [], groups[k][0]);
      assert false;
    }
  }

  lemma LoadOfLast(files: seq<string>, times: Times, place: seq<nat>, j: nat)
    requires files != [] && |place| == |files|
    ensures var n := |files| - 1;
            Load(Costs(files, times), place, j) ==
            Load(Costs(files[..n], times), place[..n], j) + if place[n] == j then times.Of(files[n]) else 0.0
  {
    assert Costs(files, times)[..|files| - 1] == Costs(files[..|files| - 1], times);
  }

  /** A rival split, as a placement of the files one by one. */
  lemma {:induction false} PlacementOf(files: seq<string>, groups: seq<seq<string>>, times: Times)
        returns (place: seq<nat>)
    requires Contents(groups) == multiset(files)
    ensures |place| == |files| && Within(place, |groups|)
    ensures forall k :: 0 <= k < |groups| ==> Load(Costs(files, times), place, k) == Time(groups[k], times)
    decreases |files|
  {
    if files == [] {
      place := [];
      forall k | 0 <= k < |groups| ensures groups[k] == [] {
        EmptyGroups(groups, k);
      }
    } else {
      var n := |files| - 1;
      var k, i := TakeLast(files, groups);
      var g := Without(groups[k], i);
      var before := PlacementOf(files[..n], groups[k := g], times);
      place := before + [k];
      TimeWithout(groups[k], i, times);
      forall j | 0 <= j < |groups| ensures Load(Costs(files, times), place, j) == Time(groups[j], times) {
        LoadOfLast(files, times, place, j);
        assert place[..n] == before;
        assert Load(Costs(files[..n], times), before, j) == Time(groups[k := g][j], times);
      }
    }
  }

  lemma CostsOfLast(jobs: seq<Job>, times: Times)
    requires jobs != [] && TimedBy(jobs, times)
    ensures Costs(Files(jobs), times) == Costs(Files(jobs[..|jobs| - 1]), times) + [jobs[|jobs| - 1].seconds]
  {}

  /** The lightest shard carries no more than any machine of the same placement. */
  lemma LightestLoads(jobs: seq<Job>, times: Times, count: nat, low: real)
    requires count >= 1 && TimedBy(jobs, times)
    requires low == Greedy(jobs, count)[Lightest(Greedy(jobs, count))].seconds
    ensures forall i: nat :: i < count ==> low <= Load(Costs(Files(jobs), times), Choices(jobs, count), i)
  {
    forall i: nat | i < count ensures low <= Load(Costs(Files(jobs), times), Choices(jobs, count), i) {
      GreedyLoads(jobs, times, count, i);
    }
  }

  /** The shard that takes the last job stays within the bound. */
  lemma LastShardBound(jobs: seq<Job>, times: Times, count: nat, rival: seq<nat>, M: real)
    requires jobs != [] && count >= 1 && TimedBy(jobs, times) && |rival| == |jobs| && Within(rival, count)
    requires forall i :: 0 <= i < |jobs| ==> jobs[i].seconds >= 0.0
    requires forall i, j :: 0 <= i < j < |jobs| ==> jobs[i].seconds >= jobs[j].seconds
    requires forall i: nat :: i < count ==> Load(Costs(Files(jobs), times), rival, i) <= M
    ensures WithinBound(Greedy(jobs, count)[Lightest(Greedy(jobs[..|jobs| - 1], count))].seconds, count, M)
  {
    var n := |jobs| - 1;
    var last := jobs[n].seconds;
    var before := Greedy(jobs[..n], count);
    var k := Lightest(before);
    var low, load := before[k].seconds, Greedy(jobs, count)[k].seconds;
    var c, place := Costs(Files(jobs[..n]), times), Choices(jobs[..n], count);
    CostsOfLast(jobs, times);
    LightestLoads(jobs[..n], times, count, low);
    LastJobBound(c, last, place, rival, count, low, load, M);
  }

  /** Graham's bound for the greedy placement of jobs given longest first. */
  lemma {:induction false} GreedyBound(jobs: seq<Job>, times: Times, count: nat, rival: seq<nat>, M: real, k: nat)
    requires k < count && TimedBy(jobs, times) && |rival| == |jobs| && Within(rival, count)
    requires forall i :: 0 <= i < |jobs| ==> jobs[i].seconds >= 0.0
    requires forall i, j :: 0 <= i < j < |jobs| ==> jobs[i].seconds >= jobs[j].seconds
    requires forall i: nat :: i < count ==> Load(Costs(Files(jobs), times), rival, i) <= M
    ensures WithinBound(Greedy(jobs, count)[k].seconds, count, M)
  {
    var c := Costs(Files(jobs), times);
    if jobs == [] {
      assert Load(c, rival, k) <= M;
      BoundWhenOptimal(count, 0.0, M);
    } else {
      var n := |jobs| - 1;
      var before := Greedy(jobs[..n], count);
      if k == Lightest(before) {
        LastShardBound(jobs, times, count, rival, M);
      } else {
        assert c[..n] == Costs(Files(jobs[..n]), times);
        forall i: nat | i < count ensures Load(c[..n], rival[..n], i) <= M {
          LoadGrows(c, rival, i, n);
          assert Load(c, rival, i) <= M;
        }
        GreedyBound(jobs[..n], times, count, rival[..n], M, k);
      }
    }
  }

  /** `load` is at most the average of `total` plus all but one share of `largest`. */
  ghost predicate WithinAverage(load: real, m: nat, total: real, largest: real) {
    Multiple(m, load) <= total + Multiple(m, largest) - largest
  }

  lemma AverageStep(low: real, last: real, load: real, m: nat, total: real, largest: real)
    requires m >= 1 && load == low + last && last <= largest
    requires Multiple(m, low) <= total - last
    ensures WithinAverage(load, m, total, largest)
  {
    MultipleAdds(m, low, last);
    MultipleMonotone(m - 1, last, largest);
  }

  /** The fallback stage of the bound: the average, plus all but one share of
      the longest job. */
  lemma {:induction false} GreedyAverage(jobs: seq<Job>, times: Times, count: nat, largest: real, k: nat)
    requires k < count && TimedBy(jobs, times)
    requires forall i :: 0 <= i < |jobs| ==> 0.0 <= jobs[i].seconds <= largest
    requires largest >= 0.0
    ensures WithinAverage(Greedy(jobs, count)[k].seconds, count, Time(Files(jobs), times), largest)
  {
    if jobs == [] {
      MultipleMonotone(count - 1, 0.0, largest);
    } else {
      var n := |jobs| - 1;
      var before, total := Greedy(jobs[..n], count), Time(Files(jobs), times);
      TimeOfLast(jobs, times);
      if k == Lightest(before) {
        GreedyLightest(jobs[..n], times, count);
        AverageStep(before[k].seconds, jobs[n].seconds, Greedy(jobs, count)[k].seconds, count, total, largest);
      } else {
        assert Greedy(jobs, count)[k] == before[k];
        GreedyAverage(jobs[..n], times, count, largest, k);
      }
    }
  }

  lemma TimeOfLast(jobs: seq<Job>, times: Times)
    requires jobs != [] && TimedBy(jobs, times)
    ensures Time(Files(jobs), times) == Time(Files(jobs[..|jobs| - 1]), times) + jobs[|jobs| - 1].seconds
  {
    assert Costs(Files(jobs), times)[..|jobs| - 1] == Costs(Files(jobs[..|jobs| - 1]), times);
  }

  lemma GreedyLightest(jobs: seq<Job>, times: Times, count: nat)
    requires count >= 1 && TimedBy(jobs, times)
    ensures var shards := Greedy(jobs, count);
      Multiple(count, shards[Lightest(shards)].seconds) <= Time(Files(jobs), times)
  {
    var c, place := Costs(Files(jobs), times), Choices(jobs, count);
    var low := Greedy(jobs, count)[Lightest(Greedy(jobs, count))].seconds;
    forall i: nat | i < count ensures low <= Load(c, place, i) {
      GreedyLoads(jobs, times, count, i);
    }
    LightestIsBelowAverage(c, place, count, low);
  }

  // ---- The sorted jobs

  function LongestJobsFirst(files: seq<string>, seconds: map<string, real>): seq<Job> {
    Sort(Timed(files, TimesFor(files, seconds)), JobLe)
  }

  lemma FilesWithout(jobs: seq<Job>, i: nat)
    requires i < |jobs|
    ensures multiset(Files(jobs)) == multiset(Files(Without(jobs, i))) + multiset{jobs[i].file}
  {
    var files := Files(jobs);
    assert Files(Without(jobs, i)) == Without(files, i);
    assert files == files[..i] + [files[i]] + files[i + 1..];
  }

  lemma {:induction false} FilesIgnoreOrder(a: seq<Job>, b: seq<Job>)
    requires multiset(a) == multiset(b)
    ensures multiset(Files(a)) == multiset(Files(b))
    decreases |a|
  {
    assert |multiset(a)| == |a| && |multiset(b)| == |b|;
    if a != [] {
      assert a[0] in multiset(b);
      assert a[0] in b;
      var j :| 0 <= j < |b| && b[j] == a[0];
      WithoutContents(a, 0);
      WithoutContents(b, j);
      FilesIgnoreOrder(Without(a, 0), Without(b, j));
      FilesWithout(a, 0);
      FilesWithout(b, j);
    }
  }

  lemma SortedJobs(files: seq<string>, seconds: map<string, real>)
    ensures var jobs := LongestJobsFirst(files, seconds);
            && TimedBy(jobs, TimesFor(files, seconds))
            && multiset(Files(jobs)) == multiset(files)
            && forall i, j :: 0 <= i < j < |jobs| ==> jobs[i].seconds >= jobs[j].seconds
  {
    var times := TimesFor(files, seconds);
    var timed := Timed(files, times);
    var jobs := LongestJobsFirst(files, seconds);
    JobOrder();
    SortSorts(timed, JobLe);
    SortPermutes(timed, JobLe);
    FilesIgnoreOrder(jobs, timed);
    assert Files(timed) == files;
    forall i | 0 <= i < |jobs| ensures jobs[i].seconds == times.Of(jobs[i].file) {
      assert jobs[i] in multiset(timed);
      assert jobs[i] in timed;
    }
    forall i, j | 0 <= i < j < |jobs| ensures jobs[i].seconds >= jobs[j].seconds {
      assert JobLe(jobs[i], jobs[j]);
    }
  }

  // ---- The median

  lemma RealOrder()
    ensures TotalOrder(RealLe)
  {}

  lemma {:induction false} RecordedIn(files: seq<string>, seconds: map<string, real>, x: real)
    requires x in Recorded(files, seconds)
    ensures exists i :: 0 <= i < |files| && files[i] in seconds && seconds[files[i]] == x
  {
    if files[0] !in seconds || x != seconds[files[0]] {
      RecordedIn(files[1..], seconds, x);
      var i :| 0 <= i < |files[1..]| && files[1..][i] in seconds && seconds[files[1..][i]] == x;
      assert files[i + 1] == files[1..][i];
    }
  }

  /** The recorded files all lie on or above some `low`, so the median does. */
  lemma MedianAtLeast(values: seq<real>, low: real)
    requires forall i :: 0 <= i < |values| ==> values[i] >= low
    requires low <= 1.0
    ensures Median(values) >= low
  {
    var sorted := Sort(values, RealLe);
    SortPermutes(values, RealLe);
    forall i | 0 <= i < |sorted| ensures sorted[i] >= low {
      assert sorted[i] in multiset(values);
      assert sorted[i] in values;
    }
  }

  ghost predicate NoNegativeTime(files: seq<string>, seconds: map<string, real>) {
    forall i :: 0 <= i < |files| && files[i] in seconds ==> seconds[files[i]] >= 0.0
  }

  lemma TimesNonNegative(files: seq<string>, seconds: map<string, real>)
    requires NoNegativeTime(files, seconds)
    ensures forall file :: file in files ==> TimesFor(files, seconds).Of(file) >= 0.0
  {
    var values := Recorded(files, seconds);
    forall i | 0 <= i < |values| ensures values[i] >= 0.0 {
      RecordedIn(files, seconds, values[i]);
    }
    MedianAtLeast(values, 0.0);
  }

  lemma JobsNonNegative(files: seq<string>, seconds: map<string, real>)
    requires NoNegativeTime(files, seconds)
    ensures var jobs := LongestJobsFirst(files, seconds); forall i :: 0 <= i < |jobs| ==> jobs[i].seconds >= 0.0
  {
    var jobs := LongestJobsFirst(files, seconds);
    SortedJobs(files, seconds);
    TimesNonNegative(files, seconds);
    forall i | 0 <= i < |jobs| ensures jobs[i].seconds >= 0.0 {
      assert Files(jobs)[i] in multiset(files);
      assert jobs[i].file in files;
    }
  }

  // ---- What the split promises

  lemma {:induction false} ContentsIgnoreOrder(a: seq<seq<string>>, b: seq<seq<string>>)
    requires |a| == |b| && forall k :: 0 <= k < |a| ==> multiset(a[k]) == multiset(b[k])
    ensures Contents(a) == Contents(b)
  {
    if a != [] {
      ContentsIgnoreOrder(a[..|a| - 1], b[..|b| - 1]);
    }
  }

  /** Every file lands in exactly one shard, and each shard's seconds are its files' times. */
  lemma SplitPartitions(files: seq<string>, seconds: map<string, real>, count: nat)
    requires count >= 1
    ensures var shards := Split(files, seconds, count);
            && Contents(Groups(shards)) == multiset(files)
            && forall k :: 0 <= k < count ==>
                 && shards[k].seconds == Time(shards[k].files, TimesFor(files, seconds))
                 && Sorted(shards[k].files, TextLe)
  {
    var times := TimesFor(files, seconds);
    var jobs := LongestJobsFirst(files, seconds);
    var placed := Greedy(jobs, count);
    var shards := Split(files, seconds, count);
    SortedJobs(files, seconds);
    TextOrder();
    forall k | 0 <= k < count
      ensures multiset(shards[k].files) == multiset(placed[k].files)
      ensures shards[k].seconds == Time(shards[k].files, times) && Sorted(shards[k].files, TextLe)
    {
      SortPermutes(placed[k].files, TextLe);
      SortSorts(placed[k].files, TextLe);
      GreedyTimes(jobs, times, count, k);
      TimeIgnoresOrder(placed[k].files, shards[k].files, times);
    }
    ContentsIgnoreOrder(Groups(shards), Groups(placed));
    forall file ensures Contents(Groups(placed))[file] == multiset(files)[file] {
      GreedyPartitions(jobs, count, file);
    }
  }

  /** The gap between two shards never exceeds the time of any file of the heavier one. */
  lemma SplitBalances(files: seq<string>, seconds: map<string, real>, count: nat, p: nat, q: nat, file: string)
    requires p < count && q < count && NoNegativeTime(files, seconds)
    requires file in Split(files, seconds, count)[p].files
    ensures var shards := Split(files, seconds, count);
            shards[p].seconds - shards[q].seconds <= TimesFor(files, seconds).Of(file)
  {
    var jobs := LongestJobsFirst(files, seconds);
    var placed := Greedy(jobs, count);
    SortedJobs(files, seconds);
    JobsNonNegative(files, seconds);
    SortPermutes(placed[p].files, TextLe);
    assert file in multiset(placed[p].files);
    assert file in placed[p].files;
    GreedyBalances(jobs, TimesFor(files, seconds), count, p, q, file);
  }

  /** Every runner computes the same split, in whatever order it lists the files. */
  lemma SplitIgnoresOrder(a: seq<string>, b: seq<string>, seconds: map<string, real>, count: nat)
    requires count >= 1 && multiset(a) == multiset(b)
    ensures Split(a, seconds, count) == Split(b, seconds, count)
  {
    RecordedIgnoresOrder(a, b, seconds);
    RealOrder();
    SortIgnoresOrder(Recorded(a, seconds), Recorded(b, seconds), RealLe);
    var times := TimesFor(a, seconds);
    assert |Recorded(a, seconds)| == |multiset(Recorded(a, seconds))| == |multiset(Recorded(b, seconds))|
        == |Recorded(b, seconds)|;
    assert times == TimesFor(b, seconds);
    TimedIgnoresOrder(a, b, times);
    JobOrder();
    SortIgnoresOrder(Timed(a, times), Timed(b, times), JobLe);
  }

  lemma {:induction false} RecordedWithout(files: seq<string>, seconds: map<string, real>, i: nat)
    requires i < |files|
    ensures multiset(Recorded(files, seconds)) ==
            multiset(Recorded(Without(files, i), seconds)) + Entry(files[i], seconds)
  {
    var rest := Without(files, i);
    if i == 0 {
      assert rest == files[1..];
      RecordedHead(files, seconds);
    } else {
      RecordedWithout(files[1..], seconds, i - 1);
      assert rest[1..] == Without(files[1..], i - 1) && rest[0] == files[0];
      RecordedHead(files, seconds);
      RecordedHead(rest, seconds);
    }
  }

  ghost function Entry(file: string, seconds: map<string, real>): multiset<real> {
    if file in seconds then multiset{seconds[file]} else multiset{}
  }

  lemma RecordedHead(files: seq<string>, seconds: map<string, real>)
    requires files != []
    ensures multiset(Recorded(files, seconds)) == Entry(files[0], seconds) + multiset(Recorded(files[1..], seconds))
  {}

  lemma {:induction false} RecordedIgnoresOrder(a: seq<string>, b: seq<string>, seconds: map<string, real>)
    requires multiset(a) == multiset(b)
    ensures multiset(Recorded(a, seconds)) == multiset(Recorded(b, seconds))
    decreases |a|
  {
    assert |multiset(a)| == |a| && |multiset(b)| == |b|;
    if a != [] {
      assert a[0] in multiset(b);
      assert a[0] in b;
      var j :| 0 <= j < |b| && b[j] == a[0];
      WithoutContents(a, 0);
      WithoutContents(b, j);
      RecordedWithout(a, seconds, 0);
      RecordedWithout(b, seconds, j);
      RecordedIgnoresOrder(Without(a, 0), Without(b, j), seconds);
    }
  }

  lemma TimedWithout(files: seq<string>, times: Times, i: nat)
    requires i < |files|
    ensures multiset(Timed(files, times)) == multiset(Timed(Without(files, i), times))
        + multiset{Job(files[i], times.Of(files[i]))}
  {
    var timed := Timed(files, times);
    assert Timed(Without(files, i), times) == Without(timed, i);
    WithoutContents(timed, i);
    assert timed[i] in multiset(timed);
  }

  lemma {:induction false} TimedIgnoresOrder(a: seq<string>, b: seq<string>, times: Times)
    requires multiset(a) == multiset(b)
    ensures multiset(Timed(a, times)) == multiset(Timed(b, times))
    decreases |a|
  {
    assert |multiset(a)| == |a| && |multiset(b)| == |b|;
    if a != [] {
      assert a[0] in multiset(b);
      assert a[0] in b;
      var j :| 0 <= j < |b| && b[j] == a[0];
      WithoutContents(a, 0);
      WithoutContents(b, j);
      TimedIgnoresOrder(Without(a, 0), Without(b, j), times);
      TimedWithout(a, times, 0);
      TimedWithout(b, times, j);
    }
  }

  /** Graham's bound: no shard takes more than 4/3 - 1/(3 count) times the
      heaviest group of any other split of the same files into `count` groups. */
  lemma SplitWithinBound(files: seq<string>, seconds: map<string, real>, count: nat, rival: seq<seq<string>>, M: real,
        k: nat)
    requires k < count && NoNegativeTime(files, seconds)
    requires |rival| == count && Contents(rival) == multiset(files)
    requires forall j :: 0 <= j < count ==> Time(rival[j], TimesFor(files, seconds)) <= M
    ensures WithinBound(Split(files, seconds, count)[k].seconds, count, M)
  {
    var times := TimesFor(files, seconds);
    var jobs := LongestJobsFirst(files, seconds);
    SortedJobs(files, seconds);
    JobsNonNegative(files, seconds);
    var place := PlacementOf(Files(jobs), rival, times);
    GreedyBound(jobs, times, count, place, M, k);
  }

  /** The fallback stage: at most the average plus all but one share of the longest file. */
  lemma SplitWithinAverage(files: seq<string>, seconds: map<string, real>, count: nat, largest: real, k: nat)
    requires k < count && NoNegativeTime(files, seconds) && largest >= 0.0
    requires forall file :: file in files ==> TimesFor(files, seconds).Of(file) <= largest
    ensures WithinAverage(Split(files, seconds, count)[k].seconds, count, Time(files, TimesFor(files, seconds)),
        largest)
  {
    var times := TimesFor(files, seconds);
    var jobs := LongestJobsFirst(files, seconds);
    SortedJobs(files, seconds);
    JobsNonNegative(files, seconds);
    forall i | 0 <= i < |jobs| ensures jobs[i].seconds <= largest {
      assert Files(jobs)[i] in multiset(files);
      assert jobs[i].file in files;
    }
    GreedyAverage(jobs, times, count, largest, k);
    TimeIgnoresOrder(Files(jobs), files, times);
  }

  /** The two bounds in the form they are usually written. */
  lemma BoundIsGraham(load: real, m: nat, M: real)
    requires m >= 1
    ensures WithinBound(load, m, M) <==> load <= (4.0 / 3.0 - 1.0 / (3.0 * m as real)) * M
  {
    var r := m as real;
    var ratio := 4.0 / 3.0 - 1.0 / (3.0 * r);
    BoundAsProduct(load, m, M);
    assert 3.0 * r * ratio == 4.0 * r - 1.0;
    Scale(load, ratio, M, 3.0 * r);
  }

  lemma Scale(load: real, ratio: real, M: real, factor: real)
    requires factor > 0.0
    ensures load <= ratio * M <==> factor * load <= (factor * ratio) * M
  {
    assert (factor * ratio) * M == factor * (ratio * M);
  }
}
