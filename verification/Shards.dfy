/** The E2E shard scheduler of `scripts/ci/e2e-shards.ts`: longest file first,
    each to the lightest shard. Seconds are exact reals. */
module Shards {
  import opened Results
  import opened Sorting
  import opened Text

  datatype Job = Job(file: string, seconds: real)
  datatype Shard = Shard(files: seq<string>, seconds: real)

  /** The recorded seconds, and the time of a file with no record. */
  datatype Times = Times(recorded: map<string, real>, fallback: real) {
    function Of(file: string): real {
      if file in recorded then recorded[file] else fallback
    }
  }

  // ---- The orders the sorts use

  predicate RealLe(a: real, b: real) { a <= b }

  /** The comparator of `timed.sort`. */
  function Compare(a: Job, b: Job): real {
    if b.seconds - a.seconds != 0.0 then b.seconds - a.seconds
    else if a.file != b.file && TextLe(a.file, b.file) then -1.0
    else if a.file != b.file && TextLe(b.file, a.file) then 1.0
    else 0.0
  }

  predicate JobLe(a: Job, b: Job) { Compare(a, b) <= 0.0 }

  /** The comparator is a total order on timed files: no two different entries tie. */
  lemma JobOrder()
    ensures TotalOrder(JobLe)
  {
    TextOrder();
    forall a, b, c | JobLe(a, b) && JobLe(b, c) ensures JobLe(a, c) {
      if a.seconds == b.seconds == c.seconds {
        assert TextLe(a.file, c.file);
      }
    }
    forall a, b | JobLe(a, b) && JobLe(b, a) ensures a == b {
      assert a.seconds == b.seconds;
      assert TextLe(a.file, b.file) && TextLe(b.file, a.file);
    }
    forall a, b ensures JobLe(a, b) || JobLe(b, a) {
      assert TextLe(a.file, b.file) || TextLe(b.file, a.file);
    }
  }

  // ---- The split

  function Median(values: seq<real>): real {
    if values == [] then 1.0
    else
      var sorted := Sort(values, RealLe);
      var middle := |sorted| / 2;
      if |sorted| % 2 != 0 then sorted[middle] else (sorted[middle - 1] + sorted[middle]) / 2.0
  }

  /** The recorded seconds of the files that have some, in file order. */
  function Recorded(files: seq<string>, seconds: map<string, real>): seq<real> {
    if files == [] then []
    else (if files[0] in seconds then [seconds[files[0]]] else []) + Recorded(files[1..], seconds)
  }

  function TimesFor(files: seq<string>, seconds: map<string, real>): Times {
    Times(seconds, Median(Recorded(files, seconds)))
  }

  function Timed(files: seq<string>, times: Times): (jobs: seq<Job>)
    ensures |jobs| == |files|
  {
    seq(|files|, i requires 0 <= i < |files| => Job(files[i], times.Of(files[i])))
  }

  /** The reduction `shard.seconds < best.seconds ? shard : best`. */
  function Lightest(shards: seq<Shard>): (k: nat)
    requires shards != []
    ensures k < |shards|
    ensures forall i :: 0 <= i < |shards| ==> shards[k].seconds <= shards[i].seconds
    ensures forall i :: 0 <= i < k ==> shards[k].seconds < shards[i].seconds
  {
    if |shards| == 1 then 0
    else
      var n := |shards| - 1;
      var best := Lightest(shards[..n]);
      if shards[n].seconds < shards[best].seconds then n else best
  }

  function Place(shards: seq<Shard>, job: Job): (r: seq<Shard>)
    requires shards != []
    ensures |r| == |shards|
  {
    var k := Lightest(shards);
    shards[k := Shard(shards[k].files + [job.file], shards[k].seconds + job.seconds)]
  }

  lemma GreedyStep(jobs: seq<Job>, n: nat, count: nat)
    requires n < |jobs| && count >= 1
    ensures Greedy(jobs[..n + 1], count) == Place(Greedy(jobs[..n], count), jobs[n])
  {
    assert jobs[..n + 1][..n] == jobs[..n];
  }

  function Greedy(jobs: seq<Job>, count: nat): (shards: seq<Shard>)
    requires count >= 1
    ensures |shards| == count
  {
    if jobs == [] then seq(count, _ => Shard([], 0.0))
    else Place(Greedy(jobs[..|jobs| - 1], count), jobs[|jobs| - 1])
  }

  function InPathOrder(shard: Shard): Shard {
    Shard(Sort(shard.files, TextLe), shard.seconds)
  }

  function AllInPathOrder(shards: seq<Shard>): (r: seq<Shard>)
    ensures |r| == |shards| && forall k :: 0 <= k < |r| ==> r[k] == InPathOrder(shards[k])
  {
    seq(|shards|, k requires 0 <= k < |shards| => InPathOrder(shards[k]))
  }

  /** What `assignShards` returns for a positive `count`. */
  function Split(files: seq<string>, seconds: map<string, real>, count: nat): (shards: seq<Shard>)
    requires count >= 1
    ensures |shards| == count
  {
    var placed := Greedy(Sort(Timed(files, TimesFor(files, seconds)), JobLe), count);
    AllInPathOrder(placed)
  }

  method AssignShards(files: seq<string>, seconds: map<string, real>, count: int) returns (r: Result<seq<Shard>>)
    ensures r.Ok? <==> count >= 1
    ensures count >= 1 ==> r == Ok(Split(files, seconds, count))
  {
    if count < 1 {
      return Error("shard count: expected a positive integer");
    }
    var fallback := Median(Recorded(files, seconds));
    var timed := Sort(Timed(files, Times(seconds, fallback)), JobLe);
    var shards := new Shard[count](_ => Shard([], 0.0));
    PlaceAll(timed, shards);
    SortFiles(shards);
    assert shards[..] == Split(files, seconds, count);
    return Ok(shards[..]);
  }

  /** The placing loop. */
  method PlaceAll(timed: seq<Job>, shards: array<Shard>)
    requires shards.Length >= 1 && forall k :: 0 <= k < shards.Length ==> shards[k] == Shard([], 0.0)
    modifies shards
    ensures shards[..] == Greedy(timed, shards.Length)
  {
    assert shards[..] == Greedy([], shards.Length);
    for n := 0 to |timed|
      invariant shards[..] == Greedy(timed[..n], shards.Length)
    {
      GreedyStep(timed, n, shards.Length);
      ghost var before := shards[..];
      var lightest := Lightest(shards[..]);
      shards[lightest] := Shard(shards[lightest].files + [timed[n].file], shards[lightest].seconds + timed[n].seconds);
      assert shards[..] == Place(before, timed[n]);
    }
    assert timed[..|timed|] == timed;
  }

  /** The last loop: each shard's files in path order. */
  method SortFiles(shards: array<Shard>)
    modifies shards
    ensures shards[..] == AllInPathOrder(old(shards[..]))
  {
    ghost var was := shards[..];
    for k := 0 to shards.Length
      invariant forall i :: 0 <= i < k ==> shards[i] == AllInPathOrder(was)[i]
      invariant forall i :: k <= i < shards.Length ==> shards[i] == was[i]
    {
      shards[k] := InPathOrder(shards[k]);
    }
  }
}
