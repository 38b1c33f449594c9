/** The nightly's gate, `scripts/ci/commit-ci.ts`: the decision on one answer of
    the API, and the polling loop that waits, reruns once and follows. */
module CommitCi {
  import opened Results

  datatype CiRun = CiRun(id: int, headSha: string, headBranch: Option<string>, event: string,
                         status: string, conclusion: Option<string>, runAttempt: int)

  datatype Options = Options(sha: string, dryRun: bool, follow: bool)

  datatype State = State(sha: Option<string>, retriedRunId: Option<int>, retriedAttempt: Option<int>)

  datatype Decision =
    | Wait(waitingFor: Option<CiRun>)
    | Pass(run: CiRun)
    | Rerun(run: CiRun)
    | Follow(run: CiRun)
    | Fail(failed: Option<CiRun>)

  const NO_RUN_GRACE_MS := 10 * 60_000
  const DEADLINE_MS := 120 * 60_000
  const QUEUE := "gh-readonly-queue/main/"

  predicate OnMain(run: CiRun) {
    run.event == "push" && run.headBranch == Some("main")
  }

  predicate OnMainOrQueue(run: CiRun) {
    run.headBranch.Some? && (run.headBranch.value == "main" || QUEUE <= run.headBranch.value)
  }

  predicate Completed(run: CiRun, conclusion: string) {
    run.status == "completed" && run.conclusion == Some(conclusion)
  }

  predicate Cancelled(run: CiRun) { Completed(run, "cancelled") }

  predicate Green(run: CiRun) { Completed(run, "success") }

  predicate Pending(run: CiRun) { run.status != "completed" }

  // ---- Lists of runs

  function Filter(runs: seq<CiRun>, keep: CiRun -> bool): (r: seq<CiRun>)
    ensures forall run :: run in r <==> run in runs && keep(run)
  {
    if runs == [] then []
    else (if keep(runs[0]) then [runs[0]] else []) + Filter(runs[1..], keep)
  }

  function Find(runs: seq<CiRun>, want: CiRun -> bool): (r: Option<CiRun>)
    ensures r.Some? ==> r.value in runs && want(r.value)
    ensures r.None? <==> forall run :: run in runs ==> !want(run)
  {
    if runs == [] then None
    else if want(runs[0]) then Some(runs[0])
    else Find(runs[1..], want)
  }

  ghost predicate NewestFirst(runs: seq<CiRun>) {
    forall i, j :: 0 <= i < j < |runs| ==> runs[i].id >= runs[j].id
  }

  /** The stable sort `(a, b) => b.id - a.id`. */
  function SortNewest(runs: seq<CiRun>): (r: seq<CiRun>)
    ensures NewestFirst(r)
    ensures forall run :: run in r <==> run in runs
  {
    if runs == [] then [] else InsertNewest(runs[0], SortNewest(runs[1..]))
  }

  function InsertNewest(run: CiRun, runs: seq<CiRun>): (r: seq<CiRun>)
    requires NewestFirst(runs)
    ensures NewestFirst(r)
    ensures forall x :: x in r <==> x == run || x in runs
  {
    if runs == [] || run.id >= runs[0].id then [run] + runs
    else
      var rest := InsertNewest(run, runs[1..]);
      assert forall x :: x in rest ==> x.id <= runs[0].id;
      [runs[0]] + rest
  }

  // ---- decide

  function Tracked(o: Options, s: State): string {
    if s.sha.Some? then s.sha.value else o.sha
  }

  predicate Accepted(o: Options, run: CiRun) {
    o.dryRun || OnMainOrQueue(run)
  }

  predicate IsCandidate(o: Options, s: State, run: CiRun) {
    run.headSha == Tracked(o, s) && Accepted(o, run)
  }

  function Candidates(runs: seq<CiRun>, o: Options, s: State): seq<CiRun> {
    SortNewest(Filter(runs, run => IsCandidate(o, s, run)))
  }

  predicate IsLive(gone: CiRun, run: CiRun) {
    OnMain(run) && run.headSha != gone.headSha && !Cancelled(run)
  }

  /** `successor`: the newest newer live run, else the newest older green one. */
  function Successor(runs: seq<CiRun>, gone: CiRun): Option<CiRun> {
    var live := SortNewest(Filter(runs, run => IsLive(gone, run)));
    var newer := Find(live, (run: CiRun) => run.id > gone.id);
    if newer.Some? then newer
    else Find(live, (run: CiRun) => run.id < gone.id && Green(run))
  }

  /** The rerun of this very attempt has not started yet. */
  predicate Stale(s: State, run: CiRun) {
    s.retriedRunId == Some(run.id) && s.retriedAttempt.Some? && run.runAttempt <= s.retriedAttempt.value
  }

  function Decide(runs: seq<CiRun>, o: Options, s: State, elapsedMs: int): Decision {
    var candidates := Candidates(runs, o, s);
    var passed := Find(candidates, Green);
    if passed.Some? then Pass(passed.value)
    else
      var pending := Find(candidates, Pending);
      if pending.Some? then Wait(pending)
      else if candidates == [] then
        if elapsedMs < NO_RUN_GRACE_MS then Wait(None) else Fail(None)
      else
        var run := candidates[0];
        if Stale(s, run) then Wait(Some(run))
        else if run.conclusion == Some("failure") && !o.dryRun && s.retriedAttempt.None? then Rerun(run)
        else
          var next := if o.follow && !o.dryRun && Cancelled(run) then Successor(runs, run) else None;
          if next.Some? then Follow(next.value) else Fail(Some(run))
  }

  // ---- What one decision means

  /** The newest candidate: the run a verdict other than a pass is about. */
  ghost predicate Newest(runs: seq<CiRun>, o: Options, s: State, run: CiRun) {
    && run in runs && IsCandidate(o, s, run)
    && forall other :: other in runs && IsCandidate(o, s, other) ==> other.id <= run.id
  }

  /** A pass names a green candidate, and any green candidate passes, whatever
      else is pending, failed or cancelled. */
  lemma PassIffGreen(runs: seq<CiRun>, o: Options, s: State, elapsedMs: int)
    ensures var d := Decide(runs, o, s, elapsedMs);
            && (d.Pass? ==> d.run in runs && IsCandidate(o, s, d.run) && Green(d.run))
            && (d.Pass? <==> exists run :: run in runs && IsCandidate(o, s, run) && Green(run))
  {
    var candidates := Candidates(runs, o, s);
    assert forall run :: run in candidates <==> run in runs && IsCandidate(o, s, run);
  }

  /** A verdict that ends the wait without a pass is about the newest candidate,
      completed, and never about an attempt whose rerun is still to start. */
  lemma VerdictIsFresh(runs: seq<CiRun>, o: Options, s: State, elapsedMs: int)
    ensures var d := Decide(runs, o, s, elapsedMs);
            && (d.Rerun? || (d.Fail? && d.failed.Some?) ==>
                 var run := if d.Rerun? then d.run else d.failed.value;
                 Newest(runs, o, s, run) && !Pending(run) && !Stale(s, run))
            && (d.Follow? ==> exists gone :: Newest(runs, o, s, gone) && Cancelled(gone) && !Stale(s, gone)
                                             && Successor(runs, gone) == Some(d.run))
            && (d.Fail? && d.failed.None? ==> elapsedMs >= NO_RUN_GRACE_MS
                                              && forall run :: run in runs ==> !IsCandidate(o, s, run))
  {
    var candidates := Candidates(runs, o, s);
    assert forall run :: run in candidates <==> run in runs && IsCandidate(o, s, run);
    if candidates != [] {
      FirstIsNewest(runs, o, s);
    }
  }

  /** The gate waits only while something is open: a candidate still running, a
      rerun still to start, or no candidate yet within the grace. A failure gives
      up the rerun or the follow it had only when it has none. */
  lemma WaitsOnlyWhileOpen(runs: seq<CiRun>, o: Options, s: State, elapsedMs: int)
    ensures var d := Decide(runs, o, s, elapsedMs);
            && (d.Wait? ==>
                 || (exists run :: run in runs && IsCandidate(o, s, run) && Pending(run))
                 || (exists run :: Newest(runs, o, s, run) && Stale(s, run))
                 || (elapsedMs < NO_RUN_GRACE_MS && forall run :: run in runs ==> !IsCandidate(o, s, run)))
            && (d.Fail? && d.failed.Some? ==>
                 && (d.failed.value.conclusion == Some("failure") ==> o.dryRun || s.retriedAttempt.Some?)
                 && (Cancelled(d.failed.value) ==> !o.follow || o.dryRun || Successor(runs, d.failed.value).None?))
  {
    var candidates := Candidates(runs, o, s);
    assert forall run :: run in candidates <==> run in runs && IsCandidate(o, s, run);
    if candidates != [] {
      FirstIsNewest(runs, o, s);
    }
  }

  lemma FirstIsNewest(runs: seq<CiRun>, o: Options, s: State)
    requires Candidates(runs, o, s) != []
    ensures Newest(runs, o, s, Candidates(runs, o, s)[0])
  {
    var candidates := Candidates(runs, o, s);
    assert forall run :: run in candidates <==> run in runs && IsCandidate(o, s, run);
    forall other | other in candidates ensures other.id <= candidates[0].id {
      var j :| 0 <= j < |candidates| && candidates[j] == other;
      assert j == 0 || candidates[0].id >= candidates[j].id;
    }
  }

  /** No second rerun while one is remembered; a dry run neither reruns nor follows. */
  lemma RerunOnlyFirst(runs: seq<CiRun>, o: Options, s: State, elapsedMs: int)
    ensures Decide(runs, o, s, elapsedMs).Rerun? ==>
              s.retriedAttempt.None? && !o.dryRun && Decide(runs, o, s, elapsedMs).run.conclusion == Some("failure")
    ensures Decide(runs, o, s, elapsedMs).Follow? ==> o.follow && !o.dryRun
  {}

  /** The successor is the newest live run newer than the cancelled one, or with
      none newer, the newest green one older than it. */
  lemma SuccessorIsNewest(runs: seq<CiRun>, gone: CiRun)
    ensures var next := Successor(runs, gone);
            && (next.Some? ==> next.value in runs && IsLive(gone, next.value) && next.value.id != gone.id)
            && (next.Some? && next.value.id > gone.id ==>
                 forall run :: run in runs && IsLive(gone, run) ==> run.id <= next.value.id)
            && (next.None? || next.value.id < gone.id ==>
                 forall run :: run in runs && IsLive(gone, run) ==> run.id <= gone.id)
            && (next.Some? && next.value.id < gone.id ==>
                 && Green(next.value)
                 && forall run :: run in runs && IsLive(gone, run) && Green(run) && run.id < gone.id
                     ==> run.id <= next.value.id)
            && (next.None? ==> forall run :: run in runs && IsLive(gone, run) && Green(run) ==> run.id == gone.id)
  {
    var live := SortNewest(Filter(runs, run => IsLive(gone, run)));
    assert forall run :: run in live <==> run in runs && IsLive(gone, run);
    var isNewer, isOlder := (run: CiRun) => run.id > gone.id, (run: CiRun) => run.id < gone.id && Green(run);
    FindIsFirst(live, isNewer);
    FindIsFirst(live, isOlder);
  }

  /** In a list sorted newest first, `find` gives the newest match. */
  lemma {:induction false} FindIsFirst(runs: seq<CiRun>, want: CiRun -> bool)
    requires NewestFirst(runs)
    ensures Find(runs, want).Some? ==> forall run :: run in runs && want(run) ==> run.id <= Find(runs, want).value.id
  {
    if runs != [] {
      forall run | run in runs ensures run.id <= runs[0].id {
        var j :| 0 <= j < |runs| && runs[j] == run;
        assert j == 0 || runs[0].id >= runs[j].id;
      }
      if !want(runs[0]) {
        FindIsFirst(runs[1..], want);
        assert forall run :: run in runs ==> run == runs[0] || run in runs[1..];
      }
    }
  }

  // ---- Following

  function AfterFollow(next: CiRun): State {
    State(Some(next.headSha), None, None)
  }

  /** The gate leaves the cancelled run `gone` for `next`. */
  ghost predicate Leaves(runs: seq<CiRun>, o: Options, s: State, gone: CiRun, next: CiRun) {
    Newest(runs, o, s, gone) && Cancelled(gone) && Successor(runs, gone) == Some(next)
  }

  lemma FollowLeaves(runs: seq<CiRun>, o: Options, s: State, t: int) returns (gone: CiRun)
    requires Decide(runs, o, s, t).Follow?
    ensures Leaves(runs, o, s, gone, Decide(runs, o, s, t).run)
    ensures !exists run :: run in runs && IsCandidate(o, s, run) && Green(run)
  {
    VerdictIsFresh(runs, o, s, t);
    PassIffGreen(runs, o, s, t);
    gone :| Newest(runs, o, s, gone) && Cancelled(gone) && Successor(runs, gone) == Some(Decide(runs, o, s, t).run);
  }

  /** A follow to an older run goes to a green one, a candidate that will pass. */
  lemma OlderFollowIsGreen(runs: seq<CiRun>, o: Options, s: State, gone: CiRun, next: CiRun)
    requires Leaves(runs, o, s, gone, next) && next.id < gone.id
    ensures next in runs && IsCandidate(o, AfterFollow(next), next) && Green(next)
  {
    SuccessorIsNewest(runs, gone);
  }

  /** On a fixed list of runs, a second follow in a row goes to an older run: the
      first already took the newest live one. */
  lemma SecondFollowIsOlder(runs: seq<CiRun>, o: Options, s: State, gone: CiRun, first: CiRun, gone1: CiRun,
        second: CiRun)
    requires Leaves(runs, o, s, gone, first) && first.id > gone.id
    requires Leaves(runs, o, AfterFollow(first), gone1, second)
    ensures second.id < gone1.id
  {
    SuccessorIsNewest(runs, gone);
    SuccessorIsNewest(runs, gone1);
    assert IsCandidate(o, AfterFollow(first), first) && first.id <= gone1.id;
    assert IsLive(gone1, second) && OnMainOrQueue(second);
    assert second.headSha == gone.headSha ==> IsCandidate(o, s, second);
    assert second.headSha != gone.headSha ==> IsLive(gone, second);
  }

  /** So on a fixed list the gate follows at most twice before it decides. */
  lemma FollowsAtMostTwice(runs: seq<CiRun>, o: Options, s: State, t0: int, t1: int, t2: int)
    requires Decide(runs, o, s, t0).Follow?
    requires Decide(runs, o, AfterFollow(Decide(runs, o, s, t0).run), t1).Follow?
    ensures var s1 := AfterFollow(Decide(runs, o, s, t0).run);
            Decide(runs, o, AfterFollow(Decide(runs, o, s1, t1).run), t2).Pass?
  {
    var first := Decide(runs, o, s, t0).run;
    var s1 := AfterFollow(first);
    var second := Decide(runs, o, s1, t1).run;
    var gone := FollowLeaves(runs, o, s, t0);
    var gone1 := FollowLeaves(runs, o, s1, t1);
    SuccessorIsNewest(runs, gone);
    if first.id < gone.id { OlderFollowIsGreen(runs, o, s, gone, first); }
    SecondFollowIsOlder(runs, o, s, gone, first, gone1, second);
    OlderFollowIsGreen(runs, o, s1, gone1, second);
    PassIffGreen(runs, o, AfterFollow(second), t2);
  }

  // ---- The polling loop

  /** One turn of the loop: what the API answered, if it did, and the clock before and after. */
  datatype Poll = Poll(answer: Option<seq<CiRun>>, elapsedMs: int, endMs: int)

  datatype Outcome =
    | Passed(sha: string)
    | Failed
    | NoFullSha(run: CiRun)
    | StillWaiting(state: State)

  function DecideOn(p: Poll, o: Options, s: State): Decision {
    if p.answer.Some? then Decide(p.answer.value, o, s, p.elapsedMs) else Wait(None)
  }

  /** The state after a turn that does not end the loop. */
  function After(d: Decision, s: State): State {
    match d
    case Rerun(run) => s.(retriedRunId := Some(run.id), retriedAttempt := Some(run.runAttempt))
    case Follow(run) => AfterFollow(run)
    case _ => s
  }

  predicate Ends(d: Decision, p: Poll) {
    d.Pass? || d.Fail? || (!d.Follow? && p.endMs > DEADLINE_MS)
  }

  predicate IsHex(c: char) { 'a' <= c <= 'f' || '0' <= c <= '9' }

  predicate IsFullSha(sha: string) {
    |sha| == 40 && forall i :: 0 <= i < |sha| ==> IsHex(sha[i])
  }

  function Verdict(d: Decision): Outcome {
    if !d.Pass? then Failed
    else if IsFullSha(d.run.headSha) then Passed(d.run.headSha)
    else NoFullSha(d.run)
  }

  /** What the loop comes to over the turns `polls`. */
  function Watch(polls: seq<Poll>, o: Options, s: State): Outcome {
    if polls == [] then StillWaiting(s)
    else
      var d := DecideOn(polls[0], o, s);
      if Ends(d, polls[0]) then Verdict(d) else Watch(polls[1..], o, After(d, s))
  }

  /** The gate's state, updated in place turn after turn. */
  class Gate {
    const options: Options
    var sha: Option<string>
    var retriedRunId: Option<int>
    var retriedAttempt: Option<int>

    constructor (options: Options)
      ensures this.options == options && Current() == State(None, None, None)
    {
      this.options := options;
      sha, retriedRunId, retriedAttempt := None, None, None;
    }

    function Current(): State
      reads this
    {
      State(sha, retriedRunId, retriedAttempt)
    }

    method Run(polls: seq<Poll>) returns (outcome: Outcome)
      modifies this
      ensures outcome == Watch(polls, options, old(Current()))
    {
      for k := 0 to |polls|
        invariant Watch(polls, options, old(Current())) == Watch(polls[k..], options, Current())
      {
        var poll := polls[k];
        assert polls[k..][0] == poll && polls[k..][1..] == polls[k + 1..];
        var decision := DecideOn(poll, options, Current());
        if decision.Pass? || decision.Fail? {
          return Verdict(decision);
        }
        if decision.Rerun? {
          retriedRunId := Some(decision.run.id);
          retriedAttempt := Some(decision.run.runAttempt);
        }
        if decision.Follow? {
          sha := Some(decision.run.headSha);
          retriedRunId := None;
          retriedAttempt := None;
          continue;
        }
        if poll.endMs > DEADLINE_MS {
          return Failed;
        }
      }
      return StillWaiting(Current());
    }
  }

  // ---- Whole runs of the gate

  /** The decisions of the loop's turns, the last one included. */
  function Decisions(polls: seq<Poll>, o: Options, s: State): seq<Decision> {
    if polls == [] then []
    else
      var d := DecideOn(polls[0], o, s);
      [d] + if Ends(d, polls[0]) then [] else Decisions(polls[1..], o, After(d, s))
  }

  function Reruns(ds: seq<Decision>): nat {
    if ds == [] then 0 else (if ds[0].Rerun? then 1 else 0) + Reruns(ds[1..])
  }

  function Follows(ds: seq<Decision>): nat {
    if ds == [] then 0 else (if ds[0].Follow? then 1 else 0) + Follows(ds[1..])
  }

  lemma RerunNeedsNone(p: Poll, o: Options, s: State)
    ensures DecideOn(p, o, s).Rerun? ==> s.retriedAttempt.None?
  {
    if p.answer.Some? { RerunOnlyFirst(p.answer.value, o, s, p.elapsedMs); }
  }

  /** At most one rerun per commit the gate visits. */
  lemma {:induction false} OneRerunPerVisit(polls: seq<Poll>, o: Options, s: State)
    ensures var ds := Decisions(polls, o, s);
            Reruns(ds) <= Follows(ds) + if s.retriedAttempt.Some? then 0 else 1
  {
    if polls != [] {
      var d := DecideOn(polls[0], o, s);
      RerunNeedsNone(polls[0], o, s);
      if !Ends(d, polls[0]) {
        OneRerunPerVisit(polls[1..], o, After(d, s));
        var rest := Decisions(polls[1..], o, After(d, s));
        assert ([d] + rest)[1..] == rest;
      } else {
        assert [d][1..] == [];
      }
    }
  }

  /** Between two reruns the gate has followed: a visited commit gets at most one. */
  lemma {:induction false} RerunsApart(polls: seq<Poll>, o: Options, s: State, i: nat, j: nat)
    requires i < j < |Decisions(polls, o, s)|
    requires Decisions(polls, o, s)[i].Rerun? && Decisions(polls, o, s)[j].Rerun?
    ensures exists k :: i < k < j && Decisions(polls, o, s)[k].Follow?
  {
    var d := DecideOn(polls[0], o, s);
    var s' := After(d, s);
    DecisionsTail(polls, o, s, j);
    if i > 0 {
      DecisionsTail(polls, o, s, i);
      RerunsApart(polls[1..], o, s', i - 1, j - 1);
      var k :| i - 1 < k < j - 1 && Decisions(polls[1..], o, s')[k].Follow?;
      DecisionsTail(polls, o, s, k + 1);
    } else {
      var k := RerunAfterFollow(polls[1..], o, s', j - 1);
      DecisionsTail(polls, o, s, k + 1);
    }
  }

  lemma DecisionsTail(polls: seq<Poll>, o: Options, s: State, j: nat)
    requires 0 < j < |Decisions(polls, o, s)|
    ensures j - 1 < |Decisions(polls[1..], o, After(DecideOn(polls[0], o, s), s))|
    ensures Decisions(polls, o, s)[j] == Decisions(polls[1..], o, After(DecideOn(polls[0], o, s), s))[j - 1]
  {}

  lemma {:induction false} RerunAfterFollow(polls: seq<Poll>, o: Options, s: State, j: nat) returns (k: nat)
    requires s.retriedAttempt.Some?
    requires j < |Decisions(polls, o, s)| && Decisions(polls, o, s)[j].Rerun?
    ensures k < j && Decisions(polls, o, s)[k].Follow?
  {
    var d := DecideOn(polls[0], o, s);
    RerunNeedsNone(polls[0], o, s);
    assert Decisions(polls, o, s)[0] == d;
    k := 0;
    if !d.Follow? {
      DecisionsTail(polls, o, s, j);
      var k' := RerunAfterFollow(polls[1..], o, After(d, s), j - 1);
      k := k' + 1;
    }
  }

  /** Some answer names `sha` as the commit of a main push that was not cancelled. */
  ghost predicate SeenOnMain(polls: seq<Poll>, sha: string) {
    exists k, run :: 0 <= k < |polls| && polls[k].answer.Some? && run in polls[k].answer.value
                     && OnMain(run) && !Cancelled(run) && run.headSha == sha
  }

  /** The commit the gate passes had a green accepted run in some answer, and is
      the one it was started for or, when it may follow, a main push it saw. */
  lemma {:induction false} PassedIsGreen(polls: seq<Poll>, o: Options, s: State)
    requires Watch(polls, o, s).Passed?
    ensures var sha := Watch(polls, o, s).sha;
            && IsFullSha(sha)
            && (exists k, run :: 0 <= k < |polls| && polls[k].answer.Some? && run in polls[k].answer.value
                                 && run.headSha == sha && Green(run) && Accepted(o, run))
            && (sha == Tracked(o, s) || (o.follow && !o.dryRun && SeenOnMain(polls, sha)))
  {
    var d := DecideOn(polls[0], o, s);
    if Ends(d, polls[0]) {
      PassIffGreen(polls[0].answer.value, o, s, polls[0].elapsedMs);
    } else {
      var s' := After(d, s);
      var sha := Watch(polls, o, s).sha;
      PassedIsGreen(polls[1..], o, s');
      assert forall k :: 0 <= k < |polls[1..]| ==> polls[1..][k] == polls[k + 1];
      if d.Follow? {
        VerdictIsFresh(polls[0].answer.value, o, s, polls[0].elapsedMs);
        RerunOnlyFirst(polls[0].answer.value, o, s, polls[0].elapsedMs);
        var gone :| Successor(polls[0].answer.value, gone) == Some(d.run);
        SuccessorIsNewest(polls[0].answer.value, gone);
      }
    }
  }
}
