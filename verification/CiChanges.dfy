/** The checks a change selects, `scripts/ci/changes.ts`, and what the choice of
    base promises over the whole history of main. */
module CiChanges {
  import opened Results

  datatype Flag = Core | Web | Desktop | ShellRust | Server | Android | AndroidServer | Telemetry | E2eTypes | Stress

  /** The record of checks: the flags that are on. */
  type Checks = set<Flag>

  const NONE: Checks := {}
  const ALL: Checks := {Core, Web, Desktop, ShellRust, Server, Android, AndroidServer, Telemetry, E2eTypes, Stress}

  // ---- Which files select which checks

  predicate StartsWith(file: string, prefix: string) { prefix <= file }

  predicate EndsWith(file: string, suffix: string) {
    |suffix| <= |file| && file[|file| - |suffix|..] == suffix
  }

  /** What `.` does not match. */
  predicate IsLineTerminator(c: char) {
    c == '\n' || c == '\r' || c == '\U{2028}' || c == '\U{2029}'
  }

  /** `/^docs\/.*\.md$/`. */
  predicate IsDoc(file: string) {
    && StartsWith(file, "docs/") && EndsWith(file, ".md") && |file| >= 8
    && forall i :: 5 <= i < |file| - 3 ==> !IsLineTerminator(file[i])
  }

  predicate IsIgnored(file: string) {
    || IsDoc(file)
    || file == "README.md" || file == "AGENTS.md" || file == "CONTRIBUTING.md" || file == "SECURITY.md"
    || file == "CODE_OF_CONDUCT.md" || file == "LICENSE"
    || StartsWith(file, ".github/ISSUE_TEMPLATE/")
    || file == ".github/pull_request_template.md" || file == ".github/topics.json" || file == ".github/CODEOWNERS"
    || file == ".github/labeler.yml"
    || file == ".coderabbit.yaml"
  }

  predicate IsAndroid(file: string) {
    StartsWith(file, "apps/android/") || file == ".github/workflows/android.yml" || file == "scripts/ci/android-apk.ts"
  }

  predicate IsAndroidServer(file: string) {
    || StartsWith(file, "apps/android-server/") || file == ".github/workflows/android-server.yml"
    || file == "scripts/ci/android-server-apk.ts"
  }

  predicate IsPreviewScript(file: string) {
    file == "packages/ui/src/lib/preview-picker.js" || file == "packages/ui/src/lib/preview-highlight.js"
  }

  predicate IsStress(file: string) {
    StartsWith(file, "tests/stress/") || file == "bench/agent-stress.ts" || StartsWith(file, "bench/lib/")
  }

  /** The branch of `affectedChecks` a changed file takes. */
  datatype Area =
    | Ignored | AndroidApp(script: bool) | Termux | ServerApp | Shell | Packages(contracts: bool) | E2e(lib: bool)
    | Docker | Ui(preview: bool) | Relay | StressTests | Tooling | Other

  function AreaOf(file: string): Area {
    if IsIgnored(file) then Ignored
    else if IsAndroid(file) then AndroidApp(file == "scripts/ci/android-apk.ts")
    else if StartsWith(file, "apps/android-server/termux/") then Termux
    else if IsAndroidServer(file) then ServerApp
    else if StartsWith(file, "apps/shell/") then Shell
    else if StartsWith(file, "packages/core/") || StartsWith(file, "packages/contracts/") then
      Packages(StartsWith(file, "packages/contracts/"))
    else if StartsWith(file, "tests/e2e/") then E2e(StartsWith(file, "tests/e2e/lib/"))
    else if file == "Dockerfile" || file == ".dockerignore" || StartsWith(file, "docker/") then Docker
    else if StartsWith(file, "packages/ui/") then Ui(IsPreviewScript(file))
    else if StartsWith(file, "telemetry/") then Relay
    else if IsStress(file) then StressTests
    else if StartsWith(file, "bench/") || StartsWith(file, "scripts/architecture/") then Tooling
    else Other
  }

  /** The checks a branch turns on. */
  function Selects(area: Area): Checks {
    match area
    case Ignored => NONE
    case AndroidApp(script) => if script then {Android, AndroidServer} else {Android}
    case Termux => {Core, Web, Desktop}
    case ServerApp => {AndroidServer}
    case Shell => {Desktop, ShellRust}
    case Packages(contracts) =>
      {Core, Web, Desktop, Server, Telemetry, E2eTypes, Stress} + if contracts then {Android} else {}
    case E2e(lib) => if lib then {Desktop, E2eTypes, Stress} else {Desktop, E2eTypes}
    case Docker => {Server}
    case Ui(preview) => {Web, Desktop, Server, Stress} + if preview then {ShellRust} else {}
    case Relay => {Web, Telemetry}
    case StressTests => {Web, Stress}
    case Tooling => {Web}
    case Other => ALL
  }

  function FileChecks(file: string): Checks { Selects(AreaOf(file)) }

  /** What the files select together, by whatever rule each file goes. */
  function Affected(files: seq<string>, rule: string -> Checks): Checks {
    if files == [] then NONE else Affected(files[..|files| - 1], rule) + rule(files[|files| - 1])
  }

  /** `affectedChecks`. */
  method AffectedChecks(files: seq<string>) returns (checks: Checks)
    ensures checks == Affected(files, FileChecks)
  {
    checks := NONE;
    for k := 0 to |files|
      invariant checks == Affected(files[..k], FileChecks)
    {
      checks := Turn(checks, AreaOf(files[k]));
      assert files[..k + 1][..k] == files[..k];
    }
    assert files[..|files|] == files;
  }

  /** The body of its loop. */
  method Turn(start: Checks, area: Area) returns (checks: Checks)
    ensures checks == start + Selects(area)
  {
    checks := start;
    match area
    case Ignored =>
    case AndroidApp(script) =>
      checks := checks + {Android};
      if script { checks := checks + {AndroidServer}; }
    case Termux => checks := checks + {Core, Web, Desktop};
    case ServerApp => checks := checks + {AndroidServer};
    case Shell => checks := checks + {Desktop, ShellRust};
    case Packages(contracts) =>
      checks := checks + {Core, Web, Desktop, Server, Telemetry, E2eTypes, Stress};
      if contracts { checks := checks + {Android}; }
    case E2e(lib) =>
      checks := checks + {Desktop, E2eTypes};
      if lib { checks := checks + {Stress}; }
    case Docker => checks := checks + {Server};
    case Ui(preview) =>
      checks := checks + {Web, Desktop, Server, Stress};
      if preview { checks := checks + {ShellRust}; }
    case Relay => checks := checks + {Web, Telemetry};
    case StressTests => checks := checks + {Web, Stress};
    case Tooling => checks := checks + {Web};
    case Other => checks := checks + ALL;
  }

  /** A check is on exactly when some changed file selects it. */
  lemma {:induction false} AffectedIffSelected(files: seq<string>, rule: string -> Checks, flag: Flag)
    ensures flag in Affected(files, rule) <==> exists file :: file in files && flag in rule(file)
  {
    if files != [] {
      var n := |files| - 1;
      AffectedIffSelected(files[..n], rule, flag);
      assert files == files[..n] + [files[n]];
    }
  }

  // ---- The plan

  datatype Mode = Pr | Queue | Warm | Full

  function CiMode(event: string, force: bool): Mode {
    if force then Full
    else if event == "pull_request" then Pr
    else if event == "merge_group" then Queue
    else if event == "push" then Warm
    else Full
  }

  datatype Runner = LinuxX64 | LinuxArm64 | WindowsX64 | MacosArm64 | MacosX64

  const CORE_QUEUE := [LinuxX64, LinuxArm64, WindowsX64, MacosArm64]
  const CORE_ALL := CORE_QUEUE + [MacosX64]
  const PORTABLE_QUEUE := [LinuxX64, MacosArm64]
  const PORTABLE_ALL := [LinuxX64, LinuxArm64, MacosArm64, MacosX64]

  /** The job outputs: the suites to run, the size check, the platforms. */
  datatype Plan = Plan(suites: Checks, size: bool, e2e: bool, nativeWindows: bool, portable: seq<Runner>,
      coreRunners: seq<Runner>)

  function PlanFor(checks: Checks, mode: Mode, nativeWindows: bool): Plan
    decreases mode.Pr?
  {
    if mode.Pr? then
      var pr := PlanFor(checks - {Desktop, Server, Android, AndroidServer, Stress}, Queue, nativeWindows);
      pr.(size := Desktop in checks, coreRunners := if nativeWindows then [LinuxX64, WindowsX64] else [LinuxX64])
    else
      Plan(checks - (if Core in checks then {Telemetry} else {}) - (if Web in checks then {E2eTypes} else {}),
           Desktop in checks, Desktop in checks, nativeWindows,
           if mode.Queue? then PORTABLE_QUEUE else PORTABLE_ALL,
           if mode.Queue? then CORE_QUEUE else CORE_ALL)
  }

  /** A suite of the plan answers for the check: its own, or the full suite that covers it. */
  predicate Answers(suites: Checks, flag: Flag) {
    flag in suites || (flag.Telemetry? && Core in suites) || (flag.E2eTypes? && Web in suites)
  }

  /** Dropping the focused checks loses no answer: outside pull requests, a check
      that is on is answered for. */
  lemma PlanAnswers(checks: Checks, mode: Mode, nativeWindows: bool, flag: Flag)
    requires !mode.Pr?
    ensures Answers(PlanFor(checks, mode, nativeWindows).suites, flag) <==>
            flag in checks || (flag.Telemetry? && Core in checks) || (flag.E2eTypes? && Web in checks)
  {}

  // ---- The choice of base

  /** `lastGreen`, over the heads of the runs the API lists. */
  function LastGreen(heads: seq<string>, head: string, isAncestor: string -> bool): (r: Option<string>)
    ensures r.Some? ==> r.value in heads && r.value != head && isAncestor(r.value)
    ensures r.None? ==> forall sha :: sha in heads && sha != head ==> !isAncestor(sha)
  {
    if heads == [] then None
    else if heads[0] != head && isAncestor(heads[0]) then Some(heads[0])
    else LastGreen(heads[1..], head, isAncestor)
  }

  predicate IsHex(c: char) { 'a' <= c <= 'f' || '0' <= c <= '9' }

  /** A full commit SHA, not the zeros of a missing one. */
  predicate IsCommit(sha: string) {
    |sha| == 40 && (forall i :: 0 <= i < |sha| ==> IsHex(sha[i])) && exists i :: 0 <= i < |sha| && sha[i] != '0'
  }

  // ---- The history of main

  /** The files of a commit and their contents. */
  type Tree = map<string, int>

  /** Git's answers: a commit's tree, and whether a commit is an ancestor of another or the same. */
  datatype Repo = Repo(tree: string -> Tree, isAncestor: (string, string) -> bool) {
    ghost predicate Valid() {
      && (forall a :: isAncestor(a, a))
      && (forall a, b, c :: isAncestor(a, b) && isAncestor(b, c) ==> isAncestor(a, c))
    }
  }

  /** The base of a main push: none when forced or when the API did not answer. */
  function MainBase(force: bool, heads: Option<seq<string>>, head: string, repo: Repo): (base: Option<string>)
    ensures base.Some? ==>
              heads.Some? && base.value in heads.value && base.value != head && repo.isAncestor(base.value, head)
  {
    if force || heads.None? then None else LastGreen(heads.value, head, sha => repo.isAncestor(sha, head))
  }

  ghost predicate Differs(a: Tree, b: Tree, file: string) {
    (file in a) != (file in b) || (file in a && a[file] != b[file])
  }

  /** `git diff --no-renames --name-only`. */
  ghost predicate IsDiff(a: Tree, b: Tree, files: seq<string>) {
    forall file :: file in files <==> Differs(a, b, file)
  }

  /** No file that selects the check differs. */
  ghost predicate SameFor(a: Tree, b: Tree, rule: string -> Checks, flag: Flag) {
    forall file :: Differs(a, b, file) ==> flag !in rule(file)
  }

  /** A CI run of a main push: the commit and the suites it was planned with;
      green once every one of them has passed. */
  datatype Run = Run(head: string, suites: Checks, green: bool)

  datatype Event =
    | Push(head: string, force: bool, heads: Option<seq<string>>, files: seq<string>, nativeWindows: bool)
    | Passes(run: nat)

  /** Some green run is of this commit: the API can list it. */
  ghost predicate IsGreen(runs: seq<Run>, head: string) {
    exists i :: 0 <= i < |runs| && runs[i].green && runs[i].head == head
  }

  ghost predicate Possible(runs: seq<Run>, repo: Repo, e: Event) {
    match e
    case Push(head, force, heads, files, _) =>
      && (heads.Some? ==> forall sha :: sha in heads.value ==> IsGreen(runs, sha))
      && var base := MainBase(force, heads, head, repo);
         base.Some? ==> IsDiff(repo.tree(base.value), repo.tree(head), files)
    case Passes(run) => run < |runs|
  }

  /** The main block: every check without a base, else what the diff affects. */
  function ChecksOf(base: Option<string>, files: seq<string>, rule: string -> Checks): Checks {
    if base.Some? && IsCommit(base.value) then Affected(files, rule) else ALL
  }

  function Next(runs: seq<Run>, repo: Repo, e: Event, rule: string -> Checks): seq<Run> {
    match e
    case Push(head, force, heads, files, nativeWindows) =>
      var checks := ChecksOf(MainBase(force, heads, head, repo), files, rule);
      runs + [Run(head, PlanFor(checks, CiMode("push", force), nativeWindows).suites, false)]
    case Passes(run) => if run < |runs| then runs[run := runs[run].(green := true)] else runs
  }

  /** A green run answered for the check on `head` or an ancestor of it, whose
      tree has the same files for the check. */
  ghost predicate IsProof(run: Run, repo: Repo, rule: string -> Checks, head: string, flag: Flag) {
    && run.green && Answers(run.suites, flag)
    && repo.isAncestor(run.head, head)
    && SameFor(repo.tree(run.head), repo.tree(head), rule, flag)
  }

  ghost predicate Proven(runs: seq<Run>, repo: Repo, rule: string -> Checks, head: string, flag: Flag) {
    exists i :: 0 <= i < |runs| && IsProof(runs[i], repo, rule, head, flag)
  }

  /** Every run answers for each check itself, or the check is proven already. */
  ghost predicate Inv(runs: seq<Run>, repo: Repo, rule: string -> Checks) {
    forall i, flag :: 0 <= i < |runs| ==>
      Answers(runs[i].suites, flag) || Proven(runs, repo, rule, runs[i].head, flag)
  }

  /** The promise: each green commit has every check passed on a tree that its
      later changes did not affect. */
  ghost predicate GreenIsProven(runs: seq<Run>, repo: Repo, rule: string -> Checks) {
    forall i, flag :: 0 <= i < |runs| && runs[i].green ==> Proven(runs, repo, rule, runs[i].head, flag)
  }

  lemma InvGivesPromise(runs: seq<Run>, repo: Repo, rule: string -> Checks)
    requires repo.Valid() && Inv(runs, repo, rule)
    ensures GreenIsProven(runs, repo, rule)
  {
    forall i, flag | 0 <= i < |runs| && runs[i].green ensures Proven(runs, repo, rule, runs[i].head, flag) {
      if Answers(runs[i].suites, flag) {
        assert IsProof(runs[i], repo, rule, runs[i].head, flag);
      }
    }
  }

  /** A proof on a commit carries over to a later one that changed no file of the check. */
  lemma ProofCarries(run: Run, repo: Repo, rule: string -> Checks, base: string, head: string, flag: Flag)
    requires repo.Valid() && IsProof(run, repo, rule, base, flag)
    requires repo.isAncestor(base, head) && SameFor(repo.tree(base), repo.tree(head), rule, flag)
    ensures IsProof(run, repo, rule, head, flag)
  {
    var a, b, c := repo.tree(run.head), repo.tree(base), repo.tree(head);
    forall file | Differs(a, c, file) ensures flag !in rule(file) {
      assert Differs(a, b, file) || Differs(b, c, file);
    }
  }

  lemma ProvenStays(runs: seq<Run>, runs': seq<Run>, repo: Repo, rule: string -> Checks, head: string, flag: Flag)
    requires Proven(runs, repo, rule, head, flag) && |runs| <= |runs'|
    requires forall i :: 0 <= i < |runs| ==>
               && runs'[i].head == runs[i].head && runs'[i].suites == runs[i].suites
               && (runs[i].green ==> runs'[i].green)
    ensures Proven(runs', repo, rule, head, flag)
  {
    var i :| 0 <= i < |runs| && IsProof(runs[i], repo, rule, head, flag);
    assert IsProof(runs'[i], repo, rule, head, flag);
  }

  /** A push answers for a check itself, or takes over the proof of its base. */
  lemma PushKeeps(runs: seq<Run>, repo: Repo, rule: string -> Checks, e: Event, flag: Flag)
    requires repo.Valid() && Inv(runs, repo, rule) && e.Push? && Possible(runs, repo, e)
    ensures var run := Next(runs, repo, e, rule)[|runs|];
            Answers(run.suites, flag) || Proven(runs, repo, rule, e.head, flag)
  {
    var base := MainBase(e.force, e.heads, e.head, repo);
    var checks := ChecksOf(base, e.files, rule);
    PlanAnswers(checks, CiMode("push", e.force), e.nativeWindows, flag);
    if flag !in checks {
      assert flag in ALL;
      assert IsGreen(runs, base.value);
      var g :| 0 <= g < |runs| && runs[g].green && runs[g].head == base.value;
      InvGivesPromise(runs, repo, rule);
      var i :| 0 <= i < |runs| && IsProof(runs[i], repo, rule, base.value, flag);
      DiffDecides(repo.tree(base.value), repo.tree(e.head), e.files, rule, flag);
      ProofCarries(runs[i], repo, rule, base.value, e.head, flag);
    }
  }

  /** The diff's files leave a check off exactly when no file of the check differs. */
  lemma DiffDecides(a: Tree, b: Tree, files: seq<string>, rule: string -> Checks, flag: Flag)
    requires IsDiff(a, b, files)
    ensures flag in Affected(files, rule) <==> !SameFor(a, b, rule, flag)
  {
    AffectedIffSelected(files, rule, flag);
  }

  lemma StepKeeps(runs: seq<Run>, repo: Repo, rule: string -> Checks, e: Event)
    requires repo.Valid() && Inv(runs, repo, rule) && Possible(runs, repo, e)
    ensures Inv(Next(runs, repo, e, rule), repo, rule)
  {
    var runs' := Next(runs, repo, e, rule);
    forall i, flag | 0 <= i < |runs'|
      ensures Answers(runs'[i].suites, flag) || Proven(runs', repo, rule, runs'[i].head, flag)
    {
      if i == |runs| {
        PushKeeps(runs, repo, rule, e, flag);
        if !Answers(runs'[i].suites, flag) { ProvenStays(runs, runs', repo, rule, e.head, flag); }
      } else if !Answers(runs[i].suites, flag) {
        ProvenStays(runs, runs', repo, rule, runs[i].head, flag);
      }
    }
  }

  ghost predicate History(runs: seq<Run>, repo: Repo, rule: string -> Checks, events: seq<Event>)
    decreases |events|
  {
    events == [] || (Possible(runs, repo, events[0])
        && History(Next(runs, repo, events[0], rule), repo, rule, events[1..]))
  }

  function Replay(runs: seq<Run>, repo: Repo, rule: string -> Checks, events: seq<Event>): seq<Run>
    decreases |events|
  {
    if events == [] then runs else Replay(Next(runs, repo, events[0], rule), repo, rule, events[1..])
  }

  lemma {:induction false} HistoryKeeps(runs: seq<Run>, repo: Repo, rule: string -> Checks, events: seq<Event>)
    requires repo.Valid() && Inv(runs, repo, rule) && History(runs, repo, rule, events)
    ensures Inv(Replay(runs, repo, rule, events), repo, rule)
    decreases |events|
  {
    if events != [] {
      StepKeeps(runs, repo, rule, events[0]);
      HistoryKeeps(Next(runs, repo, events[0], rule), repo, rule, events[1..]);
    }
  }

  /** In every history of main pushes, whatever commits the API lists as green
      and whatever git calls an ancestor: each green commit has every check
      passed on an ancestor's tree, or its own, that the later changes did not affect. */
  lemma EveryGreenCommitIsProven(repo: Repo, rule: string -> Checks, events: seq<Event>)
    requires repo.Valid() && History([], repo, rule, events)
    ensures GreenIsProven(Replay([], repo, rule, events), repo, rule)
  {
    HistoryKeeps([], repo, rule, events);
    InvGivesPromise(Replay([], repo, rule, events), repo, rule);
  }

  /** The same, by the rules of `affectedChecks`. */
  lemma MainIsProven(repo: Repo, events: seq<Event>)
    requires repo.Valid() && History([], repo, FileChecks, events)
    ensures GreenIsProven(Replay([], repo, FileChecks, events), repo, FileChecks)
  {
    EveryGreenCommitIsProven(repo, FileChecks, events);
  }
}
