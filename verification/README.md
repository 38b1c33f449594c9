# Verified model of the repository's tooling

The repository's scripts hold algorithms that CI, the benchmarks and the migrations rely on: the E2E
shard scheduler, the import-cycle gate, two process-tree walks, the proof protocol of CI on main, the
gate that waits for a commit's CI, a codemod that splits one module into many, the merge and the report
of translations, a tokenizer with nested templates, a TCP relay that paces and delays, the attribution
of model context to categories, the self times of a trace, comment stripping, the APK version chain and
the ratchet of the line ceiling.
This project models them in Dafny and proves what they promise.

`dafny verify dfyconfig.toml` checks everything.

| file | models |
|---|---|
| `Results.dfy`, `Sorting.dfy`, `Text.dfy` | results and options, stable sorting by a comparator, string order |
| `ListScheduling.dfy`, `Shards.dfy`, `ShardProperties.dfy` | `scripts/ci/e2e-shards.ts`: longest processing time first |
| `Cycles.dfy` | `scripts/architecture/graph.ts`: the depth-first cycle report |
| `Processes.dfy` | `descendants` and `tree`: two closures of a process table |
| `CiChanges.dfy` | `scripts/ci/changes.ts`: which checks a push runs, and what a green commit proves |
| `CommitCi.dfy` | `scripts/ci/commit-ci.ts`: the gate that waits, reruns once and follows |
| `SplitContracts.dfy`, `SplitCode.dfy`, `SplitHeaders.dfy`, `SplitResolution.dfy`, `SplitIndex.dfy`, `SplitGaps.dfy` | `scripts/migrate/split-contracts.ts`: the split as a specification, as it runs, and name resolution |
| `Catalogue.dfy` | `packages/ui/catalogue-plugin.ts` and `scripts/ci/translations.ts` |
| `Lexer.dfy`, `LexerRoundTrip.dfy`, `ReadsBack.dfy`, `NestedTick.dfy`, `MatchedCalls.dfy`, `SlashGuess.dfy`, `PlainSource.dfy` | `scripts/architecture/nested-tick.ts`: the tokenizer, exactly which programs it reads back, and which calls the gate over it reports |
| `Wire.dfy` | `bench/lib/wire.ts`: the relay as an event machine |
| `TokenAudit.dfy` | `scripts/token-audit.ts`: the per-call attribution |
| `SelfTime.dfy` | `bench/ui-frames.ts`: the self-time stack |
| `Comments.dfy` | `scripts/ci/budgets.ts`: the comment-stripping fixpoint |
| `ApkVersions.dfy` | `scripts/ci/android-apk.ts`: the version chain |
| `SizeBudget.dfy` | `scripts/architecture/size.ts`: the line ceiling and its ratchet |

Code that changes things step by step is a class or a method with loops, proved equal to a function of
its inputs or of its old state; what the source promises is then proved about that function for all
inputs, states and runs.

## Where a promise does not hold as written

- **An early drain of the relay's client** (`bench/lib/wire.ts`). The bytes a client sends before the core
  side exists wait in the client's own backlog, and `drain(client)` flushes that backlog to the client
  itself. `EarlyDrainIsSafe` gives the exact condition under which a drain before the core opens loses
  nothing: no byte is waiting. `StepKeeps` shows every other step keeps the invariant, and
  `EarlyDrainLosesBytes` is a run in which the bytes go back to the sender.
- **A translation with an empty report is not always unchanged** (`packages/ui/catalogue-plugin.ts`,
  `scripts/ci/translations.ts`). The report counts sentences, so it cannot see an empty object that a
  translation lacks, and completing adds it. `CleanIsUnchangedIffFilled`: it is unchanged for every
  translation exactly when English holds no empty object below the root.
- **The split index may miss an import** (`scripts/migrate/split-contracts.ts`). The type arguments of a
  parent of `RpcMethods` or `RpcEvents` are not among the names the index reads.
  `ResolvedIffReached` says, for every name the single file knew, exactly when the index resolves it: a
  split file's name must itself be read elsewhere in the index, a name imported from another module needs
  some name of the same import to be read, and the index's own names always resolve. `IndexResolvesIff` is
  the statement for the whole index. `SplitFileArgumentIsLost` and `ImportedArgumentIsLost` are an input of
  each kind. And a parent's name is noted as a type whatever was read before: `ValueImportIffStands` gives
  the exact condition under which a value is still imported as a value, and `ValueParentIsTypeOnly` is an
  input where it is not.
- **Not every program is read as its own tokens** (`scripts/architecture/nested-tick.ts`). Whether a `/`
  divides is guessed from the token before it, and a name or number is cut after 256 characters.
  `ReadsBackIff`: a program whose parts do not run into each other reads back exactly when every `/`,
  however deep in blocks and templates, is what the guess says, and no name or number is longer than that.
- **So the nested-tick gate may miss a call behind a division.** In `() => { x++ / 2; expect(p).rejects; }`
  the guess is wrong: the rest of the last line is gone (`LastLineIsHidden`), and the call with it, in any
  block (`CallIsHidden`, `BodyHidesCall`). With lines behind, the regular expression also takes the letters
  that start the next line for its flags (`RestOfLineIsHidden`), so a call that starts the line after
  `x++ / 2` goes unreported too (`NextLineHidesCall`).
- **The gate may miss a call with type arguments.** It takes the first `(` behind a `<` for the call's own.
  `CallIsReportedIff`: a matched call is reported exactly when its type arguments hold no `(`, or the first
  group in them is itself matched. Of `expect<() => B>(p).rejects` nothing is reported
  (`FunctionTypeHidesCall`).
- **The two process closures differ for a root without a row** that something still names as its parent:
  `descendants` lists those children, `tree` stops at once. `ClosuresAgree` has both directions.

## Model

| member | source | states |
|---|---|---|
| `ShardProperties.SplitWithinBound` | scripts/ci/e2e-shards.ts:45-57 | Graham's bound: for all non-negative times and every shard count, no shard exceeds (4/3 − 1/(3m)) times the heaviest group of any other split of the same files into m groups |
| `ShardProperties.BoundIsGraham` | scripts/ci/e2e-shards.ts:45-57 | the form the bound is carried in holds exactly when load ≤ (4/3 − 1/(3m))·M |
| `ListScheduling.LastJobBound` | scripts/ci/e2e-shards.ts:51-55 | the longest-first step: a job no longer than those before it, put on a lightest machine, stays within the bound of any rival placement |
| `ListScheduling.LongJobsPair` | scripts/ci/e2e-shards.ts:51-55 | when every job exceeds a third of a rival's heaviest load, the rival pairs jobs so that two of the shorter ones fit together |
| `ShardProperties.SplitWithinAverage` | scripts/ci/e2e-shards.ts:45-57 | the fallback stage: at most the average plus all but one share of the longest file |
| `ShardProperties.SplitPartitions` | scripts/ci/e2e-shards.ts:45-57 | every file lands in exactly one shard, files in path order, and each load is the sum of its files' times |
| `ShardProperties.SplitBalances` | scripts/ci/e2e-shards.ts:41-55 | the gap between two shards never exceeds the time of any file of the heavier one |
| `ShardProperties.SplitIgnoresOrder` | scripts/ci/e2e-shards.ts:41-57 | every runner computes the same split, in whatever order it lists the files |
| `ShardProperties.MedianAtLeast` | scripts/ci/e2e-shards.ts:34-39 | the fallback time of an unrecorded file is 1 with nothing recorded, and never below a bound of at most 1 that lies under all recorded times, so non-negative times give a non-negative fallback |
| `Shards.JobOrder` | scripts/ci/e2e-shards.ts:49 | the comparator is a total order on timed files: no two different entries tie |
| `Shards.AssignShards` | scripts/ci/e2e-shards.ts:45-58 | refuses a shard count below 1, and otherwise updates the shards in place to the specified split |
| `Shards.PlaceAll` | scripts/ci/e2e-shards.ts:51-55 | the placing loop ends with the greedy placement of the jobs in their order |
| `Shards.SortFiles` | scripts/ci/e2e-shards.ts:56 | the last loop leaves each shard's own files, in path order, and its seconds |
| `Cycles.FindCycles` | scripts/architecture/graph.ts:75-93 | terminates on every graph; each report is a simple closed walk along edges of the graph that closes one back edge, each back edge is reported once, and the list is empty exactly when the graph is acyclic |
| `Cycles.EveryCycleIsCut` | scripts/architecture/graph.ts:74-93 | every cycle of the graph contains the closing edge of some report |
| `Cycles.EmptyMeansAcyclic` | scripts/architecture/graph.ts:74-93 | the report is empty exactly when no cycle exists |
| `Cycles.TimesFall` | scripts/architecture/graph.ts:80-90 | along a walk that uses no back edge, files finish strictly earlier and earlier |
| `Cycles.Search.Visit` | scripts/architecture/graph.ts:80-90 | a visit keeps the search's invariant, restores the stack, settles the file or reports its edge, and loses no finished file |
| `Processes.Descendants` | scripts/ci/hang-watch.ts:228-241 | the fixpoint rounds end on any parent relation and return, in row order, exactly the rows reachable from the root |
| `Processes.Tree` | bench/lib/proc.ts:90-112 | the stack walk ends on any table, cycles and self-parents included, and finds exactly the rows reachable from a root that has a row, each once |
| `Processes.Children` | bench/lib/proc.ts:93-98 | the children table lists, for each parent, exactly the pids of the rows that name it |
| `Processes.ClosedHoldsReach` | scripts/ci/hang-watch.ts:230-239 | a set with the root and every child of its members holds all that is reachable |
| `Processes.ClosuresAgree` | scripts/ci/hang-watch.ts:228-241 | with distinct pids the two walks list the same processes exactly when the root has a row or nothing names it as parent |
| `CiChanges.MainIsProven` | scripts/ci/changes.ts:98-107 | in every history of main pushes, each green commit has, for every check, a run that passed on a tree whose files affecting that check are the green commit's |
| `CiChanges.EveryGreenCommitIsProven` | scripts/ci/changes.ts:103-107 | the same for any rule from paths to checks, whatever commits the API lists as green |
| `CiChanges.PushKeeps` | scripts/ci/changes.ts:169-186 | a push either runs a check itself or takes over the proof of the base it compared with; with no base it runs everything |
| `CiChanges.ProofCarries` | scripts/ci/changes.ts:103-107 | a proof on a commit is one for a later commit that changed no file of the check |
| `CiChanges.DiffDecides` | scripts/ci/changes.ts:178-183 | the diff leaves a check off exactly when no file of the check differs |
| `CiChanges.AffectedIffSelected` | scripts/ci/changes.ts:5-57 | a check is on exactly when some changed file selects it |
| `CiChanges.AffectedChecks` | scripts/ci/changes.ts:5-57 | the loop over the files turns on exactly the union of what the files select |
| `CiChanges.PlanAnswers` | scripts/ci/changes.ts:124-142 | outside pull requests, each selected check runs itself or the suite that covers it runs |
| `CommitCi.PassIffGreen` | scripts/ci/commit-ci.ts:54-58 | a pass names a green accepted run of the tracked commit, and any such run passes |
| `CommitCi.VerdictIsFresh` | scripts/ci/commit-ci.ts:59-76 | a verdict other than a pass is about the newest candidate, completed, and never judges the attempt whose rerun is awaited |
| `CommitCi.WaitsOnlyWhileOpen` | scripts/ci/commit-ci.ts:59-70 | the gate waits only for a candidate still running, a run that may yet be created or a rerun not yet started |
| `CommitCi.SuccessorIsNewest` | scripts/ci/commit-ci.ts:47-52 | the successor is the newest live run newer than the cancelled one, or with none the newest older green one |
| `CommitCi.OlderFollowIsGreen` | scripts/ci/commit-ci.ts:47-52 | a follow to an older run goes to a green one that will pass |
| `CommitCi.FollowsAtMostTwice` | scripts/ci/commit-ci.ts:74-75 | on a fixed list of runs the chain of follows ends: after two follows in a row the third decision is a pass |
| `CommitCi.OneRerunPerVisit` | scripts/ci/commit-ci.ts:126-136 | over every sequence of answers, at most one rerun per commit visited |
| `CommitCi.RerunsApart` | scripts/ci/commit-ci.ts:126-136 | between two reruns the gate has followed to another run |
| `CommitCi.PassedIsGreen` | scripts/ci/commit-ci.ts:113-123 | the commit the gate passes had a green accepted run in some answer |
| `CommitCi.Gate.Run` | scripts/ci/commit-ci.ts:97-142 | the polling loop's outcome and final state are those of the specified turns |
| `SplitCode.Split` | scripts/migrate/split-contracts.ts:244-361 | refuses exactly the sources with a missing anchor, a member without namespace file, text after a map's members or a namespace import, and otherwise writes the specified split |
| `SplitCode.ImportHeader` | scripts/migrate/split-contracts.ts:215-231 | the grouping loop writes the specified header, whatever the order of the names |
| `SplitCode.Splitter.Take` | scripts/migrate/split-contracts.ts:259-301 | one statement updates the loop's variables as the specified step does, or is refused |
| `SplitCode.AfterIs` | scripts/migrate/split-contracts.ts:250-301 | the loop's variables hold, after any statements, the home of each statement and the owner of each member |
| `SplitCode.FilesInOrder` | scripts/migrate/split-contracts.ts:302 | sorting the keys by their place in the order list gives the files in the order they first receive something |
| `SplitHeaders.HeaderBinds` | scripts/migrate/split-contracts.ts:214-231 | a header binds each name that is read and comes from elsewhere, once, as a value when a value is read, and no other name |
| `SplitResolution.PiecesInOrder` | scripts/migrate/split-contracts.ts:32-36 | a file holds the plain statements that live in it, all of them, once and in source order |
| `SplitResolution.HomeIsWritten` | scripts/migrate/split-contracts.ts:32-36 | each statement's one home, the file of the last anchor at or above it, is a file that is written |
| `SplitResolution.IndexKeepsItsOwn` | scripts/migrate/split-contracts.ts:289-300 | the index keeps the plain statements that live there, all of them, in source order |
| `SplitResolution.MembersInOrder` | scripts/migrate/split-contracts.ts:276-286 | a file's interfaces hold the members it owns, all of them, once and in source order, one interface for each map |
| `SplitResolution.OwnerIsWritten` | scripts/migrate/split-contracts.ts:275-286 | every member's owner is a split file |
| `SplitResolution.SymbolIsMeaning` | scripts/migrate/split-contracts.ts:304-316 | the table of names gives a name its one meaning, though later entries overwrite earlier ones |
| `SplitResolution.SplitFileResolves` | scripts/migrate/split-contracts.ts:318-330 | every name a split file reads and the single file knew is declared there and not imported, or imported once from where it is declared now |
| `SplitResolution.SplitFileImportsKnown` | scripts/migrate/split-contracts.ts:318-330 | a split file imports only names it reads that the single file knew or the split added |
| `SplitGaps.ReachedResolves` | scripts/migrate/split-contracts.ts:332-360 | how a name resolves in the index, those in type arguments of a parent included: when it is reached, it is imported once from the split file that declares it, or else not imported anew but declared there or imported by a statement the index keeps |
| `SplitIndex.DomainIsComposed` | scripts/migrate/split-contracts.ts:340-353 | each file's part of a map is a parent of that map in the index, which imports it once, as a type |
| `SplitGaps.ResolvedIffReached` | scripts/migrate/split-contracts.ts:335-359 | every name the single file knew, those in type arguments of a parent included, resolves in the index exactly when it is reached: read in the index for a split file's name, some name of its import read for an imported one, always for the index's own |
| `SplitGaps.IndexResolvesIff` | scripts/migrate/split-contracts.ts:332-360 | all names that the index's text mentions resolve exactly when those in type arguments are reached |
| `SplitGaps.ImportKeptIff` | scripts/migrate/split-contracts.ts:343-349 | an import statement stays in the index exactly when a name it imports is read there |
| `SplitGaps.SplitFileArgumentIsLost` | scripts/migrate/split-contracts.ts:340-356 | a source in which a split file's name, used only in type arguments of a parent, is not imported |
| `SplitGaps.ImportedArgumentIsLost` | scripts/migrate/split-contracts.ts:340-358 | a source in which the import of a name used only in type arguments of a parent is dropped |
| `SplitIndex.ValueImportIffStands` | scripts/migrate/split-contracts.ts:335-342 | a value is imported as a value exactly when no map below the last statement that reads it as one has it for a parent |
| `SplitGaps.ValueParentIsTypeOnly` | scripts/migrate/split-contracts.ts:335-342 | a source in which the index constructs a class and imports it as a type only, because a map below extends it |
| `Catalogue.CompletedReport` | packages/ui/catalogue-plugin.ts:62-85 | completing a translation leaves nothing missing and nothing extra; the mismatches left are the original's at English sentences, in order |
| `Catalogue.CompletedOnce` | packages/ui/catalogue-plugin.ts:62-85 | the completed catalogue has English's keys in English's order at every level, and completing it again changes nothing |
| `Catalogue.CleanIsUnchangedIffFilled` | scripts/ci/translations.ts:33-61 | translations with an empty report are unchanged up to key order exactly when English has no empty object below the root |
| `Catalogue.SlotsIgnoreOrder` | scripts/ci/translations.ts:29-31 | two sentences match when they have the same slots the same number of times |
| `Catalogue.Comparison.Visit` | scripts/ci/translations.ts:41-58 | the recursive walk appends to the report exactly what the two trees' difference says |
| `Catalogue.Complete` | packages/ui/catalogue-plugin.ts:70-82 | the merge with its table of the translation's values gives the specified catalogue |
| `Lexer.TokensKeepLines` | scripts/architecture/nested-tick.ts:14-83 | on every source the tokenizer ends with line = 1 + newlines, depth = open braces + open substitutions, rising template depths, and every name reported on the line it is spelled on |
| `Lexer.StepKeeps` | scripts/architecture/nested-tick.ts:42-81 | every turn of the loop keeps the line count, the depth and the template stack |
| `Lexer.StepMoves` | scripts/architecture/nested-tick.ts:42-81 | every turn moves on, on every input |
| `Lexer.Tokenizer.Scan` | scripts/architecture/nested-tick.ts:15-83 | the loop over the source emits the specified tokens |
| `LexerRoundTrip.RoundTrip` | scripts/architecture/nested-tick.ts:14-83 | any program of names, numbers, signs, comments, strings, regular expressions, braces and templates nested in templates, spelled so that no part runs into the next, with each `/` what the tokenizer guesses it to be and no name or number over 256 characters, reads back as its own tokens, on their own lines |
| `ReadsBack.ReadsBackIff` | scripts/architecture/nested-tick.ts:14-83 | the exact condition, for every program whose parts do not run into each other: it reads back if and only if each `/`, at any depth of blocks and substitutions, is what the token before it makes the tokenizer guess, and no name or number is longer than 256 characters |
| `LexerRoundTrip.ReadHoles` | scripts/architecture/nested-tick.ts:31-39 | template text and its substitutions are read to the closing backtick, whatever nested braces and templates they hold |
| `SlashGuess.LastLineIsHidden` | scripts/architecture/nested-tick.ts:54-66 | a division taken for a regular expression, on the last line and with no `/` behind it, any blocks deep: the rest of the line gives no token but one value |
| `SlashGuess.RestOfLineIsHidden` | scripts/architecture/nested-tick.ts:54-66 | the same with lines behind, for a line without a further `/` or a backslash at its end: its rest gives one value, and the tokenizer goes on behind the letters that start the next line, which it takes for flags |
| `SlashGuess.CallIsHidden` | scripts/architecture/nested-tick.ts:21-27 | behind such a division on the last line, any blocks deep, a matched call goes unreported: with no `expect` before the division the gate reports nothing |
| `SlashGuess.BodyHidesCall` | scripts/architecture/nested-tick.ts:21-27 | for a function body like `() => { x++ / 2; expect(p).rejects; }` the gate reports nothing, though the line's own tokens hold a matched call |
| `SlashGuess.NextLineCallIsHidden` | scripts/architecture/nested-tick.ts:54-66 | a matched call that starts the line behind such a division goes unreported, as its `expect` is taken for flags: with no other `expect` the gate reports nothing |
| `SlashGuess.NextLineHidesCall` | scripts/architecture/nested-tick.ts:54-66 | an input of that kind: `x++ / 2`, and `expect(p).rejects` on the next line |
| `NestedTick.ClosingIsGroup` | scripts/architecture/nested-tick.ts:87-97 | from an opening bracket, the first place where every bracket is closed again, or the end of the list when there is none |
| `NestedTick.SitesAreSeen` | scripts/architecture/nested-tick.ts:87-124 | a line is reported exactly when the gate sees a matched call there: `expect`, no method of that name, the group from the next `(`, or from the first one behind a `<`, one `not` or none, then `rejects` or `resolves`, each as `.name`, `?.name` or `['name']` |
| `MatchedCalls.CallIsReportedIff` | scripts/architecture/nested-tick.ts:111-121 | a matched call, its type arguments running from `<` to the `>` that closes it, is reported exactly when they hold no `(`, or the first group in them is itself matched on that line |
| `MatchedCalls.SitesAreCalls` | scripts/architecture/nested-tick.ts:108-124 | where every `expect` with a `(` or `<` behind it has a group there, or type arguments without `(` and then a group, the lines reported are exactly those of the matched calls |
| `MatchedCalls.FunctionTypeIsMissed` | scripts/architecture/nested-tick.ts:115-118 | no call whose type arguments start with a function type is reported |
| `MatchedCalls.FunctionTypeHidesCall` | scripts/architecture/nested-tick.ts:115-118 | an input of that kind: of `expect<() => B>(p).rejects`, a matched call, the gate reports nothing |
| `MatchedCalls.ProgramCallIsReported` | scripts/architecture/nested-tick.ts:108-124 | in every program that reads back, a matched call among the program's own tokens, with no `(` in its type arguments, is reported, whatever comments, strings, templates and regular expressions surround it |
| `NestedTick.CallIsReported` | scripts/architecture/nested-tick.ts:108-124 | so a call spelled `expect(<arguments>).rejects` or `.resolves`, its arguments with balanced brackets, anywhere in a program that reads back, is reported on the line of the matcher |
| `NestedTick.FindClosing` | scripts/architecture/nested-tick.ts:88-97 | the counting loop finds the specified end |
| `NestedTick.FindSites` | scripts/architecture/nested-tick.ts:109-124 | the gate reports the specified lines of a file |
| `Wire.NothingLostOrRepeated` | bench/lib/wire.ts:30-97 | in every run without an early drain, on every connection and direction, bytes written, then backlog, then timers in due order, then early backlog are the bytes received |
| `Wire.EveryRunIsPaced` | bench/lib/wire.ts:60-62 | in every run, two chunks of a direction are released at least the link time of the later ones apart |
| `Wire.StepKeeps` | bench/lib/wire.ts:43-97 | a step of the sockets or the event loop keeps the relay's invariant exactly when it is not an early drain of waiting bytes |
| `Wire.NoEarlyDelivery` | bench/lib/wire.ts:60-65 | in every run without an early drain, on every connection, each chunk is delivered no sooner than its release plus the one-way delay, nor than its arrival plus its link time and that delay, and only delivered bytes are written to a peer |
| `Wire.FlushConserves` | bench/lib/wire.ts:30-41 | partial and failed writes lose and repeat nothing |
| `Wire.ReleaseIsLatestBusyPeriod` | bench/lib/wire.ts:60-62 | the closed form of the recursion: each release ends a busy period that began at some arrival |
| `Wire.FiredIsOldest` | bench/lib/wire.ts:63-65 | a timer that fires carries the oldest pending bytes of its direction |
| `Wire.EarlyDrainIsSafe` | bench/lib/wire.ts:94 | a drain before the core side exists is safe, whatever the socket accepts, exactly when no byte is waiting |
| `Wire.EarlyDrainLosesBytes` | bench/lib/wire.ts:94 | a run in which a drain before the core side exists sends a client its own bytes and the core never gets them |
| `Wire.Server.OnData` | bench/lib/wire.ts:43-66 | the handler of received data takes the specified step of the relay |
| `Wire.Server.OnCoreOpen` | bench/lib/wire.ts:78-85 | the core's `open` takes the specified step of the relay |
| `Wire.Server.OnTimer` | bench/lib/wire.ts:51-59 | a timer that falls due takes the specified step of the relay |
| `Wire.FlushLoop` | bench/lib/wire.ts:30-41 | the loop over the backlog leaves and sends what the specification says |
| `TokenAudit.ContextIsAttributed` | scripts/token-audit.ts:157-262 | after every line of every transcript the live categories sum to at least the last call's context, exactly unless a shrink of the segment cut below the fixed prefix; the report's weights sum to the contexts recorded in the same way; and the open results of a category never exceed what is live of it |
| `TokenAudit.CallSums` | scripts/token-audit.ts:199-262 | after a call the categories sum to at least its context, and to exactly it if and only if no shrink so far cut below the fixed prefix |
| `TokenAudit.FirstSums` | scripts/token-audit.ts:214-219 | the first call's prefix and blocks sum to its context, whichever is larger |
| `TokenAudit.GrowSums` | scripts/token-audit.ts:234-251 | a later call's blocks, thinking and unexplained tokens sum to the growth |
| `TokenAudit.SpreadCoversOpened` | scripts/token-audit.ts:246-250 | what a spread adds to a category is at least what it opens there |
| `TokenAudit.ScaledWithin` | scripts/token-audit.ts:226-233 | scaling the history down keeps open results within what is live of their category |
| `TokenAudit.Auditor.OnCall` | scripts/token-audit.ts:199-262 | the code's updates of one call give the specified state |
| `SelfTime.SelfTimeIsInnermost` | bench/ui-frames.ts:396-405 | for every set of nested events a name's self time is the number of microseconds at which the innermost running event has that name, so none is negative |
| `SelfTime.AllTimeIsAccounted` | bench/ui-frames.ts:396-405 | the self times add up to the time the thread runs anything, which is the total duration of the outermost events |
| `SelfTime.InstantsStep` | bench/ui-frames.ts:403 | a name gains the duration of its own event and loses that of a direct child |
| `SelfTime.RunningIsInnermost` | bench/ui-frames.ts:400 | the running event lies inside every other event that covers the instant |
| `SelfTime.Profile.Measure` | bench/ui-frames.ts:399-405 | the stack and the table end as the specified replay leaves them |
| `Comments.NothingHidden` | scripts/ci/budgets.ts:85-101 | on every text the result holds no opener, is the input with characters taken out, and is a fixpoint |
| `Comments.PassIsIdentityIffClean` | scripts/ci/budgets.ts:91-101 | one pass returns its input exactly when no opener occurs, and a shorter text otherwise |
| `Comments.PassCutsComment` | scripts/ci/budgets.ts:91-101 | a pass cuts a comment out of the text around it, up to its first closer or to the end without one |
| `Comments.WithoutCommentsOnce` | scripts/ci/budgets.ts:91-101 | the loop over openers gives the specified pass |
| `ApkVersions.CodesRise` | scripts/ci/android-apk.ts:61-83 | over every run of rebuilds and reuses with any edits of VERSION, each rebuild's code is above all before it and under Android's limit |
| `ApkVersions.NameRoundTrip` | scripts/ci/android-apk.ts:47-59 | a published name carries its version back |
| `ApkVersions.CodesOrder` | scripts/ci/android-apk.ts:61-66 | codes order versions as their parts do |
| `SizeBudget.ShrunkOnlyLowers` | scripts/architecture/size.ts:66-74 | shrinking keeps exactly the entries above the ceiling, raises none and leaves no slack |
| `SizeBudget.RatchetOnlyLowers` | scripts/architecture/size.ts:66-74 | over any run of trees no allowance rises, no entry is added and one that goes does not come back |
| `SizeBudget.ShrunkTwice` | scripts/architecture/size.ts:66-74 | shrinking twice on one tree is shrinking once |
| `SizeBudget.ShrunkViolations` | scripts/architecture/size.ts:33-74 | after shrinking a tree violates, in order, what it violated before, without the entries that go and growth under the ceiling: growth above it stays an error and none is added |
| `SizeBudget.OnlyPatternsRemain` | scripts/architecture/size.ts:76-93 | on the tree it was pinned on, a budget is violated by nothing but patterns that match no source |
| `SizeBudget.RaisesAreListed` | scripts/architecture/size.ts:76-93 | the raises listed are exactly the entries that are new or above what they were, and pinning again lists none |
| `SizeBudget.RebaselinedIsShrunk` | scripts/architecture/size.ts:66-93 | where nothing has grown and no entry is exempt too, pinning again allows what shrinking does |
| `SizeBudget.SizeViolations` | scripts/architecture/size.ts:33-57 | the three loops report the specified violations, in order |
| `SizeBudget.Rebaseline` | scripts/architecture/size.ts:82-93 | the loop over the sorted sources gives the specified budget and raises |
| `Sorting.SortIgnoresOrder` | scripts/ci/e2e-shards.ts:49 | a sort by a total order depends on the elements only, so the engine's algorithm does not matter |

## Left out

- Floating-point rounding: seconds, tokens and link times are exact reals, trace times whole microseconds, and all are taken to be non-negative.
- UTF-16: strings are sequences of characters and compared by character; the tokenizer counts characters where JavaScript counts code units.
- ShardProperties.SplitIgnoresOrder: for one table of recorded times; how `fileDurations` reads them from a log is not modelled.
- Cycles.FindCycles: reports the files of a cycle, not the text that joins them with arrows; `graph.keys()` is a list of distinct files.
- Processes.Tree: takes a table whose key for a row is the row's pid, as `snapshot` builds it; reading the process table is not modelled.
- CiChanges.MainIsProven: the API's answer is any list of green main commits and the ancestor test any relation; `needsNativeWindows` and `needsWorkflowLint` are not modelled, and the record of checks is the set of its flags.
- CommitCi.Gate.Run: an answer of the API is a list of runs or none; sleeping, printing and the request itself are not modelled.
- SplitCode.Split: works on statements with the names they declare and read; parsing, `references` over syntax trees, comments and the text between statements are not modelled, and neither is whether a declaration is exported.
- SplitGaps.ResolvedIffReached: under the conditions named for `SplitFileResolves` below; a parent is its name and the names in its type arguments. The code takes for the name all text up to `<` on one line, so `ns.Base`, or a `<` with a line break behind it, is recorded under another name; such parents are not modelled.
- SplitResolution.SplitFileResolves: asks that all declarations of a name agree on what it is, that no added interface has its name, and that the single file imports nothing from a file the split writes.
- `migrate` in `scripts/migrate/split-contracts.ts` rests on three-way merging outside the repository.
- Catalogue.CompletedReport: works on trees with each key once per object; reading and printing source text, keys that look like numbers and keys of `Object.prototype` are not modelled.
- Lexer.TokensKeepLines: the Unicode classes are parameters; the round trip asks of them only that special characters, spaces, letters and digits are told apart.
- MatchedCalls.ProgramCallIsReported: for programs that read back, as `ReadsBackIff` has it; the formatting of `file:line` is not modelled.
- Wire.NothingLostOrRepeated: closing, errors and `stop` are not modelled; timers fire in due order and the results of socket writes are given as lists.
- TokenAudit.ContextIsAttributed: parsing of transcript lines and the other totals (fan-out, cache, compactions, calibration) are not modelled.
- SelfTime.Profile.Measure: the choice of main-thread events and the printed top list are not modelled.
- ApkVersions.CodesRise: reading the releases, the tag, the diff, the host and the certificate are not modelled; whether an APK is reused is an input.
- SizeBudget.SizeViolations: the wording of the errors and the counting of lines are not modelled; patterns match by character.
- `judge` and the bundle sizes of `scripts/ci/budgets.ts`, and the heading that `bodyReason` looks for: comparisons and a regular expression.
- The other scripts under `bench/`, `docker/` and `scripts/`: processes, browsers, downloads and files around a core that is not part of this model.
