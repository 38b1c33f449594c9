/** The line ceiling and its ratchet (`scripts/architecture/size.ts`): what a tree violates, and
    what is left of it once the budget is shrunk or pinned again. */
module SizeBudget {
  import opened Results
  import opened Sorting

  ghost predicate Distinct(names: seq<string>) {
    forall i, j :: 0 <= i < j < |names| ==> names[i] != names[j]
  }

  /** A `Map` or record from names to numbers, its keys in order. */
  datatype Counts = Counts(order: seq<string>, of: map<string, int>) {
    ghost predicate Valid() {
      (forall name :: name in order <==> name in of) && Distinct(order)
    }
  }

  /** `exempt` holds the patterns. */
  datatype Budget = Budget(ceiling: nat, allow: Counts, exempt: seq<string>)

  datatype Violation =
    | Above(file: string, count: int)
    | Grown(file: string, count: int, allowed: int)
    | AllowedAndExempt(file: string, glob: string)
    | Gone(file: string, allowed: int)
    | Back(file: string, count: int)
    | Unmatched(glob: string)

  // ---- Patterns

  /** `*` stands for any run within one path segment. */
  predicate Matches(glob: string, file: string)
    decreases |glob| + |file|
  {
    if glob == "" then file == ""
    else if glob[0] == '*' then
      Matches(glob[1..], file) || (file != "" && file[0] != '/' && Matches(glob, file[1..]))
    else file != "" && file[0] == glob[0] && Matches(glob[1..], file[1..])
  }

  function FirstMatch(globs: seq<string>, file: string): Option<string> {
    if globs == [] then None
    else if Matches(globs[0], file) then Some(globs[0])
    else FirstMatch(globs[1..], file)
  }

  function ExemptBy(file: string, b: Budget): Option<string> { FirstMatch(b.exempt, file) }

  predicate MatchesSome(glob: string, files: seq<string>) {
    exists file <- files :: Matches(glob, file)
  }

  // ---- What a tree violates

  /** What one source violates. */
  function OfFile(file: string, count: int, b: Budget): seq<Violation> {
    if ExemptBy(file, b).Some? then []
    else if file !in b.allow.of then if count > b.ceiling then [Above(file, count)] else []
    else if count > b.allow.of[file] then [Grown(file, count, b.allow.of[file])] else []
  }

  /** What is wrong with one entry. */
  function OfEntry(file: string, allowed: int, lines: Counts, b: Budget): seq<Violation> {
    if ExemptBy(file, b).Some? then [AllowedAndExempt(file, ExemptBy(file, b).value)]
    else if file !in lines.of then [Gone(file, allowed)]
    else if lines.of[file] <= b.ceiling then [Back(file, lines.of[file])]
    else []
  }

  function OfGlob(glob: string, lines: Counts): seq<Violation> {
    if MatchesSome(glob, lines.order) then [] else [Unmatched(glob)]
  }

  function OfFiles(files: seq<string>, lines: Counts, b: Budget): seq<Violation> {
    if files == [] then []
    else
      var prior, last := OfFiles(files[..|files| - 1], lines, b), files[|files| - 1];
      if last in lines.of then prior + OfFile(last, lines.of[last], b) else prior
  }

  function OfEntries(files: seq<string>, lines: Counts, b: Budget): seq<Violation> {
    if files == [] then []
    else
      var prior, last := OfEntries(files[..|files| - 1], lines, b), files[|files| - 1];
      if last in b.allow.of then prior + OfEntry(last, b.allow.of[last], lines, b) else prior
  }

  function OfGlobs(globs: seq<string>, lines: Counts): seq<Violation> {
    if globs == [] then [] else OfGlobs(globs[..|globs| - 1], lines) + OfGlob(globs[|globs| - 1], lines)
  }

  function Violations(lines: Counts, b: Budget): seq<Violation> {
    OfFiles(lines.order, lines, b) + OfEntries(b.allow.order, lines, b) + OfGlobs(b.exempt, lines)
  }

  lemma PushFile(files: seq<string>, k: nat, lines: Counts, b: Budget)
    requires k < |files| && files[k] in lines.of
    ensures OfFiles(files[..k + 1], lines, b) == OfFiles(files[..k], lines, b) + OfFile(files[k], lines.of[files[k]], b)
  {
    assert files[..k + 1][..k] == files[..k];
  }

  lemma PushEntry(files: seq<string>, k: nat, lines: Counts, b: Budget)
    requires k < |files| && files[k] in b.allow.of
    ensures OfEntries(files[..k + 1], lines, b)
         == OfEntries(files[..k], lines, b) + OfEntry(files[k], b.allow.of[files[k]], lines, b)
  {
    assert files[..k + 1][..k] == files[..k];
  }

  /** The first loop: each source against its allowance or the ceiling. */
  method FileErrors(lines: Counts, b: Budget) returns (errors: seq<Violation>)
    requires lines.Valid()
    ensures errors == OfFiles(lines.order, lines, b)
  {
    errors := [];
    for k := 0 to |lines.order|
      invariant errors == OfFiles(lines.order[..k], lines, b)
    {
      var file := lines.order[k];
      assert file in lines.order;
      PushFile(lines.order, k, lines, b);
      var count := lines.of[file];
      if ExemptBy(file, b).Some? {
        continue;
      }
      if file !in b.allow.of {
        if count > b.ceiling {
          errors := errors + [Above(file, count)];
        }
      } else if count > b.allow.of[file] {
        errors := errors + [Grown(file, count, b.allow.of[file])];
      }
    }
    assert lines.order[..|lines.order|] == lines.order;
  }

  /** The second loop: each entry of the table. */
  method EntryErrors(lines: Counts, b: Budget) returns (errors: seq<Violation>)
    requires b.allow.Valid()
    ensures errors == OfEntries(b.allow.order, lines, b)
  {
    errors := [];
    for k := 0 to |b.allow.order|
      invariant errors == OfEntries(b.allow.order[..k], lines, b)
    {
      var file := b.allow.order[k];
      assert file in b.allow.order;
      PushEntry(b.allow.order, k, lines, b);
      var exempt := ExemptBy(file, b);
      if exempt.Some? {
        errors := errors + [AllowedAndExempt(file, exempt.value)];
      } else if file !in lines.of {
        errors := errors + [Gone(file, b.allow.of[file])];
      } else if lines.of[file] <= b.ceiling {
        errors := errors + [Back(file, lines.of[file])];
      }
    }
    assert b.allow.order[..|b.allow.order|] == b.allow.order;
  }

  /** The third loop: each exempt pattern. */
  method PatternErrors(lines: Counts, b: Budget) returns (errors: seq<Violation>)
    ensures errors == OfGlobs(b.exempt, lines)
  {
    errors := [];
    for k := 0 to |b.exempt|
      invariant errors == OfGlobs(b.exempt[..k], lines)
    {
      assert b.exempt[..k + 1][..k] == b.exempt[..k];
      if !MatchesSome(b.exempt[k], lines.order) {
        errors := errors + [Unmatched(b.exempt[k])];
      }
    }
    assert b.exempt[..|b.exempt|] == b.exempt;
  }

  /** `sizeViolations`. */
  method SizeViolations(lines: Counts, b: Budget) returns (errors: seq<Violation>)
    requires lines.Valid() && b.allow.Valid()
    ensures errors == Violations(lines, b)
  {
    var files := FileErrors(lines, b);
    var entries := EntryErrors(lines, b);
    var patterns := PatternErrors(lines, b);
    errors := files + entries + patterns;
  }

  // ---- Shrinking

  /** A source of more lines than the ceiling. */
  predicate Over(file: string, lines: Counts, b: Budget) {
    file in lines.of && lines.of[file] > b.ceiling
  }

  function Least(a: int, b: int): int { if a < b then a else b }

  function OverOnly(files: seq<string>, lines: Counts, b: Budget): seq<string> {
    if files == [] then []
    else
      var prior, last := OverOnly(files[..|files| - 1], lines, b), files[|files| - 1];
      if Over(last, lines, b) then prior + [last] else prior
  }

  /** `shrunkBudget`. */
  function Shrunk(lines: Counts, b: Budget): Budget {
    b.(allow := Counts(
      OverOnly(b.allow.order, lines, b),
      map file | file in b.allow.of && Over(file, lines, b) :: Least(b.allow.of[file], lines.of[file])))
  }

  /** The entries that `sizeSlack` reports: shrunk below their allowance. */
  function Slack(files: seq<string>, lines: Counts, b: Budget): seq<string> {
    if files == [] then []
    else
      var prior, last := Slack(files[..|files| - 1], lines, b), files[|files| - 1];
      if last in b.allow.of && last in lines.of && lines.of[last] < b.allow.of[last] then prior + [last] else prior
  }

  lemma {:induction false} OverOnlyHolds(files: seq<string>, lines: Counts, b: Budget)
    ensures forall file :: file in OverOnly(files, lines, b) <==> file in files && Over(file, lines, b)
  {
    if files != [] {
      var prior, last := files[..|files| - 1], files[|files| - 1];
      OverOnlyHolds(prior, lines, b);
      assert files == prior + [last];
    }
  }

  lemma {:induction false} OverOnlyDistinct(files: seq<string>, lines: Counts, b: Budget)
    requires Distinct(files)
    ensures Distinct(OverOnly(files, lines, b))
  {
    if files != [] {
      var n := |files| - 1;
      OverOnlyDistinct(files[..n], lines, b);
      OverOnlyHolds(files[..n], lines, b);
      assert files[n] !in files[..n];
    }
  }

  lemma ShrunkValid(lines: Counts, b: Budget)
    requires b.allow.Valid()
    ensures Shrunk(lines, b).allow.Valid()
  {
    OverOnlyHolds(b.allow.order, lines, b);
    OverOnlyDistinct(b.allow.order, lines, b);
  }

  /** Shrinking keeps the entries above the ceiling, raises none, and leaves no slack. */
  lemma ShrunkOnlyLowers(lines: Counts, b: Budget)
    requires b.allow.Valid()
    ensures var small := Shrunk(lines, b);
      && small.allow.Valid()
      && small.ceiling == b.ceiling && small.exempt == b.exempt
      && (forall file :: file in small.allow.of <==> file in b.allow.of && Over(file, lines, b))
      && (forall file <- small.allow.of :: small.allow.of[file] <= b.allow.of[file])
      && Slack(small.allow.order, lines, small) == []
  {
    ShrunkValid(lines, b);
    NoSlack(Shrunk(lines, b).allow.order, lines, Shrunk(lines, b));
  }

  lemma {:induction false} NoSlack(files: seq<string>, lines: Counts, b: Budget)
    requires forall file <- files :: file in b.allow.of && file in lines.of ==> b.allow.of[file] <= lines.of[file]
    ensures Slack(files, lines, b) == []
  {
    if files != [] { NoSlack(files[..|files| - 1], lines, b); }
  }

  lemma {:induction false} OverOnlyTwice(files: seq<string>, lines: Counts, b: Budget, c: Budget)
    requires c.ceiling == b.ceiling
    ensures OverOnly(OverOnly(files, lines, b), lines, c) == OverOnly(files, lines, b)
  {
    if files != [] {
      var prior, last := files[..|files| - 1], files[|files| - 1];
      OverOnlyTwice(prior, lines, b, c);
      var kept := OverOnly(prior, lines, b);
      assert (kept + [last])[..|kept|] == kept;
    }
  }

  /** Shrinking twice on one tree is shrinking once. */
  lemma ShrunkTwice(lines: Counts, b: Budget)
    ensures Shrunk(lines, Shrunk(lines, b)) == Shrunk(lines, b)
  {
    OverOnlyTwice(b.allow.order, lines, b, Shrunk(lines, b));
  }

  /** The budget after each of the trees has shrunk it. */
  function Ratchet(trees: seq<Counts>, b: Budget): Budget {
    if trees == [] then b else Shrunk(trees[|trees| - 1], Ratchet(trees[..|trees| - 1], b))
  }

  /** Over any run of trees no allowance rises, no entry is added, and one that goes does not come back. */
  lemma {:induction false} RatchetOnlyLowers(trees: seq<Counts>, b: Budget, k: nat)
    requires k <= |trees|
    ensures forall file <- Ratchet(trees, b).allow.of ::
              && file in Ratchet(trees[..k], b).allow.of
              && Ratchet(trees, b).allow.of[file] <= Ratchet(trees[..k], b).allow.of[file]
  {
    if k == |trees| {
      assert trees[..k] == trees;
    } else {
      var n := |trees| - 1;
      RatchetOnlyLowers(trees[..n], b, k);
      assert trees[..n][..k] == trees[..k];
    }
  }

  // ---- What shrinking leaves of the errors

  /** Growth past the ceiling and patterns stay; what is back under it or gone does not. */
  predicate Remains(v: Violation, lines: Counts, b: Budget) {
    match v
    case Above(_, _) => true
    case Grown(_, count, _) => count > b.ceiling
    case AllowedAndExempt(file, _) => Over(file, lines, b)
    case Gone(_, _) => false
    case Back(_, _) => false
    case Unmatched(_) => true
  }

  function Remaining(vs: seq<Violation>, lines: Counts, b: Budget): seq<Violation> {
    if vs == [] then []
    else
      var prior, last := Remaining(vs[..|vs| - 1], lines, b), vs[|vs| - 1];
      if Remains(last, lines, b) then prior + [last] else prior
  }

  lemma {:induction false} RemainingJoins(vs: seq<Violation>, ws: seq<Violation>, lines: Counts, b: Budget)
    ensures Remaining(vs + ws, lines, b) == Remaining(vs, lines, b) + Remaining(ws, lines, b)
  {
    if ws == [] {
      assert vs + ws == vs;
    } else {
      var all := vs + ws;
      assert all[..|all| - 1] == vs + ws[..|ws| - 1];
      RemainingJoins(vs, ws[..|ws| - 1], lines, b);
    }
  }

  lemma OneRemains(v: Violation, lines: Counts, b: Budget)
    ensures Remaining([v], lines, b) == if Remains(v, lines, b) then [v] else []
  {
    assert [v][..0] == [];
  }

  lemma FileRemains(file: string, lines: Counts, b: Budget)
    requires file in lines.of
    ensures OfFile(file, lines.of[file], Shrunk(lines, b)) == Remaining(OfFile(file, lines.of[file], b), lines, b)
  {
    var vs := OfFile(file, lines.of[file], b);
    if vs != [] { OneRemains(vs[0], lines, b); }
  }

  lemma {:induction false} FilesRemain(files: seq<string>, lines: Counts, b: Budget)
    ensures OfFiles(files, lines, Shrunk(lines, b)) == Remaining(OfFiles(files, lines, b), lines, b)
  {
    if files != [] {
      var prior, last := files[..|files| - 1], files[|files| - 1];
      FilesRemain(prior, lines, b);
      if last in lines.of {
        FileRemains(last, lines, b);
        RemainingJoins(OfFiles(prior, lines, b), OfFile(last, lines.of[last], b), lines, b);
      }
    }
  }

  lemma EntryRemains(file: string, lines: Counts, b: Budget)
    requires file in b.allow.of
    ensures Remaining(OfEntry(file, b.allow.of[file], lines, b), lines, b)
         == if Over(file, lines, b) then OfEntry(file, Shrunk(lines, b).allow.of[file], lines, Shrunk(lines, b)) else []
  {
    if ExemptBy(file, b).Some? {
      OneRemains(AllowedAndExempt(file, ExemptBy(file, b).value), lines, b);
    } else if file !in lines.of {
      OneRemains(Gone(file, b.allow.of[file]), lines, b);
    } else if lines.of[file] <= b.ceiling {
      OneRemains(Back(file, lines.of[file]), lines, b);
    }
  }

  lemma {:induction false} EntriesRemain(files: seq<string>, lines: Counts, b: Budget)
    requires forall file <- files :: file in b.allow.of
    ensures OfEntries(OverOnly(files, lines, b), lines, Shrunk(lines, b))
         == Remaining(OfEntries(files, lines, b), lines, b)
  {
    if files != [] {
      var prior, last := files[..|files| - 1], files[|files| - 1];
      EntriesRemain(prior, lines, b);
      EntryRemains(last, lines, b);
      RemainingJoins(OfEntries(prior, lines, b), OfEntry(last, b.allow.of[last], lines, b), lines, b);
      var kept := OverOnly(prior, lines, b);
      assert (kept + [last])[..|kept|] == kept;
    }
  }

  lemma {:induction false} GlobsRemain(globs: seq<string>, lines: Counts, b: Budget)
    ensures Remaining(OfGlobs(globs, lines), lines, b) == OfGlobs(globs, lines)
  {
    if globs != [] {
      var prior, last := globs[..|globs| - 1], globs[|globs| - 1];
      GlobsRemain(prior, lines, b);
      RemainingJoins(OfGlobs(prior, lines), OfGlob(last, lines), lines, b);
      OneRemains(Unmatched(last), lines, b);
    }
  }

  /** What a tree violates after shrinking is, in order, what it violated before, without the entries that go and
      growth that stays under the ceiling: shrinking hides no file above the ceiling and adds no error. */
  lemma ShrunkViolations(lines: Counts, b: Budget)
    requires b.allow.Valid()
    ensures Violations(lines, Shrunk(lines, b)) == Remaining(Violations(lines, b), lines, b)
  {
    FilesRemain(lines.order, lines, b);
    EntriesRemain(b.allow.order, lines, b);
    GlobsRemain(b.exempt, lines, b);
    RemainingJoins(OfFiles(lines.order, lines, b), OfEntries(b.allow.order, lines, b), lines, b);
    RemainingJoins(OfFiles(lines.order, lines, b) + OfEntries(b.allow.order, lines, b), OfGlobs(b.exempt, lines),
        lines, b);
  }

  // ---- Pinning again

  datatype Raise = Added(file: string, count: int) | Raised(file: string, before: int, count: int)

  /** A source that needs an entry. */
  predicate Pinned(file: string, lines: Counts, b: Budget) {
    Over(file, lines, b) && ExemptBy(file, b).None?
  }

  function PinnedOnly(files: seq<string>, lines: Counts, b: Budget): seq<string> {
    if files == [] then []
    else
      var prior, last := PinnedOnly(files[..|files| - 1], lines, b), files[|files| - 1];
      if Pinned(last, lines, b) then prior + [last] else prior
  }

  function Rebaselined(lines: Counts, b: Budget, le: (string, string) -> bool): Budget {
    b.(allow := Counts(
      PinnedOnly(Sort(lines.order, le), lines, b),
      map file | file in lines.of && Pinned(file, lines, b) :: lines.of[file]))
  }

  function RaiseOf(file: string, count: int, b: Budget): seq<Raise> {
    if file !in b.allow.of then [Added(file, count)]
    else if count > b.allow.of[file] then [Raised(file, b.allow.of[file], count)]
    else []
  }

  function Raises(files: seq<string>, lines: Counts, b: Budget): seq<Raise> {
    if files == [] then []
    else
      var prior, last := Raises(files[..|files| - 1], lines, b), files[|files| - 1];
      if Pinned(last, lines, b) then prior + RaiseOf(last, lines.of[last], b) else prior
  }

  /** `rebaselinedBudget`, where `le` is the order of `localeCompare`. */
  method Rebaseline(lines: Counts, b: Budget, le: (string, string) -> bool) returns (budget: Budget, raised: seq<Raise>)
    requires lines.Valid()
    ensures budget == Rebaselined(lines, b, le) && raised == Raises(Sort(lines.order, le), lines, b)
  {
    raised := [];
    var order: seq<string>, of: map<string, int> := [], map[];
    var files := Sort(lines.order, le);
    AllSorted(lines, le);
    for k := 0 to |files|
      invariant order == PinnedOnly(files[..k], lines, b) && raised == Raises(files[..k], lines, b)
      invariant PinnedAre(of, files[..k], lines, b)
    {
      var file := files[k];
      assert file in files;
      PushPinned(files, k, lines, b, of);
      var count := lines.of[file];
      if count <= b.ceiling || ExemptBy(file, b).Some? {
        continue;
      }
      order, of := order + [file], of[file := count];
      if file !in b.allow.of {
        raised := raised + [Added(file, count)];
      } else if count > b.allow.of[file] {
        raised := raised + [Raised(file, b.allow.of[file], count)];
      }
    }
    assert files[..|files|] == files;
    assert of == Rebaselined(lines, b, le).allow.of;
    budget := b.(allow := Counts(order, of));
  }

  /** The entries of the pinned files among these. */
  ghost predicate PinnedAre(of: map<string, int>, files: seq<string>, lines: Counts, b: Budget) {
    && (forall file :: file in of <==> file in files && Pinned(file, lines, b))
    && (forall file <- of :: Pinned(file, lines, b) ==> of[file] == lines.of[file])
  }

  lemma PushPinned(files: seq<string>, k: nat, lines: Counts, b: Budget, of: map<string, int>)
    requires k < |files| && PinnedAre(of, files[..k], lines, b)
    ensures var before, after, file := files[..k], files[..k + 1], files[k];
      if Pinned(file, lines, b) then
        && PinnedOnly(after, lines, b) == PinnedOnly(before, lines, b) + [file]
        && Raises(after, lines, b) == Raises(before, lines, b) + RaiseOf(file, lines.of[file], b)
        && PinnedAre(of[file := lines.of[file]], after, lines, b)
      else
        && PinnedOnly(after, lines, b) == PinnedOnly(before, lines, b)
        && Raises(after, lines, b) == Raises(before, lines, b)
        && PinnedAre(of, after, lines, b)
  {
    assert files[..k + 1][..k] == files[..k];
    assert files[..k + 1] == files[..k] + [files[k]];
  }

  lemma AllSorted(lines: Counts, le: (string, string) -> bool)
    requires lines.Valid()
    ensures forall file :: file in Sort(lines.order, le) <==> file in lines.of
  {
    SortPermutes(lines.order, le);
    forall file ensures file in Sort(lines.order, le) <==> file in lines.of {
      assert file in Sort(lines.order, le) <==> file in multiset(Sort(lines.order, le));
      assert file in lines.order <==> file in multiset(lines.order);
    }
  }

  lemma {:induction false} PinnedOnlyHolds(files: seq<string>, lines: Counts, b: Budget)
    ensures forall file <- PinnedOnly(files, lines, b) :: file in files && Pinned(file, lines, b)
  {
    if files != [] {
      PinnedOnlyHolds(files[..|files| - 1], lines, b);
      assert files == files[..|files| - 1] + [files[|files| - 1]];
    }
  }

  lemma {:induction false} NoFileViolates(files: seq<string>, lines: Counts, b: Budget)
    requires forall file <- files :: file in lines.of ==> OfFile(file, lines.of[file], b) == []
    ensures OfFiles(files, lines, b) == []
  {
    if files != [] { NoFileViolates(files[..|files| - 1], lines, b); }
  }

  lemma {:induction false} NoEntryViolates(files: seq<string>, lines: Counts, b: Budget)
    requires forall file <- files :: file in b.allow.of ==> OfEntry(file, b.allow.of[file], lines, b) == []
    ensures OfEntries(files, lines, b) == []
  {
    if files != [] { NoEntryViolates(files[..|files| - 1], lines, b); }
  }

  /** On the tree it was pinned on, a budget is violated by nothing but patterns that match no source. */
  lemma OnlyPatternsRemain(lines: Counts, b: Budget, le: (string, string) -> bool)
    requires lines.Valid()
    ensures Violations(lines, Rebaselined(lines, b, le)) == OfGlobs(b.exempt, lines)
  {
    var pinned := Rebaselined(lines, b, le);
    PinnedOnlyHolds(Sort(lines.order, le), lines, b);
    NoFileViolates(lines.order, lines, pinned);
    NoEntryViolates(pinned.allow.order, lines, pinned);
  }

  lemma {:induction false} RaisesAre(files: seq<string>, lines: Counts, b: Budget, file: string)
    ensures (exists r <- Raises(files, lines, b) :: r.file == file)
       <==> file in files && Pinned(file, lines, b) && RaiseOf(file, lines.of[file], b) != []
  {
    if files != [] {
      var prior, last := files[..|files| - 1], files[|files| - 1];
      RaisesAre(prior, lines, b, file);
      assert files == prior + [last];
      var before := Raises(prior, lines, b);
      if Pinned(last, lines, b) {
        var more := RaiseOf(last, lines.of[last], b);
        assert Raises(files, lines, b) == before + more;
        assert more != [] ==> more[0] in before + more && more[0].file == last;
        assert forall r <- before :: r in before + more;
      }
    }
  }

  /** The raises listed are exactly the entries that are new or above what they were; pinning again lists none. */
  lemma RaisesAreListed(lines: Counts, b: Budget, le: (string, string) -> bool, file: string)
    requires lines.Valid()
    ensures var pinned := Rebaselined(lines, b, le);
      && ((exists r <- Raises(Sort(lines.order, le), lines, b) :: r.file == file)
          <==> file in pinned.allow.of && (file in b.allow.of ==> pinned.allow.of[file] > b.allow.of[file]))
      && !exists r <- Raises(Sort(lines.order, le), lines, pinned) :: r.file == file
  {
    AllSorted(lines, le);
    RaisesAre(Sort(lines.order, le), lines, b, file);
    RaisesAre(Sort(lines.order, le), lines, Rebaselined(lines, b, le), file);
  }

  lemma {:induction false} FileIsListed(files: seq<string>, lines: Counts, b: Budget, file: string)
    requires file in files && file in lines.of
    ensures forall v <- OfFile(file, lines.of[file], b) :: v in OfFiles(files, lines, b)
  {
    var prior, last := files[..|files| - 1], files[|files| - 1];
    if file in prior {
      FileIsListed(prior, lines, b, file);
    } else {
      assert file == last;
    }
  }

  lemma {:induction false} EntryIsListed(files: seq<string>, lines: Counts, b: Budget, file: string)
    requires file in files && file in b.allow.of
    ensures forall v <- OfEntry(file, b.allow.of[file], lines, b) :: v in OfEntries(files, lines, b)
  {
    var prior, last := files[..|files| - 1], files[|files| - 1];
    if file in prior {
      EntryIsListed(prior, lines, b, file);
    } else {
      assert file == last;
    }
  }

  lemma FileErrorIsListed(lines: Counts, b: Budget, file: string)
    requires lines.Valid() && file in lines.of && OfFile(file, lines.of[file], b) != []
    ensures exists v <- Violations(lines, b) :: v.Above? || v.Grown?
  {
    FileIsListed(lines.order, lines, b, file);
    var v := OfFile(file, lines.of[file], b)[0];
    assert v in OfFile(file, lines.of[file], b) && v in OfFiles(lines.order, lines, b);
    assert v in Violations(lines, b);
  }

  lemma ExemptEntryIsListed(lines: Counts, b: Budget, file: string)
    requires b.allow.Valid() && file in b.allow.of && ExemptBy(file, b).Some?
    ensures exists v <- Violations(lines, b) :: v.AllowedAndExempt?
  {
    EntryIsListed(b.allow.order, lines, b, file);
    var v := OfEntry(file, b.allow.of[file], lines, b)[0];
    assert v in OfEntry(file, b.allow.of[file], lines, b) && v in OfEntries(b.allow.order, lines, b);
    assert v in Violations(lines, b);
  }

  /** Nothing has grown and no entry is exempt too. */
  predicate OnlyStale(vs: seq<Violation>) {
    forall v <- vs :: v.Gone? || v.Back? || v.Unmatched?
  }

  /** Where nothing has grown and no entry is exempt too, pinning again allows what shrinking does. */
  lemma RebaselinedIsShrunk(lines: Counts, b: Budget, le: (string, string) -> bool)
    requires lines.Valid() && b.allow.Valid() && OnlyStale(Violations(lines, b))
    ensures Rebaselined(lines, b, le).allow.of == Shrunk(lines, b).allow.of
  {
    forall file ensures file in lines.of ==> OfFile(file, lines.of[file], b) == [] {
      if file in lines.of && OfFile(file, lines.of[file], b) != [] { FileErrorIsListed(lines, b, file); }
    }
    forall file ensures file in b.allow.of ==> ExemptBy(file, b).None? {
      if file in b.allow.of && ExemptBy(file, b).Some? { ExemptEntryIsListed(lines, b, file); }
    }
  }
}
