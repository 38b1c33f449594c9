/** Translations laid over English (`merge` in `packages/ui/catalogue-plugin.ts`) and the
    report of what a translation lacks (`compare`, `leaves` and `kind` in
    `scripts/ci/translations.ts`), on catalogue trees. */
module Catalogue {
  import opened Results
  import opened Sorting
  import opened Text

  /** What a catalogue key holds. A sentence that is a function, a number and so on is `Other`. */
  datatype Value =
    | Sentence(text: string)
    | Items(length: nat, code: string)
    | Other(typeName: string, code: string)
    | Node(entries: Entries)

  /** The properties of an object literal, in the order written. */
  datatype Entries = Nil | Entry(key: string, value: Value, rest: Entries)

  type Path = seq<string>

  datatype Kind = IsObject | IsText | ListOf(length: nat) | Is(typeName: string)

  datatype Mismatch =
    | OtherKind(at: Path, expected: Kind, got: Kind)
    | OtherSlots(at: Path, wanted: seq<string>, found: seq<string>)

  datatype Report = Report(missing: seq<Path>, extra: seq<Path>, mismatched: seq<Mismatch>) {
    function Then(next: Report): Report {
      Report(missing + next.missing, extra + next.extra, mismatched + next.mismatched)
    }
  }

  const CLEAN := Report([], [], [])

  // ---- Catalogue trees

  function Keys(entries: Entries): seq<string> {
    match entries
    case Nil => []
    case Entry(key, _, rest) => [key] + Keys(rest)
  }

  /** The value of a key; a key written twice keeps the last. */
  function Lookup(entries: Entries, key: string): Option<Value> {
    match entries
    case Nil => None
    case Entry(k, value, rest) =>
      var later := Lookup(rest, key);
      if later.Some? then later else if k == key then Some(value) else None
  }

  /** Every object of the tree has each key once. */
  predicate Distinct(value: Value) {
    value.Node? ==> DistinctEntries(value.entries)
  }

  predicate DistinctEntries(entries: Entries) {
    match entries
    case Nil => true
    case Entry(key, value, rest) => key !in Keys(rest) && Distinct(value) && DistinctEntries(rest)
  }

  /** No object of the tree below the root is empty. */
  predicate Filled(value: Value) {
    value.Node? ==> value.entries.Entry? && FilledEntries(value.entries)
  }

  predicate FilledEntries(entries: Entries) {
    match entries
    case Nil => true
    case Entry(_, value, rest) => Filled(value) && FilledEntries(rest)
  }

  lemma {:induction false} LookupIffKey(entries: Entries, key: string)
    ensures Lookup(entries, key).Some? <==> key in Keys(entries)
  {
    if entries.Entry? { LookupIffKey(entries.rest, key); }
  }

  // ---- The report

  function KindOf(value: Value): Kind {
    match value
    case Sentence(_) => IsText
    case Items(length, _) => ListOf(length)
    case Other(typeName, _) => Is(typeName)
    case Node(_) => IsObject
  }

  predicate WordChar(c: char) {
    'a' <= c <= 'z' || 'A' <= c <= 'Z' || '0' <= c <= '9' || c == '_'
  }

  function WordEnd(text: string, from: nat): (r: nat)
    requires from <= |text|
    ensures from <= r <= |text|
    decreases |text| - from
  {
    if from < |text| && WordChar(text[from]) then WordEnd(text, from + 1) else from
  }

  /** The `{slots}` of a sentence, in the order written. */
  function SlotsFrom(text: string, from: nat): seq<string>
    requires from <= |text|
    decreases |text| - from
  {
    if from == |text| then []
    else
      var end := WordEnd(text, from + 1);
      if text[from] == '{' && from + 1 < end < |text| && text[end] == '}'
      then [text[from + 1..end]] + SlotsFrom(text, end + 1)
      else SlotsFrom(text, from + 1)
  }

  function Slots(text: string): seq<string> {
    Sort(SlotsFrom(text, 0), TextLe)
  }

  function Leaves(value: Value, path: Path): seq<Path> {
    if value.Node? then LeavesOf(value.entries, path) else [path]
  }

  function LeavesOf(entries: Entries, path: Path): seq<Path> {
    match entries
    case Nil => []
    case Entry(key, value, rest) => Leaves(value, path + [key]) + LeavesOf(rest, path)
  }

  /** The paths of what a translation holds beyond English, whole branches included. */
  function Extra(theirs: Entries, english: Entries, path: Path): seq<Path> {
    match theirs
    case Nil => []
    case Entry(key, _, rest) =>
      (if key in Keys(english) then [] else [path + [key]]) + Extra(rest, english, path)
  }

  function Walk(a: Value, b: Option<Value>, path: Path): Report {
    if b.None? then Report(Leaves(a, path), [], [])
    else if KindOf(a) != KindOf(b.value) then Report([], [], [OtherKind(path, KindOf(a), KindOf(b.value))])
    else if a.Sentence? && Slots(a.text) != Slots(b.value.text) then
      Report([], [], [OtherSlots(path, Slots(a.text), Slots(b.value.text))])
    else if !a.Node? then CLEAN
    else WalkAll(a.entries, b.value.entries, path).Then(Report([], Extra(b.value.entries, a.entries, path), []))
  }

  function WalkAll(english: Entries, theirs: Entries, path: Path): Report {
    match english
    case Nil => CLEAN
    case Entry(key, value, rest) =>
      Walk(value, Lookup(theirs, key), path + [key]).Then(WalkAll(rest, theirs, path))
  }

  function Compare(reference: Value, translation: Value): Report {
    Walk(reference, Some(translation), [])
  }

  // ---- The completed catalogue

  function Pick(value: Value, theirs: Option<Value>): Value {
    if value.Node? then
      Node(Merge(value.entries, if theirs.Some? && theirs.value.Node? then theirs.value.entries else Nil))
    else if theirs.Some? then theirs.value
    else value
  }

  function Merge(english: Entries, theirs: Entries): Entries {
    match english
    case Nil => Nil
    case Entry(key, value, rest) => Entry(key, Pick(value, Lookup(theirs, key)), Merge(rest, theirs))
  }

  /** The completed catalogue: both files hold an object. */
  function OverEnglish(english: Entries, translation: Entries): Value {
    Pick(Node(english), Some(Node(translation)))
  }

  lemma {:induction false} MergeLookup(english: Entries, theirs: Entries, key: string)
    ensures Lookup(Merge(english, theirs), key)
         == (if Lookup(english, key).None? then None
             else Some(Pick(Lookup(english, key).value, Lookup(theirs, key))))
  {
    if english.Entry? { MergeLookup(english.rest, theirs, key); }
  }

  /** `made` holds, under every key of these entries, the pick for that key. */
  ghost predicate Holds(entries: Entries, theirs: Entries, made: Entries) {
    forall key | key in Keys(entries) ::
      Lookup(entries, key).Some? && Lookup(made, key) == Some(Pick(Lookup(entries, key).value, Lookup(theirs, key)))
  }

  lemma MergeHolds(english: Entries, theirs: Entries)
    ensures Holds(english, theirs, Merge(english, theirs))
  {
    forall key | key in Keys(english)
      ensures Lookup(english, key).Some?
           && Lookup(Merge(english, theirs), key) == Some(Pick(Lookup(english, key).value, Lookup(theirs, key)))
    {
      MergeLookup(english, theirs, key);
      LookupIffKey(english, key);
    }
  }

  lemma HoldsStep(entries: Entries, theirs: Entries, made: Entries)
    requires entries.Entry? && DistinctEntries(entries) && Holds(entries, theirs, made)
    ensures Lookup(made, entries.key) == Some(Pick(entries.value, Lookup(theirs, entries.key)))
    ensures Holds(entries.rest, theirs, made)
  {
    LookupIffKey(entries.rest, entries.key);
    forall key | key in Keys(entries.rest)
      ensures key in Keys(entries) && Lookup(entries, key) == Lookup(entries.rest, key)
    {
      LookupIffKey(entries.rest, key);
    }
    assert entries.key in Keys(entries);
  }

  // ---- Completing satisfies the report

  /** A mismatch that completing cannot resolve: one where English holds a sentence. */
  predicate AtSentence(m: Mismatch) {
    m.OtherSlots? || m.expected != IsObject
  }

  function Kept(ms: seq<Mismatch>): seq<Mismatch> {
    if ms == [] then []
    else (if AtSentence(ms[0]) then [ms[0]] else []) + Kept(ms[1..])
  }

  lemma KeptFirst(m: Mismatch, ms: seq<Mismatch>)
    ensures Kept([m] + ms) == (if AtSentence(m) then [m] else []) + Kept(ms)
  {
    assert ([m] + ms)[0] == m && ([m] + ms)[1..] == ms;
  }

  lemma {:induction false} KeptJoins(a: seq<Mismatch>, b: seq<Mismatch>)
    ensures Kept(a + b) == Kept(a) + Kept(b)
  {
    if a == [] {
      assert a + b == b;
    } else {
      var m, rest := a[0], a[1..];
      assert a == [m] + rest && a + b == [m] + (rest + b);
      KeptFirst(m, rest);
      KeptFirst(m, rest + b);
      KeptJoins(rest, b);
    }
  }

  lemma {:induction false} NothingMismatchesNil(english: Entries, path: Path)
    ensures WalkAll(english, Nil, path).mismatched == []
  {
    if english.Entry? { NothingMismatchesNil(english.rest, path); }
  }

  lemma {:induction false} MergeKeys(english: Entries, theirs: Entries)
    ensures Keys(Merge(english, theirs)) == Keys(english)
  {
    if english.Entry? { MergeKeys(english.rest, theirs); }
  }

  lemma {:induction false} NothingExtra(entries: Entries, english: Entries, path: Path)
    requires forall key <- Keys(entries) :: key in Keys(english)
    ensures Extra(entries, english, path) == []
  {
    if entries.Entry? { NothingExtra(entries.rest, english, path); }
  }

  lemma {:induction false} PickWalk(value: Value, theirs: Option<Value>, path: Path)
    requires Distinct(value)
    ensures Walk(value, Some(Pick(value, theirs)), path) == Report([], [], Kept(Walk(value, theirs, path).mismatched))
  {
    if value.Node? {
      var own := if theirs.Some? && theirs.value.Node? then theirs.value.entries else Nil;
      var made := Merge(value.entries, own);
      MergeHolds(value.entries, own);
      PickWalkAll(value.entries, own, made, path);
      MergeKeys(value.entries, own);
      NothingExtra(made, value.entries, path);
      NothingMismatchesNil(value.entries, path);
      var finished := Walk(value, Some(Pick(value, theirs)), path);
      assert finished == WalkAll(value.entries, made, path);
      var was := Walk(value, theirs, path).mismatched;
      if theirs.Some? && theirs.value.Node? {
        assert was == WalkAll(value.entries, own, path).mismatched;
      } else {
        assert was == [] || was[1..] == [];
      }
    } else {
      var was := Walk(value, theirs, path).mismatched;
      assert was == [] || (was[1..] == [] && AtSentence(was[0]));
    }
  }

  lemma {:induction false} PickWalkAll(english: Entries, theirs: Entries, made: Entries, path: Path)
    requires DistinctEntries(english) && Holds(english, theirs, made)
    ensures WalkAll(english, made, path) == Report([], [], Kept(WalkAll(english, theirs, path).mismatched))
  {
    if english.Entry? {
      var first := Walk(english.value, Lookup(theirs, english.key), path + [english.key]).mismatched;
      HoldsStep(english, theirs, made);
      PickWalk(english.value, Lookup(theirs, english.key), path + [english.key]);
      PickWalkAll(english.rest, theirs, made, path);
      KeptJoins(first, WalkAll(english.rest, theirs, path).mismatched);
    }
  }

  /** Completing a translation leaves nothing missing and nothing extra; what still mismatches
      is what mismatched before at an English sentence, in the same order. */
  lemma CompletedReport(english: Entries, translation: Entries)
    requires DistinctEntries(english)
    ensures Compare(Node(english), OverEnglish(english, translation))
         == Report([], [], Kept(Compare(Node(english), Node(translation)).mismatched))
  {
    PickWalk(Node(english), Some(Node(translation)), []);
  }

  // ---- English order, and completing twice

  /** Wherever English has an object, the other has one with the same keys in the same order. */
  predicate EnglishOrder(value: Value, other: Value) {
    value.Node? ==>
      other.Node? && Keys(other.entries) == Keys(value.entries) && OrderedAll(value.entries, other.entries)
  }

  predicate OrderedAll(english: Entries, other: Entries) {
    english.Entry? ==> other.Entry? && EnglishOrder(english.value, other.value) && OrderedAll(english.rest, other.rest)
  }

  lemma {:induction false} PickOrder(value: Value, theirs: Option<Value>)
    ensures EnglishOrder(value, Pick(value, theirs))
  {
    if value.Node? {
      var own := if theirs.Some? && theirs.value.Node? then theirs.value.entries else Nil;
      MergeKeys(value.entries, own);
      MergeOrder(value.entries, own);
    }
  }

  lemma {:induction false} MergeOrder(english: Entries, theirs: Entries)
    ensures OrderedAll(english, Merge(english, theirs))
  {
    if english.Entry? {
      PickOrder(english.value, Lookup(theirs, english.key));
      MergeOrder(english.rest, theirs);
    }
  }

  lemma {:induction false} PickTwice(value: Value, theirs: Option<Value>)
    requires Distinct(value)
    ensures Pick(value, Some(Pick(value, theirs))) == Pick(value, theirs)
  {
    if value.Node? {
      var own := if theirs.Some? && theirs.value.Node? then theirs.value.entries else Nil;
      MergeHolds(value.entries, own);
      MergeTwice(value.entries, own, Merge(value.entries, own));
    }
  }

  lemma {:induction false} MergeTwice(english: Entries, theirs: Entries, made: Entries)
    requires DistinctEntries(english) && Holds(english, theirs, made)
    ensures Merge(english, made) == Merge(english, theirs)
  {
    if english.Entry? {
      HoldsStep(english, theirs, made);
      PickTwice(english.value, Lookup(theirs, english.key));
      MergeTwice(english.rest, theirs, made);
    }
  }

  lemma CompletedOnce(english: Entries, translation: Entries)
    requires DistinctEntries(english)
    ensures EnglishOrder(Node(english), OverEnglish(english, translation))
    ensures OverEnglish(english, OverEnglish(english, translation).entries) == OverEnglish(english, translation)
  {
    PickOrder(Node(english), Some(Node(translation)));
    PickTwice(Node(english), Some(Node(translation)));
  }

  // ---- A complete translation is not changed

  /** The same tree, the order of keys aside. */
  predicate Same(a: Value, b: Value) {
    if a.Node? && b.Node? then SameAll(a.entries, b.entries) && forall key <- Keys(b.entries) :: key in Keys(a.entries)
    else a == b
  }

  predicate SameAll(entries: Entries, other: Entries) {
    match entries
    case Nil => true
    case Entry(key, value, rest) =>
      var theirs := Lookup(other, key);
      theirs.Some? && Same(value, theirs.value) && SameAll(rest, other)
  }

  lemma {:induction false} FilledHasLeaves(value: Value, path: Path)
    requires Filled(value)
    ensures Leaves(value, path) != []
  {
    if value.Node? { FilledHasLeaves(value.entries.value, path + [value.entries.key]); }
  }

  lemma {:induction false} SameIsReflexive(value: Value)
    requires Distinct(value)
    ensures Same(value, value)
  {
    if value.Node? {
      forall key | key in Keys(value.entries) ensures Lookup(value.entries, key).Some? {
        LookupIffKey(value.entries, key);
      }
      SameAllIsReflexive(value.entries, value.entries);
    }
  }

  lemma {:induction false} SameAllIsReflexive(entries: Entries, whole: Entries)
    requires DistinctEntries(entries)
    requires forall key <- Keys(entries) :: Lookup(whole, key) == Lookup(entries, key)
    ensures SameAll(entries, whole)
  {
    if entries.Entry? {
      assert entries.key in Keys(entries);
      LookupIffKey(entries.rest, entries.key);
      SameIsReflexive(entries.value);
      forall key | key in Keys(entries.rest) ensures Lookup(whole, key) == Lookup(entries.rest, key) {
        assert key in Keys(entries);
        LookupIffKey(entries.rest, key);
      }
      SameAllIsReflexive(entries.rest, whole);
    }
  }

  lemma {:induction false} NoExtraMeansKnown(entries: Entries, english: Entries, path: Path)
    requires Extra(entries, english, path) == []
    ensures forall key <- Keys(entries) :: key in Keys(english)
  {
    if entries.Entry? { NoExtraMeansKnown(entries.rest, english, path); }
  }

  lemma {:induction false} LookupDistinct(entries: Entries, key: string)
    requires DistinctEntries(entries)
    ensures Lookup(entries, key).Some? ==> Distinct(Lookup(entries, key).value)
  {
    if entries.Entry? { LookupDistinct(entries.rest, key); }
  }

  lemma {:induction false} CleanIsSame(value: Value, theirs: Value, path: Path)
    requires Distinct(value) && Distinct(theirs)
    requires value.Node? ==> FilledEntries(value.entries)
    requires Walk(value, Some(theirs), path) == CLEAN
    ensures Same(Pick(value, Some(theirs)), theirs)
  {
    if value.Node? {
      NoExtraMeansKnown(theirs.entries, value.entries, path);
      MergeKeys(value.entries, theirs.entries);
      CleanAllSame(value.entries, theirs.entries, path);
    } else {
      SameIsReflexive(theirs);
    }
  }

  lemma {:induction false} CleanAllSame(english: Entries, theirs: Entries, path: Path)
    requires DistinctEntries(english) && DistinctEntries(theirs) && FilledEntries(english)
    requires WalkAll(english, theirs, path) == CLEAN
    ensures SameAll(Merge(english, theirs), theirs)
  {
    if english.Entry? {
      var own := Lookup(theirs, english.key);
      FilledHasLeaves(english.value, path + [english.key]);
      assert Walk(english.value, own, path + [english.key]) == CLEAN;
      LookupDistinct(theirs, english.key);
      CleanIsSame(english.value, own.value, path + [english.key]);
      CleanAllSame(english.rest, theirs, path);
    }
  }

  /** English without its empty objects: it lacks them, and no report says so. */
  function Pruned(entries: Entries): Entries {
    match entries
    case Nil => Nil
    case Entry(key, value, rest) =>
      if value == Node(Nil) then Pruned(rest) else Entry(key, PrunedValue(value), Pruned(rest))
  }

  function PrunedValue(value: Value): Value {
    if value.Node? then Node(Pruned(value.entries)) else value
  }

  lemma {:induction false} PrunedKeys(entries: Entries)
    ensures forall key <- Keys(Pruned(entries)) :: key in Keys(entries)
  {
    if entries.Entry? { PrunedKeys(entries.rest); }
  }

  lemma {:induction false} PrunedDistinct(entries: Entries)
    requires DistinctEntries(entries)
    ensures DistinctEntries(Pruned(entries))
  {
    if entries.Entry? {
      PrunedKeys(entries.rest);
      PrunedDistinct(entries.rest);
      if entries.value.Node? { PrunedDistinct(entries.value.entries); }
    }
  }

  /** What is left of a key's value. */
  function Left(was: Option<Value>): Option<Value> {
    if was.None? || was.value == Node(Nil) then None else Some(PrunedValue(was.value))
  }

  lemma {:induction false} PrunedLookup(entries: Entries, key: string)
    requires DistinctEntries(entries)
    ensures Lookup(Pruned(entries), key) == Left(Lookup(entries, key))
  {
    if entries.Entry? {
      PrunedLookup(entries.rest, key);
      LookupIffKey(entries.rest, entries.key);
    }
  }

  /** `pruned` holds, under every key of these entries, what is left of its value. */
  ghost predicate HoldsLeft(entries: Entries, pruned: Entries) {
    forall key | key in Keys(entries) :: Lookup(pruned, key) == Left(Lookup(entries, key))
  }

  lemma HoldsLeftStep(entries: Entries, pruned: Entries)
    requires entries.Entry? && DistinctEntries(entries) && HoldsLeft(entries, pruned)
    ensures Lookup(pruned, entries.key) == Left(Some(entries.value))
    ensures HoldsLeft(entries.rest, pruned)
  {
    assert entries.key in Keys(entries);
    LookupIffKey(entries.rest, entries.key);
    forall key | key in Keys(entries.rest)
      ensures key in Keys(entries) && Lookup(entries, key) == Lookup(entries.rest, key)
    {
      LookupIffKey(entries.rest, key);
    }
  }

  lemma PrunedHoldsLeft(entries: Entries)
    requires DistinctEntries(entries)
    ensures HoldsLeft(entries, Pruned(entries))
  {
    forall key | key in Keys(entries) ensures Lookup(Pruned(entries), key) == Left(Lookup(entries, key)) {
      PrunedLookup(entries, key);
    }
  }

  lemma {:induction false} PrunedIsClean(value: Value, path: Path)
    requires Distinct(value)
    ensures Walk(value, Some(PrunedValue(value)), path) == CLEAN
  {
    if value.Node? {
      PrunedHoldsLeft(value.entries);
      PrunedAllClean(value.entries, Pruned(value.entries), path);
      PrunedKeys(value.entries);
      NothingExtra(Pruned(value.entries), value.entries, path);
    }
  }

  lemma {:induction false} PrunedAllClean(entries: Entries, pruned: Entries, path: Path)
    requires DistinctEntries(entries) && HoldsLeft(entries, pruned)
    ensures WalkAll(entries, pruned, path) == CLEAN
  {
    if entries.Entry? {
      HoldsLeftStep(entries, pruned);
      var at := path + [entries.key];
      if entries.value == Node(Nil) {
        assert Leaves(entries.value, at) == LeavesOf(Nil, at) == [];
      } else {
        PrunedIsClean(entries.value, at);
      }
      PrunedAllClean(entries.rest, pruned, path);
    }
  }

  /** Completing the pruned tree brings an empty object back. */
  lemma {:induction false} PrunedDiffers(entries: Entries, pruned: Entries)
    requires DistinctEntries(entries) && HoldsLeft(entries, pruned) && !FilledEntries(entries)
    ensures !SameAll(Merge(entries, pruned), pruned)
  {
    HoldsLeftStep(entries, pruned);
    var value := entries.value;
    if Filled(value) {
      PrunedDiffers(entries.rest, pruned);
    } else if value != Node(Nil) {
      PrunedHoldsLeft(value.entries);
      PrunedDiffers(value.entries, Pruned(value.entries));
    }
  }

  /** Whether a translation with an empty report always ships unchanged, key order aside. */
  ghost predicate CleanMeansUnchanged(english: Entries) {
    forall translation: Entries ::
      DistinctEntries(translation) && Compare(Node(english), Node(translation)) == CLEAN
      ==> Same(OverEnglish(english, translation), Node(translation))
  }

  /** It does exactly when English holds no empty object below the root: the report counts
      sentences, so it cannot see an empty object that a translation lacks. */
  lemma CleanIsUnchangedIffFilled(english: Entries)
    requires DistinctEntries(english)
    ensures CleanMeansUnchanged(english) <==> FilledEntries(english)
  {
    if FilledEntries(english) {
      forall translation: Entries
        | DistinctEntries(translation) && Compare(Node(english), Node(translation)) == CLEAN
        ensures Same(OverEnglish(english, translation), Node(translation))
      {
        CleanIsSame(Node(english), Node(translation), []);
      }
    } else {
      var pruned := Pruned(english);
      PrunedDistinct(english);
      PrunedIsClean(Node(english), []);
      PrunedHoldsLeft(english);
      PrunedDiffers(english, pruned);
      assert Compare(Node(english), Node(pruned)) == CLEAN;
      assert !Same(OverEnglish(english, pruned), Node(pruned));
    }
  }

  // ---- Slots

  /** Sentences match when they have the same slots the same number of times, in any order. */
  lemma SlotsIgnoreOrder(a: string, b: string)
    ensures Slots(a) == Slots(b) <==> multiset(SlotsFrom(a, 0)) == multiset(SlotsFrom(b, 0))
  {
    TextOrder();
    SortPermutes(SlotsFrom(a, 0), TextLe);
    SortPermutes(SlotsFrom(b, 0), TextLe);
    if multiset(SlotsFrom(a, 0)) == multiset(SlotsFrom(b, 0)) {
      SortIgnoresOrder(SlotsFrom(a, 0), SlotsFrom(b, 0), TextLe);
    }
  }

  // ---- The code itself

  lemma ThenJoins(r: Report, next: Report, last: Report)
    ensures r.Then(next).Then(last) == r.Then(next.Then(last))
  {
  }

  lemma ThenClean(r: Report)
    ensures r.Then(CLEAN) == r
  {
  }

  /** The report `walk` pushes into. */
  class Comparison {
    var missing: seq<Path>
    var extra: seq<Path>
    var mismatched: seq<Mismatch>

    ghost function Now(): Report
      reads this
    {
      Report(missing, extra, mismatched)
    }

    constructor ()
      ensures Now() == CLEAN
    {
      missing, extra, mismatched := [], [], [];
    }

    method Visit(a: Value, b: Option<Value>, path: Path)
      modifies this
      ensures Now() == old(Now()).Then(Walk(a, b, path))
      decreases a, 1
    {
      if b.None? {
        missing := missing + Leaves(a, path);
        return;
      }
      if KindOf(a) != KindOf(b.value) {
        mismatched := mismatched + [OtherKind(path, KindOf(a), KindOf(b.value))];
        return;
      }
      if a.Sentence? && Slots(a.text) != Slots(b.value.text) {
        mismatched := mismatched + [OtherSlots(path, Slots(a.text), Slots(b.value.text))];
        return;
      }
      if a.Node? && b.value.Node? {
        VisitAll(a.entries, b.value.entries, path);
        AddExtra(b.value.entries, a.entries, path);
      }
    }

    method VisitAll(english: Entries, theirs: Entries, path: Path)
      modifies this
      ensures Now() == old(Now()).Then(WalkAll(english, theirs, path))
      decreases english, 0
    {
      ghost var was := Now();
      if english.Entry? {
        Visit(english.value, Lookup(theirs, english.key), path + [english.key]);
        VisitAll(english.rest, theirs, path);
        ThenJoins(was, Walk(english.value, Lookup(theirs, english.key), path + [english.key]),
                  WalkAll(english.rest, theirs, path));
      } else {
        ThenClean(was);
      }
    }

    method AddExtra(theirs: Entries, english: Entries, path: Path)
      modifies this
      ensures Now() == old(Now()).Then(Report([], Extra(theirs, english, path), []))
    {
      var left := theirs;
      while left.Entry?
        invariant Now().Then(Report([], Extra(left, english, path), []))
               == old(Now()).Then(Report([], Extra(theirs, english, path), []))
        decreases left
      {
        if left.key !in Keys(english) {
          extra := extra + [path + [left.key]];
        }
        left := left.rest;
      }
    }
  }

  function OrElse(later: Option<Value>, own: map<string, Value>, key: string): Option<Value> {
    if later.Some? then later else if key in own then Some(own[key]) else None
  }

  /** The translation's values by key, the last one written winning. */
  method Own(theirs: Entries) returns (own: map<string, Value>)
    ensures forall key :: (key in own <==> Lookup(theirs, key).Some?)
                       && (key in own ==> Lookup(theirs, key) == Some(own[key]))
  {
    own := map[];
    var left := theirs;
    while left.Entry?
      invariant forall key :: Lookup(theirs, key) == OrElse(Lookup(left, key), own, key)
      decreases left
    {
      own := own[left.key := left.value];
      left := left.rest;
    }
  }

  method Complete(english: Entries, theirs: Entries) returns (completed: Entries)
    ensures completed == Merge(english, theirs)
    decreases english
  {
    var own := Own(theirs);
    completed := CompleteFrom(english, own, theirs);
  }

  method CompleteFrom(english: Entries, own: map<string, Value>, ghost theirs: Entries) returns (completed: Entries)
    requires forall key :: (key in own <==> Lookup(theirs, key).Some?)
                        && (key in own ==> Lookup(theirs, key) == Some(own[key]))
    ensures completed == Merge(english, theirs)
    decreases english, 0
  {
    if english.Nil? {
      return Nil;
    }
    var value := english.value;
    if value.Node? {
      var inner := Complete(value.entries, if english.key in own && own[english.key].Node?
          then own[english.key].entries else Nil);
      value := Node(inner);
    } else if english.key in own {
      value := own[english.key];
    }
    var rest := CompleteFrom(english.rest, own, theirs);
    completed := Entry(english.key, value, rest);
  }
}
