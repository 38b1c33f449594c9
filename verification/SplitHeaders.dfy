/** The imports `importHeader` writes at the top of a split file
    (`scripts/migrate/split-contracts.ts`): each name the file reads from elsewhere, once. */
module SplitHeaders {
  import opened Sorting
  import opened Text
  import opened SplitContracts
  import opened SplitCode

  // ---- One read of each name

  function ReadsNamed(refs: seq<Read>, name: string): seq<Read> {
    if refs == [] then []
    else (if refs[0].name == name then [refs[0]] else []) + ReadsNamed(refs[1..], name)
  }

  ghost predicate Once(refs: seq<Read>) {
    forall name :: |ReadsNamed(refs, name)| <= 1
  }

  predicate ValueRead(refs: seq<Read>, name: string) {
    exists r <- refs :: r.name == name && !r.onlyType
  }

  /** One read for each name of the list, a type as long as none of its reads is a value. */
  function Summary(refs: seq<Read>, name: string): seq<Read> {
    if Noted(refs, name) then [Read(name, !ValueRead(refs, name))] else []
  }

  ghost predicate Summarises(found: seq<Read>, refs: seq<Read>) {
    forall name :: ReadsNamed(found, name) == Summary(refs, name)
  }

  lemma {:induction false} NoteIs(found: seq<Read>, r: Read, name: string)
    requires Once(found)
    ensures ReadsNamed(Note(found, r), name)
         == if r.name != name then ReadsNamed(found, name)
            else if ReadsNamed(found, name) == [] then [r]
            else [Read(name, ReadsNamed(found, name)[0].onlyType && r.onlyType)]
  {
    if found != [] {
      var rest := found[1..];
      assert Once(rest) by {
        forall n ensures |ReadsNamed(rest, n)| <= 1 {
          assert |ReadsNamed(found, n)| <= 1;
        }
      }
      assert |ReadsNamed(found, found[0].name)| <= 1;
      NoteIs(rest, r, name);
    }
  }

  lemma {:induction false} NoteAllSummarises(found: seq<Read>, before: seq<Read>, refs: seq<Read>, all: seq<Read>)
    requires Summarises(found, before) && all == before + refs
    ensures Summarises(NoteAll(found, refs), all)
  {
    if refs == [] {
      assert before + refs == before;
    } else {
      var prior, r := refs[..|refs| - 1], refs[|refs| - 1];
      NoteAllSummarises(found, before, prior, before + prior);
      NoteSummarises(NoteAll(found, prior), before + prior, r);
      assert (before + prior) + [r] == before + refs;
    }
  }

  lemma NoteSummarises(found: seq<Read>, before: seq<Read>, r: Read)
    requires Summarises(found, before)
    ensures Summarises(Note(found, r), before + [r])
  {
    assert Once(found);
    var all := before + [r];
    forall name ensures ReadsNamed(Note(found, r), name) == Summary(all, name) {
      NoteIs(found, r, name);
      assert ReadsNamed(found, name) == Summary(before, name);
      assert r in all && forall x <- before :: x in all;
    }
  }

  // ---- The reads of a file

  function RawPieces(pieces: seq<Statement>): seq<Read> {
    if pieces == [] then []
    else
      var prior, last := RawPieces(pieces[..|pieces| - 1]), pieces[|pieces| - 1];
      if last.Plain? then prior + last.refs else prior
  }

  function RawMembers(members: seq<Member>): seq<Read> {
    if members == [] then [] else RawMembers(members[..|members| - 1]) + members[|members| - 1].refs
  }

  function RawGroups(groups: seq<Group>): seq<Read> {
    if groups == [] then [] else RawGroups(groups[..|groups| - 1]) + RawMembers(groups[|groups| - 1].members)
  }

  /** Every identifier the file's statements and members read. */
  function RawReads(pieces: seq<Statement>, groups: seq<Group>): seq<Read> {
    RawPieces(pieces) + RawGroups(groups)
  }

  lemma {:induction false} PieceReadsAre(pieces: seq<Statement>)
    ensures Summarises(PieceReads(pieces), RawPieces(pieces))
  {
    if pieces != [] {
      var prior, last := pieces[..|pieces| - 1], pieces[|pieces| - 1];
      PieceReadsAre(prior);
      if last.Plain? {
        NoteAllSummarises(PieceReads(prior), RawPieces(prior), last.refs, RawPieces(pieces));
      }
    }
  }

  lemma {:induction false} MemberReadsAre(found: seq<Read>, before: seq<Read>, members: seq<Member>)
    requires Summarises(found, before)
    ensures Summarises(MemberReads(found, members), before + RawMembers(members))
  {
    if members == [] {
      assert before + [] == before;
    } else {
      var prior, last := members[..|members| - 1], members[|members| - 1];
      MemberReadsAre(found, before, prior);
      assert (before + RawMembers(prior)) + last.refs == before + RawMembers(members);
      NoteAllSummarises(MemberReads(found, prior), before + RawMembers(prior), last.refs,
                        before + RawMembers(members));
    }
  }

  lemma {:induction false} GroupReadsAre(found: seq<Read>, before: seq<Read>, groups: seq<Group>)
    requires Summarises(found, before)
    ensures Summarises(GroupReads(found, groups), before + RawGroups(groups))
  {
    if groups == [] {
      assert before + [] == before;
    } else {
      var prior, last := groups[..|groups| - 1], groups[|groups| - 1];
      GroupReadsAre(found, before, prior);
      MemberReadsAre(GroupReads(found, prior), before + RawGroups(prior), last.members);
      assert (before + RawGroups(prior)) + RawMembers(last.members) == before + RawGroups(groups);
    }
  }

  lemma FileReadsAre(pieces: seq<Statement>, groups: seq<Group>)
    ensures Summarises(FileReads(pieces, groups), RawReads(pieces, groups))
  {
    PieceReadsAre(pieces);
    GroupReadsAre(PieceReads(pieces), RawPieces(pieces), groups);
  }

  // ---- The import header binds each needed name once

  datatype Bound = Bound(from: string, typeOnly: bool, imported: string)

  function NamesBound(names: seq<Binding>, from: string, typeOnly: bool, name: string): seq<Bound> {
    if names == [] then []
    else
      var prior, last := NamesBound(names[..|names| - 1], from, typeOnly, name), names[|names| - 1];
      if last.local == name then prior + [Bound(from, typeOnly, last.imported)] else prior
  }

  /** Every import of a local name in a header, in order. */
  function Bindings(lines: seq<Line>, name: string): seq<Bound> {
    if lines == [] then []
    else
      var last := lines[|lines| - 1];
      Bindings(lines[..|lines| - 1], name) + NamesBound(last.names, last.from, last.typeOnly, name)
  }

  function BoundOf(use: Use): Bound { Bound(use.from, use.typeOnly, use.binding.imported) }

  function UsesNamed(uses: seq<Use>, name: string): seq<Use> {
    if uses == [] then []
    else
      var prior, last := UsesNamed(uses[..|uses| - 1], name), uses[|uses| - 1];
      if last.binding.local == name then prior + [last] else prior
  }

  lemma {:induction false} BindingsJoin(a: seq<Line>, b: seq<Line>, name: string)
    ensures Bindings(a + b, name) == Bindings(a, name) + Bindings(b, name)
  {
    if b == [] {
      assert a + b == a;
    } else {
      var whole := a + b;
      assert whole[..|whole| - 1] == a + b[..|b| - 1];
      BindingsJoin(a, b[..|b| - 1], name);
    }
  }

  /** A line binds the name when the one use of it is the line's. */
  lemma {:induction false} PickBinds(uses: seq<Use>, from: string, typeOnly: bool, name: string)
    requires |UsesNamed(uses, name)| <= 1
    ensures NamesBound(Pick(uses, from, typeOnly), from, typeOnly, name)
         == if UsesNamed(uses, name) != [] && UsesNamed(uses, name)[0].from == from
               && UsesNamed(uses, name)[0].typeOnly == typeOnly
            then [BoundOf(UsesNamed(uses, name)[0])] else []
  {
    if uses != [] {
      var prior, last := uses[..|uses| - 1], uses[|uses| - 1];
      PickBinds(prior, from, typeOnly, name);
      var picked := Pick(prior, from, typeOnly);
      if last.from == from && last.typeOnly == typeOnly {
        assert (picked + [last.binding])[..|picked|] == picked;
      }
    }
  }

  lemma LineBinds(uses: seq<Use>, from: string, typeOnly: bool, name: string)
    requires |UsesNamed(uses, name)| <= 1
    ensures Bindings(LineOf(uses, from, typeOnly), name)
         == if UsesNamed(uses, name) != [] && UsesNamed(uses, name)[0].from == from
               && UsesNamed(uses, name)[0].typeOnly == typeOnly
            then [BoundOf(UsesNamed(uses, name)[0])] else []
  {
    PickBinds(uses, from, typeOnly, name);
    var line := LineOf(uses, from, typeOnly);
    if line != [] {
      assert line[..0] == [];
    }
  }

  lemma ModuleBinds(from: string, uses: seq<Use>, name: string)
    requires |UsesNamed(uses, name)| <= 1
    ensures Bindings(ModuleLines(uses, from), name)
         == if UsesNamed(uses, name) != [] && UsesNamed(uses, name)[0].from == from
            then [BoundOf(UsesNamed(uses, name)[0])] else []
  {
    LineBinds(uses, from, true, name);
    LineBinds(uses, from, false, name);
    BindingsJoin(LineOf(uses, from, true), LineOf(uses, from, false), name);
  }

  lemma {:induction false} NoLineBinds(modules: seq<string>, uses: seq<Use>, name: string)
    requires UsesNamed(uses, name) == []
    ensures Bindings(LinesOf(modules, uses), name) == []
  {
    if modules != [] {
      var prior, last := modules[..|modules| - 1], modules[|modules| - 1];
      NoLineBinds(prior, uses, name);
      ModuleBinds(last, uses, name);
      BindingsJoin(LinesOf(prior, uses), ModuleLines(uses, last), name);
    }
  }

  function Repeats(modules: seq<string>, use: Use): seq<Bound> {
    if modules == [] then []
    else Repeats(modules[..|modules| - 1], use) + (if modules[|modules| - 1] == use.from then [BoundOf(use)] else [])
  }

  lemma {:induction false} LinesBind(modules: seq<string>, uses: seq<Use>, name: string, use: Use)
    requires UsesNamed(uses, name) == [use]
    ensures Bindings(LinesOf(modules, uses), name) == Repeats(modules, use)
  {
    if modules != [] {
      var prior, last := modules[..|modules| - 1], modules[|modules| - 1];
      LinesBind(prior, uses, name, use);
      ModuleBinds(last, uses, name);
      BindingsJoin(LinesOf(prior, uses), ModuleLines(uses, last), name);
    }
  }

  lemma {:induction false} RepeatsCount(modules: seq<string>, use: Use)
    ensures |Repeats(modules, use)| == multiset(modules)[use.from]
    ensures forall b <- Repeats(modules, use) :: b == BoundOf(use)
  {
    if modules != [] {
      RepeatsCount(modules[..|modules| - 1], use);
      assert modules == modules[..|modules| - 1] + [modules[|modules| - 1]];
    }
  }

  lemma {:induction false} NamedCount(refs: seq<Read>, name: string, r: Read)
    ensures multiset(ReadsNamed(refs, name))[r] == if r.name == name then multiset(refs)[r] else 0
  {
    if refs != [] {
      NamedCount(refs[1..], name, r);
      assert refs == [refs[0]] + refs[1..];
    }
  }

  /** Sorting a list with one read of each name keeps the read of each name. */
  lemma SortedNamed(refs: seq<Read>, name: string)
    requires |ReadsNamed(refs, name)| <= 1
    ensures ReadsNamed(Sort(refs, ReadLe), name) == ReadsNamed(refs, name)
  {
    var a, b := ReadsNamed(refs, name), ReadsNamed(Sort(refs, ReadLe), name);
    SortPermutes(refs, ReadLe);
    forall r ensures multiset(a)[r] == multiset(b)[r] {
      NamedCount(refs, name, r);
      NamedCount(Sort(refs, ReadLe), name, r);
    }
    SameIfSmall(a, b);
  }

  lemma SameIfSmall(a: seq<Read>, b: seq<Read>)
    requires |a| <= 1 && forall r :: multiset(a)[r] == multiset(b)[r]
    ensures a == b
  {
    assert multiset(a) == multiset(b);
    assert |multiset(a)| == |a| && |multiset(b)| == |b|;
    if a != [] {
      assert b[0] in multiset(a);
    }
  }

  lemma {:induction false} ReadsNamedLast(refs: seq<Read>, r: Read, name: string)
    ensures ReadsNamed(refs + [r], name) == ReadsNamed(refs, name) + (if r.name == name then [r] else [])
  {
    if refs == [] {
      assert ([] + [r])[1..] == [];
    } else {
      assert (refs + [r])[1..] == refs[1..] + [r];
      ReadsNamedLast(refs[1..], r, name);
    }
  }

  lemma {:induction false} UsesOfReads(self: string, refs: seq<Read>, symbols: map<string, Symbol>, name: string)
    requires |ReadsNamed(refs, name)| <= 1
    ensures UsesNamed(Uses(self, refs, symbols), name)
         == if ReadsNamed(refs, name) != [] && Needs(self, ReadsNamed(refs, name)[0], symbols)
            then [UseOf(ReadsNamed(refs, name)[0], symbols[ReadsNamed(refs, name)[0].name])] else []
  {
    if refs != [] {
      var prior, last := refs[..|refs| - 1], refs[|refs| - 1];
      assert refs == prior + [last];
      ReadsNamedLast(prior, last, name);
      UsesOfReads(self, prior, symbols, name);
      var uses := Uses(self, prior, symbols);
      if Needs(self, last, symbols) {
        assert (uses + [UseOf(last, symbols[last.name])])[..|uses|] == uses;
      }
      NamedName(prior, name);
    }
  }

  lemma {:induction false} NamedName(refs: seq<Read>, name: string)
    ensures forall r <- ReadsNamed(refs, name) :: r.name == name
  {
    if refs != [] { NamedName(refs[1..], name); }
  }

  lemma {:induction false} UseHasModule(uses: seq<Use>, name: string)
    ensures forall u <- UsesNamed(uses, name) :: u.from in ModulesOf(uses)
  {
    if uses != [] {
      var prior := uses[..|uses| - 1];
      UseHasModule(prior, name);
      var names := ModulesOf(uses);
      assert names[|names| - 1] == uses[|uses| - 1].from;
      assert forall m <- ModulesOf(prior) :: m in names;
    }
  }

  /** The import of a name, as a type unless a value is read under that name. */
  function ImportOf(name: string, symbol: Symbol, onlyType: bool): Bound {
    Bound(symbol.from, symbol.isType || onlyType, if symbol.imported.Some? then symbol.imported.value else name)
  }

  lemma ModulesOnce(uses: seq<Use>, from: string)
    requires from in ModulesOf(uses)
    ensures multiset(Sort(FirstSeen(ModulesOf(uses)), TextLe))[from] == 1
  {
    var modules := FirstSeen(ModulesOf(uses));
    SortPermutes(modules, TextLe);
    FirstSeenOnce(ModulesOf(uses), from);
  }

  lemma OneRepeat(modules: seq<string>, use: Use)
    requires multiset(modules)[use.from] == 1
    ensures Repeats(modules, use) == [BoundOf(use)]
  {
    RepeatsCount(modules, use);
    var repeats := Repeats(modules, use);
    assert repeats[0] in repeats;
  }

  lemma BoundOnce(uses: seq<Use>, name: string, use: Use)
    requires UsesNamed(uses, name) == [use]
    ensures Bindings(LinesOf(Sort(FirstSeen(ModulesOf(uses)), TextLe), uses), name) == [BoundOf(use)]
  {
    UseHasModule(uses, name);
    assert use in UsesNamed(uses, name);
    ModulesOnce(uses, use.from);
    var modules := Sort(FirstSeen(ModulesOf(uses)), TextLe);
    OneRepeat(modules, use);
    LinesBind(modules, uses, name, use);
  }

  /** A header binds each name that is read and comes from elsewhere, once, and no other name. */
  lemma HeaderBinds(self: string, refs: seq<Read>, symbols: map<string, Symbol>, name: string)
    requires Once(refs)
    ensures Bindings(Header(self, refs, symbols), name)
         == if ReadsNamed(refs, name) != [] && name in symbols && symbols[name].from != self
            then [ImportOf(name, symbols[name], ReadsNamed(refs, name)[0].onlyType)] else []
  {
    var sorted := Sort(refs, ReadLe);
    var uses := Uses(self, sorted, symbols);
    assert |ReadsNamed(refs, name)| <= 1;
    SortedNamed(refs, name);
    NamedName(refs, name);
    UsesOfReads(self, sorted, symbols, name);
    if UsesNamed(uses, name) == [] {
      NoLineBinds(Sort(FirstSeen(ModulesOf(uses)), TextLe), uses, name);
    } else {
      BoundOnce(uses, name, UsesNamed(uses, name)[0]);
    }
  }
}
