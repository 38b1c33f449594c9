/** What the contract split promises (`splitContracts` in
    `scripts/migrate/split-contracts.ts`): every statement and member lands in one file,
    and every name a file reads is declared there or imported once from the file that
    declares it. */
module SplitResolution {
  import opened Results
  import opened SplitContracts
  import opened SplitCode
  import opened SplitHeaders

  // ---- What a name means in the single file, once its declarations have a home

  const INDEX := Symbol(Module("index"), true, None)

  ghost predicate GivesIn(s: Statement, home: string, name: string, symbol: Symbol) {
    match s
    case Plain(names, _, _) => exists d <- names :: d.name == name && symbol == Symbol(Module(home), d.isType, None)
    case Import(_, _, specifiers) =>
      exists p <- specifiers :: p.Named? && p.local == name && symbol == SpecifierSymbol(s, p)
    case MapInterface(rpc, _, _, _) => name == MapName(rpc) && symbol == INDEX
    case ReExport(_) => false
  }

  ghost predicate Gives(ss: seq<Statement>, table: Table, i: int, name: string, symbol: Symbol) {
    0 <= i < |ss| && GivesIn(ss[i], Home(ss[..i + 1], table), name, symbol)
  }

  ghost predicate Given(ss: seq<Statement>, table: Table, name: string, symbol: Symbol) {
    exists i :: Gives(ss, table, i, name, symbol)
  }

  /** Every declaration or import of the name agrees on what it is. */
  ghost predicate Means(ss: seq<Statement>, table: Table, name: string, symbol: Symbol) {
    Given(ss, table, name, symbol) && forall other :: Given(ss, table, name, other) ==> other == symbol
  }

  /** The interfaces the split adds, one for each file and map with members. */
  ghost predicate IsDomain(stream: seq<Owned>, name: string) {
    exists file, rpc :: HasGroup(GroupsOf(stream, file), rpc) && name == DomainName(file, rpc)
  }

  lemma GivenStep(prior: seq<Statement>, s: Statement, table: Table, name: string, symbol: Symbol)
    ensures Given(prior + [s], table, name, symbol)
       <==> Given(prior, table, name, symbol) || GivesIn(s, Home(prior + [s], table), name, symbol)
  {
    var ss := prior + [s];
    assert ss[..|ss|] == ss;
    forall i | 0 <= i < |prior| ensures Gives(ss, table, i, name, symbol) == Gives(prior, table, i, name, symbol) {
      assert ss[..i + 1] == prior[..i + 1];
    }
    if Given(prior, table, name, symbol) {
      var i :| Gives(prior, table, i, name, symbol);
      assert Gives(ss, table, i, name, symbol);
    }
    if GivesIn(s, Home(ss, table), name, symbol) {
      assert Gives(ss, table, |prior|, name, symbol);
    }
    if Given(ss, table, name, symbol) {
      var i :| Gives(ss, table, i, name, symbol);
      assert i == |prior| || Gives(prior, table, i, name, symbol);
    }
  }

  // ---- Each table holds only what is given

  lemma {:induction false} NameMapGives(names: seq<Declaration>, from: string, name: string)
    ensures name in NameMap(names, from) <==> exists d <- names :: d.name == name
    ensures name in NameMap(names, from) ==>
      exists d <- names :: d.name == name && NameMap(names, from)[name] == Symbol(from, d.isType, None)
  {
    if names != [] {
      var prior, last := names[..|names| - 1], names[|names| - 1];
      NameMapGives(prior, from, name);
      assert names == prior + [last];
      assert last in names && forall d <- prior :: d in names;
    }
  }

  lemma {:induction false} SpecifierMapGives(s: Statement, ps: seq<Specifier>, name: string)
    requires s.Import? && forall p <- ps :: p.Named?
    ensures name in SpecifierMap(s, ps) <==> exists p <- ps :: p.local == name
    ensures name in SpecifierMap(s, ps) ==>
      exists p <- ps :: p.local == name && SpecifierMap(s, ps)[name] == SpecifierSymbol(s, p)
  {
    if ps != [] {
      var prior, last := ps[..|ps| - 1], ps[|ps| - 1];
      SpecifierMapGives(s, prior, name);
      assert ps == prior + [last];
      assert last in ps && forall p <- prior :: p in ps;
    }
  }

  lemma {:induction false} PieceMapGives(ss: seq<Statement>, table: Table, file: string, name: string)
    ensures var m := PieceMap(PiecesOf(ss, table, file), Module(file));
            name in m ==> Given(ss, table, name, m[name])
  {
    if ss != [] {
      var prior, s := ss[..|ss| - 1], ss[|ss| - 1];
      PieceMapGives(prior, table, file, name);
      assert ss == prior + [s];
      var m, before := PieceMap(PiecesOf(ss, table, file), Module(file)),
          PieceMap(PiecesOf(prior, table, file), Module(file));
      if s.Plain? && Home(ss, table) == file {
        PushPieceMap(PiecesOf(prior, table, file), s, Module(file));
        NameMapGives(s.names, Module(file), name);
      }
      if name in m {
        GivenStep(prior, s, table, name, m[name]);
      }
    }
  }

  lemma PushPieceMap(pieces: seq<Statement>, s: Statement, from: string)
    ensures PieceMap(pieces + [s], from)
         == if s.Plain? then PieceMap(pieces, from) + NameMap(s.names, from) else PieceMap(pieces, from)
  {
    var grown := pieces + [s];
    assert grown[..|grown| - 1] == pieces;
  }

  lemma {:induction false} IndexMapGives(ss: seq<Statement>, table: Table, name: string)
    ensures var m := PieceMap(IndexOf(ss, table), Module("index"));
            name in m ==> Given(ss, table, name, m[name])
  {
    if ss != [] {
      var prior, s := ss[..|ss| - 1], ss[|ss| - 1];
      IndexMapGives(prior, table, name);
      assert ss == prior + [s];
      var m := PieceMap(IndexOf(ss, table), Module("index"));
      if StaysInIndex(ss, table) {
        PushPieceMap(IndexOf(prior, table), s, Module("index"));
        if s.Plain? {
          NameMapGives(s.names, Module("index"), name);
        }
      }
      if name in m {
        GivenStep(prior, s, table, name, m[name]);
      }
    }
  }

  lemma {:induction false} ImportMapGives(ss: seq<Statement>, table: Table, name: string)
    requires AllNamed(ss)
    ensures name in ImportMap(ss) ==> Given(ss, table, name, ImportMap(ss)[name])
  {
    if ss != [] {
      var prior, s := ss[..|ss| - 1], ss[|ss| - 1];
      ImportMapGives(prior, table, name);
      assert ss == prior + [s];
      if s.Import? {
        assert NamesImports(s);
        SpecifierMapGives(s, s.specifiers, name);
      }
      if name in ImportMap(ss) {
        GivenStep(prior, s, table, name, ImportMap(ss)[name]);
      }
    }
  }

  lemma {:induction false} PartsMapGives(files: seq<string>, ss: seq<Statement>, table: Table, name: string)
    ensures name in PartsMap(files, ss, table) ==> Given(ss, table, name, PartsMap(files, ss, table)[name])
    ensures name in PartsMap(files, ss, table)
       <==> exists f <- files :: name in PieceMap(PiecesOf(ss, table, f), Module(f))
  {
    if files != [] {
      var prior, last := files[..|files| - 1], files[|files| - 1];
      PartsMapGives(prior, ss, table, name);
      PieceMapGives(ss, table, last, name);
      assert files == prior + [last];
      assert last in files && forall f <- prior :: f in files;
    }
  }

  lemma {:induction false} GroupMapNames(file: string, groups: seq<Group>, name: string)
    ensures name in GroupMap(file, groups) <==> exists g <- groups :: name == DomainName(file, g.rpc)
    ensures name in GroupMap(file, groups) ==> GroupMap(file, groups)[name] == Symbol(Module(file), true, None)
  {
    if groups != [] {
      var prior, last := groups[..|groups| - 1], groups[|groups| - 1];
      GroupMapNames(file, prior, name);
      assert groups == prior + [last];
      assert last in groups && forall g <- prior :: g in groups;
    }
  }

  lemma {:induction false} DomainMapNames(files: seq<string>, stream: seq<Owned>, name: string)
    ensures name in DomainMap(files, stream) ==> IsDomain(stream, name)
  {
    if files != [] {
      var prior, last := files[..|files| - 1], files[|files| - 1];
      DomainMapNames(prior, stream, name);
      GroupMapNames(last, GroupsOf(stream, last), name);
      if name in GroupMap(last, GroupsOf(stream, last)) {
        var g :| g in GroupsOf(stream, last) && name == DomainName(last, g.rpc);
        assert HasGroup(GroupsOf(stream, last), g.rpc);
      }
    }
  }

  // ---- And what is given is in a table

  lemma {:induction false} GivenIsNamed(ss: seq<Statement>, table: Table, name: string, symbol: Symbol)
    requires AllNamed(ss) && Given(ss, table, name, symbol)
    ensures || name in ImportMap(ss)
            || (exists f <- PieceHomes(ss, table) :: name in PieceMap(PiecesOf(ss, table, f), Module(f)))
            || name in MapsMap()
            || name in PieceMap(IndexOf(ss, table), Module("index"))
  {
    var prior, s := ss[..|ss| - 1], ss[|ss| - 1];
    assert ss == prior + [s];
    assert forall t <- prior :: t in ss;
    GivenStep(prior, s, table, name, symbol);
    if Given(prior, table, name, symbol) {
      GivenIsNamed(prior, table, name, symbol);
      KeptNames(prior, s, table, name);
    } else {
      NamedByLast(prior, s, table, name, symbol);
    }
  }

  /** A further statement takes no name out of a table. */
  lemma KeptNames(prior: seq<Statement>, s: Statement, table: Table, name: string)
    requires AllNamed(prior + [s]) && AllNamed(prior)
    ensures name in ImportMap(prior) ==> name in ImportMap(prior + [s])
    ensures forall f | name in PieceMap(PiecesOf(prior, table, f), Module(f)) ::
              name in PieceMap(PiecesOf(prior + [s], table, f), Module(f))
    ensures forall f <- PieceHomes(prior, table) :: f in PieceHomes(prior + [s], table)
    ensures name in PieceMap(IndexOf(prior, table), Module("index")) ==>
            name in PieceMap(IndexOf(prior + [s], table), Module("index"))
  {
    assert s in prior + [s];
    PushImport(prior, s);
    PushLanding(prior, table, s);
    PushTop(prior, table, s);
    PushPieceMap(IndexOf(prior, table), s, Module("index"));
    forall f | name in PieceMap(PiecesOf(prior, table, f), Module(f))
      ensures name in PieceMap(PiecesOf(prior + [s], table, f), Module(f))
    {
      PushPiece(prior, table, s, f);
      PushPieceMap(PiecesOf(prior, table, f), s, Module(f));
    }
  }

  lemma NamedByLast(prior: seq<Statement>, s: Statement, table: Table, name: string, symbol: Symbol)
    requires AllNamed(prior + [s]) && AllNamed(prior)
    requires GivesIn(s, Home(prior + [s], table), name, symbol)
    ensures var ss := prior + [s];
            || name in ImportMap(ss)
            || (exists f <- PieceHomes(ss, table) :: name in PieceMap(PiecesOf(ss, table, f), Module(f)))
            || name in MapsMap()
            || name in PieceMap(IndexOf(ss, table), Module("index"))
  {
    var ss := prior + [s];
    assert s in ss;
    if s.Import? {
      PushImport(prior, s);
      SpecifierMapGives(s, s.specifiers, name);
    } else if s.Plain? {
      var home := Home(ss, table);
      NameMapGives(s.names, Module(home), name);
      if home == "index" {
        PushTop(prior, table, s);
        PushPieceMap(IndexOf(prior, table), s, Module("index"));
      } else {
        PushLanding(prior, table, s);
        PushPiece(prior, table, s, home);
        PushPieceMap(PiecesOf(prior, table, home), s, Module(home));
        assert home in PieceHomes(ss, table);
      }
    }
  }

  /** The table of names gives a name its one meaning. */
  lemma SymbolIsMeaning(ss: seq<Statement>, table: Table, name: string, symbol: Symbol)
    requires AllNamed(ss) && Means(ss, table, name, symbol)
    requires !IsDomain(Stream(ss, table), name)
    requires name in MapsMap() ==> symbol == INDEX
    ensures name in Symbols(ss, table) && Symbols(ss, table)[name] == symbol
  {
    var partFiles := FirstSeen(PieceHomes(ss, table));
    GivenIsNamed(ss, table, name, symbol);
    ImportMapGives(ss, table, name);
    PartsMapGives(partFiles, ss, table, name);
    DomainMapNames(FirstSeen(Owners(Stream(ss, table))), Stream(ss, table), name);
    IndexMapGives(ss, table, name);
    if f :| f in PieceHomes(ss, table) && name in PieceMap(PiecesOf(ss, table, f), Module(f)) {
      FirstSeenKeeps(PieceHomes(ss, table), f);
      assert f in partFiles;
    }
  }

  /** And it names nothing else. */
  lemma SymbolIsGiven(ss: seq<Statement>, table: Table, name: string)
    requires AllNamed(ss) && name in Symbols(ss, table)
    ensures || Given(ss, table, name, Symbols(ss, table)[name])
            || IsDomain(Stream(ss, table), name)
            || name in MapsMap()
  {
    ImportMapGives(ss, table, name);
    PartsMapGives(FirstSeen(PieceHomes(ss, table)), ss, table, name);
    DomainMapNames(FirstSeen(Owners(Stream(ss, table))), Stream(ss, table), name);
    IndexMapGives(ss, table, name);
  }

  // ---- Every statement and member lands once, in source order

  predicate Declares(s: Statement, name: string) {
    s.Plain? && exists d <- s.names :: d.name == name
  }

  /** The positions of the plain statements whose home is the file. */
  function Positions(ss: seq<Statement>, table: Table, file: string): seq<nat> {
    if ss == [] then []
    else
      var prior := Positions(ss[..|ss| - 1], table, file);
      if ss[|ss| - 1].Plain? && Home(ss, table) == file then prior + [|ss| - 1] else prior
  }

  ghost predicate Rising(places: seq<nat>) {
    forall a, b :: 0 <= a < b < |places| ==> places[a] < places[b]
  }

  predicate LivesIn(ss: seq<Statement>, table: Table, file: string, i: nat) {
    i < |ss| && ss[i].Plain? && Home(ss[..i + 1], table) == file
  }

  /** A file holds the plain statements that live in it, all of them, once and in source order. */
  lemma {:induction false} PiecesInOrder(ss: seq<Statement>, table: Table, file: string)
    ensures var places, pieces := Positions(ss, table, file), PiecesOf(ss, table, file);
      && Rising(places)
      && (forall i :: i in places <==> LivesIn(ss, table, file, i))
      && |pieces| == |places|
      && forall k :: 0 <= k < |places| ==> places[k] < |ss| && pieces[k] == ss[places[k]]
  {
    if ss != [] {
      var n := |ss| - 1;
      var prior := ss[..n];
      PiecesInOrder(prior, table, file);
      forall i: nat ensures LivesIn(ss, table, file, i)
        <==> LivesIn(prior, table, file, i) || (i == n && ss[n].Plain? && Home(ss, table) == file)
      {
        if i < n {
          assert prior[..i + 1] == ss[..i + 1];
        } else if i == n {
          assert ss[..i + 1] == ss;
        }
      }
    }
  }

  /** Its one home is a file that is written. */
  lemma {:induction false} HomeIsWritten(ss: seq<Statement>, table: Table, i: nat)
    requires i < |ss| && ss[i].Plain?
    ensures Home(ss[..i + 1], table) == "index" || Home(ss[..i + 1], table) in Files(ss, table)
  {
    HomeLands(ss, table, i);
    FirstSeenKeeps(Landings(ss, table), Home(ss[..i + 1], table));
  }

  lemma {:induction false} HomeLands(ss: seq<Statement>, table: Table, i: nat)
    requires i < |ss| && ss[i].Plain?
    ensures Home(ss[..i + 1], table) == "index" || Home(ss[..i + 1], table) in Landings(ss, table)
  {
    var n := |ss| - 1;
    if i < n {
      assert ss[..n][..i + 1] == ss[..i + 1];
      HomeLands(ss[..n], table, i);
    } else {
      assert ss[..i + 1] == ss;
    }
  }

  function Plains(index: seq<Statement>): seq<Statement> {
    if index == [] then []
    else
      var prior, last := Plains(index[..|index| - 1]), index[|index| - 1];
      if last.Plain? then prior + [last] else prior
  }

  function KeptPlains(composed: seq<Composed>): seq<Statement> {
    if composed == [] then []
    else
      var prior, last := KeptPlains(composed[..|composed| - 1]), composed[|composed| - 1];
      if last.Kept? && last.statement.Plain? then prior + [last.statement] else prior
  }

  /** The index keeps the plain statements that live there, all of them, in source order. */
  lemma {:induction false} IndexKeepsItsOwn(ss: seq<Statement>, table: Table, refs: seq<Read>, files: seq<string>,
        stream: seq<Owned>)
    ensures KeptPlains(Compose(IndexOf(ss, table), refs, files, stream)) == PiecesOf(ss, table, "index")
  {
    IndexPlains(ss, table);
    ComposeKeepsPlains(IndexOf(ss, table), refs, files, stream);
  }

  lemma {:induction false} IndexPlains(ss: seq<Statement>, table: Table)
    ensures Plains(IndexOf(ss, table)) == PiecesOf(ss, table, "index")
  {
    if ss != [] {
      var prior, s := ss[..|ss| - 1], ss[|ss| - 1];
      IndexPlains(prior, table);
      var index := IndexOf(prior, table);
      assert (index + [s])[..|index|] == index;
    }
  }

  lemma {:induction false} ComposeKeepsPlains(index: seq<Statement>, refs: seq<Read>, files: seq<string>,
        stream: seq<Owned>)
    ensures KeptPlains(Compose(index, refs, files, stream)) == Plains(index)
  {
    if index != [] {
      var prior, last := index[..|index| - 1], index[|index| - 1];
      ComposeKeepsPlains(prior, refs, files, stream);
      PushComposed(Compose(prior, refs, files, stream), Kept(last));
      if last.MapInterface? {
        PushComposed(Compose(prior, refs, files, stream), Extends(last.rpc, Parents(last, files, stream)));
      }
    }
  }

  lemma PushComposed(composed: seq<Composed>, c: Composed)
    ensures KeptPlains(composed + [c])
         == if c.Kept? && c.statement.Plain? then KeptPlains(composed) + [c.statement] else KeptPlains(composed)
  {
    var grown := composed + [c];
    assert grown[..|grown| - 1] == composed;
  }

  /** The members of one map that a file owns, in source order. */
  function MembersFor(stream: seq<Owned>, file: string, rpc: RpcMap): seq<Member> {
    if stream == [] then []
    else
      var prior, last := MembersFor(stream[..|stream| - 1], file, rpc), stream[|stream| - 1];
      if last.owner == file && last.rpc == rpc then prior + [last.member] else prior
  }

  function MembersOf(groups: seq<Group>, rpc: RpcMap): seq<Member> {
    if groups == [] then [] else (if groups[0].rpc == rpc then groups[0].members else []) + MembersOf(groups[1..], rpc)
  }

  ghost predicate OnePerMap(groups: seq<Group>) {
    groups != [] ==> (forall g <- groups[1..] :: g.rpc != groups[0].rpc) && OnePerMap(groups[1..])
  }

  lemma {:induction false} AddMemberAdds(groups: seq<Group>, rpc: RpcMap, member: Member, other: RpcMap)
    requires OnePerMap(groups)
    ensures MembersOf(AddMember(groups, rpc, member), other)
         == if rpc == other then MembersOf(groups, other) + [member] else MembersOf(groups, other)
  {
    if groups != [] {
      var rest := groups[1..];
      if groups[0].rpc == rpc {
        NoMembers(rest, rpc);
        assert ([Group(rpc, groups[0].members + [member])] + rest)[1..] == rest;
      } else {
        AddMemberAdds(rest, rpc, member, other);
        assert ([groups[0]] + AddMember(rest, rpc, member))[1..] == AddMember(rest, rpc, member);
      }
    }
  }

  lemma {:induction false} AddMemberMaps(groups: seq<Group>, rpc: RpcMap, member: Member)
    requires OnePerMap(groups)
    ensures OnePerMap(AddMember(groups, rpc, member))
    ensures forall g <- AddMember(groups, rpc, member) :: g.rpc == rpc || HasGroup(groups, g.rpc)
  {
    if groups != [] {
      var rest := groups[1..];
      var added := if groups[0].rpc == rpc then rest else AddMember(rest, rpc, member);
      var first := if groups[0].rpc == rpc then Group(rpc, groups[0].members + [member]) else groups[0];
      assert AddMember(groups, rpc, member) == [first] + added;
      assert ([first] + added)[1..] == added;
      assert groups[0] in groups && forall g <- rest :: g in groups;
      if groups[0].rpc != rpc {
        AddMemberMaps(rest, rpc, member);
        forall g | g in added ensures g.rpc != first.rpc && (g.rpc == rpc || HasGroup(groups, g.rpc)) {
          if g.rpc != rpc {
            var h :| h in rest && h.rpc == g.rpc;
          }
        }
      }
    } else {
      assert AddMember(groups, rpc, member)[1..] == [];
    }
  }

  lemma {:induction false} NoMembers(groups: seq<Group>, rpc: RpcMap)
    requires forall g <- groups :: g.rpc != rpc
    ensures MembersOf(groups, rpc) == []
  {
    if groups != [] { NoMembers(groups[1..], rpc); }
  }

  /** A file's interfaces hold the members it owns, all of them, once and in source order,
      one interface for each map. */
  lemma {:induction false} MembersInOrder(stream: seq<Owned>, file: string, rpc: RpcMap)
    ensures MembersOf(GroupsOf(stream, file), rpc) == MembersFor(stream, file, rpc)
    ensures OnePerMap(GroupsOf(stream, file))
  {
    if stream != [] {
      var prior, last := stream[..|stream| - 1], stream[|stream| - 1];
      MembersInOrder(prior, file, rpc);
      if last.owner == file {
        AddMemberAdds(GroupsOf(prior, file), last.rpc, last.member, rpc);
        AddMemberMaps(GroupsOf(prior, file), last.rpc, last.member);
      }
    }
  }

  /** Every member's owner is a split file. */
  lemma {:induction false} OwnerIsWritten(ss: seq<Statement>, table: Table, o: Owned)
    requires AllOwned(ss, table) && o in Stream(ss, table)
    ensures o.owner in Files(ss, table) && o.owner != "index"
  {
    OwnerListed(Stream(ss, table), o);
    PushedLandings(ss, table, o.owner);
    FirstSeenKeeps(Landings(ss, table), o.owner);
    NeverIndex(ss, table);
  }

  lemma {:induction false} OwnerListed(stream: seq<Owned>, o: Owned)
    requires o in stream
    ensures o.owner in Owners(stream)
  {
    var prior, last := stream[..|stream| - 1], stream[|stream| - 1];
    assert Owners(stream)[|stream| - 1] == last.owner;
    if o in prior {
      OwnerListed(prior, o);
    } else {
      assert o == last;
    }
  }

  // ---- Names resolve in a split file

  /** The single file imports nothing from a file the split writes. */
  predicate NoClash(ss: seq<Statement>, table: Table) {
    forall s <- ss | s.Import? :: s.from != Module("index") && forall f <- Files(ss, table) :: s.from != Module(f)
  }

  lemma {:induction false} PieceMapNames(pieces: seq<Statement>, from: string, name: string)
    ensures name in PieceMap(pieces, from) <==> exists s <- pieces :: Declares(s, name)
  {
    if pieces != [] {
      var prior, last := pieces[..|pieces| - 1], pieces[|pieces| - 1];
      PieceMapNames(prior, from, name);
      assert pieces == prior + [last];
      assert last in pieces && forall s <- prior :: s in pieces;
      if last.Plain? {
        NameMapGives(last.names, from, name);
      }
    }
  }

  lemma PieceLands(ss: seq<Statement>, table: Table, i: nat)
    requires i < |ss| && ss[i].Plain?
    ensures ss[i] in PiecesOf(ss, table, Home(ss[..i + 1], table))
  {
    var file := Home(ss[..i + 1], table);
    PiecesInOrder(ss, table, file);
    assert LivesIn(ss, table, file, i);
    var k :| 0 <= k < |Positions(ss, table, file)| && Positions(ss, table, file)[k] == i;
    assert PiecesOf(ss, table, file)[k] == ss[i];
  }

  lemma ModuleIsFile(a: string, b: string)
    requires Module(a) == Module(b)
    ensures a == b
  {
    assert Module(a)[2..] == a && Module(b)[2..] == b;
  }

  /** A name means something of a split file exactly when a statement there declares it. */
  lemma MeantByFile(ss: seq<Statement>, table: Table, file: string, name: string, symbol: Symbol)
    requires Splits(ss, table) && NoClash(ss, table) && Means(ss, table, name, symbol)
    requires file in Files(ss, table)
    ensures symbol.from == Module(file) <==> exists s <- PiecesOf(ss, table, file) :: Declares(s, name)
  {
    var pieces := PiecesOf(ss, table, file);
    PieceMapNames(pieces, Module(file), name);
    PieceMapGives(ss, table, file, name);
    if name in PieceMap(pieces, Module(file)) {
      PieceMapFrom(pieces, Module(file), name);
    }
    if symbol.from == Module(file) {
      var i :| Gives(ss, table, i, name, symbol);
      assert ss[i] in ss;
      NeverIndex(ss, table);
      FirstSeenKeeps(Landings(ss, table), file);
      if ss[i].Plain? {
        ModuleIsFile(Home(ss[..i + 1], table), file);
        PieceLands(ss, table, i);
        assert Declares(ss[i], name);
      } else if ss[i].MapInterface? {
        ModuleIsFile("index", file);
        assert false;
      }
    }
  }

  lemma {:induction false} PieceMapFrom(pieces: seq<Statement>, from: string, name: string)
    requires name in PieceMap(pieces, from)
    ensures PieceMap(pieces, from)[name].from == from
  {
    var prior, last := pieces[..|pieces| - 1], pieces[|pieces| - 1];
    if last.Plain? {
      NameMapGives(last.names, from, name);
    }
    if !last.Plain? || name !in NameMap(last.names, from) {
      PieceMapFrom(prior, from, name);
    }
  }

  /** Every name a split file reads and the single file knew is declared there and not imported, or
      imported once from where it is declared now: as a value when a value is read under it. */
  lemma SplitFileResolves(ss: seq<Statement>, table: Table, file: string, name: string, symbol: Symbol)
    requires Splits(ss, table) && NoClash(ss, table) && file in Files(ss, table)
    requires Means(ss, table, name, symbol)
    requires !IsDomain(Stream(ss, table), name) && (name in MapsMap() ==> symbol == INDEX)
    requires Noted(RawReads(FileOf(ss, table, file).pieces, FileOf(ss, table, file).maps), name)
    ensures var f := FileOf(ss, table, file);
      if exists s <- f.pieces :: Declares(s, name) then Bindings(f.header, name) == []
      else Bindings(f.header, name) == [ImportOf(name, symbol, !ValueRead(RawReads(f.pieces, f.maps), name))]
  {
    var f := FileOf(ss, table, file);
    FileReadsAre(f.pieces, f.maps);
    var refs := FileReads(f.pieces, f.maps);
    assert ReadsNamed(refs, name) == Summary(RawReads(f.pieces, f.maps), name);
    assert Once(refs);
    SymbolIsMeaning(ss, table, name, symbol);
    HeaderBinds(Module(file), refs, Symbols(ss, table), name);
    MeantByFile(ss, table, file, name, symbol);
  }

  /** A split file imports no name that the single file did not know. */
  lemma SplitFileImportsKnown(ss: seq<Statement>, table: Table, file: string, name: string)
    requires Splits(ss, table) && Bindings(FileOf(ss, table, file).header, name) != []
    ensures || (exists symbol :: Given(ss, table, name, symbol))
            || IsDomain(Stream(ss, table), name)
            || name in MapsMap()
    ensures Noted(RawReads(FileOf(ss, table, file).pieces, FileOf(ss, table, file).maps), name)
  {
    var f := FileOf(ss, table, file);
    FileReadsAre(f.pieces, f.maps);
    var refs := FileReads(f.pieces, f.maps);
    assert ReadsNamed(refs, name) == Summary(RawReads(f.pieces, f.maps), name);
    assert Once(refs);
    HeaderBinds(Module(file), refs, Symbols(ss, table), name);
    SymbolIsGiven(ss, table, name);
  }
}
