/** Where the imports of the index that `splitContracts` leaves fall short
    (`scripts/migrate/split-contracts.ts`): names in the type arguments of a map's parents,
    and values that are parents. */
module SplitGaps {
  import opened Results
  import opened SplitContracts
  import opened SplitCode
  import opened SplitHeaders
  import opened SplitResolution
  import opened SplitIndex

  // ---- Every name the text of the index mentions

  /** Some parent of a map in the index has the name in its type arguments. */
  predicate IsArgument(index: seq<Statement>, name: string) {
    exists s <- index :: s.MapInterface? && exists p <- s.parents :: Noted(p.arguments, name)
  }

  predicate Mentions(ss: seq<Statement>, table: Table, name: string) {
    ReadAtIndex(ss, table, name) || IsArgument(IndexOf(ss, table), name)
  }

  predicate ReadAtIndex(ss: seq<Statement>, table: Table, name: string) {
    ReadInIndex(IndexOf(ss, table), Files(ss, table), Stream(ss, table), name)
  }

  /** The single file knew the name, and all it says of it agrees. */
  ghost predicate Known(ss: seq<Statement>, table: Table, name: string, symbol: Symbol) {
    && Means(ss, table, name, symbol)
    && !IsDomain(Stream(ss, table), name)
    && (name in MapsMap() ==> symbol == INDEX)
  }

  /** The written index declares the name, keeps a statement that imports it, or imports it once itself. */
  predicate Resolved(ss: seq<Statement>, x: IndexFile, name: string) {
    || IndexDeclares(x, name)
    || (exists s <- ss :: Imports(s, name) && KeepsImport(x, s))
    || |Bindings(x.header, name)| == 1
  }

  /** Some name that the statement imports is read in the index. */
  predicate ImportRead(ss: seq<Statement>, table: Table, s: Statement) {
    s.Import? && exists p <- s.specifiers :: ReadAtIndex(ss, table, p.local)
  }

  /** What resolves a name depends on where it comes from: a split file's must itself be read, an imported one
      needs a name of the same import to be read, and the index's own always resolve. */
  predicate Reached(ss: seq<Statement>, table: Table, name: string, symbol: Symbol) {
    if FromSplitFile(symbol, Files(ss, table)) then ReadAtIndex(ss, table, name)
    else symbol.from == Module("index") || exists s <- ss :: Imports(s, name) && ImportRead(ss, table, s)
  }

  // ---- What the index keeps, it uses

  lemma {:induction false} KeptIsUsed(top: seq<Statement>, refs: seq<Read>, s: Statement)
    requires s in KeepUsed(top, refs)
    ensures s in top && Used(s, refs)
  {
    var prior, last := top[..|top| - 1], top[|top| - 1];
    if s in KeepUsed(prior, refs) {
      KeptIsUsed(prior, refs, s);
    } else {
      assert s == last;
    }
  }

  lemma {:induction false} ComposedIsUsed(
      index: seq<Statement>, refs: seq<Read>, files: seq<string>, stream: seq<Owned>, c: Composed)
    requires c in Compose(index, refs, files, stream)
    ensures c.Kept? ==> c.statement in index && Used(c.statement, refs)
    ensures c.Extends? ==> exists s <- index :: s.MapInterface? && s.rpc == c.rpc
  {
    var prior, last := index[..|index| - 1], index[|index| - 1];
    if c in Compose(prior, refs, files, stream) {
      ComposedIsUsed(prior, refs, files, stream, c);
      if c.Extends? {
        var s :| s in prior && s.MapInterface? && s.rpc == c.rpc;
        assert s in index;
      }
    } else {
      assert last in index;
    }
  }

  lemma {:induction false} FromSource(ss: seq<Statement>, table: Table, s: Statement)
    ensures s in Top(ss) ==> s in ss
    ensures s in IndexOf(ss, table) ==> s in ss
  {
    if ss != [] { FromSource(ss[..|ss| - 1], table, s); }
  }

  /** An import statement stays in the index exactly when a name it imports is read there. */
  lemma ImportKeptIff(ss: seq<Statement>, table: Table, s: Statement)
    requires AllNamed(ss) && s in ss && s.Import?
    ensures KeepsImport(IndexFileOf(ss, table), s) <==> ImportRead(ss, table, s)
  {
    var index, files, stream := IndexOf(ss, table), Files(ss, table), Stream(ss, table);
    var refs := IndexReads(index, files, stream);
    assert Used(s, refs) <==> ImportRead(ss, table, s) by {
      forall p | p in s.specifiers ensures Noted(refs, p.local) <==> ReadAtIndex(ss, table, p.local) {
        NotedIsRead(index, files, stream, p.local);
      }
    }
    if KeepsImport(IndexFileOf(ss, table), s) {
      if s in KeepUsed(Top(ss), refs) {
        KeptIsUsed(Top(ss), refs, s);
      } else {
        ComposedIsUsed(index, refs, files, stream, Kept(s));
      }
    }
    if Used(s, refs) {
      ModuleStays(ss, table, s);
      if s in index {
        ComposeKeeps(index, refs, files, stream, s);
      } else {
        KeepUsedKeeps(Top(ss), refs, s);
      }
    }
  }

  lemma NotedIsRead(index: seq<Statement>, files: seq<string>, stream: seq<Owned>, name: string)
    ensures Noted(IndexReads(index, files, stream), name) <==> ReadInIndex(index, files, stream, name)
  {
    var refs := IndexReads(index, files, stream);
    IndexReadsAre(index, files, stream, name);
    NotedIsNamed(refs, name);
    NamedIsNoted(refs, name);
  }

  lemma {:induction false} NamedIsNoted(refs: seq<Read>, name: string)
    ensures Noted(refs, name) ==> ReadsNamed(refs, name) != []
  {
    if refs != [] && refs[0].name != name { NamedIsNoted(refs[1..], name); }
  }

  // ---- What the index declares is its own

  lemma DeclaredIsGiven(ss: seq<Statement>, table: Table, name: string)
    requires AllNamed(ss) && IndexDeclares(IndexFileOf(ss, table), name)
    ensures exists symbol: Symbol :: symbol.from == Module("index") && Given(ss, table, name, symbol)
  {
    var index, files, stream := IndexOf(ss, table), Files(ss, table), Stream(ss, table);
    var refs, x := IndexReads(index, files, stream), IndexFileOf(ss, table);
    if c :| c in x.composed && c.Kept? && Declares(c.statement, name) {
      ComposedIsUsed(index, refs, files, stream, c);
      PieceMapNames(index, Module("index"), name);
      IndexMapGives(ss, table, name);
      PieceMapFrom(index, Module("index"), name);
    } else {
      var c :| c in x.composed && c.Extends? && MapName(c.rpc) == name;
      ComposedIsUsed(index, refs, files, stream, c);
      var s :| s in index && s.MapInterface? && s.rpc == c.rpc;
      FromSource(ss, table, s);
      var i :| 0 <= i < |ss| && ss[i] == s;
      assert Gives(ss, table, i, name, INDEX);
    }
  }

  lemma OwnIsDeclared(ss: seq<Statement>, table: Table, name: string, symbol: Symbol)
    requires AllNamed(ss) && NoClash(ss, table) && Given(ss, table, name, symbol) && symbol.from == Module("index")
    ensures IndexDeclares(IndexFileOf(ss, table), name)
  {
    var index, files, stream := IndexOf(ss, table), Files(ss, table), Stream(ss, table);
    var refs := IndexReads(index, files, stream);
    var i :| Gives(ss, table, i, name, symbol);
    var s := ss[i];
    assert s in ss;
    if s.Plain? {
      ModuleIsFile(Home(ss[..i + 1], table), "index");
      HomeStays(ss, table, i);
      ComposeKeeps(index, refs, files, stream, s);
      assert Declares(s, name);
    } else if s.MapInterface? {
      MapStays(ss, table, s);
      ComposeKeeps(index, refs, files, stream, s);
    }
  }

  lemma ImportGives(ss: seq<Statement>, table: Table, s: Statement, name: string)
    requires AllNamed(ss) && s in ss && Imports(s, name)
    ensures exists symbol: Symbol :: symbol.from == s.from && Given(ss, table, name, symbol)
  {
    var i :| 0 <= i < |ss| && ss[i] == s;
    var p :| p in s.specifiers && p.local == name;
    assert NamesImports(s);
    assert Gives(ss, table, i, name, SpecifierSymbol(s, p));
  }

  // ---- Exactly when a name resolves

  /** For every name the single file knew: it resolves in the index exactly when it is reached there. */
  lemma ResolvedIffReached(ss: seq<Statement>, table: Table, name: string, symbol: Symbol)
    requires Splits(ss, table) && NoClash(ss, table) && Known(ss, table, name, symbol)
    ensures Resolved(ss, IndexFileOf(ss, table), name) <==> Reached(ss, table, name, symbol)
  {
    var x, files := IndexFileOf(ss, table), Files(ss, table);
    SymbolIsMeaning(ss, table, name, symbol);
    IndexImports(ss, table, name, symbol);
    forall s | s in ss && Imports(s, name)
      ensures (KeepsImport(x, s) <==> ImportRead(ss, table, s)) && s.from == symbol.from
    {
      ImportKeptIff(ss, table, s);
      ImportGives(ss, table, s, name);
    }
    if IndexDeclares(x, name) { DeclaredIsGiven(ss, table, name); }
    if symbol.from == Module("index") { OwnIsDeclared(ss, table, name, symbol); }
    if FromSplitFile(symbol, files) {
      NotFromIndex(ss, table, symbol);
      var f :| f in files && symbol.from == Module(f);
      assert forall s | s in ss && s.Import? :: s.from != Module(f);
    }
  }

  lemma NotFromIndex(ss: seq<Statement>, table: Table, symbol: Symbol)
    requires AllOwned(ss, table) && FromSplitFile(symbol, Files(ss, table))
    ensures symbol.from != Module("index")
  {
    var f :| f in Files(ss, table) && symbol.from == Module(f);
    NeverIndex(ss, table);
    FirstSeenKeeps(Landings(ss, table), f);
    if symbol.from == Module("index") { ModuleIsFile(f, "index"); }
  }

  /** A name that the index reads is reached. */
  lemma ReadIsReached(ss: seq<Statement>, table: Table, name: string, symbol: Symbol)
    requires Splits(ss, table) && Known(ss, table, name, symbol) && ReadAtIndex(ss, table, name)
    ensures Reached(ss, table, name, symbol)
  {
    var i :| Gives(ss, table, i, name, symbol);
    if ss[i].Plain? {
      HomeIsWritten(ss, table, i);
    } else if ss[i].Import? {
      assert Imports(ss[i], name) && ss[i] in ss;
    }
  }

  /** A name that is reached, read or only in type arguments, is imported once from the split file that declares it
      now, or declared in the index or imported there by a statement the index keeps. */
  lemma ReachedResolves(ss: seq<Statement>, table: Table, name: string, symbol: Symbol)
    requires Splits(ss, table) && NoClash(ss, table) && Known(ss, table, name, symbol)
    requires Reached(ss, table, name, symbol)
    ensures var x, files := IndexFileOf(ss, table), Files(ss, table);
      if FromSplitFile(symbol, files) then
        && Bindings(x.header, name)
           == [ImportOf(name, symbol, !ValueStands(IndexOf(ss, table), files, Stream(ss, table), name))]
        && exists f <- files :: symbol.from == Module(f) && exists s <- FileOf(ss, table, f).pieces :: Declares(s, name)
      else
        && Bindings(x.header, name) == []
        && (IndexDeclares(x, name) || exists s <- ss :: Imports(s, name) && KeepsImport(x, s))
  {
    if FromSplitFile(symbol, Files(ss, table)) {
      IndexResolves(ss, table, name, symbol);
    } else {
      SymbolIsMeaning(ss, table, name, symbol);
      IndexImports(ss, table, name, symbol);
      ResolvedIffReached(ss, table, name, symbol);
    }
  }

  /** Every name the index mentions resolves exactly when those in type arguments are reached. */
  lemma IndexResolvesIff(ss: seq<Statement>, table: Table)
    requires Splits(ss, table) && NoClash(ss, table)
    ensures (forall name, symbol | Mentions(ss, table, name) && Known(ss, table, name, symbol) ::
               Resolved(ss, IndexFileOf(ss, table), name))
       <==> (forall name, symbol | IsArgument(IndexOf(ss, table), name) && Known(ss, table, name, symbol) ::
               Reached(ss, table, name, symbol))
  {
    forall name, symbol | Known(ss, table, name, symbol)
      ensures Resolved(ss, IndexFileOf(ss, table), name) <==> Reached(ss, table, name, symbol)
      ensures ReadAtIndex(ss, table, name) ==> Reached(ss, table, name, symbol)
    {
      ResolvedIffReached(ss, table, name, symbol);
      if ReadAtIndex(ss, table, name) { ReadIsReached(ss, table, name, symbol); }
    }
  }

  // ---- Inputs that fall short

  /** The one member of the map; its namespace is `x`. */
  function Method(text: string): Member { Member("x.y", [], text) }

  /** `interface RpcMethods extends <parent> { 'x.y': ... }`. */
  function Methods(parent: Parent, text: string): Statement {
    MapInterface(RpcMethods, [parent], [Method(text)], "")
  }

  function Declare(name: string, isType: bool, refs: seq<Read>, text: string): Statement {
    Plain([Declaration(name, isType)], refs, text)
  }

  lemma MethodOwner(text: string, namespaces: map<string, string>)
    requires namespaces == map["x" := "a"]
    ensures OwnedBy(RpcMethods, [Method(text)], namespaces) == [Owned(RpcMethods, Method(text), "a")]
  {
    var key := "x.y";
    assert key[1..][0] == '.' && BeforeDot(key[1..]) == "" && BeforeDot(key) == "x";
    assert [Method(text)][..0] == [];
    assert Owner([Method(text)], namespaces) == "a";
  }

  /** Two statements above the map, of which the second may live in `a`. */
  lemma MethodsLand(first: Statement, second: Statement, parent: Parent, text: string, table: Table)
    requires table.namespaces == map["x" := "a"]
    requires !first.MapInterface? && !second.MapInterface?
    requires Home([first], table) == "index" && Home([first, second], table) in ["index", "a"]
    ensures Files([first, second, Methods(parent, text)], table) == ["a"]
  {
    var map_ := Methods(parent, text);
    MethodOwner(text, table.namespaces);
    var owned := [Owned(RpcMethods, Method(text), "a")];
    assert [] + [first] == [first] && [first] + [second] == [first, second];
    assert [first, second] + [map_] == [first, second, map_];
    PushLanding([], table, first);
    PushLanding([first], table, second);
    PushLanding([first, second], table, map_);
    assert owned[..0] == [] && Owners(owned) == ["a"];
    assert Landings([first], table) == [];
    var early := Landings([first, second], table);
    assert early == [] || early == ["a"];
    assert Landings([first, second, map_], table) == early + ["a"];
    assert ["a"][..0] == [] && FirstSeen(["a"]) == ["a"];
    assert (["a"] + ["a"])[..1] == ["a"];
  }

  lemma {:induction false} DomainsAreLong(files: seq<string>, stream: seq<Owned>, rpc: RpcMap)
    ensures forall name <- Domains(files, stream, rpc) :: |name| >= 9
  {
    if files != [] { DomainsAreLong(files[..|files| - 1], stream, rpc); }
  }

  /** Short names are neither added interfaces nor maps, and the map reads only its parent of them. */
  lemma ShortNames(parent: Parent, text: string, files: seq<string>, stream: seq<Owned>, name: string)
    requires |name| < 9
    ensures !IsDomain(stream, name) && name !in MapsMap()
    ensures Names(Methods(parent, text), files, stream, name) <==> name == parent.name
  {
    DomainsAreLong(files, stream, RpcMethods);
    assert forall file, rpc :: |DomainName(file, rpc)| >= 9;
    assert [parent][..0] == [] && ParentNames([parent]) == [parent.name];
    assert parent.name in Parents(Methods(parent, text), files, stream);
  }

  /** Nothing but the map could be refused, and it is not. */
  lemma MethodsSplit(first: Statement, second: Statement, parent: Parent, text: string, table: Table)
    requires table.namespaces == map["x" := "a"]
    requires HasAnchors([first, second, Methods(parent, text)], table)
    requires !first.MapInterface? && !second.MapInterface? && NamesImports(first) && NamesImports(second)
    ensures Splits([first, second, Methods(parent, text)], table)
  {
    MethodOwner(text, table.namespaces);
  }

  lemma NotRead(ss: seq<Statement>, table: Table, name: string)
    requires forall s <- ss :: !Names(s, Files(ss, table), Stream(ss, table), name)
    ensures !ReadAtIndex(ss, table, name)
  {
    forall s | s in IndexOf(ss, table) ensures !Names(s, Files(ss, table), Stream(ss, table), name) {
      FromSource(ss, table, s);
    }
  }

  /** A name that no statement reads, in the type arguments of the map's parent. */
  lemma OnlyArgument(first: Statement, second: Statement, parent: Parent, text: string, table: Table, name: string)
    requires |name| < 9 && parent.name != name && Noted(parent.arguments, name)
    requires !first.MapInterface? && (first.Plain? ==> first.refs == [])
    requires !second.MapInterface? && (second.Plain? ==> second.refs == [])
    ensures var ss := [first, second, Methods(parent, text)];
      IsArgument(IndexOf(ss, table), name) && !ReadAtIndex(ss, table, name)
  {
    var ss := [first, second, Methods(parent, text)];
    ShortNames(parent, text, Files(ss, table), Stream(ss, table), name);
    MapStays(ss, table, ss[2]);
    assert parent in ss[2].parents;
    NotRead(ss, table, name);
  }

  /** A split file's name that is not read is neither imported nor resolved. */
  lemma UnreadIsLost(ss: seq<Statement>, table: Table, name: string, symbol: Symbol)
    requires Splits(ss, table) && NoClash(ss, table) && Known(ss, table, name, symbol)
    requires FromSplitFile(symbol, Files(ss, table)) && !ReadAtIndex(ss, table, name)
    ensures Bindings(IndexFileOf(ss, table).header, name) == [] && !Resolved(ss, IndexFileOf(ss, table), name)
  {
    SymbolIsMeaning(ss, table, name, symbol);
    IndexImports(ss, table, name, symbol);
    ResolvedIffReached(ss, table, name, symbol);
  }

  lemma FirstFile(files: seq<string>, symbol: Symbol)
    requires files == ["a"] && symbol.from == Module("a")
    ensures FromSplitFile(symbol, files)
  {
    assert files[0] == "a";
  }

  lemma OneName(name: string, isType: bool, refs: seq<Read>, text: string, anchors: map<string, string>)
    ensures AnchorOf(Declared(Declare(name, isType, refs, text)), anchors)
         == if name in anchors && anchors[name] != "" then Some(anchors[name]) else None
  {
    var names := Declare(name, isType, refs, text).names;
    assert names[1..] == [];
  }

  lemma HomesOfTwo(first: Statement, second: Statement, table: Table)
    requires AnchorOf(Declared(first), table.anchors) == None
    ensures Home([first], table) == "index"
    ensures var anchor := AnchorOf(Declared(second), table.anchors);
      Home([first, second], table) == if anchor.Some? then anchor.value else "index"
  {
    assert [first][..0] == [] && [first, second][..1] == [first];
  }

  /** The second statement alone declares the name. */
  lemma OnlySecond(ss: seq<Statement>, table: Table, d: Declaration, symbol: Symbol, other: Symbol)
    requires |ss| == 3 && ss[0].Plain? && ss[1].Plain? && ss[1].names == [d] && ss[2].MapInterface?
    requires !Declares(ss[0], d.name) && MapName(ss[2].rpc) != d.name
    requires symbol == Symbol(Module(Home(ss[..2], table)), d.isType, None)
    ensures Given(ss, table, d.name, other) <==> other == symbol
  {
    assert ss[1].names[0] == d;
    assert GivesIn(ss[1], Home(ss[..2], table), d.name, other) <==> other == symbol;
    if other == symbol {
      assert Gives(ss, table, 1, d.name, symbol);
    } else if i :| Gives(ss, table, i, d.name, other) {
      assert false;
    }
  }

  lemma KnownSecond(first: Statement, second: Statement, parent: Parent, text: string, table: Table, d: Declaration)
    requires first.Plain? && second.Plain? && second.names == [d]
    requires |d.name| < 9 && !Declares(first, d.name)
    ensures var ss := [first, second, Methods(parent, text)];
      Known(ss, table, d.name, Symbol(Module(Home([first, second], table)), d.isType, None))
  {
    var ss := [first, second, Methods(parent, text)];
    var symbol := Symbol(Module(Home([first, second], table)), d.isType, None);
    ShortNames(parent, text, Files(ss, table), Stream(ss, table), d.name);
    assert ss[..2] == [first, second];
    forall other ensures Given(ss, table, d.name, other) <==> other == symbol {
      OnlySecond(ss, table, d, symbol, other);
    }
  }

  /** Two declarations, of which the second lives in `a`. */
  lemma TwoLand(first: Statement, second: Statement, parent: Parent, text: string, table: Table)
    requires table.namespaces == map["x" := "a"] && first.Plain? && second.Plain?
    requires AnchorOf(Declared(first), table.anchors) == None && AnchorOf(Declared(second), table.anchors) == Some("a")
    requires HasAnchors([first, second, Methods(parent, text)], table)
    ensures var ss := [first, second, Methods(parent, text)];
      Splits(ss, table) && NoClash(ss, table) && Files(ss, table) == ["a"]
    ensures Home([first], table) == "index" && Home([first, second], table) == "a"
  {
    MethodsSplit(first, second, parent, text, table);
    HomesOfTwo(first, second, table);
    MethodsLand(first, second, parent, text, table);
  }

  // ---- A split file's name in type arguments

  const BASE_OF_ARG := Parent("Base", [Read("Arg", true)])
  const ANCHORS_AT_ARG := Table(map["Arg" := "a"], map["x" := "a"])

  /** `interface Base<T>`, `interface Arg` and `interface RpcMethods extends Base<Arg>`. */
  function SplitArg(text: string): seq<Statement> {
    [Declare("Base", true, [], text), Declare("Arg", true, [], text), Methods(BASE_OF_ARG, text)]
  }

  lemma SplitArgLands(text: string)
    ensures var ss, table := SplitArg(text), ANCHORS_AT_ARG;
      Splits(ss, table) && NoClash(ss, table) && Home([ss[0], ss[1]], table) == "a" && Files(ss, table) == ["a"]
  {
    var ss, table := SplitArg(text), ANCHORS_AT_ARG;
    assert Declared(ss[1])[0].name == "Arg" && HasAnchors(ss, table);
    OneName("Base", true, [], text, table.anchors);
    OneName("Arg", true, [], text, table.anchors);
    TwoLand(ss[0], ss[1], BASE_OF_ARG, text, table);
  }

  lemma SplitArgKnown(text: string)
    ensures Known(SplitArg(text), ANCHORS_AT_ARG, "Arg", Symbol(Module("a"), true, None))
  {
    SplitArgLands(text);
    KnownSecond(SplitArg(text)[0], SplitArg(text)[1], BASE_OF_ARG, text, ANCHORS_AT_ARG, Declaration("Arg", true));
  }

  lemma SplitArgOnly(text: string)
    ensures var ss, table := SplitArg(text), ANCHORS_AT_ARG;
      IsArgument(IndexOf(ss, table), "Arg") && !ReadAtIndex(ss, table, "Arg")
  {
    assert BASE_OF_ARG.arguments[0].name == "Arg";
    OnlyArgument(SplitArg(text)[0], SplitArg(text)[1], BASE_OF_ARG, text, ANCHORS_AT_ARG, "Arg");
  }

  /** `Arg` of the split file `a` stands only in the type arguments of a parent: the index never imports it. */
  lemma SplitFileArgumentIsLost(text: string)
    ensures var ss, table := SplitArg(text), ANCHORS_AT_ARG;
      && Splits(ss, table) && NoClash(ss, table) && Known(ss, table, "Arg", Symbol(Module("a"), true, None))
      && IsArgument(IndexOf(ss, table), "Arg")
      && Bindings(IndexFileOf(ss, table).header, "Arg") == []
      && !Resolved(ss, IndexFileOf(ss, table), "Arg")
  {
    var ss, table, symbol := SplitArg(text), ANCHORS_AT_ARG, Symbol(Module("a"), true, None);
    SplitArgLands(text);
    SplitArgKnown(text);
    SplitArgOnly(text);
    FirstFile(Files(ss, table), symbol);
    UnreadIsLost(ss, table, "Arg", symbol);
  }

  // ---- An imported name in type arguments

  const NO_ANCHORS := Table(map[], map["x" := "a"])

  /** `import type { Arg } from '../other'`, `interface Base<T>` and `interface RpcMethods extends Base<Arg>`. */
  function ImportedArg(text: string): seq<Statement> {
    [Import("../other", true, [Named("Arg", "Arg", false)]), Declare("Base", true, [], text),
     Methods(BASE_OF_ARG, text)]
  }

  lemma ImportedArgLands(text: string)
    ensures var ss, table := ImportedArg(text), NO_ANCHORS;
      Splits(ss, table) && NoClash(ss, table) && Files(ss, table) == ["a"]
  {
    var ss, table := ImportedArg(text), NO_ANCHORS;
    MethodsSplit(ss[0], ss[1], BASE_OF_ARG, text, table);
    OneName("Base", true, [], text, table.anchors);
    HomesOfTwo(ss[0], ss[1], table);
    MethodsLand(ss[0], ss[1], BASE_OF_ARG, text, table);
    assert |Module("index")| == 7 && |Module("a")| == 3 && |ss[0].from| == 8;
  }

  lemma ImportedArgKnown(text: string)
    ensures Known(ImportedArg(text), NO_ANCHORS, "Arg", Symbol("../other", true, None))
  {
    var ss, table, symbol := ImportedArg(text), NO_ANCHORS, Symbol("../other", true, None);
    ShortNames(BASE_OF_ARG, text, Files(ss, table), Stream(ss, table), "Arg");
    assert ss[0].specifiers[0].local == "Arg";
    assert Gives(ss, table, 0, "Arg", symbol);
  }

  lemma ImportedArgOnly(text: string)
    ensures var ss, table := ImportedArg(text), NO_ANCHORS;
      && IsArgument(IndexOf(ss, table), "Arg")
      && (exists s <- ss :: s.Import? && s.from == "../other")
      && forall s <- ss :: !ImportRead(ss, table, s) && !s.ReExport?
  {
    var ss, table := ImportedArg(text), NO_ANCHORS;
    assert BASE_OF_ARG.arguments[0].name == "Arg";
    OnlyArgument(ss[0], ss[1], BASE_OF_ARG, text, table, "Arg");
    assert ss[0] in ss;
  }

  /** `Arg`, imported from another module, stands only in the type arguments of a parent: the index drops
      its import. */
  lemma ImportedArgumentIsLost(text: string)
    ensures var ss, table := ImportedArg(text), NO_ANCHORS;
      && Splits(ss, table) && NoClash(ss, table) && Known(ss, table, "Arg", Symbol("../other", true, None))
      && IsArgument(IndexOf(ss, table), "Arg")
      && IndexFileOf(ss, table).leading == []
      && !Resolved(ss, IndexFileOf(ss, table), "Arg")
  {
    ImportedArgLands(text);
    ImportedArgKnown(text);
    ImportedArgOnly(text);
    UnreadImportIsLost(ImportedArg(text), NO_ANCHORS, "Arg", Symbol("../other", true, None));
  }

  /** With no import that is read, an imported name is lost, and nothing leads the index but re-exports. */
  lemma UnreadImportIsLost(ss: seq<Statement>, table: Table, name: string, symbol: Symbol)
    requires Splits(ss, table) && NoClash(ss, table) && Known(ss, table, name, symbol)
    requires exists s <- ss :: s.Import? && symbol.from == s.from
    requires forall s <- ss :: !ImportRead(ss, table, s) && !s.ReExport?
    ensures IndexFileOf(ss, table).leading == [] && !Resolved(ss, IndexFileOf(ss, table), name)
  {
    ResolvedIffReached(ss, table, name, symbol);
    var leading := IndexFileOf(ss, table).leading;
    TopIsModule(ss);
    if leading != [] {
      var s := leading[0];
      KeptIsUsed(Top(ss), IndexReads(IndexOf(ss, table), Files(ss, table), Stream(ss, table)), s);
      FromSource(ss, table, s);
      ImportKeptIff(ss, table, s);
      assert false;
    }
  }

  // ---- A value that is a parent

  const BOX := Parent("Box", [])
  const ANCHORS_AT_BOX := Table(map["Box" := "a"], map["x" := "a"])

  /** `const make = () => new Box()`, `class Box` and `interface RpcMethods extends Box`. */
  function ValueParent(text: string): seq<Statement> {
    [Declare("make", false, [Read("Box", false)], text), Declare("Box", false, [], text), Methods(BOX, text)]
  }

  lemma ValueParentLands(text: string)
    ensures var ss, table := ValueParent(text), ANCHORS_AT_BOX;
      Splits(ss, table) && NoClash(ss, table) && Home([ss[0], ss[1]], table) == "a" && Files(ss, table) == ["a"]
    ensures Home([ValueParent(text)[0]], ANCHORS_AT_BOX) == "index"
  {
    var ss, table := ValueParent(text), ANCHORS_AT_BOX;
    assert Declared(ss[1])[0].name == "Box" && HasAnchors(ss, table);
    OneName("make", false, [Read("Box", false)], text, table.anchors);
    OneName("Box", false, [], text, table.anchors);
    TwoLand(ss[0], ss[1], BOX, text, table);
  }

  lemma IndexOfThree(first: Statement, second: Statement, last: Statement, table: Table)
    requires first.Plain? && second.Plain? && last.MapInterface?
    requires Home([first], table) == "index" && Home([first, second], table) != "index"
    ensures IndexOf([first, second, last], table) == [first, last]
  {
    assert [] + [first] == [first] && [first] + [second] == [first, second];
    assert [first, second] + [last] == [first, second, last];
    PushTop([], table, first);
    PushTop([first], table, second);
    PushTop([first, second], table, last);
  }

  lemma ValueParentKnown(text: string)
    ensures Known(ValueParent(text), ANCHORS_AT_BOX, "Box", Symbol(Module("a"), false, None))
  {
    ValueParentLands(text);
    KnownSecond(ValueParent(text)[0], ValueParent(text)[1], BOX, text, ANCHORS_AT_BOX, Declaration("Box", false));
  }

  lemma ValueParentReads(text: string)
    ensures var ss, table := ValueParent(text), ANCHORS_AT_BOX;
      && IndexOf(ss, table) == [ss[0], ss[2]] && ss[0] in IndexOf(ss, table) && ValueIn(ss[0], "Box")
      && Names(ss[2], Files(ss, table), Stream(ss, table), "Box")
  {
    var ss, table := ValueParent(text), ANCHORS_AT_BOX;
    ValueParentLands(text);
    IndexOfThree(ss[0], ss[1], ss[2], table);
    ShortNames(BOX, text, Files(ss, table), Stream(ss, table), "Box");
    assert ss[0].refs[0].name == "Box" && [ss[0], ss[2]][0] == ss[0];
  }

  /** `make` constructs the class `Box` of the split file `a`, and `RpcMethods` below it extends `Box`: the
      index imports `Box` as a type only. */
  lemma ValueParentIsTypeOnly(text: string)
    ensures var ss, table, symbol := ValueParent(text), ANCHORS_AT_BOX, Symbol(Module("a"), false, None);
      && Splits(ss, table) && NoClash(ss, table) && Known(ss, table, "Box", symbol) && !symbol.isType
      && ss[0] in IndexOf(ss, table) && ValueIn(ss[0], "Box")
      && Bindings(IndexFileOf(ss, table).header, "Box") == [Bound(Module("a"), true, "Box")]
  {
    var ss, table, symbol := ValueParent(text), ANCHORS_AT_BOX, Symbol(Module("a"), false, None);
    ValueParentLands(text);
    ValueParentKnown(text);
    ValueParentReads(text);
    FirstFile(Files(ss, table), symbol);
    ExtendedLast(ss, table, ss[0], ss[2], "Box", symbol);
  }

  /** A name that the last statement of the index has for a parent is imported once, as a type. */
  lemma ExtendedLast(ss: seq<Statement>, table: Table, first: Statement, last: Statement, name: string, symbol: Symbol)
    requires Splits(ss, table) && Known(ss, table, name, symbol) && FromSplitFile(symbol, Files(ss, table))
    requires IndexOf(ss, table) == [first, last] && last.MapInterface?
    requires Names(last, Files(ss, table), Stream(ss, table), name)
    ensures Bindings(IndexFileOf(ss, table).header, name) == [ImportOf(name, symbol, true)]
  {
    var index, files, stream := IndexOf(ss, table), Files(ss, table), Stream(ss, table);
    assert index[1] == last;
    assert forall k | 0 <= k < 2 && ValueIn(index[k], name) :: !NotExtendedAfter(index, files, stream, name, k);
    SymbolIsMeaning(ss, table, name, symbol);
    IndexImports(ss, table, name, symbol);
  }
}
