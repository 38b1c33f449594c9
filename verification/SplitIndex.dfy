/** The index the contract split leaves (`splitContracts` in
    `scripts/migrate/split-contracts.ts`): what it reads, what it imports, and the two
    places where its imports can fall short. */
module SplitIndex {
  import opened Results
  import opened SplitContracts
  import opened SplitCode
  import opened SplitHeaders
  import opened SplitResolution

  // ---- What the index reads

  /** The statement, or one of the parents of the map, names it. */
  predicate Names(s: Statement, files: seq<string>, stream: seq<Owned>, name: string) {
    match s
    case Plain(_, refs, _) => Noted(refs, name)
    case MapInterface(_, _, _, _) => name in Parents(s, files, stream)
    case _ => false
  }

  predicate ReadInIndex(index: seq<Statement>, files: seq<string>, stream: seq<Owned>, name: string) {
    exists s <- index :: Names(s, files, stream, name)
  }

  predicate ValueIn(s: Statement, name: string) {
    s.Plain? && ValueRead(s.refs, name)
  }

  predicate Extended(s: Statement, files: seq<string>, stream: seq<Owned>, name: string) {
    s.MapInterface? && name in Parents(s, files, stream)
  }

  /** A statement reads the name as a value, and no map below it has the name for a parent. */
  ghost predicate ValueStands(index: seq<Statement>, files: seq<string>, stream: seq<Owned>, name: string) {
    exists k :: 0 <= k < |index| && ValueIn(index[k], name) && NotExtendedAfter(index, files, stream, name, k)
  }

  ghost predicate NotExtendedAfter(index: seq<Statement>, files: seq<string>, stream: seq<Owned>, name: string,
                                   k: int)
  {
    forall j :: 0 <= k < j < |index| ==> !Extended(index[j], files, stream, name)
  }

  lemma ValueStandsStep(prior: seq<Statement>, s: Statement, files: seq<string>, stream: seq<Owned>, name: string)
    ensures ValueStands(prior + [s], files, stream, name)
       <==> ValueIn(s, name) || (ValueStands(prior, files, stream, name) && !Extended(s, files, stream, name))
  {
    var index := prior + [s];
    if ValueIn(s, name) {
      assert ValueIn(index[|prior|], name) && NotExtendedAfter(index, files, stream, name, |prior|);
    } else if ValueStands(prior, files, stream, name) && !Extended(s, files, stream, name) {
      var k :| 0 <= k < |prior| && ValueIn(prior[k], name) && NotExtendedAfter(prior, files, stream, name, k);
      assert ValueIn(index[k], name);
      assert NotExtendedAfter(index, files, stream, name, k);
    } else if ValueStands(index, files, stream, name) {
      var k :| 0 <= k < |index| && ValueIn(index[k], name) && NotExtendedAfter(index, files, stream, name, k);
      assert k < |prior| && ValueIn(prior[k], name);
      assert index[|prior|] == s;
      forall j | 0 <= k < j < |prior| ensures !Extended(prior[j], files, stream, name) {
        assert index[j] == prior[j];
      }
      assert NotExtendedAfter(prior, files, stream, name, k);
    }
  }

  lemma LastNoted(prior: seq<Read>, r: Read, name: string)
    ensures Noted(prior + [r], name) <==> Noted(prior, name) || r.name == name
    ensures ValueRead(prior + [r], name) <==> ValueRead(prior, name) || (r.name == name && !r.onlyType)
  {
    assert r in prior + [r] && forall x <- prior :: x in prior + [r];
  }

  lemma {:induction false} NoteAllNamed(found: seq<Read>, refs: seq<Read>, name: string)
    requires Once(found)
    ensures Once(NoteAll(found, refs))
    ensures ReadsNamed(NoteAll(found, refs), name)
         == if !Noted(refs, name) then ReadsNamed(found, name)
            else [Read(name, (ReadsNamed(found, name) != [] ==> ReadsNamed(found, name)[0].onlyType)
                && !ValueRead(refs, name))]
  {
    if refs != [] {
      var prior, r := refs[..|refs| - 1], refs[|refs| - 1];
      NoteAllNamed(found, prior, name);
      NoteKeepsOnce(NoteAll(found, prior), r);
      NoteIs(NoteAll(found, prior), r, name);
      LastNoted(prior, r, name);
      assert refs == prior + [r];
    }
  }

  lemma NoteKeepsOnce(found: seq<Read>, r: Read)
    requires Once(found)
    ensures Once(Note(found, r))
  {
    forall n ensures |ReadsNamed(Note(found, r), n)| <= 1 {
      NoteIs(found, r, n);
    }
  }

  lemma {:induction false} PutIs(found: seq<Read>, put: string, name: string)
    requires Once(found)
    ensures ReadsNamed(Put(found, put), name) == if put == name then [Read(name, true)] else ReadsNamed(found, name)
  {
    if found != [] {
      var rest := found[1..];
      assert |ReadsNamed(found, found[0].name)| <= 1;
      assert Once(rest) by {
        forall n ensures |ReadsNamed(rest, n)| <= 1 {
          assert |ReadsNamed(found, n)| <= 1;
        }
      }
      PutIs(rest, put, name);
    }
  }

  lemma {:induction false} PutAllNamed(found: seq<Read>, names: seq<string>, name: string)
    requires Once(found)
    ensures Once(PutAll(found, names))
    ensures ReadsNamed(PutAll(found, names), name) == if name in names then [Read(name, true)]
        else ReadsNamed(found, name)
  {
    if names != [] {
      var prior, last := names[..|names| - 1], names[|names| - 1];
      PutAllNamed(found, prior, name);
      PutIs(PutAll(found, prior), last, name);
      forall n ensures |ReadsNamed(PutAll(found, names), n)| <= 1 {
        PutIs(PutAll(found, prior), last, n);
      }
      assert names == prior + [last];
    }
  }

  lemma ReadInStep(prior: seq<Statement>, s: Statement, files: seq<string>, stream: seq<Owned>, name: string)
    ensures ReadInIndex(prior + [s], files, stream, name)
       <==> ReadInIndex(prior, files, stream, name) || Names(s, files, stream, name)
  {
    assert s in prior + [s] && forall t <- prior :: t in prior + [s];
  }

  /** The index notes each name it reads once: a value only when `ValueStands`. */
  lemma {:induction false} IndexReadsAre(index: seq<Statement>, files: seq<string>, stream: seq<Owned>, name: string)
    ensures Once(IndexReads(index, files, stream))
    ensures ReadsNamed(IndexReads(index, files, stream), name)
         == if ReadInIndex(index, files, stream, name) then [Read(name, !ValueStands(index, files, stream, name))]
             else []
  {
    if index != [] {
      var prior, s := index[..|index| - 1], index[|index| - 1];
      IndexReadsAre(prior, files, stream, name);
      assert index == prior + [s];
      ReadInStep(prior, s, files, stream, name);
      ValueStandsStep(prior, s, files, stream, name);
      StandsIsRead(prior, files, stream, name);
      AddReadsIs(IndexReads(prior, files, stream), s, files, stream, name);
    }
  }

  /** What one statement adds to the reads of the index. */
  lemma AddReadsIs(found: seq<Read>, s: Statement, files: seq<string>, stream: seq<Owned>, name: string)
    requires Once(found)
    ensures Once(AddReads(found, s, files, stream))
    ensures ReadsNamed(AddReads(found, s, files, stream), name)
         == if !Names(s, files, stream, name) then ReadsNamed(found, name)
            else if s.MapInterface? then [Read(name, true)]
            else [Read(name, (ReadsNamed(found, name) != [] ==> ReadsNamed(found, name)[0].onlyType)
                             && !ValueIn(s, name))]
  {
    match s {
      case Plain(_, refs, _) => NoteAllNamed(found, refs, name);
      case MapInterface(_, _, _, _) => PutAllNamed(found, Parents(s, files, stream), name);
      case _ =>
    }
  }

  lemma StandsIsRead(index: seq<Statement>, files: seq<string>, stream: seq<Owned>, name: string)
    ensures ValueStands(index, files, stream, name) ==> ReadInIndex(index, files, stream, name)
  {
    if ValueStands(index, files, stream, name) {
      var k :| 0 <= k < |index| && ValueIn(index[k], name) && NotExtendedAfter(index, files, stream, name, k);
      assert index[k] in index && Names(index[k], files, stream, name);
    }
  }

  // ---- Names resolve in the index

  predicate FromSplitFile(symbol: Symbol, files: seq<string>) {
    exists f <- files :: symbol.from == Module(f)
  }

  lemma FromFileIs(symbol: Symbol, files: seq<string>)
    ensures FromFile(symbol, files) <==> FromSplitFile(symbol, files)
  {
    if FromFile(symbol, files) {
      assert symbol.from == Module(symbol.from[2..]);
    }
    if f :| f in files && symbol.from == Module(f) {
      assert symbol.from[..2] == "./" && symbol.from[2..] == f;
    }
  }

  /** The index imports from the split files exactly the names it notes that they declare, once each. */
  lemma IndexImports(ss: seq<Statement>, table: Table, name: string, symbol: Symbol)
    requires AllNamed(ss) && AllOwned(ss, table)
    requires name in Symbols(ss, table) && Symbols(ss, table)[name] == symbol
    ensures var index, files, stream := IndexOf(ss, table), Files(ss, table), Stream(ss, table);
      Bindings(IndexFileOf(ss, table).header, name)
      == if FromSplitFile(symbol, files) && ReadInIndex(index, files, stream, name)
         then [ImportOf(name, symbol, !ValueStands(index, files, stream, name))] else []
  {
    var index, files, stream := IndexOf(ss, table), Files(ss, table), Stream(ss, table);
    var refs := IndexReads(index, files, stream);
    IndexReadsAre(index, files, stream, name);
    FromFileIs(symbol, files);
    var local := Local(Symbols(ss, table), files);
    HeaderBinds(Module("index"), refs, local, name);
    if FromSplitFile(symbol, files) {
      var f :| f in files && symbol.from == Module(f);
      NeverIndex(ss, table);
      FirstSeenKeeps(Landings(ss, table), f);
      if symbol.from == Module("index") {
        ModuleIsFile(f, "index");
        assert false;
      }
    }
  }

  predicate Imports(s: Statement, name: string) {
    s.Import? && exists p <- s.specifiers :: p.local == name
  }

  /** The import statements the index keeps. */
  predicate KeepsImport(x: IndexFile, s: Statement) {
    s in x.leading || Kept(s) in x.composed
  }

  /** The index file declares the name itself. */
  predicate IndexDeclares(x: IndexFile, name: string) {
    || (exists c <- x.composed :: c.Kept? && Declares(c.statement, name))
    || (exists c <- x.composed :: c.Extends? && MapName(c.rpc) == name)
  }

  lemma {:induction false} ModuleStays(ss: seq<Statement>, table: Table, s: Statement)
    requires s in ss && (IsModule(s) || s.MapInterface?)
    ensures s in Top(ss) || s in IndexOf(ss, table)
  {
    var prior, last := ss[..|ss| - 1], ss[|ss| - 1];
    if s in prior {
      ModuleStays(prior, table, s);
    } else {
      assert s == last;
    }
  }

  lemma {:induction false} KeepUsedKeeps(top: seq<Statement>, refs: seq<Read>, s: Statement)
    requires s in top && Used(s, refs)
    ensures s in KeepUsed(top, refs)
  {
    var prior, last := top[..|top| - 1], top[|top| - 1];
    if s in prior {
      KeepUsedKeeps(prior, refs, s);
    } else {
      assert s == last;
    }
  }

  lemma {:induction false} ComposeKeeps(index: seq<Statement>, refs: seq<Read>, files: seq<string>,
        stream: seq<Owned>, s: Statement)
    requires s in index && Used(s, refs)
    ensures s.MapInterface? ==> Extends(s.rpc, Parents(s, files, stream)) in Compose(index, refs, files, stream)
    ensures !s.MapInterface? ==> Kept(s) in Compose(index, refs, files, stream)
  {
    var prior, last := index[..|index| - 1], index[|index| - 1];
    if s in prior {
      ComposeKeeps(prior, refs, files, stream, s);
    } else {
      assert s == last;
    }
  }

  lemma {:induction false} TopIsModule(ss: seq<Statement>)
    ensures forall s <- Top(ss) :: IsModule(s)
  {
    if ss != [] { TopIsModule(ss[..|ss| - 1]); }
  }

  lemma {:induction false} HomeStays(ss: seq<Statement>, table: Table, i: nat)
    requires i < |ss| && ss[i].Plain? && Home(ss[..i + 1], table) == "index"
    ensures ss[i] in IndexOf(ss, table)
  {
    var n := |ss| - 1;
    if i < n {
      assert ss[..n][..i + 1] == ss[..i + 1];
      HomeStays(ss[..n], table, i);
    } else {
      assert ss[..i + 1] == ss;
    }
  }

  lemma {:induction false} NotedIsNamed(refs: seq<Read>, name: string)
    ensures ReadsNamed(refs, name) != [] ==> Noted(refs, name)
  {
    if refs != [] {
      NotedIsNamed(refs[1..], name);
      assert forall r <- refs[1..] :: r in refs;
      assert refs[0] in refs;
    }
  }

  /** Every name the index reads and the single file knew is declared in the index, imported there by a
      statement the index keeps, or imported once from the split file that declares it now. */
  lemma IndexResolves(ss: seq<Statement>, table: Table, name: string, symbol: Symbol)
    requires Splits(ss, table) && NoClash(ss, table) && Means(ss, table, name, symbol)
    requires !IsDomain(Stream(ss, table), name) && (name in MapsMap() ==> symbol == INDEX)
    requires ReadInIndex(IndexOf(ss, table), Files(ss, table), Stream(ss, table), name)
    ensures var x, files := IndexFileOf(ss, table), Files(ss, table);
      if FromSplitFile(symbol, files) then
        && Bindings(x.header, name)
           == [ImportOf(name, symbol, !ValueStands(IndexOf(ss, table), files, Stream(ss, table), name))]
        && exists f <- files :: symbol.from == Module(f) && exists s <- FileOf(ss, table, f).pieces :: Declares(s, name)
      else
        && Bindings(x.header, name) == []
        && (IndexDeclares(x, name) || exists s <- ss :: Imports(s, name) && KeepsImport(x, s))
  {
    var x, files, stream := IndexFileOf(ss, table), Files(ss, table), Stream(ss, table);
    var index := IndexOf(ss, table);
    SymbolIsMeaning(ss, table, name, symbol);
    IndexImports(ss, table, name, symbol);
    if FromSplitFile(symbol, files) {
      var f :| f in files && symbol.from == Module(f);
      MeantByFile(ss, table, f, name, symbol);
    } else {
      var refs := IndexReads(index, files, stream);
      IndexReadsAre(index, files, stream, name);
      NotedIsNamed(refs, name);
      var i :| Gives(ss, table, i, name, symbol);
      StaysResolved(ss, table, i, name, symbol, refs);
    }
  }

  lemma StaysResolved(ss: seq<Statement>, table: Table, i: int, name: string, symbol: Symbol, refs: seq<Read>)
    requires AllNamed(ss) && Gives(ss, table, i, name, symbol) && !FromSplitFile(symbol, Files(ss, table))
    requires refs == IndexReads(IndexOf(ss, table), Files(ss, table), Stream(ss, table)) && Noted(refs, name)
    ensures var x := IndexFileOf(ss, table);
            IndexDeclares(x, name) || exists s <- ss :: Imports(s, name) && KeepsImport(x, s)
  {
    var index, files, stream := IndexOf(ss, table), Files(ss, table), Stream(ss, table);
    var s := ss[i];
    if s.Plain? {
      HomeIsWritten(ss, table, i);
      HomeStays(ss, table, i);
      ComposeKeeps(index, refs, files, stream, s);
      assert Declares(s, name);
    } else {
      ModuleStays(ss, table, s);
      TopIsModule(ss);
      assert Used(s, refs);
      if s in index {
        ComposeKeeps(index, refs, files, stream, s);
      } else {
        KeepUsedKeeps(Top(ss), refs, s);
      }
      if s.Import? {
        assert Imports(s, name) && KeepsImport(IndexFileOf(ss, table), s);
      }
    }
  }

  /** A value of a split file is imported as a value exactly when no map below the last statement that
      reads it as one has it for a parent. */
  lemma ValueImportIffStands(ss: seq<Statement>, table: Table, name: string, symbol: Symbol)
    requires Splits(ss, table) && Means(ss, table, name, symbol) && FromSplitFile(symbol, Files(ss, table))
    requires !IsDomain(Stream(ss, table), name) && (name in MapsMap() ==> symbol == INDEX)
    requires !symbol.isType
    ensures (exists b <- Bindings(IndexFileOf(ss, table).header, name) :: !b.typeOnly)
       <==> ValueStands(IndexOf(ss, table), Files(ss, table), Stream(ss, table), name)
  {
    SymbolIsMeaning(ss, table, name, symbol);
    IndexImports(ss, table, name, symbol);
    StandsIsRead(IndexOf(ss, table), Files(ss, table), Stream(ss, table), name);
    var bindings := Bindings(IndexFileOf(ss, table).header, name);
    if bindings != [] {
      assert bindings[0] in bindings;
    }
  }

  // ---- The two maps are whole again

  /** No declaration and no other file gives the added interface its name. */
  ghost predicate OwnName(ss: seq<Statement>, table: Table, file: string, rpc: RpcMap) {
    var name := DomainName(file, rpc);
    && name !in MapsMap()
    && (forall symbol :: !Given(ss, table, name, symbol))
    && (forall f, r | HasGroup(GroupsOf(Stream(ss, table), f), r) && DomainName(f, r) == name :: f == file)
  }

  lemma {:induction false} DomainMapIs(files: seq<string>, stream: seq<Owned>, file: string, rpc: RpcMap)
    requires file in files && HasGroup(GroupsOf(stream, file), rpc)
    requires forall f, r | HasGroup(GroupsOf(stream, f), r) && DomainName(f, r) == DomainName(file, rpc) :: f == file
    ensures DomainName(file, rpc) in DomainMap(files, stream)
    ensures DomainMap(files, stream)[DomainName(file, rpc)] == Symbol(Module(file), true, None)
  {
    var prior, last := files[..|files| - 1], files[|files| - 1];
    var name, groups := DomainName(file, rpc), GroupsOf(stream, last);
    GroupMapNames(last, groups, name);
    if last == file {
      var g :| g in groups && g.rpc == rpc;
      assert name == DomainName(last, g.rpc);
    } else {
      assert file in prior;
      DomainMapIs(prior, stream, file, rpc);
      forall g | g in groups ensures name != DomainName(last, g.rpc) {
        assert HasGroup(groups, g.rpc);
      }
    }
  }

  lemma {:induction false} GroupIsOwned(stream: seq<Owned>, file: string, rpc: RpcMap)
    requires HasGroup(GroupsOf(stream, file), rpc)
    ensures exists o <- stream :: o.owner == file && o.rpc == rpc
  {
    MembersInOrder(stream[..|stream| - 1], file, rpc);
    var prior, last := stream[..|stream| - 1], stream[|stream| - 1];
    var before := GroupsOf(prior, file);
    if last.owner == file {
      AddMemberMaps(before, last.rpc, last.member);
    }
    if last.owner == file && last.rpc == rpc {
      assert last in stream;
    } else {
      assert HasGroup(before, rpc);
      GroupIsOwned(prior, file, rpc);
      var o :| o in prior && o.owner == file && o.rpc == rpc;
      assert o in stream;
    }
  }

  lemma {:induction false} OwnedHasMap(ss: seq<Statement>, table: Table, o: Owned)
    requires o in Stream(ss, table)
    ensures exists s <- ss :: s.MapInterface? && s.rpc == o.rpc
  {
    var prior, s := ss[..|ss| - 1], ss[|ss| - 1];
    if o in Stream(prior, table) {
      OwnedHasMap(prior, table, o);
      var t :| t in prior && t.MapInterface? && t.rpc == o.rpc;
      assert t in ss;
    } else {
      OwnedRpc(s.rpc, s.members, table.namespaces, o);
      assert s in ss;
    }
  }

  lemma {:induction false} OwnedRpc(rpc: RpcMap, list: seq<Member>, namespaces: map<string, string>, o: Owned)
    requires o in OwnedBy(rpc, list, namespaces)
    ensures o.rpc == rpc
  {
    if o in OwnedBy(rpc, list[..|list| - 1], namespaces) {
      OwnedRpc(rpc, list[..|list| - 1], namespaces, o);
    }
  }

  lemma {:induction false} DomainsHas(files: seq<string>, stream: seq<Owned>, file: string, rpc: RpcMap)
    requires file in files && HasGroup(GroupsOf(stream, file), rpc)
    ensures DomainName(file, rpc) in Domains(files, stream, rpc)
  {
    var prior, last := files[..|files| - 1], files[|files| - 1];
    if last != file {
      assert file in prior;
      DomainsHas(prior, stream, file, rpc);
    }
  }

  /** A file's interface of a map is a parent of that map in the index, which imports it once, as a type. */
  lemma DomainIsComposed(ss: seq<Statement>, table: Table, file: string, rpc: RpcMap)
    requires Splits(ss, table) && HasGroup(GroupsOf(Stream(ss, table), file), rpc) && OwnName(ss, table, file, rpc)
    ensures var x, name := IndexFileOf(ss, table), DomainName(file, rpc);
      && Bindings(x.header, name) == [Bound(Module(file), true, name)]
      && exists c <- x.composed :: c.Extends? && c.rpc == rpc && name in c.parents
  {
    var index, files, stream := IndexOf(ss, table), Files(ss, table), Stream(ss, table);
    var name := DomainName(file, rpc);
    GroupIsOwned(stream, file, rpc);
    var o :| o in stream && o.owner == file && o.rpc == rpc;
    OwnerIsWritten(ss, table, o);
    OwnedHasMap(ss, table, o);
    var s :| s in ss && s.MapInterface? && s.rpc == rpc;
    MapStays(ss, table, s);
    DomainsHas(files, stream, file, rpc);
    assert name in Parents(s, files, stream);
    ComposeKeeps(index, IndexReads(index, files, stream), files, stream, s);
    assert Names(s, files, stream, name) && ReadInIndex(index, files, stream, name);
    DomainSymbol(ss, table, file, rpc);
    IndexImports(ss, table, name, Symbol(Module(file), true, None));
    assert FromSplitFile(Symbol(Module(file), true, None), files);
  }

  lemma {:induction false} MapStays(ss: seq<Statement>, table: Table, s: Statement)
    requires s in ss && s.MapInterface?
    ensures s in IndexOf(ss, table)
  {
    ModuleStays(ss, table, s);
    TopIsModule(ss);
  }

  lemma DomainSymbol(ss: seq<Statement>, table: Table, file: string, rpc: RpcMap)
    requires Splits(ss, table) && HasGroup(GroupsOf(Stream(ss, table), file), rpc) && OwnName(ss, table, file, rpc)
    ensures DomainName(file, rpc) in Symbols(ss, table)
    ensures Symbols(ss, table)[DomainName(file, rpc)] == Symbol(Module(file), true, None)
  {
    var stream, name := Stream(ss, table), DomainName(file, rpc);
    GroupIsOwned(stream, file, rpc);
    var o :| o in stream && o.owner == file && o.rpc == rpc;
    OwnerListed(stream, o);
    FirstSeenKeeps(Owners(stream), file);
    DomainMapIs(FirstSeen(Owners(stream)), stream, file, rpc);
    IndexMapGives(ss, table, name);
  }
}
