/** The codemod that splits the single contracts file by domain (`splitContracts`,
    `importHeader` and `references` in `scripts/migrate/split-contracts.ts`), over
    statements with the names they declare and read. */
module SplitContracts {
  import opened Results
  import opened Sorting
  import opened Text

  datatype Declaration = Declaration(name: string, isType: bool)
  /** One identifier read, and whether it stands in a type. */
  datatype Read = Read(name: string, onlyType: bool)
  datatype Specifier = Named(local: string, imported: string, typeOnly: bool) | Namespace(local: string)
  datatype RpcMap = RpcMethods | RpcEvents
  datatype Member = Member(key: string, refs: seq<Read>, text: string)
  /** A parent of one of the two maps: the name, and what its type arguments read. */
  datatype Parent = Parent(name: string, arguments: seq<Read>)

  datatype Statement =
    | Import(from: string, typeOnly: bool, specifiers: seq<Specifier>)
    | ReExport(text: string)
    | MapInterface(rpc: RpcMap, parents: seq<Parent>, members: seq<Member>, tail: string)
    | Plain(names: seq<Declaration>, refs: seq<Read>, text: string)

  /** `namespaces` gives the file of a member by what stands before its first dot. */
  datatype Table = Table(anchors: map<string, string>, namespaces: map<string, string>)

  predicate IsModule(s: Statement) { s.Import? || s.ReExport? }

  function MapName(rpc: RpcMap): string {
    match rpc case RpcMethods => "RpcMethods" case RpcEvents => "RpcEvents"
  }

  function Declared(s: Statement): seq<Declaration> {
    match s
    case Plain(names, _, _) => names
    case MapInterface(rpc, _, _, _) => [Declaration(MapName(rpc), true)]
    case _ => []
  }

  // ---- Where each statement goes

  /** The file of the first declared name that is an anchor. */
  function AnchorOf(names: seq<Declaration>, anchors: map<string, string>): Option<string> {
    if names == [] then None
    else if names[0].name in anchors && anchors[names[0].name] != "" then Some(anchors[names[0].name])
    else AnchorOf(names[1..], anchors)
  }

  /** The file of the last anchor at or above the end of these statements. */
  function Home(ss: seq<Statement>, table: Table): string {
    if ss == [] then "index"
    else
      var anchor := AnchorOf(Declared(ss[|ss| - 1]), table.anchors);
      if anchor.Some? then anchor.value else Home(ss[..|ss| - 1], table)
  }

  /** The plain statements whose home is the file, in source order. */
  function PiecesOf(ss: seq<Statement>, table: Table, file: string): seq<Statement> {
    if ss == [] then []
    else
      var prior, last := PiecesOf(ss[..|ss| - 1], table, file), ss[|ss| - 1];
      if last.Plain? && Home(ss, table) == file then prior + [last] else prior
  }

  predicate AllModule(ss: seq<Statement>) {
    forall s <- ss :: IsModule(s)
  }

  /** The imports and re-exports above every other statement. */
  function Top(ss: seq<Statement>): seq<Statement> {
    if ss == [] then []
    else
      var prior, last := ss[..|ss| - 1], ss[|ss| - 1];
      if IsModule(last) && AllModule(prior) then Top(prior) + [last] else Top(prior)
  }

  predicate StaysInIndex(ss: seq<Statement>, table: Table)
    requires ss != []
  {
    var prior, last := ss[..|ss| - 1], ss[|ss| - 1];
    if IsModule(last) then !AllModule(prior) else last.MapInterface? || Home(ss, table) == "index"
  }

  function IndexOf(ss: seq<Statement>, table: Table): seq<Statement> {
    if ss == [] then []
    else
      var prior := IndexOf(ss[..|ss| - 1], table);
      if StaysInIndex(ss, table) then prior + [ss[|ss| - 1]] else prior
  }

  // ---- Where each map member goes

  function BeforeDot(key: string): string {
    if key == "" || key[0] == '.' then "" else [key[0]] + BeforeDot(key[1..])
  }

  /** The file of the last member that has a namespace file, at or above the end of these. */
  function Owner(members: seq<Member>, namespaces: map<string, string>): string {
    if members == [] then "index"
    else
      var namespace_ := BeforeDot(members[|members| - 1].key);
      if namespace_ in namespaces then namespaces[namespace_] else Owner(members[..|members| - 1], namespaces)
  }

  datatype Owned = Owned(rpc: RpcMap, member: Member, owner: string)

  function OwnedBy(rpc: RpcMap, members: seq<Member>, namespaces: map<string, string>): (r: seq<Owned>)
    ensures |r| == |members|
  {
    if members == [] then []
    else
      OwnedBy(rpc, members[..|members| - 1], namespaces)
        + [Owned(rpc, members[|members| - 1], Owner(members, namespaces))]
  }

  /** Every member of the two maps with its file, in source order. */
  function Stream(ss: seq<Statement>, table: Table): seq<Owned> {
    if ss == [] then []
    else
      var prior, last := Stream(ss[..|ss| - 1], table), ss[|ss| - 1];
      if last.MapInterface? then prior + OwnedBy(last.rpc, last.members, table.namespaces) else prior
  }

  datatype Group = Group(rpc: RpcMap, members: seq<Member>)

  function AddMember(groups: seq<Group>, rpc: RpcMap, member: Member): seq<Group> {
    if groups == [] then [Group(rpc, [member])]
    else if groups[0].rpc == rpc then [Group(rpc, groups[0].members + [member])] + groups[1..]
    else [groups[0]] + AddMember(groups[1..], rpc, member)
  }

  /** A file's members, by map. */
  function GroupsOf(stream: seq<Owned>, file: string): seq<Group> {
    if stream == [] then []
    else
      var prior, last := GroupsOf(stream[..|stream| - 1], file), stream[|stream| - 1];
      if last.owner == file then AddMember(prior, last.rpc, last.member) else prior
  }

  // ---- The files, in the order they first receive something

  function FirstSeen(names: seq<string>): seq<string> {
    if names == [] then []
    else
      var prior, last := FirstSeen(names[..|names| - 1]), names[|names| - 1];
      if last in prior then prior else prior + [last]
  }

  function Owners(stream: seq<Owned>): (r: seq<string>)
    ensures |r| == |stream|
  {
    if stream == [] then [] else Owners(stream[..|stream| - 1]) + [stream[|stream| - 1].owner]
  }

  /** The files of the plain statements that leave the index. */
  function PieceHomes(ss: seq<Statement>, table: Table): seq<string> {
    if ss == [] then []
    else
      var prior := PieceHomes(ss[..|ss| - 1], table);
      if ss[|ss| - 1].Plain? && Home(ss, table) != "index" then prior + [Home(ss, table)] else prior
  }

  /** The file of every statement or member that leaves the index, in source order. */
  function Landings(ss: seq<Statement>, table: Table): seq<string> {
    if ss == [] then []
    else
      var prior, last := Landings(ss[..|ss| - 1], table), ss[|ss| - 1];
      if last.MapInterface? then prior + Owners(OwnedBy(last.rpc, last.members, table.namespaces))
      else if last.Plain? && Home(ss, table) != "index" then prior + [Home(ss, table)]
      else prior
  }

  function Files(ss: seq<Statement>, table: Table): seq<string> {
    FirstSeen(Landings(ss, table))
  }

  // ---- Refusals

  predicate HasAnchors(ss: seq<Statement>, table: Table) {
    forall anchor <- table.anchors.Keys :: exists s <- ss :: exists d <- Declared(s) :: d.name == anchor
  }

  predicate HasOwners(s: Statement, table: Table) {
    s.MapInterface? ==> forall o <- OwnedBy(s.rpc, s.members, table.namespaces) :: o.owner != "index"
  }

  predicate AllOwned(ss: seq<Statement>, table: Table) {
    forall s <- ss :: HasOwners(s, table)
  }

  predicate Ends(s: Statement) { s.MapInterface? ==> s.tail == "" }

  predicate NamesImports(s: Statement) {
    s.Import? ==> forall p <- s.specifiers :: p.Named?
  }

  predicate AllNamed(ss: seq<Statement>) {
    forall s <- ss :: NamesImports(s)
  }

  predicate Splits(ss: seq<Statement>, table: Table) {
    && HasAnchors(ss, table)
    && AllOwned(ss, table)
    && (forall s <- ss :: Ends(s))
    && AllNamed(ss)
  }

  // ---- What each name is, and where from

  datatype Symbol = Symbol(from: string, isType: bool, imported: Option<string>)

  function Module(file: string): string { "./" + file }

  function SpecifierSymbol(s: Statement, p: Specifier): Symbol
    requires s.Import? && p.Named?
  {
    Symbol(s.from, s.typeOnly || p.typeOnly, if p.imported == p.local then None else Some(p.imported))
  }

  function SpecifierMap(s: Statement, ps: seq<Specifier>): map<string, Symbol>
    requires s.Import? && forall p <- ps :: p.Named?
  {
    if ps == [] then map[]
    else
      var last := ps[|ps| - 1];
      SpecifierMap(s, ps[..|ps| - 1])[last.local := SpecifierSymbol(s, last)]
  }

  function ImportMap(ss: seq<Statement>): map<string, Symbol>
    requires AllNamed(ss)
  {
    if ss == [] then map[]
    else
      var prior, last := ImportMap(ss[..|ss| - 1]), ss[|ss| - 1];
      assert NamesImports(last);
      if last.Import? then prior + SpecifierMap(last, last.specifiers) else prior
  }

  function NameMap(names: seq<Declaration>, from: string): map<string, Symbol> {
    if names == [] then map[]
    else
      var last := names[|names| - 1];
      NameMap(names[..|names| - 1], from)[last.name := Symbol(from, last.isType, None)]
  }

  function PieceMap(pieces: seq<Statement>, from: string): map<string, Symbol> {
    if pieces == [] then map[]
    else
      var prior, last := PieceMap(pieces[..|pieces| - 1], from), pieces[|pieces| - 1];
      if last.Plain? then prior + NameMap(last.names, from) else prior
  }

  function PartsMap(files: seq<string>, ss: seq<Statement>, table: Table): map<string, Symbol> {
    if files == [] then map[]
    else
      var file := files[|files| - 1];
      PartsMap(files[..|files| - 1], ss, table) + PieceMap(PiecesOf(ss, table, file), Module(file))
  }

  predicate Lower(c: char) { 'a' <= c <= 'z' }

  function Upper(c: char): char
    requires Lower(c)
  {
    (c as int - 32) as char
  }

  function PascalFrom(file: string, start: bool): string {
    if file == "" then ""
    else if start && Lower(file[0]) then [Upper(file[0])] + PascalFrom(file[1..], false)
    else if file[0] == '-' && |file| > 1 && Lower(file[1]) then [Upper(file[1])] + PascalFrom(file[2..], false)
    else [file[0]] + PascalFrom(file[1..], false)
  }

  /** `agent-door` is `AgentDoor`. */
  function Pascal(file: string): string { PascalFrom(file, true) }

  function DomainName(file: string, rpc: RpcMap): string { Pascal(file) + MapName(rpc) }

  function GroupMap(file: string, groups: seq<Group>): map<string, Symbol> {
    if groups == [] then map[]
    else
      GroupMap(file, groups[..|groups| - 1])[
        DomainName(file, groups[|groups| - 1].rpc) := Symbol(Module(file), true, None)]
  }

  function DomainMap(files: seq<string>, stream: seq<Owned>): map<string, Symbol> {
    if files == [] then map[]
    else
      var file := files[|files| - 1];
      DomainMap(files[..|files| - 1], stream) + GroupMap(file, GroupsOf(stream, file))
  }

  function MapsMap(): map<string, Symbol> {
    map["RpcMethods" := Symbol(Module("index"), true, None), "RpcEvents" := Symbol(Module("index"), true, None)]
  }

  /** Every name a file may import; a later table wins. */
  function Symbols(ss: seq<Statement>, table: Table): map<string, Symbol>
    requires AllNamed(ss)
  {
    ImportMap(ss)
      + PartsMap(FirstSeen(PieceHomes(ss, table)), ss, table)
      + DomainMap(FirstSeen(Owners(Stream(ss, table))), Stream(ss, table))
      + MapsMap()
      + PieceMap(IndexOf(ss, table), Module("index"))
  }

  // ---- What each file reads

  /** A name is read as a type only as long as every read of it is. */
  function Note(found: seq<Read>, r: Read): seq<Read> {
    if found == [] then [r]
    else if found[0].name == r.name then [Read(r.name, found[0].onlyType && r.onlyType)] + found[1..]
    else [found[0]] + Note(found[1..], r)
  }

  function NoteAll(found: seq<Read>, refs: seq<Read>): seq<Read> {
    if refs == [] then found else Note(NoteAll(found, refs[..|refs| - 1]), refs[|refs| - 1])
  }

  /** `reads.set(name, true)`, whatever was noted before. */
  function Put(found: seq<Read>, name: string): seq<Read> {
    if found == [] then [Read(name, true)]
    else if found[0].name == name then [Read(name, true)] + found[1..]
    else [found[0]] + Put(found[1..], name)
  }

  function PutAll(found: seq<Read>, names: seq<string>): seq<Read> {
    if names == [] then found else Put(PutAll(found, names[..|names| - 1]), names[|names| - 1])
  }

  function PieceReads(pieces: seq<Statement>): seq<Read> {
    if pieces == [] then []
    else
      var prior, last := PieceReads(pieces[..|pieces| - 1]), pieces[|pieces| - 1];
      if last.Plain? then NoteAll(prior, last.refs) else prior
  }

  function MemberReads(found: seq<Read>, members: seq<Member>): seq<Read> {
    if members == [] then found
    else NoteAll(MemberReads(found, members[..|members| - 1]), members[|members| - 1].refs)
  }

  function GroupReads(found: seq<Read>, groups: seq<Group>): seq<Read> {
    if groups == [] then found
    else MemberReads(GroupReads(found, groups[..|groups| - 1]), groups[|groups| - 1].members)
  }

  function FileReads(pieces: seq<Statement>, groups: seq<Group>): seq<Read> {
    GroupReads(PieceReads(pieces), groups)
  }

  function ParentNames(parents: seq<Parent>): (r: seq<string>)
    ensures |r| == |parents|
  {
    if parents == [] then [] else ParentNames(parents[..|parents| - 1]) + [parents[|parents| - 1].name]
  }

  predicate HasGroup(groups: seq<Group>, rpc: RpcMap) {
    exists g <- groups :: g.rpc == rpc
  }

  /** The domain interfaces a map of the index extends, in file order. */
  function Domains(files: seq<string>, stream: seq<Owned>, rpc: RpcMap): seq<string> {
    if files == [] then []
    else
      var prior, file := Domains(files[..|files| - 1], stream, rpc), files[|files| - 1];
      if HasGroup(GroupsOf(stream, file), rpc) then prior + [DomainName(file, rpc)] else prior
  }

  function Parents(s: Statement, files: seq<string>, stream: seq<Owned>): seq<string>
    requires s.MapInterface?
  {
    ParentNames(s.parents) + Domains(files, stream, s.rpc)
  }

  /** A statement's names are noted, the parents of a map are put down as types. */
  function AddReads(found: seq<Read>, s: Statement, files: seq<string>, stream: seq<Owned>): seq<Read> {
    match s
    case Plain(_, refs, _) => NoteAll(found, refs)
    case MapInterface(_, _, _, _) => PutAll(found, Parents(s, files, stream))
    case _ => found
  }

  function IndexReads(index: seq<Statement>, files: seq<string>, stream: seq<Owned>): seq<Read> {
    if index == [] then []
    else
      var prior, last := IndexReads(index[..|index| - 1], files, stream), index[|index| - 1];
      AddReads(prior, last, files, stream)
  }

  // ---- The import header

  datatype Binding = Binding(local: string, imported: string)
  datatype Line = Line(from: string, typeOnly: bool, names: seq<Binding>)
  datatype Use = Use(binding: Binding, from: string, typeOnly: bool)

  predicate ReadLe(a: Read, b: Read) { TextLe(a.name, b.name) }

  predicate Needs(self: string, r: Read, symbols: map<string, Symbol>) {
    r.name in symbols && symbols[r.name].from != self
  }

  function UseOf(r: Read, symbol: Symbol): Use {
    Use(Binding(r.name, if symbol.imported.Some? then symbol.imported.value else r.name),
        symbol.from, symbol.isType || r.onlyType)
  }

  function Uses(self: string, refs: seq<Read>, symbols: map<string, Symbol>): seq<Use> {
    if refs == [] then []
    else
      var prior, last := Uses(self, refs[..|refs| - 1], symbols), refs[|refs| - 1];
      if Needs(self, last, symbols) then prior + [UseOf(last, symbols[last.name])] else prior
  }

  function ModulesOf(uses: seq<Use>): (r: seq<string>)
    ensures |r| == |uses|
  {
    if uses == [] then [] else ModulesOf(uses[..|uses| - 1]) + [uses[|uses| - 1].from]
  }

  function Pick(uses: seq<Use>, from: string, typeOnly: bool): seq<Binding> {
    if uses == [] then []
    else
      var prior, last := Pick(uses[..|uses| - 1], from, typeOnly), uses[|uses| - 1];
      if last.from == from && last.typeOnly == typeOnly then prior + [last.binding] else prior
  }

  function LineOf(uses: seq<Use>, from: string, typeOnly: bool): seq<Line> {
    if Pick(uses, from, typeOnly) == [] then [] else [Line(from, typeOnly, Pick(uses, from, typeOnly))]
  }

  /** The types of a module first, then its values. */
  function ModuleLines(uses: seq<Use>, from: string): seq<Line> {
    LineOf(uses, from, true) + LineOf(uses, from, false)
  }

  function LinesOf(modules: seq<string>, uses: seq<Use>): seq<Line> {
    if modules == [] then []
    else LinesOf(modules[..|modules| - 1], uses) + ModuleLines(uses, modules[|modules| - 1])
  }

  function Header(self: string, refs: seq<Read>, symbols: map<string, Symbol>): seq<Line> {
    var uses := Uses(self, Sort(refs, ReadLe), symbols);
    LinesOf(Sort(FirstSeen(ModulesOf(uses)), TextLe), uses)
  }

  // ---- The files written

  datatype SplitFile = SplitFile(name: string, header: seq<Line>, pieces: seq<Statement>, maps: seq<Group>)
  datatype Composed = Kept(statement: Statement) | Extends(rpc: RpcMap, parents: seq<string>)
  datatype IndexFile = IndexFile(leading: seq<Statement>, header: seq<Line>, reexports: seq<string>,
      composed: seq<Composed>)
  datatype Output = Output(files: seq<SplitFile>, index: IndexFile)

  function FileWith(file: string, pieces: seq<Statement>, groups: seq<Group>, symbols: map<string, Symbol>): SplitFile {
    SplitFile(file, Header(Module(file), FileReads(pieces, groups), symbols), pieces, groups)
  }

  function FileOf(ss: seq<Statement>, table: Table, file: string): SplitFile
    requires AllNamed(ss)
  {
    FileWith(file, PiecesOf(ss, table, file), GroupsOf(Stream(ss, table), file), Symbols(ss, table))
  }

  predicate Noted(refs: seq<Read>, name: string) {
    exists r <- refs :: r.name == name
  }

  /** An import stays when one of its names is read; everything else stays. */
  predicate Used(s: Statement, refs: seq<Read>) {
    s.Import? ==> exists p <- s.specifiers :: Noted(refs, p.local)
  }

  function KeepUsed(top: seq<Statement>, refs: seq<Read>): seq<Statement> {
    if top == [] then []
    else
      var prior, last := KeepUsed(top[..|top| - 1], refs), top[|top| - 1];
      if Used(last, refs) then prior + [last] else prior
  }

  function Compose(index: seq<Statement>, refs: seq<Read>, files: seq<string>, stream: seq<Owned>): seq<Composed> {
    if index == [] then []
    else
      var prior, last := Compose(index[..|index| - 1], refs, files, stream), index[|index| - 1];
      if last.MapInterface? then prior + [Extends(last.rpc, Parents(last, files, stream))]
      else if Used(last, refs) then prior + [Kept(last)]
      else prior
  }

  /** The names that now come from a split file. */
  function Local(symbols: map<string, Symbol>, files: seq<string>): map<string, Symbol> {
    map name | name in symbols && FromFile(symbols[name], files) :: symbols[name]
  }

  predicate FromFile(symbol: Symbol, files: seq<string>) {
    |symbol.from| >= 2 && symbol.from[..2] == "./" && symbol.from[2..] in files
  }

  function IndexFileOf(ss: seq<Statement>, table: Table): IndexFile
    requires AllNamed(ss)
  {
    var files, stream, index := Files(ss, table), Stream(ss, table), IndexOf(ss, table);
    var refs := IndexReads(index, files, stream);
    IndexFile(KeepUsed(Top(ss), refs), Header(Module("index"), refs, Local(Symbols(ss, table), files)),
              files, Compose(index, refs, files, stream))
  }

  function FilesOf(files: seq<string>, ss: seq<Statement>, table: Table): (r: seq<SplitFile>)
    requires AllNamed(ss)
    ensures |r| == |files|
    ensures forall k :: 0 <= k < |files| ==> r[k] == FileOf(ss, table, files[k])
  {
    if files == [] then []
    else FilesOf(files[..|files| - 1], ss, table) + [FileOf(ss, table, files[|files| - 1])]
  }

  function OutputOf(ss: seq<Statement>, table: Table): Output
    requires AllNamed(ss)
  {
    Output(FilesOf(Files(ss, table), ss, table), IndexFileOf(ss, table))
  }
}
