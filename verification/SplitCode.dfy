/** `splitContracts` and `importHeader` as they run (`scripts/migrate/split-contracts.ts`):
    maps and lists updated statement by statement, proved to give the split that module
    `SplitContracts` describes. */
module SplitCode {
  import opened Results
  import opened Sorting
  import opened Text
  import opened SplitContracts

  // ---- The import header

  method ImportHeader(self: string, refs: seq<Read>, symbols: map<string, Symbol>) returns (lines: seq<Line>)
    ensures lines == Header(self, refs, symbols)
  {
    var sorted := Sort(refs, ReadLe);
    var modules, types, values := ByModule(self, sorted, symbols);
    SortPermutes(modules, TextLe);
    var inOrder := Sort(modules, TextLe);
    assert forall m <- inOrder :: m in multiset(inOrder);
    lines := WriteLines(inOrder, modules, types, values, Uses(self, sorted, symbols));
  }

  method ByModule(self: string, sorted: seq<Read>, symbols: map<string, Symbol>)
    returns (modules: seq<string>, types: map<string, seq<Binding>>, values: map<string, seq<Binding>>)
    ensures Buckets(types, values, modules, Uses(self, sorted, symbols))
  {
    modules, types, values := [], map[], map[];
    for i := 0 to |sorted|
      invariant Buckets(types, values, modules, Uses(self, sorted[..i], symbols))
    {
      var r := sorted[i];
      PushRead(self, sorted[..i], r, symbols);
      assert sorted[..i + 1] == sorted[..i] + [r];
      if r.name in symbols && symbols[r.name].from != self {
        modules, types, values :=
          AddUse(modules, types, values, Uses(self, sorted[..i], symbols), UseOf(r, symbols[r.name]));
      }
    }
    assert sorted[..|sorted|] == sorted;
  }

  lemma PushRead(self: string, refs: seq<Read>, r: Read, symbols: map<string, Symbol>)
    ensures Uses(self, refs + [r], symbols)
         == if Needs(self, r, symbols) then Uses(self, refs, symbols) + [UseOf(r, symbols[r.name])]
            else Uses(self, refs, symbols)
  {
    var grown := refs + [r];
    assert grown[..|grown| - 1] == refs;
  }

  method AddUse(modules: seq<string>, types: map<string, seq<Binding>>, values: map<string, seq<Binding>>,
                ghost uses: seq<Use>, use: Use)
    returns (modules': seq<string>, types': map<string, seq<Binding>>, values': map<string, seq<Binding>>)
    requires Buckets(types, values, modules, uses)
    ensures Buckets(types', values', modules', uses + [use])
  {
    var from := use.from;
    modules', types', values' := modules, types, values;
    PushUse(uses, use);
    if from !in modules {
      NoUse(uses, from, true);
      NoUse(uses, from, false);
      modules', types', values' := modules + [from], types[from := []], values[from := []];
    }
    if use.typeOnly {
      types' := types'[from := types'[from] + [use.binding]];
    } else {
      values' := values'[from := values'[from] + [use.binding]];
    }
  }

  method WriteLines(inOrder: seq<string>, ghost modules: seq<string>, types: map<string, seq<Binding>>,
                    values: map<string, seq<Binding>>, ghost uses: seq<Use>)
    returns (lines: seq<Line>)
    requires Buckets(types, values, modules, uses)
    requires forall m <- inOrder :: m in modules
    ensures lines == LinesOf(inOrder, uses)
  {
    lines := [];
    for i := 0 to |inOrder|
      invariant lines == LinesOf(inOrder[..i], uses)
    {
      assert inOrder[..i + 1][..i] == inOrder[..i];
      var m := inOrder[i];
      assert m in modules;
      if types[m] != [] {
        lines := lines + [Line(m, true, types[m])];
      }
      if values[m] != [] {
        lines := lines + [Line(m, false, values[m])];
      }
    }
    assert inOrder[..|inOrder|] == inOrder;
  }

  /** The two lists of each module, as far as the uses go, and the modules in the order first used. */
  ghost predicate Buckets(types: map<string, seq<Binding>>, values: map<string, seq<Binding>>,
                          modules: seq<string>, uses: seq<Use>)
  {
    && modules == FirstSeen(ModulesOf(uses))
    && (forall m :: m in types <==> m in modules)
    && (forall m :: m in values <==> m in modules)
    && (forall m <- modules :: types[m] == Pick(uses, m, true))
    && (forall m <- modules :: values[m] == Pick(uses, m, false))
  }

  function Extended(names: seq<Binding>, use: Use, from: string, typeOnly: bool): seq<Binding> {
    if use.from == from && use.typeOnly == typeOnly then names + [use.binding] else names
  }

  lemma PushUse(uses: seq<Use>, use: Use)
    ensures ModulesOf(uses + [use]) == ModulesOf(uses) + [use.from]
    ensures FirstSeen(ModulesOf(uses + [use]))
         == if use.from in FirstSeen(ModulesOf(uses)) then FirstSeen(ModulesOf(uses))
            else FirstSeen(ModulesOf(uses)) + [use.from]
    ensures forall m, t :: Pick(uses + [use], m, t) == Extended(Pick(uses, m, t), use, m, t)
  {
    var grown := uses + [use];
    assert grown[..|grown| - 1] == uses;
    var names := ModulesOf(grown);
    assert names[..|names| - 1] == ModulesOf(uses);
  }

  lemma {:induction false} FirstSeenKeeps(names: seq<string>, name: string)
    ensures name in FirstSeen(names) <==> name in names
  {
    if names != [] {
      var prior := names[..|names| - 1];
      FirstSeenKeeps(prior, name);
      assert names == prior + [names[|names| - 1]];
    }
  }

  lemma {:induction false} NoUse(uses: seq<Use>, from: string, typeOnly: bool)
    requires from !in FirstSeen(ModulesOf(uses))
    ensures Pick(uses, from, typeOnly) == []
  {
    FirstSeenKeeps(ModulesOf(uses), from);
    if uses != [] {
      var prior := uses[..|uses| - 1];
      FirstSeenKeeps(ModulesOf(prior), from);
      assert forall m <- ModulesOf(prior) :: m in ModulesOf(uses);
      NoUse(prior, from, typeOnly);
    }
  }

  // ---- Statement by statement

  function PiecesIn(parts: map<string, seq<Statement>>, file: string): seq<Statement> {
    if file in parts then parts[file] else []
  }

  function GroupsIn(members: map<string, seq<Group>>, file: string): seq<Group> {
    if file in members then members[file] else []
  }

  ghost predicate PartsHold(parts: map<string, seq<Statement>>, partFiles: seq<string>,
                            ss: seq<Statement>, table: Table)
  {
    && partFiles == FirstSeen(PieceHomes(ss, table))
    && parts.Keys == Elements(partFiles)
    && forall f :: f != "index" ==> PiecesIn(parts, f) == PiecesOf(ss, table, f)
  }

  ghost predicate MembersHold(members: map<string, seq<Group>>, memberFiles: seq<string>, stream: seq<Owned>) {
    && memberFiles == FirstSeen(Owners(stream))
    && members.Keys == Elements(memberFiles)
    && forall f :: GroupsIn(members, f) == GroupsOf(stream, f)
  }

  ghost function Elements(names: seq<string>): set<string> {
    set name | name in names
  }

  function WithKey<V>(files: seq<string>, entries: map<string, V>, file: string): seq<string> {
    if file in entries then files else files + [file]
  }

  function WithName(names: seq<string>, name: string): seq<string> {
    if name in names then names else names + [name]
  }

  lemma MemberTaken(members: map<string, seq<Group>>, memberFiles: seq<string>, stream: seq<Owned>, o: Owned)
    requires MembersHold(members, memberFiles, stream)
    ensures MembersHold(members[o.owner := AddMember(GroupsIn(members, o.owner), o.rpc, o.member)],
                        WithKey(memberFiles, members, o.owner), stream + [o])
  {
    var after := members[o.owner := AddMember(GroupsIn(members, o.owner), o.rpc, o.member)];
    PushOwner(stream, o);
    PushSeen(Owners(stream), o.owner);
    assert o.owner in members.Keys <==> o.owner in memberFiles;
    forall f ensures GroupsIn(after, f) == GroupsOf(stream + [o], f) {
      PushGroup(stream, o, f);
      assert GroupsIn(members, f) == GroupsOf(stream, f);
    }
  }

  lemma KeyTaken(keys: set<string>, files: seq<string>, file: string)
    requires keys == Elements(files)
    ensures file in keys <==> file in files
    ensures keys + {file} == Elements(if file in keys then files else files + [file])
  {
    assert file in files + [file];
  }

  lemma PieceTaken(parts: map<string, seq<Statement>>, partFiles: seq<string>, ss: seq<Statement>, table: Table,
                   s: Statement, file: string)
    requires PartsHold(parts, partFiles, ss, table)
    requires s.Plain? && file == Home(ss + [s], table) && file != "index"
    ensures PartsHold(parts[file := PiecesIn(parts, file) + [s]], WithKey(partFiles, parts, file), ss + [s], table)
  {
    var after := parts[file := PiecesIn(parts, file) + [s]];
    PushLanding(ss, table, s);
    PushSeen(PieceHomes(ss, table), file);
    KeyTaken(parts.Keys, partFiles, file);
    assert after.Keys == parts.Keys + {file};
    forall f | f != "index" ensures PiecesIn(after, f) == PiecesOf(ss + [s], table, f) {
      PieceAfter(parts, ss, table, s, file, f);
    }
  }

  lemma PieceAfter(parts: map<string, seq<Statement>>, ss: seq<Statement>, table: Table, s: Statement,
                   file: string, f: string)
    requires PiecesIn(parts, f) == PiecesOf(ss, table, f)
    requires s.Plain? && file == Home(ss + [s], table)
    ensures PiecesIn(parts[file := PiecesIn(parts, file) + [s]], f) == PiecesOf(ss + [s], table, f)
  {
    PushPiece(ss, table, s, f);
  }

  lemma PieceStays(parts: map<string, seq<Statement>>, partFiles: seq<string>, ss: seq<Statement>, table: Table,
                   s: Statement)
    requires PartsHold(parts, partFiles, ss, table)
    requires s.Plain? ==> Home(ss + [s], table) == "index"
    ensures PartsHold(parts, partFiles, ss + [s], table)
  {
    PushLanding(ss, table, s);
    forall f | f != "index" ensures PiecesIn(parts, f) == PiecesOf(ss + [s], table, f) {
      PushPiece(ss, table, s, f);
    }
  }

  /** The variables of the loop over statements. The keys of `parts` and of `members`, in
      insertion order, stand beside the maps. */
  datatype Progress = Progress(
    file: string, leading: bool, top: seq<Statement>, index: seq<Statement>,
    parts: map<string, seq<Statement>>, partFiles: seq<string>,
    members: map<string, seq<Group>>, memberFiles: seq<string>, order: seq<string>)

  const START := Progress("index", true, [], [], map[], [], map[], [], [])

  function Place(p: Progress, o: Owned): Progress {
    p.(memberFiles := WithKey(p.memberFiles, p.members, o.owner),
       members := p.members[o.owner := AddMember(GroupsIn(p.members, o.owner), o.rpc, o.member)],
       order := WithName(p.order, o.owner))
  }

  function PlaceAll(p: Progress, owned: seq<Owned>): Progress {
    if owned == [] then p else Place(PlaceAll(p, owned[..|owned| - 1]), owned[|owned| - 1])
  }

  /** `add`, and the file's place in the order. */
  function AddPiece(p: Progress, s: Statement): Progress {
    p.(partFiles := WithKey(p.partFiles, p.parts, p.file),
       parts := p.parts[p.file := PiecesIn(p.parts, p.file) + [s]],
       order := WithName(p.order, p.file))
  }

  function Step(p: Progress, s: Statement, table: Table): Progress {
    var anchor := AnchorOf(Declared(s), table.anchors);
    var q := if anchor.Some? then p.(file := anchor.value) else p;
    if IsModule(s) then
      if q.leading then q.(top := q.top + [s]) else q.(index := q.index + [s])
    else if s.MapInterface? then
      var r := PlaceAll(q.(leading := false), OwnedBy(s.rpc, s.members, table.namespaces));
      r.(index := r.index + [s])
    else if q.file == "index" then q.(leading := false, index := q.index + [s])
    else AddPiece(q.(leading := false), s)
  }

  function After(ss: seq<Statement>, table: Table): Progress {
    if ss == [] then START else Step(After(ss[..|ss| - 1], table), ss[|ss| - 1], table)
  }

  class Splitter {
    const table: Table
    var file: string
    var leading: bool
    var top: seq<Statement>
    var index: seq<Statement>
    var parts: map<string, seq<Statement>>
    var partFiles: seq<string>
    var members: map<string, seq<Group>>
    var memberFiles: seq<string>
    var order: seq<string>

    ghost function Now(): Progress
      reads this
    {
      Progress(file, leading, top, index, parts, partFiles, members, memberFiles, order)
    }

    constructor (table: Table)
      ensures this.table == table && Now() == START
    {
      this.table := table;
      file, leading, top, index := "index", true, [], [];
      parts, partFiles, members, memberFiles, order := map[], [], map[], [], [];
    }

    /** One member of a map: to the file of its namespace, or of the member above it. */
    method TakeMember(rpc: RpcMap, member: Member, owner: string)
      modifies this
      ensures Now() == Place(old(Now()), Owned(rpc, member, owner))
    {
      if owner !in members {
        memberFiles := memberFiles + [owner];
      }
      members := members[owner := AddMember(GroupsIn(members, owner), rpc, member)];
      if owner !in order {
        order := order + [owner];
      }
    }

    method TakeMembers(rpc: RpcMap, list: seq<Member>) returns (placed: bool)
      modifies this
      ensures placed <==> Homed(OwnedBy(rpc, list, table.namespaces))
      ensures placed ==> Now() == PlaceAll(old(Now()), OwnedBy(rpc, list, table.namespaces))
    {
      var owner := "index";
      assert list[..0] == [];
      for i := 0 to |list|
        invariant owner == Owner(list[..i], table.namespaces)
        invariant Homed(OwnedBy(rpc, list[..i], table.namespaces))
        invariant Now() == PlaceAll(old(Now()), OwnedBy(rpc, list[..i], table.namespaces))
      {
        NextOwned(rpc, list, table.namespaces, i);
        PushPlace(old(Now()), OwnedBy(rpc, list[..i], table.namespaces),
                  Owned(rpc, list[i], Owner(list[..i + 1], table.namespaces)));
        var name := BeforeDot(list[i].key);
        if name in table.namespaces {
          owner := table.namespaces[name];
        }
        if owner == "index" {
          NotHomed(rpc, list, table.namespaces, i);
          return false;
        }
        TakeMember(rpc, list[i], owner);
      }
      assert list[..|list|] == list;
      placed := true;
    }

    method Add(piece: Statement)
      modifies this
      ensures Now() == AddPiece(old(Now()), piece)
    {
      if file !in parts {
        partFiles := partFiles + [file];
      }
      parts := parts[file := PiecesIn(parts, file) + [piece]];
      if file !in order {
        order := order + [file];
      }
    }

    /** One statement. A refusal says why. */
    method Take(s: Statement) returns (refusal: Option<string>)
      modifies this
      ensures refusal.None? <==> HasOwners(s, table) && Ends(s)
      ensures refusal.None? ==> Now() == Step(old(Now()), s, table)
    {
      refusal := None;
      var anchor := AnchorOf(Declared(s), table.anchors);
      if anchor.Some? {
        file := anchor.value;
      }
      if IsModule(s) {
        if leading {
          top := top + [s];
        } else {
          index := index + [s];
        }
        return;
      }
      leading := false;
      if s.MapInterface? {
        var placed := TakeMembers(s.rpc, s.members);
        if !placed {
          return Some("a map member has no namespace file");
        }
        if s.tail != "" {
          return Some("text after the last map member");
        }
        index := index + [s];
        return;
      }
      if file == "index" {
        index := index + [s];
        return;
      }
      Add(s);
    }
  }

  // ---- What one more statement, member or file adds

  lemma PushSeen(names: seq<string>, name: string)
    ensures FirstSeen(names + [name])
         == if name in FirstSeen(names) then FirstSeen(names) else FirstSeen(names) + [name]
  {
    var grown := names + [name];
    assert grown[..|grown| - 1] == names;
  }

  lemma PushOwner(stream: seq<Owned>, o: Owned)
    ensures Owners(stream + [o]) == Owners(stream) + [o.owner]
  {
    var grown := stream + [o];
    assert grown[..|grown| - 1] == stream;
  }

  lemma PushGroup(stream: seq<Owned>, o: Owned, f: string)
    ensures GroupsOf(stream + [o], f)
         == if o.owner == f then AddMember(GroupsOf(stream, f), o.rpc, o.member) else GroupsOf(stream, f)
  {
    var grown := stream + [o];
    assert grown[..|grown| - 1] == stream;
  }

  ghost predicate Homed(owned: seq<Owned>) {
    forall o <- owned :: o.owner != "index"
  }

  lemma NextOwned(rpc: RpcMap, list: seq<Member>, namespaces: map<string, string>, i: nat)
    requires i < |list|
    ensures Owner(list[..i + 1], namespaces)
         == var before := BeforeDot(list[i].key);
            if before in namespaces then namespaces[before] else Owner(list[..i], namespaces)
    ensures OwnedBy(rpc, list[..i + 1], namespaces)
         == OwnedBy(rpc, list[..i], namespaces) + [Owned(rpc, list[i], Owner(list[..i + 1], namespaces))]
  {
    assert list[..i + 1][..i] == list[..i];
  }

  lemma {:induction false} OwnedPrefix(rpc: RpcMap, list: seq<Member>, namespaces: map<string, string>, n: nat)
    requires n <= |list|
    ensures OwnedBy(rpc, list[..n], namespaces) <= OwnedBy(rpc, list, namespaces)
    decreases |list|
  {
    if n < |list| {
      OwnedPrefix(rpc, list[..|list| - 1], namespaces, n);
      assert list[..|list| - 1][..n] == list[..n];
    } else {
      assert list[..n] == list;
    }
  }

  lemma NotHomed(rpc: RpcMap, list: seq<Member>, namespaces: map<string, string>, i: nat)
    requires i < |list| && Owner(list[..i + 1], namespaces) == "index"
    ensures !Homed(OwnedBy(rpc, list, namespaces))
  {
    NextOwned(rpc, list, namespaces, i);
    OwnedPrefix(rpc, list, namespaces, i + 1);
    var all, some := OwnedBy(rpc, list, namespaces), OwnedBy(rpc, list[..i + 1], namespaces);
    assert all[i] == some[i] && all[i] in all && all[i].owner == "index";
  }

  lemma PushPlace(p: Progress, owned: seq<Owned>, o: Owned)
    ensures PlaceAll(p, owned + [o]) == Place(PlaceAll(p, owned), o)
    ensures Homed(owned + [o]) <==> Homed(owned) && o.owner != "index"
  {
    var grown := owned + [o];
    assert grown[..|grown| - 1] == owned && grown[|grown| - 1] == o;
    assert o in grown && forall p <- owned :: p in grown;
  }

  lemma PushHome(ss: seq<Statement>, table: Table, s: Statement)
    ensures Home(ss + [s], table)
         == var anchor := AnchorOf(Declared(s), table.anchors);
            if anchor.Some? then anchor.value else Home(ss, table)
    ensures AllModule(ss + [s]) == (AllModule(ss) && IsModule(s))
  {
    var grown := ss + [s];
    assert grown[..|grown| - 1] == ss && grown[|grown| - 1] == s;
    assert s in grown && forall t <- ss :: t in grown;
  }

  lemma PushTop(ss: seq<Statement>, table: Table, s: Statement)
    ensures Top(ss + [s]) == if IsModule(s) && AllModule(ss) then Top(ss) + [s] else Top(ss)
    ensures IndexOf(ss + [s], table)
         == if (if IsModule(s) then !AllModule(ss) else s.MapInterface? || Home(ss + [s], table) == "index")
            then IndexOf(ss, table) + [s] else IndexOf(ss, table)
  {
    var grown := ss + [s];
    assert grown[..|grown| - 1] == ss && grown[|grown| - 1] == s;
  }

  lemma PushLanding(ss: seq<Statement>, table: Table, s: Statement)
    ensures PieceHomes(ss + [s], table)
         == if s.Plain? && Home(ss + [s], table) != "index" then PieceHomes(ss, table) + [Home(ss + [s], table)]
            else PieceHomes(ss, table)
    ensures Landings(ss + [s], table)
         == if s.MapInterface? then Landings(ss, table) + Owners(OwnedBy(s.rpc, s.members, table.namespaces))
            else if s.Plain? && Home(ss + [s], table) != "index" then Landings(ss, table) + [Home(ss + [s], table)]
            else Landings(ss, table)
    ensures Stream(ss + [s], table)
         == if s.MapInterface? then Stream(ss, table) + OwnedBy(s.rpc, s.members, table.namespaces)
            else Stream(ss, table)
  {
    var grown := ss + [s];
    assert grown[..|grown| - 1] == ss && grown[|grown| - 1] == s;
  }

  lemma PushPiece(ss: seq<Statement>, table: Table, s: Statement, f: string)
    ensures PiecesOf(ss + [s], table, f)
         == if s.Plain? && Home(ss + [s], table) == f then PiecesOf(ss, table, f) + [s] else PiecesOf(ss, table, f)
  {
    var grown := ss + [s];
    assert grown[..|grown| - 1] == ss && grown[|grown| - 1] == s;
  }

  // ---- What the loop has after some statements

  ghost predicate ShellIs(p: Progress, ss: seq<Statement>, table: Table) {
    p.file == Home(ss, table) && p.leading == AllModule(ss) && p.top == Top(ss) && p.index == IndexOf(ss, table)
  }

  ghost predicate FilesAre(p: Progress, ss: seq<Statement>, table: Table) {
    && PartsHold(p.parts, p.partFiles, ss, table)
    && MembersHold(p.members, p.memberFiles, Stream(ss, table))
    && p.order == Files(ss, table)
  }

  ghost predicate HoldsMembers(p: Progress, stream: seq<Owned>) {
    MembersHold(p.members, p.memberFiles, stream)
  }

  lemma PlaceHolds(p: Progress, stream: seq<Owned>, o: Owned)
    requires HoldsMembers(p, stream)
    ensures HoldsMembers(Place(p, o), stream + [o])
  {
    MemberTaken(p.members, p.memberFiles, stream, o);
  }

  lemma LastJoins(stream: seq<Owned>, owned: seq<Owned>)
    requires owned != []
    ensures (stream + owned[..|owned| - 1]) + [owned[|owned| - 1]] == stream + owned
  {
  }

  lemma PlaceAllLast(p: Progress, owned: seq<Owned>)
    requires owned != []
    ensures PlaceAll(p, owned) == Place(PlaceAll(p, owned[..|owned| - 1]), owned[|owned| - 1])
  {
  }

  lemma {:induction false} PlacedMembers(p: Progress, owned: seq<Owned>, stream: seq<Owned>)
    requires HoldsMembers(p, stream)
    ensures HoldsMembers(PlaceAll(p, owned), stream + owned)
  {
    if owned == [] {
      assert stream + owned == stream;
    } else {
      var prior, o := owned[..|owned| - 1], owned[|owned| - 1];
      PlacedMembers(p, prior, stream);
      PlaceHolds(PlaceAll(p, prior), stream + prior, o);
      LastJoins(stream, owned);
      PlaceAllLast(p, owned);
    }
  }

  lemma {:induction false} PlacedOrder(p: Progress, owned: seq<Owned>, landings: seq<string>)
    requires p.order == FirstSeen(landings)
    ensures PlaceAll(p, owned).order == FirstSeen(landings + Owners(owned))
  {
    if owned == [] {
      assert landings + Owners(owned) == landings;
    } else {
      var prior, o := owned[..|owned| - 1], owned[|owned| - 1];
      PlacedOrder(p, prior, landings);
      PushSeen(landings + Owners(prior), o.owner);
      assert (landings + Owners(prior)) + [o.owner] == landings + Owners(owned);
    }
  }

  lemma {:induction false} PlacedOnly(p: Progress, owned: seq<Owned>)
    ensures var q := PlaceAll(p, owned);
            q == p.(members := q.members, memberFiles := q.memberFiles, order := q.order)
  {
    if owned != [] { PlacedOnly(p, owned[..|owned| - 1]); }
  }

  lemma StepShell(p: Progress, ss: seq<Statement>, s: Statement, table: Table)
    requires ShellIs(p, ss, table) && FilesAre(p, ss, table)
    ensures ShellIs(Step(p, s, table), ss + [s], table)
  {
    PushHome(ss, table, s);
    PushTop(ss, table, s);
    if s.MapInterface? {
      var anchor := AnchorOf(Declared(s), table.anchors);
      var q := if anchor.Some? then p.(file := anchor.value) else p;
      PlacedOnly(q.(leading := false), OwnedBy(s.rpc, s.members, table.namespaces));
    }
  }

  lemma StepFiles(p: Progress, ss: seq<Statement>, s: Statement, table: Table)
    requires ShellIs(p, ss, table) && FilesAre(p, ss, table)
    ensures FilesAre(Step(p, s, table), ss + [s], table)
  {
    PushHome(ss, table, s);
    PushLanding(ss, table, s);
    if s.Plain? && Home(ss + [s], table) != "index" {
      PieceTaken(p.parts, p.partFiles, ss, table, s, Home(ss + [s], table));
      PushSeen(Landings(ss, table), Home(ss + [s], table));
    } else {
      PieceStays(p.parts, p.partFiles, ss, table, s);
      if s.MapInterface? {
        var anchor := AnchorOf(Declared(s), table.anchors);
        var q := if anchor.Some? then p.(file := anchor.value) else p;
        PlacedOnly(q.(leading := false), OwnedBy(s.rpc, s.members, table.namespaces));
        PlacedMembers(q.(leading := false), OwnedBy(s.rpc, s.members, table.namespaces), Stream(ss, table));
        PlacedOrder(q.(leading := false), OwnedBy(s.rpc, s.members, table.namespaces), Landings(ss, table));
      }
    }
  }

  lemma StepIs(p: Progress, prior: seq<Statement>, s: Statement, table: Table, q: Progress, ss: seq<Statement>)
    requires ShellIs(p, prior, table) && FilesAre(p, prior, table) && q == Step(p, s, table) && ss == prior + [s]
    ensures ShellIs(q, ss, table) && FilesAre(q, ss, table)
  {
    StepShell(p, prior, s, table);
    StepFiles(p, prior, s, table);
  }

  /** The loop's variables hold what module `SplitContracts` says of the statements read. */
  lemma {:induction false} AfterIs(ss: seq<Statement>, table: Table)
    ensures ShellIs(After(ss, table), ss, table) && FilesAre(After(ss, table), ss, table)
  {
    if ss != [] {
      var prior, s := ss[..|ss| - 1], ss[|ss| - 1];
      AfterIs(prior, table);
      StepIs(After(prior, table), prior, s, table, After(ss, table), ss);
    }
  }

  // ---- The order of the files

  lemma {:induction false} FirstSeenOnce(names: seq<string>, name: string)
    ensures multiset(FirstSeen(names))[name] == if name in names then 1 else 0
  {
    if names != [] {
      var prior, last := names[..|names| - 1], names[|names| - 1];
      FirstSeenOnce(prior, name);
      FirstSeenKeeps(prior, last);
      assert names == prior + [last];
    }
  }

  lemma {:induction false} PushedLandings(ss: seq<Statement>, table: Table, file: string)
    ensures file in Landings(ss, table) <==> file in PieceHomes(ss, table) || file in Owners(Stream(ss, table))
  {
    if ss != [] {
      var prior, s := ss[..|ss| - 1], ss[|ss| - 1];
      PushedLandings(prior, table, file);
      if s.MapInterface? {
        OwnersJoin(Stream(prior, table), OwnedBy(s.rpc, s.members, table.namespaces));
      }
    }
  }

  lemma {:induction false} OwnersJoin(a: seq<Owned>, b: seq<Owned>)
    ensures Owners(a + b) == Owners(a) + Owners(b)
  {
    if b == [] {
      assert a + b == a;
    } else {
      var whole := a + b;
      assert whole[..|whole| - 1] == a + b[..|b| - 1];
      OwnersJoin(a, b[..|b| - 1]);
    }
  }

  /** `order.indexOf(name)`. */
  function IndexIn(order: seq<string>, name: string): int {
    if order == [] then -1
    else if order[0] == name then 0
    else
      var later := IndexIn(order[1..], name);
      if later < 0 then -1 else later + 1
  }

  function ByPosition(order: seq<string>): (string, string) -> bool {
    (a, b) => IndexIn(order, a) <= IndexIn(order, b)
  }

  lemma {:induction false} IndexInIs(order: seq<string>, name: string)
    ensures name in order ==> 0 <= IndexIn(order, name) < |order| && order[IndexIn(order, name)] == name
    ensures name !in order ==> IndexIn(order, name) == -1
  {
    if order != [] { IndexInIs(order[1..], name); }
  }

  lemma {:induction false} IndexInAt(order: seq<string>, i: nat)
    requires i < |order| && forall name :: multiset(order)[name] <= 1
    ensures IndexIn(order, order[i]) == i
  {
    assert order == [order[0]] + order[1..];
    if i > 0 {
      assert order[i] in multiset(order[1..]);
      assert multiset(order)[order[i]] == multiset([order[0]])[order[i]] + multiset(order[1..])[order[i]];
      assert order[0] != order[i];
      assert order[i] == order[1..][i - 1];
      forall name ensures multiset(order[1..])[name] <= 1 {
        assert multiset(order)[name] >= multiset(order[1..])[name];
      }
      IndexInAt(order[1..], i - 1);
    }
  }

  /** Sorting the keys of `parts` and `members` by their place in `order` gives `order`. */
  lemma FilesInOrder(ss: seq<Statement>, table: Table)
    ensures Sort(FirstSeen(FirstSeen(PieceHomes(ss, table)) + FirstSeen(Owners(Stream(ss, table)))),
                 ByPosition(Files(ss, table)))
         == Files(ss, table)
  {
    var order := Files(ss, table);
    var a, b := FirstSeen(PieceHomes(ss, table)), FirstSeen(Owners(Stream(ss, table)));
    var keys, le := FirstSeen(a + b), ByPosition(order);
    forall name ensures multiset(keys)[name] == multiset(order)[name] <= 1 {
      FirstSeenOnce(a + b, name);
      FirstSeenOnce(Landings(ss, table), name);
      FirstSeenKeeps(PieceHomes(ss, table), name);
      FirstSeenKeeps(Owners(Stream(ss, table)), name);
      PushedLandings(ss, table, name);
    }
    assert multiset(keys) == multiset(order);
    SortSorts(keys, le);
    SortPermutes(keys, le);
    forall i, j | 0 <= i < j < |order| ensures le(order[i], order[j]) {
      IndexInAt(order, i);
      IndexInAt(order, j);
    }
    forall x, y | x in order && le(x, y) && le(y, x) ensures x == y {
      IndexInIs(order, x);
      IndexInIs(order, y);
    }
    SortedUnique(order, Sort(keys, le), le);
  }

  // ---- The table of names

  method AddImports(symbols: map<string, Symbol>, ss: seq<Statement>)
    returns (refusal: Option<string>, named: map<string, Symbol>)
    ensures refusal.None? <==> AllNamed(ss)
    ensures refusal.None? ==> named == symbols + ImportMap(ss)
  {
    refusal, named := None, symbols;
    for i := 0 to |ss|
      invariant AllNamed(ss[..i]) && named == symbols + ImportMap(ss[..i])
    {
      assert ss[..i + 1][..i] == ss[..i];
      if ss[i].Import? {
        if exists p <- ss[i].specifiers :: p.Namespace? {
          assert !NamesImports(ss[i]);
          return Some("name the imports of a namespace import"), named;
        }
        assert NamesImports(ss[i]);
        named := AddSpecifiers(named, ss[i]);
      }
    }
    assert ss[..|ss|] == ss;
  }

  method AddSpecifiers(symbols: map<string, Symbol>, s: Statement) returns (named: map<string, Symbol>)
    requires s.Import? && NamesImports(s)
    ensures named == symbols + SpecifierMap(s, s.specifiers)
  {
    named := symbols;
    for i := 0 to |s.specifiers|
      invariant named == symbols + SpecifierMap(s, s.specifiers[..i])
    {
      assert s.specifiers[..i + 1][..i] == s.specifiers[..i];
      assert s.specifiers[i] in s.specifiers;
      named := named[s.specifiers[i].local := SpecifierSymbol(s, s.specifiers[i])];
    }
    assert s.specifiers[..|s.specifiers|] == s.specifiers;
  }

  lemma PlusJoins(a: map<string, Symbol>, b: map<string, Symbol>, c: map<string, Symbol>)
    ensures (a + b) + c == a + (b + c)
  {
  }

  method AddPieces(symbols: map<string, Symbol>, pieces: seq<Statement>, from: string)
    returns (named: map<string, Symbol>)
    ensures named == symbols + PieceMap(pieces, from)
  {
    named := symbols;
    for i := 0 to |pieces|
      invariant named == symbols + PieceMap(pieces[..i], from)
    {
      assert pieces[..i + 1][..i] == pieces[..i];
      if pieces[i].Plain? {
        var names := pieces[i].names;
        ghost var before := named;
        for k := 0 to |names|
          invariant named == before + NameMap(names[..k], from)
        {
          assert names[..k + 1][..k] == names[..k];
          named := named[names[k].name := Symbol(from, names[k].isType, None)];
        }
        assert names[..|names|] == names;
        PlusJoins(symbols, PieceMap(pieces[..i], from), NameMap(names, from));
      }
    }
    assert pieces[..|pieces|] == pieces;
  }

  method AddGroups(symbols: map<string, Symbol>, file: string, groups: seq<Group>)
    returns (named: map<string, Symbol>)
    ensures named == symbols + GroupMap(file, groups)
  {
    named := symbols;
    for i := 0 to |groups|
      invariant named == symbols + GroupMap(file, groups[..i])
    {
      assert groups[..i + 1][..i] == groups[..i];
      var name := DomainName(file, groups[i].rpc);
      MapPush(symbols, GroupMap(file, groups[..i]), name, Symbol(Module(file), true, None));
      named := named[name := Symbol(Module(file), true, None)];
    }
    assert groups[..|groups|] == groups;
  }

  lemma MapPush(a: map<string, Symbol>, b: map<string, Symbol>, name: string, symbol: Symbol)
    ensures (a + b)[name := symbol] == a + b[name := symbol]
  {
  }

  lemma MapJoin(a: map<string, Symbol>, b: map<string, Symbol>, c: map<string, Symbol>)
    ensures (a + b) + c == a + (b + c)
  {
  }

  /** Imports first, then the declarations, the domain maps, the two maps and what stays in the index. */
  method NameTable(p: Progress) returns (refusal: Option<string>, symbols: map<string, Symbol>)
    ensures refusal.None? <==> AllNamed(p.top + p.index)
    ensures refusal.None? ==> symbols == Named(p)
  {
    var none: map<string, Symbol> := map[];
    refusal, symbols := AddImports(none, p.top + p.index);
    if refusal.Some? {
      return;
    }
    ghost var imports := ImportMap(p.top + p.index);
    assert none + imports == imports;
    symbols := AddParts(symbols, p.partFiles, p.parts);
    symbols := AddDomains(symbols, p.memberFiles, p.members);
    symbols := AddMaps(symbols);
    symbols := AddPieces(symbols, p.index, Module("index"));
  }

  method AddMaps(symbols: map<string, Symbol>) returns (named: map<string, Symbol>)
    ensures named == symbols + MapsMap()
  {
    named := symbols["RpcMethods" := Symbol(Module("index"), true, None)];
    named := named["RpcEvents" := Symbol(Module("index"), true, None)];
  }

  function PartNames(files: seq<string>, parts: map<string, seq<Statement>>): map<string, Symbol> {
    if files == [] then map[]
    else
      var file := files[|files| - 1];
      PartNames(files[..|files| - 1], parts) + PieceMap(PiecesIn(parts, file), Module(file))
  }

  function DomainTable(files: seq<string>, members: map<string, seq<Group>>): map<string, Symbol> {
    if files == [] then map[]
    else
      var file := files[|files| - 1];
      DomainTable(files[..|files| - 1], members) + GroupMap(file, GroupsIn(members, file))
  }

  function Named(p: Progress): map<string, Symbol>
    requires AllNamed(p.top + p.index)
  {
    ImportMap(p.top + p.index)
      + PartNames(p.partFiles, p.parts)
      + DomainTable(p.memberFiles, p.members)
      + MapsMap()
      + PieceMap(p.index, Module("index"))
  }

  method AddParts(symbols: map<string, Symbol>, files: seq<string>, parts: map<string, seq<Statement>>)
    returns (named: map<string, Symbol>)
    ensures named == symbols + PartNames(files, parts)
  {
    named := symbols;
    for i := 0 to |files|
      invariant named == symbols + PartNames(files[..i], parts)
    {
      assert files[..i + 1][..i] == files[..i];
      var pieces := PiecesIn(parts, files[i]);
      MapJoin(symbols, PartNames(files[..i], parts), PieceMap(pieces, Module(files[i])));
      named := AddPieces(named, pieces, Module(files[i]));
    }
    assert files[..|files|] == files;
  }

  method AddDomains(symbols: map<string, Symbol>, files: seq<string>, members: map<string, seq<Group>>)
    returns (named: map<string, Symbol>)
    ensures named == symbols + DomainTable(files, members)
  {
    named := symbols;
    for i := 0 to |files|
      invariant named == symbols + DomainTable(files[..i], members)
    {
      assert files[..i + 1][..i] == files[..i];
      var groups := GroupsIn(members, files[i]);
      MapJoin(symbols, DomainTable(files[..i], members), GroupMap(files[i], groups));
      named := AddGroups(named, files[i], groups);
    }
    assert files[..|files|] == files;
  }

  lemma {:induction false} PieceHomesLeave(ss: seq<Statement>, table: Table)
    ensures "index" !in PieceHomes(ss, table)
  {
    if ss != [] { PieceHomesLeave(ss[..|ss| - 1], table); }
  }

  lemma {:induction false} PartNamesAre(files: seq<string>, parts: map<string, seq<Statement>>,
                                        ss: seq<Statement>, table: Table)
    requires forall f <- files :: PiecesIn(parts, f) == PiecesOf(ss, table, f)
    ensures PartNames(files, parts) == PartsMap(files, ss, table)
  {
    if files != [] {
      assert files[|files| - 1] in files;
      PartNamesAre(files[..|files| - 1], parts, ss, table);
    }
  }

  lemma {:induction false} DomainTableIs(files: seq<string>, members: map<string, seq<Group>>, stream: seq<Owned>)
    requires forall f <- files :: GroupsIn(members, f) == GroupsOf(stream, f)
    ensures DomainTable(files, members) == DomainMap(files, stream)
  {
    if files != [] {
      assert files[|files| - 1] in files;
      DomainTableIs(files[..|files| - 1], members, stream);
    }
  }

  lemma NamedIs(p: Progress, ss: seq<Statement>, table: Table)
    requires ShellIs(p, ss, table) && FilesAre(p, ss, table)
    ensures AllNamed(p.top + p.index) <==> AllNamed(ss)
    ensures AllNamed(ss) ==> Named(p) == Symbols(ss, table)
  {
    NamedTop(ss, table);
    if AllNamed(ss) {
      ImportsOfTop(ss, table);
      forall f | f in p.partFiles ensures PiecesIn(p.parts, f) == PiecesOf(ss, table, f) {
        PieceHomesLeave(ss, table);
        FirstSeenKeeps(PieceHomes(ss, table), f);
      }
      PartNamesAre(p.partFiles, p.parts, ss, table);
      DomainTableIs(p.memberFiles, p.members, Stream(ss, table));
    }
  }

  lemma {:induction false} OnlyTop(ss: seq<Statement>, table: Table)
    requires AllModule(ss)
    ensures IndexOf(ss, table) == [] && Top(ss) == ss
  {
    if ss != [] {
      var prior := ss[..|ss| - 1];
      assert forall s <- prior :: s in ss;
      assert ss[|ss| - 1] in ss;
      OnlyTop(prior, table);
    }
  }

  /** One more statement goes above the rest, among the rest of the index, or to a split file. */
  lemma TopStep(prior: seq<Statement>, s: Statement, table: Table)
    ensures Top(prior + [s]) + IndexOf(prior + [s], table) == Top(prior) + IndexOf(prior, table) + [s]
         || (s.Plain? && Top(prior + [s]) + IndexOf(prior + [s], table) == Top(prior) + IndexOf(prior, table))
  {
    PushTop(prior, table, s);
    if AllModule(prior) {
      OnlyTop(prior, table);
    }
  }

  lemma {:induction false} NamedTop(ss: seq<Statement>, table: Table)
    ensures AllNamed(Top(ss) + IndexOf(ss, table)) <==> AllNamed(ss)
  {
    if ss != [] {
      var prior, s := ss[..|ss| - 1], ss[|ss| - 1];
      NamedTop(prior, table);
      TopStep(prior, s, table);
      assert ss == prior + [s];
      NamedJoin(prior, s);
      NamedJoin(Top(prior) + IndexOf(prior, table), s);
    }
  }

  lemma NamedJoin(ss: seq<Statement>, s: Statement)
    ensures AllNamed(ss + [s]) <==> AllNamed(ss) && NamesImports(s)
  {
    assert s in ss + [s] && forall t <- ss :: t in ss + [s];
  }

  /** The imports of the original are those above the rest and those among the rest. */
  lemma {:induction false} ImportsOfTop(ss: seq<Statement>, table: Table)
    requires AllNamed(ss) && AllNamed(Top(ss) + IndexOf(ss, table))
    ensures ImportMap(Top(ss) + IndexOf(ss, table)) == ImportMap(ss)
  {
    if ss != [] {
      var prior, s := ss[..|ss| - 1], ss[|ss| - 1];
      assert ss == prior + [s];
      NamedJoin(prior, s);
      NamedTop(prior, table);
      ImportsOfTop(prior, table);
      TopStep(prior, s, table);
      PushImport(prior, s);
      PushImport(Top(prior) + IndexOf(prior, table), s);
    }
  }

  lemma PushImport(ss: seq<Statement>, s: Statement)
    requires AllNamed(ss) && NamesImports(s)
    ensures AllNamed(ss + [s])
    ensures ImportMap(ss + [s])
         == if s.Import? then ImportMap(ss) + SpecifierMap(s, s.specifiers) else ImportMap(ss)
  {
    NamedJoin(ss, s);
    var grown := ss + [s];
    assert grown[..|grown| - 1] == ss;
  }

  // ---- The split

  method Split(ss: seq<Statement>, table: Table) returns (r: Result<Output>)
    ensures r.Ok? <==> Splits(ss, table)
    ensures r.Ok? ==> r.value == OutputOf(ss, table)
  {
    if !HasAnchors(ss, table) {
      return Error("anchors not declared");
    }
    var splitter := new Splitter(table);
    for i := 0 to |ss|
      invariant splitter.table == table && splitter.Now() == After(ss[..i], table)
      invariant forall s <- ss[..i] :: HasOwners(s, table) && Ends(s)
    {
      assert ss[..i + 1][..i] == ss[..i];
      var refusal := splitter.Take(ss[i]);
      if refusal.Some? {
        assert ss[i] in ss;
        return Error(refusal.value);
      }
    }
    assert ss[..|ss|] == ss;
    AfterIs(ss, table);
    var p := Progress(splitter.file, splitter.leading, splitter.top, splitter.index, splitter.parts,
                      splitter.partFiles, splitter.members, splitter.memberFiles, splitter.order);
    r := WriteAll(p, ss, table);
  }

  method WriteAll(p: Progress, ghost ss: seq<Statement>, ghost table: Table) returns (r: Result<Output>)
    requires ShellIs(p, ss, table) && FilesAre(p, ss, table) && AllOwned(ss, table)
    ensures r.Ok? <==> AllNamed(ss)
    ensures r.Ok? ==> r.value == OutputOf(ss, table)
  {
    FilesInOrder(ss, table);
    var files := Sort(FirstSeen(p.partFiles + p.memberFiles), ByPosition(p.order));
    NamedIs(p, ss, table);
    var refusal, symbols := NameTable(p);
    if refusal.Some? {
      return Error(refusal.value);
    }
    var out := WriteFiles(p, files, symbols);
    WrittenIs(p, files, symbols, out, ss, table);
    var index := WriteIndex(p, files, symbols, ss, table);
    r := Ok(Output(out, index));
  }

  method WriteFiles(p: Progress, files: seq<string>, symbols: map<string, Symbol>) returns (out: seq<SplitFile>)
    ensures |out| == |files|
    ensures forall k :: 0 <= k < |files| ==>
      out[k] == FileWith(files[k], PiecesIn(p.parts, files[k]), GroupsIn(p.members, files[k]), symbols)
  {
    out := [];
    for i := 0 to |files|
      invariant |out| == i
      invariant forall k :: 0 <= k < i ==>
        out[k] == FileWith(files[k], PiecesIn(p.parts, files[k]), GroupsIn(p.members, files[k]), symbols)
    {
      var name := files[i];
      var pieces, groups := PiecesIn(p.parts, name), GroupsIn(p.members, name);
      var header := ImportHeader(Module(name), FileReads(pieces, groups), symbols);
      out := out + [SplitFile(name, header, pieces, groups)];
    }
  }

  lemma WrittenIs(p: Progress, files: seq<string>, symbols: map<string, Symbol>, out: seq<SplitFile>,
                  ss: seq<Statement>, table: Table)
    requires FilesAre(p, ss, table) && AllOwned(ss, table)
    requires AllNamed(ss) && symbols == Symbols(ss, table) && files == Files(ss, table)
    requires |out| == |files|
    requires forall k :: 0 <= k < |files| ==>
      out[k] == FileWith(files[k], PiecesIn(p.parts, files[k]), GroupsIn(p.members, files[k]), symbols)
    ensures out == FilesOf(files, ss, table)
  {
    var spec := FilesOf(files, ss, table);
    forall k | 0 <= k < |files| ensures out[k] == spec[k] {
      NeverIndex(ss, table);
      FirstSeenKeeps(Landings(ss, table), files[k]);
    }
  }

  method DomainNames(p: Progress, files: seq<string>, rpc: RpcMap, ghost stream: seq<Owned>)
    returns (names: seq<string>)
    requires MembersHold(p.members, p.memberFiles, stream)
    ensures names == Domains(files, stream, rpc)
  {
    names := [];
    for i := 0 to |files|
      invariant names == Domains(files[..i], stream, rpc)
    {
      assert files[..i + 1][..i] == files[..i];
      if HasGroup(GroupsIn(p.members, files[i]), rpc) {
        names := names + [DomainName(files[i], rpc)];
      }
    }
    assert files[..|files|] == files;
  }

  method ReadIndex(p: Progress, files: seq<string>, ghost stream: seq<Owned>) returns (found: seq<Read>)
    requires MembersHold(p.members, p.memberFiles, stream)
    ensures found == IndexReads(p.index, files, stream)
  {
    found := [];
    for i := 0 to |p.index|
      invariant found == IndexReads(p.index[..i], files, stream)
    {
      assert p.index[..i + 1][..i] == p.index[..i];
      var s := p.index[i];
      if s.Plain? {
        found := NoteAll(found, s.refs);
      } else if s.MapInterface? {
        var domains := DomainNames(p, files, s.rpc, stream);
        found := PutAll(found, ParentNames(s.parents) + domains);
      }
    }
    assert p.index[..|p.index|] == p.index;
  }

  method ComposeIndex(p: Progress, refs: seq<Read>, files: seq<string>, ghost stream: seq<Owned>)
    returns (composed: seq<Composed>)
    requires MembersHold(p.members, p.memberFiles, stream)
    ensures composed == Compose(p.index, refs, files, stream)
  {
    composed := [];
    for i := 0 to |p.index|
      invariant composed == Compose(p.index[..i], refs, files, stream)
    {
      assert p.index[..i + 1][..i] == p.index[..i];
      var s := p.index[i];
      if s.MapInterface? {
        var domains := DomainNames(p, files, s.rpc, stream);
        composed := composed + [Extends(s.rpc, ParentNames(s.parents) + domains)];
      } else if Used(s, refs) {
        composed := composed + [Kept(s)];
      }
    }
    assert p.index[..|p.index|] == p.index;
  }

  method WriteIndex(p: Progress, files: seq<string>, symbols: map<string, Symbol>,
                    ghost ss: seq<Statement>, ghost table: Table)
    returns (index: IndexFile)
    requires ShellIs(p, ss, table) && FilesAre(p, ss, table)
    requires AllNamed(ss) && symbols == Symbols(ss, table) && files == Files(ss, table)
    ensures index == IndexFileOf(ss, table)
  {
    var refs := ReadIndex(p, files, Stream(ss, table));
    var composed := ComposeIndex(p, refs, files, Stream(ss, table));
    var header := ImportHeader(Module("index"), refs, Local(symbols, files));
    index := IndexFile(KeepUsed(p.top, refs), header, files, composed);
  }

  lemma {:induction false} NeverIndex(ss: seq<Statement>, table: Table)
    requires AllOwned(ss, table)
    ensures "index" !in Landings(ss, table)
  {
    if ss != [] {
      var prior, s := ss[..|ss| - 1], ss[|ss| - 1];
      assert HasOwners(s, table);
      assert AllOwned(prior, table);
      NeverIndex(prior, table);
      if s.MapInterface? {
        HomedOwners(OwnedBy(s.rpc, s.members, table.namespaces));
      }
    }
  }

  lemma {:induction false} HomedOwners(owned: seq<Owned>)
    requires Homed(owned)
    ensures "index" !in Owners(owned)
  {
    if owned != [] {
      var prior := owned[..|owned| - 1];
      assert forall o <- prior :: o in owned;
      HomedOwners(prior);
      assert owned[|owned| - 1] in owned;
    }
  }
}
