/** The cycle detector of `scripts/architecture/graph.ts`: a depth-first search
    that reports each back edge with its complete cycle. */
module Cycles {

  /** A `Map<string, string[]>`: its keys in insertion order, and each key's dependencies. */
  datatype Graph = Graph(order: seq<string>, deps: map<string, seq<string>>) {
    ghost predicate Valid() {
      forall file :: file in order <==> file in deps
    }

    function Deps(file: string): seq<string> {
      if file in deps then deps[file] else []
    }

    ghost function Nodes(): set<string> {
      deps.Keys + set file, i | file in deps && 0 <= i < |deps[file]| :: deps[file][i]
    }
  }

  /** One dependency of a file, by its position in the file's list. */
  datatype Edge = Edge(file: string, position: nat)

  ghost predicate Distinct<T>(s: seq<T>) {
    forall i, j :: 0 <= i < j < |s| ==> s[i] != s[j]
  }

  ghost predicate IsEdge(g: Graph, e: Edge) {
    e.position < |g.Deps(e.file)|
  }

  ghost function Target(g: Graph, e: Edge): string
    requires IsEdge(g, e)
  {
    g.Deps(e.file)[e.position]
  }

  /** A walk along real edges. */
  ghost predicate Walk(g: Graph, path: seq<string>) {
    forall i :: 0 <= i < |path| - 1 ==> path[i + 1] in g.Deps(path[i])
  }

  /** A walk of at least one edge that ends where it starts. */
  ghost predicate ClosedWalk(g: Graph, path: seq<string>) {
    |path| >= 2 && path[0] == path[|path| - 1] && Walk(g, path)
  }

  ghost predicate Acyclic(g: Graph) {
    forall path :: !ClosedWalk(g, path)
  }

  /** `path` is a simple cycle whose last edge is `e`. */
  ghost predicate Closes(g: Graph, path: seq<string>, e: Edge) {
    && ClosedWalk(g, path)
    && Distinct(path[..|path| - 1])
    && IsEdge(g, e) && e.file == path[|path| - 2] && Target(g, e) == path[|path| - 1]
  }

  /** When the search finished each file: later files have greater times. */
  type Times = map<string, nat>

  ghost predicate Injective(finish: Times) {
    forall a, b :: a in finish && b in finish && finish[a] == finish[b] ==> a == b
  }

  /** A back edge of a search with these finishing times: an edge to a file that
      had not finished when its own file did. */
  ghost predicate BackEdge(g: Graph, finish: Times, e: Edge) {
    && IsEdge(g, e) && e.file in finish
    && (Target(g, e) in finish ==> finish[Target(g, e)] >= finish[e.file])
  }

  /** `found` reports a search of the whole graph with these finishing times:
      a simple cycle for each back edge, once, and nothing else. */
  ghost predicate Reports(g: Graph, found: seq<seq<string>>, finish: Times, origins: seq<Edge>) {
    && Injective(finish) && g.deps.Keys <= finish.Keys
    && (forall e :: e in origins <==> BackEdge(g, finish, e))
    && Listed(g, found, origins)
  }

  /** Each report closes an edge of its own. */
  ghost predicate Listed(g: Graph, found: seq<seq<string>>, origins: seq<Edge>) {
    && Distinct(origins)
    && |found| == |origins|
    && forall k :: 0 <= k < |found| ==> Closes(g, found[k], origins[k])
  }

  // ---- What such a report says about the graph

  /** Along a walk that uses no back edge, files finished strictly earlier and earlier. */
  lemma {:induction false} TimesFall(g: Graph, finish: Times, path: seq<string>, k: nat)
    requires g.deps.Keys <= finish.Keys
    requires Walk(g, path) && k < |path| && path[0] in finish
    requires forall i, p | 0 <= i < |path| - 1 && IsEdge(g, Edge(path[i], p)) ::
               Target(g, Edge(path[i], p)) == path[i + 1] ==> !BackEdge(g, finish, Edge(path[i], p))
    ensures path[k] in finish && finish[path[k]] + k <= finish[path[0]]
  {
    if k > 0 {
      TimesFall(g, finish, path, k - 1);
      var file := path[k - 1];
      assert path[k - 1 + 1] in g.Deps(file);
      var p :| 0 <= p < |g.Deps(file)| && g.Deps(file)[p] == path[k];
      var e := Edge(file, p);
      assert IsEdge(g, e) && Target(g, e) == path[k];
      assert !BackEdge(g, finish, e);
    }
  }

  /** Every cycle of the graph goes through the last edge of some reported one,
      so cutting the reported back edges leaves no cycle. */
  lemma EveryCycleIsCut(g: Graph, found: seq<seq<string>>, finish: Times, origins: seq<Edge>, path: seq<string>)
    requires Reports(g, found, finish, origins)
    requires ClosedWalk(g, path)
    ensures exists i, k :: 0 <= i < |path| - 1 && 0 <= k < |found| && |found[k]| >= 2
                           && found[k][|found[k]| - 2] == path[i] && found[k][|found[k]| - 1] == path[i + 1]
  {
    assert path[0 + 1] in g.Deps(path[0]);
    if forall i, p :: 0 <= i < |path| - 1 && IsEdge(g, Edge(path[i], p)) && Target(g, Edge(path[i], p)) == path[i + 1]
                      ==> !BackEdge(g, finish, Edge(path[i], p)) {
      TimesFall(g, finish, path, |path| - 1);
      assert false;
    }
    var i, p :| 0 <= i < |path| - 1 && IsEdge(g, Edge(path[i], p)) && Target(g, Edge(path[i], p)) == path[i + 1]
                && BackEdge(g, finish, Edge(path[i], p));
    assert Edge(path[i], p) in origins;
    var k :| 0 <= k < |origins| && origins[k] == Edge(path[i], p);
    assert Closes(g, found[k], origins[k]);
  }

  /** The report is empty exactly when no cycle exists. */
  lemma EmptyMeansAcyclic(g: Graph, found: seq<seq<string>>, finish: Times, origins: seq<Edge>)
    requires Reports(g, found, finish, origins)
    ensures found == [] <==> Acyclic(g)
  {
    if found == [] {
      forall path ensures !ClosedWalk(g, path) {
        if ClosedWalk(g, path) {
          EveryCycleIsCut(g, found, finish, origins, path);
        }
      }
    } else {
      assert Closes(g, found[0], origins[0]);
      assert ClosedWalk(g, found[0]);
    }
  }

  // ---- The search

  /** The stack, with the position of each file in it. */
  ghost predicate Stacked(g: Graph, stack: seq<string>, active: map<string, nat>) {
    && (forall i :: 0 <= i < |stack| ==> stack[i] in active && active[stack[i]] == i)
    && (forall file :: file in active ==> active[file] < |stack| && stack[active[file]] == file)
    && Walk(g, stack)
  }

  /** Of the finished files exactly the back edges are reported, and of the
      others no edge but those of active files. */
  ghost predicate Settled(g: Graph, finish: Times, active: set<string>, reported: set<Edge>) {
    forall e :: IsEdge(g, e) && e.file !in active ==> (e in reported <==> BackEdge(g, finish, e))
  }

  /** Time goes on: no finishing time changes, and new ones are `clock` or later. */
  ghost predicate Later(finish: Times, clock: nat, finish': Times) {
    && (forall file :: file in finish ==> file in finish' && finish'[file] == finish[file])
    && (forall file :: file in finish' && file !in finish ==> finish'[file] >= clock)
  }

  /** The reports that came in are of edges of files that finished meanwhile. */
  ghost predicate OfNew(reported: set<Edge>, finish: Times, reported': set<Edge>, finish': Times) {
    && reported <= reported'
    && forall e :: e in reported' && e !in reported ==> e.file in finish' && e.file !in finish
  }

  /** `visit(file)` has gone through the first `p` dependencies of `file`: those
      still active are reported, the others have finished. */
  ghost predicate HalfWay(g: Graph, finish: Times, active: set<string>, reported: set<Edge>, file: string, p: nat) {
    forall e :: IsEdge(g, e) && e.file == file ==>
      if e.position < p then (Target(g, e) in finish || Target(g, e) in active)
          && (e in reported <==> Target(g, e) !in finish)
      else e !in reported
  }

  lemma HalfWayStep(g: Graph, finish: Times, clock: nat, reported: set<Edge>, finish': Times, reported': set<Edge>,
                    active: set<string>, file: string, p: nat)
    requires HalfWay(g, finish, active, reported, file, p) && p < |g.Deps(file)|
    requires file in active && active !! finish'.Keys && Later(finish, clock, finish')
    requires var d := g.Deps(file)[p];
             && (d in finish' || d in active)
             && (d in active ==> finish' == finish && reported' == reported + {Edge(file, p)})
             && (d !in active ==> OfNew(reported, finish, reported', finish'))
    ensures HalfWay(g, finish', active, reported', file, p + 1)
  {}

  /** A file that has gone through all its dependencies can finish. */
  lemma FinishSettles(g: Graph, finish: Times, clock: nat, active: set<string>, reported: set<Edge>, file: string)
    requires Settled(g, finish, active, reported) && file in active && active !! finish.Keys
    requires forall f :: f in finish ==> finish[f] < clock
    requires HalfWay(g, finish, active, reported, file, |g.Deps(file)|)
    ensures Settled(g, finish[file := clock], active - {file}, reported)
  {}

  /** What came in since `reported` is of `file` or of files that have finished since. */
  ghost predicate OfFile(reported: set<Edge>, finish: Times, reported': set<Edge>, finish': Times, file: string) {
    && reported <= reported'
    && forall e :: e in reported' && e !in reported ==> e.file == file || (e.file in finish' && e.file !in finish)
  }

  lemma LaterJoins(finish: Times, clock: nat, finish': Times, clock': nat, finish'': Times)
    requires Later(finish, clock, finish') && Later(finish', clock', finish'') && clock <= clock'
    ensures Later(finish, clock, finish'')
  {}

  lemma OfFileJoins(reported: set<Edge>, finish: Times, reported': set<Edge>, finish': Times,
                    reported'': set<Edge>, finish'': Times, file: string)
    requires OfFile(reported, finish, reported', finish', file)
        && OfFile(reported', finish', reported'', finish'', file)
    requires finish.Keys <= finish'.Keys <= finish''.Keys
    ensures OfFile(reported, finish, reported'', finish'', file)
  {}

  lemma FewerLeft(left: set<string>, active: set<string>, file: string)
    requires file in left && file !in active
    ensures left - (active + {file}) < left - active
  {
    assert file in left - active;
  }

  /** With the finish of the file itself, what came in is of files that have finished since. */
  lemma FinishedLater(finish: Times, clock: nat, reported: set<Edge>, finish': Times, clock': nat,
                      reported': set<Edge>, file: string)
    requires Later(finish, clock, finish') && clock <= clock' && file !in finish && file !in finish'
    requires OfFile(reported, finish, reported', finish', file)
    ensures Later(finish, clock, finish'[file := clock'])
    ensures OfNew(reported, finish, reported', finish'[file := clock'])
  {}

  /** The cycle `[...stack.slice(at), file]` closes the edge from the top of the stack. */
  lemma StackCloses(g: Graph, stack: seq<string>, active: map<string, nat>, e: Edge)
    requires Stacked(g, stack, active) && stack != []
    requires e.file == stack[|stack| - 1] && IsEdge(g, e) && Target(g, e) in active
    ensures Closes(g, stack[active[Target(g, e)]..] + [Target(g, e)], e)
  {}

  lemma ReportKeeps(g: Graph, found: seq<seq<string>>, origins: seq<Edge>, finish: Times, active: set<string>,
                    reported: set<Edge>, cycle: seq<string>, e: Edge)
    requires Listed(g, found, origins) && Settled(g, finish, active, reported) && Closes(g, cycle, e)
    requires e.file in active && e !in origins
    ensures Listed(g, found + [cycle], origins + [e]) && Settled(g, finish, active, reported + {e})
  {}

  class Search {
    const graph: Graph
    var done: set<string>
    var active: map<string, nat>
    var stack: seq<string>
    var found: seq<seq<string>>
    /** When each file finished, the number of them, and the edge each report closes. */
    ghost var finish: Times
    ghost var clock: nat
    ghost var origins: seq<Edge>
    ghost var reported: set<Edge>

    constructor (graph: Graph)
      ensures this.graph == graph && Valid()
      ensures stack == [] && finish == map[] && found == []
    {
      this.graph := graph;
      done, active, stack, found := {}, map[], [], [];
      finish, clock, origins, reported := map[], 0, [], {};
    }

    ghost predicate Valid()
      reads this
    {
      && done == finish.Keys && done !! active.Keys
      && (forall file :: file in finish ==> finish[file] < clock)
      && Injective(finish)
      && Stacked(graph, stack, active)
      && (forall e :: e in reported <==> e in origins)
      && (forall e :: e in reported ==> IsEdge(graph, e))
      && Listed(graph, found, origins)
      && Settled(graph, finish, active.Keys, reported)
    }

    /** The edge that `visit` follows: dependency `position` of the file on top of the stack. */
    ghost function Followed(position: nat): Edge
      reads this
      requires stack != []
    {
      Edge(stack[|stack| - 1], position)
    }

    ghost predicate Follows(file: string, position: nat)
      reads this
    {
      stack != [] ==>
        var e := Followed(position);
        IsEdge(graph, e) && Target(graph, e) == file && e !in reported
    }

    /** The report of a file that is still active. */
    method Report(file: string, ghost position: nat)
      requires Valid() && Follows(file, position) && file in active
      modifies `found, `origins, `reported
      ensures Valid() && reported == old(reported) + {Followed(position)}
    {
      var at := active[file];
      ghost var e := Followed(position);
      StackCloses(graph, stack, active, e);
      ReportKeeps(graph, found, origins, finish, active.Keys, reported, stack[at..] + [file], e);
      found := found + [stack[at..] + [file]];
      origins := origins + [e];
      reported := reported + {e};
    }

    /** The start of `visit`: the file joins the stack. */
    method Start(file: string)
      requires Valid() && file !in active && file !in done
      requires stack != [] ==> file in graph.Deps(stack[|stack| - 1])
      modifies `stack, `active
      ensures Valid() && stack == old(stack) + [file] && active == old(active)[file := |old(stack)|]
      ensures HalfWay(graph, finish, active.Keys, reported, file, 0)
    {
      active := active[file := |stack|];
      stack := stack + [file];
    }

    /** The end of `visit`: the file leaves the stack for good. */
    method Finish(file: string)
      requires Valid() && stack != [] && stack[|stack| - 1] == file
      requires HalfWay(graph, finish, active.Keys, reported, file, |graph.Deps(file)|)
      modifies `stack, `active, `done, `finish, `clock
      ensures Valid() && stack == old(stack)[..|old(stack)| - 1]
      ensures active == old(active) - {file} && done == old(done) + {file}
      ensures finish == old(finish)[file := old(clock)] && clock == old(clock) + 1
    {
      FinishSettles(graph, finish, clock, active.Keys, reported, file);
      assert (active - {file}).Keys == active.Keys - {file};
      stack := stack[..|stack| - 1];
      active := active - {file};
      done := done + {file};
      finish := finish[file := clock];
      clock := clock + 1;
    }

    /** `visit(file)`, reached through dependency `position` of the file on top of the stack. */
    method Visit(file: string, ghost position: nat)
      requires Valid() && file in graph.Nodes() && Follows(file, position)
      modifies this
      ensures Valid() && stack == old(stack) && active == old(active)
      ensures Later(old(finish), old(clock), finish) && clock >= old(clock)
      ensures file in finish || file in active
      ensures file in active ==> finish == old(finish) && reported == old(reported) + {Followed(position)}
      ensures file !in active ==> OfNew(old(reported), old(finish), reported, finish)
      decreases graph.Nodes() - done - active.Keys, 2
    {
      if file in active {
        Report(file, position);
        return;
      }
      if file !in done { Expand(file); }
    }

    /** The body of `visit` for a file the search has not reached yet. */
    method Expand(file: string)
      requires Valid() && file in graph.Nodes() && file !in active && file !in done
      requires stack != [] ==> file in graph.Deps(stack[|stack| - 1])
      modifies this
      ensures Valid() && stack == old(stack) && active == old(active)
      ensures Later(old(finish), old(clock), finish) && clock >= old(clock)
      ensures file in finish && OfNew(old(reported), old(finish), reported, finish)
      decreases graph.Nodes() - done - active.Keys, 1
    {
      Start(file);
      assert active.Keys == old(active).Keys + {file} && stack[..|stack| - 1] == old(stack);
      FewerLeft(graph.Nodes() - done, old(active).Keys, file);
      VisitEach(file);
      assert active - {file} == old(active);
      FinishedLater(old(finish), old(clock), old(reported), finish, clock, reported, file);
      Finish(file);
    }

    /** The loop of `visit`, over the dependencies of the file on top of the stack. */
    method VisitEach(file: string)
      requires Valid() && stack != [] && stack[|stack| - 1] == file
      requires HalfWay(graph, finish, active.Keys, reported, file, 0)
      modifies this
      ensures Valid() && stack == old(stack) && active == old(active)
      ensures Later(old(finish), old(clock), finish) && clock >= old(clock)
      ensures OfFile(old(reported), old(finish), reported, finish, file)
      ensures HalfWay(graph, finish, active.Keys, reported, file, |graph.Deps(file)|)
      decreases graph.Nodes() - done - active.Keys, 3
    {
      var dependencies := graph.Deps(file);
      for p := 0 to |dependencies|
        invariant Valid() && stack == old(stack) && active == old(active)
        invariant Later(old(finish), old(clock), finish) && clock >= old(clock)
        invariant OfFile(old(reported), old(finish), reported, finish, file)
        invariant HalfWay(graph, finish, active.Keys, reported, file, p)
      {
        ghost var finish0, clock0, reported0 := finish, clock, reported;
        Visit(dependencies[p], p);
        HalfWayStep(graph, finish0, clock0, reported0, finish, reported, active.Keys, file, p);
        LaterJoins(old(finish), old(clock), finish0, clock0, finish);
        OfFileJoins(old(reported), old(finish), reported0, finish0, reported, finish, file);
      }
    }
  }

  /** `cycles(graph)`. */
  method FindCycles(graph: Graph) returns (found: seq<seq<string>>)
    requires graph.Valid()
    ensures exists finish, origins :: Reports(graph, found, finish, origins)
    ensures found == [] <==> Acyclic(graph)
  {
    var search := new Search(graph);
    for k := 0 to |graph.order|
      invariant search.Valid() && search.stack == []
      invariant forall i :: 0 <= i < k ==> graph.order[i] in search.finish
    {
      search.Visit(graph.order[k], 0);
    }
    found := search.found;
    assert Reports(graph, found, search.finish, search.origins);
    EmptyMeansAcyclic(graph, found, search.finish, search.origins);
  }
}
