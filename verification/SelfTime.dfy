/** Main-thread self time by event name, from a trace (the stack inside `measure`,
    `bench/ui-frames.ts`). Times are whole microseconds. */
module SelfTime {
  import opened Results
  import opened Sorting

  datatype Event = Event(ts: int, dur: nat, name: string) {
    function End(): int { ts + dur }
    predicate Covers(t: int) { ts <= t < End() }
  }

  datatype Frame = Frame(end: int, name: string, child: int, dur: int)
  datatype State = State(stack: seq<Frame>, selfBy: map<string, int>)

  // ---- What the code does, on values

  /** Earlier first, and of two that start together the longer first. */
  predicate Before(a: Event, b: Event) {
    a.ts < b.ts || (a.ts == b.ts && a.dur >= b.dur)
  }

  function At(selfBy: map<string, int>, name: string): int {
    if name in selfBy then selfBy[name] else 0
  }

  function Pop(s: State): State
    requires s.stack != []
  {
    var rest, done := s.stack[..|s.stack| - 1], s.stack[|s.stack| - 1];
    State(Charge(rest, done.dur), s.selfBy[done.name := At(s.selfBy, done.name) + done.dur - done.child])
  }

  /** A closed event's duration is charged to the event that was open around it. */
  function Charge(stack: seq<Frame>, dur: int): (r: seq<Frame>)
    ensures |r| == |stack|
  {
    if stack == [] then []
    else
      var top := stack[|stack| - 1];
      stack[|stack| - 1 := top.(child := top.child + dur)]
  }

  /** `upTo` is `None` for `Infinity`. */
  predicate Done(stack: seq<Frame>, upTo: Option<int>) {
    stack != [] && (upTo.None? || stack[|stack| - 1].end <= upTo.value)
  }

  function Close(s: State, upTo: Option<int>): State
    decreases |s.stack|
  {
    if Done(s.stack, upTo) then Close(Pop(s), upTo) else s
  }

  function Open(s: State, e: Event): State {
    var closed := Close(s, Some(e.ts));
    closed.(stack := closed.stack + [Frame(e.End(), e.name, 0, e.dur)])
  }

  function Replay(events: seq<Event>): State {
    if events == [] then State([], map[])
    else Open(Replay(events[..|events| - 1]), events[|events| - 1])
  }

  /** The table `measure` prints from. */
  function SelfBy(own: seq<Event>): map<string, int> {
    Close(Replay(Sort(own, Before)), None).selfBy
  }

  // ---- What self time means

  /** The event running at `t`: the last to start of those that cover it. */
  function Running(events: seq<Event>, t: int): Option<string> {
    if events == [] then None
    else if events[|events| - 1].Covers(t) then Some(events[|events| - 1].name)
    else Running(events[..|events| - 1], t)
  }

  /** The microseconds of an event. */
  function Span(from: int, dur: nat): (r: set<int>)
    ensures forall t :: t in r <==> from <= t < from + dur
    ensures |r| == dur
  {
    if dur == 0 then {} else Span(from, dur - 1) + {from + dur - 1}
  }

  /** Every microsecond at which some event runs. */
  function Busy(events: seq<Event>): set<int> {
    if events == [] then {}
    else Busy(events[..|events| - 1]) + Span(events[|events| - 1].ts, events[|events| - 1].dur)
  }

  /** The microseconds at which the innermost running event has the name. */
  function Instants(events: seq<Event>, name: string): set<int> {
    set t <- Busy(events) | Running(events, t) == Some(name)
  }

  /** Events of one thread nest: two of them are apart, or one is inside the other. */
  predicate Nest(a: Event, b: Event) {
    || a.End() <= b.ts
    || b.End() <= a.ts
    || (a.ts <= b.ts && b.End() <= a.End())
    || (b.ts <= a.ts && a.End() <= b.End())
  }

  predicate Nested(events: seq<Event>) {
    forall a, b | a in events && b in events :: Nest(a, b)
  }

  lemma {:induction false} BusyIffRunning(events: seq<Event>, t: int)
    ensures t in Busy(events) <==> Running(events, t).Some?
  {
    if events != [] { BusyIffRunning(events[..|events| - 1], t); }
  }

  // ---- The running event is the innermost one

  /** Of two nested events that both cover an instant, the later in sorted order is inside the earlier. */
  lemma LaterIsInside(a: Event, b: Event, t: int)
    requires Before(a, b) && Nest(a, b) && a.Covers(t) && b.Covers(t)
    ensures a.ts <= b.ts && b.End() <= a.End()
  {
  }

  lemma {:induction false} RunningIsInnermost(events: seq<Event>, t: int, other: Event)
    requires Sorted(events, Before) && Nested(events)
    requires other in events && other.Covers(t)
    ensures exists e :: e in events && Running(events, t) == Some(e.name) && e.Covers(t)
                        && other.ts <= e.ts && e.End() <= other.End()
  {
    var prior, last := events[..|events| - 1], events[|events| - 1];
    if last.Covers(t) {
      var k :| 0 <= k < |events| && events[k] == other;
      if k < |prior| {
        assert Before(events[k], events[|prior|]) && Nest(other, last);
        LaterIsInside(other, last, t);
      }
      assert last in events;
    } else {
      assert forall e <- prior :: e in events;
      RunningIsInnermost(prior, t, other);
    }
  }

  /** Nothing earlier starts or ends while a nested event runs. */
  lemma {:induction false} RunningIsSteady(events: seq<Event>, e: Event, t: int)
    requires forall a <- events :: Before(a, e) && Nest(a, e)
    requires e.Covers(t)
    ensures Running(events, t) == Running(events, e.ts)
  {
    if events != [] {
      var prior, last := events[..|events| - 1], events[|events| - 1];
      assert Before(last, e) && Nest(last, e);
      assert last.Covers(t) <==> last.Covers(e.ts);
      RunningIsSteady(prior, e, t);
    }
  }

  /** The instants of a name after an event is painted over the rest. */
  lemma InstantsAfter(events: seq<Event>, e: Event, name: string)
    ensures Instants(events + [e], name)
         == (if e.name == name then Instants(events, name) + Span(e.ts, e.dur)
             else Instants(events, name) - Span(e.ts, e.dur))
  {
    var all := events + [e];
    assert all[..|all| - 1] == events && all[|all| - 1] == e;
  }

  /** An event takes all its microseconds over from one running event: its parent. */
  lemma SpanOfParent(events: seq<Event>, e: Event, name: string)
    requires forall a <- events :: Before(a, e) && Nest(a, e)
    ensures if Running(events, e.ts) == Some(name) then Span(e.ts, e.dur) <= Instants(events, name)
            else Span(e.ts, e.dur) !! Instants(events, name)
  {
    forall t <- Span(e.ts, e.dur) ensures t in Instants(events, name) <==> Running(events, e.ts) == Some(name) {
      RunningIsSteady(events, e, t);
      BusyIffRunning(events, t);
    }
  }

  /** A name gains the duration of its own event, and loses that of a direct child. */
  lemma InstantsStep(events: seq<Event>, e: Event, name: string)
    requires forall a <- events :: Before(a, e) && Nest(a, e)
    ensures |Instants(events + [e], name)|
         == |Instants(events, name)| + (if e.name == name then e.dur else 0)
            - (if Running(events, e.ts) == Some(name) then e.dur else 0)
  {
    var span, before := Span(e.ts, e.dur), Instants(events, name);
    SpanOfParent(events, e, name);
    InstantsAfter(events, e, name);
    if Running(events, e.ts) == Some(name) {
      assert before + span == before;
    } else {
      assert before - span == before;
    }
  }

  // ---- The stack computes it

  /** What the open events would still add to the name's total, were they all closed now. */
  function Owed(stack: seq<Frame>, above: int, name: string): int {
    if stack == [] then 0
    else
      var top := stack[|stack| - 1];
      (if top.name == name then top.dur - top.child - above else 0) + Owed(stack[..|stack| - 1], top.dur, name)
  }

  function Total(s: State, name: string): int {
    At(s.selfBy, name) + Owed(s.stack, 0, name)
  }

  /** Charging the event below takes from it what it would owe less. */
  lemma ChargeMovesDebt(rest: seq<Frame>, dur: int, name: string)
    ensures Owed(Charge(rest, dur), 0, name) == Owed(rest, dur, name)
  {
    if rest != [] {
      var charged, n := Charge(rest, dur), |rest| - 1;
      assert charged[..n] == rest[..n];
      assert charged[n].dur == rest[n].dur && charged[n].child == rest[n].child + dur;
    }
  }

  lemma PopKeepsTotal(s: State, name: string)
    requires s.stack != []
    ensures Total(Pop(s), name) == Total(s, name)
  {
    var rest, done := s.stack[..|s.stack| - 1], s.stack[|s.stack| - 1];
    var own := if done.name == name then done.dur - done.child else 0;
    assert Owed(s.stack, 0, name) == own + Owed(rest, done.dur, name);
    ChargeMovesDebt(rest, done.dur, name);
    assert At(Pop(s).selfBy, name) == At(s.selfBy, name) + own;
  }

  lemma {:induction false} CloseKeepsTotal(s: State, upTo: Option<int>, name: string)
    ensures Total(Close(s, upTo), name) == Total(s, name)
    decreases |s.stack|
  {
    if Done(s.stack, upTo) {
      PopKeepsTotal(s, name);
      CloseKeepsTotal(Pop(s), upTo, name);
    }
  }

  /** The name of the last open event that ends after `t`. */
  function OpenAt(stack: seq<Frame>, t: int): Option<string> {
    if stack == [] then None
    else if stack[|stack| - 1].end > t then Some(stack[|stack| - 1].name)
    else OpenAt(stack[..|stack| - 1], t)
  }

  lemma ChargeKeepsOpen(stack: seq<Frame>, dur: int, t: int)
    ensures OpenAt(Charge(stack, dur), t) == OpenAt(stack, t)
  {
    if stack != [] {
      assert Charge(stack, dur)[..|stack| - 1] == stack[..|stack| - 1];
    }
  }

  lemma {:induction false} CloseKeepsOpen(s: State, from: int, t: int)
    requires from <= t
    ensures OpenAt(Close(s, Some(from)).stack, t) == OpenAt(s.stack, t)
    decreases |s.stack|
  {
    if Done(s.stack, Some(from)) {
      ChargeKeepsOpen(s.stack[..|s.stack| - 1], s.stack[|s.stack| - 1].dur, t);
      CloseKeepsOpen(Pop(s), from, t);
    }
  }

  lemma {:induction false} CloseStops(s: State, upTo: Option<int>)
    ensures !Done(Close(s, upTo).stack, upTo)
    decreases |s.stack|
  {
    if Done(s.stack, upTo) { CloseStops(Pop(s), upTo); }
  }

  /** From the last start on, what the stack holds open is what runs. */
  lemma {:induction false} StackIsRunning(events: seq<Event>, t: int)
    requires forall e <- events :: e.ts <= t
    requires Sorted(events, Before)
    ensures OpenAt(Replay(events).stack, t) == Running(events, t)
  {
    if events != [] {
      var prior, last := events[..|events| - 1], events[|events| - 1];
      StackIsRunning(prior, t);
      CloseKeepsOpen(Replay(prior), last.ts, t);
      var closed := Close(Replay(prior), Some(last.ts)).stack;
      assert Replay(events).stack == closed + [Frame(last.End(), last.name, 0, last.dur)];
      assert Replay(events).stack[..|closed|] == closed;
    }
  }

  lemma PushTotal(closed: State, e: Event, name: string)
    requires !Done(closed.stack, Some(e.ts))
    ensures Owed(closed.stack + [Frame(e.End(), e.name, 0, e.dur)], 0, name)
         == Owed(closed.stack, 0, name) + (if e.name == name then e.dur else 0)
            - (if OpenAt(closed.stack, e.ts) == Some(name) then e.dur else 0)
  {
    var stack := closed.stack;
    var pushed := stack + [Frame(e.End(), e.name, 0, e.dur)];
    assert pushed[..|pushed| - 1] == stack;
    assert Owed(pushed, 0, name) == (if e.name == name then e.dur else 0) + Owed(stack, e.dur, name);
  }

  /** Opening an event owes it its duration, and takes that from the event around it. */
  lemma OpenTotal(events: seq<Event>, e: Event, name: string)
    requires Sorted(events, Before)
    requires forall a <- events :: Before(a, e)
    ensures Total(Open(Replay(events), e), name)
         == Total(Replay(events), name) + (if e.name == name then e.dur else 0)
            - (if Running(events, e.ts) == Some(name) then e.dur else 0)
  {
    var s := Replay(events);
    var closed := Close(s, Some(e.ts));
    CloseKeepsTotal(s, Some(e.ts), name);
    CloseKeepsOpen(s, e.ts, e.ts);
    CloseStops(s, Some(e.ts));
    StackIsRunning(events, e.ts);
    PushTotal(closed, e, name);
  }

  lemma {:induction false} TotalIsInstants(events: seq<Event>, name: string)
    requires Sorted(events, Before) && Nested(events)
    ensures Total(Replay(events), name) == |Instants(events, name)|
  {
    if events == [] {
      assert Instants(events, name) == {};
    } else {
      var prior, last := events[..|events| - 1], events[|events| - 1];
      assert prior + [last] == events;
      assert forall a <- prior :: a in events;
      TotalIsInstants(prior, name);
      OpenTotal(prior, last, name);
      InstantsStep(prior, last, name);
    }
  }

  lemma BeforeIsPreorder()
    ensures Preorder(Before)
  {
  }

  lemma {:induction false} CloseAll(s: State)
    ensures Close(s, None).stack == []
  {
    CloseStops(s, None);
  }

  /** For every set of nested events, a name's self time is the number of microseconds
      at which the innermost running event has that name. */
  lemma SelfTimeIsInnermost(own: seq<Event>, name: string)
    requires Nested(own)
    ensures At(SelfBy(own), name) == |Instants(Sort(own, Before), name)|
    ensures At(SelfBy(own), name) >= 0
  {
    var events := Sort(own, Before);
    BeforeIsPreorder();
    SortSorts(own, Before);
    SortPermutes(own, Before);
    assert forall e <- events :: e in multiset(own);
    TotalIsInstants(events, name);
    CloseKeepsTotal(Replay(events), None, name);
    CloseAll(Replay(events));
  }

  // ---- All main-thread time is accounted for

  /** The duration of the events that start while nothing runs. */
  function OutermostTotal(events: seq<Event>): int {
    if events == [] then 0
    else
      var prior, last := events[..|events| - 1], events[|events| - 1];
      OutermostTotal(prior) + (if Running(prior, last.ts).None? then last.dur else 0)
  }

  lemma BusyStep(events: seq<Event>, e: Event)
    requires forall a <- events :: Before(a, e) && Nest(a, e)
    ensures |Busy(events + [e])| == |Busy(events)| + (if Running(events, e.ts).None? then e.dur else 0)
  {
    var all, busy, span := events + [e], Busy(events), Span(e.ts, e.dur);
    assert all[..|all| - 1] == events && all[|all| - 1] == e;
    forall t <- span ensures t in busy <==> Running(events, e.ts).Some? {
      RunningIsSteady(events, e, t);
      BusyIffRunning(events, t);
    }
    if Running(events, e.ts).Some? {
      assert busy + span == busy;
    } else {
      assert busy !! span;
    }
  }

  lemma {:induction false} BusyIsOutermost(events: seq<Event>)
    requires Sorted(events, Before) && Nested(events)
    ensures |Busy(events)| == OutermostTotal(events)
  {
    if events != [] {
      var prior, last := events[..|events| - 1], events[|events| - 1];
      assert prior + [last] == events;
      assert forall a <- prior :: a in events;
      BusyIsOutermost(prior);
      BusyStep(prior, last);
    }
  }

  function FrameNames(stack: seq<Frame>): set<string> {
    if stack == [] then {} else FrameNames(stack[..|stack| - 1]) + {stack[|stack| - 1].name}
  }

  function Names(s: State): set<string> {
    s.selfBy.Keys + FrameNames(s.stack)
  }

  lemma {:induction false} CloseKeepsNames(s: State, upTo: Option<int>)
    ensures Names(Close(s, upTo)) == Names(s)
    decreases |s.stack|
  {
    if Done(s.stack, upTo) {
      var rest, done := s.stack[..|s.stack| - 1], s.stack[|s.stack| - 1];
      if rest != [] {
        assert Charge(rest, done.dur)[..|rest| - 1] == rest[..|rest| - 1];
      }
      assert FrameNames(Charge(rest, done.dur)) == FrameNames(rest);
      assert Names(Pop(s)) == Names(s);
      CloseKeepsNames(Pop(s), upTo);
    }
  }

  lemma {:induction false} ReplayNames(events: seq<Event>, e: Event)
    requires e in events
    ensures e.name in Names(Replay(events))
  {
    var prior, last := events[..|events| - 1], events[|events| - 1];
    var closed := Close(Replay(prior), Some(last.ts)).stack;
    CloseKeepsNames(Replay(prior), Some(last.ts));
    assert Replay(events).stack[..|closed|] == closed;
    if e in prior {
      ReplayNames(prior, e);
    }
  }

  /** The running name is that of an event. */
  lemma {:induction false} RunningIsNamed(events: seq<Event>, t: int)
    requires Running(events, t).Some?
    ensures exists e <- events :: Running(events, t) == Some(e.name)
  {
    var prior, last := events[..|events| - 1], events[|events| - 1];
    if last.Covers(t) {
      assert last in events;
    } else {
      RunningIsNamed(prior, t);
      var e :| e in prior && Running(prior, t) == Some(e.name);
      assert e in events;
    }
  }

  /** The sum of a table's entries for some names. */
  ghost function SumOver(selfBy: map<string, int>, names: set<string>): int {
    if names == {} then 0
    else
      var name :| name in names;
      At(selfBy, name) + SumOver(selfBy, names - {name})
  }

  /** The microseconds at which the innermost running event has one of the names. */
  function InstantsOf(events: seq<Event>, names: set<string>): set<int> {
    set t <- Busy(events) | Running(events, t).Some? && Running(events, t).value in names
  }

  lemma InstantsSplit(events: seq<Event>, names: set<string>, name: string)
    requires name in names
    ensures |InstantsOf(events, names)| == |Instants(events, name)| + |InstantsOf(events, names - {name})|
  {
    assert InstantsOf(events, names) == Instants(events, name) + InstantsOf(events, names - {name});
    assert Instants(events, name) !! InstantsOf(events, names - {name});
  }

  lemma {:induction false} SumCountsInstants(selfBy: map<string, int>, events: seq<Event>, names: set<string>)
    requires forall name <- names :: At(selfBy, name) == |Instants(events, name)|
    ensures SumOver(selfBy, names) == |InstantsOf(events, names)|
  {
    if names != {} {
      var name :| name in names && SumOver(selfBy, names) == At(selfBy, name) + SumOver(selfBy, names - {name});
      SumCountsInstants(selfBy, events, names - {name});
      InstantsSplit(events, names, name);
    }
  }

  /** The self times add up to the microseconds at which the thread runs anything,
      which is the total duration of the outermost events. */
  lemma AllTimeIsAccounted(own: seq<Event>)
    requires Nested(own)
    ensures SumOver(SelfBy(own), SelfBy(own).Keys) == |Busy(Sort(own, Before))|
                                                   == OutermostTotal(Sort(own, Before))
  {
    var events, table := Sort(own, Before), SelfBy(own);
    forall name <- table.Keys ensures At(table, name) == |Instants(events, name)| {
      SelfTimeIsInnermost(own, name);
    }
    SumCountsInstants(table, events, table.Keys);
    forall t <- Busy(events) ensures Running(events, t).Some? && Running(events, t).value in table.Keys {
      BusyIffRunning(events, t);
      RunningIsNamed(events, t);
      var e :| e in events && Running(events, t) == Some(e.name);
      ReplayNames(events, e);
      CloseKeepsNames(Replay(events), None);
      CloseAll(Replay(events));
    }
    assert Busy(events) == InstantsOf(events, table.Keys);
    BeforeIsPreorder();
    SortSorts(own, Before);
    SortPermutes(own, Before);
    assert forall e <- events :: e in multiset(own);
    BusyIsOutermost(events);
  }

  // ---- The code itself

  class Profile {
    var stack: seq<Frame>
    var selfBy: map<string, int>

    ghost function Now(): State
      reads this
    {
      State(stack, selfBy)
    }

    constructor ()
      ensures Now() == State([], map[])
    {
      stack, selfBy := [], map[];
    }

    /** Pops every event that ended by `upTo`, adding its self time to its name. */
    method CloseUpTo(upTo: Option<int>)
      modifies this
      ensures Now() == Close(old(Now()), upTo)
    {
      while stack != [] && (upTo.None? || stack[|stack| - 1].end <= upTo.value)
        invariant Close(Now(), upTo) == Close(old(Now()), upTo)
        decreases |stack|
      {
        PopTop();
      }
    }

    method PopTop()
      requires stack != []
      modifies this
      ensures Now() == Pop(old(Now()))
    {
      var done := stack[|stack| - 1];
      stack := stack[..|stack| - 1];
      selfBy := selfBy[done.name := (if done.name in selfBy then selfBy[done.name] else 0) + done.dur - done.child];
      if stack != [] {
        var top := stack[|stack| - 1];
        stack := stack[|stack| - 1 := top.(child := top.child + done.dur)];
      }
    }

    method Measure(own: seq<Event>)
      requires Now() == State([], map[])
      modifies this
      ensures selfBy == SelfBy(own) && stack == []
    {
      var events := Sort(own, Before);
      for i := 0 to |events|
        invariant Now() == Replay(events[..i])
      {
        assert events[..i + 1][..i] == events[..i];
        CloseUpTo(Some(events[i].ts));
        stack := stack + [Frame(events[i].End(), events[i].name, 0, events[i].dur)];
      }
      assert events[..|events|] == events;
      CloseAll(Now());
      CloseUpTo(None);
    }
  }
}
