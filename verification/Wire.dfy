/** The TCP relay of `bench/lib/wire.ts`, as a machine whose steps are the socket
    and timer events. Times are exact reals in milliseconds. */
module Wire {

  newtype byte = b: int | 0 <= b < 256
  type Bytes = seq<byte>

  function Flat(chunks: seq<Bytes>): Bytes {
    if chunks == [] then [] else chunks[0] + Flat(chunks[1..])
  }

  lemma {:induction false} FlatAppend(a: seq<Bytes>, b: seq<Bytes>)
    ensures Flat(a + b) == Flat(a) + Flat(b)
  {
    if a == [] {
      assert a + b == b;
    } else {
      assert (a + b)[1..] == a[1..] + b;
      FlatAppend(a[1..], b);
    }
  }

  lemma FlatPush(a: seq<Bytes>, chunk: Bytes)
    ensures Flat(a + [chunk]) == Flat(a) + chunk
  {
    FlatAppend(a, [chunk]);
    assert [chunk][1..] == [] && Flat([chunk]) == chunk + Flat([]);
  }

  // ---- Flushing a socket

  /** What `socket.write(head)` returns: at most the length; a negative result is a failed write. */
  function Wrote(writes: seq<int>, head: Bytes): int {
    if writes == [] then -1 else if writes[0] < |head| then writes[0] else |head|
  }

  datatype Flushed = Flushed(backlog: seq<Bytes>, sent: Bytes)

  /** `flush`, where the successive writes return `writes`. */
  function Flush(backlog: seq<Bytes>, writes: seq<int>): Flushed {
    if backlog == [] then Flushed([], [])
    else
      var head := backlog[0];
      var wrote := Wrote(writes, head);
      if wrote < |head| then
        var accepted := if wrote < 0 then 0 else wrote;
        Flushed([head[accepted..]] + backlog[1..], head[..accepted])
      else
        var rest := Flush(backlog[1..], if writes == [] then [] else writes[1..]);
        Flushed(rest.backlog, head + rest.sent)
  }

  /** Partial and failed writes lose and repeat nothing. */
  lemma {:induction false} FlushConserves(backlog: seq<Bytes>, writes: seq<int>)
    ensures var f := Flush(backlog, writes); f.sent + Flat(f.backlog) == Flat(backlog)
  {
    if backlog != [] {
      var head := backlog[0];
      var wrote := Wrote(writes, head);
      if wrote < |head| {
        var f := Flush(backlog, writes);
        assert f.backlog[1..] == backlog[1..];
        assert f.sent + f.backlog[0] == head;
        assert f.sent + (f.backlog[0] + Flat(backlog[1..])) == (f.sent + f.backlog[0]) + Flat(backlog[1..]);
      } else {
        var rest := Flush(backlog[1..], if writes == [] then [] else writes[1..]);
        FlushConserves(backlog[1..], if writes == [] then [] else writes[1..]);
        assert (head + rest.sent) + Flat(rest.backlog) == head + (rest.sent + Flat(rest.backlog));
      }
    }
  }

  /** The loop of `flush`. */
  method FlushLoop(start: seq<Bytes>, writes: seq<int>) returns (backlog: seq<Bytes>, sent: Bytes)
    ensures Flushed(backlog, sent) == Flush(start, writes)
  {
    backlog, sent := start, [];
    var left := writes;
    while |backlog| > 0
      invariant Flush(start, writes) == Flushed(Flush(backlog, left).backlog, sent + Flush(backlog, left).sent)
      decreases |backlog|
    {
      var head := backlog[0];
      var wrote := Wrote(left, head);
      if wrote < |head| {
        var accepted := if wrote < 0 then 0 else wrote;
        backlog := backlog[0 := head[accepted..]];
        sent := sent + head[..accepted];
        assert backlog == [head[accepted..]] + backlog[1..];
        return;
      }
      ghost var rest := Flush(backlog[1..], if left == [] then [] else left[1..]);
      assert sent + (head + rest.sent) == (sent + head) + rest.sent;
      backlog := backlog[1..];
      sent := sent + head;
      left := if left == [] then [] else left[1..];
    }
  }

  // ---- One connection

  datatype Dir = Up | Down

  /** A chunk's place in one direction: its arrival, the time its bytes take on
      the link, and when they are through. */
  datatype Release = Release(arrival: real, tx: real, ready: real)

  /** A chunk held until `due`. */
  datatype Timer = Timer(due: real, dir: Dir, chunk: Bytes, release: Release)

  /** A chunk handed to the peer's socket at the time `at`. */
  datatype Delivery = Delivery(dir: Dir, chunk: Bytes, release: Release, at: real)

  /** The two sockets of a client: their backlogs, the pending timers, and what
      has come in, been delivered and gone out on each side so far. */
  datatype Link = Link(
    open: bool, clientBacklog: seq<Bytes>, coreBacklog: seq<Bytes>, timers: seq<Timer>, delivered: seq<Delivery>,
    fromClient: Bytes, fromCore: Bytes, toClient: Bytes, toCore: Bytes)

  const NEW_LINK := Link(false, [], [], [], [], [], [], [], [])

  function FlushCore(l: Link, writes: seq<int>): Link {
    var f := Flush(l.coreBacklog, writes);
    l.(coreBacklog := f.backlog, toCore := l.toCore + f.sent)
  }

  function FlushClient(l: Link, writes: seq<int>): Link {
    var f := Flush(l.clientBacklog, writes);
    l.(clientBacklog := f.backlog, toClient := l.toClient + f.sent)
  }

  /** A chunk for a core that is not there yet waits in the client's own backlog. */
  function Push(l: Link, d: Delivery): Link {
    if d.dir.Up? && l.open then l.(delivered := l.delivered + [d], coreBacklog := l.coreBacklog + [d.chunk])
    else l.(delivered := l.delivered + [d], clientBacklog := l.clientBacklog + [d.chunk])
  }

  /** `deliver`. */
  function Deliver(l: Link, d: Delivery, writes: seq<int>): Link {
    if d.dir.Down? then FlushClient(Push(l, d), writes)
    else if l.open then FlushCore(Push(l, d), writes)
    else Push(l, d)
  }

  function Receive(l: Link, dir: Dir, bytes: Bytes): Link {
    if dir.Up? then l.(fromClient := l.fromClient + bytes) else l.(fromCore := l.fromCore + bytes)
  }

  /** The core's `open`. */
  function OpenCore(l: Link, writes: seq<int>): Link {
    FlushCore(l.(open := true, clientBacklog := [], coreBacklog := l.clientBacklog), writes)
  }

  /** The bytes the timers of one direction hold, in the order they were set. */
  function Pending(timers: seq<Timer>, dir: Dir): Bytes {
    if timers == [] then []
    else (if timers[0].dir == dir then timers[0].chunk else []) + Pending(timers[1..], dir)
  }

  lemma {:induction false} PendingAppend(a: seq<Timer>, b: seq<Timer>, dir: Dir)
    ensures Pending(a + b, dir) == Pending(a, dir) + Pending(b, dir)
  {
    if a == [] {
      assert a + b == b;
    } else {
      assert (a + b)[1..] == a[1..] + b;
      PendingAppend(a[1..], b, dir);
    }
  }

  /** Timers of one direction fall due in the order they were set. */
  ghost predicate InDueOrder(timers: seq<Timer>) {
    forall i, j :: 0 <= i < j < |timers| && timers[i].dir == timers[j].dir ==> timers[i].due <= timers[j].due
  }

  /** The timer the event loop fires: the first one due, the earliest set of those. */
  ghost predicate FirstDue(timers: seq<Timer>, i: nat) {
    && i < |timers|
    && (forall j :: 0 <= j < |timers| ==> timers[i].due <= timers[j].due)
    && (forall j :: 0 <= j < i ==> timers[i].due < timers[j].due)
  }

  function Fired(timers: seq<Timer>, i: nat): seq<Timer>
    requires i < |timers|
  {
    timers[..i] + timers[i + 1..]
  }

  /** The bytes delivered in one direction, in the order they were. */
  function Handed(delivered: seq<Delivery>, dir: Dir): Bytes {
    if delivered == [] then []
    else
      var d := delivered[|delivered| - 1];
      Handed(delivered[..|delivered| - 1], dir) + (if d.dir == dir then d.chunk else [])
  }

  function ChunkFor(t: Timer, dir: Dir): Bytes {
    if t.dir == dir then t.chunk else []
  }

  lemma {:induction false} PendingSplit(timers: seq<Timer>, i: nat, dir: Dir)
    requires i < |timers|
    ensures Pending(timers, dir) == Pending(timers[..i], dir) + ChunkFor(timers[i], dir) + Pending(timers[i + 1..], dir)
  {
    if i > 0 {
      PendingSplit(timers[1..], i - 1, dir);
      assert timers[1..][..i - 1] == timers[..i][1..];
      assert timers[1..][i..] == timers[i + 1..];
    }
  }

  /** Firing takes the oldest pending bytes of its direction. */
  lemma FiredIsOldest(timers: seq<Timer>, i: nat, dir: Dir)
    requires InDueOrder(timers) && FirstDue(timers, i)
    ensures Pending(timers, dir) == ChunkFor(timers[i], dir) + Pending(Fired(timers, i), dir)
  {
    PendingSplit(timers, i, dir);
    PendingAppend(timers[..i], timers[i + 1..], dir);
    if timers[i].dir == dir {
      OtherDirection(timers[..i], dir);
    }
  }

  lemma {:induction false} OtherDirection(timers: seq<Timer>, dir: Dir)
    requires forall j :: 0 <= j < |timers| ==> timers[j].dir != dir
    ensures Pending(timers, dir) == []
  {
    if timers != [] { OtherDirection(timers[1..], dir); }
  }

  /** Everything received is, in order: written to the peer, in the peer's
      backlog, and held by timers; before the core is there, the early backlog
      stands in for the first two. */
  ghost predicate Conserves(l: Link) {
    && l.fromClient == (if l.open then l.toCore + Flat(l.coreBacklog) else Flat(l.clientBacklog))
        + Pending(l.timers, Up)
    && (l.open ==> l.fromCore == l.toClient + Flat(l.clientBacklog) + Pending(l.timers, Down))
    && (!l.open ==>
          l.toCore == [] && l.coreBacklog == [] && l.toClient == [] && l.fromCore == []
          && Pending(l.timers, Down) == [])
  }

  // ---- The steps of a connection keep every byte

  /** `l` conserves, once `chunk` is counted as the next bytes of its direction. */
  ghost predicate ConservesWith(l: Link, dir: Dir, chunk: Bytes) {
    && (l.fromClient == (if l.open then l.toCore + Flat(l.coreBacklog) else Flat(l.clientBacklog))
                        + (if dir.Up? then chunk else []) + Pending(l.timers, Up))
    && (l.open ==>
          l.fromCore
          == l.toClient + Flat(l.clientBacklog) + (if dir.Down? then chunk else []) + Pending(l.timers, Down))
    && (!l.open ==> l.toCore == [] && l.coreBacklog == [] && l.toClient == [] && l.fromCore == [])
    && (!l.open ==> Pending(l.timers, Down) == [] && dir.Up?)
  }

  lemma DeliverConserves(l: Link, d: Delivery, writes: seq<int>)
    requires ConservesWith(l, d.dir, d.chunk)
    ensures Conserves(Deliver(l, d, writes))
  {
    PushConserves(l, d);
    if d.dir.Down? {
      FlushClientConserves(Push(l, d), writes);
    } else if l.open {
      FlushCoreConserves(Push(l, d), writes);
    }
  }

  lemma PushConserves(l: Link, d: Delivery)
    requires ConservesWith(l, d.dir, d.chunk)
    ensures Conserves(Push(l, d))
  {
    if d.dir.Up? && l.open {
      FlatPush(l.coreBacklog, d.chunk);
      Regroup(l.toCore, Flat(l.coreBacklog), d.chunk);
    } else {
      FlatPush(l.clientBacklog, d.chunk);
      Regroup(l.toClient, Flat(l.clientBacklog), d.chunk);
    }
  }

  lemma FlushCoreConserves(l: Link, writes: seq<int>)
    requires Conserves(l) && l.open
    ensures Conserves(FlushCore(l, writes))
  {
    FlushConserves(l.coreBacklog, writes);
    var f := Flush(l.coreBacklog, writes);
    assert l.toCore + Flat(l.coreBacklog) == (l.toCore + f.sent) + Flat(f.backlog);
  }

  lemma FlushClientConserves(l: Link, writes: seq<int>)
    requires Conserves(l) && l.open
    ensures Conserves(FlushClient(l, writes))
  {
    FlushConserves(l.clientBacklog, writes);
    var f := Flush(l.clientBacklog, writes);
    assert l.toClient + Flat(l.clientBacklog) == (l.toClient + f.sent) + Flat(f.backlog);
  }

  lemma OpenCoreConserves(l: Link, writes: seq<int>)
    requires Conserves(l) && !l.open
    ensures Conserves(OpenCore(l, writes))
  {
    FlushCoreConserves(l.(open := true, clientBacklog := [], coreBacklog := l.clientBacklog), writes);
  }

  /** A drain of the client before the core is there sends its own bytes back to
      it: the connection still conserves exactly when the drain wrote nothing. */
  lemma EarlyDrain(l: Link, writes: seq<int>)
    requires Conserves(l) && !l.open
    ensures Conserves(FlushClient(l, writes)) <==> Flush(l.clientBacklog, writes).sent == []
  {
    FlushConserves(l.clientBacklog, writes);
  }

  lemma {:induction false} FlushAll(backlog: seq<Bytes>) returns (writes: seq<int>)
    ensures Flush(backlog, writes) == Flushed([], Flat(backlog))
  {
    writes := [];
    if backlog != [] {
      var rest := FlushAll(backlog[1..]);
      writes := [|backlog[0]|] + rest;
      assert writes[1..] == rest;
    }
  }

  /** So an early drain is safe whatever the socket accepts exactly when no byte is waiting. */
  lemma EarlyDrainIsSafe(l: Link)
    requires Conserves(l) && !l.open
    ensures (forall writes :: Conserves(FlushClient(l, writes))) <==> Flat(l.clientBacklog) == []
  {
    if Flat(l.clientBacklog) == [] {
      forall writes ensures Conserves(FlushClient(l, writes)) {
        FlushConserves(l.clientBacklog, writes);
      }
    } else {
      var writes := FlushAll(l.clientBacklog);
      EarlyDrain(l, writes);
      assert !Conserves(FlushClient(l, writes));
    }
  }

  // ---- Pacing

  /** The link time of the chunks from `i` up to, not including, `j`. */
  ghost function Transmission(log: seq<Release>, i: nat, j: nat): real
    requires i <= j <= |log|
  {
    if i == j then 0.0 else Transmission(log, i, j - 1) + log[j - 1].tx
  }

  /** `ready = Math.max(now, ready) + tx`. */
  function NextReady(ready: real, now: real, tx: real): real {
    (if now > ready then now else ready) + tx
  }

  ghost function ReadyBefore(log: seq<Release>, i: nat): real
    requires i <= |log|
  {
    if i == 0 then 0.0 else log[i - 1].ready
  }

  ghost predicate PacedAt(log: seq<Release>, i: nat)
    requires i < |log|
  {
    && log[i].arrival >= 0.0 && log[i].tx >= 0.0
    && log[i].ready == NextReady(ReadyBefore(log, i), log[i].arrival, log[i].tx)
  }

  /** Every entry was released by the recursion, starting from 0. */
  ghost predicate Paced(log: seq<Release>) {
    forall i: nat :: i < |log| ==> PacedAt(log, i)
  }

  /** Two chunks are at least the link time of the later ones apart. */
  lemma {:induction false} ReleasesApart(log: seq<Release>, i: nat, j: nat)
    requires Paced(log) && i <= j < |log|
    ensures log[j].ready - log[i].ready >= Transmission(log, i + 1, j + 1) >= 0.0
  {
    assert PacedAt(log, j);
    if i < j { ReleasesApart(log, i, j - 1); }
  }

  /** The closed form of the recursion: a chunk is through once the link, busy
      from the arrival of some chunk before it, has sent everything since, and
      no chunk before it makes that later. */
  lemma {:induction false} ReleaseIsLatestBusyPeriod(log: seq<Release>, j: nat) returns (start: nat)
    requires Paced(log) && j < |log|
    ensures start <= j && log[j].ready == log[start].arrival + Transmission(log, start, j + 1)
    ensures forall k :: 0 <= k <= j ==> log[j].ready >= log[k].arrival + Transmission(log, k, j + 1)
  {
    start := j;
    assert PacedAt(log, j);
    assert Transmission(log, j, j + 1) == Transmission(log, j, j) + log[j].tx;
    if j > 0 {
      var before := ReleaseIsLatestBusyPeriod(log, j - 1);
      if log[j - 1].ready >= log[j].arrival { start := before; }
      forall k | 0 <= k < j ensures log[j].ready >= log[k].arrival + Transmission(log, k, j + 1) {
        assert Transmission(log, k, j + 1) == Transmission(log, k, j) + log[j].tx;
      }
    }
  }

  // ---- The relay

  /** One direction of the relay, shared by its connections. */
  datatype Lane = Lane(bytes: nat, ready: real, log: seq<Release>)

  datatype Relay = Relay(delay: real, msPerByte: real, now: real, up: Lane, down: Lane, chunksDown: nat,
      links: seq<Link>)
  {
    function LaneOf(dir: Dir): Lane { if dir.Up? then up else down }

    function Tx(n: nat): real { n as real * msPerByte }
  }

  datatype Event =
    | Accept
    | CoreOpens(c: nat, writes: seq<int>)
    | Data(c: nat, dir: Dir, bytes: Bytes, writes: seq<int>)
    | Fire(c: nat, i: nat, writes: seq<int>)
    | ClientDrains(c: nat, writes: seq<int>)
    | CoreDrains(c: nat, writes: seq<int>)
    | Reset

  /** What the sockets and the event loop may do next, at time `t`. */
  ghost predicate Enabled(r: Relay, e: Event, t: real) {
    && t >= r.now
    && (e.CoreOpens? ==> e.c < |r.links| && !r.links[e.c].open)
    && (e.Data? ==> e.c < |r.links| && (e.dir.Down? ==> r.links[e.c].open))
    && (e.Fire? ==> e.c < |r.links| && FirstDue(r.links[e.c].timers, e.i) && t >= r.links[e.c].timers[e.i].due)
    && (e.ClientDrains? ==> e.c < |r.links|)
    && (e.CoreDrains? ==> e.c < |r.links| && r.links[e.c].open)
  }

  /** When a chunk of `n` bytes that arrives at `t` is through the link. */
  function ReleaseOf(r: Relay, dir: Dir, n: nat, t: real): Release {
    Release(t, r.Tx(n), NextReady(r.LaneOf(dir).ready, t, r.Tx(n)))
  }

  /** The counters and the pacing of `forward`. */
  function Advance(r: Relay, dir: Dir, n: nat, t: real): Relay {
    var lane := r.LaneOf(dir);
    var release := ReleaseOf(r, dir, n, t);
    var lane' := Lane(lane.bytes + n, release.ready, lane.log + [release]);
    if dir.Up? then r.(now := t, up := lane')
    else r.(now := t, down := lane', chunksDown := r.chunksDown + 1)
  }

  function Hold(l: Link, dir: Dir, bytes: Bytes, due: real, release: Release): Link {
    var received := Receive(l, dir, bytes);
    received.(timers := received.timers + [Timer(due, dir, bytes, release)])
  }

  /** A connection that takes a chunk at `t`: its delivery is now or later. */
  function Forwarded(r: Relay, l: Link, dir: Dir, bytes: Bytes, t: real, writes: seq<int>): Link {
    var release := ReleaseOf(r, dir, |bytes|, t);
    var due := r.delay + release.ready;
    if due - t > 0.0 then Hold(l, dir, bytes, due, release)
    else Deliver(Receive(l, dir, bytes), Delivery(dir, bytes, release, t), writes)
  }

  /** `forward`. */
  function Forward(r: Relay, c: nat, dir: Dir, bytes: Bytes, t: real, writes: seq<int>): Relay
    requires c < |r.links|
  {
    Advance(r, dir, |bytes|, t).(links := r.links[c := Forwarded(r, r.links[c], dir, bytes, t, writes)])
  }

  function FireTimer(l: Link, i: nat, t: real, writes: seq<int>): Link
    requires i < |l.timers|
  {
    Deliver(l.(timers := Fired(l.timers, i)), DeliveryOf(l.timers[i], t), writes)
  }

  function DeliveryOf(timer: Timer, t: real): Delivery {
    Delivery(timer.dir, timer.chunk, timer.release, t)
  }

  function Step(r: Relay, e: Event, t: real): Relay
    requires e.Accept? || e.Reset? || (e.c < |r.links| && (e.Fire? ==> e.i < |r.links[e.c].timers|))
  {
    match e
    case Accept => r.(now := t, links := r.links + [NEW_LINK])
    case CoreOpens(c, writes) => r.(now := t, links := r.links[c := OpenCore(r.links[c], writes)])
    case Data(c, dir, bytes, writes) => Forward(r, c, dir, bytes, t, writes)
    case Fire(c, i, writes) => r.(now := t, links := r.links[c := FireTimer(r.links[c], i, t, writes)])
    case ClientDrains(c, writes) => r.(now := t, links := r.links[c := FlushClient(r.links[c], writes)])
    case CoreDrains(c, writes) => r.(now := t, links := r.links[c := FlushCore(r.links[c], writes)])
    case Reset => r.(now := t, up := r.up.(bytes := 0), down := r.down.(bytes := 0), chunksDown := 0)
  }

  /** The drain that hands the client its own bytes back. */
  ghost predicate DrainsEarly(r: Relay, e: Event) {
    e.ClientDrains? && e.c < |r.links| && !r.links[e.c].open && Flush(r.links[e.c].clientBacklog, e.writes).sent != []
  }

  // ---- What every step keeps

  ghost predicate LaneOk(r: Relay, lane: Lane) {
    && Paced(lane.log)
    && lane.ready == ReadyBefore(lane.log, |lane.log|)
    && (r.msPerByte == 0.0 ==> lane.ready <= r.now)
  }

  /** The release is in the direction's log, for a chunk of this size. */
  ghost predicate Logged(r: Relay, dir: Dir, chunk: Bytes, release: Release) {
    release in r.LaneOf(dir).log && release.tx == r.Tx(|chunk|)
  }

  ghost predicate TimerOk(r: Relay, t: Timer) {
    && t.due == r.delay + t.release.ready <= r.delay + r.LaneOf(t.dir).ready
    && Logged(r, t.dir, t.chunk, t.release)
  }

  ghost predicate DeliveryOk(r: Relay, d: Delivery) {
    d.at >= r.delay + d.release.ready && Logged(r, d.dir, d.chunk, d.release)
  }

  /** What came in was delivered no sooner than its release plus the delay, or is
      held until then. */
  ghost predicate Timely(r: Relay, l: Link) {
    && (forall i :: 0 <= i < |l.timers| ==> TimerOk(r, l.timers[i]))
    && (forall i :: 0 <= i < |l.delivered| ==> DeliveryOk(r, l.delivered[i]))
    && l.fromClient == Handed(l.delivered, Up) + Pending(l.timers, Up)
    && l.fromCore == Handed(l.delivered, Down) + Pending(l.timers, Down)
  }

  ghost predicate LinkOk(r: Relay, l: Link) {
    && Conserves(l)
    && Timely(r, l)
    && InDueOrder(l.timers)
    && (!l.open ==> forall i :: 0 <= i < |l.timers| ==> l.timers[i].dir.Up?)
    && (r.delay == 0.0 && r.msPerByte == 0.0 ==> l.timers == [])
  }

  ghost predicate Inv(r: Relay) {
    && r.delay >= 0.0 && r.msPerByte >= 0.0 && r.now >= 0.0
    && LaneOk(r, r.up) && LaneOk(r, r.down)
    && forall c :: 0 <= c < |r.links| ==> LinkOk(r, r.links[c])
  }

  lemma TxNonNegative(r: Relay, n: nat)
    requires r.msPerByte >= 0.0
    ensures r.Tx(n) >= 0.0 && (r.msPerByte == 0.0 ==> r.Tx(n) == 0.0) && (r.msPerByte > 0.0 && n > 0 ==> r.Tx(n) > 0.0)
  {}

  /** Bytes delivered at once go behind the ones on their way, of which there are none. */
  lemma ReceiveConserves(l: Link, dir: Dir, bytes: Bytes)
    requires Conserves(l) && (dir.Down? ==> l.open)
    requires bytes == [] || Pending(l.timers, dir) == []
    ensures ConservesWith(Receive(l, dir, bytes), dir, bytes)
  {
    if dir.Up? {
      Swap(if l.open then l.toCore + Flat(l.coreBacklog) else Flat(l.clientBacklog), Pending(l.timers, Up), bytes);
    } else {
      Swap(l.toClient + Flat(l.clientBacklog), Pending(l.timers, Down), bytes);
    }
  }

  lemma Swap(done: Bytes, pending: Bytes, bytes: Bytes)
    requires bytes == [] || pending == []
    ensures (done + pending) + bytes == done + bytes + pending
    ensures done + [] == done
  {}

  /** Bytes held by a timer go behind the ones already held. */
  lemma HoldConserves(l: Link, dir: Dir, bytes: Bytes, due: real, release: Release)
    requires Conserves(l) && (dir.Down? ==> l.open)
    ensures Conserves(Hold(l, dir, bytes, due, release))
  {
    HeldLast(l.timers, Timer(due, dir, bytes, release), Up);
    HeldLast(l.timers, Timer(due, dir, bytes, release), Down);
    if dir.Up? {
      Regroup(if l.open then l.toCore + Flat(l.coreBacklog) else Flat(l.clientBacklog), Pending(l.timers, Up), bytes);
    } else {
      Regroup(l.toClient + Flat(l.clientBacklog), Pending(l.timers, Down), bytes);
    }
  }

  lemma HeldLast(timers: seq<Timer>, t: Timer, dir: Dir)
    ensures Pending(timers + [t], dir) == if t.dir == dir then Pending(timers, dir) + t.chunk else Pending(timers, dir)
  {
    PendingAppend(timers, [t], dir);
    assert [t][1..] == [];
  }

  lemma Regroup(done: Bytes, pending: Bytes, bytes: Bytes)
    ensures (done + pending) + bytes == done + (pending + bytes)
  {}

  /** Taking the timer out leaves its chunk to be counted as the next of its direction. */
  lemma FiredConserves(l: Link, i: nat)
    requires Conserves(l) && InDueOrder(l.timers) && FirstDue(l.timers, i)
    requires l.timers[i].dir.Down? ==> l.open
    ensures ConservesWith(l.(timers := Fired(l.timers, i)), l.timers[i].dir, l.timers[i].chunk)
  {
    FiredIsOldest(l.timers, i, Up);
    FiredIsOldest(l.timers, i, Down);
    var rest, fired := Fired(l.timers, i), l.timers[i];
    Regroup(if l.open then l.toCore + Flat(l.coreBacklog) else Flat(l.clientBacklog), ChunkFor(fired, Up),
            Pending(rest, Up));
    Regroup(l.toClient + Flat(l.clientBacklog), ChunkFor(fired, Down), Pending(rest, Down));
  }

  lemma FireConserves(l: Link, i: nat, t: real, writes: seq<int>)
    requires Conserves(l) && InDueOrder(l.timers) && FirstDue(l.timers, i)
    requires l.timers[i].dir.Down? ==> l.open
    ensures Conserves(FireTimer(l, i, t, writes))
  {
    FiredConserves(l, i);
    DeliverConserves(l.(timers := Fired(l.timers, i)), DeliveryOf(l.timers[i], t), writes);
  }

  /** The later state `r'` has the same link, and its lanes are no earlier. */
  ghost predicate Follows(r: Relay, r': Relay) {
    && r'.delay == r.delay && r'.msPerByte == r.msPerByte
    && r'.up.ready >= r.up.ready && r'.down.ready >= r.down.ready
    && r.up.log <= r'.up.log && r.down.log <= r'.down.log
  }

  lemma TimelyLater(r: Relay, r': Relay, l: Link)
    requires Timely(r, l) && Follows(r, r')
    ensures Timely(r', l)
  {
    assert forall dir, e | e in r.LaneOf(dir).log :: e in r'.LaneOf(dir).log;
    assert forall n :: r'.Tx(n) == r.Tx(n);
    forall i | 0 <= i < |l.timers| ensures TimerOk(r', l.timers[i]) {
      assert TimerOk(r, l.timers[i]);
    }
    forall i | 0 <= i < |l.delivered| ensures DeliveryOk(r', l.delivered[i]) {
      assert DeliveryOk(r, l.delivered[i]);
    }
  }

  lemma LinkOkLater(r: Relay, r': Relay, l: Link)
    requires LinkOk(r, l) && Follows(r, r')
    ensures LinkOk(r', l)
  {
    TimelyLater(r, r', l);
  }

  lemma OthersOk(r: Relay, r': Relay, c: nat)
    requires Inv(r) && Follows(r, r') && |r'.links| >= |r.links|
    requires forall j :: 0 <= j < |r.links| && j != c ==> r'.links[j] == r.links[j]
    ensures forall j :: 0 <= j < |r.links| && j != c ==> LinkOk(r', r'.links[j])
  {
    forall j | 0 <= j < |r.links| && j != c ensures LinkOk(r', r'.links[j]) {
      LinkOkLater(r, r', r.links[j]);
    }
  }

  lemma DeliverLeaves(l: Link, d: Delivery, writes: seq<int>)
    ensures var l' := Deliver(l, d, writes);
      && l'.timers == l.timers && l'.open == l.open && l'.delivered == l.delivered + [d]
      && l'.fromClient == l.fromClient && l'.fromCore == l.fromCore
  {}

  /** A delivery at `d.at` of the oldest bytes of its direction that are not yet delivered. */
  lemma DeliverTimely(r: Relay, l: Link, d: Delivery, writes: seq<int>)
    requires DeliveryOk(r, d)
    requires forall i :: 0 <= i < |l.timers| ==> TimerOk(r, l.timers[i])
    requires forall i :: 0 <= i < |l.delivered| ==> DeliveryOk(r, l.delivered[i])
    requires l.fromClient == Handed(l.delivered, Up) + (if d.dir.Up? then d.chunk else []) + Pending(l.timers, Up)
    requires l.fromCore == Handed(l.delivered, Down) + (if d.dir.Down? then d.chunk else []) + Pending(l.timers, Down)
    ensures Timely(r, Deliver(l, d, writes))
  {
    DeliverLeaves(l, d, writes);
    assert (l.delivered + [d])[..|l.delivered|] == l.delivered;
  }

  /** The recursion that paces a direction: releases come later and later, and
      none before its arrival. */
  lemma AdvanceKeeps(r: Relay, dir: Dir, n: nat, t: real)
    requires Inv(r) && t >= r.now
    ensures var r' := Advance(r, dir, n, t);
            && Inv(r') && Follows(r, r') && r'.links == r.links && r'.LaneOf(dir).ready >= t
  {
    TxNonNegative(r, n);
    var lane := r.LaneOf(dir);
    assert LaneOk(r, lane);
    PacedExtends(lane.log, Release(t, r.Tx(n), NextReady(lane.ready, t, r.Tx(n))));
    OthersOk(r, Advance(r, dir, n, t), |r.links|);
  }

  lemma PacedExtends(log: seq<Release>, e: Release)
    requires Paced(log) && e.arrival >= 0.0 && e.tx >= 0.0
    requires e.ready == NextReady(ReadyBefore(log, |log|), e.arrival, e.tx)
    ensures Paced(log + [e])
  {
    var longer := log + [e];
    forall i: nat | i < |longer| ensures PacedAt(longer, i) {
      assert ReadyBefore(longer, i) == ReadyBefore(log, i);
      assert i < |log| ==> PacedAt(log, i);
    }
  }

  function CameIn(l: Link, dir: Dir): Bytes { if dir.Up? then l.fromClient else l.fromCore }

  /** What came in, with the chunk, is what was handed on and what is held, with the chunk. */
  lemma HoldHanded(l: Link, dir: Dir, bytes: Bytes, t: Timer, other: Dir)
    requires t.dir == dir && t.chunk == bytes
    requires CameIn(l, other) == Handed(l.delivered, other) + Pending(l.timers, other)
    ensures CameIn(Receive(l, dir, bytes), other) == Handed(l.delivered, other) + Pending(l.timers + [t], other)
  {
    HeldLast(l.timers, t, other);
    Regroup(Handed(l.delivered, other), Pending(l.timers, other), bytes);
  }

  lemma HoldTimely(r: Relay, l: Link, dir: Dir, bytes: Bytes, due: real, release: Release)
    requires Timely(r, l) && TimerOk(r, Timer(due, dir, bytes, release))
    ensures Timely(r, Hold(l, dir, bytes, due, release))
  {
    var t := Timer(due, dir, bytes, release);
    HoldHanded(l, dir, bytes, t, Up);
    HoldHanded(l, dir, bytes, t, Down);
    forall i | 0 <= i < |l.timers + [t]| ensures TimerOk(r, (l.timers + [t])[i]) {
      assert i < |l.timers| ==> TimerOk(r, l.timers[i]);
    }
  }

  /** A timer set now falls due after those of its direction. */
  lemma HoldInOrder(r: Relay, l: Link, timer: Timer)
    requires Timely(r, l) && InDueOrder(l.timers) && timer.due >= r.delay + r.LaneOf(timer.dir).ready
    ensures InDueOrder(l.timers + [timer])
  {
    var timers := l.timers + [timer];
    forall i, j | 0 <= i < j < |timers| && timers[i].dir == timers[j].dir ensures timers[i].due <= timers[j].due {
      assert timers[i] == l.timers[i] && TimerOk(r, l.timers[i]);
    }
  }

  /** A timer is set only with a delay, and for the core's bytes only once it is open. */
  lemma HoldAllowed(r: Relay, l: Link, dir: Dir, bytes: Bytes, due: real, release: Release)
    requires LinkOk(r, l) && (dir.Down? ==> l.open)
    ensures var held := Hold(l, dir, bytes, due, release);
      && held.timers == l.timers + [Timer(due, dir, bytes, release)] && held.open == l.open
      && (!held.open ==> forall i :: 0 <= i < |held.timers| ==> held.timers[i].dir.Up?)
  {
  }

  lemma HoldKeeps(r: Relay, l: Link, dir: Dir, bytes: Bytes, release: Release, r': Relay)
    requires LinkOk(r, l) && Follows(r, r') && (dir.Down? ==> l.open)
    requires r.delay > 0.0 || r.msPerByte > 0.0
    requires Logged(r', dir, bytes, release) && r.LaneOf(dir).ready <= release.ready == r'.LaneOf(dir).ready
    ensures LinkOk(r', Hold(l, dir, bytes, r.delay + release.ready, release))
  {
    var due := r.delay + release.ready;
    HoldConserves(l, dir, bytes, due, release);
    TimelyLater(r, r', l);
    HoldTimely(r', l, dir, bytes, due, release);
    HoldInOrder(r, l, Timer(due, dir, bytes, release));
    HoldAllowed(r, l, dir, bytes, due, release);
    assert !(r'.delay == 0.0 && r'.msPerByte == 0.0);
  }

  lemma DeliverKeeps(r: Relay, l: Link, d: Delivery, writes: seq<int>, r': Relay)
    requires LinkOk(r, l) && Follows(r, r') && (d.dir.Down? ==> l.open)
    requires d.chunk == [] || l.timers == []
    requires DeliveryOk(r', d)
    ensures LinkOk(r', Deliver(Receive(l, d.dir, d.chunk), d, writes))
  {
    var l0 := Receive(l, d.dir, d.chunk);
    ReceiveConserves(l, d.dir, d.chunk);
    DeliverConserves(l0, d, writes);
    DeliverLeaves(l0, d, writes);
    TimelyLater(r, r', l);
    Swap(Handed(l.delivered, d.dir), Pending(l.timers, d.dir), d.chunk);
    DeliverTimely(r', l0, d, writes);
  }

  /** With no delay, a chunk whose turn is now has no link time, so it is empty
      or nothing is held anywhere. */
  lemma NothingToOvertake(r: Relay, l: Link, dir: Dir, n: nat, t: real)
    requires Inv(r) && LinkOk(r, l) && t >= r.now
    requires r.delay + NextReady(r.LaneOf(dir).ready, t, r.Tx(n)) <= t
    ensures n == 0 || l.timers == []
  {
    TxNonNegative(r, n);
  }

  /** When the link has infinite rate and no delay, nothing waits. */
  lemma NothingToHold(r: Relay, dir: Dir, n: nat, t: real)
    requires Inv(r) && t >= r.now
    requires r.delay + NextReady(r.LaneOf(dir).ready, t, r.Tx(n)) > t
    ensures r.delay > 0.0 || r.msPerByte > 0.0
  {
    TxNonNegative(r, n);
  }

  /** A step of one connection alone. */
  lemma LinkStep(r: Relay, c: nat, l: Link, t: real)
    requires Inv(r) && t >= r.now && c < |r.links|
    ensures Inv(r.(now := t, links := r.links[c := l])) <==> LinkOk(r, l)
  {
    var r' := r.(now := t, links := r.links[c := l]);
    OthersOk(r, r', c);
    assert r'.links[c] == l;
    if LinkOk(r, l) {
      LinkOkLater(r, r', l);
    } else if LinkOk(r', l) {
      LinkOkLater(r', r, l);
    }
  }

  lemma ForwardLink(r: Relay, l: Link, dir: Dir, bytes: Bytes, t: real, writes: seq<int>, r': Relay)
    requires Inv(r) && LinkOk(r, l) && t >= r.now && (dir.Down? ==> l.open)
    requires Follows(r, r')
    requires var release := ReleaseOf(r, dir, |bytes|, t);
             release.ready == r'.LaneOf(dir).ready && Logged(r', dir, bytes, release)
    ensures LinkOk(r', Forwarded(r, l, dir, bytes, t, writes))
  {
    var release, l' := ReleaseOf(r, dir, |bytes|, t), Forwarded(r, l, dir, bytes, t, writes);
    if r.delay + release.ready - t > 0.0 {
      assert l' == Hold(l, dir, bytes, r.delay + release.ready, release);
      NothingToHold(r, dir, |bytes|, t);
      HoldKeeps(r, l, dir, bytes, release, r');
    } else {
      assert l' == Deliver(Receive(l, dir, bytes), Delivery(dir, bytes, release, t), writes);
      NothingToOvertake(r, l, dir, |bytes|, t);
      DeliverKeeps(r, l, Delivery(dir, bytes, release, t), writes, r');
    }
  }

  lemma ForwardKeeps(r: Relay, c: nat, dir: Dir, bytes: Bytes, t: real, writes: seq<int>)
    requires Inv(r) && t >= r.now && c < |r.links| && (dir.Down? ==> r.links[c].open)
    ensures Inv(Forward(r, c, dir, bytes, t, writes))
  {
    var r', l' := Advance(r, dir, |bytes|, t), Forwarded(r, r.links[c], dir, bytes, t, writes);
    AdvanceKeeps(r, dir, |bytes|, t);
    AdvanceLogs(r, dir, |bytes|, t, bytes);
    ForwardLink(r, r.links[c], dir, bytes, t, writes, r');
    LinkStep(r', c, l', t);
    assert Forward(r, c, dir, bytes, t, writes) == r'.(now := t, links := r'.links[c := l']);
  }

  lemma AdvanceLogs(r: Relay, dir: Dir, n: nat, t: real, bytes: Bytes)
    requires n == |bytes|
    ensures var r', release := Advance(r, dir, n, t), ReleaseOf(r, dir, n, t);
      release.ready == r'.LaneOf(dir).ready && Logged(r', dir, bytes, release) && r'.now == t
  {
    var log, release := r.LaneOf(dir).log, ReleaseOf(r, dir, n, t);
    assert Advance(r, dir, n, t).LaneOf(dir).log == log + [release];
    assert (log + [release])[|log|] == release;
  }

  lemma OpenKeeps(r: Relay, l: Link, writes: seq<int>)
    requires LinkOk(r, l) && !l.open
    ensures LinkOk(r, OpenCore(l, writes))
  {
    OpenCoreConserves(l, writes);
  }

  lemma ClientDrainKeeps(r: Relay, l: Link, writes: seq<int>)
    requires LinkOk(r, l)
    ensures LinkOk(r, FlushClient(l, writes)) <==> l.open || Flush(l.clientBacklog, writes).sent == []
  {
    if l.open { FlushClientConserves(l, writes); } else { EarlyDrain(l, writes); }
  }

  lemma CoreDrainKeeps(r: Relay, l: Link, writes: seq<int>)
    requires LinkOk(r, l) && l.open
    ensures LinkOk(r, FlushCore(l, writes))
  {
    FlushCoreConserves(l, writes);
  }

  /** Every step that the sockets and the event loop may take keeps the
      invariant, but the drain that hands the client its own bytes back, and
      that one always breaks it. */
  lemma StepKeeps(r: Relay, e: Event, t: real)
    requires Inv(r) && Enabled(r, e, t)
    ensures Inv(Step(r, e, t)) <==> !DrainsEarly(r, e)
  {
    match e
    case Accept => OthersOk(r, Step(r, e, t), |r.links|);
    case Reset => OthersOk(r, Step(r, e, t), |r.links|);
    case Data(c, dir, bytes, writes) => ForwardKeeps(r, c, dir, bytes, t, writes);
    case CoreOpens(c, writes) =>
      OpenKeeps(r, r.links[c], writes);
      LinkStep(r, c, OpenCore(r.links[c], writes), t);
    case Fire(c, i, writes) =>
      FireKeeps(r, r.links[c], i, t, writes);
      LinkStep(r, c, FireTimer(r.links[c], i, t, writes), t);
    case ClientDrains(c, writes) =>
      ClientDrainKeeps(r, r.links[c], writes);
      LinkStep(r, c, FlushClient(r.links[c], writes), t);
    case CoreDrains(c, writes) =>
      CoreDrainKeeps(r, r.links[c], writes);
      LinkStep(r, c, FlushCore(r.links[c], writes), t);
  }

  lemma FireKeeps(r: Relay, l: Link, i: nat, t: real, writes: seq<int>)
    requires LinkOk(r, l) && FirstDue(l.timers, i) && t >= l.timers[i].due
    ensures LinkOk(r, FireTimer(l, i, t, writes))
  {
    var l0, d := l.(timers := Fired(l.timers, i)), DeliveryOf(l.timers[i], t);
    FireConserves(l, i, t, writes);
    FireTimely(r, l, i, t, writes);
    assert FireTimer(l, i, t, writes) == Deliver(l0, d, writes);
    DeliverLeaves(l0, d, writes);
  }

  lemma FireTimely(r: Relay, l: Link, i: nat, t: real, writes: seq<int>)
    requires Timely(r, l) && InDueOrder(l.timers) && FirstDue(l.timers, i) && t >= l.timers[i].due
    ensures Timely(r, FireTimer(l, i, t, writes))
  {
    var l0 := l.(timers := Fired(l.timers, i));
    assert TimerOk(r, l.timers[i]);
    FiredIsOldest(l.timers, i, Up);
    FiredIsOldest(l.timers, i, Down);
    FireRegroups(Handed(l.delivered, Up), ChunkFor(l.timers[i], Up), Pending(l0.timers, Up));
    FireRegroups(Handed(l.delivered, Down), ChunkFor(l.timers[i], Down), Pending(l0.timers, Down));
    DeliverTimely(r, l0, DeliveryOf(l.timers[i], t), writes);
  }

  lemma FireRegroups(done: Bytes, chunk: Bytes, pending: Bytes)
    ensures done + (chunk + pending) == done + chunk + pending
  {}

  // ---- Whole runs

  datatype Stamped = Stamped(event: Event, at: real)

  ghost predicate Start(r: Relay) {
    && r.delay >= 0.0 && r.msPerByte >= 0.0 && r.now >= 0.0
    && r.up == r.down == Lane(0, 0.0, []) && r.links == []
  }

  /** A possible run from `r`, with no early drain. */
  ghost predicate Run(r: Relay, trace: seq<Stamped>)
    decreases |trace|
  {
    trace == [] ||
    (var s := trace[0];
     Enabled(r, s.event, s.at) && !DrainsEarly(r, s.event) && Run(Step(r, s.event, s.at), trace[1..]))
  }

  ghost function Exec(r: Relay, trace: seq<Stamped>): Relay
    requires Run(r, trace)
    decreases |trace|
  {
    if trace == [] then r else Exec(Step(r, trace[0].event, trace[0].at), trace[1..])
  }

  lemma {:induction false} RunKeeps(r: Relay, trace: seq<Stamped>)
    requires Inv(r) && Run(r, trace)
    ensures Inv(Exec(r, trace)) && Exec(r, trace).delay == r.delay && Exec(r, trace).msPerByte == r.msPerByte
    decreases |trace|
  {
    if trace != [] {
      StepKeeps(r, trace[0].event, trace[0].at);
      RunKeeps(Step(r, trace[0].event, trace[0].at), trace[1..]);
    }
  }

  /** In every run, on every connection: what has been written to each peer is a
      prefix of what the other side sent, and the rest is still held, in order. */
  lemma NothingLostOrRepeated(r: Relay, trace: seq<Stamped>, c: nat)
    requires Start(r) && Run(r, trace) && c < |Exec(r, trace).links|
    ensures var l := Exec(r, trace).links[c];
            && l.toCore <= l.fromClient && l.toClient <= l.fromCore
            && (l.coreBacklog == [] && l.clientBacklog == [] && l.timers == [] && l.open
                ==> l.toCore == l.fromClient && l.toClient == l.fromCore)
            && (l.open ==> l.fromClient == l.toCore + Flat(l.coreBacklog) + Pending(l.timers, Up))
            && (l.open ==> l.fromCore == l.toClient + Flat(l.clientBacklog) + Pending(l.timers, Down))
            && (!l.open ==> l.fromClient == Flat(l.clientBacklog) + Pending(l.timers, Up))
  {
    RunKeeps(r, trace);
    var l := Exec(r, trace).links[c];
    assert LinkOk(Exec(r, trace), l);
  }

  /** In every run, in each direction: any two chunks are released at least the
      link time of the later ones apart, and each when the busiest stretch of
      the link up to it ends. */
  lemma EveryRunIsPaced(r: Relay, trace: seq<Stamped>, dir: Dir, i: nat, j: nat)
    requires Start(r) && Run(r, trace)
    requires var log := Exec(r, trace).LaneOf(dir).log; i <= j < |log|
    ensures var log := Exec(r, trace).LaneOf(dir).log;
            && log[j].ready - log[i].ready >= Transmission(log, i + 1, j + 1) >= 0.0
            && log[j].ready >= log[i].arrival + Transmission(log, i, j + 1)
            && exists k :: 0 <= k <= j && log[j].ready == log[k].arrival + Transmission(log, k, j + 1)
  {
    RunKeeps(r, trace);
    var log := Exec(r, trace).LaneOf(dir).log;
    ReleasesApart(log, i, j);
    var k := ReleaseIsLatestBusyPeriod(log, j);
  }

  lemma {:induction false} LoggedIsPaced(log: seq<Release>, e: Release)
    requires Paced(log) && e in log
    ensures e.ready >= e.arrival + e.tx
  {
    var i: nat :| i < |log| && log[i] == e;
    assert PacedAt(log, i);
  }

  /** In every run, on every connection: a chunk is delivered no sooner than its
      release and the one-way delay after it, so never sooner than its arrival, the
      link time of its bytes and that delay; and only delivered bytes are written. */
  lemma NoEarlyDelivery(r: Relay, trace: seq<Stamped>, c: nat)
    requires Start(r) && Run(r, trace) && c < |Exec(r, trace).links|
    ensures var l := Exec(r, trace).links[c];
            && (forall i :: 0 <= i < |l.delivered| ==>
                  var d := l.delivered[i];
                  && d.release in Exec(r, trace).LaneOf(d.dir).log
                  && d.at >= d.release.ready + r.delay
                  && d.at >= d.release.arrival + r.Tx(|d.chunk|) + r.delay
                  && d.at >= d.release.arrival + r.delay)
            && l.toCore <= Handed(l.delivered, Up) <= l.fromClient
            && l.toClient <= Handed(l.delivered, Down) <= l.fromCore
  {
    RunKeeps(r, trace);
    var last := Exec(r, trace);
    var l := last.links[c];
    assert LinkOk(last, l);
    forall i | 0 <= i < |l.delivered|
      ensures var d := l.delivered[i];
        && d.release in last.LaneOf(d.dir).log
        && d.at >= d.release.ready + r.delay
        && d.at >= d.release.arrival + r.Tx(|d.chunk|) + r.delay
        && d.at >= d.release.arrival + r.delay
    {
      var d := l.delivered[i];
      assert DeliveryOk(last, d);
      LoggedIsPaced(last.LaneOf(d.dir).log, d.release);
      TxNonNegative(r, |d.chunk|);
      assert last.Tx(|d.chunk|) == r.Tx(|d.chunk|);
    }
    WrittenIsHanded(l, last);
  }

  /** What has been written or waits in a backlog is what has been delivered. */
  lemma WrittenIsHanded(l: Link, r: Relay)
    requires LinkOk(r, l)
    ensures l.open ==> l.toCore + Flat(l.coreBacklog) == Handed(l.delivered, Up)
    ensures l.open ==> l.toClient + Flat(l.clientBacklog) == Handed(l.delivered, Down)
    ensures !l.open ==> Flat(l.clientBacklog) == Handed(l.delivered, Up) && Handed(l.delivered, Down) == []
  {
    if l.open {
      SameFront(l.toCore + Flat(l.coreBacklog), Handed(l.delivered, Up), Pending(l.timers, Up));
      SameFront(l.toClient + Flat(l.clientBacklog), Handed(l.delivered, Down), Pending(l.timers, Down));
    } else {
      SameFront(Flat(l.clientBacklog), Handed(l.delivered, Up), Pending(l.timers, Up));
    }
  }

  lemma SameFront(a: Bytes, b: Bytes, rest: Bytes)
    requires a + rest == b + rest
    ensures a == b
  {
    assert |a| == |b|;
    assert a == (a + rest)[..|a|] && b == (b + rest)[..|b|];
  }

  /** The run the invariant excludes: a client writes, drains before the core is
      there, and gets its own byte back; the core never sees it. */
  lemma EarlyDrainLosesBytes(r: Relay)
    requires Start(r) && r.delay == 0.0 && r.msPerByte == 0.0
    ensures var t := r.now;
            var e0, e1, e2, e3 := Accept, Data(0, Up, [7], []), ClientDrains(0, [1]), CoreOpens(0, []);
            && Enabled(r, e0, t) && var r1 := Step(r, e0, t);
               Enabled(r1, e1, t) && var r2 := Step(r1, e1, t);
               Enabled(r2, e2, t) && var r3 := Step(r2, e2, t);
               Enabled(r3, e3, t) && var l := Step(r3, e3, t).links[0];
               l.fromClient == [7] && l.toClient == [7] && l.toCore == [] && l.coreBacklog == [] && l.timers == []
  {
    TxNonNegative(r, 1);
    var r1 := Step(r, Accept, r.now);
    var r2 := Step(r1, Data(0, Up, [7], []), r.now);
    assert r1.links == [NEW_LINK];
    assert r1.Tx(1) == r.Tx(1);
    var delivered := [Delivery(Up, [7], ReleaseOf(r1, Up, 1, r.now), r.now)];
    assert r2.links[0] == NEW_LINK.(delivered := delivered, fromClient := [7], clientBacklog := [[7]]);
    assert Flush([[7]], [1]) == Flushed([], [7] + []);
    assert FlushClient(r2.links[0], [1]) == NEW_LINK.(delivered := delivered, fromClient := [7], toClient := [7]);
  }

  // ---- The relay in place

  /** `startWire`: the counters, the pacing of each direction and the sockets'
      records, changed by the event handlers. Each handler is a step of the
      machine above, at the time `t` of its event. */
  class Server {
    const delay: real
    const msPerByte: real
    var up: nat
    var down: nat
    var chunksDown: nat
    var upReady: real
    var downReady: real
    var links: seq<Link>
    ghost var now: real
    ghost var upLog: seq<Release>
    ghost var downLog: seq<Release>

    constructor (oneWayDelayMs: real, msPerByte: real, ghost t: real)
      requires oneWayDelayMs >= 0.0 && msPerByte >= 0.0 && t >= 0.0
      ensures Start(State()) && State().delay == oneWayDelayMs && State().msPerByte == msPerByte && State().now == t
    {
      delay, this.msPerByte := oneWayDelayMs, msPerByte;
      up, down, chunksDown, upReady, downReady, links := 0, 0, 0, 0.0, 0.0, [];
      now, upLog, downLog := t, [], [];
    }

    ghost function State(): Relay
      reads this
    {
      Relay(delay, msPerByte, now, Lane(up, upReady, upLog), Lane(down, downReady, downLog), chunksDown, links)
    }

    /** `flush(core)`. */
    method FlushCoreSocket(c: nat, writes: seq<int>)
      requires c < |links|
      modifies `links
      ensures links == old(links)[c := FlushCore(old(links)[c], writes)]
    {
      var backlog, sent := FlushLoop(links[c].coreBacklog, writes);
      links := links[c := links[c].(coreBacklog := backlog, toCore := links[c].toCore + sent)];
    }

    /** `flush(client)`. */
    method FlushClientSocket(c: nat, writes: seq<int>)
      requires c < |links|
      modifies `links
      ensures links == old(links)[c := FlushClient(old(links)[c], writes)]
    {
      var backlog, sent := FlushLoop(links[c].clientBacklog, writes);
      links := links[c := links[c].(clientBacklog := backlog, toClient := links[c].toClient + sent)];
    }

    /** The listener's `open`. */
    method OnClientOpen(ghost t: real)
      modifies this
      ensures State() == Step(old(State()), Accept, t)
    {
      links := links + [NEW_LINK];
      now := t;
    }

    /** The core's `open`. */
    method OnCoreOpen(c: nat, writes: seq<int>, ghost t: real)
      requires c < |links|
      modifies this
      ensures State() == Step(old(State()), CoreOpens(c, writes), t)
    {
      var early := links[c].clientBacklog;
      links := links[c := links[c].(clientBacklog := [])];
      links := links[c := links[c].(open := true)];
      links := links[c := links[c].(coreBacklog := early)];
      FlushCoreSocket(c, writes);
      now := t;
    }

    /** `deliver`. */
    method DeliverChunk(c: nat, dir: Dir, chunk: Bytes, release: Release, t: real, writes: seq<int>)
      requires c < |links|
      modifies `links
      ensures links == old(links)[c := Deliver(old(links)[c], Delivery(dir, chunk, release, t), writes)]
    {
      links := links[c := links[c].(delivered := links[c].delivered + [Delivery(dir, chunk, release, t)])];
      if dir.Up? && !links[c].open {
        links := links[c := links[c].(clientBacklog := links[c].clientBacklog + [chunk])];
      } else if dir.Up? {
        links := links[c := links[c].(coreBacklog := links[c].coreBacklog + [chunk])];
        FlushCoreSocket(c, writes);
      } else {
        links := links[c := links[c].(clientBacklog := links[c].clientBacklog + [chunk])];
        FlushClientSocket(c, writes);
      }
    }

    /** The counters of `forward`, and when its chunk is through the link. */
    method Pace(dir: Dir, n: nat, t: real) returns (release: Release)
      modifies this
      ensures State() == Advance(old(State()), dir, n, t) && release == ReleaseOf(old(State()), dir, n, t)
    {
      ghost var before := State();
      var last := if dir.Down? then downReady else upReady;
      var tx := n as real * msPerByte;
      var ready := (if t > last then t else last) + tx;
      release := Release(t, tx, ready);
      assert last == before.LaneOf(dir).ready && tx == before.Tx(n);
      assert release == ReleaseOf(before, dir, n, t);
      if dir.Down? {
        down, chunksDown := down + n, chunksDown + 1;
        downReady, downLog := ready, downLog + [release];
      } else {
        up := up + n;
        upReady, upLog := ready, upLog + [release];
      }
      now := t;
    }

    /** `data`, which forwards the chunk. */
    method OnData(c: nat, dir: Dir, bytes: Bytes, writes: seq<int>, t: real)
      requires c < |links|
      modifies this
      ensures State() == Step(old(State()), Data(c, dir, bytes, writes), t)
    {
      var release := Pace(dir, |bytes|, t);
      links := links[c := Receive(links[c], dir, bytes)];
      var wait := delay + release.ready - t;
      if wait > 0.0 {
        links := links[c := links[c].(timers := links[c].timers + [Timer(delay + release.ready, dir, bytes, release)])];
      } else {
        DeliverChunk(c, dir, bytes, release, t, writes);
      }
    }

    /** A timer that falls due. */
    method OnTimer(c: nat, i: nat, writes: seq<int>, t: real)
      requires c < |links| && i < |links[c].timers|
      modifies this
      ensures State() == Step(old(State()), Fire(c, i, writes), t)
    {
      var timer := links[c].timers[i];
      links := links[c := links[c].(timers := Fired(links[c].timers, i))];
      DeliverChunk(c, timer.dir, timer.chunk, timer.release, t, writes);
      now := t;
    }

    /** `drain`, of either socket. */
    method OnDrain(c: nat, dir: Dir, writes: seq<int>, ghost t: real)
      requires c < |links|
      modifies this
      ensures State() == Step(old(State()), if dir.Up? then CoreDrains(c, writes) else ClientDrains(c, writes), t)
    {
      if dir.Up? { FlushCoreSocket(c, writes); } else { FlushClientSocket(c, writes); }
      now := t;
    }

    method OnReset(ghost t: real)
      modifies this
      ensures State() == Step(old(State()), Reset, t)
    {
      up, down, chunksDown := 0, 0, 0;
      now := t;
    }
  }
}
