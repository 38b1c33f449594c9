/** The attribution of context to categories in `scripts/token-audit.ts`. Tokens
    are exact reals; a `Map` is the sequence of its entries, in insertion order. */
module TokenAudit {

  /** A category: the three that the attribution itself names, or that of a block. */
  datatype Category = FixedPrefix | Thinking | Unexplained | Named(name: string)

  const IMAGE_TOKENS := 1500.0

  datatype Entry = Entry(cat: Category, tokens: real)

  /** A block of a message that has not been attributed yet. */
  datatype Block = Block(cat: Category, chars: nat, image: bool, assistant: bool, tool: bool)

  /** A tool result that is still in the context. */
  datatype Open = Open(cat: Category, tokens: real, from: nat)

  // ---- Tallies

  function Add(m: seq<Entry>, cat: Category, tokens: real): seq<Entry> {
    if m == [] then [Entry(cat, tokens)]
    else if m[0].cat == cat then [Entry(cat, m[0].tokens + tokens)] + m[1..]
    else [m[0]] + Add(m[1..], cat, tokens)
  }

  /** The tokens of the fixed prefix, and of everything else. */
  function PrefixOf(m: seq<Entry>): real {
    if m == [] then 0.0 else (if m[0].cat == FixedPrefix then m[0].tokens else 0.0) + PrefixOf(m[1..])
  }

  function HistoryOf(m: seq<Entry>): real {
    if m == [] then 0.0 else HistoryIn(m[0]) + HistoryOf(m[1..])
  }

  function HistoryIn(e: Entry): real { if e.cat == FixedPrefix then 0.0 else e.tokens }

  function Total(m: seq<Entry>): real { PrefixOf(m) + HistoryOf(m) }

  function TokensOf(m: seq<Entry>, cat: Category): real {
    if m == [] then 0.0 else TokensIn(m[0], cat) + TokensOf(m[1..], cat)
  }

  function OpenOf(open: seq<Open>, cat: Category): real {
    if open == [] then 0.0 else OpenIn(open[0], cat) + OpenOf(open[1..], cat)
  }

  function TokensIn(e: Entry, c: Category): real { if e.cat == c then e.tokens else 0.0 }

  function OpenIn(o: Open, c: Category): real { if o.cat == c then o.tokens else 0.0 }

  lemma {:induction false} AddTotals(m: seq<Entry>, cat: Category, tokens: real)
    ensures PrefixOf(Add(m, cat, tokens)) == PrefixOf(m) + if cat == FixedPrefix then tokens else 0.0
    ensures HistoryOf(Add(m, cat, tokens)) == HistoryOf(m) + if cat == FixedPrefix then 0.0 else tokens
  {
    if m != [] && m[0].cat != cat {
      AddTotals(m[1..], cat, tokens);
    }
  }

  lemma {:induction false} AddTokens(m: seq<Entry>, cat: Category, tokens: real, c: Category)
    ensures TokensOf(Add(m, cat, tokens), c) == TokensOf(m, c) + if c == cat then tokens else 0.0
  {
    if m != [] && m[0].cat != cat {
      AddTokens(m[1..], cat, tokens, c);
    }
  }

  // ---- Spreading tokens over blocks

  function Est(b: Block, cpt: real): real
    requires cpt > 0.0
  {
    if b.image then IMAGE_TOKENS else b.chars as real / cpt
  }

  function Known(bs: seq<Block>, cpt: real): real
    requires cpt > 0.0
  {
    if bs == [] then 0.0 else Est(bs[0], cpt) + Known(bs[1..], cpt)
  }

  function Share(b: Block, cpt: real, scale: real): real
    requires cpt > 0.0
  {
    Est(b, cpt) * scale
  }

  /** Each block adds its estimate times `scale` to its category. */
  function Spread(m: seq<Entry>, bs: seq<Block>, cpt: real, scale: real): seq<Entry>
    requires cpt > 0.0
    decreases |bs|
  {
    if bs == [] then m else Spread(Add(m, bs[0].cat, Share(bs[0], cpt, scale)), bs[1..], cpt, scale)
  }

  function Opened(bs: seq<Block>, cpt: real, scale: real, from: nat): seq<Open>
    requires cpt > 0.0
  {
    if bs == [] then []
    else
      var first := if bs[0].tool then [Open(bs[0].cat, Share(bs[0], cpt, scale), from)] else [];
      first + Opened(bs[1..], cpt, scale, from)
  }

  lemma EstNonNegative(b: Block, cpt: real)
    requires cpt > 0.0
    ensures Est(b, cpt) >= 0.0
  {}

  lemma ShareNonNegative(b: Block, cpt: real, scale: real)
    requires cpt > 0.0 && scale >= 0.0
    ensures Share(b, cpt, scale) >= 0.0
  {
    EstNonNegative(b, cpt);
  }

  lemma {:induction false} KnownNonNegative(bs: seq<Block>, cpt: real)
    requires cpt > 0.0
    ensures Known(bs, cpt) >= 0.0
  {
    if bs != [] {
      EstNonNegative(bs[0], cpt);
      KnownNonNegative(bs[1..], cpt);
    }
  }

  lemma Distribute(a: real, b: real, c: real)
    ensures (a + b) * c == a * c + b * c
  {}

  ghost predicate NoPrefix(bs: seq<Block>) {
    forall b :: b in bs ==> b.cat != FixedPrefix
  }

  /** What a spread adds. */
  function Spent(bs: seq<Block>, cpt: real, scale: real): real
    requires cpt > 0.0
  {
    if bs == [] then 0.0 else Share(bs[0], cpt, scale) + Spent(bs[1..], cpt, scale)
  }

  lemma {:induction false} SpentIsScaled(bs: seq<Block>, cpt: real, scale: real)
    requires cpt > 0.0
    ensures Spent(bs, cpt, scale) == Known(bs, cpt) * scale
  {
    if bs != [] {
      SpentIsScaled(bs[1..], cpt, scale);
      Distribute(Est(bs[0], cpt), Known(bs[1..], cpt), scale);
    }
  }

  /** Spreading adds exactly the scaled estimate of the blocks, and nothing to the prefix. */
  lemma {:induction false} SpreadTotals(m: seq<Entry>, bs: seq<Block>, cpt: real, scale: real)
    requires cpt > 0.0 && NoPrefix(bs)
    ensures PrefixOf(Spread(m, bs, cpt, scale)) == PrefixOf(m)
    ensures HistoryOf(Spread(m, bs, cpt, scale)) == HistoryOf(m) + Spent(bs, cpt, scale)
    decreases |bs|
  {
    if bs != [] {
      var share := Share(bs[0], cpt, scale);
      AddTotals(m, bs[0].cat, share);
      SpreadTotals(Add(m, bs[0].cat, share), bs[1..], cpt, scale);
    }
  }

  /** What a spread adds to a category is at least what it opens there. */
  lemma {:induction false} SpreadCoversOpened(m: seq<Entry>, bs: seq<Block>, cpt: real, scale: real, from: nat,
        c: Category)
    requires cpt > 0.0 && scale >= 0.0
    ensures TokensOf(Spread(m, bs, cpt, scale), c) >= TokensOf(m, c) + OpenOf(Opened(bs, cpt, scale, from), c)
    ensures OpenOf(Opened(bs, cpt, scale, from), c) >= 0.0
    decreases |bs|
  {
    if bs != [] {
      var share := Share(bs[0], cpt, scale);
      ShareNonNegative(bs[0], cpt, scale);
      AddTokens(m, bs[0].cat, share, c);
      SpreadCoversOpened(Add(m, bs[0].cat, share), bs[1..], cpt, scale, from, c);
      var first := if bs[0].tool then [Open(bs[0].cat, share, from)] else [];
      OpenAppend(first, Opened(bs[1..], cpt, scale, from), c);
      assert first != [] ==> first[1..] == [];
    }
  }

  lemma {:induction false} OpenAppend(a: seq<Open>, b: seq<Open>, c: Category)
    ensures OpenOf(a + b, c) == OpenOf(a, c) + OpenOf(b, c)
  {
    if a == [] {
      assert a + b == b;
    } else {
      assert (a + b)[1..] == a[1..] + b;
      OpenAppend(a[1..], b, c);
    }
  }

  // ---- Scaling the history down

  function Times(f: real): real -> real { (x: real) => x * f }

  /** A scaling, for sums: what the accounting needs to know about a multiplication. */
  ghost predicate Linear(scale: real -> real) {
    && scale(0.0) == 0.0
    && (forall a, b :: Adds(scale, a, b))
    && (forall a, b :: Keeps(scale, a, b))
  }

  ghost predicate Adds(scale: real -> real, a: real, b: real) {
    scale(a + b) == scale(a) + scale(b)
  }

  ghost predicate Keeps(scale: real -> real, a: real, b: real) {
    0.0 <= a <= b ==> 0.0 <= scale(a) <= scale(b)
  }

  lemma TimesIsLinear(f: real)
    requires f >= 0.0
    ensures Linear(Times(f))
  {
    forall a, b ensures Adds(Times(f), a, b) { Distribute(a, b, f); }
    forall a, b ensures Keeps(Times(f), a, b) {
      if 0.0 <= a <= b { Monotone(a, b, f); }
    }
  }

  lemma Monotone(a: real, b: real, f: real)
    requires 0.0 <= a <= b && f >= 0.0
    ensures 0.0 <= a * f <= b * f
  {
    assert (b - a) * f >= 0.0;
  }

  function Scaled(m: seq<Entry>, scale: real -> real): seq<Entry> {
    if m == [] then [] else [ScaledEntry(m[0], scale)] + Scaled(m[1..], scale)
  }

  function ScaledEntry(e: Entry, scale: real -> real): Entry {
    if e.cat == FixedPrefix then e else Entry(e.cat, scale(e.tokens))
  }

  function ScaledOpen(open: seq<Open>, scale: real -> real): seq<Open> {
    if open == [] then [] else [open[0].(tokens := scale(open[0].tokens))] + ScaledOpen(open[1..], scale)
  }

  lemma {:induction false} ScaledPrefix(m: seq<Entry>, scale: real -> real)
    ensures PrefixOf(Scaled(m, scale)) == PrefixOf(m)
  {
    if m != [] { ScaledPrefix(m[1..], scale); }
  }

  lemma {:induction false} ScaledHistory(m: seq<Entry>, scale: real -> real)
    requires Linear(scale)
    ensures HistoryOf(Scaled(m, scale)) == scale(HistoryOf(m))
  {
    if m != [] {
      ScaledHistory(m[1..], scale);
      assert Adds(scale, HistoryIn(m[0]), HistoryOf(m[1..]));
    }
  }

  lemma {:induction false} ScaledTokens(m: seq<Entry>, scale: real -> real, c: Category)
    requires Linear(scale) && c != FixedPrefix
    ensures TokensOf(Scaled(m, scale), c) == scale(TokensOf(m, c))
  {
    if m != [] {
      ScaledTokens(m[1..], scale, c);
      assert Adds(scale, TokensIn(m[0], c), TokensOf(m[1..], c));
    }
  }

  lemma {:induction false} ScaledOpenOf(open: seq<Open>, scale: real -> real, c: Category)
    requires Linear(scale)
    ensures OpenOf(ScaledOpen(open, scale), c) == scale(OpenOf(open, c))
  {
    if open != [] {
      ScaledOpenOf(open[1..], scale, c);
      assert Adds(scale, OpenIn(open[0], c), OpenOf(open[1..], c));
    }
  }

  /** Scaling keeps open results within what is live of their category. */
  lemma ScaledWithin(m: seq<Entry>, open: seq<Open>, scale: real -> real, c: Category)
    requires Linear(scale) && c != FixedPrefix && 0.0 <= OpenOf(open, c) <= TokensOf(m, c)
    ensures 0.0 <= OpenOf(ScaledOpen(open, scale), c) <= TokensOf(Scaled(m, scale), c)
  {
    ScaledTokens(m, scale, c);
    ScaledOpenOf(open, scale, c);
    assert Keeps(scale, OpenOf(open, c), TokensOf(m, c));
  }

  // ---- One model call

  /** What `auditFile` keeps between lines, of the part modelled here. `cut` and
      `missed` are bookkeeping of the proof: a shrink of this segment cut below
      the fixed prefix; some call was recorded in such a segment. */
  datatype Audit = Audit(live: seq<Entry>, pending: seq<Block>, open: seq<Open>, lastCtx: real, lastOut: real,
                         first: bool, segCalls: nat, weight: seq<Entry>, sumCtx: real, cut: bool, missed: bool)

  const START := Audit([], [], [], 0.0, 0.0, true, 0, [], 0.0, false, false)

  function Max(a: real, b: real): real { if a > b then a else b }
  function Min(a: real, b: real): real { if a < b then a else b }

  /** The first call of a segment: the prefix is what its blocks leave. */
  function FirstLive(live: seq<Entry>, pending: seq<Block>, ctx: real, cpt: real): seq<Entry>
    requires cpt > 0.0 && ctx >= 0.0
  {
    var known := Known(pending, cpt);
    Spread(Set(live, FixedPrefix, Max(0.0, ctx - known)), pending, cpt, Ratio(ctx, known))
  }

  function Set(m: seq<Entry>, cat: Category, tokens: real): seq<Entry> {
    if m == [] then [Entry(cat, tokens)]
    else if m[0].cat == cat then [Entry(cat, tokens)] + m[1..]
    else [m[0]] + Set(m[1..], cat, tokens)
  }

  function Mine(bs: seq<Block>): seq<Block> {
    if bs == [] then [] else (if bs[0].assistant then [bs[0]] else []) + Mine(bs[1..])
  }

  function Theirs(bs: seq<Block>): seq<Block> {
    if bs == [] then [] else (if bs[0].assistant then [] else [bs[0]]) + Theirs(bs[1..])
  }

  /** The factor a shrink of `-delta` tokens leaves of a history of `hist`. */
  function Shrink(hist: real, delta: real): real {
    if delta >= 0.0 then 1.0
    else if hist > 0.0 then Max(0.0, (hist + delta) / hist)
    else 1.0
  }

  /** The part that fits: `part / whole`, at most 1. */
  function Ratio(part: real, whole: real): real
    requires part >= 0.0
  {
    if whole > part then part / whole else 1.0
  }

  /** The answer's blocks, and its thinking: what they leave of it. */
  function Answer(live: seq<Entry>, mine: seq<Block>, asst: real, cpt: real): seq<Entry>
    requires cpt > 0.0 && asst >= 0.0
  {
    var visible := Known(mine, cpt);
    Add(Spread(live, mine, cpt, Ratio(asst, visible)), Thinking, Thought(asst, visible))
  }

  /** What an answer's visible blocks leave of its tokens. */
  function Thought(asst: real, visible: real): real
    requires asst >= 0.0
  {
    asst - visible * Ratio(asst, visible)
  }

  function UserScale(user: real, known: real): real {
    if known > 0.0 then user / known else 0.0
  }

  /** The rest, over the blocks that are not the answer's. */
  function Rest(live: seq<Entry>, theirs: seq<Block>, user: real, cpt: real): seq<Entry>
    requires cpt > 0.0
  {
    var known := Known(theirs, cpt);
    var spread := Spread(live, theirs, cpt, UserScale(user, known));
    if known == 0.0 && user > 0.0 then Add(spread, Unexplained, user) else spread
  }

  /** A later call's growth: the previous answer up to its output, then the rest. */
  function GrowLive(live: seq<Entry>, pending: seq<Block>, growth: real, lastOut: real, cpt: real): seq<Entry>
    requires cpt > 0.0 && growth >= 0.0 && lastOut >= 0.0
  {
    var asst := Min(growth, lastOut);
    Rest(Answer(live, Mine(pending), asst, cpt), Theirs(pending), growth - asst, cpt)
  }

  function GrowOpen(open: seq<Open>, pending: seq<Block>, growth: real, lastOut: real, cpt: real, from: nat): seq<Open>
    requires cpt > 0.0
  {
    var theirs := Theirs(pending);
    open + Opened(theirs, cpt, UserScale(growth - Min(growth, lastOut), Known(theirs, cpt)), from)
  }

  /** What the calls before leave, once a shrink has been taken off. */
  function ShrunkLive(live: seq<Entry>, lastCtx: real, ctx: real): seq<Entry> {
    if ctx < lastCtx then Scaled(live, Times(Shrink(HistoryOf(live), ctx - lastCtx))) else live
  }

  function ShrunkOpen(open: seq<Open>, live: seq<Entry>, lastCtx: real, ctx: real): seq<Open> {
    if ctx < lastCtx then ScaledOpen(open, Times(Shrink(HistoryOf(live), ctx - lastCtx))) else open
  }

  /** A shrink that asks for more than the history holds. */
  predicate CutsPrefix(live: seq<Entry>, lastCtx: real, ctx: real) {
    ctx < lastCtx && HistoryOf(live) + (ctx - lastCtx) < 0.0
  }

  function NextLive(s: Audit, ctx: real, cpt: real): seq<Entry>
    requires cpt > 0.0 && ctx >= 0.0 && s.lastOut >= 0.0
  {
    if s.first then FirstLive(s.live, s.pending, ctx, cpt)
    else GrowLive(ShrunkLive(s.live, s.lastCtx, ctx), s.pending, Max(0.0, ctx - s.lastCtx), s.lastOut, cpt)
  }

  function NextOpen(s: Audit, ctx: real, cpt: real): seq<Open>
    requires cpt > 0.0
  {
    if s.first then s.open
    else GrowOpen(ShrunkOpen(s.open, s.live, s.lastCtx, ctx), s.pending, Max(0.0, ctx - s.lastCtx), s.lastOut, cpt,
        s.segCalls)
  }

  predicate NextCut(s: Audit, ctx: real) {
    !s.first && (s.cut || CutsPrefix(s.live, s.lastCtx, ctx))
  }

  /** One model call with context `ctx` and output `out`. */
  function Call(s: Audit, ctx: real, out: real, included: bool, cpt: real): Audit
    requires cpt > 0.0 && ctx >= 0.0 && s.lastOut >= 0.0
  {
    Counted(s, NextLive(s, ctx, cpt), NextOpen(s, ctx, cpt), NextCut(s, ctx), ctx, out, included)
  }

  /** The call's context is attributed; what the totals and the next call keep of it. */
  function Counted(s: Audit, live: seq<Entry>, open: seq<Open>, cut: bool, ctx: real, out: real,
                   included: bool): Audit
  {
    var after := s.(live := live, pending := [], open := open, lastCtx := ctx, lastOut := out, first := false,
                    cut := cut);
    if included then
      after.(segCalls := s.segCalls + 1, weight := Weigh(s.weight, live), sumCtx := s.sumCtx + ctx,
             missed := s.missed || cut)
    else after
  }

  /** `for (const [k, v] of live) add(weight, k, v)`. */
  function Weigh(weight: seq<Entry>, live: seq<Entry>): seq<Entry>
    decreases |live|
  {
    if live == [] then weight else Weigh(Add(weight, live[0].cat, live[0].tokens), live[1..])
  }

  /** A compaction boundary. */
  function Boundary(s: Audit): Audit {
    s.(live := [], pending := [], open := [], first := true, segCalls := 0, cut := false)
  }

  // ---- What every call keeps

  /** After a call the categories sum to at least its context, exactly unless a
      shrink of the segment cut below the prefix; no category of open results
      exceeds what is live there. */
  ghost predicate Attributed(s: Audit) {
    && s.lastOut >= 0.0 && s.lastCtx >= 0.0
    && NoPrefix(s.pending)
    && HistoryOf(s.live) >= 0.0
    && (s.first ==> s.live == [] && s.open == [] && !s.cut)
    && (!s.first ==> Total(s.live) >= s.lastCtx && (Total(s.live) == s.lastCtx <==> !s.cut))
    && OpenWithin(s.open, s.live)
    && Total(s.weight) >= s.sumCtx && (Total(s.weight) == s.sumCtx <==> !s.missed)
  }

  ghost predicate OpenWithin(open: seq<Open>, live: seq<Entry>) {
    forall c :: c != FixedPrefix ==> 0.0 <= OpenOf(open, c) <= TokensOf(live, c)
  }

  lemma Divides(a: real, b: real)
    requires b > 0.0
    ensures b * (a / b) == a
  {}

  /** A whole scaled by its ratio is the part, or the whole when it fits. */
  lemma RatioFits(part: real, whole: real)
    requires part >= 0.0 && whole >= 0.0
    ensures 0.0 <= Ratio(part, whole) <= 1.0
    ensures whole * Ratio(part, whole) == Min(part, whole)
  {
    if whole > part {
      Divides(part, whole);
      assert part / whole >= 0.0 && part / whole <= 1.0;
    }
  }

  /** The first call: the prefix and the blocks sum to the context. */
  lemma FirstSums(pending: seq<Block>, ctx: real, cpt: real)
    requires cpt > 0.0 && ctx >= 0.0 && NoPrefix(pending)
    ensures Total(FirstLive([], pending, ctx, cpt)) == ctx && HistoryOf(FirstLive([], pending, ctx, cpt)) >= 0.0
  {
    var known := Known(pending, cpt);
    KnownNonNegative(pending, cpt);
    RatioFits(ctx, known);
    SpreadOnPrefix(pending, cpt, Max(0.0, ctx - known), Ratio(ctx, known), Min(ctx, known));
    Halves(ctx, known);
  }

  lemma Halves(ctx: real, known: real)
    requires ctx >= 0.0 && known >= 0.0
    ensures Max(0.0, ctx - known) + Min(ctx, known) == ctx && Min(ctx, known) >= 0.0
  {}

  /** Blocks spread over nothing but the prefix. */
  lemma SpreadOnPrefix(pending: seq<Block>, cpt: real, prefix: real, scale: real, spent: real)
    requires cpt > 0.0 && NoPrefix(pending) && spent == Known(pending, cpt) * scale
    ensures var live := Spread(Set([], FixedPrefix, prefix), pending, cpt, scale);
      PrefixOf(live) == prefix && HistoryOf(live) == spent
  {
    var m := Set([], FixedPrefix, prefix);
    assert m == [Entry(FixedPrefix, prefix)] && m[1..] == [];
    SpreadTotals(m, pending, cpt, scale);
    SpentIsScaled(pending, cpt, scale);
  }

  /** A shrink takes `-delta` off the history, or all of it when it holds less. */
  lemma ShrinkTakes(hist: real, delta: real)
    requires hist >= 0.0 && delta < 0.0
    ensures Shrink(hist, delta) >= 0.0
    ensures hist * Shrink(hist, delta) == Max(0.0, hist + delta)
  {
    if hist > 0.0 { Divides(hist + delta, hist); }
  }

  lemma {:induction false} PartsAreBlocks(bs: seq<Block>, b: Block)
    requires b in Mine(bs) || b in Theirs(bs)
    ensures b in bs
  {
    if b != bs[0] { PartsAreBlocks(bs[1..], b); }
  }

  lemma PartsKeepNoPrefix(bs: seq<Block>)
    requires NoPrefix(bs)
    ensures NoPrefix(Mine(bs)) && NoPrefix(Theirs(bs))
  {
    forall b | b in Mine(bs) || b in Theirs(bs) ensures b.cat != FixedPrefix { PartsAreBlocks(bs, b); }
  }

  /** A later call's blocks, thinking and unexplained tokens sum to the growth. */
  lemma GrowSums(live: seq<Entry>, pending: seq<Block>, growth: real, lastOut: real, cpt: real)
    requires cpt > 0.0 && growth >= 0.0 && lastOut >= 0.0 && NoPrefix(pending)
    ensures PrefixOf(GrowLive(live, pending, growth, lastOut, cpt)) == PrefixOf(live)
    ensures HistoryOf(GrowLive(live, pending, growth, lastOut, cpt)) == HistoryOf(live) + growth
  {
    PartsKeepNoPrefix(pending);
    var asst := Min(growth, lastOut);
    AnswerSums(live, Mine(pending), asst, cpt);
    RestSums(Answer(live, Mine(pending), asst, cpt), Theirs(pending), growth - asst, cpt);
  }

  lemma AnswerSums(live: seq<Entry>, mine: seq<Block>, asst: real, cpt: real)
    requires cpt > 0.0 && asst >= 0.0 && NoPrefix(mine)
    ensures PrefixOf(Answer(live, mine, asst, cpt)) == PrefixOf(live)
    ensures HistoryOf(Answer(live, mine, asst, cpt)) == HistoryOf(live) + asst
  {
    var visible := Known(mine, cpt);
    SpentFits(mine, asst, cpt);
    SpreadTotals(live, mine, cpt, Ratio(asst, visible));
    AddTotals(Spread(live, mine, cpt, Ratio(asst, visible)), Thinking, Thought(asst, visible));
  }

  /** The answer's blocks and its thinking take all of its tokens. */
  lemma SpentFits(mine: seq<Block>, asst: real, cpt: real)
    requires cpt > 0.0 && asst >= 0.0
    ensures Spent(mine, cpt, Ratio(asst, Known(mine, cpt))) + Thought(asst, Known(mine, cpt)) == asst
    ensures Thought(asst, Known(mine, cpt)) >= 0.0 && Ratio(asst, Known(mine, cpt)) >= 0.0
  {
    var visible := Known(mine, cpt);
    KnownNonNegative(mine, cpt);
    RatioFits(asst, visible);
    SpentIsScaled(mine, cpt, Ratio(asst, visible));
  }

  /** The other blocks take the rest of the growth, when they carry anything. */
  lemma SpentRest(theirs: seq<Block>, user: real, cpt: real)
    requires cpt > 0.0 && user >= 0.0
    ensures Known(theirs, cpt) >= 0.0 && UserScale(user, Known(theirs, cpt)) >= 0.0
    ensures Spent(theirs, cpt, UserScale(user, Known(theirs, cpt))) == if Known(theirs, cpt) > 0.0 then user else 0.0
  {
    var known := Known(theirs, cpt);
    KnownNonNegative(theirs, cpt);
    UserScaleSpends(user, known);
    SpentIsScaled(theirs, cpt, UserScale(user, known));
  }

  lemma UserScaleSpends(user: real, known: real)
    requires user >= 0.0 && known >= 0.0
    ensures UserScale(user, known) >= 0.0
    ensures known * UserScale(user, known) == if known > 0.0 then user else 0.0
  {
    if known > 0.0 { Divides(user, known); }
  }

  lemma RestSums(live: seq<Entry>, theirs: seq<Block>, user: real, cpt: real)
    requires cpt > 0.0 && user >= 0.0 && NoPrefix(theirs)
    ensures PrefixOf(Rest(live, theirs, user, cpt)) == PrefixOf(live)
    ensures HistoryOf(Rest(live, theirs, user, cpt)) == HistoryOf(live) + user
  {
    var known := Known(theirs, cpt);
    SpentRest(theirs, user, cpt);
    SpreadTotals(live, theirs, cpt, UserScale(user, known));
    AddTotals(Spread(live, theirs, cpt, UserScale(user, known)), Unexplained, user);
  }

  /** What a call adds to a category is at least what it opens there. */
  lemma GrowCoversOpened(live: seq<Entry>, open: seq<Open>, pending: seq<Block>, growth: real, lastOut: real,
        cpt: real, from: nat)
    requires cpt > 0.0 && growth >= 0.0 && lastOut >= 0.0 && OpenWithin(open, live)
    ensures OpenWithin(GrowOpen(open, pending, growth, lastOut, cpt, from),
        GrowLive(live, pending, growth, lastOut, cpt))
  {
    var asst := Min(growth, lastOut);
    var user := growth - asst;
    var mine, theirs := Mine(pending), Theirs(pending);
    var answered := Answer(live, mine, asst, cpt);
    forall c | c != FixedPrefix
      ensures 0.0 <= OpenOf(GrowOpen(open, pending, growth, lastOut, cpt, from), c)
                  <= TokensOf(GrowLive(live, pending, growth, lastOut, cpt), c)
    {
      AnswerAdds(live, mine, asst, cpt, c);
      RestAdds(answered, theirs, user, cpt, from, c);
      OpenAppend(open, Opened(theirs, cpt, UserScale(user, Known(theirs, cpt)), from), c);
    }
  }

  lemma AnswerAdds(live: seq<Entry>, mine: seq<Block>, asst: real, cpt: real, c: Category)
    requires cpt > 0.0 && asst >= 0.0
    ensures TokensOf(Answer(live, mine, asst, cpt), c) >= TokensOf(live, c)
  {
    var visible := Known(mine, cpt);
    SpentFits(mine, asst, cpt);
    SpreadCoversOpened(live, mine, cpt, Ratio(asst, visible), 0, c);
    AddTokens(Spread(live, mine, cpt, Ratio(asst, visible)), Thinking, Thought(asst, visible), c);
  }

  lemma RestAdds(live: seq<Entry>, theirs: seq<Block>, user: real, cpt: real, from: nat, c: Category)
    requires cpt > 0.0 && user >= 0.0
    ensures var more := OpenOf(Opened(theirs, cpt, UserScale(user, Known(theirs, cpt)), from), c);
            more >= 0.0 && TokensOf(Rest(live, theirs, user, cpt), c) >= TokensOf(live, c) + more
  {
    var scale := UserScale(user, Known(theirs, cpt));
    SpentRest(theirs, user, cpt);
    SpreadCoversOpened(live, theirs, cpt, scale, from, c);
    AddTokens(Spread(live, theirs, cpt, scale), Unexplained, user, c);
  }

  lemma ShrinkKeeps(s: Audit, ctx: real)
    requires Attributed(s)
    ensures var live := ShrunkLive(s.live, s.lastCtx, ctx);
            && PrefixOf(live) == PrefixOf(s.live)
            && HistoryOf(live) == (if ctx < s.lastCtx then Max(0.0, HistoryOf(s.live) + ctx - s.lastCtx)
                else HistoryOf(s.live))
            && OpenWithin(ShrunkOpen(s.open, s.live, s.lastCtx, ctx), live)
  {
    if ctx < s.lastCtx {
      var hist, delta := HistoryOf(s.live), ctx - s.lastCtx;
      var f := Shrink(hist, delta);
      ShrinkTakes(hist, delta);
      TimesIsLinear(f);
      ScaledPrefix(s.live, Times(f));
      ScaledHistory(s.live, Times(f));
      forall c | c != FixedPrefix
        ensures 0.0 <= OpenOf(ShrunkOpen(s.open, s.live, s.lastCtx, ctx), c)
                    <= TokensOf(ShrunkLive(s.live, s.lastCtx, ctx), c)
      {
        ScaledWithin(s.live, s.open, Times(f), c);
      }
    }
  }

  lemma FirstOpens(pending: seq<Block>, ctx: real, cpt: real)
    requires cpt > 0.0 && ctx >= 0.0
    ensures OpenWithin([], FirstLive([], pending, ctx, cpt))
  {
    var known := Known(pending, cpt);
    KnownNonNegative(pending, cpt);
    RatioFits(ctx, known);
    var m := Set([], FixedPrefix, Max(0.0, ctx - known));
    forall c | c != FixedPrefix ensures 0.0 <= TokensOf(FirstLive([], pending, ctx, cpt), c) {
      SpreadCoversOpened(m, pending, cpt, Ratio(ctx, known), 0, c);
      assert m[1..] == [];
    }
  }

  lemma {:induction false} WeighTotals(weight: seq<Entry>, live: seq<Entry>)
    ensures Total(Weigh(weight, live)) == Total(weight) + Total(live)
    decreases |live|
  {
    if live != [] {
      AddTotals(weight, live[0].cat, live[0].tokens);
      WeighTotals(Add(weight, live[0].cat, live[0].tokens), live[1..]);
    }
  }

  /** The categories after a call sum to the context, plus what earlier shrinks
      cut into the prefix; a shrink adds to that exactly when it asks for more
      than the history holds. */
  lemma CallSums(s: Audit, ctx: real, cpt: real)
    requires Attributed(s) && cpt > 0.0 && ctx >= 0.0
    ensures var live := NextLive(s, ctx, cpt);
            && HistoryOf(live) >= 0.0
            && Total(live) >= ctx && (Total(live) == ctx <==> !NextCut(s, ctx))
  {
    if s.first {
      FirstSums(s.pending, ctx, cpt);
    } else {
      ShrinkKeeps(s, ctx);
      GrowSums(ShrunkLive(s.live, s.lastCtx, ctx), s.pending, Max(0.0, ctx - s.lastCtx), s.lastOut, cpt);
    }
  }

  lemma CallOpens(s: Audit, ctx: real, cpt: real)
    requires Attributed(s) && cpt > 0.0 && ctx >= 0.0
    ensures OpenWithin(NextOpen(s, ctx, cpt), NextLive(s, ctx, cpt))
  {
    if s.first {
      FirstOpens(s.pending, ctx, cpt);
    } else {
      ShrinkKeeps(s, ctx);
      GrowCoversOpened(ShrunkLive(s.live, s.lastCtx, ctx), ShrunkOpen(s.open, s.live, s.lastCtx, ctx), s.pending,
                       Max(0.0, ctx - s.lastCtx), s.lastOut, cpt, s.segCalls);
    }
  }

  lemma CallKeeps(s: Audit, ctx: real, out: real, included: bool, cpt: real)
    requires Attributed(s) && cpt > 0.0 && ctx >= 0.0 && out >= 0.0
    ensures Attributed(Call(s, ctx, out, included, cpt))
  {
    CallSums(s, ctx, cpt);
    CallOpens(s, ctx, cpt);
    WeighTotals(s.weight, NextLive(s, ctx, cpt));
  }

  // ---- Whole transcripts

  datatype Line =
    | Pend(block: Block)
    | ModelCall(ctx: real, out: real, included: bool)
    | CompactBoundary

  ghost predicate Sane(line: Line) {
    match line
    case Pend(block) => block.cat != FixedPrefix
    case ModelCall(ctx, out, _) => ctx >= 0.0 && out >= 0.0
    case CompactBoundary => true
  }

  ghost function Read(s: Audit, line: Line, cpt: real): Audit
    requires cpt > 0.0 && Sane(line) && s.lastOut >= 0.0
  {
    match line
    case Pend(block) => s.(pending := s.pending + [block])
    case ModelCall(ctx, out, included) => Call(s, ctx, out, included, cpt)
    case CompactBoundary => Boundary(s)
  }

  ghost function ReadAll(s: Audit, lines: seq<Line>, cpt: real): Audit
    requires cpt > 0.0 && s.lastOut >= 0.0 && forall line :: line in lines ==> Sane(line)
    decreases |lines|
  {
    if lines == [] then s else ReadAll(Read(s, lines[0], cpt), lines[1..], cpt)
  }

  lemma {:induction false} ReadKeeps(s: Audit, lines: seq<Line>, cpt: real)
    requires Attributed(s) && cpt > 0.0 && forall line :: line in lines ==> Sane(line)
    ensures Attributed(ReadAll(s, lines, cpt))
    decreases |lines|
  {
    if lines != [] {
      var line := lines[0];
      assert Sane(line);
      if line.ModelCall? { CallKeeps(s, line.ctx, line.out, line.included, cpt); }
      assert Attributed(Read(s, line, cpt));
      ReadKeeps(Read(s, line, cpt), lines[1..], cpt);
    }
  }

  /** In every transcript, after every line: the categories of the open segment
      sum to the context of its last call, and the report's weights to the sum
      of the contexts it recorded, each exactly unless a shrink of the segment,
      or of a recorded one, cut below the fixed prefix, and above it otherwise. */
  lemma ContextIsAttributed(lines: seq<Line>, cpt: real)
    requires cpt > 0.0 && forall line :: line in lines ==> Sane(line)
    ensures var s := ReadAll(START, lines, cpt);
            && (!s.first ==> Total(s.live) >= s.lastCtx && (Total(s.live) == s.lastCtx <==> !s.cut))
            && Total(s.weight) >= s.sumCtx && (Total(s.weight) == s.sumCtx <==> !s.missed)
            && forall c :: c != FixedPrefix ==> OpenOf(s.open, c) <= TokensOf(s.live, c)
  {
    ReadKeeps(START, lines, cpt);
  }

  // ---- The audit in place

  /** `auditFile`'s state, updated line by line. */
  class Auditor {
    const cpt: real
    var live: seq<Entry>
    var pending: seq<Block>
    var open: seq<Open>
    var lastCtx: real
    var lastOut: real
    var first: bool
    var segCalls: nat
    var weight: seq<Entry>
    var sumCtx: real
    ghost var cut: bool
    ghost var missed: bool

    constructor (cpt: real)
      requires cpt > 0.0
      ensures this.cpt == cpt && State() == START
    {
      this.cpt := cpt;
      live, pending, open, lastCtx, lastOut, first, segCalls, weight, sumCtx := [], [], [], 0.0, 0.0, true, 0, [], 0.0;
      cut, missed := false, false;
    }

    ghost function State(): Audit
      reads this
    {
      Audit(live, pending, open, lastCtx, lastOut, first, segCalls, weight, sumCtx, cut, missed)
    }

    /** `for (const b of bs) add(live, b.cat, est(b) * scale)`. */
    method AddShares(bs: seq<Block>, scale: real)
      requires cpt > 0.0
      modifies `live
      ensures live == Spread(old(live), bs, cpt, scale)
    {
      for k := 0 to |bs|
        invariant Spread(live, bs[k..], cpt, scale) == Spread(old(live), bs, cpt, scale)
      {
        assert bs[k..][0] == bs[k] && bs[k..][1..] == bs[k + 1..];
        live := Add(live, bs[k].cat, Share(bs[k], cpt, scale));
      }
    }

    /** The results among `theirs`, opened. */
    method OpenResults(theirs: seq<Block>, scale: real)
      requires cpt > 0.0
      modifies `open
      ensures open == old(open) + Opened(theirs, cpt, scale, segCalls)
    {
      for k := 0 to |theirs|
        invariant open + Opened(theirs[k..], cpt, scale, segCalls) == old(open) + Opened(theirs, cpt, scale, segCalls)
      {
        var b := theirs[k];
        assert theirs[k..][0] == b && theirs[k..][1..] == theirs[k + 1..];
        if b.tool {
          var o := Open(b.cat, Share(b, cpt, scale), segCalls);
          assert open + ([o] + Opened(theirs[k + 1..], cpt, scale, segCalls))
              == (open + [o]) + Opened(theirs[k + 1..], cpt, scale, segCalls);
          open := open + [o];
        } else {
          assert [] + Opened(theirs[k + 1..], cpt, scale, segCalls) == Opened(theirs[k + 1..], cpt, scale, segCalls);
        }
      }
    }

    /** The first call of a segment. */
    method FirstCall(ctx: real)
      requires cpt > 0.0 && ctx >= 0.0
      modifies `live
      ensures live == FirstLive(old(live), pending, ctx, cpt)
    {
      var known := Known(pending, cpt);
      live := Set(live, FixedPrefix, Max(0.0, ctx - known));
      AddShares(pending, Ratio(ctx, known));
    }

    /** A later call of a segment. */
    method LaterCall(ctx: real)
      requires cpt > 0.0 && lastOut >= 0.0
      modifies `live, `open
      ensures live == GrowLive(ShrunkLive(old(live), lastCtx, ctx), pending, Max(0.0, ctx - lastCtx), lastOut, cpt)
      ensures open == GrowOpen(ShrunkOpen(old(open), old(live), lastCtx, ctx), pending, Max(0.0, ctx - lastCtx),
          lastOut, cpt, segCalls)
    {
      var delta := ctx - lastCtx;
      if delta < 0.0 {
        var f := Shrink(HistoryOf(live), delta);
        live := Scaled(live, Times(f));
        open := ScaledOpen(open, Times(f));
      }
      assert live == ShrunkLive(old(live), lastCtx, ctx) && open == ShrunkOpen(old(open), old(live), lastCtx, ctx);
      var growth := Max(0.0, delta);
      var asst := Min(growth, lastOut);
      var user := growth - asst;
      var mine, theirs := Mine(pending), Theirs(pending);
      var visible, known := Known(mine, cpt), Known(theirs, cpt);
      AddShares(mine, Ratio(asst, visible));
      live := Add(live, Thinking, Thought(asst, visible));
      AddShares(theirs, UserScale(user, known));
      OpenResults(theirs, UserScale(user, known));
      if known == 0.0 && user > 0.0 { live := Add(live, Unexplained, user); }
    }

    method Record(ctx: real)
      modifies `weight, `sumCtx, `segCalls
      ensures weight == Weigh(old(weight), live) && sumCtx == old(sumCtx) + ctx && segCalls == old(segCalls) + 1
    {
      for k := 0 to |live|
        modifies `weight
        invariant Weigh(weight, live[k..]) == Weigh(old(weight), live)
      {
        assert live[k..][0] == live[k] && live[k..][1..] == live[k + 1..];
        weight := Add(weight, live[k].cat, live[k].tokens);
      }
      segCalls := segCalls + 1;
      sumCtx := sumCtx + ctx;
    }

    method Attribute(ctx: real)
      requires cpt > 0.0 && ctx >= 0.0 && lastOut >= 0.0
      modifies `live, `open, `first
      ensures live == NextLive(old(State()), ctx, cpt) && open == NextOpen(old(State()), ctx, cpt) && !first
    {
      if first {
        FirstCall(ctx);
        first := false;
      } else {
        LaterCall(ctx);
      }
    }

    method Count(ctx: real, out: real, included: bool, ghost cutting: bool)
      requires !first
      modifies this
      ensures State() == Counted(old(State()), old(live), old(open), cutting, ctx, out, included)
    {
      if included {
        Record(ctx);
        missed := missed || cutting;
      }
      cut := cutting;
      lastCtx, lastOut, pending := ctx, out, [];
    }

    method OnCall(ctx: real, out: real, included: bool)
      requires cpt > 0.0 && ctx >= 0.0 && lastOut >= 0.0
      modifies this
      ensures State() == Call(old(State()), ctx, out, included, cpt)
    {
      ghost var cutting := NextCut(State(), ctx);
      Attribute(ctx);
      Count(ctx, out, included, cutting);
    }

    method OnBlock(block: Block)
      modifies `pending
      ensures State() == old(State()).(pending := old(pending) + [block])
    {
      pending := pending + [block];
    }

    method OnBoundary()
      modifies this
      ensures State() == Boundary(old(State()))
    {
      open, segCalls, live, first := [], 0, [], true;
      pending, cut := [], false;
    }
  }
}
