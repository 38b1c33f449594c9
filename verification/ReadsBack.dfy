/** Exactly which programs the tokenizer of `scripts/architecture/nested-tick.ts` reads back: those in
    which each `/` is what `regexAllowed` guesses it to be, and no name or number is longer than the
    256 characters it looks at. */
module ReadsBack {
  import opened Lexer
  import opened LexerRoundTrip

  // ---- Programs by their spelling alone

  predicate NoComment(after: string) {
    after == "" || (after[0] != '/' && after[0] != '*')
  }

  /** Nothing runs into the text behind it, whatever the tokenizer makes of it. */
  ghost predicate Shape(a: Alphabet, item: Item, after: string) {
    match item
    case Blank(c) => c == '\n' || a.space(c)
    case LineComment(text) => OneLine(text) && (after == "" || after[0] == '\n')
    case BlockComment(text) => NoEnd(text)
    case Identifier(text) =>
      && text != "" && WordStart(a, text[0]) && !Digit(text[0]) && AllWord(a, text)
      && (after == "" || !WordPart(a, after[0]))
    case Number(text) =>
      text != "" && Digit(text[0]) && AllNumber(text) && (after == "" || !NumberPart(after[0]))
    case Quoted(quote, text) => (quote == '"' || quote == '\'') && StringBody(text, quote)
    case Regex(body, flags) =>
      && body != "" && NoComment(body) && RegexBody(body, false)
      && AllLetters(flags) && (after == "" || !AsciiLetter(after[0]))
    case Sign(c) =>
      && c != '\n' && !a.space(c) && !WordStart(a, c) && !Digit(c) && (Special(c) ==> c == '/')
      && (c == '/' ==> NoComment(after))
    case Block(items) => ShapeAll(a, items, ['}'] + after)
    case Template(text, holes) => TemplateBody(text) && ShapeHoles(a, holes, after)
  }

  ghost predicate ShapeAll(a: Alphabet, items: Items, after: string) {
    match items
    case Nil => true
    case Cons(first, rest) => Shape(a, first, SpellAll(rest) + after) && ShapeAll(a, rest, after)
  }

  ghost predicate ShapeHoles(a: Alphabet, holes: Holes, after: string) {
    match holes
    case Done => true
    case Sub(items, text, more) =>
      && ShapeAll(a, items, (['}'] + (text + SpellHoles(more))) + after)
      && TemplateBody(text) && ShapeHoles(a, more, after)
  }

  // ---- What the tokenizer has to guess right

  /** Each `/` is what the token before it makes the tokenizer take it for, and no name or number is cut. */
  predicate Guessed(item: Item, out: seq<Token>, line: nat) {
    match item
    case Identifier(text) => |text| <= 256
    case Number(text) => |text| <= 256
    case Regex(_, _) => RegexAllowed(out)
    case Sign(c) => c == '/' ==> !RegexAllowed(out)
    case Block(items) => GuessedAll(items, out + [Token(Punct, ['{'], line)], line)
    case Template(text, holes) => GuessedHoles(holes, out, line + Newlines(text))
    case _ => true
  }

  predicate GuessedAll(items: Items, out: seq<Token>, line: nat) {
    match items
    case Nil => true
    case Cons(first, rest) =>
      Guessed(first, out, line) && GuessedAll(rest, out + TokensOf(first, line), line + Newlines(Spell(first)))
  }

  predicate GuessedHoles(holes: Holes, out: seq<Token>, line: nat) {
    match holes
    case Done => true
    case Sub(items, text, more) =>
      var end := line + Newlines(SpellAll(items));
      var begun := out + [Token(Punct, "(", line)];
      && GuessedAll(items, begun, line)
      && GuessedHoles(more, begun + TokensOfAll(items, line) + [Token(Punct, ")", end)], end + Newlines(text))
  }

  lemma {:induction false} FitsIffGuessed(a: Alphabet, item: Item, out: seq<Token>, line: nat, after: string)
    requires Shape(a, item, after)
    ensures Fits(a, item, out, line, after) <==> Guessed(item, out, line)
  {
    match item {
      case Block(items) => AllFitIffGuessed(a, items, out + [Token(Punct, ['{'], line)], line, ['}'] + after);
      case Template(text, holes) => HolesFitIffGuessed(a, holes, out, line + Newlines(text), after);
      case _ =>
    }
  }

  lemma {:induction false} AllFitIffGuessed(a: Alphabet, items: Items, out: seq<Token>, line: nat, after: string)
    requires ShapeAll(a, items, after)
    ensures FitsAll(a, items, out, line, after) <==> GuessedAll(items, out, line)
  {
    match items {
      case Nil =>
      case Cons(first, rest) =>
        FitsIffGuessed(a, first, out, line, SpellAll(rest) + after);
        AllFitIffGuessed(a, rest, out + TokensOf(first, line), line + Newlines(Spell(first)), after);
    }
  }

  lemma {:induction false} HolesFitIffGuessed(a: Alphabet, holes: Holes, out: seq<Token>, line: nat, after: string)
    requires ShapeHoles(a, holes, after)
    ensures FitsHoles(a, holes, out, line, after) <==> GuessedHoles(holes, out, line)
  {
    match holes {
      case Done =>
      case Sub(items, text, more) =>
        var end := line + Newlines(SpellAll(items));
        var begun := out + [Token(Punct, "(", line)];
        AllFitIffGuessed(a, items, begun, line, (['}'] + (text + SpellHoles(more))) + after);
        HolesFitIffGuessed(a, more, begun + TokensOfAll(items, line) + [Token(Punct, ")", end)],
                           end + Newlines(text), after);
    }
  }

  // ---- Tokens are only ever added

  lemma TemplateGrows(s: State, source: string)
    ensures s.out <= TemplateText(s, source).out
  {
  }

  lemma StepGrows(a: Alphabet, s: State, source: string)
    requires s.at < |source|
    ensures s.out <= Step(a, s, source).out
  {
    TemplateGrows(Advance(s), source);
    if Returns(s) {
      TemplateGrows(Emit(Advance(CloseHole(s)), Punct, ")"), source);
    }
  }

  lemma {:induction false} RunGrows(a: Alphabet, s: State, source: string)
    ensures s.out <= Run(a, s, source).out
    decreases |source| - s.at
  {
    if s.at < |source| {
      StepMoves(a, s, source);
      StepGrows(a, s, source);
      RunGrows(a, Step(a, s, source), source);
    }
  }

  // ---- A leaf that does not fit gives another token

  lemma StepSlash(a: Alphabet, s: State, source: string)
    requires Unicode(a) && s.at < |source| && source[s.at] == '/' && NoComment(source[s.at + 1..])
    requires RegexAllowed(s.out)
    ensures Step(a, s, source) == LexRegex(s, source)
  {
    assert Special('/');
    if s.at + 1 < |source| {
      assert source[s.at + 1..][0] == source[s.at + 1];
    }
  }

  lemma StepDivides(a: Alphabet, s: State, source: string)
    requires Unicode(a) && s.at < |source| && source[s.at] == '/' && NoComment(source[s.at + 1..])
    requires !RegexAllowed(s.out)
    ensures Step(a, s, source) == Advance(Emit(s, Punct, ['/']))
  {
    assert Special('/');
    if s.at + 1 < |source| {
      assert source[s.at + 1..][0] == source[s.at + 1];
    }
  }

  /** The tokens do not follow these ones. */
  predicate Differs(out: seq<Token>, tokens: seq<Token>, end: seq<Token>) {
    !(out + tokens <= end)
  }

  lemma DiffersMore(out: seq<Token>, first: seq<Token>, rest: seq<Token>, end: seq<Token>)
    requires Differs(out, first, end) || Differs(out + first, rest, end)
    ensures Differs(out, first + rest, end)
  {
    assert out + (first + rest) == (out + first) + rest;
  }

  lemma DiffersInside(out: seq<Token>, opener: seq<Token>, tokens: seq<Token>, closer: seq<Token>, rest: seq<Token>,
                      end: seq<Token>)
    requires Differs(out + opener, tokens, end) || Differs(out + opener + tokens + closer, rest, end)
    ensures Differs(out, opener + (tokens + (closer + rest)), end)
  {
    if Differs(out + opener + tokens + closer, rest, end) {
      DiffersMore(out + opener + tokens, closer, rest, end);
    }
    DiffersMore(out + opener, tokens, closer + rest, end);
    DiffersMore(out, opener, tokens + (closer + rest), end);
  }

  lemma OtherToken(a: Alphabet, s: State, t: State, source: string, token: Token, other: Token)
    requires s.at < |source| && t == Step(a, s, source) && t.out == s.out + [other] && other != token
    ensures Differs(s.out, [token], Run(a, s, source).out)
  {
    StepMoves(a, s, source);
    RunGrows(a, t, source);
    assert Run(a, s, source).out[|s.out|] == t.out[|s.out|] == other;
    assert (s.out + [token])[|s.out|] == token;
  }

  lemma {:induction false} LongWord(a: Alphabet, source: string, j: nat, limit: nat)
    requires j <= limit <= |source| && forall k :: j <= k < limit ==> WordPart(a, source[k])
    ensures WordEnd(a, source, j, limit) == limit
    decreases limit - j
  {
    if j < limit { LongWord(a, source, j + 1, limit); }
  }

  lemma {:induction false} LongNumber(source: string, j: nat, limit: nat)
    requires j <= limit <= |source| && forall k :: j <= k < limit ==> NumberPart(source[k])
    ensures NumberEnd(source, j, limit) == limit
    decreases limit - j
  {
    if j < limit { LongNumber(source, j + 1, limit); }
  }

  /** A name longer than the tokenizer looks ahead is cut. */
  lemma NameIsCut(a: Alphabet, s: State, source: string, text: string, after: string)
    requires Unicode(a) && Ahead(source, s.at, text, after)
    requires |text| > 256 && WordStart(a, text[0]) && !Digit(text[0]) && AllWord(a, text)
    ensures s.at < |source| && Differs(s.out, [Token(Name, text, s.line)], Run(a, s, source).out)
  {
    AheadIs(source, s.at, text, after);
    assert source[s.at] == text[0];
    forall k | s.at + 1 <= k < s.at + 256 ensures WordPart(a, source[k]) {
      assert source[s.at + (k - s.at)] == text[k - s.at] && text[k - s.at] in text;
    }
    LongWord(a, source, s.at + 1, s.at + 256);
    assert text[0] in text && text[0] != '\n';
    StepIsWord(a, s, source);
    var cut := source[s.at..s.at + 256];
    OtherToken(a, s, Step(a, s, source), source, Token(Name, text, s.line), Token(Name, cut, s.line));
  }

  lemma NumberIsCut(a: Alphabet, s: State, source: string, text: string, after: string)
    requires Unicode(a) && Ahead(source, s.at, text, after)
    requires |text| > 256 && Digit(text[0]) && AllNumber(text)
    ensures s.at < |source| && Differs(s.out, [Token(Value, text, s.line)], Run(a, s, source).out)
  {
    AheadIs(source, s.at, text, after);
    assert source[s.at] == text[0];
    forall k | s.at + 1 <= k < s.at + 256 ensures NumberPart(source[k]) {
      assert source[s.at + (k - s.at)] == text[k - s.at] && text[k - s.at] in text;
    }
    LongNumber(source, s.at + 1, s.at + 256);
    assert !WordStart(a, text[0]);
    StepIsWord(a, s, source);
    var cut := source[s.at..s.at + 256];
    OtherToken(a, s, Step(a, s, source), source, Token(Value, text, s.line), Token(Value, cut, s.line));
  }

  lemma SlashAhead(source: string, at: nat, all: string, rest: string, after: string)
    requires Ahead(source, at, all, after) && all == ['/'] + rest && NoComment(rest + after)
    ensures at < |source| && source[at] == '/' && NoComment(source[at + 1..])
  {
    Here(source, at, all, after);
    assert source[at + 1..] == rest + after;
  }

  lemma DivisionIsLost(a: Alphabet, s: State, source: string, after: string)
    requires Unicode(a) && Ahead(source, s.at, ['/'], after) && NoComment(after) && RegexAllowed(s.out)
    ensures s.at < |source| && Differs(s.out, [Token(Punct, ['/'], s.line)], Run(a, s, source).out)
  {
    assert [] + after == after;
    SlashAhead(source, s.at, ['/'], [], after);
    StepSlash(a, s, source);
    OtherToken(a, s, LexRegex(s, source), source, Token(Punct, ['/'], s.line), Token(Value, "/regex/", s.line));
  }

  lemma RegexIsLost(a: Alphabet, s: State, source: string, body: string, flags: string, after: string)
    requires Unicode(a) && Ahead(source, s.at, Spell(Regex(body, flags)), after)
    requires body != "" && NoComment(body) && !RegexAllowed(s.out)
    ensures s.at < |source| && Differs(s.out, [Token(Value, "/regex/", s.line)], Run(a, s, source).out)
  {
    var rest := body + "/" + flags;
    assert Spell(Regex(body, flags)) == ['/'] + rest;
    assert (rest + after)[0] == body[0];
    SlashAhead(source, s.at, ['/'] + rest, rest, after);
    StepDivides(a, s, source);
    OtherToken(a, s, Advance(Emit(s, Punct, ['/'])), source,
               Token(Value, "/regex/", s.line), Token(Punct, ['/'], s.line));
  }

  lemma LeafIsLost(a: Alphabet, item: Item, s: State, source: string, after: string)
    requires Unicode(a) && Ahead(source, s.at, Spell(item), after) && !item.Block? && !item.Template?
    requires Shape(a, item, after) && !Fits(a, item, s.out, s.line, after)
    ensures Differs(s.out, TokensOf(item, s.line), Run(a, s, source).out)
  {
    match item {
      case Identifier(text) => NameIsCut(a, s, source, text, after);
      case Number(text) => NumberIsCut(a, s, source, text, after);
      case Regex(body, flags) => RegexIsLost(a, s, source, body, flags, after);
      case Sign(c) => DivisionIsLost(a, s, source, after);
      case _ =>
    }
  }

  // ---- Anywhere in a program

  lemma {:induction false} LosesAll(r: Reader, a: Alphabet, items: Items, s: State, source: string, after: string)
    requires Reads(r, a, source) && Unicode(a) && Nesting(s) && r.ahead(s.at, SpellAll(items), after)
    requires ShapeAll(a, items, after) && !FitsAll(a, items, s.out, s.line, after)
    ensures Differs(s.out, TokensOfAll(items, s.line), Final(r, source, s).out)
    decreases items, 0
  {
    var text, tokens, tail := Spell(items.first), TokensOf(items.first, s.line), SpellAll(items.rest);
    var t := Past(s, text, tokens);
    Then(r, a, source, s.at, text, tail, after);
    if Fits(a, items.first, s.out, s.line, tail + after) {
      Read(r, a, items.first, s, source, tail + after);
      LosesAll(r, a, items.rest, t, source, after);
    } else {
      Loses(r, a, items.first, s, source, tail + after);
    }
    DiffersMore(s.out, tokens, TokensOfAll(items.rest, t.line), Final(r, source, s).out);
  }

  lemma {:induction false} Loses(r: Reader, a: Alphabet, item: Item, s: State, source: string, after: string)
    requires Reads(r, a, source) && Unicode(a) && Nesting(s) && r.ahead(s.at, Spell(item), after)
    requires Shape(a, item, after) && !Fits(a, item, s.out, s.line, after)
    ensures Differs(s.out, TokensOf(item, s.line), Final(r, source, s).out)
    decreases item, 0
  {
    if item.Block? {
      LosesBlock(r, a, item.items, s, source, after);
    } else if item.Template? {
      LosesTemplate(r, a, item.text, item.holes, s, source, after);
    } else {
      assert Ahead(source, s.at, Spell(item), after);
      LeafIsLost(a, item, s, source, after);
      FinalIsRun(r, a, s, source);
    }
  }

  lemma {:induction false} LosesBlock(r: Reader, a: Alphabet, items: Items, s: State, source: string, after: string)
    requires Reads(r, a, source) && Unicode(a) && Nesting(s)
    requires r.ahead(s.at, ['{'] + (SpellAll(items) + ['}']), after) && ShapeAll(a, items, ['}'] + after)
    requires !FitsAll(a, items, s.out + [Token(Punct, ['{'], s.line)], s.line, ['}'] + after)
    ensures Differs(s.out, TokensOf(Block(items), s.line), Final(r, source, s).out)
    decreases items, 1
  {
    var inner, tokens := SpellAll(items), TokensOfAll(items, s.line);
    var opener, closer := [Token(Punct, ['{'], s.line)], [Token(Punct, ['}'], s.line + Newlines(inner))];
    Then(r, a, source, s.at, ['{'], inner + ['}'], after);
    TurnOpen(r, a, s, source, (inner + ['}']) + after);
    OneChar('{');
    var t := Past(s, ['{'], opener).(depth := s.depth + 1);
    Then(r, a, source, t.at, inner, ['}'], after);
    LosesAll(r, a, items, t, source, ['}'] + after);
    assert closer + [] == closer;
    DiffersInside(s.out, opener, tokens, closer, [], Final(r, source, s).out);
  }

  lemma {:induction false} LosesTemplate(r: Reader, a: Alphabet, text: string, holes: Holes, s: State, source: string,
                                         after: string)
    requires Reads(r, a, source) && Unicode(a) && Nesting(s)
    requires r.ahead(s.at, ['`'] + (text + SpellHoles(holes)), after)
    requires TemplateBody(text) && ShapeHoles(a, holes, after)
    requires !FitsHoles(a, holes, s.out, s.line + Newlines(text), after)
    ensures Differs(s.out, TokensOfHoles(holes, s.line + Newlines(text)), Final(r, source, s).out)
    decreases holes, 3
  {
    var rest := text + SpellHoles(holes);
    Then(r, a, source, s.at, ['`'], rest, after);
    TurnTemplate(r, a, s, source, rest + after);
    OneChar('`');
    PastNothing(s, ['`']);
    LosesHoles(r, a, text, holes, Past(s, ['`'], []), source, after);
  }

  lemma {:induction false} LosesHoles(r: Reader, a: Alphabet, text: string, holes: Holes, s: State, source: string,
                                      after: string)
    requires Reads(r, a, source) && Unicode(a) && Nesting(s)
    requires r.ahead(s.at, text + SpellHoles(holes), after)
    requires TemplateBody(text) && ShapeHoles(a, holes, after)
    requires !FitsHoles(a, holes, s.out, s.line + Newlines(text), after)
    ensures Differs(s.out, TokensOfHoles(holes, s.line + Newlines(text)), Final(r, source, r.scan(s)).out)
    decreases holes, 2
  {
    var q := Past(s, text, []);
    PastNothing(s, text);
    Then(r, a, source, s.at, text, SpellHoles(holes), after);
    LosesSub(r, a, text, holes, s, q, source, after);
  }

  lemma {:induction false} LosesSub(r: Reader, a: Alphabet, text: string, holes: Holes, s: State, q: State,
                                    source: string, after: string)
    requires Reads(r, a, source) && holes.Sub? && Unicode(a) && Nesting(s)
    requires r.ahead(s.at, text, SpellHoles(holes) + after) && r.ahead(q.at, SpellHoles(holes), after)
    requires TemplateBody(text) && q == Past(s, text, []) && q.out == s.out
    requires ShapeHoles(a, holes, after) && !FitsHoles(a, holes, q.out, q.line, after)
    ensures Differs(q.out, TokensOfHoles(holes, q.line), Final(r, source, r.scan(s)).out)
    decreases holes, 1
  {
    var inner, tail := SpellAll(holes.items), holes.text + SpellHoles(holes.more);
    var tokens, end := TokensOfAll(holes.items, q.line), q.line + Newlines(inner);
    var opener, closer := [Token(Punct, "(", q.line)], [Token(Punct, ")", end)];
    var others, final := TokensOfHoles(holes.more, end + Newlines(holes.text)), Final(r, source, r.scan(s)).out;
    var p := EnterHole(r, a, text, inner + (['}'] + tail), s, q, source, after);
    Then(r, a, source, p.at, inner, ['}'] + tail, after);
    var behind := (['}'] + tail) + after;
    if FitsAll(a, holes.items, p.out, p.line, behind) {
      LosesAfter(r, a, holes, p, source, after);
    } else {
      LosesAll(r, a, holes.items, OpenHole(p), source, behind);
    }
    DiffersInside(q.out, opener, tokens, closer, others, final);
  }

  /** The rest of a template, behind a substitution that reads back; `p` is the state before its items. */
  lemma {:induction false} LosesAfter(r: Reader, a: Alphabet, holes: Holes, p: State, source: string, after: string)
    requires Reads(r, a, source) && holes.Sub? && Unicode(a) && Nesting(p) && Nesting(OpenHole(p))
    requires ShapeHoles(a, holes, after)
    requires r.ahead(p.at, SpellAll(holes.items), (['}'] + (holes.text + SpellHoles(holes.more))) + after)
    requires r.ahead(p.at + |SpellAll(holes.items)|, ['}'] + (holes.text + SpellHoles(holes.more)), after)
    requires FitsAll(a, holes.items, p.out, p.line, (['}'] + (holes.text + SpellHoles(holes.more))) + after)
    requires var end := p.line + Newlines(SpellAll(holes.items));
      !FitsHoles(a, holes.more, p.out + TokensOfAll(holes.items, p.line) + [Token(Punct, ")", end)],
                 end + Newlines(holes.text), after)
    ensures var end := p.line + Newlines(SpellAll(holes.items));
      Differs(p.out + TokensOfAll(holes.items, p.line) + [Token(Punct, ")", end)],
              TokensOfHoles(holes.more, end + Newlines(holes.text)), Final(r, source, OpenHole(p)).out)
    decreases holes, 0
  {
    var inner, tail := SpellAll(holes.items), holes.text + SpellHoles(holes.more);
    ReadAll(r, a, holes.items, OpenHole(p), source, (['}'] + tail) + after);
    Then(r, a, source, p.at + |inner|, ['}'], tail, after);
    var v := LeaveHole(r, a, p, inner, TokensOfAll(holes.items, p.line), source, tail + after);
    LosesHoles(r, a, holes.text, holes.more, v, source, after);
  }

  /** A program whose parts do not run into each other reads back exactly when every `/` in it, however deep in
      blocks and templates, is what the tokenizer guesses, and no name or number is longer than it looks ahead. */
  lemma ReadsBackIff(a: Alphabet, items: Items)
    requires Unicode(a) && ShapeAll(a, items, "")
    ensures Tokens(a, SpellAll(items)) == TokensOfAll(items, 1) <==> GuessedAll(items, [], 1)
  {
    AllFitIffGuessed(a, items, [], 1, "");
    if FitsAll(a, items, [], 1, "") {
      RoundTrip(a, items);
    } else {
      var source := SpellAll(items);
      var r := ReaderOf(a, source);
      assert source[0..] == source + "";
      assert Ahead(source, 0, source, "");
      LosesAll(r, a, items, START, source, "");
      FinalIsRun(r, a, START, source);
      assert [] + TokensOfAll(items, 1) == TokensOfAll(items, 1);
    }
  }
}
