/** What a `/` that the tokenizer takes for a regular expression hides from the nested-tick gate
    (`regexAllowed` and `nestedTickSites` in `scripts/architecture/nested-tick.ts`). */
module SlashGuess {
  import opened Lexer
  import opened LexerRoundTrip
  import opened ReadsBack
  import opened NestedTick
  import opened PlainSource

  // ---- A place in a program, however many blocks deep

  /** What stands before the place, the blocks open there, and what stands behind each. */
  datatype Open = Flat(before: Items) | Inside(before: Items, inner: Open, after: Items)

  function OpenText(o: Open): string {
    match o
    case Flat(before) => SpellAll(before)
    case Inside(before, inner, _) => SpellAll(before) + (['{'] + OpenText(inner))
  }

  function CloseText(o: Open): string {
    match o
    case Flat(_) => ""
    case Inside(_, inner, after) => CloseText(inner) + (['}'] + SpellAll(after))
  }

  /** The program with these items at the place. */
  function Fill(o: Open, items: Items): Items {
    match o
    case Flat(before) => Append(before, items)
    case Inside(before, inner, after) => Append(before, Cons(Block(Fill(inner, items)), after))
  }

  function OpenTokens(o: Open, line: nat): seq<Token> {
    match o
    case Flat(before) => TokensOfAll(before, line)
    case Inside(before, inner, _) =>
      var at := line + Newlines(SpellAll(before));
      TokensOfAll(before, line) + ([Token(Punct, ['{'], at)] + OpenTokens(inner, at))
  }

  /** What stands before the place reads back, with this text behind it. */
  ghost predicate OpenFits(a: Alphabet, o: Open, out: seq<Token>, line: nat, rest: string) {
    match o
    case Flat(before) => FitsAll(a, before, out, line, rest)
    case Inside(before, inner, _) =>
      var at := line + Newlines(SpellAll(before));
      && FitsAll(a, before, out, line, (['{'] + OpenText(inner)) + rest)
      && OpenFits(a, inner, out + TokensOfAll(before, line) + [Token(Punct, ['{'], at)], at, rest)
  }

  lemma {:induction false} RunsInto(r: Reader, a: Alphabet, o: Open, s: State, source: string, rest: string)
    returns (t: State)
    requires Reads(r, a, source) && Unicode(a) && Nesting(s) && r.ahead(s.at, OpenText(o), rest)
    requires OpenFits(a, o, s.out, s.line, rest)
    ensures Final(r, source, s) == Final(r, source, t) && Nesting(t)
    ensures t.at == s.at + |OpenText(o)| && t.line == s.line + Newlines(OpenText(o))
    ensures t.out == s.out + OpenTokens(o, s.line)
    decreases o
  {
    if o.Flat? {
      ReadAll(r, a, o.before, s, source, rest);
      t := Past(s, SpellAll(o.before), TokensOfAll(o.before, s.line));
    } else {
      var v := EnterBlock(r, a, o.before, OpenText(o.inner), s, source, rest);
      t := RunsInto(r, a, o.inner, v, source, rest);
      OpenLines(o, s.line);
      FourParts(s.out, TokensOfAll(o.before, s.line), [Token(Punct, ['{'], v.line)], OpenTokens(o.inner, v.line));
    }
  }

  lemma EnterBlock(r: Reader, a: Alphabet, before: Items, open: string, s: State, source: string, rest: string)
    returns (v: State)
    requires Reads(r, a, source) && Unicode(a) && Nesting(s) && r.ahead(s.at, SpellAll(before) + (['{'] + open), rest)
    requires FitsAll(a, before, s.out, s.line, (['{'] + open) + rest)
    ensures Final(r, source, s) == Final(r, source, v) && Nesting(v) && r.ahead(v.at, open, rest)
    ensures v.at == s.at + |SpellAll(before)| + 1 && v.line == s.line + Newlines(SpellAll(before))
    ensures v.out == s.out + TokensOfAll(before, s.line) + [Token(Punct, ['{'], v.line)]
  {
    var u := Past(s, SpellAll(before), TokensOfAll(before, s.line));
    Then(r, a, source, s.at, SpellAll(before), ['{'] + open, rest);
    ReadAll(r, a, before, s, source, (['{'] + open) + rest);
    Then(r, a, source, u.at, ['{'], open, rest);
    TurnOpen(r, a, u, source, open + rest);
    OneChar('{');
    v := Past(u, ['{'], [Token(Punct, ['{'], u.line)]).(depth := u.depth + 1);
  }

  lemma OpenLines(o: Open, line: nat)
    requires o.Inside?
    ensures line + Newlines(OpenText(o)) == line + Newlines(SpellAll(o.before)) + Newlines(OpenText(o.inner))
  {
    OneChar('{');
    NewlinesJoin(['{'], OpenText(o.inner));
    NewlinesJoin(SpellAll(o.before), ['{'] + OpenText(o.inner));
  }

  lemma FourParts(a: seq<Token>, b: seq<Token>, c: seq<Token>, d: seq<Token>)
    ensures ((a + b) + c) + d == a + (b + (c + d))
  {
  }

  lemma SlashHere(source: string, open: string, rest: string)
    requires source == open + (['/'] + rest)
    ensures |open| < |source| && source[|open|] == '/' && source[|open| + 1..] == rest
  {
  }

  lemma AheadStart(source: string, open: string, rest: string)
    requires source == open + rest
    ensures Ahead(source, 0, open, rest)
  {
    assert source[0..] == source;
  }

  /** The state the tokenizer is in at the place, before a slash that it takes for a regular expression. */
  lemma AtSlash(a: Alphabet, o: Open, rest: string, source: string, tokens: seq<Token>, line: nat) returns (t: State)
    requires Unicode(a) && NoComment(rest) && source == OpenText(o) + (['/'] + rest)
    requires OpenFits(a, o, [], 1, ['/'] + rest) && tokens == OpenTokens(o, 1) && RegexAllowed(tokens)
    requires line == 1 + Newlines(OpenText(o))
    ensures t.at == |OpenText(o)| && t.out == tokens && t.line == line && Nesting(t)
    ensures Tokens(a, source) == Run(a, LexRegex(t, source), source).out
  {
    var r := ReaderOf(a, source);
    AheadStart(source, OpenText(o), ['/'] + rest);
    t := RunsInto(r, a, o, START, source, ['/'] + rest);
    assert [] + tokens == tokens;
    SlashHere(source, OpenText(o), rest);
    FinalIsRun(r, a, START, source);
    FinalIsRun(r, a, t, source);
    StepSlash(a, t, source);
    StepMoves(a, t, source);
  }

  // ---- What a wrong guess hides

  /** The tokens when what stands behind them is taken for one regular expression. */
  function Taken(tokens: seq<Token>, line: nat): seq<Token> { tokens + [Token(Value, "/regex/", line)] }

  predicate Clean(text: string) {
    forall c <- text :: c != '/' && c != '\n'
  }

  /** No backslash stands before the end of the text, to escape what follows. */
  predicate WholeEscapes(text: string) {
    text == "" || if text[0] == '\\' then |text| >= 2 && WholeEscapes(text[2..]) else WholeEscapes(text[1..])
  }

  lemma {:induction false} NoRegexEnd(source: string, j: nat, inClass: bool)
    requires forall k :: j <= k < |source| ==> source[k] != '/' && source[k] != '\n'
    ensures RegexEnd(source, j, inClass) >= |source|
    decreases |source| - j
  {
    if j < |source| {
      var n := if source[j] == '\\' then j + 2 else j + 1;
      NoRegexEnd(source, n, if source[j] == '[' then true else if source[j] == ']' then false else inClass);
      if source[j] == '\\' { NoRegexEnd(source, j + 2, inClass); }
    }
  }

  lemma CleanAhead(source: string, j: nat, rest: string)
    requires j <= |source| && source[j..] == rest && Clean(rest)
    ensures RegexEnd(source, j, false) >= |source|
  {
    forall k | j <= k < |source| ensures source[k] != '/' && source[k] != '\n' {
      assert source[k] == rest[k - j] && rest[k - j] in rest;
    }
    NoRegexEnd(source, j, false);
  }

  /** After a division taken for a regular expression, on the last line, nothing but that value comes. */
  lemma LastLineIsHidden(a: Alphabet, o: Open, rest: string, source: string, tokens: seq<Token>, line: nat)
    requires Unicode(a) && NoComment(rest) && Clean(rest) && source == OpenText(o) + (['/'] + rest)
    requires OpenFits(a, o, [], 1, ['/'] + rest) && tokens == OpenTokens(o, 1) && RegexAllowed(tokens)
    requires line == 1 + Newlines(OpenText(o))
    ensures Tokens(a, source) == Taken(tokens, line)
  {
    var t := AtSlash(a, o, rest, source, tokens, line);
    SlashHere(source, OpenText(o), rest);
    SlashToEnd(a, t, source, rest);
  }

  lemma SlashToEnd(a: Alphabet, t: State, source: string, rest: string)
    requires t.at < |source| && source[t.at + 1..] == rest && Clean(rest)
    ensures Run(a, LexRegex(t, source), source).out == Taken(t.out, t.line)
  {
    CleanAhead(source, t.at + 1, rest);
    LexedAway(a, t, source);
  }

  lemma LexedAway(a: Alphabet, s: State, source: string)
    requires RegexEnd(source, s.at + 1, false) >= |source|
    ensures Run(a, LexRegex(s, source), source).out == Taken(s.out, s.line)
  {
  }

  lemma {:induction false} LineRegexEnd(source: string, j: nat, rest: string, inClass: bool, after: string)
    requires Ahead(source, j, rest, after) && Clean(rest) && WholeEscapes(rest) && after != "" && after[0] == '\n'
    ensures RegexEnd(source, j, inClass) == j + |rest|
    decreases |rest|
  {
    AheadIs(source, j, rest, after);
    if rest != "" {
      assert source[j] == rest[0] && rest[0] in rest;
      var n := if rest[0] == '\\' then 2 else 1;
      Behind(source, j, rest, after, n);
      assert forall c <- rest[n..] :: c in rest;
      var inside := rest[0] == '[' || (inClass && rest[0] != ']');
      LineRegexEnd(source, j + n, rest[n..], inside, after);
    }
  }

  function Lines(rest: string, next: string): string { rest + (['\n'] + next) }

  /** The line end stands for the closing slash, and the letters behind it for flags. */
  lemma LineFlags(source: string, at: nat, rest: string, behind: string, word: string, next: string)
    requires Ahead(source, at, rest, behind) && behind != "" && behind[0] == '\n'
    requires Ahead(source, at + |rest| + 1, word, next)
    requires Clean(rest) && WholeEscapes(rest) && AllLetters(word) && (next == "" || !AsciiLetter(next[0]))
    ensures RegexEnd(source, at, false) == at + |rest|
    ensures FlagsEnd(source, at + |rest|) == at + |rest| + |word|
  {
    LineRegexEnd(source, at, rest, false, behind);
    FlagsStop(source, at + |rest|, word, next);
  }

  /** A regular expression that is not closed on its line runs on through the letters that start the next one. */
  lemma LexedLine(s: State, source: string, all: string, rest: string, word: string, next: string)
    requires all == ['/'] + (rest + (['\n'] + word)) && Ahead(source, s.at, all, next)
    requires Clean(rest) && WholeEscapes(rest) && AllLetters(word) && (next == "" || !AsciiLetter(next[0]))
    ensures LexRegex(s, source) == s.(out := Taken(s.out, s.line), line := s.line + 1,
                                      at := s.at + |all|)
    ensures s.at + |all| + |next| == |source|
  {
    LineParts(source, s.at, all, rest, word, next);
    LineFlags(source, s.at + 1, rest, (['\n'] + word) + next, word, next);
    LineBreaks(rest, word);
    RegexValue(s, source, s.at + |all|);
  }

  lemma LineParts(source: string, at: nat, all: string, rest: string, word: string, next: string)
    requires all == ['/'] + (rest + (['\n'] + word)) && Ahead(source, at, all, next)
    ensures Ahead(source, at + 1, rest, (['\n'] + word) + next)
    ensures Ahead(source, at + 1 + |rest| + 1, word, next)
    ensures |all| == 2 + |rest| + |word| && at + |all| + |next| == |source| && source[at..at + |all|] == all
  {
    AheadIs(source, at, all, next);
    Apart(source, at, ['/'], rest + (['\n'] + word), next);
    Apart(source, at + 1, rest, ['\n'] + word, next);
    Apart(source, at + 1 + |rest|, ['\n'], word, next);
  }

  lemma LineBreaks(rest: string, word: string)
    requires Clean(rest) && AllLetters(word)
    ensures Newlines(['/'] + (rest + (['\n'] + word))) == 1
  {
    OneChar('/');
    OneChar('\n');
    NoneIn(rest);
    NoneIn(word);
    NewlinesJoin(['\n'], word);
    NewlinesJoin(rest, ['\n'] + word);
    NewlinesJoin(['/'], rest + (['\n'] + word));
  }

  lemma LineAhead(source: string, open: string, all: string, behind: string, rest: string, word: string, next: string)
    requires source == open + (['/'] + behind) && behind == Lines(rest, word + next)
    requires all == ['/'] + (rest + (['\n'] + word))
    ensures Ahead(source, |open|, all, next)
  {
    assert all + next == ['/'] + behind;
    assert source[|open|..] == ['/'] + behind;
  }

  lemma AheadEnd(source: string, at: nat, all: string, next: string)
    requires Ahead(source, at, all, next)
    ensures Ahead(source, at + |all|, next, "")
  {
    Behind(source, at, all, next, |all|);
    assert "" + next == next + "";
  }

  /** With lines behind, the tokenizer goes on behind the letters that start the next one. */
  lemma RestOfLineIsHidden(a: Alphabet, o: Open, rest: string, word: string, next: string, behind: string,
                           source: string, tokens: seq<Token>, line: nat)
    returns (u: State)
    requires line == 1 + Newlines(OpenText(o)) && tokens == OpenTokens(o, 1)
    requires Unicode(a) && NoComment(behind) && Clean(rest) && WholeEscapes(rest)
    requires AllLetters(word) && (next == "" || !AsciiLetter(next[0])) && behind == Lines(rest, word + next)
    requires source == OpenText(o) + (['/'] + behind)
    requires OpenFits(a, o, [], 1, ['/'] + behind) && RegexAllowed(tokens)
    ensures Tokens(a, source) == Run(a, u, source).out && Nesting(u)
    ensures u.out == Taken(tokens, line) && u.line == line + 1 && Ahead(source, u.at, next, "")
  {
    var all := ['/'] + (rest + (['\n'] + word));
    var t := AtSlash(a, o, behind, source, tokens, line);
    LineAhead(source, OpenText(o), all, behind, rest, word, next);
    LexedLine(t, source, all, rest, word, next);
    u := LexRegex(t, source);
    AheadEnd(source, t.at, all, next);
  }

  // ---- Calls that go unreported

  lemma NoExpectMore(list: seq<Token>, t: Token)
    requires t.kind != Name && NoneExpect(list)
    ensures Sites(list + [t]) == []
  {
    NoExpect(list + [t], |list| + 1);
  }

  lemma {:induction false} FillSpells(o: Open, items: Items)
    ensures SpellAll(Fill(o, items)) == OpenText(o) + (SpellAll(items) + CloseText(o))
  {
    match o {
      case Flat(before) => AppendSpells(before, items);
      case Inside(before, inner, after) =>
        FillSpells(inner, items);
        var block := Cons(Block(Fill(inner, items)), after);
        AppendSpells(before, block);
        BlockText(SpellAll(before), OpenText(inner), SpellAll(items), CloseText(inner), SpellAll(after));
    }
  }

  lemma BlockText(before: string, open: string, text: string, close: string, after: string)
    ensures before + ((['{'] + ((open + (text + close)) + ['}'])) + after)
         == (before + (['{'] + open)) + (text + (close + (['}'] + after)))
  {
  }

  lemma {:induction false} FillTokens(o: Open, items: Items, line: nat, at: nat) returns (closing: seq<Token>)
    requires at == line + Newlines(OpenText(o))
    ensures TokensOfAll(Fill(o, items), line) == OpenTokens(o, line) + (TokensOfAll(items, at) + closing)
    decreases o
  {
    if o.Flat? {
      closing := [];
      FlatTokens(o.before, items, line, at);
    } else {
      var inner := line + Newlines(SpellAll(o.before));
      OpenLines(o, line);
      var close := FillTokens(o.inner, items, inner, at);
      closing := BlockFills(o.before, Fill(o.inner, items), o.after, line, inner, OpenTokens(o.inner, inner),
                            TokensOfAll(items, at), close);
    }
  }

  lemma FlatTokens(before: Items, items: Items, line: nat, at: nat)
    requires at == line + Newlines(SpellAll(before))
    ensures TokensOfAll(Append(before, items), line) == TokensOfAll(before, line) + (TokensOfAll(items, at) + [])
  {
    AppendTokens(before, items, line, at);
    assert TokensOfAll(items, at) + [] == TokensOfAll(items, at);
  }

  lemma BlockFills(before: Items, filled: Items, after: Items, line: nat, at: nat, open: seq<Token>,
                   tokens: seq<Token>, close: seq<Token>)
    returns (closing: seq<Token>)
    requires at == line + Newlines(SpellAll(before)) && TokensOfAll(filled, at) == open + (tokens + close)
    ensures TokensOfAll(Append(before, Cons(Block(filled), after)), line)
         == (TokensOfAll(before, line) + ([Token(Punct, ['{'], at)] + open)) + (tokens + closing)
  {
    var closer, last := BlockCons(filled, after, at);
    AppendTokens(before, Cons(Block(filled), after), line, at);
    closing := close + (closer + last);
    BlockTokens(TokensOfAll(before, line), [Token(Punct, ['{'], at)], TokensOfAll(filled, at), open, tokens, close,
                closer, last);
  }

  lemma BlockCons(filled: Items, after: Items, at: nat) returns (closer: seq<Token>, last: seq<Token>)
    ensures TokensOfAll(Cons(Block(filled), after), at)
         == ([Token(Punct, ['{'], at)] + (TokensOfAll(filled, at) + closer)) + last
  {
    closer := [Token(Punct, ['}'], at + Newlines(SpellAll(filled)))];
    last := TokensOfAll(after, at + Newlines(Spell(Block(filled))));
  }

  lemma BlockTokens(before: seq<Token>, opener: seq<Token>, filled: seq<Token>, open: seq<Token>, tokens: seq<Token>,
                    close: seq<Token>, closer: seq<Token>, last: seq<Token>)
    requires filled == open + (tokens + close)
    ensures before + ((opener + (filled + closer)) + last)
         == (before + (opener + open)) + (tokens + (close + (closer + last)))
  {
  }

  /** `expect(<arguments>).<name>` behind a slash, with items between and behind. */
  function Divided(middle: Items, arguments: Items, name: string, more: Items): Items {
    Cons(Sign('/'), Append(middle, Append(Call(arguments, name), more)))
  }

  /** The tokens of the slash, the items between and the call, as the gate sees the call. */
  lemma DividedTokens(middle: Items, arguments: Items, name: string, more: Items, line: nat, at: nat, end: nat)
    requires at == line + Newlines(SpellAll(middle)) && end == at + Newlines(SpellAll(arguments))
    ensures TokensOfAll(Divided(middle, arguments, name, more), line)
         == ([Token(Punct, ['/'], line)] + TokensOfAll(middle, line))
            + FromExpect(TokensOfAll(arguments, at), name, at, end, TokensOfAll(more, end + Newlines(name)))
  {
    var call := Append(Call(arguments, name), more);
    SignTokens('/', Append(middle, call), line);
    AppendTokens(middle, call, line, at);
    CallTokens(arguments, name, more, at, end);
    Regroup([Token(Punct, ['/'], line)], TokensOfAll(middle, line), TokensOfAll(call, at));
  }

  lemma FromExpectMore(inner: seq<Token>, name: string, line: nat, end: nat, rest: seq<Token>, more: seq<Token>)
    ensures FromExpect(inner, name, line, end, rest) + more == FromExpect(inner, name, line, end, rest + more)
  {
    var tail := [Token(Punct, ['.'], end)] + ([Token(Name, name, end)] + rest);
    assert ([Token(Punct, [')'], end)] + tail) + more
        == [Token(Punct, [')'], end)] + ([Token(Punct, ['.'], end)] + ([Token(Name, name, end)] + (rest + more)));
  }

  predicate EndsOpen(tokens: seq<Token>) {
    tokens != [] && tokens[|tokens| - 1].text != "."
  }

  /** At any place of a program, such a call is matched among the program's own tokens. */
  lemma CallStands(o: Open, middle: Items, arguments: Items, name: string, more: Items, line: nat, at: nat, end: nat)
    requires line == 1 + Newlines(OpenText(o)) && at == line + Newlines(SpellAll(middle))
    requires end == at + Newlines(SpellAll(arguments))
    requires (name == "rejects" || name == "resolves") && Balanced(TokensOfAll(arguments, at))
    requires EndsOpen(TokensOfAll(middle, line))
    ensures end in Sites(TokensOfAll(Fill(o, Divided(middle, arguments, name, more)), 1))
  {
    var items := Divided(middle, arguments, name, more);
    var closing := FillTokens(o, items, 1, line);
    DividedTokens(middle, arguments, name, more, line, at, end);
    CallWithin(TokensOfAll(Fill(o, items), 1), OpenTokens(o, 1), TokensOfAll(items, line),
               [Token(Punct, ['/'], line)], TokensOfAll(middle, line), TokensOfAll(arguments, at), name, at, end,
               TokensOfAll(more, end + Newlines(name)), closing);
  }

  lemma CallWithin(list: seq<Token>, open: seq<Token>, items: seq<Token>, slash: seq<Token>, middle: seq<Token>,
                   inner: seq<Token>, name: string, at: nat, end: nat, rest: seq<Token>, closing: seq<Token>)
    requires list == open + (items + closing)
    requires items == (slash + middle) + FromExpect(inner, name, at, end, rest)
    requires Balanced(inner) && (name == "rejects" || name == "resolves") && EndsOpen(middle)
    ensures end in Sites(list)
  {
    var first := open + (slash + middle);
    FromExpectMore(inner, name, at, end, rest, closing);
    assert list == first + (FromExpect(inner, name, at, end, rest) + closing);
    assert first[|first| - 1] == middle[|middle| - 1];
    CallAt(list, first, inner, at, end, name, rest + closing);
  }

  /** On the last line, behind a division that is taken for a regular expression, the gate misses the call. */
  lemma CallIsHidden(a: Alphabet, o: Open, middle: Items, arguments: Items, name: string, more: Items, rest: string,
                     line: nat)
    requires Unicode(a) && rest == SpellAll(Append(middle, Append(Call(arguments, name), more))) + CloseText(o)
    requires Clean(rest) && NoComment(rest) && line == 1 + Newlines(OpenText(o))
    requires OpenFits(a, o, [], 1, ['/'] + rest) && RegexAllowed(OpenTokens(o, 1)) && NoneExpect(OpenTokens(o, 1))
    requires (name == "rejects" || name == "resolves") && Balanced(TokensOfAll(arguments, line))
    requires EndsOpen(TokensOfAll(middle, line))
    ensures var program := Fill(o, Divided(middle, arguments, name, more));
      Sites(Tokens(a, SpellAll(program))) == [] && line in Sites(TokensOfAll(program, 1))
  {
    var program := Fill(o, Divided(middle, arguments, name, more));
    DividedSpells(o, Append(middle, Append(Call(arguments, name), more)), rest);
    LastLineIsHidden(a, o, rest, SpellAll(program), OpenTokens(o, 1), line);
    NoExpectMore(OpenTokens(o, 1), Token(Value, "/regex/", line));
    CleanParts(middle, arguments, name, more, CloseText(o), rest);
    CallStands(o, middle, arguments, name, more, line, line, line);
  }

  lemma DividedSpells(o: Open, items: Items, rest: string)
    requires rest == SpellAll(items) + CloseText(o)
    ensures SpellAll(Fill(o, Cons(Sign('/'), items))) == OpenText(o) + (['/'] + rest)
  {
    FillSpells(o, Cons(Sign('/'), items));
    SignTokens('/', items, 1);
    Three(['/'], SpellAll(items), CloseText(o));
  }

  lemma Three(a: string, b: string, c: string)
    ensures (a + b) + c == a + (b + c)
  {
  }

  lemma OneLineJoin(a: string, b: string)
    requires OneLine(a + b)
    ensures OneLine(a) && OneLine(b) && Newlines(a) == 0 && Newlines(b) == 0
  {
    assert (forall c <- a :: c in a + b) && (forall c <- b :: c in a + b);
    NoneIn(a);
    NoneIn(b);
  }

  lemma CleanParts(middle: Items, arguments: Items, name: string, more: Items, close: string, rest: string)
    requires rest == SpellAll(Append(middle, Append(Call(arguments, name), more))) + close && Clean(rest)
    ensures Newlines(SpellAll(middle)) == 0 && Newlines(SpellAll(arguments)) == 0
  {
    var call := Append(Call(arguments, name), more);
    AppendSpells(middle, call);
    OneLineJoin(SpellAll(Append(middle, call)), close);
    OneLineJoin(SpellAll(middle), SpellAll(call));
    AppendSpells(Call(arguments, name), more);
    OneLineJoin(SpellAll(Call(arguments, name)), SpellAll(more));
    CallParts(arguments, name);
  }

  lemma CallParts(arguments: Items, name: string)
    requires OneLine(SpellAll(Call(arguments, name)))
    ensures Newlines(SpellAll(arguments)) == 0
  {
    var inside := Append(arguments, Matcher(name));
    var open := Cons(Sign('('), inside);
    AppendSpells(arguments, Matcher(name));
    assert Call(arguments, name) == Cons(Identifier("expect"), open);
    OneLineJoin(Spell(Identifier("expect")), SpellAll(open));
    OneLineJoin(Spell(Sign('(')), SpellAll(inside));
    OneLineJoin(SpellAll(arguments), SpellAll(Matcher(name)));
  }

  // ---- A call that starts the next line

  /** Items and a line end. */
  function Ended(middle: Items): Items { Append(middle, Cons(Blank('\n'), Nil)) }

  lemma EndedLine(middle: Items, line: nat)
    requires Newlines(SpellAll(middle)) == 0
    ensures SpellAll(Ended(middle)) == SpellAll(middle) + ['\n'] && Newlines(SpellAll(Ended(middle))) == 1
    ensures TokensOfAll(Ended(middle), line) == TokensOfAll(middle, line)
  {
    var end := Cons(Blank('\n'), Nil);
    OneChar('\n');
    assert SpellAll(end) == ['\n'];
    AppendSpells(middle, end);
    NewlinesJoin(SpellAll(middle), ['\n']);
    AppendTokens(middle, end, line, line);
    assert TokensOfAll(end, line) == [];
    assert TokensOfAll(middle, line) + [] == TokensOfAll(middle, line);
  }

  /** What stands behind the slash: its line, then the call. */
  lemma NextLineSpells(before: Items, middle: Items, arguments: Items, name: string, behind: string)
    requires behind == Lines(SpellAll(middle), "expect" + SpellAll(Tail(arguments, name)))
    requires Newlines(SpellAll(middle)) == 0
    ensures SpellAll(Append(before, Divided(Ended(middle), arguments, name, Nil)))
        == SpellAll(before) + (['/'] + behind)
  {
    var call := Call(arguments, name);
    AppendNil(call);
    EndedLine(middle, 1);
    AppendSpells(Ended(middle), call);
    AppendSpells(before, Divided(Ended(middle), arguments, name, Nil));
    SignTokens('/', Append(Ended(middle), call), 1);
    assert call == Cons(Identifier("expect"), Tail(arguments, name));
    assert SpellAll(call) == "expect" + SpellAll(Tail(arguments, name));
    Three(SpellAll(middle), ['\n'], SpellAll(call));
  }

  lemma {:induction false} AppendNil(items: Items)
    ensures Append(items, Nil) == items
  {
    if items.Cons? { AppendNil(items.rest); }
  }

  /** What is read when the line end and the word behind it are taken into the regular expression. */
  lemma TailIsRead(a: Alphabet, before: Items, middle: Items, tail: Items, behind: string, source: string,
                   tokens: seq<Token>, line: nat)
    requires Unicode(a) && Clean(SpellAll(middle)) && WholeEscapes(SpellAll(middle)) && NoComment(behind)
    requires behind == Lines(SpellAll(middle), "expect" + SpellAll(tail))
    requires SpellAll(tail) == "" || !AsciiLetter(SpellAll(tail)[0])
    requires source == SpellAll(before) + (['/'] + behind) && line == 1 + Newlines(SpellAll(before))
    requires FitsAll(a, before, [], 1, ['/'] + behind) && tokens == TokensOfAll(before, 1) && RegexAllowed(tokens)
    requires FitsAll(a, tail, Taken(tokens, line), line + 1, "")
    ensures Tokens(a, source) == Taken(tokens, line) + TokensOfAll(tail, line + 1)
  {
    var u := RestOfLineIsHidden(a, Flat(before), SpellAll(middle), "expect", SpellAll(tail), behind, source, tokens,
        line);
    var r := ReaderOf(a, source);
    assert Ahead(source, u.at, SpellAll(tail), "");
    ReadAll(r, a, tail, u, source, "");
    FinalIsRun(r, a, u, source);
    var v := Past(u, SpellAll(tail), TokensOfAll(tail, u.line));
    FinalIsRun(r, a, v, source);
    AheadIs(source, u.at, SpellAll(tail), "");
  }

  /** A call that starts the line behind such a division goes unreported: its `expect` is taken for flags. */
  lemma NextLineCallIsHidden(a: Alphabet, before: Items, middle: Items, arguments: Items, name: string, behind: string,
                             line: nat, end: nat)
    requires Unicode(a) && Clean(SpellAll(middle)) && WholeEscapes(SpellAll(middle)) && NoComment(behind)
    requires behind == Lines(SpellAll(middle), "expect" + SpellAll(Tail(arguments, name)))
    requires FitsAll(a, before, [], 1, ['/'] + behind) && RegexAllowed(TokensOfAll(before, 1))
    requires line == 1 + Newlines(SpellAll(before)) && end == line + 1 + Newlines(SpellAll(arguments))
    requires FitsAll(a, Tail(arguments, name), Taken(TokensOfAll(before, 1), line), line + 1, "")
    requires NoneExpect(TokensOfAll(before, 1)) && NoneExpect(TokensOfAll(Tail(arguments, name), line + 1))
    requires (name == "rejects" || name == "resolves") && Balanced(TokensOfAll(arguments, line + 1))
    requires EndsOpen(TokensOfAll(middle, line))
    ensures var program := Append(before, Divided(Ended(middle), arguments, name, Nil));
      Sites(Tokens(a, SpellAll(program))) == [] && end in Sites(TokensOfAll(program, 1))
  {
    var tail, tokens := Tail(arguments, name), TokensOfAll(before, 1);
    NoneIn(SpellAll(middle));
    NextLineSpells(before, middle, arguments, name, behind);
    SignTokens('(', Append(arguments, Matcher(name)), 1);
    TailIsRead(a, before, middle, tail, behind, SpellAll(before) + (['/'] + behind), tokens, line);
    NoneExpectJoin(tokens, [Token(Value, "/regex/", line)]);
    NoneExpectJoin(Taken(tokens, line), TokensOfAll(tail, line + 1));
    var list := Taken(tokens, line) + TokensOfAll(tail, line + 1);
    NoExpect(list, |list|);
    EndedLine(middle, line);
    CallStands(Flat(before), Ended(middle), arguments, name, Nil, line, line + 1, end);
  }

  // ---- Such lines

  /** `<x>++ ` */
  function Increment(x: string): Items { Cons(Identifier(x), Pair('+', '+', Cons(Blank(' '), Nil))) }

  function IncrementList(x: string, line: nat): seq<Token> { [Token(Name, x, line)] + PairList('+', '+', line) }

  lemma IncrementTokens(x: string, line: nat)
    requires OneLine(x)
    ensures TokensOfAll(Increment(x), line) == IncrementList(x, line)
    ensures SpellAll(Increment(x)) == x + ['+', '+', ' ']
  {
    var last := Cons(Blank(' '), Nil);
    BlankTokens(Nil, line);
    PairTokens('+', '+', last, line);
    WordTokens(x, Pair('+', '+', last), line);
  }

  lemma FitsIncrement(a: Alphabet, x: string, out: seq<Token>, line: nat, after: string)
    requires Ascii(a) && AllLetters(x) && 0 < |x| <= 256
    ensures FitsAll(a, Increment(x), out, line, after)
  {
    var last, named := Cons(Blank(' '), Nil), out + [Token(Name, x, line)];
    FitsBlank(a, Nil, named + PairList('+', '+', line), line, after);
    FitsPair(a, '+', '+', last, named, line, after);
    PairTokens('+', '+', last, line);
    assert (SpellAll(Pair('+', '+', last)) + after)[0] == '+';
    FitsWord(a, x, Pair('+', '+', last), out, line, after);
  }

  lemma PlusAllows(out: seq<Token>, line: nat)
    requires out != [] && out[|out| - 1] == Token(Punct, ['+'], line)
    ensures RegexAllowed(out)
  {
    assert |['+']| == |")"| && ['+'][0] != ")"[0] && ['+'][0] != "]"[0] && ['+'][0] != "}"[0];
  }

  /** ` <two>` and what follows. */
  function Half(two: string, rest: Items): Items { Cons(Blank(' '), Cons(Number(two), rest)) }

  /** `; ` */
  function Stop(): Items { Cons(Sign(';'), Cons(Blank(' '), Nil)) }

  lemma StopTokens(line: nat)
    ensures TokensOfAll(Stop(), line) == [Token(Punct, [';'], line)] && SpellAll(Stop()) == [';', ' ']
  {
    BlankTokens(Nil, line);
    SignTokens(';', Cons(Blank(' '), Nil), line);
  }

  lemma HalfTokens(two: string, rest: Items, line: nat)
    requires OneLine(two)
    ensures TokensOfAll(Half(two, rest), line) == [Token(Value, two, line)] + TokensOfAll(rest, line)
    ensures SpellAll(Half(two, rest)) == [' '] + (two + SpellAll(rest))
  {
    NoneIn(two);
    BlankTokens(Cons(Number(two), rest), line);
  }

  /** `expect(<p>).<name>` */
  function CallText(p: string, name: string): string { "expect" + TailText(p, name) }

  lemma CallSpells(p: string, name: string)
    ensures SpellAll(Call(Only(p), name)) == CallText(p, name)
  {
    TailSpells(p, name);
    assert Call(Only(p), name) == Cons(Identifier("expect"), Tail(Only(p), name));
    assert SpellAll(Call(Only(p), name)) == "expect" + SpellAll(Tail(Only(p), name));
  }

  /** ` <two>; expect(<p>).<name>; }` */
  function BehindSlash(two: string, p: string, name: string): string {
    ([' '] + (two + [';', ' ']) + (CallText(p, name) + [';', ' '])) + ['}']
  }

  lemma BehindIs(two: string, p: string, name: string)
    requires OneLine(two)
    ensures SpellAll(Append(Half(two, Stop()), Append(Call(Only(p), name), Stop()))) + ['}']
        == BehindSlash(two, p, name)
  {
    StopTokens(1);
    HalfTokens(two, Stop(), 1);
    CallSpells(p, name);
    AppendSpells(Call(Only(p), name), Stop());
    AppendSpells(Half(two, Stop()), Append(Call(Only(p), name), Stop()));
  }

  lemma CleanJoin(a: string, b: string)
    requires Clean(a) && Clean(b)
    ensures Clean(a + b)
  {
  }

  lemma BehindIsClean(two: string, p: string, name: string)
    requires Clean(two) && Clean(p) && (name == "rejects" || name == "resolves")
    ensures Clean(BehindSlash(two, p, name)) && NoComment(BehindSlash(two, p, name))
  {
    assert Clean(name) && Clean("expect");
    CleanJoin(['.'], name);
    CleanJoin([')'], ['.'] + name);
    CleanJoin(p, [')'] + (['.'] + name));
    CleanJoin(['('], p + ([')'] + (['.'] + name)));
    CleanJoin("expect", TailText(p, name));
    CleanJoin(CallText(p, name), [';', ' ']);
    CleanJoin(two, [';', ' ']);
    CleanJoin([' '], two + [';', ' ']);
    CleanJoin([' '] + (two + [';', ' ']), CallText(p, name) + [';', ' ']);
    CleanJoin([' '] + (two + [';', ' ']) + (CallText(p, name) + [';', ' ']), ['}']);
  }

  /** In a function body: `() => { <x>++ ` up to the slash, and `}` behind. */
  function Body(x: string): Open { Inside(Parameters(Nil), Flat(Spaced(x)), Nil) }

  /** `() => { <x>++ / <two>; expect(<p>).<name>; }` */
  function BodyLine(x: string, two: string, p: string, name: string): Items {
    Fill(Body(x), Divided(Half(two, Stop()), Only(p), name, Stop()))
  }

  lemma ArrowIs(line: nat)
    ensures TokensOfAll(Parameters(Nil), line) == ParameterList(line)
    ensures SpellAll(Parameters(Nil)) == ['(', ')', ' ', '=', '>', ' ']
    ensures OneLine(SpellAll(Parameters(Nil))) && Newlines(SpellAll(Parameters(Nil))) == 0
  {
    ParametersTokens(Nil, line);
    NoneIn(SpellAll(Parameters(Nil)));
  }

  function Spaced(x: string): Items { Cons(Blank(' '), Increment(x)) }

  lemma SpacedIs(x: string, line: nat)
    requires OneLine(x)
    ensures SpellAll(Spaced(x)) == [' '] + (x + ['+', '+', ' '])
    ensures TokensOfAll(Spaced(x), line) == IncrementList(x, line)
  {
    BlankTokens(Increment(x), line);
    IncrementTokens(x, line);
  }

  lemma OneBlock(before: Items, items: Items, line: nat)
    requires Newlines(SpellAll(before)) == 0
    ensures var o := Inside(before, Flat(items), Nil);
      && OpenText(o) == SpellAll(before) + (['{'] + SpellAll(items)) && CloseText(o) == ['}']
      && OpenTokens(o, line) == TokensOfAll(before, line) + ([Token(Punct, ['{'], line)] + TokensOfAll(items, line))
  {
    var inner := Flat(items);
    FlatOpen(items, line);
    OpenTextInside(Inside(before, inner, Nil));
    OpenTokensInside(Inside(before, inner, Nil), line, line);
    assert "" + (['}'] + "") == ['}'];
  }

  lemma FlatOpen(items: Items, line: nat)
    ensures OpenText(Flat(items)) == SpellAll(items) && OpenTokens(Flat(items), line) == TokensOfAll(items, line)
    ensures CloseText(Flat(items)) == ""
  {
  }

  lemma OpenTextInside(o: Open)
    requires o.Inside?
    ensures OpenText(o) == SpellAll(o.before) + (['{'] + OpenText(o.inner))
    ensures CloseText(o) == CloseText(o.inner) + (['}'] + SpellAll(o.after))
  {
  }

  lemma OpenTokensInside(o: Open, line: nat, at: nat)
    requires o.Inside? && at == line + Newlines(SpellAll(o.before))
    ensures OpenTokens(o, line) == TokensOfAll(o.before, line) + ([Token(Punct, ['{'], at)] + OpenTokens(o.inner, at))
  {
  }

  lemma BodyTokens(x: string)
    requires OneLine(x)
    ensures OpenTokens(Body(x), 1) == ParameterList(1) + ([Token(Punct, ['{'], 1)] + IncrementList(x, 1))
  {
    ArrowIs(1);
    SpacedIs(x, 1);
    OneBlock(Parameters(Nil), Spaced(x), 1);
  }

  lemma BodyText(x: string)
    requires OneLine(x)
    ensures Newlines(OpenText(Body(x))) == 0 && CloseText(Body(x)) == ['}']
  {
    ArrowIs(1);
    SpacedIs(x, 1);
    OneBlock(Parameters(Nil), Spaced(x), 1);
    BlockBreaks(SpellAll(Parameters(Nil)), SpellAll(Spaced(x)));
  }

  lemma BlockBreaks(before: string, inside: string)
    requires OneLine(before) && OneLine(inside)
    ensures Newlines(before + (['{'] + inside)) == 0
  {
    NoneIn(before + (['{'] + inside));
  }

  lemma BodyFits(a: Alphabet, x: string, rest: string)
    requires Ascii(a) && AllLetters(x) && 0 < |x| <= 256
    ensures OpenFits(a, Body(x), [], 1, rest)
  {
    var inner, at := Flat(Spaced(x)), 1 + Newlines(SpellAll(Parameters(Nil)));
    var out := [] + TokensOfAll(Parameters(Nil), 1) + [Token(Punct, ['{'], at)];
    FitsParameters(a, Nil, [], 1, (['{'] + OpenText(inner)) + rest);
    SpacedFits(a, x, out, at, rest);
  }

  lemma SpacedFits(a: Alphabet, x: string, out: seq<Token>, line: nat, rest: string)
    requires Ascii(a) && AllLetters(x) && 0 < |x| <= 256
    ensures FitsAll(a, Spaced(x), out, line, rest)
  {
    FitsIncrement(a, x, out, line, rest);
    FitsBlank(a, Increment(x), out, line, rest);
  }

  lemma BodyAllows(x: string)
    requires OneLine(x) && x != "expect"
    ensures RegexAllowed(OpenTokens(Body(x), 1)) && NoneExpect(OpenTokens(Body(x), 1))
  {
    BodyTokens(x);
    var words := IncrementList(x, 1);
    NoneExpectJoin([Token(Punct, ['{'], 1)], words);
    NoneExpectJoin(ParameterList(1), [Token(Punct, ['{'], 1)] + words);
    PlusAllows(OpenTokens(Body(x), 1), 1);
  }

  lemma HalfStops(two: string, line: nat)
    requires OneLine(two)
    ensures EndsOpen(TokensOfAll(Half(two, Stop()), line))
  {
    StopTokens(line);
    HalfTokens(two, Stop(), line);
    assert |"."| == 1 && "."[0] != ';';
  }

  /** In `() => { x++ / 2; expect(p).rejects; }` the gate reports nothing, though the body holds a matched call: the
      tokenizer takes the division for a regular expression that runs to the end of the line. */
  lemma BodyHidesCall(a: Alphabet, x: string, two: string, p: string, name: string)
    requires Unicode(a) && Ascii(a) && AllLetters(x) && 0 < |x| <= 256 && x != "expect"
    requires Clean(two) && Clean(p) && (name == "rejects" || name == "resolves")
    ensures SpellAll(BodyLine(x, two, p, name)) == OpenText(Body(x)) + (['/'] + BehindSlash(two, p, name))
    ensures Sites(Tokens(a, SpellAll(BodyLine(x, two, p, name)))) == []
    ensures 1 in Sites(TokensOfAll(BodyLine(x, two, p, name), 1))
  {
    var rest := BehindSlash(two, p, name);
    LettersFit(a, x);
    BodyText(x);
    BodyAllows(x);
    BodyFits(a, x, ['/'] + rest);
    BehindIs(two, p, name);
    BehindIsClean(two, p, name);
    OnlyTokens(p, 1);
    HalfStops(two, 1);
    DividedSpells(Body(x), Append(Half(two, Stop()), Append(Call(Only(p), name), Stop())), rest);
    CallIsHidden(a, Body(x), Half(two, Stop()), Only(p), name, Stop(), rest, 1);
  }

  /** `<x>++ / <two>` and, on the next line, `expect(<p>).<name>`. */
  function TwoLines(x: string, two: string, p: string, name: string): Items {
    Append(Increment(x), Divided(Ended(Half(two, Nil)), Only(p), name, Nil))
  }

  lemma IncrementReady(a: Alphabet, x: string, rest: string)
    requires Ascii(a) && AllLetters(x) && 0 < |x| <= 256 && x != "expect"
    ensures FitsAll(a, Increment(x), [], 1, rest) && RegexAllowed(TokensOfAll(Increment(x), 1))
    ensures NoneExpect(TokensOfAll(Increment(x), 1)) && Newlines(SpellAll(Increment(x))) == 0
  {
    LettersFit(a, x);
    FitsIncrement(a, x, [], 1, rest);
    IncrementTokens(x, 1);
    PlusAllows(TokensOfAll(Increment(x), 1), 1);
    NoneIn(SpellAll(Increment(x)));
  }

  lemma HalfReady(two: string)
    requires Clean(two) && WholeEscapes([' '] + two) && two != "."
    ensures var text := SpellAll(Half(two, Nil));
      text == [' '] + two && Clean(text) && WholeEscapes(text) && Newlines(text) == 0
    ensures EndsOpen(TokensOfAll(Half(two, Nil), 1))
  {
    HalfTokens(two, Nil, 1);
    assert [' '] + (two + "") == [' '] + two;
    CleanJoin([' '], two);
    NoneIn([' '] + two);
  }

  lemma TwoLinesSpell(x: string, two: string, p: string, name: string)
    requires OneLine(x) && Clean(two) && WholeEscapes([' '] + two) && two != "."
    ensures SpellAll(TwoLines(x, two, p, name))
         == (x + ['+', '+', ' ']) + (['/'] + Lines([' '] + two, CallText(p, name)))
  {
    HalfReady(two);
    TailSpells(p, name);
    IncrementTokens(x, 1);
    NextLineSpells(Increment(x), Half(two, Nil), Only(p), name, Lines([' '] + two, CallText(p, name)));
  }

  /** Of the lines `x++ / 2` and `expect(p).rejects` the gate reports nothing either: the letters of `expect` are
      read as the flags of the regular expression. */
  lemma NextLineHidesCall(a: Alphabet, x: string, two: string, p: string, name: string)
    requires Unicode(a) && Ascii(a) && AllLetters(x) && 0 < |x| <= 256 && x != "expect"
    requires AllLetters(p) && 0 < |p| <= 256 && p != "expect"
    requires Clean(two) && WholeEscapes([' '] + two) && two != "." && (name == "rejects" || name == "resolves")
    ensures SpellAll(TwoLines(x, two, p, name))
         == (x + ['+', '+', ' ']) + (['/'] + Lines([' '] + two, CallText(p, name)))
    ensures Sites(Tokens(a, SpellAll(TwoLines(x, two, p, name)))) == []
    ensures 2 in Sites(TokensOfAll(TwoLines(x, two, p, name), 1))
  {
    var behind := Lines([' '] + two, CallText(p, name));
    LettersFit(a, x);
    TwoLinesSpell(x, two, p, name);
    HalfReady(two);
    TailSpells(p, name);
    IncrementReady(a, x, ['/'] + behind);
    FitsTail(a, p, name, Taken(TokensOfAll(Increment(x), 1), 1), 2);
    LettersFit(a, p);
    TailTokens(p, name, 2);
    TailHasNone(p, name, 2);
    OnlyTokens(p, 2);
    NoneIn(p);
    NextLineCallIsHidden(a, Increment(x), Half(two, Nil), Only(p), name, behind, 1, 2);
  }
}
