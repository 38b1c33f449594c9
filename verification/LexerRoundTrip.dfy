/** The tokenizer of `scripts/architecture/nested-tick.ts` reads back what a program is made
    of: whatever comments, strings, regular expressions, braces and templates inside
    templates it is spelled with, its names come out in order, on their own lines. */
module LexerRoundTrip {
  import opened Lexer

  // ---- Programs as items, and how they are spelled

  datatype Item =
    | Blank(c: char)
    | LineComment(text: string)
    | BlockComment(text: string)
    | Identifier(text: string)
    | Number(text: string)
    | Quoted(quote: char, text: string)
    | Regex(body: string, flags: string)
    | Sign(c: char)
    | Block(items: Items)
    | Template(text: string, holes: Holes)

  datatype Items = Nil | Cons(first: Item, rest: Items)

  /** The substitutions of a template, each with the text after it. */
  datatype Holes = Done | Sub(items: Items, text: string, more: Holes)

  function Spell(item: Item): string {
    match item
    case Blank(c) => [c]
    case LineComment(text) => "//" + text
    case BlockComment(text) => "/*" + text + "*/"
    case Identifier(text) => text
    case Number(text) => text
    case Quoted(quote, text) => [quote] + text + [quote]
    case Regex(body, flags) => "/" + body + "/" + flags
    case Sign(c) => [c]
    case Block(items) => ['{'] + (SpellAll(items) + ['}'])
    case Template(text, holes) => ['`'] + (text + SpellHoles(holes))
  }

  function SpellAll(items: Items): string {
    match items
    case Nil => ""
    case Cons(first, rest) => Spell(first) + SpellAll(rest)
  }

  function SpellHoles(holes: Holes): string {
    match holes
    case Done => ['`']
    case Sub(items, text, more) => ['$', '{'] + (SpellAll(items) + (['}'] + (text + SpellHoles(more))))
  }

  // ---- The tokens they are

  /** The tokens of an item that starts on the given line. */
  function TokensOf(item: Item, line: nat): seq<Token> {
    match item
    case Identifier(text) => [Token(Name, text, line)]
    case Number(text) => [Token(Value, text, line)]
    case Quoted(_, text) => [Token(Str, text, line)]
    case Regex(_, _) => [Token(Value, "/regex/", line)]
    case Sign(c) => [Token(Punct, [c], line)]
    case Block(items) =>
      [Token(Punct, ['{'], line)]
        + (TokensOfAll(items, line) + [Token(Punct, ['}'], line + Newlines(SpellAll(items)))])
    case Template(text, holes) => TokensOfHoles(holes, line + Newlines(text))
    case _ => []
  }

  function TokensOfAll(items: Items, line: nat): seq<Token> {
    match items
    case Nil => []
    case Cons(first, rest) => TokensOf(first, line) + TokensOfAll(rest, line + Newlines(Spell(first)))
  }

  function TokensOfHoles(holes: Holes, line: nat): seq<Token> {
    match holes
    case Done => [Token(Value, "`", line)]
    case Sub(items, text, more) =>
      var end := line + Newlines(SpellAll(items));
      [Token(Punct, "(", line)]
        + (TokensOfAll(items, line) + ([Token(Punct, ")", end)] + TokensOfHoles(more, end + Newlines(text))))
  }

  // ---- When a spelling reads back

  predicate Special(c: char) {
    c == '/' || c == '"' || c == '\'' || c == '`' || c == '{' || c == '}'
  }

  /** What holds of the Unicode classes: special characters are neither letters, numbers nor spaces,
      and spaces, line ends and digits are no letters. */
  ghost predicate Unicode(a: Alphabet) {
    && Sane(a)
    && (forall c :: Special(c) ==> !a.letter(c) && !a.number(c) && !a.space(c))
    && (forall c :: a.space(c) ==> !WordStart(a, c) && !Digit(c))
    && (forall c :: Digit(c) ==> !a.letter(c))
  }

  ghost predicate AllWord(a: Alphabet, text: string) {
    forall c <- text :: WordPart(a, c)
  }

  predicate AllNumber(text: string) {
    forall c <- text :: NumberPart(c)
  }

  predicate AllLetters(text: string) {
    forall c <- text :: AsciiLetter(c)
  }

  predicate OneLine(text: string) {
    forall c <- text :: c != '\n'
  }

  /** No comment end inside. */
  predicate NoEnd(text: string) {
    forall k :: 0 <= k < |text| - 1 ==> !(text[k] == '*' && text[k + 1] == '/')
  }

  predicate StringBody(text: string, quote: char) {
    text == "" ||
    if text[0] == '\\' then |text| >= 2 && StringBody(text[2..], quote)
    else text[0] != quote && text[0] != '\n' && StringBody(text[1..], quote)
  }

  predicate TemplateBody(text: string) {
    text == "" ||
    if text[0] == '\\' then |text| >= 2 && TemplateBody(text[2..])
    else text[0] != '`' && !(text[0] == '$' && Is(text, 1, '{')) && TemplateBody(text[1..])
  }

  predicate RegexBody(body: string, inClass: bool) {
    if body == "" then !inClass
    else if body[0] == '\\' then |body| >= 2 && RegexBody(body[2..], inClass)
    else if body[0] == '[' then RegexBody(body[1..], true)
    else if body[0] == ']' then RegexBody(body[1..], false)
    else body[0] != '\n' && (body[0] == '/' ==> inClass) && RegexBody(body[1..], inClass)
  }

  /** The item reads back after these tokens, with this text behind it. */
  ghost predicate Fits(a: Alphabet, item: Item, out: seq<Token>, line: nat, after: string) {
    match item
    case Blank(c) => c == '\n' || a.space(c)
    case LineComment(text) => OneLine(text) && (after == "" || after[0] == '\n')
    case BlockComment(text) => NoEnd(text)
    case Identifier(text) =>
      && 0 < |text| <= 256 && WordStart(a, text[0]) && !Digit(text[0]) && AllWord(a, text)
      && (|text| == 256 || after == "" || !WordPart(a, after[0]))
    case Number(text) =>
      && 0 < |text| <= 256 && Digit(text[0]) && AllNumber(text)
      && (|text| == 256 || after == "" || !NumberPart(after[0]))
    case Quoted(quote, text) => (quote == '"' || quote == '\'') && StringBody(text, quote)
    case Regex(body, flags) =>
      && RegexAllowed(out) && body != "" && body[0] != '/' && body[0] != '*' && RegexBody(body, false)
      && AllLetters(flags) && (after == "" || !AsciiLetter(after[0]))
    case Sign(c) =>
      && c != '\n' && !a.space(c) && !WordStart(a, c) && !Digit(c) && (Special(c) ==> c == '/')
      && (c == '/' ==> !RegexAllowed(out) && (after == "" || (after[0] != '/' && after[0] != '*')))
    case Block(items) => FitsAll(a, items, out + [Token(Punct, ['{'], line)], line, ['}'] + after)
    case Template(text, holes) => TemplateBody(text) && FitsHoles(a, holes, out, line + Newlines(text), after)
  }

  ghost predicate FitsAll(a: Alphabet, items: Items, out: seq<Token>, line: nat, after: string) {
    match items
    case Nil => true
    case Cons(first, rest) =>
      && Fits(a, first, out, line, SpellAll(rest) + after)
      && FitsAll(a, rest, out + TokensOf(first, line), line + Newlines(Spell(first)), after)
  }

  ghost predicate FitsHoles(a: Alphabet, holes: Holes, out: seq<Token>, line: nat, after: string) {
    match holes
    case Done => true
    case Sub(items, text, more) =>
      var end := line + Newlines(SpellAll(items));
      var begun := out + [Token(Punct, "(", line)];
      && FitsAll(a, items, begun, line, (['}'] + (text + SpellHoles(more))) + after)
      && TemplateBody(text)
      && FitsHoles(a, more, begun + TokensOfAll(items, line) + [Token(Punct, ")", end)], end + Newlines(text), after)
  }

  // ---- Text and lines

  lemma {:induction false} NewlinesJoin(a: string, b: string)
    ensures Newlines(a + b) == Newlines(a) + Newlines(b)
  {
    if b == "" {
      assert a + b == a;
    } else {
      var whole := a + b;
      assert whole[..|whole| - 1] == a + b[..|b| - 1];
      LastNewline(whole);
      LastNewline(b);
      NewlinesJoin(a, b[..|b| - 1]);
    }
  }

  lemma NoneIn(text: string)
    requires OneLine(text)
    ensures Newlines(text) == 0
  {
    forall k | 0 <= k < |text| ensures text[k] != '\n' {
      assert text[k] in text;
    }
    assert Breaks(text) == {};
  }

  lemma OneChar(c: char)
    ensures Newlines([c]) == if c == '\n' then 1 else 0
  {
    assert Breaks([c]) == if c == '\n' then {0} else {};
  }

  /** The rest of the source is this text, then `after`. */
  predicate Ahead(source: string, at: nat, text: string, after: string) {
    at <= |source| && source[at..] == text + after
  }

  lemma AheadIs(source: string, at: nat, text: string, after: string)
    requires Ahead(source, at, text, after)
    ensures |source| == at + |text| + |after|
    ensures source[at..at + |text|] == text
    ensures Ahead(source, at + |text|, "", after)
    ensures forall k :: 0 <= k < |text| ==> source[at + k] == text[k]
    ensures after != "" ==> source[at + |text|] == after[0]
  {
    var rest := source[at..];
    assert rest[..|text|] == text && rest[|text|..] == after;
    assert source[at + |text|..] == rest[|text|..];
    assert "" + after == after;
    forall k | 0 <= k < |text| ensures source[at + k] == text[k] {
      assert rest[k] == text[k];
    }
    if after != "" {
      assert rest[|text|] == after[0];
    }
  }

  lemma {:induction false} SkipLines(s: State, source: string, end: nat)
    requires s.at <= end <= |source|
    ensures SkipTo(s, source, end) == s.(at := end, line := s.line + Newlines(source[s.at..end]))
    decreases end - s.at
  {
    if s.at < end {
      var here := source[s.at];
      var next := s.(at := s.at + 1, line := s.line + if Is(source, s.at, '\n') then 1 else 0);
      SkipLines(next, source, end);
      assert source[s.at..end] == [here] + source[s.at + 1..end];
      NewlinesJoin([here], source[s.at + 1..end]);
      OneChar(here);
    }
  }

  // ---- Each scan stops where the spelling ends

  lemma {:induction false} LineStops(source: string, j: nat, text: string, after: string)
    requires Ahead(source, j, text, after) && OneLine(text) && (after == "" || after[0] == '\n')
    ensures LineEnd(source, j) == j + |text|
    decreases |text|
  {
    AheadIs(source, j, text, after);
    if text != "" {
      assert source[j] == text[0] && text[0] in text;
      Behind(source, j, text, after, 1);
      assert forall c <- text[1..] :: c in text;
      LineStops(source, j + 1, text[1..], after);
    }
  }

  lemma Behind(source: string, j: nat, text: string, after: string, n: nat)
    requires Ahead(source, j, text, after) && n <= |text|
    ensures Ahead(source, j + n, text[n..], after)
  {
    AheadIs(source, j, text, after);
    assert source[j..][n..] == source[j + n..];
    assert (text + after)[n..] == text[n..] + after;
  }

  lemma {:induction false} CommentStops(source: string, j: nat, text: string, after: string)
    requires Ahead(source, j, text + "*/", after) && NoEnd(text)
    ensures CommentEnd(source, j) == j + |text| + 2
    decreases |text|
  {
    var all := text + "*/";
    AheadIs(source, j, all, after);
    assert source[j] == all[0] && source[j + 1] == all[1];
    if text != "" {
      Behind(source, j, all, after, 1);
      assert all[1..] == text[1..] + "*/";
      assert !(all[0] == '*' && all[1] == '/');
      CommentStops(source, j + 1, text[1..], after);
    }
  }

  lemma {:induction false} StringStops(source: string, j: nat, text: string, quote: char, after: string)
    requires Ahead(source, j, text, after) && StringBody(text, quote) && quote != '\\'
    requires after != "" && after[0] == quote
    ensures StringEnd(source, j, quote) == j + |text|
    decreases |text|
  {
    AheadIs(source, j, text, after);
    if text != "" {
      assert source[j] == text[0];
      var n := if text[0] == '\\' then 2 else 1;
      Behind(source, j, text, after, n);
      StringStops(source, j + n, text[n..], quote, after);
    }
  }

  lemma {:induction false} TemplateStops(source: string, j: nat, text: string, after: string)
    requires Ahead(source, j, text, after) && TemplateBody(text)
    requires after != "" && (after[0] == '`' || (after[0] == '$' && Is(after, 1, '{')))
    ensures TemplateStop(source, j) == if after[0] == '`' then Closed(j + |text|) else Hole(j + |text|)
    decreases |text|
  {
    AheadIs(source, j, text, after);
    if text == "" {
      assert source[j..] == after;
      assert |after| > 1 ==> source[j + 1] == source[j..][1];
    } else {
      assert source[j] == text[0];
      var n := if text[0] == '\\' then 2 else 1;
      Behind(source, j, text, after, n);
      assert |text| == 1 ==> source[j + 1] == after[0];
      assert |text| > 1 ==> source[j + 1] == text[1];
      TemplateStops(source, j + n, text[n..], after);
    }
  }

  lemma {:induction false} RegexStops(source: string, j: nat, body: string, inClass: bool, after: string)
    requires Ahead(source, j, body, after) && RegexBody(body, inClass) && after != "" && after[0] == '/'
    ensures RegexEnd(source, j, inClass) == j + |body|
    decreases |body|
  {
    AheadIs(source, j, body, after);
    if body != "" {
      assert source[j] == body[0];
      var n := if body[0] == '\\' then 2 else 1;
      Behind(source, j, body, after, n);
      var then_ := if body[0] == '[' then true else if body[0] == ']' then false else inClass;
      RegexStops(source, j + n, body[n..], then_, after);
    }
  }

  lemma {:induction false} FlagsStop(source: string, j: nat, flags: string, after: string)
    requires Ahead(source, j + 1, flags, after) && AllLetters(flags) && (after == "" || !AsciiLetter(after[0]))
    ensures FlagsEnd(source, j) == j + |flags|
    decreases |flags|
  {
    AheadIs(source, j + 1, flags, after);
    if flags != "" {
      assert source[j + 1] == flags[0] && flags[0] in flags;
      Behind(source, j + 1, flags, after, 1);
      assert forall c <- flags[1..] :: c in flags;
      FlagsStop(source, j + 1, flags[1..], after);
    }
  }

  lemma {:induction false} WordStops(a: Alphabet, source: string, j: nat, limit: nat, text: string, after: string)
    requires Ahead(source, j, text, after) && AllWord(a, text) && j + |text| <= limit
    requires j + |text| == limit || after == "" || !WordPart(a, after[0])
    ensures WordEnd(a, source, j, limit) == j + |text|
    decreases |text|
  {
    AheadIs(source, j, text, after);
    if text != "" {
      assert source[j] == text[0] && text[0] in text;
      Behind(source, j, text, after, 1);
      assert forall c <- text[1..] :: c in text;
      WordStops(a, source, j + 1, limit, text[1..], after);
    }
  }

  lemma {:induction false} NumberStops(source: string, j: nat, limit: nat, text: string, after: string)
    requires Ahead(source, j, text, after) && AllNumber(text) && j + |text| <= limit
    requires j + |text| == limit || after == "" || !NumberPart(after[0])
    ensures NumberEnd(source, j, limit) == j + |text|
    decreases |text|
  {
    AheadIs(source, j, text, after);
    if text != "" {
      assert source[j] == text[0] && text[0] in text;
      Behind(source, j, text, after, 1);
      assert forall c <- text[1..] :: c in text;
      NumberStops(source, j + 1, limit, text[1..], after);
    }
  }

  // ---- Reading one item

  /** The state after reading some text that has these tokens. */
  function Past(s: State, text: string, tokens: seq<Token>): State {
    s.(out := s.out + tokens, line := s.line + Newlines(text), at := s.at + |text|)
  }

  lemma PastTwice(s: State, text: string, tokens: seq<Token>, more: string, others: seq<Token>)
    ensures Past(Past(s, text, tokens), more, others) == Past(s, text + more, tokens + others)
  {
    NewlinesJoin(text, more);
    assert (s.out + tokens) + others == s.out + (tokens + others);
  }

  lemma PastNothing(s: State, text: string)
    ensures Past(s, text, []) == s.(line := s.line + Newlines(text), at := s.at + |text|)
  {
    assert s.out + [] == s.out;
  }

  /** From a spelling to what follows it. */
  lemma Apart(source: string, at: nat, text: string, next: string, after: string)
    requires Ahead(source, at, text + next, after)
    ensures Ahead(source, at, text, next + after)
    ensures at + |text| <= |source| && Ahead(source, at + |text|, next, after)
  {
    assert (text + next) + after == text + (next + after);
    AheadIs(source, at, text, next + after);
  }

  lemma Here(source: string, at: nat, text: string, after: string)
    requires Ahead(source, at, text, after) && text != ""
    ensures at + |text| <= |source| && source[at] == text[0] && source[at..at + |text|] == text
    ensures |text| > 1 ==> source[at + 1] == text[1]
    ensures |text| == 1 && after != "" ==> source[at + 1] == after[0]
    ensures |text| == 1 && after == "" ==> at + 1 == |source|
    ensures Ahead(source, at + 1, text[1..], after)
  {
    AheadIs(source, at, text, after);
    Behind(source, at, text, after, 1);
  }

  lemma ReadBlank(a: Alphabet, s: State, source: string, c: char, after: string)
    requires Ahead(source, s.at, [c], after) && (c == '\n' || a.space(c))
    ensures s.at < |source| && Step(a, s, source) == Past(s, [c], [])
  {
    Here(source, s.at, [c], after);
    OneChar(c);
    PastNothing(s, [c]);
  }

  lemma ReadLineComment(a: Alphabet, s: State, source: string, all: string, after: string)
    requires Unicode(a) && Ahead(source, s.at, all, after)
    requires |all| >= 2 && all[0] == '/' && all[1] == '/' && OneLine(all) && (after == "" || after[0] == '\n')
    ensures s.at < |source| && Step(a, s, source) == Past(s, all, [])
  {
    Here(source, s.at, all, after);
    assert Special('/');
    LineStops(source, s.at, all, after);
    NoneIn(all);
    PastNothing(s, all);
  }

  lemma ReadBlockComment(a: Alphabet, s: State, source: string, text: string, all: string, after: string)
    requires Unicode(a) && Ahead(source, s.at, all, after)
    requires |all| >= 2 && all[0] == '/' && all[1] == '*' && all[2..] == text + "*/" && NoEnd(text)
    ensures s.at < |source| && Step(a, s, source) == Past(s, all, [])
  {
    Here(source, s.at, all, after);
    assert Special('/');
    Behind(source, s.at, all, after, 2);
    CommentStops(source, s.at + 2, text, after);
    SkipLines(s, source, s.at + |all|);
    PastNothing(s, all);
  }

  lemma WordIsOneLine(a: Alphabet, text: string)
    requires Sane(a) && AllWord(a, text)
    ensures Newlines(text) == 0
  {
    forall c | c in text ensures c != '\n' {
      assert WordPart(a, c);
    }
    NoneIn(text);
  }

  lemma StepWord(a: Alphabet, s: State, source: string, text: string)
    requires Unicode(a) && text != "" && s.at + |text| <= |source|
    requires source[s.at] == text[0] && source[s.at..s.at + |text|] == text && Newlines(text) == 0
    requires (WordStart(a, text[0]) && text[0] != '\n') || Digit(text[0])
    requires SpanEnd(a, s, source) == s.at + |text|
    ensures Step(a, s, source)
         == Past(s, text, [Token(if Digit(text[0]) then Value else Name, text, s.line)])
  {
    StepIsWord(a, s, source);
    WordValue(a, s, source, text);
  }

  lemma StepIsWord(a: Alphabet, s: State, source: string)
    requires Unicode(a) && s.at < |source|
    requires (WordStart(a, source[s.at]) && source[s.at] != '\n') || Digit(source[s.at])
    ensures Step(a, s, source) == Word(a, s, source, source[s.at])
  {
    var c := source[s.at];
    assert !Special(c) && c != '\n' && !a.space(c);
  }

  lemma WordValue(a: Alphabet, s: State, source: string, text: string)
    requires text != "" && s.at + |text| <= |source|
    requires source[s.at] == text[0] && source[s.at..s.at + |text|] == text && Newlines(text) == 0
    requires WordStart(a, text[0]) || Digit(text[0])
    requires SpanEnd(a, s, source) == s.at + |text|
    ensures Word(a, s, source, source[s.at])
         == Past(s, text, [Token(if Digit(text[0]) then Value else Name, text, s.line)])
  {
  }

  lemma ReadIdentifier(a: Alphabet, s: State, source: string, text: string, after: string)
    requires Unicode(a) && Ahead(source, s.at, text, after)
    requires 0 < |text| <= 256 && WordStart(a, text[0]) && !Digit(text[0]) && AllWord(a, text)
    requires |text| == 256 || after == "" || !WordPart(a, after[0])
    ensures s.at < |source| && Step(a, s, source) == Past(s, text, [Token(Name, text, s.line)])
  {
    Here(source, s.at, text, after);
    assert forall x <- text[1..] :: x in text;
    WordStops(a, source, s.at + 1, s.at + 256, text[1..], after);
    WordIsOneLine(a, text);
    StepWord(a, s, source, text);
  }

  lemma ReadNumber(a: Alphabet, s: State, source: string, text: string, after: string)
    requires Unicode(a) && Ahead(source, s.at, text, after)
    requires 0 < |text| <= 256 && Digit(text[0]) && AllNumber(text)
    requires |text| == 256 || after == "" || !NumberPart(after[0])
    ensures s.at < |source| && Step(a, s, source) == Past(s, text, [Token(Value, text, s.line)])
  {
    Here(source, s.at, text, after);
    assert forall x <- text[1..] :: x in text;
    NumberStops(source, s.at + 1, s.at + 256, text[1..], after);
    NumberIsOneLine(text);
    assert !WordStart(a, text[0]);
    StepWord(a, s, source, text);
  }

  lemma NumberIsOneLine(text: string)
    requires AllNumber(text)
    ensures Newlines(text) == 0
  {
    forall x | x in text ensures x != '\n' {
      assert NumberPart(x);
    }
    NoneIn(text);
  }

  lemma QuotedEnd(s: State, source: string, quote: char, text: string, all: string, after: string)
    requires |all| == |text| + 2 && all[1..] == text + [quote] && Ahead(source, s.at, all, after)
    requires quote != '\\' && StringBody(text, quote)
    ensures StringEnd(source, s.at + 1, quote) == s.at + 1 + |text| < |source|
    ensures Clip(source, s.at + 1, s.at + 1 + |text|) == text
  {
    Here(source, s.at, all, after);
    Apart(source, s.at + 1, text, [quote], after);
    StringStops(source, s.at + 1, text, quote, [quote] + after);
    AheadIs(source, s.at + 1, text, [quote] + after);
  }

  lemma StepQuoted(a: Alphabet, s: State, source: string, quote: char, text: string, end: nat)
    requires Unicode(a) && s.at < end <= |source| && source[s.at] == quote && (quote == '"' || quote == '\'')
    requires StringEnd(source, s.at + 1, quote) + 1 == end && Clip(source, s.at + 1, end - 1) == text
    ensures Step(a, s, source)
         == s.(out := s.out + [Token(Str, text, s.line)], line := s.line + Newlines(source[s.at..end]), at := end)
  {
    assert Special(quote);
    SkipLines(Emit(s, Str, text), source, end);
  }

  lemma ReadQuoted(a: Alphabet, s: State, source: string, quote: char, text: string, all: string, after: string)
    requires Unicode(a) && Ahead(source, s.at, all, after)
    requires |all| == |text| + 2 && all[0] == quote && all[1..] == text + [quote]
    requires (quote == '"' || quote == '\'') && StringBody(text, quote)
    ensures s.at < |source| && Step(a, s, source) == Past(s, all, [Token(Str, text, s.line)])
  {
    Here(source, s.at, all, after);
    QuotedEnd(s, source, quote, text, all, after);
    StepQuoted(a, s, source, quote, text, s.at + |all|);
  }

  lemma RegexEnds(at: nat, source: string, body: string, behind: string, after: string)
    requires Ahead(source, at, body + behind, after) && behind != "" && behind[0] == '/' && RegexBody(body, false)
    ensures RegexEnd(source, at, false) == at + |body|
    ensures Ahead(source, at + |body| + 1, behind[1..], after)
  {
    Apart(source, at, body, behind, after);
    Behind(source, at + |body|, behind, after, 1);
    RegexStop(at, source, body, behind + after);
  }

  lemma RegexStop(at: nat, source: string, body: string, after: string)
    requires Ahead(source, at, body, after) && after != "" && after[0] == '/' && RegexBody(body, false)
    ensures RegexEnd(source, at, false) == at + |body|
  {
    RegexStops(source, at, body, false, after);
  }

  lemma RegexValue(s: State, source: string, end: nat)
    requires s.at < end <= |source| && FlagsEnd(source, RegexEnd(source, s.at + 1, false)) + 1 == end
    ensures LexRegex(s, source)
         == s.(out := s.out + [Token(Value, "/regex/", s.line)], line := s.line + Newlines(source[s.at..end]),
             at := end)
  {
    SkipLines(Emit(s, Value, "/regex/"), source, end);
  }

  lemma StepRegex(a: Alphabet, s: State, source: string)
    requires Unicode(a) && s.at + 1 < |source| && source[s.at] == '/' && RegexAllowed(s.out)
    requires source[s.at + 1] != '/' && source[s.at + 1] != '*'
    ensures Step(a, s, source) == LexRegex(s, source)
  {
    assert Special('/');
    assert Step(a, s, source) == Lex(a, s, source, '/');
  }

  lemma RegexFacts(at: nat, source: string, body: string, flags: string, all: string, after: string)
    requires Ahead(source, at, all, after) && |all| == |body| + |flags| + 2 && all[0] == '/'
    requires all[1..] == body + (['/'] + flags) && body != "" && RegexBody(body, false)
    requires AllLetters(flags) && (after == "" || !AsciiLetter(after[0]))
    ensures at + |all| <= |source| && source[at] == '/' && source[at + 1] == body[0]
    ensures FlagsEnd(source, RegexEnd(source, at + 1, false)) + 1 == at + |all|
    ensures source[at..at + |all|] == all
  {
    Here(source, at, all, after);
    assert all[1] == all[1..][0] == body[0];
    RegexEnds(at + 1, source, body, ['/'] + flags, after);
    assert (['/'] + flags)[1..] == flags;
    FlagsStop(source, at + 1 + |body|, flags, after);
  }

  lemma ReadRegex(a: Alphabet, s: State, source: string, body: string, flags: string, all: string, after: string)
    requires Unicode(a) && Ahead(source, s.at, all, after) && RegexAllowed(s.out)
    requires |all| == |body| + |flags| + 2 && all[0] == '/'
    requires all[1..] == body + (['/'] + flags)
    requires body != "" && body[0] != '/' && body[0] != '*' && RegexBody(body, false)
    requires AllLetters(flags) && (after == "" || !AsciiLetter(after[0]))
    ensures s.at < |source| && Step(a, s, source) == Past(s, all, [Token(Value, "/regex/", s.line)])
  {
    RegexFacts(s.at, source, body, flags, all, after);
    PlainRegex(a, s, source, all);
  }

  lemma RegexPast(s: State, source: string, all: string)
    requires |all| > 1 && s.at + |all| <= |source| && source[s.at..s.at + |all|] == all
    requires FlagsEnd(source, RegexEnd(source, s.at + 1, false)) + 1 == s.at + |all|
    ensures LexRegex(s, source) == Past(s, all, [Token(Value, "/regex/", s.line)])
  {
    RegexValue(s, source, s.at + |all|);
  }

  lemma PlainRegex(a: Alphabet, s: State, source: string, all: string)
    requires Unicode(a) && |all| > 1 && s.at + |all| <= |source| && RegexAllowed(s.out)
    requires source[s.at] == '/' && source[s.at + 1] != '/' && source[s.at + 1] != '*'
    requires FlagsEnd(source, RegexEnd(source, s.at + 1, false)) + 1 == s.at + |all|
    requires source[s.at..s.at + |all|] == all
    ensures Step(a, s, source) == Past(s, all, [Token(Value, "/regex/", s.line)])
  {
    RegexPast(s, source, all);
    StepRegex(a, s, source);
  }

  lemma ReadSign(a: Alphabet, s: State, source: string, c: char, after: string)
    requires Ahead(source, s.at, [c], after)
    requires c != '\n' && !a.space(c) && !WordStart(a, c) && !Digit(c) && (Special(c) ==> c == '/')
    requires c == '/' ==> !RegexAllowed(s.out) && (after == "" || (after[0] != '/' && after[0] != '*'))
    ensures s.at < |source| && Step(a, s, source) == Past(s, [c], [Token(Punct, [c], s.line)])
  {
    Here(source, s.at, [c], after);
    OneChar(c);
  }

  /** An opening brace, one deeper. */
  lemma StepOpen(a: Alphabet, s: State, source: string, after: string)
    requires Unicode(a) && Ahead(source, s.at, ['{'], after)
    ensures s.at < |source|
    ensures Step(a, s, source) == Past(s, ['{'], [Token(Punct, ['{'], s.line)]).(depth := s.depth + 1)
  {
    Here(source, s.at, ['{'], after);
    assert Special('{');
    OneChar('{');
  }

  /** A closing brace that belongs to no template. */
  lemma StepClose(a: Alphabet, s: State, source: string, after: string)
    requires Unicode(a) && Ahead(source, s.at, ['}'], after) && !Returns(s)
    ensures s.at < |source|
    ensures Step(a, s, source) == Past(s, ['}'], [Token(Punct, ['}'], s.line)]).(depth := s.depth - 1)
  {
    Here(source, s.at, ['}'], after);
    assert Special('}');
    OneChar('}');
  }

  /** The brace that ends a substitution returns to its template. */
  lemma StepReturn(a: Alphabet, s: State, source: string, after: string)
    requires Unicode(a) && Ahead(source, s.at, ['}'], after) && Returns(s)
    ensures s.at < |source|
    ensures Step(a, s, source)
         == TemplateText(Past(CloseHole(s), ['}'], [Token(Punct, ")", s.line)]), source)
  {
    Here(source, s.at, ['}'], after);
    assert Special('}');
    OneChar('}');
  }

  lemma StepTemplate(a: Alphabet, s: State, source: string, after: string)
    requires Unicode(a) && Ahead(source, s.at, ['`'], after)
    ensures s.at < |source| && Step(a, s, source) == TemplateText(Past(s, ['`'], []), source)
  {
    Here(source, s.at, ['`'], after);
    assert Special('`');
    OneChar('`');
    PastNothing(s, ['`']);
  }

  lemma EndFacts(text: string, at: nat, source: string, after: string)
    requires Ahead(source, at, text, ['`'] + after) && TemplateBody(text)
    ensures TemplateStop(source, at) == Closed(at + |text|) && at + |text| + 1 <= |source|
    ensures Newlines(source[at..at + |text| + 1]) == Newlines(text + ['`'])
  {
    TemplateStops(source, at, text, ['`'] + after);
    AheadIs(source, at, text, ['`'] + after);
    assert source[at..at + |text| + 1] == text + ['`'];
  }

  lemma NoLineEndHere(text: string)
    ensures Newlines(text + ['`']) == Newlines(text)
  {
    NewlinesJoin(text, ['`']);
    OneChar('`');
  }

  /** Template text up to its backtick. */
  lemma ReadEnd(text: string, s: State, source: string, after: string)
    requires Ahead(source, s.at, text + ['`'], after) && TemplateBody(text)
    ensures TemplateText(s, source) == Past(s, text + ['`'], [Token(Value, "`", s.line + Newlines(text))])
  {
    Apart(source, s.at, text, ['`'], after);
    EndFacts(text, s.at, source, after);
    NoLineEndHere(text);
    SkipLines(s, source, s.at + |text| + 1);
  }

  lemma HoleFacts(text: string, open: string, at: nat, source: string, after: string)
    requires |open| == 2 && open[0] == '$' && open[1] == '{'
    requires Ahead(source, at, text, open + after) && TemplateBody(text)
    ensures TemplateStop(source, at) == Hole(at + |text|)
    ensures at + |text| + 2 <= |source| && Newlines(source[at..at + |text| + 2]) == Newlines(text)
  {
    var next := open + after;
    assert next[0] == '$' && Is(next, 1, '{');
    TemplateStops(source, at, text, next);
    OpenedText(text, open, at, source, after);
  }

  lemma OpenedText(text: string, open: string, at: nat, source: string, after: string)
    requires |open| == 2 && OneLine(open) && Ahead(source, at, text, open + after)
    ensures at + |text| + 2 <= |source| && Newlines(source[at..at + |text| + 2]) == Newlines(text)
  {
    var all := text + open;
    assert all + after == text + (open + after);
    AheadIs(source, at, all, after);
    NewlinesJoin(text, open);
    NoneIn(open);
  }

  /** Template text up to a substitution. */
  lemma ReadHole(text: string, open: string, s: State, source: string, after: string)
    requires |open| == 2 && open[0] == '$' && open[1] == '{'
    requires Ahead(source, s.at, text, open + after) && TemplateBody(text)
    ensures TemplateText(s, source)
         == OpenHole(Past(Past(s, text, []), open, [Token(Punct, "(", s.line + Newlines(text))]))
    ensures Newlines(open) == 0
  {
    HoleFacts(text, open, s.at, source, after);
    NoneIn(open);
    PastNothing(s, text);
    SkipLines(s, source, s.at + |text| + 2);
  }

  /** An item with no items inside takes one turn. */
  lemma ReadLeaf(a: Alphabet, item: Item, s: State, source: string, after: string)
    requires Unicode(a) && Ahead(source, s.at, Spell(item), after) && !item.Block? && !item.Template?
    requires Fits(a, item, s.out, s.line, after)
    ensures s.at < |source| && Step(a, s, source) == Past(s, Spell(item), TokensOf(item, s.line))
  {
    var all := Spell(item);
    match item {
      case Blank(c) => ReadBlank(a, s, source, c, after);
      case LineComment(text) => LineCommentText(text, all); ReadLineComment(a, s, source, all, after);
      case BlockComment(text) => BlockCommentText(text, all); ReadBlockComment(a, s, source, text, all, after);
      case Identifier(text) => ReadIdentifier(a, s, source, text, after);
      case Number(text) => ReadNumber(a, s, source, text, after);
      case Quoted(quote, text) => QuotedText(quote, text, all); ReadQuoted(a, s, source, quote, text, all, after);
      case Regex(body, flags) => RegexText(body, flags, all); ReadRegex(a, s, source, body, flags, all, after);
      case Sign(c) => ReadSign(a, s, source, c, after);
    }
  }

  lemma LineCommentText(text: string, all: string)
    requires all == "//" + text && OneLine(text)
    ensures |all| >= 2 && all[0] == '/' && all[1] == '/' && OneLine(all)
  {
  }

  lemma BlockCommentText(text: string, all: string)
    requires all == "/*" + text + "*/"
    ensures |all| >= 2 && all[0] == '/' && all[1] == '*' && all[2..] == text + "*/"
  {
  }

  lemma QuotedText(quote: char, text: string, all: string)
    requires all == [quote] + text + [quote]
    ensures |all| == |text| + 2 && all[0] == quote && all[1..] == text + [quote]
  {
  }

  lemma RegexText(body: string, flags: string, all: string)
    requires all == "/" + body + "/" + flags
    ensures |all| == |body| + |flags| + 2 && all[0] == '/'
    ensures all[1..] == body + (['/'] + flags)
  {
  }

  // ---- Reading nested items

  /** A turn of the loop, the scan of template text and what is ahead, held apart from what they
      are: the proofs below never look inside. */
  datatype Reader = Reader(turn: State -> State, scan: State -> State, ahead: (nat, string, string) -> bool)

  ghost predicate Reads(r: Reader, a: Alphabet, source: string) {
    && (forall s: State {:trigger Step(a, s, source)} :: s.at < |source| ==> r.turn(s) == Step(a, s, source))
    && (forall s: State {:trigger TemplateText(s, source)} :: r.scan(s) == TemplateText(s, source))
    && (forall at: nat, text, after {:trigger Ahead(source, at, text, after)} ::
          r.ahead(at, text, after) == Ahead(source, at, text, after))
  }

  ghost function ReaderOf(a: Alphabet, source: string): (r: Reader)
    ensures Reads(r, a, source)
  {
    Reader((s: State) => if s.at < |source| then Step(a, s, source) else s,
           (s: State) => TemplateText(s, source),
           (at: nat, text: string, after: string) => Ahead(source, at, text, after))
  }

  function Final(r: Reader, source: string, s: State): State
    decreases |source| - s.at
  {
    if s.at < |source| && r.turn(s).at > s.at then Final(r, source, r.turn(s)) else s
  }

  lemma OneTurn(r: Reader, a: Alphabet, s: State, source: string, t: State)
    requires Reads(r, a, source) && s.at < |source| && Step(a, s, source) == t
    ensures Final(r, source, s) == Final(r, source, t)
  {
    StepMoves(a, s, source);
  }

  lemma {:induction false} FinalIsRun(r: Reader, a: Alphabet, s: State, source: string)
    requires Reads(r, a, source)
    ensures Final(r, source, s) == Run(a, s, source)
    decreases |source| - s.at
  {
    if s.at < |source| {
      StepMoves(a, s, source);
      FinalIsRun(r, a, Step(a, s, source), source);
    }
  }

  lemma Then(r: Reader, a: Alphabet, source: string, at: nat, text: string, next: string, after: string)
    requires Reads(r, a, source) && r.ahead(at, text + next, after)
    ensures r.ahead(at, text, next + after) && r.ahead(at + |text|, next, after)
  {
    assert Ahead(source, at, text + next, after);
    Apart(source, at, text, next, after);
    assert Ahead(source, at, text, next + after) && Ahead(source, at + |text|, next, after);
  }

  lemma TurnLeaf(r: Reader, a: Alphabet, item: Item, s: State, source: string, after: string)
    requires Reads(r, a, source) && Unicode(a) && r.ahead(s.at, Spell(item), after)
    requires !item.Block? && !item.Template? && Fits(a, item, s.out, s.line, after)
    ensures Final(r, source, s) == Final(r, source, Past(s, Spell(item), TokensOf(item, s.line)))
  {
    assert Ahead(source, s.at, Spell(item), after);
    ReadLeaf(a, item, s, source, after);
    OneTurn(r, a, s, source, Past(s, Spell(item), TokensOf(item, s.line)));
  }

  lemma TurnOpen(r: Reader, a: Alphabet, s: State, source: string, after: string)
    requires Reads(r, a, source) && Unicode(a) && r.ahead(s.at, ['{'], after)
    ensures Final(r, source, s)
         == Final(r, source, Past(s, ['{'], [Token(Punct, ['{'], s.line)]).(depth := s.depth + 1))
  {
    assert Ahead(source, s.at, ['{'], after);
    StepOpen(a, s, source, after);
    OneTurn(r, a, s, source, Past(s, ['{'], [Token(Punct, ['{'], s.line)]).(depth := s.depth + 1));
  }

  lemma TurnClose(r: Reader, a: Alphabet, s: State, source: string, after: string)
    requires Reads(r, a, source) && Unicode(a) && r.ahead(s.at, ['}'], after) && !Returns(s)
    ensures Final(r, source, s)
         == Final(r, source, Past(s, ['}'], [Token(Punct, ['}'], s.line)]).(depth := s.depth - 1))
  {
    assert Ahead(source, s.at, ['}'], after);
    StepClose(a, s, source, after);
    OneTurn(r, a, s, source, Past(s, ['}'], [Token(Punct, ['}'], s.line)]).(depth := s.depth - 1));
  }

  lemma TurnTemplate(r: Reader, a: Alphabet, s: State, source: string, after: string)
    requires Reads(r, a, source) && Unicode(a) && r.ahead(s.at, ['`'], after)
    ensures Final(r, source, s) == Final(r, source, r.scan(Past(s, ['`'], [])))
  {
    assert Ahead(source, s.at, ['`'], after);
    StepTemplate(a, s, source, after);
    OneTurn(r, a, s, source, TemplateText(Past(s, ['`'], []), source));
  }

  lemma TurnReturn(r: Reader, a: Alphabet, s: State, source: string, after: string)
    requires Reads(r, a, source) && Unicode(a) && r.ahead(s.at, ['}'], after) && Returns(s)
    ensures Final(r, source, s)
         == Final(r, source, r.scan(Past(CloseHole(s), ['}'], [Token(Punct, ")", s.line)])))
  {
    assert Ahead(source, s.at, ['}'], after);
    StepReturn(a, s, source, after);
    OneTurn(r, a, s, source, TemplateText(Past(CloseHole(s), ['}'], [Token(Punct, ")", s.line)]), source));
  }

  lemma ScanEnd(r: Reader, a: Alphabet, text: string, s: State, source: string, after: string)
    requires Reads(r, a, source) && r.ahead(s.at, text + ['`'], after) && TemplateBody(text)
    ensures r.scan(s) == Past(s, text + ['`'], [Token(Value, "`", s.line + Newlines(text))])
  {
    assert Ahead(source, s.at, text + ['`'], after);
    ReadEnd(text, s, source, after);
  }

  lemma ScanHole(r: Reader, a: Alphabet, text: string, open: string, s: State, source: string, after: string)
    requires Reads(r, a, source) && |open| == 2 && open[0] == '$' && open[1] == '{'
    requires r.ahead(s.at, text, open + after) && TemplateBody(text)
    ensures r.scan(s) == OpenHole(Past(Past(s, text, []), open, [Token(Punct, "(", s.line + Newlines(text))]))
    ensures Newlines(open) == 0
  {
    assert Ahead(source, s.at, text, open + after);
    ReadHole(text, open, s, source, after);
  }

  /** Items read back as their tokens, wherever they stand. */
  lemma {:induction false} ReadAll(r: Reader, a: Alphabet, items: Items, s: State, source: string, after: string)
    requires Reads(r, a, source) && Unicode(a) && Nesting(s) && r.ahead(s.at, SpellAll(items), after)
    requires FitsAll(a, items, s.out, s.line, after)
    ensures Final(r, source, s) == Final(r, source, Past(s, SpellAll(items), TokensOfAll(items, s.line)))
    decreases items, 0
  {
    if items.Nil? {
      PastNothing(s, "");
    } else {
      var text, tokens, tail := Spell(items.first), TokensOf(items.first, s.line), SpellAll(items.rest);
      Then(r, a, source, s.at, text, tail, after);
      Read(r, a, items.first, s, source, tail + after);
      var t := Past(s, text, tokens);
      ReadAll(r, a, items.rest, t, source, after);
      PastTwice(s, text, tokens, tail, TokensOfAll(items.rest, t.line));
    }
  }

  lemma {:induction false} Read(r: Reader, a: Alphabet, item: Item, s: State, source: string, after: string)
    requires Reads(r, a, source) && Unicode(a) && Nesting(s) && r.ahead(s.at, Spell(item), after)
    requires Fits(a, item, s.out, s.line, after)
    ensures Final(r, source, s) == Final(r, source, Past(s, Spell(item), TokensOf(item, s.line)))
    decreases item, 0
  {
    match item {
      case Block(items) => ReadBlock(r, a, items, s, source, after);
      case Template(text, holes) => ReadTemplate(r, a, text, holes, s, source, after);
      case _ => TurnLeaf(r, a, item, s, source, after);
    }
  }

  lemma {:induction false} ReadBlock(r: Reader, a: Alphabet, items: Items, s: State, source: string, after: string)
    requires Reads(r, a, source) && Unicode(a) && Nesting(s)
    requires r.ahead(s.at, ['{'] + (SpellAll(items) + ['}']), after)
    requires FitsAll(a, items, s.out + [Token(Punct, ['{'], s.line)], s.line, ['}'] + after)
    ensures Final(r, source, s)
         == Final(r, source, Past(s, ['{'] + (SpellAll(items) + ['}']), TokensOf(Block(items), s.line)))
    decreases items, 1
  {
    var inner, tokens := SpellAll(items), TokensOfAll(items, s.line);
    Then(r, a, source, s.at, ['{'], inner + ['}'], after);
    TurnOpen(r, a, s, source, (inner + ['}']) + after);
    OneChar('{');
    var opener := [Token(Punct, ['{'], s.line)];
    var t := Past(s, ['{'], opener).(depth := s.depth + 1);
    Then(r, a, source, t.at, inner, ['}'], after);
    ReadAll(r, a, items, t, source, ['}'] + after);
    CloseBlock(r, a, s, inner, opener, tokens, source, after);
  }

  lemma CloseBlock(r: Reader, a: Alphabet, s: State, inner: string, opener: seq<Token>, tokens: seq<Token>,
                   source: string, after: string)
    requires Reads(r, a, source) && Unicode(a) && Nesting(s) && r.ahead(s.at + 1 + |inner|, ['}'], after)
    ensures Final(r, source, Past(Past(s, ['{'], opener).(depth := s.depth + 1), inner, tokens))
         == Final(r, source, Past(s, ['{'] + (inner + ['}']),
                                  opener + (tokens + [Token(Punct, ['}'], s.line + Newlines(inner))])))
  {
    OneChar('{');
    TurnClose(r, a, Past(Past(s, ['{'], opener).(depth := s.depth + 1), inner, tokens), source, after);
    BlockPast(s, inner, opener, tokens, [Token(Punct, ['}'], s.line + Newlines(inner))]);
  }

  lemma BlockPast(s: State, inner: string, opener: seq<Token>, tokens: seq<Token>, closer: seq<Token>)
    ensures Past(Past(Past(s, ['{'], opener).(depth := s.depth + 1), inner, tokens), ['}'], closer).(depth := s.depth)
         == Past(s, ['{'] + (inner + ['}']), opener + (tokens + closer))
  {
    PastTwice(Past(s, ['{'], opener), inner, tokens, ['}'], closer);
    PastTwice(s, ['{'], opener, inner + ['}'], tokens + closer);
  }

  lemma {:induction false} ReadTemplate(r: Reader, a: Alphabet, text: string, holes: Holes, s: State, source: string,
        after: string)
    requires Reads(r, a, source) && Unicode(a) && Nesting(s)
    requires r.ahead(s.at, ['`'] + (text + SpellHoles(holes)), after)
    requires TemplateBody(text) && FitsHoles(a, holes, s.out, s.line + Newlines(text), after)
    ensures Final(r, source, s)
         == Final(r, source, Past(s, ['`'] + (text + SpellHoles(holes)), TokensOfHoles(holes, s.line + Newlines(text))))
    decreases holes, 3
  {
    var rest, tokens := text + SpellHoles(holes), TokensOfHoles(holes, s.line + Newlines(text));
    Then(r, a, source, s.at, ['`'], rest, after);
    TurnTemplate(r, a, s, source, rest + after);
    OneChar('`');
    PastNothing(s, ['`']);
    ReadHoles(r, a, text, holes, Past(s, ['`'], []), source, after);
    PastTwice(s, ['`'], [], rest, tokens);
    assert [] + tokens == tokens;
  }

  /** The text of a template from here to its end, substitutions included. */
  lemma {:induction false} ReadHoles(r: Reader, a: Alphabet, text: string, holes: Holes, s: State, source: string,
        after: string)
    requires Reads(r, a, source) && Unicode(a) && Nesting(s)
    requires r.ahead(s.at, text + SpellHoles(holes), after)
    requires TemplateBody(text) && FitsHoles(a, holes, s.out, s.line + Newlines(text), after)
    ensures Final(r, source, r.scan(s))
         == Final(r, source, Past(s, text + SpellHoles(holes), TokensOfHoles(holes, s.line + Newlines(text))))
    decreases holes, 2
  {
    if holes.Done? {
      ScanEnd(r, a, text, s, source, after);
    } else {
      var q := Past(s, text, []);
      PastNothing(s, text);
      Then(r, a, source, s.at, text, SpellHoles(holes), after);
      ReadSub(r, a, text, holes, s, q, source, after);
      PastTwice(s, text, [], SpellHoles(holes), TokensOfHoles(holes, q.line));
      assert [] + TokensOfHoles(holes, q.line) == TokensOfHoles(holes, q.line);
    }
  }

  /** A substitution and the rest of its template, from the end of the text before it. */
  lemma {:induction false} ReadSub(r: Reader, a: Alphabet, text: string, holes: Holes, s: State, q: State,
                                   source: string, after: string)
    requires Reads(r, a, source) && holes.Sub? && Unicode(a) && Nesting(s)
    requires r.ahead(s.at, text, SpellHoles(holes) + after) && r.ahead(q.at, SpellHoles(holes), after)
    requires TemplateBody(text) && q == Past(s, text, []) && q.out == s.out && FitsHoles(a, holes, q.out, q.line, after)
    ensures Final(r, source, r.scan(s)) == Final(r, source, Past(q, SpellHoles(holes), TokensOfHoles(holes, q.line)))
    decreases holes, 1
  {
    var inner, tail := SpellAll(holes.items), holes.text + SpellHoles(holes.more);
    var p := EnterHole(r, a, text, inner + (['}'] + tail), s, q, source, after);
    Then(r, a, source, p.at, inner, ['}'] + tail, after);
    ReadAll(r, a, holes.items, OpenHole(p), source, (['}'] + tail) + after);
    Then(r, a, source, p.at + |inner|, ['}'], tail, after);
    var v := LeaveHole(r, a, p, inner, TokensOfAll(holes.items, q.line), source, tail + after);
    ReadAfter(r, a, holes, q, v, source, after);
  }

  lemma EnterHole(r: Reader, a: Alphabet, text: string, rest: string, s: State, q: State, source: string, after: string)
    returns (p: State)
    requires Reads(r, a, source) && TemplateBody(text) && Nesting(s) && q == Past(s, text, [])
    requires r.ahead(s.at, text, (['$', '{'] + rest) + after) && r.ahead(q.at, ['$', '{'] + rest, after)
    ensures p == Past(q, ['$', '{'], [Token(Punct, "(", q.line)]) && p.line == q.line
    ensures r.scan(s) == OpenHole(p) && Nesting(OpenHole(p))
    ensures r.ahead(p.at, rest, after)
  {
    var open := ['$', '{'];
    p := Past(q, open, [Token(Punct, "(", q.line)]);
    Then(r, a, source, q.at, open, rest, after);
    assert (open + rest) + after == open + (rest + after);
    ScanHole(r, a, text, open, s, source, rest + after);
  }

  /** The state back in the template, after a substitution. */
  function AfterSub(holes: Holes, q: State): State
    requires holes.Sub?
  {
    var inner := SpellAll(holes.items);
    Past(Past(Past(q, ['$', '{'], [Token(Punct, "(", q.line)]), inner, TokensOfAll(holes.items, q.line)),
         ['}'], [Token(Punct, ")", q.line + Newlines(inner))])
  }

  /** The rest of a template, from the end of a substitution. */
  lemma {:induction false} ReadAfter(r: Reader, a: Alphabet, holes: Holes, q: State, v: State, source: string,
        after: string)
    requires Reads(r, a, source) && holes.Sub? && Unicode(a) && Nesting(v)
    requires v == AfterSub(holes, q) && v.line == q.line + Newlines(SpellAll(holes.items))
    requires r.ahead(v.at, holes.text + SpellHoles(holes.more), after) && FitsHoles(a, holes, q.out, q.line, after)
    ensures Final(r, source, r.scan(v)) == Final(r, source, Past(q, SpellHoles(holes), TokensOfHoles(holes, q.line)))
    decreases holes, 0
  {
    ReadHoles(r, a, holes.text, holes.more, v, source, after);
    AfterSubPast(holes, q, v);
  }

  lemma AfterSubPast(holes: Holes, q: State, v: State)
    requires holes.Sub? && v == AfterSub(holes, q) && v.line == q.line + Newlines(SpellAll(holes.items))
    ensures Past(v, holes.text + SpellHoles(holes.more), TokensOfHoles(holes.more, v.line + Newlines(holes.text)))
         == Past(q, SpellHoles(holes), TokensOfHoles(holes, q.line))
  {
    var opener, closer := [Token(Punct, "(", q.line)], [Token(Punct, ")", v.line)];
    var others := TokensOfHoles(holes.more, v.line + Newlines(holes.text));
    SubPast(q, SpellAll(holes.items), holes.text + SpellHoles(holes.more), opener, TokensOfAll(holes.items, q.line),
            closer, others);
    SubTokens(holes, q.line, v.line, opener, closer, others);
  }

  lemma SubTokens(holes: Holes, line: nat, end: nat, opener: seq<Token>, closer: seq<Token>, others: seq<Token>)
    requires holes.Sub? && end == line + Newlines(SpellAll(holes.items))
    requires opener == [Token(Punct, "(", line)] && closer == [Token(Punct, ")", end)]
    requires others == TokensOfHoles(holes.more, end + Newlines(holes.text))
    ensures TokensOfHoles(holes, line) == opener + (TokensOfAll(holes.items, line) + (closer + others))
  {
  }

  lemma LeaveHole(r: Reader, a: Alphabet, p: State, inner: string, tokens: seq<Token>, source: string, after: string)
    returns (v: State)
    requires Reads(r, a, source) && Unicode(a) && r.ahead(p.at + |inner|, ['}'], after)
    ensures v == Past(Past(p, inner, tokens), ['}'], [Token(Punct, ")", p.line + Newlines(inner))])
    ensures v.line == p.line + Newlines(inner)
    ensures Final(r, source, Past(OpenHole(p), inner, tokens)) == Final(r, source, r.scan(v))
  {
    var u := Past(OpenHole(p), inner, tokens);
    v := Past(Past(p, inner, tokens), ['}'], [Token(Punct, ")", p.line + Newlines(inner))]);
    assert CloseHole(u) == Past(p, inner, tokens);
    TurnReturn(r, a, u, source, after);
    OneChar('}');
  }

  lemma SubPast(q: State, inner: string, tail: string,
                opener: seq<Token>, tokens: seq<Token>, closer: seq<Token>, others: seq<Token>)
    ensures Past(Past(Past(Past(q, ['$', '{'], opener), inner, tokens), ['}'], closer), tail, others)
         == Past(q, ['$', '{'] + (inner + (['}'] + tail)), opener + (tokens + (closer + others)))
  {
    var p := Past(q, ['$', '{'], opener);
    PastTwice(Past(p, inner, tokens), ['}'], closer, tail, others);
    PastTwice(p, inner, tokens, ['}'] + tail, closer + others);
    PastTwice(q, ['$', '{'], opener, inner + (['}'] + tail), tokens + (closer + others));
  }

  /** The tokens of a spelled program are the program's. */
  lemma RoundTrip(a: Alphabet, items: Items)
    requires Unicode(a) && FitsAll(a, items, [], 1, "")
    ensures Tokens(a, SpellAll(items)) == TokensOfAll(items, 1)
  {
    var source := SpellAll(items);
    var r := ReaderOf(a, source);
    assert source[0..] == source + "";
    assert Ahead(source, 0, source, "");
    ReadAll(r, a, items, START, source, "");
    FinalIsRun(r, a, START, source);
    FinalIsRun(r, a, Past(START, source, TokensOfAll(items, 1)), source);
    assert [] + TokensOfAll(items, 1) == TokensOfAll(items, 1);
  }
}
