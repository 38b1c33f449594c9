/** Short pieces of source put together from plain words, signs and spaces, and their tokens. */
module PlainSource {
  import opened Lexer
  import opened LexerRoundTrip
  import opened NestedTick

  predicate SignChar(c: char) {
    c == '(' || c == ')' || c == '<' || c == '>' || c == '=' || c == '+' || c == ':' || c == ';' || c == '.'
  }

  /** What holds of the Unicode classes on plain text. */
  ghost predicate Ascii(a: Alphabet) {
    && (forall c :: AsciiLetter(c) ==> a.letter(c))
    && (forall c :: SignChar(c) ==> !WordPart(a, c) && !a.space(c))
    && a.space(' ') && !WordPart(a, ' ')
  }

  lemma SignTokens(c: char, rest: Items, line: nat)
    requires c != '\n'
    ensures TokensOfAll(Cons(Sign(c), rest), line) == [Token(Punct, [c], line)] + TokensOfAll(rest, line)
    ensures SpellAll(Cons(Sign(c), rest)) == [c] + SpellAll(rest)
  {
    OneChar(c);
  }

  lemma FitsSign(a: Alphabet, c: char, rest: Items, out: seq<Token>, line: nat, after: string)
    requires Ascii(a) && SignChar(c) && FitsAll(a, rest, out + [Token(Punct, [c], line)], line, after)
    ensures FitsAll(a, Cons(Sign(c), rest), out, line, after)
  {
    OneChar(c);
  }

  lemma BlankTokens(rest: Items, line: nat)
    ensures TokensOfAll(Cons(Blank(' '), rest), line) == TokensOfAll(rest, line)
    ensures SpellAll(Cons(Blank(' '), rest)) == [' '] + SpellAll(rest)
  {
    OneChar(' ');
    assert [] + TokensOfAll(rest, line) == TokensOfAll(rest, line);
  }

  lemma FitsBlank(a: Alphabet, rest: Items, out: seq<Token>, line: nat, after: string)
    requires Ascii(a) && FitsAll(a, rest, out, line, after)
    ensures FitsAll(a, Cons(Blank(' '), rest), out, line, after)
  {
    OneChar(' ');
    assert out + [] == out;
  }

  lemma WordTokens(text: string, rest: Items, line: nat)
    requires OneLine(text)
    ensures TokensOfAll(Cons(Identifier(text), rest), line) == [Token(Name, text, line)] + TokensOfAll(rest, line)
    ensures SpellAll(Cons(Identifier(text), rest)) == text + SpellAll(rest)
  {
    NoneIn(text);
  }

  /** A short word of letters, with a sign or a space behind it or at the end. */
  lemma FitsWord(a: Alphabet, text: string, rest: Items, out: seq<Token>, line: nat, after: string)
    requires Ascii(a) && AllLetters(text) && 0 < |text| <= 256
    requires var behind := SpellAll(rest) + after; behind == "" || SignChar(behind[0]) || behind[0] == ' '
    requires FitsAll(a, rest, out + [Token(Name, text, line)], line, after)
    ensures FitsAll(a, Cons(Identifier(text), rest), out, line, after)
  {
    LettersFit(a, text);
    NoneIn(text);
  }

  lemma LettersFit(a: Alphabet, text: string)
    requires Ascii(a) && AllLetters(text) && text != ""
    ensures WordStart(a, text[0]) && !Digit(text[0]) && AllWord(a, text) && OneLine(text)
  {
    assert text[0] in text;
  }

  function Pair(c: char, d: char, rest: Items): Items { Cons(Sign(c), Cons(Sign(d), rest)) }

  function PairList(c: char, d: char, line: nat): seq<Token> { [Token(Punct, [c], line), Token(Punct, [d], line)] }

  lemma PairTokens(c: char, d: char, rest: Items, line: nat)
    requires c != '\n' && d != '\n'
    ensures TokensOfAll(Pair(c, d, rest), line) == PairList(c, d, line) + TokensOfAll(rest, line)
    ensures SpellAll(Pair(c, d, rest)) == [c, d] + SpellAll(rest)
  {
    SignTokens(d, rest, line);
    SignTokens(c, Cons(Sign(d), rest), line);
  }

  lemma FitsPair(a: Alphabet, c: char, d: char, rest: Items, out: seq<Token>, line: nat, after: string)
    requires Ascii(a) && SignChar(c) && SignChar(d) && FitsAll(a, rest, out + PairList(c, d, line), line, after)
    ensures FitsAll(a, Pair(c, d, rest), out, line, after)
  {
    assert out + [Token(Punct, [c], line)] + [Token(Punct, [d], line)] == out + PairList(c, d, line);
    FitsSign(a, d, rest, out + [Token(Punct, [c], line)], line, after);
    FitsSign(a, c, Cons(Sign(d), rest), out, line, after);
  }

  /** `=> `, and what follows. */
  function Arrow(rest: Items): Items { Pair('=', '>', Cons(Blank(' '), rest)) }

  /** `() => `, and what follows. */
  function Parameters(rest: Items): Items { Pair('(', ')', Cons(Blank(' '), Arrow(rest))) }

  function ParameterList(line: nat): seq<Token> { PairList('(', ')', line) + PairList('=', '>', line) }

  lemma ArrowTokens(rest: Items, line: nat)
    ensures TokensOfAll(Arrow(rest), line) == PairList('=', '>', line) + TokensOfAll(rest, line)
    ensures SpellAll(Arrow(rest)) == ['=', '>', ' '] + SpellAll(rest)
  {
    BlankTokens(rest, line);
    PairTokens('=', '>', Cons(Blank(' '), rest), line);
  }

  lemma ParametersTokens(rest: Items, line: nat)
    ensures TokensOfAll(Parameters(rest), line) == ParameterList(line) + TokensOfAll(rest, line)
    ensures SpellAll(Parameters(rest)) == ['(', ')', ' ', '=', '>', ' '] + SpellAll(rest)
  {
    var arrow := Arrow(rest);
    ArrowTokens(rest, line);
    BlankTokens(arrow, line);
    PairTokens('(', ')', Cons(Blank(' '), arrow), line);
  }

  lemma FitsParameters(a: Alphabet, rest: Items, out: seq<Token>, line: nat, after: string)
    requires Ascii(a) && FitsAll(a, rest, out + ParameterList(line), line, after)
    ensures FitsAll(a, Parameters(rest), out, line, after)
  {
    var begun := out + PairList('(', ')', line);
    assert begun + PairList('=', '>', line) == out + ParameterList(line);
    FitsBlank(a, rest, begun + PairList('=', '>', line), line, after);
    FitsPair(a, '=', '>', Cons(Blank(' '), rest), begun, line, after);
    FitsBlank(a, Arrow(rest), begun, line, after);
    FitsPair(a, '(', ')', Cons(Blank(' '), Arrow(rest)), out, line, after);
  }

  function Only(p: string): Items { Cons(Identifier(p), Nil) }

  lemma OnlyTokens(p: string, line: nat)
    ensures SpellAll(Only(p)) == p && TokensOfAll(Only(p), line) == [Token(Name, p, line)]
    ensures Balanced(TokensOfAll(Only(p), line))
  {
    var tokens := [Token(Name, p, line)];
    assert TokensOfAll(Only(p), line) == tokens;
    OneLevel(tokens[0]);
    forall k | 0 <= k <= 1 ensures NotBelow(tokens, k) {
      assert tokens[..0] == [] && tokens[..1] == tokens;
    }
  }

  /** `(<arguments>).<name>` */
  function Tail(arguments: Items, name: string): Items { Cons(Sign('('), Append(arguments, Matcher(name))) }

  function TailText(p: string, name: string): string { ['('] + (p + ([')'] + (['.'] + name))) }

  lemma TailSpells(p: string, name: string)
    ensures SpellAll(Tail(Only(p), name)) == TailText(p, name)
  {
    var word := Cons(Identifier(name), Nil);
    OnlyTokens(p, 1);
    SignTokens('.', word, 1);
    SignTokens(')', Cons(Sign('.'), word), 1);
    assert SpellAll(word) == name;
    AppendSpells(Only(p), Matcher(name));
    SignTokens('(', Append(Only(p), Matcher(name)), 1);
  }

  lemma FitsTail(a: Alphabet, p: string, name: string, out: seq<Token>, line: nat)
    requires Ascii(a) && AllLetters(p) && 0 < |p| <= 256 && (name == "rejects" || name == "resolves")
    ensures FitsAll(a, Tail(Only(p), name), out, line, "")
  {
    var word := Cons(Identifier(name), Nil);
    var dot := Cons(Sign('.'), word);
    var open := out + [Token(Punct, ['('], line)];
    var inner := open + [Token(Name, p, line)];
    assert AllLetters(name);
    FitsWord(a, name, Nil, inner + [Token(Punct, [')'], line)] + [Token(Punct, ['.'], line)], line, "");
    FitsSign(a, '.', word, inner + [Token(Punct, [')'], line)], line, "");
    FitsSign(a, ')', dot, inner, line, "");
    assert Append(Only(p), Matcher(name)) == Cons(Identifier(p), Cons(Sign(')'), dot));
    SignTokens(')', dot, line);
    assert (SpellAll(Cons(Sign(')'), dot)) + "")[0] == ')';
    FitsWord(a, p, Cons(Sign(')'), dot), open, line, "");
    FitsSign(a, '(', Append(Only(p), Matcher(name)), out, line, "");
  }

  function TailList(p: string, name: string, line: nat): seq<Token> {
    [Token(Punct, ['('], line), Token(Name, p, line), Token(Punct, [')'], line), Token(Punct, ['.'], line),
     Token(Name, name, line)]
  }

  lemma TailTokens(p: string, name: string, line: nat)
    requires OneLine(p) && (name == "rejects" || name == "resolves")
    ensures TokensOfAll(Tail(Only(p), name), line) == TailList(p, name, line)
  {
    var word := Cons(Identifier(name), Nil);
    var dot := Cons(Sign('.'), word);
    assert Matcher(name) == Cons(Sign(')'), dot);
    assert Append(Only(p), Matcher(name)) == Cons(Identifier(p), Matcher(name));
    OnlyTokens(name, line);
    SignTokens('.', word, line);
    SignTokens(')', dot, line);
    WordTokens(p, Matcher(name), line);
    SignTokens('(', Append(Only(p), Matcher(name)), line);
  }

  lemma TailHasNone(p: string, name: string, line: nat)
    requires p != "expect" && (name == "rejects" || name == "resolves")
    ensures NoneExpect(TailList(p, name, line))
  {
    assert |"expect"| == 6 && |"rejects"| == 7 && |"resolves"| == 8;
  }

  lemma NoneExpectJoin(a: seq<Token>, b: seq<Token>)
    requires NoneExpect(a) && NoneExpect(b)
    ensures NoneExpect(a + b)
  {
  }
}
