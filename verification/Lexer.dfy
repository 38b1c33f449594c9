/** The tokenizer of the nested-tick gate (`tokens` in `scripts/architecture/nested-tick.ts`):
    names, strings and punctuation with their lines; comments, template text and regular
    expressions dropped. */
module Lexer {
  datatype Kind = Name | Str | Punct | Value
  datatype Token = Token(kind: Kind, text: string, line: nat)

  /** The Unicode classes the original asks the regular-expression engine for. */
  datatype Alphabet = Alphabet(letter: char -> bool, number: char -> bool, space: char -> bool)

  /** `templates` holds the brace depth at which each open substitution returns to its template. */
  datatype State = State(out: seq<Token>, templates: seq<int>, depth: int, line: nat, at: nat)

  const START := State([], [], 0, 1, 0)

  const BEFORE_EXPRESSION: set<string> := {
    "return", "typeof", "instanceof", "in", "of", "new", "delete", "void", "throw", "case", "do", "else", "yield",
    "await"
  }

  // ---- Characters

  predicate Digit(c: char) { '0' <= c <= '9' }

  predicate AsciiLetter(c: char) { 'a' <= c <= 'z' || 'A' <= c <= 'Z' }

  predicate WordStart(a: Alphabet, c: char) { a.letter(c) || c == '_' || c == '$' }

  predicate WordPart(a: Alphabet, c: char) { a.letter(c) || a.number(c) || c == '_' || c == '$' }

  predicate NumberPart(c: char) { AsciiLetter(c) || Digit(c) || c == '_' || c == '.' }

  predicate Is(source: string, i: nat, c: char) { i < |source| && source[i] == c }

  /** The places of the line ends. */
  function Breaks(text: string): set<nat> {
    set k: nat | k < |text| && text[k] == '\n'
  }

  function Newlines(text: string): nat { |Breaks(text)| }

  lemma LastNewline(text: string)
    requires text != ""
    ensures Newlines(text) == Newlines(text[..|text| - 1]) + if text[|text| - 1] == '\n' then 1 else 0
  {
    var n := |text| - 1;
    assert Breaks(text) == Breaks(text[..n]) + if text[n] == '\n' then {n} else {};
  }

  // ---- Scans

  function LineEnd(source: string, j: nat): (r: nat)
    ensures j <= r && (j <= |source| ==> r <= |source|)
    decreases |source| - j
  {
    if j < |source| && source[j] != '\n' then LineEnd(source, j + 1) else j
  }

  /** Just past the next comment end, or the end of the source. */
  function CommentEnd(source: string, j: nat): (r: nat)
    ensures r <= |source| && (j <= |source| ==> j <= r)
    decreases |source| - j
  {
    if j + 1 >= |source| then |source|
    else if source[j] == '*' && source[j + 1] == '/' then j + 2
    else CommentEnd(source, j + 1)
  }

  function StringEnd(source: string, j: nat, quote: char): (r: nat)
    ensures j <= r
    decreases |source| - j
  {
    if j >= |source| || source[j] == quote || source[j] == '\n' then j
    else StringEnd(source, j + (if source[j] == '\\' then 2 else 1), quote)
  }

  datatype Stop = Closed(at: nat) | Hole(at: nat) | Unclosed

  /** Where template text stops: at its backtick, at the next substitution, or nowhere. */
  function TemplateStop(source: string, j: nat): (r: Stop)
    ensures !r.Unclosed? ==> j <= r.at < |source|
    decreases |source| - j
  {
    if j >= |source| then Unclosed
    else if source[j] == '\\' then TemplateStop(source, j + 2)
    else if source[j] == '`' then Closed(j)
    else if source[j] == '$' && Is(source, j + 1, '{') then Hole(j)
    else TemplateStop(source, j + 1)
  }

  function RegexEnd(source: string, j: nat, inClass: bool): (r: nat)
    ensures j <= r
    decreases |source| - j
  {
    if j >= |source| || source[j] == '\n' then j
    else if source[j] == '\\' then RegexEnd(source, j + 2, inClass)
    else if source[j] == '[' then RegexEnd(source, j + 1, true)
    else if source[j] == ']' then RegexEnd(source, j + 1, false)
    else if source[j] == '/' && !inClass then j
    else RegexEnd(source, j + 1, inClass)
  }

  function FlagsEnd(source: string, j: nat): (r: nat)
    ensures j <= r
    decreases |source| - j
  {
    if j + 1 < |source| && AsciiLetter(source[j + 1]) then FlagsEnd(source, j + 1) else j
  }

  /** A word is matched within the next 256 characters. */
  function WordEnd(a: Alphabet, source: string, j: nat, limit: nat): (r: nat)
    ensures j <= r && (j <= |source| ==> r <= |source|)
    decreases |source| - j
  {
    if j < |source| && j < limit && WordPart(a, source[j]) then WordEnd(a, source, j + 1, limit) else j
  }

  function NumberEnd(source: string, j: nat, limit: nat): (r: nat)
    ensures j <= r && (j <= |source| ==> r <= |source|)
    decreases |source| - j
  {
    if j < |source| && j < limit && NumberPart(source[j]) then NumberEnd(source, j + 1, limit) else j
  }

  // ---- One turn of the loop

  predicate RegexAllowed(out: seq<Token>) {
    out == [] ||
    match out[|out| - 1].kind
    case Name => out[|out| - 1].text in BEFORE_EXPRESSION
    case Punct => out[|out| - 1].text !in {")", "]", "}"}
    case _ => false
  }

  function Emit(s: State, kind: Kind, text: string): State {
    s.(out := s.out + [Token(kind, text, s.line)])
  }

  function SkipTo(s: State, source: string, end: nat): (r: State)
    ensures r.at == (if s.at < end then end else s.at)
    ensures r == s.(at := r.at, line := r.line)
    decreases end - s.at
  {
    if s.at < end then
      SkipTo(s.(at := s.at + 1, line := s.line + if Is(source, s.at, '\n') then 1 else 0), source, end)
    else s
  }

  function OpenHole(s: State): State {
    s.(templates := s.templates + [s.depth], depth := s.depth + 1)
  }

  function CloseHole(s: State): State
    requires s.templates != []
  {
    s.(templates := s.templates[..|s.templates| - 1], depth := s.depth - 1)
  }

  function Advance(s: State): State { s.(at := s.at + 1) }

  /** From just inside a backtick, or after the `}` of a substitution. */
  function TemplateText(s: State, source: string): State {
    match TemplateStop(source, s.at)
    case Closed(j) => Emit(SkipTo(s, source, j + 1), Value, "`")
    case Hole(j) => Emit(OpenHole(SkipTo(s, source, j + 2)), Punct, "(")
    case Unclosed => SkipTo(s, source, |source|)
  }

  function Clip(source: string, from: nat, to: nat): string
    requires from <= |source|
  {
    source[from..if to < from then from else if to <= |source| then to else |source|]
  }

  predicate Returns(s: State) {
    s.templates != [] && s.templates[|s.templates| - 1] == s.depth - 1
  }

  function Braces(s: State, c: char): State {
    Advance(Emit(s.(depth := if c == '{' then s.depth + 1 else s.depth - 1), Punct, [c]))
  }

  function Brace(s: State, source: string, c: char): State {
    if c == '}' && Returns(s) then TemplateText(Emit(Advance(CloseHole(s)), Punct, ")"), source)
    else if c == '{' || c == '}' then Braces(s, c)
    else Advance(Emit(s, Punct, [c]))
  }

  /** The end of the name or number that starts here. */
  function SpanEnd(a: Alphabet, s: State, source: string): (r: nat)
    requires s.at < |source|
    ensures s.at < r <= |source|
  {
    if WordStart(a, source[s.at]) then WordEnd(a, source, s.at + 1, s.at + 256)
    else NumberEnd(source, s.at + 1, s.at + 256)
  }

  function Word(a: Alphabet, s: State, source: string, c: char): State
    requires s.at < |source| && c == source[s.at]
  {
    if WordStart(a, c) || Digit(c) then
      var end := SpanEnd(a, s, source);
      Emit(s, if Digit(c) then Value else Name, source[s.at..end]).(at := end)
    else Brace(s, source, c)
  }

  predicate Comment(source: string, at: nat) {
    Is(source, at, '/') && (Is(source, at + 1, '/') || Is(source, at + 1, '*'))
  }

  function SkipComment(s: State, source: string): State
    requires s.at < |source|
  {
    if Is(source, s.at + 1, '/') then s.(at := LineEnd(source, s.at))
    else SkipTo(s, source, CommentEnd(source, s.at + 2))
  }

  function LexString(s: State, source: string, quote: char): State
    requires s.at < |source|
  {
    var j := StringEnd(source, s.at + 1, quote);
    SkipTo(Emit(s, Str, Clip(source, s.at + 1, j)), source, j + 1)
  }

  function LexRegex(s: State, source: string): State {
    SkipTo(Emit(s, Value, "/regex/"), source, FlagsEnd(source, RegexEnd(source, s.at + 1, false)) + 1)
  }

  function Lex(a: Alphabet, s: State, source: string, c: char): State
    requires s.at < |source| && c == source[s.at]
  {
    if c == '"' || c == '\'' then LexString(s, source, c)
    else if c == '`' then TemplateText(Advance(s), source)
    else if c == '/' && RegexAllowed(s.out) then LexRegex(s, source)
    else Word(a, s, source, c)
  }

  function Step(a: Alphabet, s: State, source: string): State
    requires s.at < |source|
  {
    var c := source[s.at];
    if c == '\n' then s.(line := s.line + 1, at := s.at + 1)
    else if a.space(c) then Advance(s)
    else if Comment(source, s.at) then SkipComment(s, source)
    else Lex(a, s, source, c)
  }

  /** Every turn moves on, so the loop ends on every input. */
  lemma StepMoves(a: Alphabet, s: State, source: string)
    requires s.at < |source|
    ensures Step(a, s, source).at > s.at
  {
    if source[s.at] == '/' && Is(source, s.at + 1, '/') {
      assert LineEnd(source, s.at) == LineEnd(source, s.at + 1);
    }
  }

  function Run(a: Alphabet, s: State, source: string): State
    decreases |source| - s.at
  {
    if s.at < |source| then
      StepMoves(a, s, source);
      Run(a, Step(a, s, source), source)
    else s
  }

  function Tokens(a: Alphabet, source: string): seq<Token> {
    Run(a, START, source).out
  }

  // ---- Lines, depth and templates

  function Consumed(source: string, at: nat): string {
    source[..if at < |source| then at else |source|]
  }

  /** A punctuation token of this character. */
  predicate Mark(t: Token, c: char) {
    t.kind == Punct && |t.text| == 1 && t.text[0] == c
  }

  function Weight(t: Token): int {
    if Mark(t, '{') then 1 else if Mark(t, '}') then -1 else 0
  }

  /** Braces opened and not closed among the tokens. */
  function Balance(out: seq<Token>): int {
    if out == [] then 0 else Balance(out[..|out| - 1]) + Weight(out[|out| - 1])
  }

  /** Open substitutions stand at strictly rising depths, all below the current one. */
  ghost predicate Nesting(s: State) {
    && (forall i, j :: 0 <= i < j < |s.templates| ==> s.templates[i] < s.templates[j])
    && (forall i :: 0 <= i < |s.templates| ==> s.templates[i] < s.depth)
  }

  ghost predicate SpelledAt(source: string, t: Token, p: nat) {
    p + |t.text| <= |source| && source[p..p + |t.text|] == t.text && t.line == 1 + Newlines(source[..p])
  }

  /** A name token is spelled in the source, on the line it reports. */
  ghost predicate TrueLines(out: seq<Token>, source: string) {
    forall t <- out | t.kind == Name :: exists p :: SpelledAt(source, t, p)
  }

  ghost predicate Inv(s: State, source: string) {
    && s.line == 1 + Newlines(Consumed(source, s.at))
    && s.depth == Balance(s.out) + |s.templates|
    && Nesting(s)
    && TrueLines(s.out, source)
  }

  lemma ConsumeOne(source: string, at: nat)
    ensures Newlines(Consumed(source, at + 1))
         == Newlines(Consumed(source, at)) + if Is(source, at, '\n') then 1 else 0
  {
    if at < |source| {
      var more := Consumed(source, at + 1);
      LastNewline(more);
      assert more[..|more| - 1] == Consumed(source, at);
    }
  }

  lemma {:induction false} SkipKeepsLine(s: State, source: string, end: nat)
    requires s.line == 1 + Newlines(Consumed(source, s.at))
    ensures var r := SkipTo(s, source, end); r.line == 1 + Newlines(Consumed(source, r.at))
    decreases end - s.at
  {
    if s.at < end {
      ConsumeOne(source, s.at);
      SkipKeepsLine(s.(at := s.at + 1, line := s.line + if Is(source, s.at, '\n') then 1 else 0), source, end);
    }
  }

  lemma SkipKeeps(s: State, source: string, end: nat)
    requires Inv(s, source)
    ensures Inv(SkipTo(s, source, end), source)
  {
    SkipKeepsLine(s, source, end);
  }

  lemma {:induction false} NoNewlines(source: string, from: nat, to: nat)
    requires from <= to <= |source| && forall k :: from <= k < to ==> source[k] != '\n'
    ensures Newlines(source[..to]) == Newlines(source[..from])
  {
    if from < to {
      NoNewlines(source, from, to - 1);
      LastNewline(source[..to]);
      assert source[..to][..to - 1] == source[..to - 1];
    }
  }

  lemma PushBalance(out: seq<Token>, t: Token)
    ensures Balance(out + [t]) == Balance(out) + Weight(t)
  {
    var grown := out + [t];
    assert grown[..|out|] == out;
  }

  /** A token that is no brace and no name leaves the counts alone. */
  lemma EmitKeeps(s: State, source: string, kind: Kind, text: string)
    requires Inv(s, source) && kind != Name && Weight(Token(kind, text, s.line)) == 0
    ensures Inv(Emit(s, kind, text), source)
  {
    PushBalance(s.out, Token(kind, text, s.line));
  }

  lemma EmitName(s: State, source: string, end: nat)
    requires Inv(s, source) && s.at < end <= |source|
    ensures Inv(Emit(s, Name, source[s.at..end]), source)
  {
    var t := Token(Name, source[s.at..end], s.line);
    PushBalance(s.out, t);
    assert Consumed(source, s.at) == source[..s.at];
    assert SpelledAt(source, t, s.at);
  }

  lemma HoleKeeps(s: State, source: string)
    requires Inv(s, source)
    ensures Inv(OpenHole(s), source)
  {
  }

  lemma ClosedKeeps(s: State, source: string, end: nat)
    requires Inv(s, source)
    ensures Inv(Emit(SkipTo(s, source, end), Value, "`"), source)
  {
    SkipKeeps(s, source, end);
    EmitKeeps(SkipTo(s, source, end), source, Value, "`");
  }

  lemma OpenKeeps(s: State, source: string, end: nat)
    requires Inv(s, source)
    ensures Inv(Emit(OpenHole(SkipTo(s, source, end)), Punct, "("), source)
  {
    SkipKeeps(s, source, end);
    HoleKeeps(SkipTo(s, source, end), source);
    EmitKeeps(OpenHole(SkipTo(s, source, end)), source, Punct, "(");
  }

  lemma TemplateKeeps(s: State, source: string)
    requires Inv(s, source)
    ensures Inv(TemplateText(s, source), source)
  {
    match TemplateStop(source, s.at) {
      case Closed(j) => ClosedKeeps(s, source, j + 1);
      case Hole(j) => OpenKeeps(s, source, j + 2);
      case Unclosed => SkipKeeps(s, source, |source|);
    }
  }

  /** The alphabet does not take a line end for part of a word. */
  predicate Sane(a: Alphabet) {
    !a.letter('\n') && !a.number('\n')
  }

  lemma PopKeeps(s: State, source: string)
    requires Inv(s, source) && Returns(s)
    ensures Inv(CloseHole(s), source)
  {
  }

  lemma MoveKeeps(s: State, source: string)
    requires Inv(s, source) && s.at < |source|
    ensures source[s.at] == '\n' ==> Inv(s.(line := s.line + 1, at := s.at + 1), source)
    ensures source[s.at] != '\n' ==> Inv(Advance(s), source)
  {
    ConsumeOne(source, s.at);
  }

  lemma ReturnKeeps(s: State, source: string)
    requires Inv(s, source) && s.at < |source| && source[s.at] == '}' && Returns(s)
    ensures Inv(Brace(s, source, '}'), source)
  {
    PopKeeps(s, source);
    MoveKeeps(CloseHole(s), source);
    EmitKeeps(Advance(CloseHole(s)), source, Punct, ")");
    TemplateKeeps(Emit(Advance(CloseHole(s)), Punct, ")"), source);
  }

  /** A brace that belongs to no template. */
  lemma PlainBraceKeeps(s: State, source: string, c: char)
    requires Inv(s, source) && s.at < |source| && c == source[s.at]
    requires c == '{' || (c == '}' && !Returns(s))
    ensures Inv(Braces(s, c), source)
  {
    var t := Emit(s.(depth := if c == '{' then s.depth + 1 else s.depth - 1), Punct, [c]);
    PushBalance(s.out, Token(Punct, [c], s.line));
    ConsumeOne(source, s.at);
    assert Nesting(Braces(s, c));
  }

  lemma BraceKeeps(s: State, source: string, c: char)
    requires Inv(s, source) && s.at < |source| && c == source[s.at] && c != '\n'
    ensures Inv(Brace(s, source, c), source)
  {
    if c == '}' && Returns(s) {
      ReturnKeeps(s, source);
    } else if c == '{' || c == '}' {
      PlainBraceKeeps(s, source, c);
    } else {
      EmitKeeps(s, source, Punct, [c]);
      MoveKeeps(Emit(s, Punct, [c]), source);
    }
  }

  lemma {:induction false} WordHasNoLineEnd(a: Alphabet, source: string, j: nat, limit: nat, k: nat)
    requires Sane(a) && j <= k < WordEnd(a, source, j, limit)
    ensures k < |source| && source[k] != '\n'
    decreases |source| - j
  {
    if j < k { WordHasNoLineEnd(a, source, j + 1, limit, k); }
  }

  lemma {:induction false} NumberHasNoLineEnd(source: string, j: nat, limit: nat, k: nat)
    requires j <= k < NumberEnd(source, j, limit)
    ensures k < |source| && source[k] != '\n'
    decreases |source| - j
  {
    if j < k { NumberHasNoLineEnd(source, j + 1, limit, k); }
  }

  lemma {:induction false} LineHasNoLineEnd(source: string, j: nat, k: nat)
    requires j <= k < LineEnd(source, j)
    ensures k < |source| && source[k] != '\n'
    decreases |source| - j
  {
    if j < k { LineHasNoLineEnd(source, j + 1, k); }
  }

  lemma NoLineEnd(a: Alphabet, s: State, source: string)
    requires Sane(a) && s.at < |source| && source[s.at] != '\n'
    requires WordStart(a, source[s.at]) || Digit(source[s.at])
    ensures s.at < SpanEnd(a, s, source) <= |source|
    ensures Newlines(source[..SpanEnd(a, s, source)]) == Newlines(source[..s.at])
  {
    var end := SpanEnd(a, s, source);
    forall k | s.at <= k < end ensures source[k] != '\n' {
      if k > s.at {
        if WordStart(a, source[s.at]) {
          WordHasNoLineEnd(a, source, s.at + 1, s.at + 256, k);
        } else {
          NumberHasNoLineEnd(source, s.at + 1, s.at + 256, k);
        }
      }
    }
    NoNewlines(source, s.at, end);
  }

  lemma ToKeeps(s: State, source: string, end: nat)
    requires Inv(s, source) && s.at <= |source| && end <= |source|
    requires Newlines(source[..end]) == Newlines(source[..s.at])
    ensures Inv(s.(at := end), source)
  {
    assert Consumed(source, end) == source[..end] && Consumed(source, s.at) == source[..s.at];
  }

  lemma WordKeeps(a: Alphabet, s: State, source: string)
    requires Sane(a) && Inv(s, source) && s.at < |source| && source[s.at] != '\n'
    ensures Inv(Word(a, s, source, source[s.at]), source)
  {
    var c := source[s.at];
    if WordStart(a, c) || Digit(c) {
      var end := SpanEnd(a, s, source);
      NoLineEnd(a, s, source);
      if Digit(c) {
        EmitKeeps(s, source, Value, source[s.at..end]);
        ToKeeps(Emit(s, Value, source[s.at..end]), source, end);
      } else {
        EmitName(s, source, end);
        ToKeeps(Emit(s, Name, source[s.at..end]), source, end);
      }
    } else {
      BraceKeeps(s, source, c);
    }
  }

  lemma StringKeeps(s: State, source: string, quote: char)
    requires Inv(s, source) && s.at < |source|
    ensures Inv(LexString(s, source, quote), source)
  {
    var j := StringEnd(source, s.at + 1, quote);
    EmitKeeps(s, source, Str, Clip(source, s.at + 1, j));
    SkipKeeps(Emit(s, Str, Clip(source, s.at + 1, j)), source, j + 1);
  }

  lemma RegexKeeps(s: State, source: string)
    requires Inv(s, source)
    ensures Inv(LexRegex(s, source), source)
  {
    EmitKeeps(s, source, Value, "/regex/");
    SkipKeeps(Emit(s, Value, "/regex/"), source, FlagsEnd(source, RegexEnd(source, s.at + 1, false)) + 1);
  }

  lemma LexKeeps(a: Alphabet, s: State, source: string)
    requires Sane(a) && Inv(s, source) && s.at < |source| && source[s.at] != '\n'
    ensures Inv(Lex(a, s, source, source[s.at]), source)
  {
    var c := source[s.at];
    MoveKeeps(s, source);
    if c == '"' || c == '\'' {
      StringKeeps(s, source, c);
    } else if c == '`' {
      TemplateKeeps(Advance(s), source);
    } else if c == '/' && RegexAllowed(s.out) {
      RegexKeeps(s, source);
    } else {
      WordKeeps(a, s, source);
    }
  }

  lemma CommentKeepsAll(s: State, source: string)
    requires Inv(s, source) && s.at < |source| && Comment(source, s.at)
    ensures Inv(SkipComment(s, source), source)
  {
    if Is(source, s.at + 1, '/') {
      CommentKeeps(s, source);
    } else {
      SkipKeeps(s, source, CommentEnd(source, s.at + 2));
    }
  }

  /** Every turn keeps the line count, the depth and the template stack. */
  lemma StepKeeps(a: Alphabet, s: State, source: string)
    requires Sane(a) && Inv(s, source) && s.at < |source|
    ensures Inv(Step(a, s, source), source)
  {
    var c := source[s.at];
    if c == '\n' || a.space(c) {
      MoveKeeps(s, source);
    } else if Comment(source, s.at) {
      CommentKeepsAll(s, source);
    } else {
      LexKeeps(a, s, source);
    }
  }

  lemma CommentKeeps(s: State, source: string)
    requires Inv(s, source) && s.at < |source|
    ensures Inv(s.(at := LineEnd(source, s.at)), source)
  {
    var end := LineEnd(source, s.at);
    forall k | s.at <= k < end ensures source[k] != '\n' {
      LineHasNoLineEnd(source, s.at, k);
    }
    NoNewlines(source, s.at, end);
    ToKeeps(s, source, end);
  }

  lemma {:induction false} RunKeeps(a: Alphabet, s: State, source: string)
    requires Sane(a) && Inv(s, source)
    ensures Inv(Run(a, s, source), source) && Run(a, s, source).at >= |source|
    decreases |source| - s.at
  {
    if s.at < |source| {
      StepMoves(a, s, source);
      StepKeeps(a, s, source);
      RunKeeps(a, Step(a, s, source), source);
    }
  }

  /** On every source the tokenizer ends with every line counted, depth made of open braces and open
      substitutions, and each name reported on the line it is spelled on. */
  lemma TokensKeepLines(a: Alphabet, source: string)
    requires Sane(a)
    ensures var r := Run(a, START, source);
      && r.line == 1 + Newlines(source)
      && r.depth == Balance(r.out) + |r.templates|
      && Nesting(r)
      && TrueLines(Tokens(a, source), source)
  {
    assert Consumed(source, 0) == "";
    RunKeeps(a, START, source);
    assert Consumed(source, Run(a, START, source).at) == source;
  }

  // ---- The code itself

  class Tokenizer {
    const alphabet: Alphabet
    const source: string
    var out: seq<Token>
    var templates: seq<int>
    var depth: int
    var line: nat
    var i: nat

    function Now(): State
      reads this
    {
      State(out, templates, depth, line, i)
    }

    constructor (alphabet: Alphabet, source: string)
      ensures this.alphabet == alphabet && this.source == source && Now() == START
    {
      this.alphabet, this.source := alphabet, source;
      out, templates, depth, line, i := [], [], 0, 1, 0;
    }

    method Push(kind: Kind, text: string)
      modifies this`out
      ensures Now() == Emit(old(Now()), kind, text)
    {
      out := out + [Token(kind, text, line)];
    }

    method Skip(end: nat)
      modifies this`i, this`line
      ensures Now() == SkipTo(old(Now()), source, end)
    {
      while i < end
        invariant SkipTo(Now(), source, end) == SkipTo(old(Now()), source, end)
      {
        if i < |source| && source[i] == '\n' {
          line := line + 1;
        }
        i := i + 1;
      }
    }

    method ScanTemplate()
      modifies this
      ensures Now() == TemplateText(old(Now()), source)
    {
      var j := i;
      while j < |source|
        invariant Now() == old(Now()) && TemplateStop(source, j) == TemplateStop(source, i)
        decreases |source| - j
      {
        if source[j] == '\\' {
          j := j + 2;
        } else if source[j] == '`' {
          Skip(j + 1);
          Push(Value, "`");
          return;
        } else if source[j] == '$' && j + 1 < |source| && source[j + 1] == '{' {
          Skip(j + 2);
          templates := templates + [depth];
          depth := depth + 1;
          Push(Punct, "(");
          return;
        } else {
          j := j + 1;
        }
      }
      Skip(|source|);
    }

    method ScanString(quote: char)
      requires i < |source|
      modifies this
      ensures Now() == LexString(old(Now()), source, quote)
    {
      var j := i + 1;
      while j < |source| && source[j] != quote && source[j] != '\n'
        invariant StringEnd(source, j, quote) == StringEnd(source, i + 1, quote) && i + 1 <= j
        invariant Now() == old(Now())
        decreases |source| - j
      {
        j := j + if source[j] == '\\' then 2 else 1;
      }
      Push(Str, Clip(source, i + 1, j));
      Skip(j + 1);
    }

    method ScanRegex()
      modifies this
      ensures Now() == LexRegex(old(Now()), source)
    {
      var j := i + 1;
      var inClass := false;
      while j < |source| && source[j] != '\n' && (source[j] != '/' || inClass)
        invariant RegexEnd(source, j, inClass) == RegexEnd(source, i + 1, false)
        invariant Now() == old(Now())
        decreases |source| - j
      {
        if source[j] == '\\' {
          j := j + 1;
        } else if source[j] == '[' {
          inClass := true;
        } else if source[j] == ']' {
          inClass := false;
        }
        j := j + 1;
      }
      while j + 1 < |source| && AsciiLetter(source[j + 1])
        invariant FlagsEnd(source, j) == FlagsEnd(source, RegexEnd(source, i + 1, false))
        invariant Now() == old(Now())
        decreases |source| - j
      {
        j := j + 1;
      }
      Push(Value, "/regex/");
      Skip(j + 1);
    }

    method ScanMark(c: char)
      modifies this
      ensures Now() == Brace(old(Now()), source, c)
    {
      if c == '{' {
        depth := depth + 1;
      }
      if c == '}' {
        if templates != [] && templates[|templates| - 1] == depth - 1 {
          templates := templates[..|templates| - 1];
          depth := depth - 1;
          i := i + 1;
          Push(Punct, ")");
          ScanTemplate();
          return;
        }
        depth := depth - 1;
      }
      Push(Punct, [c]);
      i := i + 1;
    }

    method ScanToken(c: char)
      requires i < |source| && c == source[i]
      modifies this
      ensures Now() == Lex(alphabet, old(Now()), source, c)
    {
      if c == '"' || c == '\'' {
        ScanString(c);
      } else if c == '`' {
        i := i + 1;
        ScanTemplate();
      } else if c == '/' && RegexAllowed(out) {
        ScanRegex();
      } else if WordStart(alphabet, c) || Digit(c) {
        var end := SpanEnd(alphabet, Now(), source);
        Push(if Digit(c) then Value else Name, source[i..end]);
        i := end;
      } else {
        ScanMark(c);
      }
    }

    method ScanOne()
      requires i < |source|
      modifies this
      ensures Now() == Step(alphabet, old(Now()), source)
    {
      var c := source[i];
      if c == '\n' {
        line := line + 1;
        i := i + 1;
      } else if alphabet.space(c) {
        i := i + 1;
      } else if c == '/' && i + 1 < |source| && source[i + 1] == '/' {
        i := LineEnd(source, i);
      } else if c == '/' && i + 1 < |source| && source[i + 1] == '*' {
        Skip(CommentEnd(source, i + 2));
      } else {
        ScanToken(c);
      }
    }

    method Scan()
      requires Now() == START
      modifies this
      ensures out == Tokens(alphabet, source)
    {
      while i < |source|
        invariant Run(alphabet, Now(), source) == Run(alphabet, START, source)
        decreases |source| - i
      {
        StepMoves(alphabet, Now(), source);
        ScanOne();
      }
    }
  }
}
