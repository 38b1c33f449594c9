/** The calls that the nested-tick gate is for (`nestedTickSites` in
    `scripts/architecture/nested-tick.ts`), by their own structure, and exactly which of them it
    reports: its scan takes the first `(` behind a `<` for the call's. */
module MatchedCalls {
  import opened Results
  import opened Lexer
  import opened LexerRoundTrip
  import opened NestedTick
  import opened PlainSource

  // ---- Type arguments

  predicate EndsArrow(list: seq<Token>, k: nat)
    requires k < |list|
  {
    k > 0 && Mark(list[k - 1], '=') && Mark(list[k], '>')
  }

  /** What one token opens or closes among type arguments; the `>` of `=>` closes nothing. */
  function AngleTurn(list: seq<Token>, k: nat): int
    requires k < |list|
  {
    if Mark(list[k], '<') || IsOpen(list[k]) then 1
    else if IsClose(list[k]) || (Mark(list[k], '>') && !EndsArrow(list, k)) then -1
    else 0
  }

  /** What is open at `k` of what was opened from `start` on. */
  function AngleLevel(list: seq<Token>, start: nat, k: nat): int
    requires k <= |list|
  {
    if k <= start then 0 else AngleLevel(list, start, k - 1) + AngleTurn(list, k - 1)
  }

  predicate AngleOpen(list: seq<Token>, start: nat, k: nat)
    requires k <= |list|
  {
    AngleLevel(list, start, k) > 0
  }

  /** Type arguments from their `<` to just past the `>` that closes it. */
  ghost predicate TypeArguments(list: seq<Token>, start: nat, end: nat) {
    && start < end <= |list| && Mark(list[start], '<')
    && AngleLevel(list, start, end) == 0
    && forall k :: start < k < end ==> AngleOpen(list, start, k)
  }

  lemma OneEnd(list: seq<Token>, start: nat, end: nat, other: nat)
    requires TypeArguments(list, start, end) && TypeArguments(list, start, other)
    ensures end == other
  {
    assert end < other ==> AngleOpen(list, start, end);
    assert other < end ==> AngleOpen(list, start, other);
  }

  // ---- Matched calls

  predicate StartsExpect(list: seq<Token>, i: nat) {
    i < |list| && list[i].kind == Name && list[i].text == "expect" && !TextIs(list, i - 1, ".")
  }

  /** `expect`, unless it is a method of that name, then type arguments or none, and the group of its arguments. */
  ghost predicate CallsExpect(list: seq<Token>, c: CallSite) {
    && StartsExpect(list, c.at)
    && (c.paren == c.at + 1 || TypeArguments(list, c.at + 1, c.paren))
    && c.paren < |list| && Mark(list[c.paren], '(') && Group(list, c.paren, c.end)
  }

  /** Past one `not` or none, what ends at `end` is matched with `rejects` or `resolves` on the line. */
  ghost predicate Matched(list: seq<Token>, end: nat, matcher: nat, line: nat) {
    (matcher == end || SkipsNot(list, end, matcher)) && Matches(list, matcher, line)
  }

  ghost predicate IsCall(list: seq<Token>, c: CallSite, line: nat) {
    CallsExpect(list, c) && Matched(list, c.end, c.matcher, line)
  }

  // ---- Which calls are reported

  /** Some type argument of the call holds a token that reads `(`. */
  predicate ParenInside(list: seq<Token>, c: CallSite) {
    exists k :: c.at < k < c.paren && TextIs(list, k, "(")
  }

  /** The call's first group, at the first `(` among its type arguments, is itself matched on the line. */
  ghost predicate FirstGroupMatches(list: seq<Token>, c: CallSite, line: nat) {
    exists open: nat, end: nat, matcher: nat :: FirstGroup(list, c, open, end) && Matched(list, end, matcher, line)
  }

  ghost predicate FirstGroup(list: seq<Token>, c: CallSite, open: nat, end: nat) {
    && c.at < open < c.paren && TextIs(list, open, "(") && Group(list, open, end)
    && forall k :: c.at < k < open ==> !TextIs(list, k, "(")
  }

  lemma PlainIsSeen(list: seq<Token>, c: CallSite, line: nat)
    requires IsCall(list, c, line) && !ParenInside(list, c)
    ensures IsSeen(list, c, line)
  {
    forall k | c.at < k < c.paren ensures list[k].text != "(" {
      assert !TextIs(list, k, "(");
    }
  }

  /** A matched call is reported on its line exactly when its type arguments hold no `(`, or the first group in them
      happens to be matched on that line. */
  lemma CallIsReportedIff(list: seq<Token>, c: CallSite, line: nat)
    requires IsCall(list, c, line)
    ensures SiteAt(list, c.at) == Some(line) <==> !ParenInside(list, c) || FirstGroupMatches(list, c, line)
  {
    if !ParenInside(list, c) {
      PlainIsSeen(list, c, line);
      SeenIsReported(list, c, line);
    } else {
      FirstIsSeen(list, c, line);
    }
  }

  lemma FirstIsSeen(list: seq<Token>, c: CallSite, line: nat)
    requires IsCall(list, c, line) && ParenInside(list, c)
    ensures SiteAt(list, c.at) == Some(line) <==> FirstGroupMatches(list, c, line)
  {
    if open: nat, end: nat, matcher: nat :| FirstGroup(list, c, open, end) && Matched(list, end, matcher, line) {
      forall k | c.at < k < open ensures list[k].text != "(" {
        assert !TextIs(list, k, "(");
      }
      SeenIsReported(list, CallSite(c.at, open, end, matcher), line);
    }
    if SiteAt(list, c.at) == Some(line) {
      var d := ReportedIsSeen(list, c.at, line);
      var k :| c.at < k < c.paren && TextIs(list, k, "(");
      assert FirstGroup(list, c, d.paren, d.end) && Matched(list, d.end, d.matcher, line);
    }
  }

  /** No call whose type arguments start with a function type, as in `expect<() => B>(p)`, is reported. */
  lemma FunctionTypeIsMissed(list: seq<Token>, c: CallSite, line: nat, close: nat)
    requires IsCall(list, c, line) && TextIs(list, c.at + 2, "(") && Group(list, c.at + 2, close)
    requires TextIs(list, c.at + 1, "<") && TextIs(list, close, "=")
    ensures SiteAt(list, c.at) == None
  {
    ParenIs(list, c.at + 1, c.at + 2);
    GroupIsClosing(list, c.at + 2, close);
  }

  /** `expect` is only followed by its arguments, or by type arguments without `(` and then them. */
  ghost predicate Ordinary(list: seq<Token>, i: nat) {
    && (TextIs(list, i + 1, "(") ==> Mark(list[i + 1], '('))
    && (TextIs(list, i + 1, "<") ==> HasPlainArguments(list, i + 1))
  }

  ghost predicate HasPlainArguments(list: seq<Token>, start: nat) {
    exists end: nat :: PlainArguments(list, start, end)
  }

  ghost predicate PlainArguments(list: seq<Token>, start: nat, end: nat) {
    && TypeArguments(list, start, end) && end < |list| && Mark(list[end], '(')
    && forall k :: start < k < end ==> list[k].text != "("
  }

  lemma OrdinaryIsSeen(list: seq<Token>, c: CallSite, line: nat)
    requires IsCall(list, c, line) && Ordinary(list, c.at)
    ensures IsSeen(list, c, line)
  {
    if c.paren != c.at + 1 {
      var end: nat :| PlainArguments(list, c.at + 1, end);
      OneEnd(list, c.at + 1, end, c.paren);
    }
    PlainIsSeen(list, c, line);
  }

  lemma SeenIsOrdinary(list: seq<Token>, c: CallSite, line: nat)
    requires IsSeen(list, c, line) && Ordinary(list, c.at)
    ensures IsCall(list, c, line)
  {
    if c.paren != c.at + 1 {
      var end: nat :| PlainArguments(list, c.at + 1, end);
      assert list[end].text == "(";
    }
  }

  ghost predicate AllOrdinary(list: seq<Token>) {
    forall i :: StartsExpect(list, i) ==> Ordinary(list, i)
  }

  lemma CallIsSeen(list: seq<Token>, c: CallSite, line: nat)
    requires AllOrdinary(list)
    ensures IsCall(list, c, line) <==> IsSeen(list, c, line)
  {
    if IsCall(list, c, line) {
      OrdinaryIsSeen(list, c, line);
    }
    if IsSeen(list, c, line) {
      assert StartsExpect(list, c.at);
      SeenIsOrdinary(list, c, line);
    }
  }

  /** Where every `expect` is ordinary, the gate reports exactly the lines of the matched calls. */
  lemma SitesAreCalls(list: seq<Token>, line: nat)
    requires AllOrdinary(list)
    ensures line in Sites(list) <==> exists c :: IsCall(list, c, line)
  {
    SitesAreSeen(list, line);
    if c :| IsCall(list, c, line) {
      CallIsSeen(list, c, line);
    }
    if c :| IsSeen(list, c, line) {
      CallIsSeen(list, c, line);
    }
  }

  /** In any program that reads back, a matched call among the program's own tokens is reported on its line when no
      type argument holds a `(`, whatever comments, strings, templates and regular expressions surround it. */
  lemma ProgramCallIsReported(a: Alphabet, items: Items, c: CallSite, line: nat)
    requires Unicode(a) && FitsAll(a, items, [], 1, "") && IsCall(TokensOfAll(items, 1), c, line)
    requires !ParenInside(TokensOfAll(items, 1), c)
    ensures line in Sites(Tokens(a, SpellAll(items)))
  {
    var list := TokensOfAll(items, 1);
    RoundTrip(a, items);
    PlainIsSeen(list, c, line);
    SitesAreSeen(list, line);
  }

  // ---- A call that is not reported

  /** `expect<() => <b>>(<p>).<name>` */
  function TypedCall(b: string, p: string, name: string): Items {
    Cons(Identifier("expect"), Cons(Sign('<'), Parameters(Cons(Identifier(b), Cons(Sign('>'), Tail(Only(p), name))))))
  }

  function Typed(b: string, p: string, name: string): seq<Token> {
    [Token(Name, "expect", 1), Token(Punct, ['<'], 1), Token(Punct, ['('], 1), Token(Punct, [')'], 1),
     Token(Punct, ['='], 1), Token(Punct, ['>'], 1), Token(Name, b, 1), Token(Punct, ['>'], 1), Token(Punct, ['('], 1),
     Token(Name, p, 1), Token(Punct, [')'], 1), Token(Punct, ['.'], 1), Token(Name, name, 1)]
  }

  lemma TypedTokens(b: string, p: string, name: string)
    requires OneLine(b) && OneLine(p) && (name == "rejects" || name == "resolves")
    ensures TokensOfAll(TypedCall(b, p, name), 1) == Typed(b, p, name)
  {
    var tail := Tail(Only(p), name);
    var result := Cons(Identifier(b), Cons(Sign('>'), tail));
    TailTokens(p, name, 1);
    SignTokens('>', tail, 1);
    WordTokens(b, Cons(Sign('>'), tail), 1);
    ParametersTokens(result, 1);
    SignTokens('<', Parameters(result), 1);
    WordTokens("expect", Cons(Sign('<'), Parameters(result)), 1);
    TypedParts(b, p, name, [Token(Name, "expect", 1)], [Token(Punct, ['<'], 1)], [Token(Name, b, 1)],
               [Token(Punct, ['>'], 1)], TailList(p, name, 1));
  }

  lemma TypedParts(b: string, p: string, name: string, word: seq<Token>, less: seq<Token>, result: seq<Token>,
                   more: seq<Token>, tail: seq<Token>)
    requires word == [Token(Name, "expect", 1)] && less == [Token(Punct, ['<'], 1)] && result == [Token(Name, b, 1)]
    requires more == [Token(Punct, ['>'], 1)] && tail == TailList(p, name, 1)
    ensures word + (less + (ParameterList(1) + (result + (more + tail)))) == Typed(b, p, name)
  {
  }

  lemma FitsTyped(a: Alphabet, b: string, p: string, name: string)
    requires Ascii(a) && AllLetters(b) && 0 < |b| <= 256 && AllLetters(p) && 0 < |p| <= 256
    requires name == "rejects" || name == "resolves"
    ensures FitsAll(a, TypedCall(b, p, name), [], 1, "")
  {
    var tail := Tail(Only(p), name);
    var result := Cons(Identifier(b), Cons(Sign('>'), tail));
    var begun := [] + [Token(Name, "expect", 1)] + [Token(Punct, ['<'], 1)];
    var named := begun + ParameterList(1) + [Token(Name, b, 1)];
    FitsTail(a, p, name, named + [Token(Punct, ['>'], 1)], 1);
    FitsSign(a, '>', tail, named, 1, "");
    SignTokens('>', tail, 1);
    assert (SpellAll(Cons(Sign('>'), tail)) + "")[0] == '>';
    FitsWord(a, b, Cons(Sign('>'), tail), begun + ParameterList(1), 1, "");
    FitsParameters(a, result, begun, 1, "");
    FitsSign(a, '<', Parameters(result), [] + [Token(Name, "expect", 1)], 1, "");
    SignTokens('<', Parameters(result), 1);
    assert AllLetters("expect") && (SpellAll(Cons(Sign('<'), Parameters(result))) + "")[0] == '<';
    FitsWord(a, "expect", Cons(Sign('<'), Parameters(result)), [], 1, "");
  }

  lemma TypedAngles(list: seq<Token>, b: string, p: string, name: string)
    requires list == Typed(b, p, name)
    ensures TypeArguments(list, 1, 8)
  {
    assert AngleLevel(list, 1, 1) == 0;
    assert AngleLevel(list, 1, 2) == 1;
    assert AngleLevel(list, 1, 3) == 2;
    assert AngleLevel(list, 1, 4) == 1;
    assert AngleLevel(list, 1, 5) == 1;
    assert AngleLevel(list, 1, 6) == 1;
    assert AngleLevel(list, 1, 7) == 1;
    assert AngleLevel(list, 1, 8) == 0;
    forall k | 1 < k < 8 ensures AngleOpen(list, 1, k) {
    }
  }

  lemma TypedGroups(list: seq<Token>, b: string, p: string, name: string)
    requires list == Typed(b, p, name)
    ensures Group(list, 2, 4) && Group(list, 8, 11)
  {
    assert ClosingFrom(list, 3, 1) == 4;
    GroupIsClosing(list, 2, 4);
    assert ClosingFrom(list, 10, 1) == 11;
    assert ClosingFrom(list, 9, 1) == 11;
    GroupIsClosing(list, 8, 11);
  }

  lemma TypedIsCall(list: seq<Token>, b: string, p: string, name: string)
    requires list == Typed(b, p, name) && (name == "rejects" || name == "resolves")
    ensures IsCall(list, CallSite(0, 8, 11, 11), 1) && SiteAt(list, 0) == None
  {
    TypedAngles(list, b, p, name);
    TypedGroups(list, b, p, name);
    assert Accesses(list, 11, 13, name, 1);
    FunctionTypeIsMissed(list, CallSite(0, 8, 11, 11), 1, 4);
  }

  predicate NotExpect(t: Token) { t.kind != Name || t.text != "expect" }

  lemma {:induction false} FirstOnly(list: seq<Token>, n: nat)
    requires 0 < n <= |list| && forall k :: 1 <= k < |list| ==> NotExpect(list[k])
    ensures SitesTo(list, n) == SitesTo(list, 1)
  {
    if n > 1 {
      FirstOnly(list, n - 1);
    }
  }

  lemma TypedHasOne(list: seq<Token>, b: string, p: string, name: string)
    requires list == Typed(b, p, name) && b != "expect" && p != "expect" && (name == "rejects" || name == "resolves")
    ensures forall k :: 1 <= k < |list| ==> NotExpect(list[k])
  {
    assert |"expect"| == 6 && |"rejects"| == 7 && |"resolves"| == 8;
    assert NotExpect(list[6]) && NotExpect(list[9]) && NotExpect(list[12]);
    assert forall k :: 1 <= k < |list| && k != 6 && k != 9 && k != 12 ==> list[k].kind == Punct;
  }

  /** Of `expect<() => B>(p).rejects` the gate reports nothing, though it is a matched call. */
  lemma FunctionTypeHidesCall(a: Alphabet, b: string, p: string, name: string)
    requires Unicode(a) && Ascii(a) && AllLetters(b) && 0 < |b| <= 256 && AllLetters(p) && 0 < |p| <= 256
    requires b != "expect" && p != "expect" && (name == "rejects" || name == "resolves")
    ensures SpellAll(TypedCall(b, p, name)) == "expect<() => " + b + ">(" + p + ")." + name
    ensures IsCall(TokensOfAll(TypedCall(b, p, name), 1), CallSite(0, 8, 11, 11), 1)
    ensures Sites(Tokens(a, SpellAll(TypedCall(b, p, name)))) == []
  {
    var list := Typed(b, p, name);
    LettersFit(a, b);
    LettersFit(a, p);
    TypedTokens(b, p, name);
    TypedSpells(b, p, name);
    FitsTyped(a, b, p, name);
    RoundTrip(a, TypedCall(b, p, name));
    TypedIsCall(list, b, p, name);
    TypedHasOne(list, b, p, name);
    FirstOnly(list, |list|);
    assert SitesTo(list, 0) == [] && SitesTo(list, 1) == [];
  }

  lemma TypedSpells(b: string, p: string, name: string)
    requires OneLine(b) && OneLine(p)
    ensures SpellAll(TypedCall(b, p, name)) == "expect<() => " + b + ">(" + p + ")." + name
  {
    var tail := Tail(Only(p), name);
    var result := Cons(Identifier(b), Cons(Sign('>'), tail));
    TailSpells(p, name);
    SignTokens('>', tail, 1);
    WordTokens(b, Cons(Sign('>'), tail), 1);
    ParametersTokens(result, 1);
    SignTokens('<', Parameters(result), 1);
    WordTokens("expect", Cons(Sign('<'), Parameters(result)), 1);
    TypedText(b, p, name);
  }

  lemma TypedText(b: string, p: string, name: string)
    ensures "expect" + (['<'] + (['(', ')', ' ', '=', '>', ' '] + (b + (['>'] + TailText(p, name)))))
         == "expect<() => " + b + ">(" + p + ")." + name
  {
  }
}
