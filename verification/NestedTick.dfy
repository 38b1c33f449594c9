/** The nested-tick gate (`closing`, `member` and `nestedTickSites` in
    `scripts/architecture/nested-tick.ts`): where `expect(...)` is followed by `.rejects`
    or `.resolves`. */
module NestedTick {
  import opened Results
  import opened Lexer
  import opened LexerRoundTrip

  // ---- Bracket groups

  predicate TextIs(list: seq<Token>, i: int, text: string) {
    0 <= i < |list| && list[i].text == text
  }

  predicate IsOpen(t: Token) {
    Mark(t, '(') || Mark(t, '[') || Mark(t, '{')
  }

  predicate IsClose(t: Token) {
    Mark(t, ')') || Mark(t, ']') || Mark(t, '}')
  }

  function Turn(t: Token): int {
    if IsOpen(t) then 1 else if IsClose(t) then -1 else 0
  }

  /** Brackets opened and not closed. */
  function Level(list: seq<Token>): int {
    if list == [] then 0 else Level(list[..|list| - 1]) + Turn(list[|list| - 1])
  }

  function ClosingFrom(list: seq<Token>, i: nat, level: int): nat
    decreases |list| - i
  {
    if i >= |list| then |list|
    else if IsClose(list[i]) && level - 1 == 0 then i + 1
    else ClosingFrom(list, i + 1, level + Turn(list[i]))
  }

  /** Where the group that opens at `start` is behind us, counting brackets from there. */
  function Closing(list: seq<Token>, start: nat): nat {
    ClosingFrom(list, start, 0)
  }

  method FindClosing(list: seq<Token>, start: nat) returns (end: nat)
    ensures end == Closing(list, start)
  {
    var level := 0;
    var i := start;
    while i < |list|
      invariant ClosingFrom(list, i, level) == Closing(list, start)
    {
      if IsOpen(list[i]) {
        level := level + 1;
      } else if IsClose(list[i]) {
        level := level - 1;
        if level == 0 {
          return i + 1;
        }
      }
      i := i + 1;
    }
    end := |list|;
  }

  /** Every bracket opened from `start` on stays open up to `end`. */
  ghost predicate StaysOpen(list: seq<Token>, start: nat, end: nat) {
    forall k :: start < k < end <= |list| ==> OpenAt(list, start, k)
  }

  predicate OpenAt(list: seq<Token>, start: nat, k: nat)
    requires start <= k <= |list|
  {
    Level(list[start..k]) > 0
  }

  lemma LevelStep(list: seq<Token>, start: nat, i: nat)
    requires start <= i < |list|
    ensures Level(list[start..i + 1]) == Level(list[start..i]) + Turn(list[i])
  {
    var part := list[start..i + 1];
    assert part[..|part| - 1] == list[start..i];
  }

  lemma StaysOpenStep(list: seq<Token>, start: nat, i: nat)
    requires start < i < |list| && StaysOpen(list, start, i) && Level(list[start..i]) > 0
    ensures StaysOpen(list, start, i + 1)
  {
    assert OpenAt(list, start, i);
  }

  lemma {:induction false} ClosingFromIs(list: seq<Token>, start: nat, i: nat, level: int)
    requires start < i <= |list| && level == Level(list[start..i]) && level > 0
    requires StaysOpen(list, start, i)
    ensures var end := ClosingFrom(list, i, level);
      && start < end <= |list| && StaysOpen(list, start, end)
      && (Level(list[start..end]) == 0 || (end == |list| && Level(list[start..end]) > 0))
    decreases |list| - i
  {
    if i < |list| {
      LevelStep(list, start, i);
      StaysOpenStep(list, start, i);
      if !(IsClose(list[i]) && level - 1 == 0) {
        ClosingFromIs(list, start, i + 1, level + Turn(list[i]));
      }
    }
  }

  /** From an opening bracket, `Closing` finds the first place where every bracket is closed again,
      or the end of the list when there is none. */
  lemma ClosingIsGroup(list: seq<Token>, start: nat)
    requires start < |list| && IsOpen(list[start])
    ensures var end := Closing(list, start);
      && start < end <= |list| && StaysOpen(list, start, end)
      && (Level(list[start..end]) == 0 || (end == |list| && Level(list[start..end]) > 0))
  {
    LevelStep(list, start, start);
    assert list[start..start] == [];
    ClosingFromIs(list, start, start + 1, 1);
  }

  lemma GroupEndsAt(list: seq<Token>, start: nat, end: nat)
    requires start < end <= |list| && IsOpen(list[start])
    requires StaysOpen(list, start, end) && Level(list[start..end]) == 0
    ensures Closing(list, start) == end
  {
    ClosingIsGroup(list, start);
    var found := Closing(list, start);
    assert found < end ==> OpenAt(list, start, found);
    assert end < found ==> OpenAt(list, start, end);
  }

  // ---- Members and sites

  datatype Member = Member(name: string, line: nat, next: nat)

  /** `.name`, `?.name` or `['name']`. */
  function MemberAt(list: seq<Token>, at: nat): Option<Member> {
    var i := if TextIs(list, at, "?") && TextIs(list, at + 1, ".") then at + 1 else at;
    if i + 1 < |list| && list[i].kind == Punct && list[i].text == "." && list[i + 1].kind == Name then
      Some(Member(list[i + 1].text, list[i + 1].line, i + 2))
    else if i + 1 < |list| && list[i].kind == Punct && list[i].text == "[" && list[i + 1].kind == Str
            && TextIs(list, i + 2, "]") then
      Some(Member(list[i + 1].text, list[i + 1].line, i + 3))
    else None
  }

  /** The parenthesis after `expect`, past its type arguments. */
  function ParenFrom(list: seq<Token>, i: nat): nat
    decreases |list| - i
  {
    if i < |list| && list[i].text != "(" then ParenFrom(list, i + 1) else i
  }

  function Access(list: seq<Token>, paren: nat): Option<Member> {
    var first := MemberAt(list, Closing(list, paren));
    if first.Some? && first.value.name == "not" then MemberAt(list, first.value.next) else first
  }

  /** The line to report for the token at `index`, if it starts such a call. */
  function SiteAt(list: seq<Token>, index: nat): Option<nat>
    requires index < |list|
  {
    if list[index].kind != Name || list[index].text != "expect" || TextIs(list, index - 1, ".") then None
    else
      var paren := if TextIs(list, index + 1, "<") then ParenFrom(list, index + 1) else index + 1;
      if !TextIs(list, paren, "(") then None
      else
        var access := Access(list, paren);
        if access.Some? && (access.value.name == "rejects" || access.value.name == "resolves")
        then Some(access.value.line) else None
  }

  function SitesTo(list: seq<Token>, n: nat): seq<nat>
    requires n <= |list|
  {
    if n == 0 then []
    else
      var prior, site := SitesTo(list, n - 1), SiteAt(list, n - 1);
      if site.Some? then prior + [site.value] else prior
  }

  /** The lines to report in one file. */
  function Sites(list: seq<Token>): seq<nat> { SitesTo(list, |list|) }

  method FindSites(alphabet: Alphabet, source: string) returns (lines: seq<nat>)
    ensures lines == Sites(Tokens(alphabet, source))
  {
    var tokenizer := new Tokenizer(alphabet, source);
    tokenizer.Scan();
    var list := tokenizer.out;
    lines := [];
    for index := 0 to |list|
      invariant lines == SitesTo(list, index)
    {
      if list[index].kind != Name || list[index].text != "expect" || TextIs(list, index - 1, ".") {
        continue;
      }
      var i := index + 1;
      if TextIs(list, i, "<") {
        while i < |list| && list[i].text != "("
          invariant ParenFrom(list, i) == ParenFrom(list, index + 1)
        {
          i := i + 1;
        }
      }
      if !TextIs(list, i, "(") {
        continue;
      }
      var end := FindClosing(list, i);
      var access := MemberAt(list, end);
      if access.Some? && access.value.name == "not" {
        access := MemberAt(list, access.value.next);
      }
      if access.Some? && (access.value.name == "rejects" || access.value.name == "resolves") {
        lines := lines + [access.value.line];
      }
    }
  }

  lemma {:induction false} SiteIsReported(list: seq<Token>, index: nat, n: nat)
    requires index < n <= |list| && SiteAt(list, index).Some?
    ensures SiteAt(list, index).value in SitesTo(list, n)
  {
    if index < n - 1 { SiteIsReported(list, index, n - 1); }
  }

  // ---- What the gate sees

  /** Where a call stands: `expect`, its parenthesis, just past the group, and the member that is matched. */
  datatype CallSite = CallSite(at: nat, paren: nat, end: nat, matcher: nat)

  /** `.name`, `?.name` or `['name']` from `i` up to `next`, with the name on the line. */
  predicate Accesses(list: seq<Token>, i: nat, next: nat, name: string, line: nat) {
    && i < next <= |list|
    && (|| (next == i + 2 && Mark(list[i], '.') && list[i + 1] == Token(Name, name, line))
        || (next == i + 3 && list[i].text == "?" && Mark(list[i + 1], '.') && list[i + 2] == Token(Name, name, line))
        || (next == i + 3 && Mark(list[i], '[') && list[i + 1] == Token(Str, name, line) && list[i + 2].text == "]"))
  }

  /** The bracket group from `start` ends at `end`: all its brackets are closed there, and not before. (A string
      that reads `(` opens no group; the code counts on from it all the same.) */
  ghost predicate Group(list: seq<Token>, start: nat, end: nat) {
    && start < |list|
    && if IsOpen(list[start]) then
         start < end <= |list| && StaysOpen(list, start, end) && Level(list[start..end]) == 0
       else end == Closing(list, start)
  }

  /** `expect`, unless it is a method of that name, then the group from the next `(`, which is the next token, or
      any later one behind a `<`. */
  ghost predicate Scans(list: seq<Token>, c: CallSite) {
    && c.at < c.paren < |list|
    && list[c.at].kind == Name && list[c.at].text == "expect" && !TextIs(list, c.at - 1, ".")
    && (c.paren == c.at + 1 || TextIs(list, c.at + 1, "<"))
    && (forall k :: c.at < k < c.paren ==> list[k].text != "(")
    && list[c.paren].text == "("
    && Group(list, c.paren, c.end)
  }

  ghost predicate SkipsNot(list: seq<Token>, i: nat, next: nat) {
    exists line :: Accesses(list, i, next, "not", line)
  }

  ghost predicate Matches(list: seq<Token>, i: nat, line: nat) {
    exists next, name :: (name == "rejects" || name == "resolves") && Accesses(list, i, next, name, line)
  }

  /** Past one `not` or none, the call is matched with `rejects` or `resolves` on the line. */
  ghost predicate IsSeen(list: seq<Token>, c: CallSite, line: nat) {
    && Scans(list, c)
    && (c.matcher == c.end || SkipsNot(list, c.end, c.matcher))
    && Matches(list, c.matcher, line)
  }

  lemma MemberIs(list: seq<Token>, at: nat)
    ensures MemberAt(list, at).Some? ==>
              var m := MemberAt(list, at).value; Accesses(list, at, m.next, m.name, m.line)
    ensures forall next, name, line | Accesses(list, at, next, name, line) ::
              MemberAt(list, at) == Some(Member(name, line, next))
  {
  }

  lemma {:induction false} ParenIs(list: seq<Token>, i: nat, paren: nat)
    requires i <= paren < |list| && list[paren].text == "(" && forall k :: i <= k < paren ==> list[k].text != "("
    ensures ParenFrom(list, i) == paren
    decreases paren - i
  {
    if i < paren { ParenIs(list, i + 1, paren); }
  }

  lemma {:induction false} ParenFound(list: seq<Token>, i: nat)
    ensures var paren := ParenFrom(list, i);
      i <= paren && forall k :: i <= k < paren && k < |list| ==> list[k].text != "("
    decreases |list| - i
  {
    if i < |list| && list[i].text != "(" { ParenFound(list, i + 1); }
  }

  lemma GroupIsClosing(list: seq<Token>, start: nat, end: nat)
    requires start < |list|
    ensures Group(list, start, end) ==> Closing(list, start) == end
    ensures Closing(list, start) == end < |list| ==> Group(list, start, end)
  {
    if IsOpen(list[start]) {
      ClosingIsGroup(list, start);
      if Group(list, start, end) { GroupEndsAt(list, start, end); }
    }
  }

  lemma AccessIs(list: seq<Token>, paren: nat, matcher: nat, line: nat)
    requires var end := Closing(list, paren); matcher == end || SkipsNot(list, end, matcher)
    requires Matches(list, matcher, line)
    ensures Access(list, paren).Some? && Access(list, paren).value.line == line
    ensures Access(list, paren).value.name in ["rejects", "resolves"]
  {
    MemberIs(list, Closing(list, paren));
    MemberIs(list, matcher);
  }

  lemma AccessFound(list: seq<Token>, paren: nat) returns (matcher: nat)
    requires Access(list, paren).Some? && Access(list, paren).value.name in ["rejects", "resolves"]
    ensures var end := Closing(list, paren); end < |list| && (matcher == end || SkipsNot(list, end, matcher))
    ensures Matches(list, matcher, Access(list, paren).value.line)
  {
    var end := Closing(list, paren);
    MemberIs(list, end);
    var first := MemberAt(list, end).value;
    matcher := if first.name == "not" then first.next else end;
    MemberIs(list, matcher);
  }

  lemma SeenIsReported(list: seq<Token>, c: CallSite, line: nat)
    requires IsSeen(list, c, line)
    ensures SiteAt(list, c.at) == Some(line)
  {
    ParenIs(list, c.at + 1, c.paren);
    GroupIsClosing(list, c.paren, c.end);
    AccessIs(list, c.paren, c.matcher, line);
  }

  lemma ReportedIsSeen(list: seq<Token>, index: nat, line: nat) returns (c: CallSite)
    requires index < |list| && SiteAt(list, index) == Some(line)
    ensures c.at == index && IsSeen(list, c, line)
  {
    var paren := if TextIs(list, index + 1, "<") then ParenFrom(list, index + 1) else index + 1;
    ParenFound(list, index + 1);
    var matcher := AccessFound(list, paren);
    GroupIsClosing(list, paren, Closing(list, paren));
    c := CallSite(index, paren, Closing(list, paren), matcher);
  }

  /** A token is reported on a line exactly when the gate sees a matched call start there. */
  lemma SiteIsSeen(list: seq<Token>, index: nat, line: nat)
    requires index < |list|
    ensures SiteAt(list, index) == Some(line) <==> exists c: CallSite :: c.at == index && IsSeen(list, c, line)
  {
    if c: CallSite :| c.at == index && IsSeen(list, c, line) {
      SeenIsReported(list, c, line);
    }
    if SiteAt(list, index) == Some(line) {
      var c := ReportedIsSeen(list, index, line);
    }
  }

  lemma {:induction false} SitesToAre(list: seq<Token>, n: nat, line: nat)
    requires n <= |list|
    ensures line in SitesTo(list, n) <==> exists i: nat :: i < n && SiteAt(list, i) == Some(line)
  {
    if n > 0 { SitesToAre(list, n - 1, line); }
  }

  /** The gate reports exactly the lines of the matched calls it sees. */
  lemma SitesAreSeen(list: seq<Token>, line: nat)
    ensures line in Sites(list) <==> exists c :: IsSeen(list, c, line)
  {
    SitesToAre(list, |list|, line);
    if i: nat :| i < |list| && SiteAt(list, i) == Some(line) {
      SiteIsSeen(list, i, line);
    }
    if c :| IsSeen(list, c, line) {
      SiteIsSeen(list, c.at, line);
    }
  }

  predicate NoneExpect(list: seq<Token>) {
    forall t <- list :: t.kind == Name ==> t.text != "expect"
  }

  lemma {:induction false} NoExpect(list: seq<Token>, n: nat)
    requires n <= |list| && NoneExpect(list)
    ensures SitesTo(list, n) == []
  {
    if n > 0 {
      assert list[n - 1] in list;
      NoExpect(list, n - 1);
    }
  }

  // ---- A call in the source is reported, whatever its arguments are spelled with

  /** Brackets close in order and none is left open. */
  ghost predicate Balanced(tokens: seq<Token>) {
    Level(tokens) == 0 && forall k :: 0 <= k <= |tokens| ==> NotBelow(tokens, k)
  }

  predicate NotBelow(tokens: seq<Token>, k: nat)
    requires k <= |tokens|
  {
    Level(tokens[..k]) >= 0
  }

  lemma {:induction false} LevelJoin(a: seq<Token>, b: seq<Token>)
    ensures Level(a + b) == Level(a) + Level(b)
  {
    if b == [] {
      assert a + b == a;
    } else {
      var whole := a + b;
      assert whole[..|whole| - 1] == a + b[..|b| - 1];
      LevelJoin(a, b[..|b| - 1]);
    }
  }

  lemma OneLevel(t: Token)
    ensures Level([t]) == Turn(t)
  {
    assert [t][..0] == [];
  }

  /** A parenthesis, balanced tokens and a parenthesis are one group. */
  lemma CallIsGroup(list: seq<Token>, start: nat, open: Token, inner: seq<Token>, close: Token, rest: seq<Token>)
    requires start <= |list| && list[start..] == [open] + (inner + ([close] + rest))
    requires IsOpen(open) && IsClose(close) && Balanced(inner)
    ensures Closing(list, start) == start + |inner| + 2 <= |list|
  {
    var end := start + |inner| + 2;
    var tail := list[start..];
    assert tail[0] == open && list[start] == tail[0];
    forall k | start < k < end ensures OpenAt(list, start, k) {
      var n := k - start - 1;
      assert NotBelow(inner, n);
      assert list[start..k] == tail[..k - start] == [open] + inner[..n];
      LevelJoin([open], inner[..n]);
      OneLevel(open);
    }
    assert list[start..end] == tail[..end - start] == ([open] + inner) + [close];
    LevelJoin([open] + inner, [close]);
    LevelJoin([open], inner);
    OneLevel(open);
    OneLevel(close);
    GroupEndsAt(list, start, end);
  }

  function Append(a: Items, b: Items): Items {
    match a
    case Nil => b
    case Cons(first, rest) => Cons(first, Append(rest, b))
  }

  lemma {:induction false} AppendSpells(a: Items, b: Items)
    ensures SpellAll(Append(a, b)) == SpellAll(a) + SpellAll(b)
  {
    if a.Cons? { AppendSpells(a.rest, b); }
  }

  lemma Regroup(a: seq<Token>, b: seq<Token>, c: seq<Token>)
    ensures a + (b + c) == (a + b) + c
  {
  }

  lemma {:induction false} AppendTokens(a: Items, b: Items, line: nat, end: nat)
    requires end == line + Newlines(SpellAll(a))
    ensures TokensOfAll(Append(a, b), line) == TokensOfAll(a, line) + TokensOfAll(b, end)
  {
    if a.Nil? {
      assert Breaks("") == {};
      assert [] + TokensOfAll(b, line) == TokensOfAll(b, line);
    } else {
      var next := line + Newlines(Spell(a.first));
      var first := ConsTokens(a.first, a.rest, line, next);
      var same := ConsTokens(a.first, Append(a.rest, b), line, next);
      AppendTokens(a.rest, b, next, end);
      Regroup(first, TokensOfAll(a.rest, next), TokensOfAll(b, end));
    }
  }

  lemma ConsTokens(item: Item, rest: Items, line: nat, next: nat) returns (first: seq<Token>)
    requires next == line + Newlines(Spell(item))
    ensures first == TokensOf(item, line)
    ensures TokensOfAll(Cons(item, rest), line) == first + TokensOfAll(rest, next)
    ensures line + Newlines(SpellAll(Cons(item, rest))) == next + Newlines(SpellAll(rest))
  {
    first := TokensOf(item, line);
    NewlinesJoin(Spell(item), SpellAll(rest));
  }

  /** `).rejects` or `).resolves`. */
  function Matcher(name: string): Items {
    Cons(Sign(')'), Cons(Sign('.'), Cons(Identifier(name), Nil)))
  }

  /** `expect(<arguments>).<name>`. */
  function Call(arguments: Items, name: string): Items {
    Cons(Identifier("expect"), Cons(Sign('('), Append(arguments, Matcher(name))))
  }

  /** The tokens from `expect` on. */
  function FromExpect(inner: seq<Token>, name: string, line: nat, end: nat, rest: seq<Token>): seq<Token> {
    [Token(Name, "expect", line)]
      + ([Token(Punct, ['('], line)]
           + (inner + ([Token(Punct, [')'], end)] + ([Token(Punct, ['.'], end)] + ([Token(Name, name, end)] + rest)))))
  }

  lemma MatcherTokens(name: string, after: Items, line: nat)
    ensures TokensOfAll(Append(Matcher(name), after), line)
         == [Token(Punct, [')'], line)]
              + ([Token(Punct, ['.'], line)] + ([Token(Name, name, line)] + TokensOfAll(after, line + Newlines(name))))
  {
    var word := Cons(Identifier(name), after);
    var dot := Cons(Sign('.'), word);
    OneChar(')');
    OneChar('.');
    assert Append(Cons(Identifier(name), Nil), after) == word;
    assert Append(Cons(Sign('.'), Cons(Identifier(name), Nil)), after) == dot;
    assert Append(Matcher(name), after) == Cons(Sign(')'), dot);
    assert TokensOfAll(Cons(Sign(')'), dot), line) == [Token(Punct, [')'], line)] + TokensOfAll(dot, line);
    assert TokensOfAll(dot, line) == [Token(Punct, ['.'], line)] + TokensOfAll(word, line);
  }

  lemma {:induction false} AppendAppend(a: Items, b: Items, c: Items)
    ensures Append(Append(a, b), c) == Append(a, Append(b, c))
  {
    if a.Cons? { AppendAppend(a.rest, b, c); }
  }

  lemma HeadTokens(inside: Items, line: nat)
    ensures TokensOfAll(Cons(Identifier("expect"), Cons(Sign('('), inside)), line)
         == [Token(Name, "expect", line)] + ([Token(Punct, ['('], line)] + TokensOfAll(inside, line))
  {
    var open := Cons(Sign('('), inside);
    NoneIn("expect");
    OneChar('(');
    assert TokensOfAll(Cons(Identifier("expect"), open), line)
        == [Token(Name, "expect", line)] + TokensOfAll(open, line);
  }

  lemma CallTokens(arguments: Items, name: string, after: Items, line: nat, end: nat)
    requires end == line + Newlines(SpellAll(arguments))
    ensures TokensOfAll(Append(Call(arguments, name), after), line)
         == FromExpect(TokensOfAll(arguments, line), name, line, end, TokensOfAll(after, end + Newlines(name)))
  {
    var inside := Append(arguments, Append(Matcher(name), after));
    AppendAppend(arguments, Matcher(name), after);
    assert Append(Call(arguments, name), after) == Cons(Identifier("expect"), Cons(Sign('('), inside));
    HeadTokens(inside, line);
    InsideTokens(arguments, name, after, line, end);
  }

  lemma InsideTokens(arguments: Items, name: string, after: Items, line: nat, end: nat)
    requires end == line + Newlines(SpellAll(arguments))
    ensures TokensOfAll(Append(arguments, Append(Matcher(name), after)), line)
         == TokensOfAll(arguments, line)
              + ([Token(Punct, [')'], end)]
                   + ([Token(Punct, ['.'], end)] + ([Token(Name, name, end)]
                       + TokensOfAll(after, end + Newlines(name)))))
  {
    AppendTokens(arguments, Append(Matcher(name), after), line, end);
    MatcherTokens(name, after, end);
  }

  /** Where the list goes on with such a call, the call's line is a site. */
  lemma CallIsSite(list: seq<Token>, index: nat, inner: seq<Token>, line: nat, end: nat, name: string, rest: seq<Token>)
    requires index < |list| && Balanced(inner) && (name == "rejects" || name == "resolves")
    requires !TextIs(list, index - 1, ".")
    requires list[index..] == FromExpect(inner, name, line, end, rest)
    ensures SiteAt(list, index) == Some(end)
  {
    var after := [Token(Punct, ['.'], end)] + ([Token(Name, name, end)] + rest);
    var tail := [Token(Punct, ['('], line)] + (inner + ([Token(Punct, [')'], end)] + after));
    assert list[index] == list[index..][0];
    assert list[index + 1..] == list[index..][1..] == tail;
    CallIsGroup(list, index + 1, Token(Punct, ['('], line), inner, Token(Punct, [')'], end), after);
    var past := index + 1 + |inner| + 2;
    assert list[past..] == tail[|inner| + 2..] == after;
    assert list[past] == after[0] && list[past + 1] == after[1];
    assert list[index + 1] == tail[0];
    AccessOf(list, index + 1, past, end, name);
  }

  lemma AccessOf(list: seq<Token>, paren: nat, past: nat, end: nat, name: string)
    requires Closing(list, paren) == past && past + 1 < |list|
    requires list[past] == Token(Punct, ['.'], end) && list[past + 1] == Token(Name, name, end) && name != "not"
    ensures Access(list, paren) == Some(Member(name, end, past + 2))
  {
  }

  /** In any program that reads back, a call `expect(...).rejects` or `.resolves` whose arguments have balanced
      brackets is reported on the line of the matcher, whatever comments, strings and templates it holds. */
  lemma CallIsReported(a: Alphabet, before: Items, arguments: Items, name: string, after: Items, line: nat, end: nat)
    requires name == "rejects" || name == "resolves"
    requires Unicode(a) && FitsAll(a, Append(before, Append(Call(arguments, name), after)), [], 1, "")
    requires line == 1 + Newlines(SpellAll(before)) && end == line + Newlines(SpellAll(arguments))
    requires Balanced(TokensOfAll(arguments, line))
    requires TokensOfAll(before, 1) != [] ==> TokensOfAll(before, 1)[|TokensOfAll(before, 1)| - 1].text != "."
    ensures end in Sites(Tokens(a, SpellAll(Append(before, Append(Call(arguments, name), after)))))
  {
    CallTokens(arguments, name, after, line, end);
    Reported(a, before, Append(Call(arguments, name), after), TokensOfAll(arguments, line), line, end, name,
             TokensOfAll(after, end + Newlines(name)));
  }

  lemma Reported(a: Alphabet, before: Items, call: Items, inner: seq<Token>, line: nat, end: nat, name: string,
        rest: seq<Token>)
    requires Unicode(a) && FitsAll(a, Append(before, call), [], 1, "") && line == 1 + Newlines(SpellAll(before))
    requires TokensOfAll(call, line) == FromExpect(inner, name, line, end, rest)
    requires Balanced(inner) && (name == "rejects" || name == "resolves")
    requires TokensOfAll(before, 1) != [] ==> TokensOfAll(before, 1)[|TokensOfAll(before, 1)| - 1].text != "."
    ensures end in Sites(Tokens(a, SpellAll(Append(before, call))))
  {
    RoundTrip(a, Append(before, call));
    AppendTokens(before, call, 1, line);
    CallAt(Tokens(a, SpellAll(Append(before, call))), TokensOfAll(before, 1), inner, line, end, name, rest);
  }

  lemma CallAt(list: seq<Token>, first: seq<Token>, inner: seq<Token>, line: nat, end: nat, name: string,
        rest: seq<Token>)
    requires Balanced(inner) && (name == "rejects" || name == "resolves")
    requires first != [] ==> first[|first| - 1].text != "."
    requires list == first + FromExpect(inner, name, line, end, rest)
    ensures end in Sites(list)
  {
    assert list[|first|..] == FromExpect(inner, name, line, end, rest);
    CallIsSite(list, |first|, inner, line, end, name, rest);
    SiteIsReported(list, |first|, |list|);
  }
}
