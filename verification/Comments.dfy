/** Markdown without its comments, so that a reason hidden in one does not count
    (`withoutComments` and `withoutCommentsOnce` in `scripts/ci/budgets.ts`). */
module Comments {
  import opened Results

  const OPENER := "<!--"

  predicate Opens(text: string) {
    |text| >= 4 && text[0] == '<' && text[1] == '!' && text[2] == '-' && text[3] == '-'
  }

  predicate Closes(text: string) {
    |text| >= 3 && text[0] == '-' && text[1] == '-' && text[2] == '>'
  }

  function Later(place: Option<nat>): Option<nat> {
    if place.None? then None else Some(place.value + 1)
  }

  /** `text.indexOf('<!--')`. */
  function OpenIn(text: string): (r: Option<nat>)
    ensures r.Some? ==> r.value + 4 <= |text|
  {
    if text == "" then None else if Opens(text) then Some(0) else Later(OpenIn(text[1..]))
  }

  /** `text.indexOf('-->')`. */
  function CloseIn(text: string): (r: Option<nat>)
    ensures r.Some? ==> r.value + 3 <= |text|
  {
    if text == "" then None else if Closes(text) then Some(0) else Later(CloseIn(text[1..]))
  }

  /** What follows the comment that opens at `open`. */
  function Behind(text: string, open: nat): (r: Option<string>)
    requires open + 4 <= |text|
    ensures r.Some? ==> |r.value| < |text| - open - 4
  {
    var inside := text[open + 4..];
    var close := CloseIn(inside);
    if close.None? then None else Some(inside[close.value + 3..])
  }

  /** One pass. */
  function Strip(text: string): string
    decreases |text|
  {
    var open := OpenIn(text);
    if open.None? then text
    else
      var rest := Behind(text, open.value);
      if rest.None? then text[..open.value] else text[..open.value] + Strip(rest.value)
  }

  /** One comment of a pass. */
  lemma PassStep(rest: string, open: nat, inside: string)
    requires OpenIn(rest) == Some(open) && inside == rest[open + 4..]
    ensures Strip(rest)
         == if CloseIn(inside).None? then rest[..open]
            else rest[..open] + Strip(inside[CloseIn(inside).value + 3..])
  {
  }

  /** The position `at` of the original is the text from there on. */
  method WithoutCommentsOnce(text: string) returns (kept: string)
    ensures kept == Strip(text)
  {
    kept := "";
    var rest := text;
    var open := OpenIn(rest);
    while open.Some?
      invariant open == OpenIn(rest) && kept + Strip(rest) == Strip(text)
      decreases |rest|
    {
      var inside := rest[open.value + 4..];
      PassStep(rest, open.value, inside);
      ghost var before, cut := kept, rest[..open.value];
      kept := kept + rest[..open.value];
      var close := CloseIn(inside);
      if close.None? {
        return;
      }
      rest := inside[close.value + 3..];
      Regroup(before, cut, Strip(rest));
      open := OpenIn(rest);
    }
    kept := kept + rest;
  }

  lemma Regroup(a: string, b: string, c: string)
    ensures (a + b) + c == a + (b + c)
  {
  }

  predicate HasOpener(text: string) {
    exists i :: 0 <= i <= |text| && Opens(text[i..])
  }

  lemma {:induction false} FoundOpener(text: string)
    ensures OpenIn(text).Some? ==> Opens(text[OpenIn(text).value..])
  {
    if text != "" {
      if Opens(text) {
        assert text[0..] == text;
      } else {
        FoundOpener(text[1..]);
        if OpenIn(text).Some? {
          assert text[1..][OpenIn(text).value - 1..] == text[OpenIn(text).value..];
        }
      }
    }
  }

  lemma {:induction false} FirstOpener(text: string, i: nat)
    requires i <= |text| && Opens(text[i..])
    ensures OpenIn(text).Some? && OpenIn(text).value <= i
  {
    if i == 0 {
      assert text[0..] == text;
    } else {
      assert text[1..][i - 1..] == text[i..];
      FirstOpener(text[1..], i - 1);
    }
  }

  lemma {:induction false} StripShrinks(text: string)
    ensures |Strip(text)| <= |text|
    ensures OpenIn(text).Some? ==> |Strip(text)| <= |text| - 4
    decreases |text|
  {
    var open := OpenIn(text);
    if open.Some? {
      var rest := Behind(text, open.value);
      if rest.Some? {
        StripShrinks(rest.value);
      }
    }
  }

  /** A pass returns its input when there is no opener, and a text shorter by at least one opener otherwise. */
  lemma PassIsIdentityIffClean(text: string)
    ensures Strip(text) == text <==> !HasOpener(text)
    ensures HasOpener(text) ==> |Strip(text)| <= |text| - 4
  {
    StripShrinks(text);
    FoundOpener(text);
    if i :| 0 <= i <= |text| && Opens(text[i..]) {
      FirstOpener(text, i);
    }
  }

  function WithoutComments(text: string): string
    decreases |text|
  {
    PassIsIdentityIffClean(text);
    var once := Strip(text);
    if once == text then text else WithoutComments(once)
  }

  // ---- What is left

  /** `some` is `whole` with characters taken out. */
  predicate Subsequence(some: string, whole: string) {
    if some == "" then true
    else if whole == "" then false
    else if some[0] == whole[0] && Subsequence(some[1..], whole[1..]) then true
    else Subsequence(some, whole[1..])
  }

  lemma {:induction false} SameIsSubsequence(text: string)
    ensures Subsequence(text, text)
  {
    if text != "" { SameIsSubsequence(text[1..]); }
  }

  lemma {:induction false} BehindSkipped(some: string, skipped: string, whole: string)
    requires Subsequence(some, whole)
    ensures Subsequence(some, skipped + whole)
  {
    if skipped == "" {
      assert skipped + whole == whole;
    } else {
      BehindSkipped(some, skipped[1..], whole);
      assert (skipped + whole)[1..] == skipped[1..] + whole;
    }
  }

  lemma {:induction false} BehindKept(kept: string, some: string, whole: string)
    requires Subsequence(some, whole)
    ensures Subsequence(kept + some, kept + whole)
  {
    if kept == "" {
      assert kept + some == some && kept + whole == whole;
    } else {
      BehindKept(kept[1..], some, whole);
      assert (kept + some)[1..] == kept[1..] + some && (kept + whole)[1..] == kept[1..] + whole;
    }
  }

  lemma {:induction false} StripIsSubsequence(text: string)
    ensures Subsequence(Strip(text), text)
    decreases |text|
  {
    var open := OpenIn(text);
    if open.None? {
      SameIsSubsequence(text);
    } else {
      var kept, tail := text[..open.value], text[open.value..];
      var rest := Behind(text, open.value);
      assert text == kept + tail;
      if rest.None? {
        BehindKept(kept, "", tail);
        assert kept + "" == kept;
      } else {
        StripIsSubsequence(rest.value);
        var skipped := tail[..|tail| - |rest.value|];
        assert tail == skipped + rest.value;
        BehindSkipped(Strip(rest.value), skipped, rest.value);
        BehindKept(kept, Strip(rest.value), tail);
      }
    }
  }

  lemma {:induction false} SubsequenceIsTransitive(a: string, b: string, c: string)
    requires Subsequence(a, b) && Subsequence(b, c)
    ensures Subsequence(a, c)
    decreases |b| + |c|
  {
    if a != "" && b != "" && c != "" {
      if b[0] == c[0] && Subsequence(b[1..], c[1..]) {
        if a[0] == b[0] && Subsequence(a[1..], b[1..]) {
          SubsequenceIsTransitive(a[1..], b[1..], c[1..]);
        } else {
          SubsequenceIsTransitive(a, b[1..], c[1..]);
        }
      } else {
        SubsequenceIsTransitive(a, b, c[1..]);
      }
    }
  }

  /** No comment can be opened in what is left, which is the input with characters taken out, and
      removing comments again changes nothing. */
  lemma {:induction false} NothingHidden(text: string)
    ensures !HasOpener(WithoutComments(text))
    ensures Subsequence(WithoutComments(text), text)
    ensures WithoutComments(WithoutComments(text)) == WithoutComments(text)
    decreases |text|
  {
    PassIsIdentityIffClean(text);
    var once := Strip(text);
    if once == text {
      SameIsSubsequence(text);
    } else {
      NothingHidden(once);
      StripIsSubsequence(text);
      SubsequenceIsTransitive(WithoutComments(once), once, text);
    }
  }

  // ---- What a pass removes

  lemma {:induction false} OpenBehind(plain: string, rest: string)
    requires OpenIn(plain).None?
    ensures OpenIn(plain + (OPENER + rest)) == Some(|plain|)
  {
    var text := plain + (OPENER + rest);
    if plain == "" {
      assert text == OPENER + rest;
    } else {
      OpenBehind(plain[1..], rest);
      assert text[1..] == plain[1..] + (OPENER + rest);
      assert |plain| <= 3 ==> text[|plain|] == '<';
    }
  }

  /** A pass cuts a comment out of the text around it: up to its first closer, or to the end without one. */
  lemma PassCutsComment(plain: string, comment: string)
    requires !HasOpener(plain)
    ensures CloseIn(comment).None? ==> Strip(plain + (OPENER + comment)) == plain
    ensures CloseIn(comment).Some? ==>
      Strip(plain + (OPENER + comment)) == plain + Strip(comment[CloseIn(comment).value + 3..])
  {
    var text := plain + (OPENER + comment);
    FoundOpener(plain);
    OpenBehind(plain, comment);
    Around(plain, OPENER, comment);
    PassStep(text, |plain|, comment);
  }

  lemma Around(plain: string, middle: string, comment: string)
    requires |middle| == 4
    ensures (plain + (middle + comment))[..|plain|] == plain && (plain + (middle + comment))[|plain| + 4..] == comment
  {
  }
}
