/** The brace matchers.  One knows about quoted strings and two do not; they agree on every block whose
    strings keep their own braces balanced. */
module Blocks {
  import opened Options

  // ---------------------------------------------------------------- brackets

  /** Opening braces less closing ones. */
  function Depth(text: string): int {
    if text == "" then 0 else Depth(text[..|text| - 1]) + Weight(text[|text| - 1])
  }

  function Weight(c: char): int {
    if c == '{' then 1 else if c == '}' then -1 else 0
  }

  /** Every brace has its partner, in order. */
  predicate Balanced(text: string) {
    Depth(text) == 0 && forall n | 0 <= n <= |text| :: Depth(text[..n]) >= 0
  }

  // ---------------------------------------------------------------- with strings

  /** Python's `text[i - 1]`: before the first character stands the last one. */
  function Before(text: string, i: nat): char
    requires i < |text|
  {
    if i > 0 then text[i - 1] else text[|text| - 1]
  }

  /** A quote that opens or closes a string. */
  predicate Quotes(text: string, i: nat)
    requires i < |text|
  {
    text[i] == '"' && Before(text, i) != '\\'
  }

  /** Whether position `i` is inside a string, reading from `from`. */
  predicate InString(text: string, from: nat, i: nat)
    requires from <= i <= |text|
  {
    if i == from then false
    else if Quotes(text, i - 1) then !InString(text, from, i - 1) else InString(text, from, i - 1)
  }

  /** The depth at `i`, braces inside strings not counted. */
  function AwareDepth(text: string, from: nat, i: nat, start: int): int
    requires from <= i <= |text|
  {
    if i == from then start
    else
      AwareDepth(text, from, i - 1, start)
      + if Quotes(text, i - 1) || InString(text, from, i - 1) then 0 else Weight(text[i - 1])
  }

  /** The block opened before `from` closes at this brace, for a reader who knows strings. */
  predicate Closes(text: string, from: nat, close: nat)
    requires from <= |text|
  {
    && from <= close < |text| && AwareDepth(text, from, close + 1, 1) == 0
    && forall j | from <= j <= close :: AwareDepth(text, from, j, 1) != 0
  }

  /** ... and for one who does not. */
  predicate BlindlyCloses(text: string, from: nat, close: nat)
    requires from <= |text|
  {
    && from <= close < |text| && Depth(text[from..close + 1]) == -1
    && forall j | from <= j <= close :: Depth(text[from..j]) != -1
  }

  ghost predicate IsBlindBody(text: string, from: nat, body: string)
    requires from <= |text|
  {
    exists close: nat :: BlindlyCloses(text, from, close) && body == text[from..close]
  }

  ghost predicate NeverCloses(text: string, from: nat)
    requires from <= |text|
  {
    forall close: nat :: !BlindlyCloses(text, from, close)
  }

  lemma DepthMore(text: string, from: nat, j: nat)
    requires from <= j < |text|
    ensures Depth(text[from..j + 1]) == Depth(text[from..j]) + Weight(text[j])
  {
    assert text[from..j + 1][..j - from] == text[from..j];
  }

  /** There is one closing brace at most. */
  lemma BlindlyClosesOnce(text: string, from: nat, a: nat, b: nat)
    requires from <= |text| && BlindlyCloses(text, from, a) && BlindlyCloses(text, from, b)
    ensures a == b
  {
    NotBlindlyBefore(text, from, a, b + 1);
    NotBlindlyBefore(text, from, b, a + 1);
  }

  lemma NotBlindlyBefore(text: string, from: nat, close: nat, j: nat)
    requires from <= |text| && BlindlyCloses(text, from, close) && from <= j <= |text| && Depth(text[from..j]) == -1
    ensures j > close
  {
  }

  // ---------------------------------------------------------------- the three scanners

  /** `_blocks` in generate-topology.py, from just inside the opening brace.  An unclosed block is cut
      one character before the end of the text. */
  method TopologyBody(text: string, from: nat) returns (body: string)
    requires 0 < from <= |text|
    ensures forall close: nat | Closes(text, from, close) :: body == text[from..close]
    ensures (forall close: nat :: !Closes(text, from, close)) ==> body == if from < |text| then text[from..|text| - 1]
                                                                          else ""
  {
    var depth, i, inStr := 1, from, false;
    while i < |text| && depth != 0
      invariant from <= i <= |text|
      invariant inStr == InString(text, from, i) && depth == AwareDepth(text, from, i, 1)
      invariant forall j | from <= j < i :: AwareDepth(text, from, j, 1) != 0
    {
      var c := text[i];
      if c == '"' && text[i - 1] != '\\' {
        inStr := !inStr;
      } else if !inStr {
        if c == '{' { depth := depth + 1; } else if c == '}' { depth := depth - 1; }
      }
      i := i + 1;
    }
    if depth == 0 { assert Closes(text, from, i - 1); }
    body := if from < i then text[from..i - 1] else "";
  }

  /** `blocks` in generate-schema.py, from the opening brace; an unclosed block is refused. */
  method SchemaBody(text: string, open: nat) returns (body: Option<string>)
    requires open < |text| && text[open] == '{'
    ensures if body.Some? then IsBlindBody(text, open + 1, body.value) else NeverCloses(text, open + 1)
  {
    hide Depth;
    var depth := 0;
    NoDepth(text, open + 1);
    for i := open to |text|
      invariant if i == open then depth == 0 else depth == Depth(text[open + 1..i]) + 1 && depth >= 1
      invariant NeverClosed(text, open + 1, i)
    {
      if i > open { DepthMore(text, open + 1, i); }
      if text[i] == '{' {
        depth := depth + 1;
      } else if text[i] == '}' {
        depth := depth - 1;
        if depth == 0 {
          assert BlindlyCloses(text, open + 1, i);
          return Some(text[open + 1..i]);
        }
      }
    }
    NeverIsNowhere(text, open + 1);
    body := None;
  }

  lemma NoDepth(text: string, from: nat)
    requires from <= |text|
    ensures Depth(text[from..from]) == 0
  {
  }

  predicate NeverClosed(text: string, from: nat, i: nat)
    requires from <= |text|
  {
    forall j | from <= j <= i && j <= |text| :: Depth(text[from..j]) != -1
  }

  predicate OccursAt(text: string, marker: string, at: nat) {
    at + |marker| <= |text| && text[at..at + |marker|] == marker
  }

  /** `str.find`. */
  method Find(text: string, marker: string) returns (at: Option<nat>)
    ensures at.None? ==> forall k: nat :: !OccursAt(text, marker, k)
    ensures at.Some? ==> OccursAt(text, marker, at.value) && forall k: nat | k < at.value :: !OccursAt(text, marker, k)
  {
    var k: nat := 0;
    while k + |marker| <= |text|
      invariant forall j: nat | j < k :: !OccursAt(text, marker, j)
    {
      if text[k..k + |marker|] == marker { return Some(k); }
      k := k + 1;
    }
    at := None;
  }

  function Marker(name: string): string { "module \"" + name + "\" {" }

  /** The block opened by the first marker of the text. */
  ghost predicate IsModuleBody(text: string, marker: string, body: string) {
    exists at: nat :: OccursAt(text, marker, at) && (forall k: nat | k < at :: !OccursAt(text, marker, k))
                      && IsBlindBody(text, at + |marker|, body)
  }

  /** `_module_block` in sizing.py: the first file in which the module's block opens and closes. */
  method ModuleBlock(files: seq<string>, name: string) returns (body: Option<string>)
    ensures body.Some? ==> exists k :: 0 <= k < |files| && IsModuleBody(files[k], Marker(name), body.value)
                                       && forall j, b | 0 <= j < k :: !IsModuleBody(files[j], Marker(name), b)
    ensures body.None? ==> forall k, b | 0 <= k < |files| :: !IsModuleBody(files[k], Marker(name), b)
  {
    hide Depth;
    var marker := Marker(name);
    for f := 0 to |files|
      invariant forall j, b | 0 <= j < f :: !IsModuleBody(files[j], marker, b)
    {
      var text := files[f];
      var found := Find(text, marker);
      if found.None? { continue; }
      var open := found.value + |marker| - 1;
      assert text[open] == text[found.value..found.value + |marker|][|marker| - 1];
      var depth := 0;
      NoDepth(text, open + 1);
      for i := open to |text|
        invariant if i == open then depth == 0 else depth == Depth(text[open + 1..i]) + 1 && depth >= 1
        invariant NeverClosed(text, open + 1, i)
      {
        if i > open { DepthMore(text, open + 1, i); }
        if text[i] == '{' {
          depth := depth + 1;
        } else if text[i] == '}' {
          depth := depth - 1;
          if depth == 0 {
            assert BlindlyCloses(text, found.value + |marker|, i);
            assert IsBlindBody(text, found.value + |marker|, text[open + 1..i]);
            assert IsModuleBody(text, marker, text[open + 1..i]);
            return Some(text[open + 1..i]);
          }
        }
      }
      NotClosed(text, marker, found.value);
    }
    body := None;
  }

  lemma NotClosed(text: string, marker: string, at: nat)
    requires OccursAt(text, marker, at) && forall k: nat | k < at :: !OccursAt(text, marker, k)
    requires NeverClosed(text, at + |marker|, |text|)
    ensures forall b :: !IsModuleBody(text, marker, b)
  {
    hide Depth;
    NeverIsNowhere(text, at + |marker|);
  }

  lemma NeverIsNowhere(text: string, from: nat)
    requires from <= |text| && NeverClosed(text, from, |text|)
    ensures NeverCloses(text, from)
  {
  }

  // ---------------------------------------------------------------- they agree

  /** A string opens at `a` and is still open at `b`. */
  predicate StillOpen(text: string, from: nat, a: nat, b: nat)
    requires from <= a < b <= |text|
  {
    !InString(text, from, a) && forall j | a < j <= b :: InString(text, from, j)
  }

  /** Inside each string the running depth is never negative, and at its closing quote it is zero. */
  predicate StringsBalanced(text: string, from: nat, close: nat)
    requires from <= close <= |text|
  {
    forall a, b | from <= a < b <= close && StillOpen(text, from, a, b) ::
      Depth(text[a + 1..b]) >= 0 && (b < |text| && !InString(text, from, b + 1) ==> Depth(text[a + 1..b]) == 0)
  }

  /** The quote that opened the string `i` is in. */
  lemma {:induction false} OpeningQuote(text: string, from: nat, i: nat) returns (a: nat)
    requires from <= i <= |text| && InString(text, from, i)
    ensures from <= a < i && StillOpen(text, from, a, i) && Quotes(text, a)
  {
    if InString(text, from, i - 1) { a := OpeningQuote(text, from, i - 1); } else { a := i - 1; }
  }

  lemma {:induction false} DepthSplits(text: string, from: nat, a: nat, b: nat)
    requires from <= a <= b <= |text|
    ensures Depth(text[from..b]) == Depth(text[from..a]) + Depth(text[a..b])
  {
    if a < b {
      DepthSplits(text, from, a, b - 1);
      DepthMore(text, from, b - 1);
      DepthMore(text, a, b - 1);
    }
  }

  /** Outside strings the blind depth is the true one; inside, it is ahead by what the string holds. */
  lemma {:induction false} BlindIsAhead(text: string, from: nat, close: nat, i: nat)
    requires from <= i <= close <= |text| && StringsBalanced(text, from, close)
    ensures !InString(text, from, i) ==> Depth(text[from..i]) + 1 == AwareDepth(text, from, i, 1)
    ensures InString(text, from, i) ==> Depth(text[from..i]) + 1 >= AwareDepth(text, from, i, 1)
    decreases i
  {
    hide Depth, StringsBalanced;
    if i == from {
      NoDepth(text, from);
    } else if InString(text, from, i) {
      var a := OpeningQuote(text, from, i);
      BlindIsAhead(text, from, close, a);
      AcrossString(text, from, close, a, i);
    } else if InString(text, from, i - 1) {
      var a := OpeningQuote(text, from, i - 1);
      BlindIsAhead(text, from, close, a);
      AcrossString(text, from, close, a, i - 1);
      DepthMore(text, from, i - 1);
    } else {
      BlindIsAhead(text, from, close, i - 1);
      DepthMore(text, from, i - 1);
    }
  }

  /** From the opening quote at `a` into the string. */
  lemma AcrossString(text: string, from: nat, close: nat, a: nat, b: nat)
    requires from <= a < b <= close <= |text| && StringsBalanced(text, from, close)
    requires StillOpen(text, from, a, b) && Quotes(text, a)
    ensures AwareDepth(text, from, b, 1) == AwareDepth(text, from, a, 1)
    ensures Depth(text[from..b]) >= Depth(text[from..a])
    ensures b < |text| && !InString(text, from, b + 1) ==> Depth(text[from..b]) == Depth(text[from..a])
  {
    hide Depth;
    DepthSplits(text, from, a + 1, b);
    DepthMore(text, from, a);
    InsideCountsNothing(text, from, a, b);
  }

  lemma {:induction false} InsideCountsNothing(text: string, from: nat, a: nat, b: nat)
    requires from <= a < b <= |text| && StillOpen(text, from, a, b) && Quotes(text, a)
    ensures AwareDepth(text, from, b, 1) == AwareDepth(text, from, a, 1)
  {
    if b > a + 1 { InsideCountsNothing(text, from, a, b - 1); }
  }

  /** The braces inside strings so far, opening less closing. */
  function Hidden(text: string, from: nat, i: nat): int
    requires from <= i <= |text|
  {
    if i == from then 0
    else
      Hidden(text, from, i - 1)
      + if !Quotes(text, i - 1) && InString(text, from, i - 1) then Weight(text[i - 1]) else 0
  }

  /** A brace is counted outside strings or hidden in one. */
  lemma {:induction false} CountedOrHidden(text: string, from: nat, i: nat)
    requires from <= i <= |text|
    ensures Depth(text[from..i]) + 1 == AwareDepth(text, from, i, 1) + Hidden(text, from, i)
    decreases i
  {
    hide Depth;
    if i == from {
      NoDepth(text, from);
    } else {
      CountedOrHidden(text, from, i - 1);
      DepthMore(text, from, i - 1);
    }
  }

  /** The hidden braces never take the depth down to nothing before the end. */
  predicate HiddenNeverCloses(text: string, from: nat, close: nat)
    requires from <= close <= |text|
  {
    forall j | from <= j <= close :: Hidden(text, from, j) > -AwareDepth(text, from, j, 1)
  }

  lemma {:induction false} NeverZeroIsPositive(text: string, from: nat, close: nat, j: nat)
    requires from <= j <= close <= |text|
    requires forall i | from <= i <= close :: Depth(text[from..i]) != -1
    ensures Depth(text[from..j]) >= 0
    decreases j
  {
    if j == from {
      NoDepth(text, from);
    } else {
      NeverZeroIsPositive(text, from, close, j - 1);
      DepthMore(text, from, j - 1);
      hide Depth;
    }
  }

  lemma ClosingBrace(text: string, from: nat, close: nat)
    requires from <= |text| && Closes(text, from, close)
    ensures text[close] == '}' && !Quotes(text, close) && !InString(text, from, close)
    ensures AwareDepth(text, from, close, 1) == 1 && Hidden(text, from, close + 1) == Hidden(text, from, close)
  {
    AwareStaysPositive(text, from, close, close);
  }

  /** Exactly when the scanners agree: a block that closes for the reader who knows strings closes at the same
      brace for the others, if and only if the braces its strings hide cancel out by its end and never, on
      the way, take away all that is open. */
  lemma ScannersAgreeExactly(text: string, from: nat, close: nat)
    requires from <= |text| && Closes(text, from, close)
    ensures BlindlyCloses(text, from, close) <==> Hidden(text, from, close) == 0 && HiddenNeverCloses(text, from, close)
  {
    hide Depth;
    ClosingBrace(text, from, close);
    CountedOrHidden(text, from, close + 1);
    forall j | from <= j <= close
      ensures Depth(text[from..j]) + 1 == AwareDepth(text, from, j, 1) + Hidden(text, from, j) {
      CountedOrHidden(text, from, j);
    }
    if BlindlyCloses(text, from, close) {
      forall j | from <= j <= close ensures Depth(text[from..j]) >= 0 { NeverZeroIsPositive(text, from, close, j); }
    }
  }

  /** In particular, for every closed block whose strings balance their own braces, all three scanners stop
      at the same brace; what they return is balanced, and the next character is the closing brace. */
  lemma ScannersAgree(text: string, from: nat, close: nat)
    requires from <= |text| && Closes(text, from, close) && StringsBalanced(text, from, close)
    ensures BlindlyCloses(text, from, close)
    ensures Balanced(text[from..close]) && text[close] == '}'
  {
    hide Depth, StringsBalanced;
    ClosingBrace(text, from, close);
    forall j | from <= j <= close
      ensures Hidden(text, from, j) >= 0 && AwareDepth(text, from, j, 1) >= 1
      ensures (j == close ==> Hidden(text, from, j) == 0)
      ensures Depth(text[from..j]) + 1 == AwareDepth(text, from, j, 1) + Hidden(text, from, j)
    {
      AwareStaysPositive(text, from, close, j);
      BlindIsAhead(text, from, close, j);
      CountedOrHidden(text, from, j);
    }
    ScannersAgreeExactly(text, from, close);
    forall n | 0 <= n <= close - from ensures Depth(text[from..close][..n]) >= 0 {
      assert text[from..close][..n] == text[from..from + n];
    }
  }

  /** So the bodies are one body. */
  lemma SameBody(text: string, from: nat, close: nat, body: string)
    requires from <= |text| && Closes(text, from, close) && StringsBalanced(text, from, close)
    ensures IsBlindBody(text, from, body) <==> body == text[from..close]
  {
    ScannersAgree(text, from, close);
    hide Closes, BlindlyCloses;
    if IsBlindBody(text, from, body) {
      var other: nat :| BlindlyCloses(text, from, other) && body == text[from..other];
      BlindlyClosesOnce(text, from, close, other);
    }
  }

  lemma {:induction false} AwareStaysPositive(text: string, from: nat, close: nat, j: nat)
    requires from <= |text| && Closes(text, from, close) && from <= j <= close
    ensures AwareDepth(text, from, j, 1) >= 1
  {
    if j == from {
    } else {
      AwareStaysPositive(text, from, close, j - 1);
    }
  }

  /** A closing brace inside a string parts them: the first reader goes on to the end, the others stop in the
      middle of the string. */
  lemma LoneBraceInAString()
    ensures var text := "{k=\"}\"}"; Closes(text, 1, 6) && BlindlyCloses(text, 1, 4)
  {
    var text := "{k=\"}\"}";
    assert AwareDepth(text, 1, 2, 1) == 1 && !InString(text, 1, 2);
    assert AwareDepth(text, 1, 3, 1) == 1 && !InString(text, 1, 3);
    assert AwareDepth(text, 1, 4, 1) == 1 && InString(text, 1, 4);
    assert AwareDepth(text, 1, 5, 1) == 1 && InString(text, 1, 5);
    assert AwareDepth(text, 1, 6, 1) == 1 && !InString(text, 1, 6);
    assert AwareDepth(text, 1, 7, 1) == 0;
    assert Depth(text[1..1]) == 0;
    DepthMore(text, 1, 1);
    DepthMore(text, 1, 2);
    DepthMore(text, 1, 3);
    DepthMore(text, 1, 4);
  }

  // ---------------------------------------------------------------- comments

  predicate CommentAt(line: string, i: nat)
    requires i < |line|
  {
    line[i] == '#' || (line[i] == '/' && i + 1 < |line| && line[i + 1] == '/')
  }

  /** The first character of a comment: outside every string. */
  predicate CutsAt(line: string, i: nat)
    requires i < |line|
  {
    CommentAt(line, i) && !InLine(line, i)
  }

  /** Whether position `i` of a line is inside a string.  The first character is never taken as escaped. */
  predicate InLine(line: string, i: nat)
    requires i <= |line|
  {
    if i == 0 then false
    else if line[i - 1] == '"' && (i == 1 || line[i - 2] != '\\') then !InLine(line, i - 1) else InLine(line, i - 1)
  }

  /** `_strip`, one line. */
  method StripLine(line: string) returns (kept: string)
    ensures kept <= line
    ensures forall i | 0 <= i < |kept| :: !CutsAt(line, i)
    ensures kept != line ==> CutsAt(line, |kept|)
  {
    var inStr, cut, i := false, |line|, 0;
    while i < |line|
      invariant 0 <= i <= |line| && cut == |line| && inStr == InLine(line, i)
      invariant forall j | 0 <= j < i :: !CutsAt(line, j)
    {
      var c := line[i];
      if c == '"' && (i == 0 || line[i - 1] != '\\') {
        inStr := !inStr;
      } else if !inStr && CommentAt(line, i) {
        cut := i;
        break;
      }
      i := i + 1;
    }
    kept := line[..cut];
  }

  lemma {:induction false} SameStrings(line: string, n: nat, i: nat)
    requires i <= n <= |line|
    ensures InLine(line[..n], i) == InLine(line, i)
  {
    if i == 0 {
    } else {
      SameStrings(line, n, i - 1);
    }
  }

  /** What is left has no comment: stripping it again takes nothing. */
  lemma StrippedHasNoComment(line: string, n: nat)
    requires n <= |line| && forall i | 0 <= i < n :: !CutsAt(line, i)
    ensures forall i | 0 <= i < n :: !CutsAt(line[..n], i)
  {
    forall i | 0 <= i < n ensures !CutsAt(line[..n], i) {
      SameStrings(line, n, i);
      assert !CutsAt(line, i);
      assert CommentAt(line[..n], i) ==> CommentAt(line, i);
    }
  }

  // ---------------------------------------------------------------- arguments of the block itself

  predicate WordChar(c: char) {
    'a' <= c <= 'z' || 'A' <= c <= 'Z' || '0' <= c <= '9' || c == '_'
  }

  /** Optional blanks, then an equals sign. */
  predicate BlanksThenEquals(text: string) {
    text != "" && (text[0] == '=' || (text[0] in " \t\n\r\U{0b}\U{0c}" && BlanksThenEquals(text[1..])))
  }

  predicate Assigns(text: string, word: string) {
    word <= text && BlanksThenEquals(text[|word|..])
  }

  /** `count` or `for_each` is given at `i`, as a word of its own. */
  predicate MetaHere(body: string, i: nat)
    requires i < |body|
  {
    && (Assigns(body[i..], "count") || Assigns(body[i..], "for_each"))
    && (i == 0 || (!WordChar(body[i - 1]) && body[i - 1] != '.'))
  }

  /** `_meta_at_top`: somewhere outside every string and every nested block. */
  method MetaAtTop(body: string) returns (r: bool)
    ensures r <==> exists i: nat ::
                     i < |body| && MetaHere(body, i) && !InString(body, 0, i) && AwareDepth(body, 0, i, 0) == 0
  {
    var depth, inStr, i := 0, false, 0;
    while i < |body|
      invariant 0 <= i <= |body| && inStr == InString(body, 0, i) && depth == AwareDepth(body, 0, i, 0)
      invariant forall j: nat | j < i :: !(MetaHere(body, j) && !InString(body, 0, j) && AwareDepth(body, 0, j, 0) == 0)
    {
      var c := body[i];
      if c == '"' && Before(body, i) != '\\' {
        inStr := !inStr;
      } else if !inStr {
        if c == '{' { depth := depth + 1; }
        else if c == '}' { depth := depth - 1; }
        else if depth == 0 && MetaHere(body, i) { return true; }
      }
      assert MetaHere(body, i) ==> c == 'c' || c == 'f' by {
        if MetaHere(body, i) { assert body[i..][0] == c; }
      }
      i := i + 1;
    }
    r := false;
  }
}
