/** What the scanners' running state means: a place is inside a string when an odd number of quotes that nothing
    escapes stand before it, and a depth is how many braces opened less how many closed. */
module BlockTheorems {
  import opened Blocks

  /** A quote with no backslash before it; before the first character stands the last. */
  predicate Bare(text: string, k: nat)
    requires k < |text|
  {
    text[k] == '"' && (if k > 0 then text[k - 1] else text[|text| - 1]) != '\\'
  }

  /** The same, but with nothing before the first character. */
  predicate BareOnLine(line: string, k: nat)
    requires k < |line|
  {
    line[k] == '"' && (k > 0 ==> line[k - 1] != '\\')
  }

  /** The quotes from `from` on, before `i`, that no backslash stands before. */
  function QuotesIn(text: string, from: nat, i: nat): set<nat>
    requires from <= i <= |text|
  {
    set k: nat | from <= k < i && Bare(text, k)
  }

  lemma OneQuoteMore(text: string, from: nat, i: nat)
    requires from < i <= |text|
    ensures i - 1 !in QuotesIn(text, from, i - 1)
    ensures QuotesIn(text, from, i) == QuotesIn(text, from, i - 1) + if Quotes(text, i - 1) then {i - 1} else {}
  {
  }

  /** Inside a string is behind an odd number of them. */
  lemma {:induction false} InStringExactly(text: string, from: nat, i: nat)
    requires from <= i <= |text|
    ensures InString(text, from, i) <==> |QuotesIn(text, from, i)| % 2 == 1
    decreases i
  {
    if i == from {
    } else {
      OneQuoteMore(text, from, i);
      hide QuotesIn;
      InStringExactly(text, from, i - 1);
      var before := |QuotesIn(text, from, i - 1)|;
      assert (before + 1) % 2 == 1 <==> before % 2 != 1;
    }
  }

  /** These braces between two places, outside strings. */
  function BracesOutside(text: string, from: nat, i: nat, brace: char): set<nat>
    requires from <= i <= |text|
  {
    set k: nat | from <= k < i && text[k] == brace && !InString(text, from, k)
  }

  lemma OneBraceMore(text: string, from: nat, i: nat, brace: char)
    requires from < i <= |text|
    ensures i - 1 !in BracesOutside(text, from, i - 1, brace)
    ensures BracesOutside(text, from, i, brace) ==
            BracesOutside(text, from, i - 1, brace)
            + if text[i - 1] == brace && !InString(text, from, i - 1) then {i - 1} else {}
  {
    hide InString;
  }

  /** The depth a reader who knows strings is at: what it started from, and the braces that opened outside strings less
      those that closed. */
  lemma {:induction false} AwareDepthExactly(text: string, from: nat, i: nat, start: int)
    requires from <= i <= |text|
    ensures AwareDepth(text, from, i, start) ==
            start + |BracesOutside(text, from, i, '{')| - |BracesOutside(text, from, i, '}')|
    decreases i
  {
    if i == from {
    } else {
      OneBraceMore(text, from, i, '{');
      OneBraceMore(text, from, i, '}');
      hide BracesOutside, InString;
      AwareDepthExactly(text, from, i - 1, start);
    }
  }

  function Braces(text: string, brace: char): set<nat> {
    set k: nat | k < |text| && text[k] == brace
  }

  lemma BracesSnoc(text: string, brace: char)
    requires text != ""
    ensures var n := |text| - 1;
            && n !in Braces(text[..n], brace)
            && Braces(text, brace) == Braces(text[..n], brace) + if text[n] == brace then {n} else {}
  {
  }

  /** And for one who does not, all of them. */
  lemma {:induction false} DepthExactly(text: string)
    ensures Depth(text) == |Braces(text, '{')| - |Braces(text, '}')|
    decreases |text|
  {
    if text == "" {
    } else {
      BracesSnoc(text, '{');
      BracesSnoc(text, '}');
      hide Braces;
      DepthExactly(text[..|text| - 1]);
    }
  }

  /** The quotes of a line before `i` that no backslash stands before; the first character has nothing before it. */
  function QuotesOnLine(line: string, i: nat): set<nat>
    requires i <= |line|
  {
    set k: nat | k < i && BareOnLine(line, k)
  }

  lemma OneQuoteMoreOnLine(line: string, i: nat)
    requires 0 < i <= |line|
    ensures i - 1 !in QuotesOnLine(line, i - 1)
    ensures QuotesOnLine(line, i) ==
            QuotesOnLine(line, i - 1) + if line[i - 1] == '"' && (i == 1 || line[i - 2] != '\\') then {i - 1} else {}
  {
  }

  /** The same on one line. */
  lemma {:induction false} InLineExactly(line: string, i: nat)
    requires i <= |line|
    ensures InLine(line, i) <==> |QuotesOnLine(line, i)| % 2 == 1
    decreases i
  {
    if i == 0 {
    } else {
      OneQuoteMoreOnLine(line, i);
      hide QuotesOnLine;
      InLineExactly(line, i - 1);
    }
  }
}
