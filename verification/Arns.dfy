/** The one ARN parser.  The resource part separates its kind from its name with a colon or a slash,
    whichever comes first. */
module Arns {

  // ---------------------------------------------------------------- splitting text

  /** Where the character first is, or the length. */
  function IndexOf(s: string, c: char): (i: nat)
    ensures i <= |s| && c !in s[..i] && (i < |s| ==> s[i] == c)
  {
    if s == "" then 0
    else if s[0] == c then 0
    else
      var i := IndexOf(s[1..], c);
      assert s[..i + 1] == [s[0]] + s[1..][..i];
      i + 1
  }

  /** `s.split(c, limit)`; with a limit no smaller than the text it is `s.split(c)`. */
  function Split(s: string, c: char, limit: nat): (parts: seq<string>)
    ensures 1 <= |parts| <= limit + 1
    decreases |s|
  {
    var i := IndexOf(s, c);
    if limit == 0 || i == |s| then [s] else [s[..i]] + Split(s[i + 1..], c, limit - 1)
  }

  lemma IndexAfter(head: string, c: char, rest: string)
    requires c !in head
    ensures IndexOf(head + [c] + rest, c) == |head|
  {
    var s, i := head + [c] + rest, IndexOf(head + [c] + rest, c);
    assert s[|head|] == c;
    assert forall k | 0 <= k < |head| :: s[k] == head[k] && head[k] in head;
    assert forall k | 0 <= k < i :: s[..i][k] == s[k] && s[..i][k] in s[..i];
  }

  /** Taking one field off the front. */
  lemma SplitOnce(head: string, c: char, rest: string, limit: nat)
    requires c !in head && limit > 0
    ensures Split(head + [c] + rest, c, limit) == [head] + Split(rest, c, limit - 1)
  {
    var s := head + [c] + rest;
    IndexAfter(head, c, rest);
    assert s[..|head|] == head && s[|head| + 1..] == rest;
  }

  lemma SplitNone(s: string, c: char, limit: nat)
    requires c !in s
    ensures Split(s, c, limit) == [s]
  {
    assert forall k | 0 <= k < |s| :: s[k] in s;
  }

  lemma SplitWhole(s: string, c: char, limit: nat)
    requires |Split(s, c, limit)| == 1
    ensures Split(s, c, limit) == [s]
  {
  }

  /** The text after the last such character, or all of it: `s.rsplit(c, 1)[-1]`. */
  function AfterLast(s: string, c: char): (r: string)
    ensures c !in r
  {
    if s == "" then ""
    else if s[|s| - 1] == c then ""
    else AfterLast(s[..|s| - 1], c) + [s[|s| - 1]]
  }

  lemma {:induction false} AfterLastNone(s: string, c: char)
    requires c !in s
    ensures AfterLast(s, c) == s
  {
    if s == "" {
    } else {
      var n := |s| - 1;
      assert s[n] in s && s == s[..n] + [s[n]];
      AfterLastNone(s[..n], c);
    }
  }

  /** Only what follows the last such character is read. */
  lemma {:induction false} AfterLastSkips(head: string, c: char, rest: string)
    ensures AfterLast(head + [c] + rest, c) == AfterLast(rest, c)
    decreases |rest|
  {
    var s := head + [c] + rest;
    if rest == "" {
      assert s[|s| - 1] == c;
    } else {
      var n := |rest| - 1;
      assert s[|s| - 1] == rest[n] && s[..|s| - 1] == head + [c] + rest[..n];
      AfterLastSkips(head, c, rest[..n]);
    }
  }

  /** Text without the character goes through. */
  lemma {:induction false} AfterLastAppends(head: string, text: string, c: char)
    requires c !in text
    ensures AfterLast(head + text, c) == AfterLast(head, c) + text
    decreases |text|
  {
    if text == "" {
      assert head + text == head;
    } else {
      var n := |text| - 1;
      assert text[n] in text && (head + text)[..|head| + n] == head + text[..n];
      AfterLastAppends(head, text[..n], c);
      assert AfterLast(head, c) + text[..n] + [text[n]] == AfterLast(head, c) + text;
    }
  }

  /** What is before it is nothing, or ends in the character. */
  lemma {:induction false} AfterLastEnds(s: string, c: char) returns (head: string)
    ensures s == head + AfterLast(s, c) && (head == "" || head[|head| - 1] == c)
    decreases |s|
  {
    if s == "" {
      head := "";
    } else if s[|s| - 1] == c {
      head := s;
    } else {
      head := AfterLastEnds(s[..|s| - 1], c);
      assert s == s[..|s| - 1] + [s[|s| - 1]];
    }
  }

  // ---------------------------------------------------------------- parse

  datatype Arn = Arn(service: string, kind: string, tail: string, raw: string)

  function Min(a: nat, b: nat): nat { if a <= b then a else b }

  /** `parse`: empty strings for an ARN with fewer than six fields. */
  function Parse(arn: string): Arn {
    var parts := Split(arn, ':', 5);
    if |parts| < 6 then Arn("", "", "", arn)
    else
      var service, rest := parts[2], parts[5];
      if service == "sqs" then Arn(service, "queue", rest, arn)
      else
        var cut := Min(IndexOf(rest, ':'), IndexOf(rest, '/'));
        if cut == |rest| then Arn(service, rest, "", arn) else Arn(service, rest[..cut], rest[cut + 1..], arn)
  }

  function Written(partition: string, service: string, region: string, account: string, resource: string): string {
    "arn" + [':'] + (partition + [':'] + (service + [':'] + (region + [':'] + (account + [':'] + resource))))
  }

  lemma FieldsOf(partition: string, service: string, region: string, account: string, resource: string)
    requires ':' !in partition && ':' !in service && ':' !in region && ':' !in account
    ensures Split(Written(partition, service, region, account, resource), ':', 5) ==
            ["arn", partition, service, region, account, resource]
  {
    hide Split;
    var afterRegion := account + [':'] + resource;
    var afterService := region + [':'] + afterRegion;
    var afterPartition := service + [':'] + afterService;
    SplitOnce("arn", ':', partition + [':'] + afterPartition, 5);
    SplitOnce(partition, ':', afterPartition, 4);
    SplitOnce(service, ':', afterService, 3);
    SplitOnce(region, ':', afterRegion, 2);
    SplitOnce(account, ':', resource, 1);
    SplitNoMore(resource, ':');
    assert ["arn"] + ([partition] + ([service] + ([region] + ([account] + [resource])))) ==
        ["arn", partition, service, region, account, resource];
  }

  lemma SplitNoMore(s: string, c: char)
    ensures Split(s, c, 0) == [s]
  {
  }

  /** What an ARN was written with is what it is read as, for either separator; and for a queue, which has no
      kind in front, the whole resource is its name. */
  lemma ParseReadsBack(partition: string, service: string, region: string, account: string, kind: string,
                       separator: char, name: string)
    requires ':' !in partition && ':' !in service && ':' !in region && ':' !in account
    requires ':' !in kind && '/' !in kind && (separator == ':' || separator == '/')
    ensures var raw := Written(partition, service, region, account, kind + [separator] + name);
            Parse(raw) == if service == "sqs" then Arn(service, "queue", kind + [separator] + name, raw)
                          else Arn(service, kind, name, raw)
  {
    var resource := kind + [separator] + name;
    FieldsOf(partition, service, region, account, resource);
    IndexAfter(kind, separator, name);
    OtherIsLater(kind, separator, if separator == ':' then '/' else ':', name);
    assert resource[..|kind|] == kind && resource[|kind| + 1..] == name;
  }

  lemma OtherIsLater(kind: string, separator: char, other: char, name: string)
    requires other !in kind && other != separator
    ensures IndexOf(kind + [separator] + name, other) > |kind|
  {
    var s, i := kind + [separator] + name, IndexOf(kind + [separator] + name, other);
    assert forall k | 0 <= k < |kind| :: s[k] == kind[k] && kind[k] in kind;
  }

  function Colons(s: string): nat {
    if s == "" then 0 else (if s[0] == ':' then 1 else 0) + Colons(s[1..])
  }

  lemma {:induction false} ColonsAfter(s: string, i: nat)
    requires i < |s| && i == IndexOf(s, ':')
    ensures Colons(s) == 1 + Colons(s[i + 1..])
  {
    if i == 0 {
    } else {
      ColonsAfter(s[1..], i - 1);
      assert s[1..][i..] == s[i + 1..];
    }
  }

  lemma {:induction false} NoColons(s: string)
    requires IndexOf(s, ':') == |s|
    ensures Colons(s) == 0
  {
    if s == "" {
    } else {
      NoColons(s[1..]);
    }
  }

  lemma {:induction false} FieldsAreCounted(s: string, limit: nat)
    ensures |Split(s, ':', limit)| == 1 + Min(limit, Colons(s))
    decreases limit
  {
    var i := IndexOf(s, ':');
    if limit > 0 && i < |s| {
      ColonsAfter(s, i);
      FieldsAreCounted(s[i + 1..], limit - 1);
    } else if i == |s| {
      NoColons(s);
    }
  }

  /** An ARN is malformed, and reads as nothing, exactly when it has fewer than five colons. */
  lemma MalformedReadsAsNothing(arn: string)
    ensures Colons(arn) < 5 ==> Parse(arn) == Arn("", "", "", arn)
    ensures Colons(arn) >= 5 ==> |Split(arn, ':', 5)| == 6 && Parse(arn).service == Split(arn, ':', 5)[2]
  {
    FieldsAreCounted(arn, 5);
  }
}
