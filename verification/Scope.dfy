/** A set of launch ids as one string: sorted, without duplicates, joined by commas.  The string does
    not depend on the order the resources were observed in, and two sets of comma-free ids that
    make the same string are the same set. */
module Scope {

  // ---------------------------------------------------------------- order

  /** Python's `<` on strings. */
  predicate Less(a: string, b: string) {
    if b == "" then false
    else if a == "" then true
    else a[0] < b[0] || (a[0] == b[0] && Less(a[1..], b[1..]))
  }

  lemma {:induction false} LessIrreflexive(a: string)
    ensures !Less(a, a)
  {
    if a == "" {
    } else {
      LessIrreflexive(a[1..]);
    }
  }

  lemma {:induction false} LessTransitive(a: string, b: string, c: string)
    requires Less(a, b) && Less(b, c)
    ensures Less(a, c)
  {
    if a != "" && a[0] == b[0] == c[0] { LessTransitive(a[1..], b[1..], c[1..]); }
  }

  lemma {:induction false} LessTotal(a: string, b: string)
    ensures a == b || Less(a, b) || Less(b, a)
  {
    if a != "" && b != "" && a[0] == b[0] {
      LessTotal(a[1..], b[1..]);
      assert a == [a[0]] + a[1..] && b == [b[0]] + b[1..];
    }
  }

  predicate Increasing(ids: seq<string>) {
    forall j, k | 0 <= j < k < |ids| :: Less(ids[j], ids[k])
  }

  // ---------------------------------------------------------------- sorted, deduplicated

  /** `x` put where it belongs, unless it is there. */
  function Insert(x: string, ids: seq<string>): (r: seq<string>)
    ensures forall y :: y in r <==> y == x || y in ids
  {
    if ids == [] then [x]
    else if x == ids[0] then ids
    else if Less(x, ids[0]) then [x] + ids
    else [ids[0]] + Insert(x, ids[1..])
  }

  lemma {:induction false} InsertIncreasing(x: string, ids: seq<string>)
    requires Increasing(ids)
    ensures Increasing(Insert(x, ids))
  {
    if ids != [] && x != ids[0] {
      if Less(x, ids[0]) {
        forall k | 0 <= k < |ids| ensures Less(x, ids[k]) {
          if k > 0 { LessTransitive(x, ids[0], ids[k]); }
        }
      } else {
        LessTotal(x, ids[0]);
        InsertIncreasing(x, ids[1..]);
        var rest := Insert(x, ids[1..]);
        forall k | 0 <= k < |rest| ensures Less(ids[0], rest[k]) {
          assert rest[k] in rest;
        }
      }
    }
  }

  /** `sorted({...})` of the ids in the order they were met. */
  function SortedSet(ids: seq<string>): (r: seq<string>)
    ensures forall y :: y in r <==> y in ids
  {
    if ids == [] then [] else Insert(ids[0], SortedSet(ids[1..]))
  }

  lemma {:induction false} SortedSetIncreasing(ids: seq<string>)
    ensures Increasing(SortedSet(ids))
  {
    if ids == [] {
    } else {
      SortedSetIncreasing(ids[1..]);
      InsertIncreasing(ids[0], SortedSet(ids[1..]));
    }
  }

  /** A strictly increasing sequence is determined by its elements. */
  lemma {:induction false} IncreasingUnique(a: seq<string>, b: seq<string>)
    requires Increasing(a) && Increasing(b)
    requires forall y :: y in a <==> y in b
    ensures a == b
  {
    EmptyTogether(a, b);
    if a == [] {
    } else {
      assert a[0] in b;
      assert b[0] in a;
      assert a[0] == b[0] by { FirstIsLeast(a, b[0]); FirstIsLeast(b, a[0]); LessAsymmetric(a[0], b[0]); }
      forall y ensures y in a[1..] <==> y in b[1..] {
        LessIrreflexive(a[0]);
        assert y in a <==> y in b;
        assert a == [a[0]] + a[1..] && b == [b[0]] + b[1..];
      }
      IncreasingUnique(a[1..], b[1..]);
    }
  }

  lemma EmptyTogether(a: seq<string>, b: seq<string>)
    requires forall y :: y in a <==> y in b
    ensures a == [] <==> b == []
  {
    if a != [] { assert a[0] in b; }
    if b != [] { assert b[0] in a; }
  }

  lemma FirstIsLeast(ids: seq<string>, x: string)
    requires Increasing(ids) && x in ids
    ensures x == ids[0] || Less(ids[0], x)
  {
  }

  lemma LessAsymmetric(a: string, b: string)
    ensures !(Less(a, b) && Less(b, a))
  {
    if Less(a, b) && Less(b, a) {
      LessTransitive(a, b, a);
      LessIrreflexive(a);
    }
  }

  // ---------------------------------------------------------------- joined

  function Join(ids: seq<string>): string {
    if ids == [] then "" else if |ids| == 1 then ids[0] else ids[0] + "," + Join(ids[1..])
  }

  /** An id a comma cannot split, and that is there. */
  predicate Plain(id: string) {
    id != "" && ',' !in id
  }

  lemma PlainHead(a: string, b: string, x: string, y: string)
    requires ',' !in a && ',' !in b && a + "," + x == b + "," + y
    ensures a == b && x == y
  {
    var s := a + "," + x;
    assert s == b + "," + y;
    assert s[|a|] == ',' && s[|b|] == ',';
    assert (forall k | 0 <= k < |a| :: s[k] == a[k]) && (forall k | 0 <= k < |b| :: s[k] == b[k]);
    assert |a| == |b|;
    assert s[..|a|] == a && s[..|b|] == b;
    assert s[|a| + 1..] == x && s[|b| + 1..] == y;
  }

  lemma PlainIsNotJoined(a: string, b: string, x: string)
    requires ',' !in a
    ensures a != b + "," + x
  {
    var s := b + "," + x;
    assert s[|b|] == ',';
  }

  lemma {:induction false} JoinInjective(a: seq<string>, b: seq<string>)
    requires (forall x | x in a :: Plain(x)) && (forall x | x in b :: Plain(x)) && Join(a) == Join(b)
    ensures a == b
  {
    if a == [] || b == [] {
      JoinEmpty(a);
      JoinEmpty(b);
    } else if |a| == 1 && |b| == 1 {
      assert a == [a[0]] && b == [b[0]];
    } else if |a| == 1 {
      assert Plain(a[0]);
      PlainIsNotJoined(a[0], b[0], Join(b[1..]));
    } else if |b| == 1 {
      assert Plain(b[0]);
      PlainIsNotJoined(b[0], a[0], Join(a[1..]));
    } else {
      assert Plain(a[0]) && Plain(b[0]);
      PlainHead(a[0], b[0], Join(a[1..]), Join(b[1..]));
      JoinInjective(a[1..], b[1..]);
      assert a == [a[0]] + a[1..] && b == [b[0]] + b[1..];
    }
  }

  lemma JoinEmpty(a: seq<string>)
    requires forall x | x in a :: Plain(x)
    ensures Join(a) == "" <==> a == []
  {
    if a != [] { assert Plain(a[0]); }
  }

  // ---------------------------------------------------------------- the scope

  function ScopeOfIds(ids: seq<string>): string {
    Join(SortedSet(ids))
  }

  /** The same ids in any order, seen any number of times, are one scope. */
  lemma ScopeIgnoresOrder(a: seq<string>, b: seq<string>)
    requires forall x :: x in a <==> x in b
    ensures ScopeOfIds(a) == ScopeOfIds(b)
  {
    SortedSetIncreasing(a);
    SortedSetIncreasing(b);
    IncreasingUnique(SortedSet(a), SortedSet(b));
  }

  /** And for comma-free ids, one scope is one set of ids. */
  lemma ScopeIsTheSet(a: seq<string>, b: seq<string>)
    requires (forall x | x in a :: Plain(x)) && (forall x | x in b :: Plain(x))
    ensures ScopeOfIds(a) == ScopeOfIds(b) <==> (forall x :: x in a <==> x in b)
  {
    if ScopeOfIds(a) == ScopeOfIds(b) {
      JoinInjective(SortedSet(a), SortedSet(b));
      assert forall x :: x in a <==> x in SortedSet(a);
    } else if forall x :: x in a <==> x in b {
      ScopeIgnoresOrder(a, b);
    }
  }
}
