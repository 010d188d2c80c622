/** Where in the cycle the money accrued: each lifetime's cost is spread evenly over it, and every phase
    takes what fell inside its window. */
module CostPhases {
  import opened Options
  import opened FoldCost

  /** `overlap`. */
  function Overlap(aStart: Option<int>, aEnd: Option<int>, bStart: Option<int>, bEnd: Option<int>): nat {
    if aStart.None? || aEnd.None? || bStart.None? || bEnd.None? then 0
    else Max(0, Min(aEnd.value, bEnd.value) - Max(aStart.value, bStart.value))
  }

  // ---------------------------------------------------------------- one row

  function StartOf(row: Row): Option<int> { row.created.end }

  /** Where the low lifetime ends: the delete's start, or the end of the cycle. */
  function EndOf(row: Row, cycleEnd: Option<int>): Option<int> {
    if row.deleted.Some? && row.deleted.value.start.Some? then row.deleted.value.start else cycleEnd
  }

  function LifeOf(row: Row, cycleEnd: Option<int>): nat {
    Span(StartOf(row), EndOf(row, cycleEnd))
  }

  /** The row has something to give away. */
  predicate Spread(row: Row, cycleEnd: Option<int>) {
    row.bucket.Priced? && row.bucket.charge.usd.low != 0.0 && LifeOf(row, cycleEnd) > 0
  }

  function RateOf(row: Row, cycleEnd: Option<int>): real
    requires Spread(row, cycleEnd)
  {
    row.bucket.charge.usd.low / LifeOf(row, cycleEnd) as real
  }

  function Inside(row: Row, cycleEnd: Option<int>, w: Window): nat {
    Overlap(StartOf(row), EndOf(row, cycleEnd), w.start, w.end)
  }

  /** What the row gives one window. */
  function Part(row: Row, cycleEnd: Option<int>, w: Window): real {
    if Spread(row, cycleEnd) then Times(Inside(row, cycleEnd, w) as real, RateOf(row, cycleEnd)) else 0.0
  }

  function Covered(row: Row, cycleEnd: Option<int>, ws: seq<Window>): nat {
    if ws == [] then 0 else Covered(row, cycleEnd, ws[..|ws| - 1]) + Inside(row, cycleEnd, ws[|ws| - 1])
  }

  /** What the row gives to no window. */
  function Rest(row: Row, cycleEnd: Option<int>, ws: seq<Window>): real {
    if Spread(row, cycleEnd) then Times(Max(0, LifeOf(row, cycleEnd) - Covered(row, cycleEnd, ws)) as real, RateOf(row, cycleEnd))
    else 0.0
  }

  // ---------------------------------------------------------------- all rows

  function BucketOf(rows: seq<Row>, cycleEnd: Option<int>, w: Window): real {
    if rows == [] then 0.0 else BucketOf(rows[..|rows| - 1], cycleEnd, w) + Part(rows[|rows| - 1], cycleEnd, w)
  }

  function OutsideOf(rows: seq<Row>, cycleEnd: Option<int>, ws: seq<Window>): real {
    if rows == [] then 0.0 else OutsideOf(rows[..|rows| - 1], cycleEnd, ws) + Rest(rows[|rows| - 1], cycleEnd, ws)
  }

  function SumBuckets(rows: seq<Row>, cycleEnd: Option<int>, ws: seq<Window>): real {
    if ws == [] then 0.0 else SumBuckets(rows, cycleEnd, ws[..|ws| - 1]) + BucketOf(rows, cycleEnd, ws[|ws| - 1])
  }

  /** The low cost of every priced row that has a positive lifetime. */
  function LowSum(rows: seq<Row>, cycleEnd: Option<int>): real {
    if rows == [] then 0.0
    else
      var last := rows[|rows| - 1];
      LowSum(rows[..|rows| - 1], cycleEnd)
      + if last.bucket.Priced? && LifeOf(last, cycleEnd) > 0 then last.bucket.charge.usd.low else 0.0
  }

  /** The windows of a dictionary of named windows. */
  function Unnamed(windows: seq<(string, Window)>): (ws: seq<Window>)
    ensures |ws| == |windows| && forall k | 0 <= k < |ws| :: ws[k] == windows[k].1
  {
    seq(|windows|, k requires 0 <= k < |windows| => windows[k].1)
  }

  predicate DistinctNames(windows: seq<(string, Window)>) {
    forall j, k | 0 <= j < k < |windows| :: windows[j].0 != windows[k].0
  }

  /** Each name's bucket holds what the rows gave its window. */
  ghost predicate Filled(buckets: map<string, real>, rows: seq<Row>, cycleEnd: Option<int>,
                         windows: seq<(string, Window)>) {
    && (forall name :: name in buckets <==> exists k :: 0 <= k < |windows| && windows[k].0 == name)
    && (forall k | 0 <= k < |windows| ::
          windows[k].0 in buckets && buckets[windows[k].0] == BucketOf(rows, cycleEnd, windows[k].1))
  }

  /** The inner loop: one row is shared among the windows. */
  method Share(buckets: map<string, real>, row: Row, rate: real, cycleEnd: Option<int>, windows: seq<(string, Window)>,
               ghost rows: seq<Row>)
    returns (after: map<string, real>, covered: nat)
    requires DistinctNames(windows) && Filled(buckets, rows, cycleEnd, windows)
    requires Spread(row, cycleEnd) && rate == RateOf(row, cycleEnd)
    ensures Filled(after, rows + [row], cycleEnd, windows) && covered == Covered(row, cycleEnd, Unnamed(windows))
  {
    hide BucketOf, RateOf, Overlap, StartOf, EndOf, Times, Filled;
    after, covered := buckets, 0;
    NamesAreKeys(buckets, rows, cycleEnd, windows);
    ghost var ws := Unnamed(windows);
    assert ws[..0] == [];
    for j := 0 to |windows|
      invariant after.Keys == buckets.Keys && covered == Covered(row, cycleEnd, ws[..j])
      invariant forall k | 0 <= k < |windows| ::
                  after[windows[k].0] == if k < j then buckets[windows[k].0] + Part(row, cycleEnd, windows[k].1)
                                         else buckets[windows[k].0]
    {
      var (name, w) := windows[j];
      var seconds := Overlap(StartOf(row), EndOf(row, cycleEnd), w.start, w.end);
      assert Part(row, cycleEnd, w) == Times(seconds as real, rate);
      after := after[name := after[name] + Times(seconds as real, rate)];
      assert ws[..j + 1][..j] == ws[..j];
      covered := covered + seconds;
    }
    assert ws[..|windows|] == ws;
    FilledMore(buckets, after, rows, row, cycleEnd, windows);
  }

  lemma NamesAreKeys(buckets: map<string, real>, rows: seq<Row>, cycleEnd: Option<int>, windows: seq<(string, Window)>)
    requires Filled(buckets, rows, cycleEnd, windows)
    ensures forall k | 0 <= k < |windows| :: windows[k].0 in buckets
  {
  }

  lemma FilledMore(buckets: map<string, real>, after: map<string, real>, rows: seq<Row>, row: Row,
                   cycleEnd: Option<int>, windows: seq<(string, Window)>)
    requires Filled(buckets, rows, cycleEnd, windows) && after.Keys == buckets.Keys
    requires forall k | 0 <= k < |windows| ::
               windows[k].0 in buckets && after[windows[k].0] == buckets[windows[k].0] + Part(row, cycleEnd, windows[k].1)
    ensures Filled(after, rows + [row], cycleEnd, windows)
  {
    hide BucketOf, Part;
    forall k | 0 <= k < |windows|
      ensures BucketOf(rows + [row], cycleEnd, windows[k].1) == BucketOf(rows, cycleEnd, windows[k].1)
              + Part(row, cycleEnd, windows[k].1) {
      BucketMore(rows, row, cycleEnd, windows[k].1);
    }
    assert forall name :: name in after <==> name in buckets;
  }

  lemma BucketMore(rows: seq<Row>, row: Row, cycleEnd: Option<int>, w: Window)
    ensures BucketOf(rows + [row], cycleEnd, w) == BucketOf(rows, cycleEnd, w) + Part(row, cycleEnd, w)
  {
    assert (rows + [row])[..|rows|] == rows;
  }

  lemma SkippedRow(buckets: map<string, real>, rows: seq<Row>, row: Row, cycleEnd: Option<int>,
                   windows: seq<(string, Window)>)
    requires Filled(buckets, rows, cycleEnd, windows) && !Spread(row, cycleEnd)
    ensures Filled(buckets, rows + [row], cycleEnd, windows)
  {
    forall k | 0 <= k < |windows|
      ensures BucketOf(rows + [row], cycleEnd, windows[k].1) == BucketOf(rows, cycleEnd, windows[k].1) {
      BucketMore(rows, row, cycleEnd, windows[k].1);
    }
  }

  /** `attribute_to_phases`. */
  method AttributeToPhases(rows: seq<Row>, cycleEnd: Option<int>, windows: seq<(string, Window)>)
    returns (phases: map<string, real>, outsideAnyPhase: real)
    requires DistinctNames(windows)
    ensures phases.Keys == set k | 0 <= k < |windows| :: windows[k].0
    ensures forall k | 0 <= k < |windows| ::
              windows[k].0 in phases && phases[windows[k].0] == Round(BucketOf(rows, cycleEnd, windows[k].1), MICRO)
    ensures outsideAnyPhase == Round(OutsideOf(rows, cycleEnd, Unnamed(windows)), MICRO)
  {
    hide Round, RateOf, Times, Part, BucketOf, Covered, Filled, EndOf, StartOf;
    var buckets := map k | 0 <= k < |windows| :: windows[k].0 := 0.0;
    var outside := 0.0;
    EmptyBuckets(cycleEnd, windows);
    assert rows[..0] == [];
    for i := 0 to |rows|
      invariant Filled(buckets, rows[..i], cycleEnd, windows)
      invariant outside == OutsideOf(rows[..i], cycleEnd, Unnamed(windows))
    {
      var row := rows[i];
      assert rows[..i + 1] == rows[..i] + [row] && rows[..i + 1][..i] == rows[..i];
      if !row.bucket.Priced? || row.bucket.charge.usd.low == 0.0 {
        SkippedRow(buckets, rows[..i], row, cycleEnd, windows);
        continue;
      }
      var lifetime: int := Span(StartOf(row), EndOf(row, cycleEnd));
      if lifetime <= 0 {
        SkippedRow(buckets, rows[..i], row, cycleEnd, windows);
        continue;
      }
      var rate := RateOf(row, cycleEnd);
      var covered: int;
      buckets, covered := Share(buckets, row, rate, cycleEnd, windows, rows[..i]);
      outside := outside + Times(Max(0, lifetime - covered) as real, rate);
    }
    assert rows[..|rows|] == rows;
    FilledIs(buckets, rows, cycleEnd, windows);
    phases := map name | name in buckets :: Round(buckets[name], MICRO);
    outsideAnyPhase := Round(outside, MICRO);
  }

  lemma FilledIs(buckets: map<string, real>, rows: seq<Row>, cycleEnd: Option<int>, windows: seq<(string, Window)>)
    requires Filled(buckets, rows, cycleEnd, windows)
    ensures buckets.Keys == set k | 0 <= k < |windows| :: windows[k].0
    ensures forall k | 0 <= k < |windows| ::
              windows[k].0 in buckets && buckets[windows[k].0] == BucketOf(rows, cycleEnd, windows[k].1)
  {
  }

  lemma EmptyBuckets(cycleEnd: Option<int>, windows: seq<(string, Window)>)
    ensures Filled(map k | 0 <= k < |windows| :: windows[k].0 := 0.0, [], cycleEnd, windows)
  {
  }

  // ---------------------------------------------------------------- disjoint windows

  /** No second is in both. */
  ghost predicate Apart(v: Window, w: Window) {
    forall t | Holds(v, t) :: !Holds(w, t)
  }

  ghost predicate PairwiseApart(ws: seq<Window>) {
    forall j, k | 0 <= j < k < |ws| :: Apart(ws[j], ws[k])
  }

  predicate Holds(w: Window, t: int) {
    w.start.Some? && w.end.Some? && w.start.value <= t < w.end.value
  }

  function Seconds(start: int, end: int, ws: seq<Window>): nat {
    if ws == [] then 0
    else Seconds(start, end, ws[..|ws| - 1]) + Overlap(Some(start), Some(end), ws[|ws| - 1].start, ws[|ws| - 1].end)
  }

  function Holders(ws: seq<Window>, t: int): nat {
    if ws == [] then 0 else Holders(ws[..|ws| - 1], t) + if Holds(ws[|ws| - 1], t) then 1 else 0
  }

  lemma {:induction false} OneMoreSecond(start: int, end: int, ws: seq<Window>)
    requires start <= end
    ensures Seconds(start, end + 1, ws) == Seconds(start, end, ws) + Holders(ws, end)
  {
    if ws == [] {
    } else {
      OneMoreSecond(start, end, ws[..|ws| - 1]);
    }
  }

  lemma {:induction false} AtMostOneHolder(ws: seq<Window>, t: int)
    requires PairwiseApart(ws)
    ensures Holders(ws, t) <= 1
    ensures Holders(ws, t) == 1 ==> exists k :: 0 <= k < |ws| && Holds(ws[k], t)
  {
    if ws == [] {
    } else {
      var init, last := ws[..|ws| - 1], ws[|ws| - 1];
      AtMostOneHolder(init, t);
      if Holders(init, t) == 1 {
        var k :| 0 <= k < |init| && Holds(init[k], t);
        assert Apart(ws[k], last);
        assert Holds(ws[k], t);
      }
      if Holds(last, t) { assert Holds(ws[|ws| - 1], t); }
    }
  }

  lemma {:induction false} NoSeconds(start: int, ws: seq<Window>)
    ensures Seconds(start, start, ws) == 0
  {
    if ws == [] {
    } else {
      NoSeconds(start, ws[..|ws| - 1]);
    }
  }

  /** Disjoint windows cover no more of an interval than there is. */
  lemma {:induction false} DisjointFit(start: int, end: int, ws: seq<Window>)
    requires start <= end && PairwiseApart(ws)
    ensures Seconds(start, end, ws) <= end - start
    decreases end - start
  {
    if start == end {
      NoSeconds(start, ws);
    } else {
      DisjointFit(start, end - 1, ws);
      OneMoreSecond(start, end - 1, ws);
      AtMostOneHolder(ws, end - 1);
    }
  }

  lemma {:induction false} CoveredIsSeconds(row: Row, cycleEnd: Option<int>, ws: seq<Window>)
    requires StartOf(row).Some? && EndOf(row, cycleEnd).Some?
    ensures Covered(row, cycleEnd, ws) == Seconds(StartOf(row).value, EndOf(row, cycleEnd).value, ws)
  {
    if ws == [] {
    } else {
      CoveredIsSeconds(row, cycleEnd, ws[..|ws| - 1]);
    }
  }

  lemma CoveredFits(row: Row, cycleEnd: Option<int>, ws: seq<Window>)
    requires PairwiseApart(ws) && LifeOf(row, cycleEnd) > 0
    ensures Covered(row, cycleEnd, ws) <= LifeOf(row, cycleEnd)
  {
    CoveredIsSeconds(row, cycleEnd, ws);
    DisjointFit(StartOf(row).value, EndOf(row, cycleEnd).value, ws);
  }

  // ---------------------------------------------------------------- conservation

  function PartsSum(row: Row, cycleEnd: Option<int>, ws: seq<Window>): real {
    if ws == [] then 0.0 else PartsSum(row, cycleEnd, ws[..|ws| - 1]) + Part(row, cycleEnd, ws[|ws| - 1])
  }

  /** Summing by window and summing by row are the same sum. */
  lemma {:induction false} SumByRows(rows: seq<Row>, row: Row, cycleEnd: Option<int>, ws: seq<Window>)
    ensures SumBuckets(rows + [row], cycleEnd, ws) == SumBuckets(rows, cycleEnd, ws) + PartsSum(row, cycleEnd, ws)
  {
    if ws == [] {
    } else {
      SumByRows(rows, row, cycleEnd, ws[..|ws| - 1]);
      BucketMore(rows, row, cycleEnd, ws[|ws| - 1]);
    }
  }

  lemma {:induction false} SumOfNothing(cycleEnd: Option<int>, ws: seq<Window>)
    ensures SumBuckets([], cycleEnd, ws) == 0.0
  {
    if ws == [] {
    } else {
      SumOfNothing(cycleEnd, ws[..|ws| - 1]);
    }
  }

  lemma {:induction false} PartsAreCovered(row: Row, cycleEnd: Option<int>, ws: seq<Window>)
    ensures PartsSum(row, cycleEnd, ws) ==
            if Spread(row, cycleEnd) then Times(Covered(row, cycleEnd, ws) as real, RateOf(row, cycleEnd)) else 0.0
  {
    hide RateOf, Overlap;
    if ws == [] {
    } else {
      PartsAreCovered(row, cycleEnd, ws[..|ws| - 1]);
      if Spread(row, cycleEnd) {
        Distribute(Covered(row, cycleEnd, ws[..|ws| - 1]) as real, Inside(row, cycleEnd, ws[|ws| - 1]) as real,
                   RateOf(row, cycleEnd));
      }
    }
  }

  /** One row gives away exactly its low cost when no second of it is counted twice, and more when one is. */
  lemma RowGives(row: Row, cycleEnd: Option<int>, ws: seq<Window>)
    requires Spread(row, cycleEnd)
    ensures var given, usd := PartsSum(row, cycleEnd, ws) + Rest(row, cycleEnd, ws), row.bucket.charge.usd.low;
            && (Covered(row, cycleEnd, ws) <= LifeOf(row, cycleEnd) ==> given == usd)
            && (Covered(row, cycleEnd, ws) > LifeOf(row, cycleEnd) && usd > 0.0 ==> given > usd)
  {
    hide Times, RateOf, Covered, LifeOf;
    PartsAreCovered(row, cycleEnd, ws);
    RateIsWhole(row, cycleEnd);
    Shares(Covered(row, cycleEnd, ws), LifeOf(row, cycleEnd), RateOf(row, cycleEnd));
  }

  lemma RateIsWhole(row: Row, cycleEnd: Option<int>)
    requires Spread(row, cycleEnd)
    ensures Times(LifeOf(row, cycleEnd) as real, RateOf(row, cycleEnd)) == row.bucket.charge.usd.low
    ensures row.bucket.charge.usd.low > 0.0 ==> RateOf(row, cycleEnd) > 0.0
  {
    WholeRate(row.bucket.charge.usd.low, LifeOf(row, cycleEnd));
  }

  lemma Shares(covered: int, life: int, rate: real)
    ensures var given := Times(covered as real, rate) + Times(Max(0, life - covered) as real, rate);
            && (covered <= life ==> given == Times(life as real, rate))
            && (covered > life && rate > 0.0 ==> given > Times(life as real, rate))
  {
    if covered <= life {
      Distribute(covered as real, (life - covered) as real, rate);
    } else if rate > 0.0 {
      Distribute(life as real, (covered - life) as real, rate);
      assert (covered - life) as real * rate > 0.0;
    }
  }

  lemma WholeRate(usd: real, life: nat)
    requires life > 0
    ensures Times(life as real, usd / life as real) == usd && (usd > 0.0 ==> usd / life as real > 0.0)
  {
  }

  /** Some second of a lifetime with a cost is counted in two windows. */
  predicate CountsTwice(row: Row, cycleEnd: Option<int>, ws: seq<Window>) {
    Spread(row, cycleEnd) && Covered(row, cycleEnd, ws) > LifeOf(row, cycleEnd)
  }

  predicate AnyCountsTwice(rows: seq<Row>, cycleEnd: Option<int>, ws: seq<Window>) {
    exists k :: 0 <= k < |rows| && CountsTwice(rows[k], cycleEnd, ws)
  }

  /** No row was charged less than nothing. */
  predicate NoCredit(rows: seq<Row>) {
    forall k | 0 <= k < |rows| && rows[k].bucket.Priced? :: rows[k].bucket.charge.usd.low >= 0.0
  }

  /** The phases and the rest never hold less than the priced rows cost; and they hold exactly
      that if and only if no lifetime is covered by more seconds than it has. */
  lemma {:induction false} MoneyIsConservedExactly(rows: seq<Row>, cycleEnd: Option<int>, ws: seq<Window>)
    requires NoCredit(rows)
    ensures var given, cost := SumBuckets(rows, cycleEnd, ws) + OutsideOf(rows, cycleEnd, ws), LowSum(rows, cycleEnd);
            given >= cost && (given == cost <==> !AnyCountsTwice(rows, cycleEnd, ws))
  {
    if rows == [] {
      SumOfNothing(cycleEnd, ws);
    } else {
      var init, row := rows[..|rows| - 1], rows[|rows| - 1];
      assert rows == init + [row];
      MoneyIsConservedExactly(init, cycleEnd, ws);
      TwiceMore(init, row, cycleEnd, ws);
      SumByRows(init, row, cycleEnd, ws);
      PartsAreCovered(row, cycleEnd, ws);
      if Spread(row, cycleEnd) { RowGives(row, cycleEnd, ws); }
      hide RateOf, Covered, LifeOf, Times, Part, AnyCountsTwice, PartsSum, BucketOf;
    }
  }

  lemma TwiceMore(rows: seq<Row>, row: Row, cycleEnd: Option<int>, ws: seq<Window>)
    ensures AnyCountsTwice(rows + [row], cycleEnd, ws) <==>
            AnyCountsTwice(rows, cycleEnd, ws) || CountsTwice(row, cycleEnd, ws)
  {
    var all := rows + [row];
    if AnyCountsTwice(rows, cycleEnd, ws) {
      var k :| 0 <= k < |rows| && CountsTwice(rows[k], cycleEnd, ws);
      assert all[k] == rows[k];
    }
    assert all[|rows|] == row;
  }

  /** Attribution conserves money: over disjoint windows nothing is lost and nothing is counted twice. */
  lemma {:induction false} MoneyIsConserved(rows: seq<Row>, cycleEnd: Option<int>, ws: seq<Window>)
    requires PairwiseApart(ws)
    ensures SumBuckets(rows, cycleEnd, ws) + OutsideOf(rows, cycleEnd, ws) == LowSum(rows, cycleEnd)
  {
    if rows == [] {
      SumOfNothing(cycleEnd, ws);
    } else {
      var init, row := rows[..|rows| - 1], rows[|rows| - 1];
      assert rows == init + [row];
      MoneyIsConserved(init, cycleEnd, ws);
      SumByRows(init, row, cycleEnd, ws);
      PartsAreCovered(row, cycleEnd, ws);
      if Spread(row, cycleEnd) {
        CoveredFits(row, cycleEnd, ws);
        RowGives(row, cycleEnd, ws);
      }
    }
  }
}
