/**
 The range-sum product (range_sum.py) on the finite kit: its plan tiles the range, and whatever schedule the kit
 runs it under, a run that is reported succeeded adds up to the sum of the range.
 */
module RangeSum {
  import opened Wrappers
  import opened Retry
  import opened Planning
  import opened FiniteKitTables
  import opened FiniteKitHistory
  import opened Sums
  import Text

  const CHUNK_SIZE: nat := 10_000

  /** The payload of a unit: a part of the range. */
  datatype Chunk = Chunk(start: int, end: int)

  /** What a unit returned: a subtotal, or something the aggregation refuses. */
  datatype UnitResult = Subtotal(value: int) | OtherResult(text: string)

  type SumUnit = ExecutionUnit<Chunk>
  type SumKit = Kit<Chunk, UnitResult>
  type SumRun = KitRun<Chunk, UnitResult>
  type SumEvent = KitEvent<Chunk, UnitResult>

  function ChunkKey(lo: int, step: int): string {
    "range:" + Text.Signed(lo) + "-" + Text.Signed(step)
  }

  function UnitOf(lo: int, step: int): SumUnit {
    ExecutionUnit(ChunkKey(lo, step), Chunk(lo, step), 300, 5)
  }

  function Chunks(lo: int, hi: int): seq<SumUnit>
    decreases hi - lo
  {
    if lo >= hi then []
    else
      var step := Min(lo + CHUNK_SIZE, hi);
      [UnitOf(lo, step)] + Chunks(step, hi)
  }

  lemma {:induction false} NextChunk(units: seq<SumUnit>, lo: int, end: int, rest: seq<SumUnit>) returns (later: seq<SumUnit>)
    requires lo < end && rest == Chunks(lo, end)
    ensures var step := Min(lo + CHUNK_SIZE, end);
            later == Chunks(step, end) && units + rest == units + [UnitOf(lo, step)] + later
  {
    later := Chunks(Min(lo + CHUNK_SIZE, end), end);
  }

  /** The planner: one unit per chunk, from the start of the range to its end. */
  method PlanRange(start: int, end: int) returns (units: seq<SumUnit>)
    ensures units == Chunks(start, end) && Tiles(units, start, end)
    ensures forall i :: 0 <= i < |units| ==>
              var c := units[i].payload;
              units[i] == ExecutionUnit("range:" + Text.Signed(c.start) + "-" + Text.Signed(c.end), c, 300, 5)
  {
    ChunksTile(start, end);
    forall i | 0 <= i < |Chunks(start, end)|
      ensures var u := Chunks(start, end)[i]; u == UnitOf(u.payload.start, u.payload.end)
    {
      ChunksAreNamed(start, end, i);
    }
    units := [];
    var lo := start;
    ghost var whole, rest := Chunks(start, end), Chunks(start, end);
    while lo < end
      invariant units + rest == whole && rest == Chunks(lo, end)
      decreases end - lo
    {
      var step := Min(lo + CHUNK_SIZE, end);
      rest := NextChunk(units, lo, end, rest);
      units := units + [UnitOf(lo, step)];
      lo := step;
    }
    assert rest == [];
  }

  // ---- the plan ----

  /** The units cover [lo, hi) left to right without gaps or overlaps, in pieces of a chunk but for the last. */
  ghost predicate Tiles(units: seq<SumUnit>, lo: int, hi: int) {
    if units == [] then lo >= hi
    else
      var c := units[0].payload;
      && c.start == lo && lo < c.end <= hi
      && (|units| == 1 ==> c.end == hi && hi - lo <= 10_000)
      && (|units| > 1 ==> c.end == lo + 10_000 < hi && Tiles(units[1..], c.end, hi))
  }

  lemma {:induction false} ChunksTile(lo: int, hi: int)
    ensures Tiles(Chunks(lo, hi), lo, hi)
    decreases hi - lo
  {
    if lo < hi {
      var step := Min(lo + CHUNK_SIZE, hi);
      ChunksTile(step, hi);
      assert Chunks(lo, hi)[1..] == Chunks(step, hi);
    }
  }

  /** A signed number that a dash follows can be read back, although a dash also marks a negative one. */
  lemma SignedReadsBack(a: int, u: string, b: int, v: string)
    requires Text.Signed(a) + "-" + u == Text.Signed(b) + "-" + v
    ensures a == b
  {
    SignedStart(a, u);
    SignedStart(b, v);
    assert a < 0 <==> b < 0;
    if a < 0 {
      UnsignedReadsBack(-a, u, -b, v);
    } else {
      UnsignedReadsBack(a, u, b, v);
    }
  }

  lemma UnsignedReadsBack(m: nat, u: string, n: nat, v: string)
    requires Text.Decimal(m) + ['-'] + u == Text.Decimal(n) + ['-'] + v
    ensures m == n
  {
    Text.SplitAtSeparator(Text.Decimal(m), Text.Decimal(n), u, v, '-');
    Text.DecimalIsInjective(m, n);
  }

  /** A piece's key tells where the piece starts, also for negative bounds. */
  lemma {:induction false} ChunkKeyNamesItsStart(lo: int, step: int, lo': int, step': int)
    requires ChunkKey(lo, step) == ChunkKey(lo', step')
    ensures lo == lo'
  {
    KeyBody(lo, step);
    KeyBody(lo', step');
    SignedReadsBack(lo, Text.Signed(step), lo', Text.Signed(step'));
  }

  lemma KeyBody(lo: int, step: int)
    ensures ChunkKey(lo, step)[|"range:"|..] == Text.Signed(lo) + "-" + Text.Signed(step)
  {
    assert ChunkKey(lo, step) == "range:" + (Text.Signed(lo) + "-" + Text.Signed(step));
  }

  lemma SignedStart(n: int, rest: string)
    ensures var text := Text.Signed(n) + "-" + rest;
            if n < 0 then text[0] == '-' && text[1..] == Text.Decimal(-n) + ['-'] + rest
            else text[0] != '-' && text == Text.Decimal(n) + ['-'] + rest
  {
    if n < 0 {
      assert Text.Signed(n)[1..] == Text.Decimal(-n);
      assert (Text.Signed(n) + "-" + rest)[1..] == Text.Decimal(-n) + ['-'] + rest;
    } else {
      assert Text.IsDigit(Text.Decimal(n)[0]);
    }
  }

  lemma {:induction false} TilesAscend(units: seq<SumUnit>, lo: int, hi: int, i: nat, j: nat)
    requires Tiles(units, lo, hi) && i < j < |units|
    ensures lo <= units[i].payload.start < units[j].payload.start
  {
    if i == 0 {
      TilesStart(units[1..], units[0].payload.end, hi, j - 1);
    } else {
      TilesAscend(units[1..], units[0].payload.end, hi, i - 1, j - 1);
    }
  }

  lemma {:induction false} TilesStart(units: seq<SumUnit>, lo: int, hi: int, i: nat)
    requires Tiles(units, lo, hi) && i < |units|
    ensures lo <= units[i].payload.start
  {
    if i > 0 {
      TilesStart(units[1..], units[0].payload.end, hi, i - 1);
    }
  }

  lemma {:induction false} ChunksAreNamed(lo: int, hi: int, i: nat)
    requires i < |Chunks(lo, hi)|
    ensures var u := Chunks(lo, hi)[i]; u == UnitOf(u.payload.start, u.payload.end)
    decreases hi - lo
  {
    if i > 0 {
      ChunksAreNamed(Min(lo + CHUNK_SIZE, hi), hi, i - 1);
    }
  }

  lemma KeysDiffer(lo: int, hi: int, i: nat, j: nat)
    requires i < j < |Chunks(lo, hi)|
    ensures Chunks(lo, hi)[i].key != Chunks(lo, hi)[j].key
  {
    var a, b := Chunks(lo, hi)[i], Chunks(lo, hi)[j];
    ChunksTile(lo, hi);
    ChunksAreNamed(lo, hi, i);
    ChunksAreNamed(lo, hi, j);
    TilesAscend(Chunks(lo, hi), lo, hi, i, j);
    if a.key == b.key {
      ChunkKeyNamesItsStart(a.payload.start, a.payload.end, b.payload.start, b.payload.end);
    }
  }

  lemma KeyIsAName(lo: int, step: int)
    ensures IsContractName(ChunkKey(lo, step))
  {
    SignedIsName(lo);
    SignedIsName(step);
    var front, back := "range:" + Text.Signed(lo), "-" + Text.Signed(step);
    assert forall i :: 0 <= i < |front| ==> NameChar(front[i]);
    assert ChunkKey(lo, step) == front + back;
  }

  /** So the plan of any range passes validation: its keys are legal names and no two are equal. */
  lemma {:induction false} PlansAreAccepted(lo: int, hi: int, digest: Chunk -> string)
    ensures Accepted(Chunks(lo, hi), digest, None)
    ensures forall i :: 0 <= i < |Chunks(lo, hi)| ==> IsContractName(Chunks(lo, hi)[i].key)
  {
    var units := Chunks(lo, hi);
    forall i, j | 0 <= i < j < |units| ensures units[i].key != units[j].key {
      KeysDiffer(lo, hi, i, j);
    }
    forall i | 0 <= i < |units| ensures IsContractName(units[i].key) {
      ChunksAreNamed(lo, hi, i);
      KeyIsAName(units[i].payload.start, units[i].payload.end);
    }
  }

  lemma SignedIsName(n: int)
    ensures forall i :: 0 <= i < |Text.Signed(n)| ==> NameChar(Text.Signed(n)[i])
  {
    var digits := Text.Decimal(if n < 0 then -n else n);
    assert forall i :: 0 <= i < |digits| ==> Text.IsDigit(digits[i]);
  }

  // ---- the sum ----

  /** sum(range(lo, hi)). */
  function SumRange(lo: int, hi: int): int
    decreases hi - lo
  {
    if lo >= hi then 0 else SumRange(lo, hi - 1) + (hi - 1)
  }

  lemma {:induction false} SumSplits(lo: int, mid: int, hi: int)
    requires lo <= mid <= hi
    ensures SumRange(lo, hi) == SumRange(lo, mid) + SumRange(mid, hi)
    decreases hi - mid
  {
    if mid < hi {
      SumSplits(lo, mid, hi - 1);
    }
  }

  /** Gauss: the sum is the number of terms times the middle. */
  lemma {:induction false} SumIsArithmetic(lo: int, hi: int)
    requires lo <= hi
    ensures 2 * SumRange(lo, hi) == (hi - lo) * (lo + hi - 1)
    decreases hi - lo
  {
    if lo < hi {
      SumIsArithmetic(lo, hi - 1);
      assert (hi - lo) * (lo + hi - 1) == (hi - 1 - lo) * (lo + hi - 2) + 2 * (hi - 1);
    }
  }

  /** The handler: it stops if its run is cancelled, and sums its chunk otherwise. */
  function SumPartial(cancelled: bool, c: Chunk): HandlerEnd<UnitResult> {
    if cancelled then Raised(CancelledError) else Returned(Subtotal(SumRange(c.start, c.end)))
  }

  /** The value of an aggregation: none when some result is not a subtotal. */
  function Aggregate(results: seq<UnitResult>): Option<int> {
    if results == [] then Some(0)
    else
      var earlier, last := Aggregate(results[..|results| - 1]), results[|results| - 1];
      if earlier.Some? && last.Subtotal? then Some(earlier.value + last.value) else None
  }

  lemma {:induction false} RefusedStays(results: seq<UnitResult>, i: nat)
    requires i <= |results| && Aggregate(results[..i]).None?
    ensures Aggregate(results).None?
    decreases |results| - i
  {
    if i < |results| {
      assert results[..i + 1][..i] == results[..i];
      RefusedStays(results, i + 1);
    } else {
      assert results[..i] == results;
    }
  }

  /** The subtotals among some results, by position. */
  function Subtotals(results: seq<UnitResult>): map<nat, int> {
    map i: nat | i < |results| && results[i].Subtotal? :: results[i].value
  }

  lemma {:induction false} TotalIsTheSum(results: seq<UnitResult>)
    ensures Aggregate(results).Some? ==> Aggregate(results).value == SumOf(Subtotals(results))
  {
    if results == [] {
      assert Subtotals(results) == map[];
    } else if Aggregate(results).Some? {
      var n: nat := |results| - 1;
      var front: map<nat, int> := Subtotals(results[..n]);
      TotalIsTheSum(results[..n]);
      SumWith(front, n, results[n].value);
      assert Subtotals(results) == front[n := results[n].value];
    }
  }

  /** `None` is the TypeError for a result that is not a subtotal. */
  method AggregateSubtotals(results: seq<UnitResult>) returns (total: Option<int>)
    ensures total == Aggregate(results)
    ensures total.Some? <==> forall i :: 0 <= i < |results| ==> results[i].Subtotal?
    ensures total.Some? ==> total.value == SumOf(Subtotals(results))
  {
    TotalIsTheSum(results);
    var sum := 0;
    for i := 0 to |results|
      invariant Aggregate(results[..i]) == Some(sum)
      invariant forall j :: 0 <= j < i ==> results[j].Subtotal?
    {
      assert results[..i + 1][..i] == results[..i];
      if !results[i].Subtotal? {
        RefusedStays(results, i + 1);
        return None;
      }
      sum := sum + results[i].value;
    }
    assert results[..|results|] == results;
    total := Some(sum);
  }

  // ---- any schedule ----

  /** The handler of the delivered unit returned its own sum, or failed in any way. */
  ghost predicate FaithfulStep(k: SumKit, e: SumEvent) {
    e.Delivered? && e.end.Returned? ==>
      var s := FirstDue(k.runs, e.selected, k.now);
      s.Some? && InKit(k.runs, s.value) ==>
        SumPartial(false, UnitAt(k.runs, s.value).unit.payload) == e.end
  }

  ghost predicate Faithful(k: SumKit, es: seq<SumEvent>) {
    es == [] || (Faithful(k, es[..|es| - 1]) && FaithfulStep(Run(k, es[..|es| - 1]), es[|es| - 1]))
  }

  /** Results kept for a unit are its own sum. */
  predicate HonestUnit(u: KitUnit<Chunk, UnitResult>) {
    u.result.Some? ==> u.result.value == Subtotal(SumRange(u.unit.payload.start, u.unit.payload.end))
  }

  ghost predicate HonestRun(r: SumRun) {
    forall i :: 0 <= i < |r.units| ==> HonestUnit(r.units[i])
  }

  ghost predicate Honest(k: SumKit) {
    forall i :: 0 <= i < |k.runs| ==> HonestRun(k.runs[i])
  }

  lemma HonestStep(k: SumKit, e: SumEvent)
    requires KitInv(k) && Honest(k) && FaithfulStep(k, e)
    ensures Honest(Step(k, e))
  {
    match e
    case Advance(_) =>
    case Submitted(plan) =>
      if plan.Some? {
        FreshIsHonest(plan.value);
      }
    case Delivered(selected, end) =>
      FirstDueIsFirst(k.runs, selected, k.now);
      var s := FirstDue(k.runs, selected, k.now);
      if s.Some? {
        InvokedIsHonest(k.runs[s.value.run], s.value.unit, end, k.now, k.policy, false);
      }
    case Redelivered(s, selected, key, end) =>
      if Redeliverable(k.runs, selected, key, s) {
        InvokedIsHonest(k.runs[s.run], s.unit, end, k.now, k.policy, true);
      }
    case CancelRun(i) =>
      if i < |k.runs| {
        forall j | 0 <= j < |k.runs[i].units| ensures HonestUnit(CancelUnits(k.runs[i].units)[j]) {
          CancelUnitsAt(k.runs[i].units, j);
          assert HonestUnit(k.runs[i].units[j]);
        }
        assert HonestRun(CancelledRun(k.runs[i]));
      }
  }

  lemma FreshIsHonest(plan: seq<SumUnit>)
    ensures forall i :: 0 <= i < |plan| ==> HonestUnit(FreshUnits<Chunk, UnitResult>(plan)[i])
  {
    forall i | 0 <= i < |plan| ensures HonestUnit(FreshUnits<Chunk, UnitResult>(plan)[i]) {
      FreshUnitsAt<Chunk, UnitResult>(plan, i);
    }
  }

  lemma InvokedIsHonest(r: SumRun, i: nat, end: HandlerEnd<UnitResult>, now: int, policy: Policy, duplicate: bool)
    requires i < |r.units| && HonestRun(r)
    requires duplicate || (end.Returned? ==> SumPartial(false, r.units[i].unit.payload) == end)
    ensures HonestRun(Invoked(r, i, end, now, policy, duplicate))
  {
    assert HonestUnit(r.units[i]);
  }

  lemma {:induction false} HonestSchedule(k: SumKit, es: seq<SumEvent>)
    requires KitInv(k) && Honest(k) && Faithful(k, es)
    ensures Honest(Run(k, es))
  {
    if es != [] {
      var n := |es| - 1;
      HonestSchedule(k, es[..n]);
      RunIsOk(k, es[..n]);
      HonestStep(Run(k, es[..n]), es[n]);
    }
  }

  /** The planned unit, succeeded with the sum of its piece. */
  predicate DoneRight(u: KitUnit<Chunk, UnitResult>, planned: SumUnit) {
    u.unit == planned && HonestUnit(u) && u.result.Some? && u.status.Succeeded?
  }

  /** The sum of the pieces of a tiling is the sum of the range. */
  lemma {:induction false} SubtotalsAddUp(plan: seq<SumUnit>, units: seq<KitUnit<Chunk, UnitResult>>, lo: int, hi: int)
    requires Tiles(plan, lo, hi) && |units| == |plan|
    requires forall i :: 0 <= i < |units| ==> DoneRight(units[i], plan[i])
    ensures Aggregate(Results(units)) == Some(SumRange(lo, hi))
  {
    if plan != [] {
      var n := |plan| - 1;
      TilesFront(plan, lo, hi);
      var c := plan[n].payload;
      SubtotalsAddUp(plan[..n], units[..n], lo, c.start);
      assert DoneRight(units[n], plan[n]);
      var rs := Results(units);
      assert rs[..|rs| - 1] == Results(units[..n]);
      SumSplits(lo, c.start, hi);
    }
  }

  /** Without its last piece a tiling covers the range up to that piece. */
  lemma {:induction false} TilesFront(plan: seq<SumUnit>, lo: int, hi: int)
    requires Tiles(plan, lo, hi) && plan != []
    ensures var n := |plan| - 1;
            lo <= plan[n].payload.start && plan[n].payload.end == hi && Tiles(plan[..n], lo, plan[n].payload.start)
            && plan[n].payload.start <= hi
  {
    var n := |plan| - 1;
    if n > 0 {
      TilesFront(plan[1..], plan[0].payload.end, hi);
      assert plan[1..][..n - 1] == plan[..n][1..];
      assert plan[1..][n - 1] == plan[n];
    }
  }

  lemma {:induction false} SucceededRight(plan: seq<SumUnit>, before: SumRun, r: SumRun)
    requires before.units == FreshUnits<Chunk, UnitResult>(plan) && |before.units| == |plan|
    requires RunEvolves(before, r) && RunOk(r) && HonestRun(r) && StatusOf(r).RunSucceeded?
    ensures |r.units| == |plan| && forall j :: 0 <= j < |r.units| ==> DoneRight(r.units[j], plan[j])
  {
    forall j | 0 <= j < |r.units| ensures DoneRight(r.units[j], plan[j]) {
      FreshUnitsAt<Chunk, UnitResult>(plan, j);
      assert UnitEvolves(before.units[j], r.units[j]) && UnitOk(r.units[j], r.cancelled) && HonestUnit(r.units[j]);
    }
  }

  /**
   Range sum under any schedule. Submit the plan of any range to a kit that may already hold other runs, then let
   calls, failures of every kind, retries, clock advances, cancellations and redeliveries follow in any order: if
   the kit reports the run succeeded, aggregating its results gives exactly the sum of the range, which, unless the range
   ends before it starts, is the number of its terms times the middle.
   */
  lemma {:induction false} RangeSumIsExact(k: SumKit, start: int, end: int, es: seq<SumEvent>)
    requires KitInv(k) && Honest(k)
    requires Faithful(Submit(k, Some(Chunks(start, end))), es)
    ensures var i, done := |k.runs|, Run(Submit(k, Some(Chunks(start, end))), es);
            && i < |done.runs|
            && (StatusOf(done.runs[i]).RunSucceeded? ==>
                && Aggregate(Results(done.runs[i].units)) == Some(SumRange(start, end))
                && (start <= end ==> 2 * Aggregate(Results(done.runs[i].units)).value == (end - start) * (start + end - 1)))
  {
    var plan := Chunks(start, end);
    var submitted := Submit(k, Some(plan));
    var i := |k.runs|;
    SubmittedIsOk(k, plan);
    HonestStep(k, Submitted(Some(plan)));
    HonestSchedule(submitted, es);
    RunIsOk(submitted, es);
    var r := Run(submitted, es).runs[i];
    assert RunEvolves(submitted.runs[i], r);
    if StatusOf(r).RunSucceeded? {
      ChunksTile(start, end);
      SucceededRight(plan, submitted.runs[i], r);
      SubtotalsAddUp(plan, r.units, start, end);
      if start <= end {
        SumIsArithmetic(start, end);
      }
    }
  }
}
