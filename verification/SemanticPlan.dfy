/** prepare, accept and persist of the semantic summary cache (demo/semantic_memory.py). */
module SemanticPlan {
  import opened Wrappers
  import opened Numbers
  import opened SemanticHistory
  import opened SemanticMemory

  datatype Plan = Plan(baseline: Disk, next: Cache, start: Cursor, end: Cursor, sources: seq<Source>,
                       bounds: map<string, seq<Span>>, inputTokens: nat, outputBudget: int)

  datatype Outcome = Refused | NoPlan | Planned(plan: Plan)

  // ---------------------------------------------------------------- what a plan promises

  /** The stored segments reach exactly to the start of the planned range. */
  ghost predicate ReachesStart(p: Plan) {
    if p.next.segments == [] then p.next.evicted == 0 && Origin(p.next) == p.start
    else p.next.segments[|p.next.segments| - 1].end == p.start
  }

  ghost predicate PlanOk(env: Oracles, p: Plan, rows: seq<Row>, keepRecent: int) {
    var eligible := Eligible(rows, keepRecent);
    && keepRecent >= 4 && ValidHistory(rows)
    && CursorOk(p.start, rows, eligible) && CursorOk(p.end, rows, eligible) && Before(p.start, p.end)
    && p.sources == Ranges(rows, p.start, p.end)
    && p.bounds == NumberBounds(rows, p.sources)
    && p.next.cursor == p.end
    && Base(env, p.next, rows, eligible)
    && AtMost(Origin(p.next), p.start)
    && ReachesStart(p)
    && (Pending(env.correction(rows), p.end) ==> p.next.boundary == env.correction(rows))
  }

  function CostTo(env: Oracles, rows: seq<Row>, start: Cursor, c: Cursor): nat
    requires Within(start, c, rows)
  {
    env.cost(Ranges(rows, start, c))
  }

  /** c is the largest cursor whose range from start still fits the budget. */
  ghost predicate LargestFit(env: Oracles, rows: seq<Row>, eligible: nat, start: Cursor, c: Cursor, budget: int)
    requires eligible <= |rows| && CursorOk(start, rows, eligible)
  {
    && CursorOk(c, rows, eligible) && AtMost(start, c)
    && (c != start ==> CostTo(env, rows, start, c) <= budget)
    && (forall d :: CursorOk(d, rows, eligible) && Before(c, d) ==> CostTo(env, rows, start, d) > budget)
  }

  /** The plan ends at the largest fit m, or at the start of the number that m would cut in two,
      when that number begins inside the planned part of the message. */
  ghost predicate BackedOff(rows: seq<Row>, start: Cursor, m: Cursor, end: Cursor)
    requires CursorOk(m, rows, |rows|)
  {
    if m.offset == 0 then end == m
    else
      var content, low := rows[m.index].content, OffsetIn(start, m.index);
      && end.index == m.index
      && (end == m ==> forall a: nat, b: nat :: IsRun(content, a, b) ==> !Splits(Span(a, b), low, m.offset))
      && (end != m ==> exists b: nat :: IsRun(content, end.offset, b) && Splits(Span(end.offset, b), low, m.offset))
  }

  // ---------------------------------------------------------------- cost along the history

  lemma {:induction false} CostCut(cost: seq<Source> -> nat, s: seq<Source>, rows: seq<Row>, start: Cursor, i: int, n: int, k: int)
    requires Monotone(cost)
    requires CursorOk(start, rows, |rows|) && start.index <= i < |rows|
    requires 0 <= n <= k <= RestLength(rows, start, i)
    ensures cost(s + [CutSource(rows, start, i, n)]) <= cost(s + [CutSource(rows, start, i, k)])
  {
    assert Shorter(CutSource(rows, start, i, n), CutSource(rows, start, i, k));
  }

  /** A range that ends before message i, or at its first character, costs at most the whole messages before i. */
  lemma {:induction false} CostBeforeMessage(env: Oracles, rows: seq<Row>, start: Cursor, a: Cursor, i: int)
    requires Monotone(env.cost)
    requires CursorOk(start, rows, |rows|) && CursorOk(a, rows, |rows|) && Before(start, a)
    requires start.index <= i <= |rows|
    requires a.index < i || (a.index == i && a.offset == 0)
    ensures CostTo(env, rows, start, a) <= env.cost(RangesTo(rows, start, i))
    decreases i, 0
  {
    if a.index == i {
      RangesAreWhole(rows, start, i);
    } else {
      CostInMessage(env, rows, start, a, i - 1);
      RangesAddWhole(rows, start, i - 1);
    }
  }

  /** A range that ends in message i costs at most the whole messages up to and including i. */
  lemma {:induction false} CostInMessage(env: Oracles, rows: seq<Row>, start: Cursor, a: Cursor, i: int)
    requires Monotone(env.cost)
    requires CursorOk(start, rows, |rows|) && CursorOk(a, rows, |rows|) && Before(start, a)
    requires start.index <= i < |rows| && a.index <= i
    ensures CostTo(env, rows, start, a) <= env.cost(RangesTo(rows, start, i) + [WholeSource(rows, start, i)])
    decreases i, 1
  {
    if a.index < i || a.offset == 0 {
      CostBeforeMessage(env, rows, start, a, i);
    } else {
      var n := a.offset - OffsetIn(start, i);
      RangesAddCut(rows, start, i, n);
      CostCut(env.cost, RangesTo(rows, start, i), rows, start, i, n, RestLength(rows, start, i));
    }
  }

  lemma {:induction false} CostToPartial(env: Oracles, rows: seq<Row>, start: Cursor, a: Cursor, b: Cursor)
    requires Monotone(env.cost)
    requires CursorOk(start, rows, |rows|) && CursorOk(a, rows, |rows|) && CursorOk(b, rows, |rows|)
    requires Before(start, a) && AtMost(a, b) && b.offset != 0
    ensures CostTo(env, rows, start, a) <= CostTo(env, rows, start, b)
  {
    var i, n := b.index, b.offset - OffsetIn(start, b.index);
    RangesAddCut(rows, start, i, n);
    if a.index == i && a.offset > 0 {
      RangesAddCut(rows, start, i, a.offset - OffsetIn(start, i));
      CostCut(env.cost, RangesTo(rows, start, i), rows, start, i, a.offset - OffsetIn(start, i), n);
    } else {
      CostBeforeMessage(env, rows, start, a, i);
    }
  }

  /** A longer range never costs less. */
  lemma {:induction false} CostToMonotone(env: Oracles, rows: seq<Row>, start: Cursor, a: Cursor, b: Cursor)
    requires Monotone(env.cost)
    requires CursorOk(start, rows, |rows|) && CursorOk(a, rows, |rows|) && CursorOk(b, rows, |rows|)
    requires Before(start, a) && AtMost(a, b)
    ensures CostTo(env, rows, start, a) <= CostTo(env, rows, start, b)
  {
    if b.offset != 0 {
      CostToPartial(env, rows, start, a, b);
    } else {
      RangesAreWhole(rows, start, b.index);
      CostBeforeMessage(env, rows, start, a, b.index);
    }
  }

  // ---------------------------------------------------------------- prepare

  /** _history: unique, stored ids. */
  method CheckHistory(rows: seq<Row>) returns (ok: bool)
    ensures ok <==> ValidHistory(rows)
    ensures ok ==> forall i :: 0 <= i < |rows| ==>
                     0 < |rows[i].id| <= 256 && rows[i].id != "current" && !("client-" <= rows[i].id)
  {
    var ids: set<string> := {};
    for i := 0 to |rows|
      invariant forall j :: 0 <= j < i ==> rows[j].id in ids
      invariant forall id :: id in ids ==> exists j :: 0 <= j < i && rows[j].id == id
      invariant ValidHistory(rows[..i])
    {
      if !StoredId(rows[i].id) || rows[i].id in ids {
        return false;
      }
      ids := ids + {rows[i].id};
    }
    assert rows[..|rows|] == rows;
    return true;
  }

  /** No cut of message i longer than n fits behind the sources already taken. */
  ghost predicate NoLongerCut(env: Oracles, sources: seq<Source>, rows: seq<Row>, start: Cursor, i: int, n: int, budget: int)
    requires CursorOk(start, rows, |rows|) && start.index <= i < |rows|
  {
    forall k :: 0 <= k && n < k <= RestLength(rows, start, i) ==> env.cost(sources + [CutSource(rows, start, i, k)]) > budget
  }

  /** The largest prefix of message i that fits behind the sources already taken. */
  method LargestCut(env: Oracles, sources: seq<Source>, rows: seq<Row>, start: Cursor, i: int, budget: int) returns (low: int)
    requires CursorOk(start, rows, |rows|) && start.index <= i < |rows|
    ensures 0 <= low <= RestLength(rows, start, i)
    ensures low > 0 ==> env.cost(sources + [CutSource(rows, start, i, low)]) <= budget
    ensures Monotone(env.cost) ==> NoLongerCut(env, sources, rows, start, i, low, budget)
  {
    low := 0;
    var high := RestLength(rows, start, i);
    while low < high
      invariant 0 <= low <= high <= RestLength(rows, start, i)
      invariant low > 0 ==> env.cost(sources + [CutSource(rows, start, i, low)]) <= budget
      invariant Monotone(env.cost) ==> NoLongerCut(env, sources, rows, start, i, high, budget)
    {
      var middle := (low + high + 1) / 2;
      if env.cost(sources + [CutSource(rows, start, i, middle)]) <= budget {
        low := middle;
      } else {
        if Monotone(env.cost) {
          forall k | middle <= k <= RestLength(rows, start, i)
            ensures env.cost(sources + [CutSource(rows, start, i, k)]) > budget
          {
            CostCut(env.cost, sources, rows, start, i, middle, k);
          }
        }
        high := middle - 1;
      }
    }
  }

  /** A number that begins behind `from` and would be cut at `cut`. */
  predicate Splits(r: Span, from: int, cut: int) {
    from < r.start < cut < r.end
  }

  /** Prefer to end before a number instead of inside it, when that still advances the plan. */
  method BackOffNumber(content: string, offset: int, low: int) returns (n: int)
    requires 0 <= offset && 0 < low && offset + low <= |content|
    ensures 0 < n <= low
    ensures if n == low then forall r :: r in Runs(content, 0) ==> !Splits(r, offset, offset + low)
            else exists r :: r in Runs(content, 0) && Splits(r, offset, offset + low) && r.start == offset + n
  {
    var spans, cut := Runs(content, 0), offset + low;
    RunsExact(content, 0);
    var j := 0;
    while j < |spans| && spans[j].start < cut
      invariant 0 <= j <= |spans|
      invariant forall k :: 0 <= k < j ==> !Splits(spans[k], offset, cut)
    {
      if Splits(spans[j], offset, cut) {
        assert spans[j] in spans;
        return spans[j].start - offset;
      }
      j := j + 1;
    }
    return low;
  }

  /** Once message i cannot be added whole, and no longer cut of it fits, no later cursor fits. */
  lemma {:induction false} NothingBeyond(env: Oracles, rows: seq<Row>, eligible: nat, start: Cursor, i: int, m: Cursor, budget: int)
    requires Monotone(env.cost)
    requires eligible <= |rows| && CursorOk(start, rows, eligible) && start.index <= i < eligible
    requires CursorOk(m, rows, eligible) && AtMost(start, m)
    requires m == EndBefore(start, i) || (m.index == i && m.offset > OffsetIn(start, i))
    requires env.cost(RangesTo(rows, start, i) + [WholeSource(rows, start, i)]) > budget
    requires NoLongerCut(env, RangesTo(rows, start, i), rows, start, i,
                         if m.index == i then m.offset - OffsetIn(start, i) else 0, budget)
    ensures forall d :: CursorOk(d, rows, eligible) && Before(m, d) ==> CostTo(env, rows, start, d) > budget
  {
    RangesAddWhole(rows, start, i);
    RangesAreWhole(rows, start, i + 1);
    forall d | CursorOk(d, rows, eligible) && Before(m, d)
      ensures CostTo(env, rows, start, d) > budget
    {
      if d.index == i {
        RangesAddCut(rows, start, i, d.offset - OffsetIn(start, i));
      } else {
        CostToMonotone(env, rows, start, Cursor(i + 1, 0), d);
      }
    }
  }

  /** A cut of the last message and the number boundary it is backed off to. */
  lemma {:induction false} CutsAreRanges(env: Oracles, rows: seq<Row>, start: Cursor, i: int, low: int, n: int)
    requires CursorOk(start, rows, |rows|) && start.index <= i < |rows|
    requires 0 < n <= low < RestLength(rows, start, i)
    requires var runs, o := Runs(rows[i].content, 0), OffsetIn(start, i);
             if n == low then forall r :: r in runs ==> !Splits(r, o, o + low)
             else exists r :: r in runs && Splits(r, o, o + low) && r.start == o + n
    ensures var o := OffsetIn(start, i);
            var m, end := Cursor(i, o + low), Cursor(i, o + n);
            && CursorOk(m, rows, |rows|) && CursorOk(end, rows, |rows|) && Before(start, end) && AtMost(end, m)
            && CostTo(env, rows, start, m) == env.cost(RangesTo(rows, start, i) + [CutSource(rows, start, i, low)])
            && Ranges(rows, start, end) == RangesTo(rows, start, i) + [CutSource(rows, start, i, n)]
            && BackedOff(rows, start, m, end)
  {
    RangesAddCut(rows, start, i, low);
    RangesAddCut(rows, start, i, n);
    RunsExact(rows[i].content, 0);
  }

  /** The last message of a plan: as much of it as fits, backed off to a number boundary. */
  method TakeCut(env: Oracles, sources: seq<Source>, rows: seq<Row>, start: Cursor, i: int, budget: int)
      returns (taken: seq<Source>, end: Cursor, ghost m: Cursor)
    requires CursorOk(start, rows, |rows|) && start.index <= i < |rows|
    requires sources == RangesTo(rows, start, i)
    requires env.cost(sources + [WholeSource(rows, start, i)]) > budget
    ensures m == EndBefore(start, i) || (m.index == i && m.offset > OffsetIn(start, i))
    ensures CursorOk(end, rows, |rows|) && CursorOk(m, rows, |rows|) && end.index == m.index
    ensures m == EndBefore(start, i) ==> end == m && taken == sources
    ensures m != EndBefore(start, i) ==>
              && Before(start, end) && AtMost(end, m) && taken == Ranges(rows, start, end)
              && CostTo(env, rows, start, m) <= budget && BackedOff(rows, start, m, end)
    ensures Monotone(env.cost) ==>
              NoLongerCut(env, sources, rows, start, i, if m.index == i then m.offset - OffsetIn(start, i) else 0, budget)
  {
    var low := LargestCut(env, sources, rows, start, i, budget);
    if low == 0 {
      return sources, EndBefore(start, i), EndBefore(start, i);
    }
    assert low < RestLength(rows, start, i);
    var n := BackOffNumber(rows[i].content, OffsetIn(start, i), low);
    CutsAreRanges(env, rows, start, i, low, n);
    m := Cursor(i, OffsetIn(start, i) + low);
    end := Cursor(i, OffsetIn(start, i) + n);
    taken := sources + [CutSource(rows, start, i, n)];
  }

  /** Sources and end of the largest plan from `start`; end == start when nothing fits. */
  method PlanRange(env: Oracles, rows: seq<Row>, start: Cursor, eligible: nat, budget: int)
      returns (sources: seq<Source>, end: Cursor, ghost m: Cursor)
    requires eligible <= |rows| && CursorOk(start, rows, eligible)
    ensures CursorOk(end, rows, eligible) && AtMost(start, end)
    ensures end != start ==> sources == Ranges(rows, start, end)
    ensures CursorOk(m, rows, eligible) && BackedOff(rows, start, m, end) && (m == start <==> end == start)
    ensures m != start ==> AtMost(end, m)
    ensures Monotone(env.cost) ==> LargestFit(env, rows, eligible, start, m, budget)
  {
    sources := [];
    var index := start.index;
    while index < eligible && env.cost(sources + [WholeSource(rows, start, index)]) <= budget
      invariant start.index <= index <= eligible
      invariant sources == RangesTo(rows, start, index)
      invariant index != start.index ==> env.cost(sources) <= budget
    {
      RangesAddWhole(rows, start, index);
      sources := sources + [WholeSource(rows, start, index)];
      index := index + 1;
    }
    WholeEnd(env, rows, start, index);
    if index < eligible {
      sources, end, m := TakeCut(env, sources, rows, start, index, budget);
      if Monotone(env.cost) {
        NothingBeyond(env, rows, eligible, start, index, m, budget);
      }
    } else {
      end, m := EndBefore(start, index), EndBefore(start, index);
    }
  }

  lemma {:induction false} WholeEnd(env: Oracles, rows: seq<Row>, start: Cursor, i: int)
    requires CursorOk(start, rows, |rows|) && start.index <= i <= |rows|
    ensures CursorOk(EndBefore(start, i), rows, |rows|) && AtMost(start, EndBefore(start, i))
    ensures BackedOff(rows, start, EndBefore(start, i), EndBefore(start, i))
    ensures i != start.index ==> Ranges(rows, start, EndBefore(start, i)) == RangesTo(rows, start, i)
  {
    if i != start.index {
      RangesAreWhole(rows, start, i);
    }
  }
}
