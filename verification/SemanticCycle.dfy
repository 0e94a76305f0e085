/** One cycle of the semantic cache, prepare then accept then persist, and what holds after any
    number of cycles interleaved with a growing history (demo/semantic_memory.py). */
module SemanticCycle {
  import opened Wrappers
  import opened Numbers
  import opened SemanticHistory
  import opened SemanticMemory
  import opened SemanticPlan

  // ---------------------------------------------------------------- prepare

  /** The cache a plan starts from when nothing usable is stored: begin at the newest correction. */
  function Fresh(rows: seq<Row>, correction: Correction): Cache
    requires GoodCorrection(correction, rows)
  {
    var start := Cursor(if correction.index > 0 then correction.index else 0, correction.start);
    Cache([], start, PrefixOf(rows, start), 0, start.index, start.offset, correction, false, Stats(0, 0, 0, false))
  }

  ghost function CacheFor(env: Oracles, disk: Disk, rows: seq<Row>, keepRecent: int): Cache
    requires Sane(env)
  {
    if disk.Stored? && Loadable(env, disk.cache, rows, keepRecent, true)
    then Refreshed(env, disk.cache, rows, keepRecent)
    else Fresh(rows, env.correction(rows))
  }

  /** The cache a plan commits once its answer is accepted, still without the new segment. */
  function Advanced(env: Oracles, cache: Cache, rows: seq<Row>, keepRecent: int, end: Cursor): Cache
    requires CursorOk(end, rows, |rows|)
  {
    Refreshed(env, cache.(cursor := end, prefix := PrefixOf(rows, end)), rows, keepRecent)
  }

  predicate ArgumentsOk(inputBudget: int, outputBudget: int, keepRecent: int) {
    1 <= inputBudget <= MAX_BUDGET && 1 <= outputBudget <= MAX_BUDGET && keepRecent >= 4
  }

  /** Nothing may be planned: no eligible message, or a correction among the recent ones. */
  predicate Blocked(env: Oracles, rows: seq<Row>, keepRecent: int) {
    Eligible(rows, keepRecent) == 0 || env.correction(rows).index >= Eligible(rows, keepRecent)
  }

  /** The newest keepRecent messages are never eligible, all others are; planning waits while none is, or while the
      newest correction is among the recent ones. */
  lemma {:induction false} RecentStays(env: Oracles, rows: seq<Row>, keepRecent: int)
    requires Sane(env) && keepRecent >= 0
    ensures Eligible(rows, keepRecent) + (if |rows| < keepRecent then |rows| else keepRecent) == |rows|
    ensures Blocked(env, rows, keepRecent) <==> |rows| <= keepRecent || env.correction(rows).index + keepRecent >= |rows|
  {
    assert GoodCorrection(env.correction(rows), rows);
  }

  ghost predicate PreparedAs(env: Oracles, disk: Disk, rows: seq<Row>, keepRecent: int, outputBudget: int, p: Plan)
    requires Sane(env)
  {
    var c := CacheFor(env, disk, rows, keepRecent);
    && PlanOk(env, p, rows, keepRecent)
    && p.baseline == disk && p.outputBudget == outputBudget && p.inputTokens == env.cost(p.sources)
    && p.start == c.cursor && p.next == Advanced(env, c, rows, keepRecent, p.end)
  }

  /** The planned range is the largest that fits, up to backing off to the start of a number. */
  ghost predicate WithinBudget(env: Oracles, rows: seq<Row>, eligible: nat, p: Plan, budget: int)
    requires eligible <= |rows| && CursorOk(p.start, rows, eligible)
  {
    && p.inputTokens <= budget
    && exists m :: LargestFit(env, rows, eligible, p.start, m, budget) && BackedOff(rows, p.start, m, p.end)
  }

  /** Sources of a plan: slices of stored messages from `start` on, none of the newest keepRecent. */
  ghost predicate QuotesFrom(sources: seq<Source>, rows: seq<Row>, start: Cursor, keepRecent: int) {
    forall k :: 0 <= k < |sources| ==> Quoted(sources[k], rows, start, keepRecent)
  }

  ghost predicate Quoted(x: Source, rows: seq<Row>, start: Cursor, keepRecent: int) {
    exists i :: QuotesRow(x, rows, i, start) && i + keepRecent < |rows|
  }

  predicate QuotesRow(x: Source, rows: seq<Row>, i: int, start: Cursor) {
    && 0 <= i < |rows| && start.index <= i && (i == start.index ==> start.offset <= x.start)
    && x.messageId == rows[i].id && x.role == rows[i].role
    && 0 <= x.start <= x.end <= |rows[i].content| && x.text == rows[i].content[x.start..x.end]
  }

  /** No source quotes a character before the correction's start. */
  ghost predicate NotBefore(sources: seq<Source>, rows: seq<Row>, c: Correction) {
    forall k, i :: 0 <= k < |sources| && 0 <= i < |rows| && sources[k].messageId == rows[i].id ==>
      i >= c.index && (i == c.index ==> sources[k].start >= c.start)
  }

  /** The plan begins a cache at the newest correction, everything before it skipped. */
  predicate BeginsAt(p: Plan, c: Correction) {
    && p.start.index == (if c.index > 0 then c.index else 0) && p.start.offset == c.start
    && p.next.segments == [] && p.next.evicted == 0 && p.next.boundary == c
    && p.next.skippedMessages == p.start.index && p.next.skippedChars == p.start.offset
  }

  /** The plan goes on where the stored cache ends, and keeps what it holds. */
  predicate Extends(p: Plan, cache: Cache) {
    && p.start == cache.cursor
    && p.next.segments == cache.segments && p.next.evicted == cache.evicted && p.next.boundary == cache.boundary
    && p.next.skippedMessages == cache.skippedMessages && p.next.skippedChars == cache.skippedChars
  }

  lemma {:induction false} SourceQuotes(rows: seq<Row>, start: Cursor, end: Cursor, i: int)
    requires Within(start, end, rows) && start.index <= i < SourceStop(end)
    ensures QuotesRow(SourceOf(rows, start, end, i), rows, i, start)
  {
  }

  lemma {:induction false} RangeQuotes(rows: seq<Row>, start: Cursor, end: Cursor, eligible: nat, keepRecent: int)
    requires keepRecent >= 0 && eligible == Eligible(rows, keepRecent)
    requires CursorOk(start, rows, eligible) && CursorOk(end, rows, eligible) && AtMost(start, end)
    ensures QuotesFrom(Ranges(rows, start, end), rows, start, keepRecent)
  {
    RangesAt(rows, start, end);
    var sources := Ranges(rows, start, end);
    forall k | 0 <= k < |sources| ensures Quoted(sources[k], rows, start, keepRecent) {
      var i := start.index + k;
      SourceQuotes(rows, start, end, i);
      assert sources[k] == SourceOf(rows, start, end, i) && QuotesRow(sources[k], rows, i, start);
      assert i < eligible;
    }
  }

  lemma {:induction false} NothingReplaced(sources: seq<Source>, rows: seq<Row>, start: Cursor, keepRecent: int, c: Correction)
    requires ValidHistory(rows) && QuotesFrom(sources, rows, start, keepRecent) && c.index >= -1 && (c.index < 0 ==> c.start == 0)
    requires start == Cursor(if c.index > 0 then c.index else 0, c.start)
    ensures NotBefore(sources, rows, c)
  {
    forall k, i | 0 <= k < |sources| && 0 <= i < |rows| && sources[k].messageId == rows[i].id
      ensures i >= c.index && (i == c.index ==> sources[k].start >= c.start)
    {
      assert Quoted(sources[k], rows, start, keepRecent);
      var m :| QuotesRow(sources[k], rows, m, start) && m + keepRecent < |rows|;
      assert rows[m].id == rows[i].id;
      assert m == i;
    }
  }

  /** Where a plan begins and what it quotes. */
  ghost predicate PlanTold(env: Oracles, disk: Disk, rows: seq<Row>, keepRecent: int, p: Plan) {
    && QuotesFrom(p.sources, rows, p.start, keepRecent)
    && if disk.Stored? && Loadable(env, disk.cache, rows, keepRecent, true) then Extends(p, disk.cache)
       else BeginsAt(p, env.correction(rows)) && NotBefore(p.sources, rows, env.correction(rows))
  }

  lemma {:induction false} PlanTells(env: Oracles, disk: Disk, rows: seq<Row>, keepRecent: int, outputBudget: int, p: Plan)
    requires Sane(env) && PreparedAs(env, disk, rows, keepRecent, outputBudget, p)
    ensures PlanTold(env, disk, rows, keepRecent, p)
  {
    RangeQuotes(rows, p.start, p.end, Eligible(rows, keepRecent), keepRecent);
    assert GoodCorrection(env.correction(rows), rows);
    if !(disk.Stored? && Loadable(env, disk.cache, rows, keepRecent, true)) {
      NothingReplaced(p.sources, rows, p.start, keepRecent, env.correction(rows));
    }
  }

  method Prepare(env: Oracles, disk: Disk, rows: seq<Row>, inputBudget: int, outputBudget: int, keepRecent: int)
      returns (r: Outcome)
    requires Sane(env)
    ensures r.Refused? <==> !(ArgumentsOk(inputBudget, outputBudget, keepRecent) && ValidHistory(rows))
    ensures r.Planned? ==> PreparedAs(env, disk, rows, keepRecent, outputBudget, r.plan) && !Blocked(env, rows, keepRecent)
    ensures r.Planned? ==> PlanTold(env, disk, rows, keepRecent, r.plan)
    ensures r.Planned? && Monotone(env.cost) ==>
              WithinBudget(env, rows, Eligible(rows, keepRecent), r.plan, inputBudget)
    ensures r.NoPlan? && Monotone(env.cost) ==>
              var eligible, start := Eligible(rows, keepRecent), CacheFor(env, disk, rows, keepRecent).cursor;
              Blocked(env, rows, keepRecent) || start.index >= eligible
              || LargestFit(env, rows, eligible, start, start, inputBudget)
  {
    var valid := CheckHistory(rows);
    if !ArgumentsOk(inputBudget, outputBudget, keepRecent) || !valid {
      return Refused;
    }
    var eligible := Eligible(rows, keepRecent);
    var cache := StartCache(env, disk, rows, keepRecent);
    if eligible == 0 || env.correction(rows).index >= eligible {
      return NoPlan;
    }
    var start := cache.cursor;
    if start.index >= eligible {
      return NoPlan;
    }
    var sources, end, m := PlanRange(env, rows, start, eligible, inputBudget);
    if end == start {
      return NoPlan;
    }
    var p := Plan(disk, Advanced(env, cache, rows, keepRecent, end), start, end, sources,
                  NumberBounds(rows, sources), env.cost(sources), outputBudget);
    PlanIsOk(env, cache, rows, keepRecent, p);
    PlanTells(env, disk, rows, keepRecent, outputBudget, p);
    if Monotone(env.cost) {
      CostToMonotone(env, rows, start, end, m);
    }
    return Planned(p);
  }

  /** A valid cache whose segments reach its cursor. */
  ghost predicate BaseCache(env: Oracles, c: Cache, rows: seq<Row>, keepRecent: int) {
    && Base(env, c, rows, Eligible(rows, keepRecent))
    && (c.segments == [] ==> c.evicted == 0 && Origin(c) == c.cursor)
    && (c.segments != [] ==> c.segments[|c.segments| - 1].end == c.cursor)
    && (Pending(env.correction(rows), c.cursor) ==> c.boundary == env.correction(rows))
  }

  /** The cache a plan extends: the stored one if it loads, else a fresh one. */
  method StartCache(env: Oracles, disk: Disk, rows: seq<Row>, keepRecent: int) returns (cache: Cache)
    requires Sane(env) && keepRecent >= 4
    ensures cache == CacheFor(env, disk, rows, keepRecent)
    ensures !Blocked(env, rows, keepRecent) ==> BaseCache(env, cache, rows, keepRecent)
  {
    var loaded := Load(env, disk, rows, keepRecent, true);
    assert GoodCorrection(env.correction(rows), rows);
    cache := if loaded.Some? then loaded.value else Fresh(rows, env.correction(rows));
    if !Blocked(env, rows, keepRecent) {
      StartIsBase(env, disk, rows, keepRecent);
    }
  }

  lemma {:induction false} PlanIsOk(env: Oracles, cache: Cache, rows: seq<Row>, keepRecent: int, p: Plan)
    requires keepRecent >= 4 && ValidHistory(rows)
    requires BaseCache(env, cache, rows, keepRecent)
    requires CursorOk(p.end, rows, Eligible(rows, keepRecent)) && Before(cache.cursor, p.end)
    requires p.start == cache.cursor && p.next == Advanced(env, cache, rows, keepRecent, p.end)
    requires p.sources == Ranges(rows, p.start, p.end) && p.bounds == NumberBounds(rows, p.sources)
    ensures PlanOk(env, p, rows, keepRecent)
  {
    AdvanceBase(env, cache, rows, keepRecent, p.end);
  }

  /** A loaded cache, or a fresh one, is a valid base whose segments reach its cursor. */
  lemma {:induction false} StartIsBase(env: Oracles, disk: Disk, rows: seq<Row>, keepRecent: int)
    requires Sane(env) && keepRecent >= 0 && !Blocked(env, rows, keepRecent)
    ensures BaseCache(env, CacheFor(env, disk, rows, keepRecent), rows, keepRecent)
  {
    assert GoodCorrection(env.correction(rows), rows);
    if disk.Stored? && Loadable(env, disk.cache, rows, keepRecent, true) {
      LoadedIsBase(env, disk, rows, keepRecent);
    }
  }

  lemma {:induction false} LoadedIsBase(env: Oracles, disk: Disk, rows: seq<Row>, keepRecent: int)
    requires Sane(env) && keepRecent >= 0 && !Blocked(env, rows, keepRecent)
    requires disk.Stored? && Loadable(env, disk.cache, rows, keepRecent, true)
    ensures BaseCache(env, CacheFor(env, disk, rows, keepRecent), rows, keepRecent)
  {
    var a, c := disk.cache, CacheFor(env, disk, rows, keepRecent);
    assert GoodCorrection(env.correction(rows), rows);
    forall i | 0 <= i < |c.segments| ensures SegmentOk(env, c, c.segments[i], rows, Eligible(rows, keepRecent)) {
      assert SegmentOk(env, a, a.segments[i], rows, Eligible(rows, keepRecent));
    }
  }

  lemma {:induction false} AdvanceBase(env: Oracles, cache: Cache, rows: seq<Row>, keepRecent: int, end: Cursor)
    requires Base(env, cache, rows, Eligible(rows, keepRecent))
    requires CursorOk(end, rows, Eligible(rows, keepRecent)) && AtMost(cache.cursor, end)
    ensures Base(env, Advanced(env, cache, rows, keepRecent, end), rows, Eligible(rows, keepRecent))
  {
    var next := Advanced(env, cache, rows, keepRecent, end);
    forall i | 0 <= i < |next.segments|
      ensures SegmentOk(env, next, next.segments[i], rows, Eligible(rows, keepRecent))
    {
      assert SegmentOk(env, cache, cache.segments[i], rows, Eligible(rows, keepRecent));
    }
  }

  // ---------------------------------------------------------------- accept

  /** The model's answer: its size, its tokens, and its items when it is JSON of the one allowed shape. */
  datatype Answer = Answer(bytes: nat, tokens: nat, drafts: Option<seq<Draft>>)

  datatype Accepted = Accepted(baseline: Disk, cache: Cache)

  predicate AnswerOk(env: Oracles, p: Plan, a: Answer) {
    && a.bytes <= MAX_CACHE_BYTES && a.tokens <= p.outputBudget
    && a.drafts.Some? && DraftsOk(env, a.drafts.value, p.sources, p.bounds)
  }

  function NewSegment(p: Plan, drafts: seq<Draft>): Segment {
    Segment(p.start, p.end, Unverified(drafts, p.sources))
  }

  /** The committed cache when the k oldest segments are evicted. */
  function Evicted(p: Plan, drafts: seq<Draft>, k: nat): Cache
    requires k <= |p.next.segments|
  {
    p.next.(segments := p.next.segments[k..] + [NewSegment(p, drafts)],
            evicted := p.next.evicted + k,
            stats := if k == 0 then p.next.stats else p.next.stats.(complete := false))
  }

  predicate FitsStore(env: Oracles, cache: Cache) {
    env.size(cache) <= MAX_CACHE_BYTES && |cache.segments| <= MAX_SEGMENTS
  }

  /** The cache holds the segments that were not evicted, in order, and last one segment over the planned range with
      every drafted item as it was drafted. */
  predicate Holds(c: Cache, p: Plan, drafts: seq<Draft>, k: nat)
    requires k <= |p.next.segments|
  {
    var n := |p.next.segments| - k;
    && |c.segments| == n + 1 && c.segments[..n] == p.next.segments[k..] && c.evicted == p.next.evicted + k
    && c.segments[n].start == p.start && c.segments[n].end == p.end && |c.segments[n].items| == |drafts|
    && (forall i :: 0 <= i < |drafts| ==> c.segments[n].items[i].draft == drafts[i])
    && c.cursor == p.next.cursor && c.prefix == p.next.prefix && c.boundary == p.next.boundary
    && c.skippedMessages == p.next.skippedMessages && c.skippedChars == p.next.skippedChars
  }

  /** Accept an answer exactly when it is valid and fits; evict as few of the oldest segments as needed. */
  method Accept(env: Oracles, p: Plan, a: Answer, ghost rows: seq<Row>, ghost keepRecent: int)
    returns (r: Option<Accepted>, ghost k: nat)
    ensures r.Some? ==> AnswerOk(env, p, a) && a.bytes <= 65_536 && a.tokens <= p.outputBudget
    ensures r.Some? ==> k <= |p.next.segments| && Holds(r.value.cache, p, a.drafts.value, k)
    ensures r.Some? && PlanOk(env, p, rows, keepRecent) ==>
              Loadable(env, r.value.cache, rows, keepRecent, true) && AllGrounded(r.value.cache, rows)
    ensures r.Some? ==> k <= |p.next.segments| && r.value == Accepted(p.baseline, Evicted(p, a.drafts.value, k))
                        && FitsStore(env, r.value.cache)
                        && forall j :: 0 <= j < k ==> !FitsStore(env, Evicted(p, a.drafts.value, j))
    ensures r.None? ==> !AnswerOk(env, p, a)
                        || forall j :: 0 <= j <= |p.next.segments| ==> !FitsStore(env, Evicted(p, a.drafts.value, j))
  {
    k := 0;
    if !AnswerOk(env, p, a) {
      return None, 0;
    }
    var cache := p.next.(segments := p.next.segments + [NewSegment(p, a.drafts.value)]);
    while env.size(cache) > MAX_CACHE_BYTES || |cache.segments| > MAX_SEGMENTS
      invariant k <= |p.next.segments| && cache == Evicted(p, a.drafts.value, k)
      invariant forall j :: 0 <= j < k ==> !FitsStore(env, Evicted(p, a.drafts.value, j))
      decreases |cache.segments|
    {
      if |cache.segments| <= 1 {
        return None, k;
      }
      assert p.next.segments[k + 1..] + [NewSegment(p, a.drafts.value)] == cache.segments[1..];
      cache := cache.(segments := cache.segments[1..], evicted := cache.evicted + 1,
                      stats := cache.stats.(complete := false));
      k := k + 1;
    }
    AcceptedHolds(p, a.drafts.value, k);
    if PlanOk(env, p, rows, keepRecent) {
      AcceptedGrounded(env, p, a, rows, keepRecent, k);
    }
    return Some(Accepted(p.baseline, cache)), k;
  }

  lemma {:induction false} AcceptedHolds(p: Plan, drafts: seq<Draft>, k: nat)
    requires k <= |p.next.segments|
    ensures Holds(Evicted(p, drafts, k), p, drafts, k)
  {
    var c, n := Evicted(p, drafts, k), |p.next.segments| - k;
    assert c.segments[..n] == p.next.segments[k..];
  }

  lemma {:induction false} AcceptedGrounded(env: Oracles, p: Plan, a: Answer, rows: seq<Row>, keepRecent: int, k: nat)
    requires PlanOk(env, p, rows, keepRecent) && AnswerOk(env, p, a) && k <= |p.next.segments|
    requires FitsStore(env, Evicted(p, a.drafts.value, k))
    ensures var c := Evicted(p, a.drafts.value, k); Loadable(env, c, rows, keepRecent, true) && AllGrounded(c, rows)
  {
    AcceptedLoads(env, p, a, rows, keepRecent, k);
    LoadedGrounded(env, Evicted(p, a.drafts.value, k), rows, Eligible(rows, keepRecent));
  }

  lemma {:induction false} NewSegmentOk(env: Oracles, p: Plan, a: Answer, rows: seq<Row>, keepRecent: int, k: nat)
    requires PlanOk(env, p, rows, keepRecent) && AnswerOk(env, p, a) && k <= |p.next.segments|
    ensures SegmentOk(env, Evicted(p, a.drafts.value, k), NewSegment(p, a.drafts.value), rows, Eligible(rows, keepRecent))
  {
    var items := Unverified(a.drafts.value, p.sources);
    forall i | 0 <= i < |items| ensures DraftOk(env, items[i].draft, p.sources, p.bounds) {
      assert a.drafts.value[i] in a.drafts.value;
    }
  }

  lemma {:induction false} EvictedTiles(p: Plan, drafts: seq<Draft>, k: nat)
    requires k <= |p.next.segments| && p.next.evicted >= 0
    requires Tiled(p.next.segments, Origin(p.next), p.next.evicted) && ReachesStart(p)
    ensures Tiled(Evicted(p, drafts, k).segments, Origin(p.next), Evicted(p, drafts, k).evicted)
  {
    var segments, n := Evicted(p, drafts, k).segments, |p.next.segments| - k;
    forall i | 0 < i < |segments| ensures segments[i].start == segments[i - 1].end {
      assert segments[i - 1] == p.next.segments[k + i - 1];
      if i < n {
        assert segments[i] == p.next.segments[k + i];
      }
    }
  }

  /** An accepted cache passes every check of a plan-mode load over the history it was planned on. */
  lemma {:induction false} AcceptedLoads(env: Oracles, p: Plan, a: Answer, rows: seq<Row>, keepRecent: int, k: nat)
    requires PlanOk(env, p, rows, keepRecent) && AnswerOk(env, p, a) && k <= |p.next.segments|
    requires FitsStore(env, Evicted(p, a.drafts.value, k))
    ensures Loadable(env, Evicted(p, a.drafts.value, k), rows, keepRecent, true)
  {
    var c, eligible := Evicted(p, a.drafts.value, k), Eligible(rows, keepRecent);
    NewSegmentOk(env, p, a, rows, keepRecent, k);
    EvictedTiles(p, a.drafts.value, k);
    forall i | 0 <= i < |c.segments| ensures SegmentOk(env, c, c.segments[i], rows, eligible) {
      if i < |p.next.segments| - k {
        assert c.segments[i] == p.next.segments[k + i];
        assert SegmentOk(env, p.next, p.next.segments[k + i], rows, eligible);
      }
    }
  }

  // ---------------------------------------------------------------- persist

  /** The cache file of one task. */
  class CacheFile {
    var disk: Disk

    constructor ()
      ensures disk == Absent
    {
      disk := Absent;
    }

    /** Commit only when the file is still the one the plan was made against. */
    method Persist(a: Accepted) returns (ok: bool)
      modifies this
      ensures ok <==> old(disk) == a.baseline
      ensures disk == Persisted(old(disk), a)
    {
      ok := disk == a.baseline;
      if ok {
        disk := Stored(a.cache);
      }
    }
  }

  function Persisted(disk: Disk, a: Accepted): Disk {
    if disk == a.baseline then Stored(a.cache) else disk
  }

  // ---------------------------------------------------------------- any number of cycles

  /** The stored history, the cache file, and all plans and accepted answers still in flight. */
  datatype World = World(rows: seq<Row>, disk: Disk, plans: set<Plan>, accepted: set<Accepted>)

  ghost predicate Grows(env: Oracles, w: World, w': World) {
    && w.rows <= w'.rows && ValidHistory(w'.rows)
    && env.correction(w'.rows) == env.correction(w.rows)
    && w' == w.(rows := w'.rows)
  }

  ghost predicate Plans(env: Oracles, keepRecent: int, w: World, w': World, p: Plan) {
    PlanOk(env, p, w.rows, keepRecent) && w' == w.(plans := w.plans + {p})
  }

  ghost predicate Accepts(env: Oracles, w: World, w': World, p: Plan, a: Answer, k: nat) {
    && p in w.plans && AnswerOk(env, p, a) && k <= |p.next.segments|
    && FitsStore(env, Evicted(p, a.drafts.value, k))
    && w' == w.(accepted := w.accepted + {Accepted(p.baseline, Evicted(p, a.drafts.value, k))})
  }

  ghost predicate Persists(w: World, w': World, a: Accepted) {
    a in w.accepted && w' == w.(disk := Persisted(w.disk, a))
  }

  /** One step: the history grows without a newer correction, or a plan is made, accepted or written. */
  ghost predicate Next(env: Oracles, keepRecent: int, w: World, w': World) {
    || Grows(env, w, w')
    || (exists p :: Plans(env, keepRecent, w, w', p))
    || (exists p, a, k :: Accepts(env, w, w', p, a, k))
    || (exists a :: Persists(w, w', a))
  }

  ghost predicate CycleInv(env: Oracles, keepRecent: int, w: World) {
    && keepRecent >= 4 && ValidHistory(w.rows)
    && (w.disk.Stored? ==> Loadable(env, w.disk.cache, w.rows, keepRecent, true))
    && (forall p :: p in w.plans ==> PlanOk(env, p, w.rows, keepRecent))
    && (forall a :: a in w.accepted ==> Loadable(env, a.cache, w.rows, keepRecent, true))
  }

  /** A task starts with no cache that can be read and nothing in flight. */
  lemma {:induction false} FreshTask(env: Oracles, keepRecent: int, rows: seq<Row>, disk: Disk)
    requires keepRecent >= 4 && ValidHistory(rows) && !disk.Stored?
    ensures CycleInv(env, keepRecent, World(rows, disk, {}, {}))
  {
  }

  lemma {:induction false} PlanStable(env: Oracles, p: Plan, rows: seq<Row>, more: seq<Row>, keepRecent: int)
    requires PlanOk(env, p, rows, keepRecent)
    requires ValidHistory(more) && rows <= more && env.correction(more) == env.correction(rows)
    ensures PlanOk(env, p, more, keepRecent)
  {
    RangesStable(rows, more, p.start, p.end);
    RangesQuoteRows(rows, p.start, p.end);
    NumberBoundsStable(rows, more, p.sources);
    BaseStable(env, p.next, rows, Eligible(rows, keepRecent), more, Eligible(more, keepRecent));
  }

  lemma {:induction false} CycleStep(env: Oracles, keepRecent: int, w: World, w': World)
    requires CycleInv(env, keepRecent, w) && Next(env, keepRecent, w, w')
    ensures CycleInv(env, keepRecent, w')
  {
    if Grows(env, w, w') {
      forall c: Cache | Loadable(env, c, w.rows, keepRecent, true)
        ensures Loadable(env, c, w'.rows, keepRecent, true)
      {
        ReloadAfterGrowth(env, c, w.rows, w'.rows, keepRecent, true);
      }
      forall p | p in w'.plans ensures PlanOk(env, p, w'.rows, keepRecent) {
        PlanStable(env, p, w.rows, w'.rows, keepRecent);
      }
    } else if p, a, k :| Accepts(env, w, w', p, a, k) {
      AcceptedLoads(env, p, a, w.rows, keepRecent, k);
    }
  }

  ghost predicate StepAt(env: Oracles, keepRecent: int, ws: seq<World>, i: nat) {
    i + 1 < |ws| ==> Next(env, keepRecent, ws[i], ws[i + 1])
  }

  ghost predicate Run(env: Oracles, keepRecent: int, ws: seq<World>) {
    ws != [] && forall i: nat :: StepAt(env, keepRecent, ws, i)
  }

  lemma {:induction false} RunFront(env: Oracles, keepRecent: int, ws: seq<World>)
    requires Run(env, keepRecent, ws) && |ws| > 1
    ensures Run(env, keepRecent, ws[..|ws| - 1]) && Next(env, keepRecent, ws[|ws| - 2], ws[|ws| - 1])
  {
    var front := ws[..|ws| - 1];
    forall i: nat ensures StepAt(env, keepRecent, front, i) {
      assert StepAt(env, keepRecent, ws, i);
    }
    assert StepAt(env, keepRecent, ws, |ws| - 2);
  }

  /** Any run of prepare, accept and persist, with any number of plans in flight and the history growing
      in between: whatever is on disk is re-accepted by a plan-mode load, whole and unchanged. */
  lemma {:induction false} StoredCacheAlwaysReloads(env: Oracles, keepRecent: int, ws: seq<World>)
    requires Run(env, keepRecent, ws) && CycleInv(env, keepRecent, ws[0])
    ensures CycleInv(env, keepRecent, ws[|ws| - 1])
    decreases |ws|
  {
    if |ws| > 1 {
      RunFront(env, keepRecent, ws);
      StoredCacheAlwaysReloads(env, keepRecent, ws[..|ws| - 1]);
      CycleStep(env, keepRecent, ws[|ws| - 2], ws[|ws| - 1]);
    }
  }

  /** So it is from the start of any task: a stored cache always loads again, and all its items are grounded. */
  lemma {:induction false} TaskCacheReloads(env: Oracles, keepRecent: int, ws: seq<World>)
    requires Run(env, keepRecent, ws) && keepRecent >= 4 && ValidHistory(ws[0].rows)
    requires !ws[0].disk.Stored? && ws[0].plans == {} && ws[0].accepted == {}
    ensures var w := ws[|ws| - 1];
            && ValidHistory(w.rows)
            && (w.disk.Stored? ==> Loadable(env, w.disk.cache, w.rows, keepRecent, true) && AllGrounded(w.disk.cache, w.rows))
  {
    FreshTask(env, keepRecent, ws[0].rows, ws[0].disk);
    assert ws[0] == World(ws[0].rows, ws[0].disk, {}, {});
    StoredCacheAlwaysReloads(env, keepRecent, ws);
    var w := ws[|ws| - 1];
    if w.disk.Stored? {
      LoadedGrounded(env, w.disk.cache, w.rows, Eligible(w.rows, keepRecent));
    }
  }

  // ---------------------------------------------------------------- coverage

  /** What the segments i, i + 1, ... quote of one message, in order. */
  ghost function SegmentText(cache: Cache, rows: seq<Row>, i: nat, id: string): string
    requires i <= |cache.segments|
    requires forall s :: s in cache.segments ==> Within(s.start, s.end, rows)
    decreases |cache.segments| - i
  {
    if i == |cache.segments| then ""
    else TextOf(Ranges(rows, cache.segments[i].start, cache.segments[i].end), id)
         + SegmentText(cache, rows, i + 1, id)
  }

  ghost predicate TiledUpTo(cache: Cache, rows: seq<Row>) {
    && ValidHistory(rows)
    && (forall s :: s in cache.segments ==> Within(s.start, s.end, rows))
    && (forall i :: 0 < i < |cache.segments| ==> cache.segments[i].start == cache.segments[i - 1].end)
    && cache.segments != [] && cache.segments[|cache.segments| - 1].end == cache.cursor
  }

  /** The retained segments together quote, of every message, exactly the part from the first retained
      position to the cursor: no gap, no overlap. */
  lemma {:induction false} SegmentsTile(cache: Cache, rows: seq<Row>, i: nat, m: nat)
    requires TiledUpTo(cache, rows) && i < |cache.segments| && m < |rows|
    ensures Within(cache.segments[i].start, cache.cursor, rows)
    ensures SegmentText(cache, rows, i, rows[m].id) == Piece(rows, cache.segments[i].start, cache.cursor, m)
    decreases |cache.segments| - i
  {
    var s := cache.segments[i];
    assert s in cache.segments;
    RangeText(rows, s.start, s.end, m);
    if i + 1 < |cache.segments| {
      SegmentsTile(cache, rows, i + 1, m);
      PiecesJoin(rows, s.start, s.end, cache.cursor, m);
    } else {
      assert SegmentText(cache, rows, i + 1, rows[m].id) == "";
    }
  }

  lemma {:induction false} LoadableIsTiled(env: Oracles, cache: Cache, rows: seq<Row>, keepRecent: int)
    requires ValidHistory(rows) && Loadable(env, cache, rows, keepRecent, true)
    ensures TiledUpTo(cache, rows)
  {
    forall s | s in cache.segments ensures Within(s.start, s.end, rows) {
      var i :| 0 <= i < |cache.segments| && cache.segments[i] == s;
      assert SegmentOk(env, cache, cache.segments[i], rows, Eligible(rows, keepRecent));
    }
  }

  /** retained_coverage_complete means what it says: the retained sources of every eligible message
      concatenate to its full text. */
  lemma {:induction false} CompleteCoverage(env: Oracles, cache: Cache, rows: seq<Row>, keepRecent: int, m: nat)
    requires ValidHistory(rows) && Loadable(env, cache, rows, keepRecent, true)
    requires Refreshed(env, cache, rows, keepRecent).stats.complete
    requires m < Eligible(rows, keepRecent)
    ensures TiledUpTo(cache, rows)
    ensures SegmentText(cache, rows, 0, rows[m].id) == rows[m].content
    ensures Refreshed(env, cache, rows, keepRecent).stats.covered == Eligible(rows, keepRecent)
  {
    LoadableIsTiled(env, cache, rows, keepRecent);
    SegmentsTile(cache, rows, 0, m);
  }

  /** _chat_request (demo/chat_service.py) replaces a prefix of [history, current message] by the summary. */
  function Dropped(covered: int, promptLength: int): int {
    var most := if promptLength - 5 > 0 then promptLength - 5 else 0;
    if covered < most then covered else most
  }

  /** The dropped prefix contains only fully quoted messages; the newest four stored messages and the
      current one always stay. */
  lemma {:induction false} DropsOnlyCovered(env: Oracles, cache: Cache, rows: seq<Row>, m: nat)
    requires ValidHistory(rows) && Loadable(env, cache, rows, 4, true)
    requires Refreshed(env, cache, rows, 4).stats.complete
    requires m < Dropped(Refreshed(env, cache, rows, 4).stats.covered, |rows| + 1)
    ensures m < |rows| - 4
    ensures TiledUpTo(cache, rows) && SegmentText(cache, rows, 0, rows[m].id) == rows[m].content
  {
    CompleteCoverage(env, cache, rows, 4, m);
  }

  /** A complete summary replaces everything but the newest four messages. */
  lemma {:induction false} DropsAllButFour(env: Oracles, cache: Cache, rows: seq<Row>)
    requires Loadable(env, cache, rows, 4, true) && Refreshed(env, cache, rows, 4).stats.complete
    ensures Dropped(Refreshed(env, cache, rows, 4).stats.covered, |rows| + 1) == if |rows| > 4 then |rows| - 4 else 0
  {
    FiguresExactly(cache, rows, Eligible(rows, 4));
  }

  // ---------------------------------------------------------------- repeated planning ends

  /** Characters and message ends still before the planner. */
  ghost function Remaining(rows: seq<Row>, eligible: nat, c: Cursor): int
    requires eligible <= |rows| && CursorOk(c, rows, eligible)
    decreases eligible - c.index
  {
    if c.index == eligible then 0
    else |rows[c.index].content| - c.offset + 1 + Remaining(rows, eligible, Cursor(c.index + 1, 0))
  }

  lemma {:induction false} RemainingDrops(rows: seq<Row>, eligible: nat, a: Cursor, b: Cursor)
    requires eligible <= |rows| && CursorOk(a, rows, eligible) && CursorOk(b, rows, eligible) && AtMost(a, b)
    ensures 0 <= Remaining(rows, eligible, b) <= Remaining(rows, eligible, a)
    ensures a != b ==> Remaining(rows, eligible, b) < Remaining(rows, eligible, a)
    decreases eligible - a.index
  {
    if a.index < eligible {
      var next := Cursor(a.index + 1, 0);
      if a.index == b.index {
        RemainingDrops(rows, eligible, next, next);
      } else {
        RemainingDrops(rows, eligible, next, b);
      }
    }
  }

  /** Successive plans over one fixed history: each starts where the one before ended. */
  ghost predicate PlanChain(env: Oracles, rows: seq<Row>, keepRecent: int, plans: seq<Plan>) {
    && (forall i :: 0 <= i < |plans| ==> PlanOk(env, plans[i], rows, keepRecent))
    && (forall i :: 0 < i < |plans| ==> plans[i].start == plans[i - 1].end)
  }

  /** Planning a fixed history ends: there are at most as many successive plans as characters and messages. */
  lemma {:induction false} PlanningTerminates(env: Oracles, rows: seq<Row>, keepRecent: int, plans: seq<Plan>)
    requires PlanChain(env, rows, keepRecent, plans) && plans != []
    ensures |plans| + Remaining(rows, Eligible(rows, keepRecent), plans[|plans| - 1].end)
            <= Remaining(rows, Eligible(rows, keepRecent), plans[0].start)
    decreases |plans|
  {
    var eligible, last := Eligible(rows, keepRecent), plans[|plans| - 1];
    RemainingDrops(rows, eligible, last.start, last.end);
    if |plans| > 1 {
      PlanningTerminates(env, rows, keepRecent, plans[..|plans| - 1]);
    }
  }
}
