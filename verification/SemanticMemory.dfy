/** The semantic summary cache: planning one bounded request over raw history, validating the
    model's answer against it, and re-checking the stored cache on every load
    (demo/semantic_memory.py). */
module SemanticMemory {
  import opened Wrappers
  import opened Numbers
  import opened SemanticHistory

  const MAX_CACHE_BYTES: nat := 65_536
  const MAX_SEGMENTS: nat := 128
  const MAX_ITEMS: nat := 16
  const MAX_BUDGET: int := 2_000_000

  datatype Kind = Goal | Decision | Constraint | Unresolved | Result
  datatype Trust = UserStatedUnverified | AssistantUnverified

  datatype Ref = Ref(messageId: string, start: int, end: int, quote: string)
  datatype Draft = Draft(text: string, kind: Kind, evidence: seq<Ref>)
  datatype Item = Item(draft: Draft, verified: bool, trust: Trust)

  datatype Segment = Segment(start: Cursor, end: Cursor, items: seq<Item>)

  /** (index, start, end) of the newest correction or changed field; index -1 when there is none. */
  datatype Correction = Correction(index: int, start: int, end: int)

  datatype Stats = Stats(eligible: int, covered: int, remaining: int, complete: bool)

  datatype Cache = Cache(segments: seq<Segment>, cursor: Cursor, prefix: Prefix, evicted: int,
                         skippedMessages: int, skippedChars: int, boundary: Correction,
                         pending: bool, stats: Stats)

  /** The cache file: missing, some bytes no cache can be read from, or a cache. */
  datatype Disk = Absent | Garbage(bytes: nat) | Stored(cache: Cache)

  /** What this model does not compute itself: token cost of a request, size of a stored cache,
      the correction scan, the denied-text pattern and the blank-text test. */
  datatype Oracles = Oracles(cost: seq<Source> -> nat, size: Cache -> nat,
                             correction: seq<Row> -> Correction,
                             denied: string -> bool, blank: string -> bool)

  predicate GoodCorrection(c: Correction, rows: seq<Row>) {
    c == Correction(-1, 0, 0) || (0 <= c.index < |rows| && 0 <= c.start < c.end <= |rows[c.index].content|)
  }

  ghost predicate Sane(env: Oracles) {
    forall rows :: GoodCorrection(env.correction(rows), rows)
  }

  /** More sources, or a longer last source, never cost less. */
  ghost predicate Monotone(cost: seq<Source> -> nat) {
    && (forall s: seq<Source>, x: Source :: cost(s) <= cost(s + [x]))
    && (forall s: seq<Source>, x: Source, y: Source :: Shorter(x, y) ==> cost(s + [x]) <= cost(s + [y]))
  }

  function Eligible(rows: seq<Row>, keepRecent: int): nat {
    if |rows| - keepRecent > 0 && keepRecent >= 0 then |rows| - keepRecent else 0
  }

  // ---------------------------------------------------------------- items and evidence

  /** Python's s[a:b] for non-negative bounds. */
  function Slice(s: string, a: int, b: int): string
    requires 0 <= a <= b
  {
    s[(if a < |s| then a else |s|)..(if b < |s| then b else |s|)]
  }

  function BoundsOf(bounds: map<string, seq<Span>>, id: string): seq<Span> {
    if id in bounds then bounds[id] else []
  }

  /** A cited range contains a number of the message completely or does not touch it. */
  predicate WholeOrApart(b: Span, ref: Ref) {
    b.end <= ref.start || ref.end <= b.start || b.start >= b.end
    || (ref.start <= b.start && b.end <= ref.end)
  }

  predicate RefOk(env: Oracles, ref: Ref, sources: seq<Source>, bounds: map<string, seq<Span>>) {
    match Lookup(sources, ref.messageId)
    case None => false
    case Some(s) =>
      && s.start <= ref.start < ref.end <= s.end
      && |ref.quote| <= 2000
      && Slice(s.text, ref.start - s.start, ref.end - s.start) == ref.quote
      && !env.denied(ref.quote)
      && (forall b | b in BoundsOf(bounds, ref.messageId) :: WholeOrApart(b, ref))
  }

  function Quotes(evidence: seq<Ref>): seq<string> {
    seq(|evidence|, i requires 0 <= i < |evidence| => evidence[i].quote)
  }

  /** findall: the texts of all numbers the scan finds. */
  function Found(s: string): set<string> {
    set i | 0 <= i < |Runs(s, 0)| && Runs(s, 0)[i].start <= Runs(s, 0)[i].end <= |s|
      :: s[Runs(s, 0)[i].start..Runs(s, 0)[i].end]
  }

  predicate DraftOk(env: Oracles, draft: Draft, sources: seq<Source>, bounds: map<string, seq<Span>>) {
    && !env.blank(draft.text) && |draft.text| <= 1200
    && !env.denied(draft.text)
    && 1 <= |draft.evidence| <= 8
    && (forall r | r in draft.evidence :: RefOk(env, r, sources, bounds))
    && Found(draft.text) <= Found(Joined(Quotes(draft.evidence)))
  }

  predicate DraftsOk(env: Oracles, drafts: seq<Draft>, sources: seq<Source>, bounds: map<string, seq<Span>>) {
    |drafts| <= MAX_ITEMS && forall d | d in drafts :: DraftOk(env, d, sources, bounds)
  }

  function TrustOf(evidence: seq<Ref>, sources: seq<Source>): Trust {
    if exists r | r in evidence :: Lookup(sources, r.messageId).Some? && Lookup(sources, r.messageId).value.role.Assistant?
    then AssistantUnverified else UserStatedUnverified
  }

  /** What accept stores for validated drafts: unverified, with the trust of the quoted roles. */
  function Unverified(drafts: seq<Draft>, sources: seq<Source>): seq<Item> {
    seq(|drafts|, i requires 0 <= i < |drafts| => Item(drafts[i], false, TrustOf(drafts[i].evidence, sources)))
  }

  predicate CachedOk(env: Oracles, items: seq<Item>, sources: seq<Source>, bounds: map<string, seq<Span>>) {
    && |items| <= MAX_ITEMS
    && (forall i | 0 <= i < |items| ::
          && DraftOk(env, items[i].draft, sources, bounds)
          && !items[i].verified
          && items[i].trust == TrustOf(items[i].draft.evidence, sources))
  }

  lemma {:induction false} FoundExact(s: string)
    ensures Found(s) == NumbersOf(s)
  {
    RunsExact(s, 0);
    forall n | n in NumbersOf(s) ensures n in Found(s) {
      var a: nat, b: nat :| a <= |s| && b <= |s| && IsRun(s, a, b) && n == s[a..b];
      assert Span(a, b) in Runs(s, 0);
      var i :| 0 <= i < |Runs(s, 0)| && Runs(s, 0)[i] == Span(a, b);
    }
    forall n | n in Found(s) ensures n in NumbersOf(s) {
      var i :| 0 <= i < |Runs(s, 0)| && Runs(s, 0)[i].start <= Runs(s, 0)[i].end <= |s|
               && n == s[Runs(s, 0)[i].start..Runs(s, 0)[i].end];
      assert Runs(s, 0)[i] in Runs(s, 0);
    }
  }

  /** A quote of message m that is exactly the cited text and cuts no number of the message. */
  ghost predicate QuotesWhole(ref: Ref, row: Row) {
    && ref.messageId == row.id
    && 0 <= ref.start < ref.end <= |row.content|
    && row.content[ref.start..ref.end] == ref.quote
    && (forall a: nat, b: nat :: IsRun(row.content, a, b) && a < ref.end && ref.start < b ==> ref.start <= a && b <= ref.end)
  }

  /** The source a reference resolves to is one message of the range. */
  lemma {:induction false} RefSource(id: string, rows: seq<Row>, start: Cursor, end: Cursor) returns (m: int)
    requires Within(start, end, rows) && Lookup(Ranges(rows, start, end), id).Some?
    ensures start.index <= m < SourceStop(end) && rows[m].id == id
    ensures Lookup(Ranges(rows, start, end), id).value == SourceOf(rows, start, end, m)
  {
    var sources := Ranges(rows, start, end);
    LookupMember(sources, id);
    var k :| 0 <= k < |sources| && sources[k] == Lookup(sources, id).value;
    m := start.index + k;
    assert sources[k] == SourceOf(rows, start, end, m);
  }

  lemma {:induction false} SubSlice(s: string, a: int, b: int, c: int, d: int)
    requires 0 <= a <= c <= d <= b <= |s|
    ensures s[a..b][c - a..d - a] == s[c..d]
  {
    var t := s[a..b];
    assert forall k :: c - a <= k < d - a ==> t[k] == s[a + k];
    assert t[c - a..d - a] == s[c..d];
  }

  lemma {:induction false} RefGrounded(env: Oracles, ref: Ref, rows: seq<Row>, start: Cursor, end: Cursor)
    requires ValidHistory(rows) && Within(start, end, rows)
    requires RefOk(env, ref, Ranges(rows, start, end), NumberBounds(rows, Ranges(rows, start, end)))
    ensures exists m :: 0 <= m < |rows| && QuotesWhole(ref, rows[m])
  {
    var sources := Ranges(rows, start, end);
    var m := RefSource(ref.messageId, rows, start, end);
    var s, content := SourceOf(rows, start, end, m), rows[m].content;
    SubSlice(content, s.start, s.end, ref.start, ref.end);
    NumberBoundsAt(rows, sources, m);
    BoundsProtect(content, s.start, s.end, ref);
    assert QuotesWhole(ref, rows[m]);
  }

  lemma {:induction false} BoundsProtect(content: string, lo: int, hi: int, ref: Ref)
    requires lo <= ref.start < ref.end <= hi
    requires forall b :: b in Touching(Runs(content, 0), lo, hi) ==> WholeOrApart(b, ref)
    ensures forall a: nat, b: nat :: IsRun(content, a, b) && a < ref.end && ref.start < b ==> ref.start <= a && b <= ref.end
  {
    var runs := Runs(content, 0);
    RunsExact(content, 0);
    assert forall i :: 0 <= i < |runs| ==> runs[i] in runs;
    forall a: nat, b: nat | IsRun(content, a, b) && a < ref.end && ref.start < b
      ensures ref.start <= a && b <= ref.end
    {
      TouchingAll(runs, lo, hi, Span(a, b));
    }
  }

  /** Some reference cites a message of the assistant. */
  ghost predicate CitesAssistant(evidence: seq<Ref>, rows: seq<Row>) {
    exists i, m :: 0 <= i < |evidence| && 0 <= m < |rows| && evidence[i].messageId == rows[m].id && rows[m].role.Assistant?
  }

  predicate Small(draft: Draft) {
    |draft.text| <= 1200 && 1 <= |draft.evidence| <= 8 && forall i :: 0 <= i < |draft.evidence| ==> |draft.evidence[i].quote| <= 2000
  }

  /** What an item of a summary is worth: few and short quotes of the original text, numbers of cited messages,
      trust no higher than the cited roles give, and never verified. */
  ghost predicate Grounded(item: Item, rows: seq<Row>) {
    && !item.verified && Small(item.draft)
    && (forall i :: 0 <= i < |item.draft.evidence| ==>
          exists m :: 0 <= m < |rows| && QuotesWhole(item.draft.evidence[i], rows[m]))
    && (forall n :: n in NumbersOf(item.draft.text) ==>
          exists i, m :: 0 <= i < |item.draft.evidence| && 0 <= m < |rows|
                         && QuotesWhole(item.draft.evidence[i], rows[m]) && n in NumbersOf(rows[m].content))
    && (item.trust == AssistantUnverified <==> CitesAssistant(item.draft.evidence, rows))
  }

  /** Evidence: every quote of an accepted item is the cited original text, every number in the item is a whole
      number of a message it cites, even where the planned slice cut a number, and the item counts as the
      assistant's exactly if it cites the assistant. */
  lemma {:induction false} ItemGrounded(env: Oracles, item: Item, rows: seq<Row>, start: Cursor, end: Cursor)
    requires ValidHistory(rows) && Within(start, end, rows)
    requires CachedOk(env, [item], Ranges(rows, start, end), NumberBounds(rows, Ranges(rows, start, end)))
    ensures Grounded(item, rows)
  {
    assert [item][0] == item;
    DraftSmall(env, item.draft, Ranges(rows, start, end), NumberBounds(rows, Ranges(rows, start, end)));
    QuotesGrounded(env, item, rows, start, end);
    TrustTold(env, item, rows, start, end);
  }

  lemma {:induction false} DraftSmall(env: Oracles, draft: Draft, sources: seq<Source>, bounds: map<string, seq<Span>>)
    requires DraftOk(env, draft, sources, bounds)
    ensures Small(draft)
  {
    forall i | 0 <= i < |draft.evidence| ensures |draft.evidence[i].quote| <= 2000 {
      assert RefOk(env, draft.evidence[i], sources, bounds);
    }
  }

  lemma {:induction false} TrustTold(env: Oracles, item: Item, rows: seq<Row>, start: Cursor, end: Cursor)
    requires ValidHistory(rows) && Within(start, end, rows)
    requires DraftOk(env, item.draft, Ranges(rows, start, end), NumberBounds(rows, Ranges(rows, start, end)))
    requires item.trust == TrustOf(item.draft.evidence, Ranges(rows, start, end))
    ensures item.trust == AssistantUnverified <==> CitesAssistant(item.draft.evidence, rows)
  {
    var evidence, sources := item.draft.evidence, Ranges(rows, start, end);
    forall r, m | r in evidence && 0 <= m < |rows| && r.messageId == rows[m].id
      ensures Lookup(sources, r.messageId).Some? && Lookup(sources, r.messageId).value.role == rows[m].role
    {
      assert RefOk(env, r, sources, NumberBounds(rows, sources));
      var k := RefSource(r.messageId, rows, start, end);
      assert rows[k].id == rows[m].id;
    }
    if r :| r in evidence && Lookup(sources, r.messageId).Some? && Lookup(sources, r.messageId).value.role.Assistant? {
      var m := RefSource(r.messageId, rows, start, end);
      var i :| 0 <= i < |evidence| && evidence[i] == r;
      assert evidence[i].messageId == rows[m].id && rows[m].role.Assistant?;
    }
    if i, m :| 0 <= i < |evidence| && 0 <= m < |rows| && evidence[i].messageId == rows[m].id && rows[m].role.Assistant? {
      assert evidence[i] in evidence;
    }
  }

  lemma {:induction false} QuotesGrounded(env: Oracles, item: Item, rows: seq<Row>, start: Cursor, end: Cursor)
    requires ValidHistory(rows) && Within(start, end, rows)
    requires DraftOk(env, item.draft, Ranges(rows, start, end), NumberBounds(rows, Ranges(rows, start, end)))
    ensures forall i :: 0 <= i < |item.draft.evidence| ==>
              exists m :: 0 <= m < |rows| && QuotesWhole(item.draft.evidence[i], rows[m])
    ensures forall n :: n in NumbersOf(item.draft.text) ==>
              exists i, m :: 0 <= i < |item.draft.evidence| && 0 <= m < |rows|
                             && QuotesWhole(item.draft.evidence[i], rows[m]) && n in NumbersOf(rows[m].content)
  {
    var evidence := item.draft.evidence;
    forall i | 0 <= i < |evidence|
      ensures exists m :: 0 <= m < |rows| && QuotesWhole(evidence[i], rows[m])
    {
      RefGrounded(env, evidence[i], rows, start, end);
    }
    forall n | n in NumbersOf(item.draft.text)
      ensures exists i, m :: 0 <= i < |evidence| && 0 <= m < |rows|
                             && QuotesWhole(evidence[i], rows[m]) && n in NumbersOf(rows[m].content)
    {
      FoundExact(item.draft.text);
      FoundExact(Joined(Quotes(evidence)));
      JoinedNumbers(Quotes(evidence), n);
      var i :| 0 <= i < |evidence| && n in NumbersOf(Quotes(evidence)[i]);
      var m :| 0 <= m < |rows| && QuotesWhole(evidence[i], rows[m]);
      NumberOfQuote(evidence[i], rows[m], n);
    }
  }

  lemma {:induction false} NumberOfQuote(ref: Ref, row: Row, n: string)
    requires QuotesWhole(ref, row) && n in NumbersOf(ref.quote)
    ensures n in NumbersOf(row.content)
  {
    var a: nat, b: nat :| a <= |ref.quote| && b <= |ref.quote| && IsRun(ref.quote, a, b) && n == ref.quote[a..b];
    SliceNumberIsWhole(row.content, ref.start, ref.end, a, b);
  }

  // ---------------------------------------------------------------- load

  function StatsOf(cache: Cache, eligible: int): Stats {
    var whole := cache.cursor.index - cache.skippedMessages;
    var covered := if cache.skippedChars != 0 && whole != 0 then whole - 1 else whole;
    Stats(eligible, covered, if eligible > cache.cursor.index then eligible - cache.cursor.index else 0,
          cache.cursor == Cursor(eligible, 0) && cache.evicted == 0 && cache.skippedMessages == 0 && cache.skippedChars == 0)
  }

  function Origin(cache: Cache): Cursor {
    Cursor(cache.skippedMessages, cache.skippedChars)
  }

  /** The correction lies behind the processed range. */
  predicate Pending(c: Correction, cursor: Cursor) {
    Before(cursor, Cursor(c.index, c.end))
  }

  predicate SegmentOk(env: Oracles, cache: Cache, seg: Segment, rows: seq<Row>, eligible: nat)
    requires eligible <= |rows|
  {
    && CursorOk(seg.start, rows, eligible) && CursorOk(seg.end, rows, eligible)
    && AtMost(Origin(cache), seg.start) && Before(seg.start, seg.end) && AtMost(seg.end, cache.cursor)
    && CachedOk(env, seg.items, Ranges(rows, seg.start, seg.end),
                NumberBounds(rows, Ranges(rows, seg.start, seg.end)))
  }

  /** Segments follow each other without gap or overlap, from the origin unless old ones were evicted. */
  ghost predicate Tiled(segments: seq<Segment>, origin: Cursor, evicted: int) {
    && (forall i :: 0 < i < |segments| ==> segments[i].start == segments[i - 1].end)
    && (segments != [] && evicted == 0 ==> segments[0].start == origin)
  }

  ghost predicate Base(env: Oracles, cache: Cache, rows: seq<Row>, eligible: nat)
    requires eligible <= |rows|
  {
    && |cache.segments| <= MAX_SEGMENTS
    && CursorOk(cache.cursor, rows, eligible)
    && PrefixOf(rows, cache.cursor) == cache.prefix
    && cache.skippedMessages >= 0 && cache.skippedChars >= 0 && cache.evicted >= 0
    && CursorOk(Origin(cache), rows, eligible) && AtMost(Origin(cache), cache.cursor)
    && (forall i :: 0 <= i < |cache.segments| ==> SegmentOk(env, cache, cache.segments[i], rows, eligible))
    && Tiled(cache.segments, Origin(cache), cache.evicted)
  }

  /** Everything _load re-checks. */
  ghost predicate Loadable(env: Oracles, cache: Cache, rows: seq<Row>, keepRecent: int, forPlan: bool) {
    var eligible := Eligible(rows, keepRecent);
    && keepRecent >= 0
    && env.size(cache) <= MAX_CACHE_BYTES
    && Base(env, cache, rows, eligible)
    && (Pending(env.correction(rows), cache.cursor) ==> forPlan && cache.boundary == env.correction(rows))
    && cache.segments != [] && cache.segments[|cache.segments| - 1].end == cache.cursor
  }

  function Refreshed(env: Oracles, cache: Cache, rows: seq<Row>, keepRecent: int): Cache {
    cache.(pending := Pending(env.correction(rows), cache.cursor), stats := StatsOf(cache, Eligible(rows, keepRecent)))
  }

  /** The loop of _load over the stored segments: each one valid, each starting where the one before ended. */
  method SegmentsOk(env: Oracles, cache: Cache, rows: seq<Row>, eligible: nat) returns (ok: bool)
    requires eligible <= |rows|
    requires CursorOk(cache.cursor, rows, eligible) && CursorOk(Origin(cache), rows, eligible)
    ensures ok <==> (forall i :: 0 <= i < |cache.segments| ==> SegmentOk(env, cache, cache.segments[i], rows, eligible))
                    && Tiled(cache.segments, Origin(cache), cache.evicted)
  {
    var previous: Option<Cursor> := None;
    for i := 0 to |cache.segments|
      invariant previous == if i == 0 then None else Some(cache.segments[i - 1].end)
      invariant forall j :: 0 <= j < i ==> SegmentOk(env, cache, cache.segments[j], rows, eligible)
      invariant forall j :: 0 < j < i ==> cache.segments[j].start == cache.segments[j - 1].end
      invariant i > 0 && cache.evicted == 0 ==> cache.segments[0].start == Origin(cache)
    {
      var seg := cache.segments[i];
      if previous.Some? && seg.start != previous.value {
        return false;
      }
      if previous.None? && cache.evicted == 0 && seg.start != Origin(cache) {
        return false;
      }
      if !SegmentOk(env, cache, seg, rows, eligible) {
        return false;
      }
      previous := Some(seg.end);
    }
    return true;
  }

  /** _load: the stored cache with refreshed figures exactly when every check passes. */
  method Load(env: Oracles, disk: Disk, rows: seq<Row>, keepRecent: int, forPlan: bool) returns (r: Option<Cache>)
    requires keepRecent >= 4
    ensures r.Some? <==> disk.Stored? && Loadable(env, disk.cache, rows, keepRecent, forPlan)
    ensures r.Some? ==> r.value == Refreshed(env, disk.cache, rows, keepRecent)
  {
    if !disk.Stored? || env.size(disk.cache) > MAX_CACHE_BYTES || |disk.cache.segments| > MAX_SEGMENTS {
      return None;
    }
    var cache, eligible := disk.cache, Eligible(rows, keepRecent);
    if !CursorOk(cache.cursor, rows, eligible) || PrefixOf(rows, cache.cursor) != cache.prefix {
      return None;
    }
    var correction := env.correction(rows);
    var pending := Pending(correction, cache.cursor);
    if pending && !(forPlan && cache.boundary == correction) {
      return None;
    }
    if cache.skippedMessages < 0 || cache.skippedChars < 0 || cache.evicted < 0 {
      return None;
    }
    if !CursorOk(Origin(cache), rows, eligible) || !AtMost(Origin(cache), cache.cursor) {
      return None;
    }
    var ok := SegmentsOk(env, cache, rows, eligible);
    if !ok || cache.segments == [] || cache.segments[|cache.segments| - 1].end != cache.cursor {
      return None;
    }
    return Some(cache.(pending := pending, stats := StatsOf(cache, eligible)));
  }

  ghost predicate AllGrounded(cache: Cache, rows: seq<Row>) {
    && (forall i :: 0 <= i < |cache.segments| ==> |cache.segments[i].items| <= 16)
    && forall i, j :: 0 <= i < |cache.segments| && 0 <= j < |cache.segments[i].items| ==> Grounded(cache.segments[i].items[j], rows)
  }

  /** Every item of a cache that loads is grounded in the history it is loaded against. */
  lemma {:induction false} LoadedGrounded(env: Oracles, cache: Cache, rows: seq<Row>, eligible: nat)
    requires ValidHistory(rows) && eligible <= |rows| && Base(env, cache, rows, eligible)
    ensures AllGrounded(cache, rows)
  {
    forall i | 0 <= i < |cache.segments| ensures |cache.segments[i].items| <= 16 {
      assert SegmentOk(env, cache, cache.segments[i], rows, eligible);
    }
    forall i, j | 0 <= i < |cache.segments| && 0 <= j < |cache.segments[i].items|
      ensures Grounded(cache.segments[i].items[j], rows)
    {
      var seg := cache.segments[i];
      assert SegmentOk(env, cache, seg, rows, eligible);
      var sources := Ranges(rows, seg.start, seg.end);
      assert CachedOk(env, [seg.items[j]], sources, NumberBounds(rows, sources));
      ItemGrounded(env, seg.items[j], rows, seg.start, seg.end);
    }
  }

  /** What the figures say: complete means nothing skipped, nothing evicted and nothing eligible behind the cursor;
      covered counts the whole messages from the origin to the cursor, of which one cut by the origin is none. */
  lemma {:induction false} FiguresExactly(cache: Cache, rows: seq<Row>, eligible: nat)
    requires eligible <= |rows| && CursorOk(cache.cursor, rows, eligible)
    requires CursorOk(Origin(cache), rows, eligible) && AtMost(Origin(cache), cache.cursor)
    ensures var f, first := StatsOf(cache, eligible), if cache.skippedChars == 0 then cache.skippedMessages else cache.skippedMessages + 1;
            && (f.complete <==>
                  && cache.cursor.index == eligible && cache.cursor.offset == 0
                  && cache.skippedMessages == 0 && cache.skippedChars == 0 && cache.evicted == 0)
            && f.covered == (if first < cache.cursor.index then cache.cursor.index - first else 0)
            && f.eligible == eligible && f.remaining + cache.cursor.index == eligible
  {
  }

  /** A correction is pending exactly if its last character lies behind the cursor. */
  lemma {:induction false} PendingExactly(c: Correction, cursor: Cursor, rows: seq<Row>)
    requires GoodCorrection(c, rows) && CursorOk(cursor, rows, |rows|)
    ensures Pending(c, cursor) <==> c.index >= 0 && CoveredTo(rows, cursor, c.index) < c.end
  {
  }

  // ---------------------------------------------------------------- what later history does to a cache

  lemma {:induction false} SegmentStable(env: Oracles, cache: Cache, seg: Segment, rows: seq<Row>, eligible: nat,
                      more: seq<Row>, eligible': nat)
    requires ValidHistory(more) && rows <= more && eligible <= |rows| && eligible <= eligible' <= |more|
    requires SegmentOk(env, cache, seg, rows, eligible)
    ensures SegmentOk(env, cache, seg, more, eligible')
  {
    RangesStable(rows, more, seg.start, seg.end);
    RangesQuoteRows(rows, seg.start, seg.end);
    NumberBoundsStable(rows, more, Ranges(rows, seg.start, seg.end));
  }

  lemma {:induction false} BaseStable(env: Oracles, cache: Cache, rows: seq<Row>, eligible: nat, more: seq<Row>, eligible': nat)
    requires ValidHistory(more) && rows <= more && eligible <= |rows| && eligible <= eligible' <= |more|
    requires Base(env, cache, rows, eligible)
    ensures Base(env, cache, more, eligible')
  {
    RangesStable(rows, more, cache.cursor, cache.cursor);
    forall i | 0 <= i < |cache.segments| ensures SegmentOk(env, cache, cache.segments[i], more, eligible') {
      SegmentStable(env, cache, cache.segments[i], rows, eligible, more, eligible');
    }
  }

  /** After any growth of the history a loadable cache stays loadable exactly when no newer correction
      lies behind its cursor (a plan may still extend it when the correction is its own boundary). */
  lemma {:induction false} ReloadAfterGrowth(env: Oracles, cache: Cache, rows: seq<Row>, more: seq<Row>, keepRecent: int, forPlan: bool)
    requires ValidHistory(more) && rows <= more
    requires Loadable(env, cache, rows, keepRecent, true)
    ensures Loadable(env, cache, more, keepRecent, forPlan) <==>
              (Pending(env.correction(more), cache.cursor) ==> forPlan && cache.boundary == env.correction(more))
  {
    BaseStable(env, cache, rows, Eligible(rows, keepRecent), more, Eligible(more, keepRecent));
  }
}
