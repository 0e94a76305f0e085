/** The append-only history that the semantic cache walks: cursors, source ranges and the
    text they cover (demo/semantic_memory.py). */
module SemanticHistory {
  import opened Wrappers
  import opened Numbers

  datatype Role = User | Assistant
  datatype Row = Row(id: string, role: Role, content: string)

  /** A place in the history: message index, then character offset inside that message. */
  datatype Cursor = Cursor(index: int, offset: int)

  datatype Source = Source(messageId: string, role: Role, start: int, end: int, text: string)

  predicate StoredId(id: string) {
    0 < |id| <= 256 && id != "current" && !("client-" <= id)
  }

  /** What _history accepts: stored messages with unique ids. */
  ghost predicate ValidHistory(rows: seq<Row>) {
    && (forall i :: 0 <= i < |rows| ==> StoredId(rows[i].id))
    && (forall i, j :: 0 <= i < j < |rows| ==> rows[i].id != rows[j].id)
  }

  predicate AtMost(a: Cursor, b: Cursor) {
    a.index < b.index || (a.index == b.index && a.offset <= b.offset)
  }

  predicate Before(a: Cursor, b: Cursor) {
    a.index < b.index || (a.index == b.index && a.offset < b.offset)
  }

  /** A cursor inside the first `eligible` messages, or just behind them. */
  predicate CursorOk(c: Cursor, rows: seq<Row>, eligible: nat)
    requires eligible <= |rows|
  {
    && 0 <= c.index <= eligible
    && 0 <= c.offset
    && (c.offset == 0 || (c.index < eligible && c.offset < |rows[c.index].content|))
  }

  predicate Within(start: Cursor, end: Cursor, rows: seq<Row>) {
    && CursorOk(start, rows, |rows|)
    && CursorOk(end, rows, |rows|)
    && AtMost(start, end)
  }

  /** The data the prefix hash is taken over; the hash is modelled as injective. */
  datatype Prefix = Prefix(whole: seq<Row>, partial: Option<Row>)

  function PrefixOf(rows: seq<Row>, c: Cursor): Prefix
    requires CursorOk(c, rows, |rows|)
  {
    Prefix(rows[..c.index],
           if c.offset == 0 then None
           else Some(rows[c.index].(content := rows[c.index].content[..c.offset])))
  }

  // ---------------------------------------------------------------- source ranges

  /** Message i as a source of the range [start, end). */
  function SourceOf(rows: seq<Row>, start: Cursor, end: Cursor, i: int): Source
    requires Within(start, end, rows)
    requires start.index <= i < SourceStop(end)
  {
    var row := rows[i];
    var a := if i == start.index then start.offset else 0;
    var b := if i == end.index then end.offset else |row.content|;
    Source(row.id, row.role, a, b, row.content[a..b])
  }

  function SourceStop(end: Cursor): int {
    end.index + (if end.offset != 0 then 1 else 0)
  }

  /** _ranges: the sources of [start, end), one per message. */
  function Ranges(rows: seq<Row>, start: Cursor, end: Cursor): (sources: seq<Source>)
    requires Within(start, end, rows)
    ensures |sources| == if start.index < SourceStop(end) then SourceStop(end) - start.index else 0
  {
    if SourceStop(end) <= start.index then []
    else seq(SourceStop(end) - start.index,
             k requires 0 <= k < SourceStop(end) - start.index => SourceOf(rows, start, end, start.index + k))
  }

  /** Where the plan begins inside message i. */
  function OffsetIn(start: Cursor, i: int): int {
    if i == start.index then start.offset else 0
  }

  /** The first n characters that message i adds to a plan from `start` on. */
  function CutSource(rows: seq<Row>, start: Cursor, i: int, n: int): Source
    requires CursorOk(start, rows, |rows|) && start.index <= i < |rows|
    requires 0 <= n <= RestLength(rows, start, i)
  {
    var offset := OffsetIn(start, i);
    Source(rows[i].id, rows[i].role, offset, offset + n, rows[i].content[offset..offset + n])
  }

  function RestLength(rows: seq<Row>, start: Cursor, i: int): (n: int)
    requires CursorOk(start, rows, |rows|) && start.index <= i < |rows|
    ensures 0 <= n
  {
    |rows[i].content| - OffsetIn(start, i)
  }

  /** The rest of message i from the start cursor on, as prepare first tries it. */
  function WholeSource(rows: seq<Row>, start: Cursor, i: int): Source
    requires CursorOk(start, rows, |rows|) && start.index <= i < |rows|
  {
    CutSource(rows, start, i, RestLength(rows, start, i))
  }

  /** y quotes at least what x quotes, from the same place. */
  ghost predicate Shorter(x: Source, y: Source) {
    && x.messageId == y.messageId && x.role == y.role && x.start == y.start
    && x.end <= y.end && x.text <= y.text
  }

  /** Where a plan stands after whole messages up to (not including) i. */
  function EndBefore(start: Cursor, i: int): Cursor {
    if i == start.index then start else Cursor(i, 0)
  }

  /** A range that ends at a message boundary consists of whole messages. */
  lemma {:induction false} RangesAreWhole(rows: seq<Row>, start: Cursor, i: int)
    requires CursorOk(start, rows, |rows|) && start.index < i <= |rows|
    ensures Within(start, Cursor(i, 0), rows)
    ensures Ranges(rows, start, Cursor(i, 0)) == RangesTo(rows, start, i)
  {
    var end := Cursor(i, 0);
    var left, right := RangesTo(rows, start, i), Ranges(rows, start, end);
    assert |left| == |right|;
    forall k | 0 <= k < |right| ensures left[k] == right[k] {
      assert right[k] == SourceOf(rows, start, end, start.index + k);
      assert left[k] == WholeSource(rows, start, start.index + k);
    }
  }

  lemma {:induction false} RangesAddWhole(rows: seq<Row>, start: Cursor, i: int)
    requires CursorOk(start, rows, |rows|) && start.index <= i < |rows|
    ensures RangesTo(rows, start, i + 1) == RangesTo(rows, start, i) + [WholeSource(rows, start, i)]
  {
    var left, right := RangesTo(rows, start, i) + [WholeSource(rows, start, i)], RangesTo(rows, start, i + 1);
    forall k | 0 <= k < |right| ensures left[k] == right[k] {
      assert right[k] == WholeSource(rows, start, start.index + k);
    }
  }

  /** The sources of the whole messages start.index .. i - 1. */
  function RangesTo(rows: seq<Row>, start: Cursor, i: int): seq<Source>
    requires CursorOk(start, rows, |rows|) && start.index <= i <= |rows|
  {
    seq(i - start.index, k requires 0 <= k < i - start.index => WholeSource(rows, start, start.index + k))
  }

  lemma {:induction false} RangesAddCut(rows: seq<Row>, start: Cursor, i: int, n: int)
    requires CursorOk(start, rows, |rows|) && start.index <= i < |rows|
    requires 0 < n < RestLength(rows, start, i)
    ensures var end := Cursor(i, OffsetIn(start, i) + n);
            && Within(start, end, rows)
            && RangesTo(rows, start, i) + [CutSource(rows, start, i, n)] == Ranges(rows, start, end)
  {
    var end := Cursor(i, OffsetIn(start, i) + n);
    CutAt(rows, start, i, n, i);
    var left, right := RangesTo(rows, start, i) + [CutSource(rows, start, i, n)], Ranges(rows, start, end);
    forall k | 0 <= k < |right| ensures left[k] == right[k] {
      AddCutAt(rows, start, i, n, k);
    }
  }

  lemma {:induction false} AddCutAt(rows: seq<Row>, start: Cursor, i: int, n: int, k: int)
    requires CursorOk(start, rows, |rows|) && start.index <= i < |rows|
    requires 0 < n < RestLength(rows, start, i) && 0 <= k <= i - start.index
    ensures var end := Cursor(i, OffsetIn(start, i) + n);
            && Within(start, end, rows) && |Ranges(rows, start, end)| == i - start.index + 1
            && (RangesTo(rows, start, i) + [CutSource(rows, start, i, n)])[k] == Ranges(rows, start, end)[k]
  {
    CutAt(rows, start, i, n, start.index + k);
  }

  /** Each source of a range that ends inside message i: whole before it, cut in it. */
  lemma {:induction false} CutAt(rows: seq<Row>, start: Cursor, i: int, n: int, j: int)
    requires CursorOk(start, rows, |rows|) && start.index <= j <= i < |rows|
    requires 0 < n < RestLength(rows, start, i)
    ensures var end := Cursor(i, OffsetIn(start, i) + n);
            && Within(start, end, rows)
            && SourceOf(rows, start, end, j) == if j < i then WholeSource(rows, start, j) else CutSource(rows, start, i, n)
  {
  }

  /** Appending messages to the history changes no range that already existed. */
  lemma {:induction false} RangesStable(rows: seq<Row>, more: seq<Row>, start: Cursor, end: Cursor)
    requires rows <= more && Within(start, end, rows)
    ensures Within(start, end, more)
    ensures Ranges(more, start, end) == Ranges(rows, start, end)
    ensures PrefixOf(more, end) == PrefixOf(rows, end)
  {
    assert more[..end.index] == rows[..end.index];
    var left, right := Ranges(more, start, end), Ranges(rows, start, end);
    forall k | 0 <= k < |right| ensures left[k] == right[k] {
      assert left[k] == SourceOf(more, start, end, start.index + k);
      assert right[k] == SourceOf(rows, start, end, start.index + k);
    }
    assert left == right;
  }

  // ---------------------------------------------------------------- covered text

  /** The characters of message m that lie before cursor c. */
  function CoveredTo(rows: seq<Row>, c: Cursor, m: nat): (n: int)
    requires CursorOk(c, rows, |rows|) && m < |rows|
    ensures 0 <= n <= |rows[m].content|
  {
    if m < c.index then |rows[m].content| else if m == c.index then c.offset else 0
  }

  /** The text of message m that lies in [start, end). */
  function Piece(rows: seq<Row>, start: Cursor, end: Cursor, m: nat): string
    requires Within(start, end, rows) && m < |rows|
  {
    rows[m].content[CoveredTo(rows, start, m)..CoveredTo(rows, end, m)]
  }

  /** The text the sources of one list quote from message `id`, in order. */
  function TextOf(sources: seq<Source>, id: string): string {
    if sources == [] then ""
    else (if sources[0].messageId == id then sources[0].text else "") + TextOf(sources[1..], id)
  }

  lemma {:induction false} TextOfAbsent(sources: seq<Source>, id: string)
    requires forall s :: s in sources ==> s.messageId != id
    ensures TextOf(sources, id) == ""
  {
    if sources != [] {
      TextOfAbsent(sources[1..], id);
    }
  }

  ghost predicate Distinct(sources: seq<Source>) {
    forall i, j :: 0 <= i < j < |sources| ==> sources[i].messageId != sources[j].messageId
  }

  lemma {:induction false} TextOfSingle(sources: seq<Source>, k: nat)
    requires k < |sources| && Distinct(sources)
    ensures TextOf(sources, sources[k].messageId) == sources[k].text
  {
    if k == 0 {
      TextOfAbsent(sources[1..], sources[0].messageId);
    } else {
      TextOfSingle(sources[1..], k - 1);
    }
  }

  lemma {:induction false} RangesAt(rows: seq<Row>, start: Cursor, end: Cursor)
    requires Within(start, end, rows)
    ensures forall k :: 0 <= k < |Ranges(rows, start, end)| ==>
              Ranges(rows, start, end)[k] == SourceOf(rows, start, end, start.index + k)
  {
  }

  lemma {:induction false} RangesQuoteRows(rows: seq<Row>, start: Cursor, end: Cursor)
    requires ValidHistory(rows) && Within(start, end, rows)
    ensures forall s :: s in Ranges(rows, start, end) ==> exists i :: 0 <= i < |rows| && rows[i].id == s.messageId
    ensures Distinct(Ranges(rows, start, end))
  {
    RangesAt(rows, start, end);
  }

  /** The sources of a range quote from each message exactly the piece of it inside the range. */
  lemma {:induction false} RangeText(rows: seq<Row>, start: Cursor, end: Cursor, m: nat)
    requires ValidHistory(rows) && Within(start, end, rows) && m < |rows|
    ensures TextOf(Ranges(rows, start, end), rows[m].id) == Piece(rows, start, end, m)
  {
    var sources := Ranges(rows, start, end);
    RangesAt(rows, start, end);
    if start.index <= m < SourceStop(end) {
      RangesQuoteRows(rows, start, end);
      assert sources[m - start.index] == SourceOf(rows, start, end, m);
      TextOfSingle(sources, m - start.index);
    } else {
      OtherMessages(rows, start, end, m);
      TextOfAbsent(sources, rows[m].id);
    }
  }

  /** Outside its range a message is not quoted. */
  lemma {:induction false} OtherMessages(rows: seq<Row>, start: Cursor, end: Cursor, m: nat)
    requires ValidHistory(rows) && Within(start, end, rows) && m < |rows| && !(start.index <= m < SourceStop(end))
    ensures forall s :: s in Ranges(rows, start, end) ==> s.messageId != rows[m].id
    ensures Piece(rows, start, end, m) == ""
  {
    var sources := Ranges(rows, start, end);
    RangesAt(rows, start, end);
    forall k | 0 <= k < |sources| ensures sources[k].messageId != rows[m].id {
      assert sources[k].messageId == rows[start.index + k].id;
    }
  }

  /** Adjacent ranges join to the range from the first start to the last end. */
  lemma {:induction false} PiecesJoin(rows: seq<Row>, a: Cursor, b: Cursor, c: Cursor, m: nat)
    requires Within(a, b, rows) && Within(b, c, rows) && m < |rows|
    ensures Within(a, c, rows)
    ensures Piece(rows, a, b, m) + Piece(rows, b, c, m) == Piece(rows, a, c, m)
  {
  }

  // ---------------------------------------------------------------- number bounds

  /** dict semantics: the last source with this id wins. */
  function Lookup(sources: seq<Source>, id: string): Option<Source> {
    if sources == [] then None
    else if sources[|sources| - 1].messageId == id then Some(sources[|sources| - 1])
    else Lookup(sources[..|sources| - 1], id)
  }

  lemma {:induction false} LookupFinds(sources: seq<Source>, k: nat)
    requires k < |sources| && Distinct(sources)
    ensures Lookup(sources, sources[k].messageId) == Some(sources[k])
  {
    if k < |sources| - 1 {
      LookupFinds(sources[..|sources| - 1], k);
    }
  }

  lemma {:induction false} LookupMember(sources: seq<Source>, id: string)
    requires Lookup(sources, id).Some?
    ensures Lookup(sources, id).value in sources && Lookup(sources, id).value.messageId == id
  {
    if sources[|sources| - 1].messageId != id {
      LookupMember(sources[..|sources| - 1], id);
    }
  }

  /** The numbers of one message that touch [lo, hi); the scan stops at the first one behind hi. */
  function Touching(spans: seq<Span>, lo: int, hi: int): (r: seq<Span>)
    ensures forall s :: s in r ==> s in spans
  {
    if spans == [] || spans[0].start >= hi then []
    else (if spans[0].end > lo then [spans[0]] else []) + Touching(spans[1..], lo, hi)
  }

  lemma {:induction false} TouchingAll(spans: seq<Span>, lo: int, hi: int, s: Span)
    requires forall i, j :: 0 <= i < j < |spans| ==> spans[i].start <= spans[j].start
    requires s in spans && s.start < hi && lo < s.end
    ensures s in Touching(spans, lo, hi)
  {
    if s != spans[0] {
      assert s in spans[1..];
      TouchingAll(spans[1..], lo, hi, s);
    }
  }

  /** _number_bounds: per quoted message, its whole numbers that touch the quoted range. */
  function NumberBounds(rows: seq<Row>, sources: seq<Source>): map<string, seq<Span>> {
    if rows == [] then map[]
    else
      var row, rest := rows[|rows| - 1], NumberBounds(rows[..|rows| - 1], sources);
      match Lookup(sources, row.id)
      case None => rest
      case Some(s) => rest[row.id := Touching(Runs(row.content, 0), s.start, s.end)]
  }

  lemma {:induction false} NumberBoundsAt(rows: seq<Row>, sources: seq<Source>, m: nat)
    requires ValidHistory(rows) && m < |rows| && Lookup(sources, rows[m].id).Some?
    ensures rows[m].id in NumberBounds(rows, sources)
    ensures var s := Lookup(sources, rows[m].id).value;
            NumberBounds(rows, sources)[rows[m].id] == Touching(Runs(rows[m].content, 0), s.start, s.end)
  {
    if m < |rows| - 1 {
      NumberBoundsAt(rows[..|rows| - 1], sources, m);
    }
  }

  /** Later messages add no bounds for the sources of an earlier range. */
  lemma {:induction false} NumberBoundsStable(rows: seq<Row>, more: seq<Row>, sources: seq<Source>)
    requires ValidHistory(more) && rows <= more
    requires forall s :: s in sources ==> exists i :: 0 <= i < |rows| && rows[i].id == s.messageId
    ensures NumberBounds(more, sources) == NumberBounds(rows, sources)
    decreases |more|
  {
    if |rows| == |more| {
      assert more == rows;
    } else {
      var last := |more| - 1;
      if Lookup(sources, more[last].id).Some? {
        LookupMember(sources, more[last].id);
      }
      NumberBoundsStable(rows, more[..last], sources);
    }
  }
}
