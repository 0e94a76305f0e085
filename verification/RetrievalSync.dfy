/** Incremental synchronisation of the retrieval index against a full rebuild (demo/local_retrieval.py). */
module RetrievalSync {
  import opened Wrappers
  import opened Retrieval

  // ---------------------------------------------------------------- documents and tables

  datatype Kind = History | Attachment

  /** The hash of session, kind and identifier: equal exactly for equal inputs. */
  datatype SourceId = SourceId(kind: Kind, identifier: string)

  datatype Document = Document(kind: Kind, identifier: string, title: string, content: string, role: string, ts: nat, ordinal: nat)

  /** The hash of what the index depends on, full title included. */
  datatype Fingerprint = Fingerprint(kind: Kind, title: string, content: string, role: string, ts: nat)

  /** A row of the sources table; its title is cut to 300 characters. */
  datatype Row = Row(kind: Kind, title: string, content: string, messageId: Option<string>, attachmentId: Option<string>,
                     role: string, ts: nat, ordinal: nat, fingerprint: Fingerprint)

  datatype ChunkRow = ChunkRow(tokens: string, source: SourceId, range: Range, text: string)

  /** The tables; chunks in insertion order. */
  datatype Tables = Tables(sources: map<SourceId, Row>, chunks: seq<ChunkRow>)

  const EMPTY := Tables(map[], [])

  function IdOf(d: Document): SourceId {
    SourceId(d.kind, d.identifier)
  }

  function PrintOf(d: Document): Fingerprint {
    Fingerprint(d.kind, d.title, d.content, d.role, d.ts)
  }

  function Short(title: string): string {
    if |title| <= TITLE_CHARS then title else title[..TITLE_CHARS]
  }

  function RowOf(d: Document): Row {
    Row(d.kind, Short(d.title), d.content, if d.kind.History? then Some(d.identifier) else None,
        if d.kind.Attachment? then Some(d.identifier) else None, d.role, d.ts, d.ordinal, PrintOf(d))
  }

  /** The chunk rows of one source; `tokens` is the tokenizer. */
  function ChunkRows(tokens: string -> string, id: SourceId, title: string, content: string): (r: seq<ChunkRow>)
    ensures forall i :: 0 <= i < |r| ==> r[i].source == id
  {
    var chunks := Chunks(content);
    RangesInside(content);
    seq(|chunks|, i requires 0 <= i < |chunks| && chunks[i].start <= chunks[i].end <= |content| =>
      var text := content[chunks[i].start..chunks[i].end];
      ChunkRow(tokens(title + "\n" + text), id, chunks[i], text))
  }

  lemma {:induction false} RangesInside(content: string)
    ensures forall i :: 0 <= i < |Chunks(content)| ==> Chunks(content)[i].start <= Chunks(content)[i].end <= |content|
  {
    if content != "" {
      ChunksCover(content, 0);
    }
  }

  function RowsOf(tokens: string -> string, d: Document): seq<ChunkRow> {
    ChunkRows(tokens, IdOf(d), Short(d.title), d.content)
  }

  predicate DistinctIds(docs: seq<Document>) {
    forall i, j :: 0 <= i < j < |docs| ==> IdOf(docs[i]) != IdOf(docs[j])
  }

  function Ids(docs: seq<Document>): set<SourceId> {
    set i | 0 <= i < |docs| :: IdOf(docs[i])
  }

  // ---------------------------------------------------------------- synchronising

  /** DELETE FROM chunks WHERE source_id IN ids */
  function Drop(chunks: seq<ChunkRow>, ids: set<SourceId>): seq<ChunkRow> {
    if chunks == [] then []
    else Drop(chunks[..|chunks| - 1], ids) + if chunks[|chunks| - 1].source in ids then [] else [chunks[|chunks| - 1]]
  }

  function Dropped(t: Tables, ids: set<SourceId>): Tables {
    Tables(t.sources - ids, Drop(t.chunks, ids))
  }

  function Replaced(t: Tables, tokens: string -> string, d: Document): Tables {
    Tables(t.sources[IdOf(d) := RowOf(d)], Drop(t.chunks, {IdOf(d)}) + RowsOf(tokens, d))
  }

  /** Whether the table already has this document as it is. */
  predicate Unchanged(previous: map<SourceId, Row>, d: Document) {
    IdOf(d) in previous && previous[IdOf(d)].fingerprint == PrintOf(d)
  }

  function Applied(t: Tables, previous: map<SourceId, Row>, tokens: string -> string, docs: seq<Document>): Tables {
    if docs == [] then t
    else
      var u, last := Applied(t, previous, tokens, docs[..|docs| - 1]), docs[|docs| - 1];
      if Unchanged(previous, last) then u else Replaced(u, tokens, last)
  }

  function Synced(t: Tables, tokens: string -> string, docs: seq<Document>, rebuild: bool): Tables {
    var first := if rebuild then EMPTY else t;
    Applied(Dropped(first, first.sources.Keys - Ids(docs)), first.sources, tokens, docs)
  }

  function Changed(previous: map<SourceId, Row>, docs: seq<Document>): nat {
    if docs == [] then 0
    else Changed(previous, docs[..|docs| - 1]) + if Unchanged(previous, docs[|docs| - 1]) then 0 else 1
  }

  class Index {
    var sources: map<SourceId, Row>
    var chunks: seq<ChunkRow>

    function View(): Tables
      reads this
    {
      Tables(sources, chunks)
    }

    /** The loop over the sources that are no longer there. */
    method Remove(gone: set<SourceId>)
      modifies this
      ensures View() == Dropped(old(View()), gone)
    {
      ghost var was := View();
      var todo, done := gone, {};
      DropNone(chunks);
      while todo != {}
        invariant done + todo == gone && done !! todo
        invariant sources == was.sources - done && chunks == Drop(was.chunks, done)
        decreases |todo|
      {
        var id :| id in todo;
        DropMore(was.chunks, done, id);
        MinusMore(was.sources, done, id);
        chunks := Drop(chunks, {id});
        sources := sources - {id};
        done, todo := done + {id}, todo - {id};
      }
      assert done == gone;
    }

    /** A changed document: its old chunks out, its row and its new chunks in. */
    method Put(tokens: string -> string, d: Document)
      modifies this
      ensures View() == Replaced(old(View()), tokens, d)
    {
      chunks := Drop(chunks, {IdOf(d)});
      sources := sources[IdOf(d) := RowOf(d)];
      chunks := chunks + RowsOf(tokens, d);
    }

    /** _sync_documents, in one transaction */
    method Sync(tokens: string -> string, docs: seq<Document>, rebuild: bool) returns (updated: nat, removed: nat)
      modifies this
      ensures View() == Synced(old(View()), tokens, docs, rebuild)
      ensures var previous := if rebuild then map[] else old(sources);
              updated == Changed(previous, docs) && removed == |previous.Keys - Ids(docs)|
    {
      if rebuild {
        sources, chunks := map[], [];
      }
      var previous := sources;
      var gone := previous.Keys - Ids(docs);
      removed, updated := |gone|, 0;
      ghost var first := View();
      Remove(gone);
      ghost var base := View();
      for k := 0 to |docs|
        invariant View() == Applied(base, previous, tokens, docs[..k])
        invariant updated == Changed(previous, docs[..k])
      {
        var d := docs[k];
        ApplyOne(base, previous, tokens, docs, k);
        if !(IdOf(d) in previous && previous[IdOf(d)].fingerprint == PrintOf(d)) {
          updated := updated + 1;
          Put(tokens, d);
        }
      }
      assert docs[..|docs|] == docs;
    }
  }

  lemma {:induction false} ApplyOne(t: Tables, previous: map<SourceId, Row>, tokens: string -> string, docs: seq<Document>, k: nat)
    requires k < |docs|
    ensures Applied(t, previous, tokens, docs[..k + 1]) ==
            var u := Applied(t, previous, tokens, docs[..k]); if Unchanged(previous, docs[k]) then u else Replaced(u, tokens, docs[k])
    ensures Changed(previous, docs[..k + 1]) == Changed(previous, docs[..k]) + if Unchanged(previous, docs[k]) then 0 else 1
  {
    assert docs[..k + 1][..k] == docs[..k];
  }

  lemma {:induction false} DropNone(chunks: seq<ChunkRow>)
    ensures Drop(chunks, {}) == chunks
    decreases |chunks|
  {
    if chunks != [] {
      DropNone(chunks[..|chunks| - 1]);
    }
  }

  lemma {:induction false} MinusMore(sources: map<SourceId, Row>, ids: set<SourceId>, id: SourceId)
    ensures (sources - ids) - {id} == sources - (ids + {id})
  {
  }

  /** Deleting one source after others is deleting them all. */
  lemma {:induction false} DropMore(chunks: seq<ChunkRow>, ids: set<SourceId>, id: SourceId)
    ensures Drop(Drop(chunks, ids), {id}) == Drop(chunks, ids + {id})
    decreases |chunks|
  {
    if chunks != [] {
      var front, last := chunks[..|chunks| - 1], chunks[|chunks| - 1];
      DropMore(front, ids, id);
      assert last.source in ids ==> Drop(chunks, ids) == Drop(front, ids);
    }
  }

  // ---------------------------------------------------------------- where every row comes from

  /** How often a chunk row is in the table. */
  function Count(chunks: seq<ChunkRow>, c: ChunkRow): nat {
    multiset(chunks)[c]
  }

  lemma {:induction false} CountDrop(chunks: seq<ChunkRow>, ids: set<SourceId>, c: ChunkRow)
    ensures Count(Drop(chunks, ids), c) == if c.source in ids then 0 else Count(chunks, c)
    decreases |chunks|
  {
    if chunks != [] {
      var front, last := chunks[..|chunks| - 1], chunks[|chunks| - 1];
      CountDrop(front, ids, c);
      assert chunks == front + [last];
      assert last.source in ids ==> Drop(chunks, ids) == Drop(front, ids);
    }
  }

  lemma {:induction false} ReplacedAt(t: Tables, tokens: string -> string, d: Document, c: ChunkRow)
    ensures Count(Replaced(t, tokens, d).chunks, c) ==
            if c.source == IdOf(d) then Count(RowsOf(tokens, d), c) else Count(t.chunks, c)
  {
    CountDrop(t.chunks, {IdOf(d)}, c);
  }

  lemma {:induction false} IdsFront(docs: seq<Document>)
    requires docs != []
    ensures Ids(docs) == Ids(docs[..|docs| - 1]) + {IdOf(docs[|docs| - 1])}
    ensures DistinctIds(docs) ==> DistinctIds(docs[..|docs| - 1]) && IdOf(docs[|docs| - 1]) !in Ids(docs[..|docs| - 1])
  {
    var n := |docs| - 1;
    assert forall i :: 0 <= i < n ==> docs[..n][i] == docs[i];
    forall id | id in Ids(docs) ensures id in Ids(docs[..n]) + {IdOf(docs[n])} {
      var i :| 0 <= i < |docs| && id == IdOf(docs[i]);
      assert i < n ==> IdOf(docs[..n][i]) == id;
    }
  }

  /** Same presence, same row, same chunk count. */
  ghost predicate SameAt(a: Tables, b: Tables, c: ChunkRow) {
    && (c.source in a.sources <==> c.source in b.sources)
    && (c.source in a.sources ==> a.sources[c.source] == b.sources[c.source])
    && Count(a.chunks, c) == Count(b.chunks, c)
  }

  ghost predicate NewAt(t: Tables, tokens: string -> string, d: Document, c: ChunkRow) {
    c.source in t.sources && t.sources[c.source] == RowOf(d) && Count(t.chunks, c) == Count(RowsOf(tokens, d), c)
  }

  lemma {:induction false} ReplacedSame(t: Tables, tokens: string -> string, d: Document, c: ChunkRow)
    ensures c.source != IdOf(d) ==> SameAt(Replaced(t, tokens, d), t, c)
    ensures c.source == IdOf(d) ==> NewAt(Replaced(t, tokens, d), tokens, d, c)
  {
    ReplacedAt(t, tokens, d, c);
  }

  /** A source that no document has is left alone by the loop. */
  lemma {:induction false} AppliedOther(t: Tables, previous: map<SourceId, Row>, tokens: string -> string, docs: seq<Document>, c: ChunkRow)
    requires c.source !in Ids(docs)
    ensures SameAt(Applied(t, previous, tokens, docs), t, c)
    decreases |docs|
  {
    if docs != [] {
      var front, last := docs[..|docs| - 1], docs[|docs| - 1];
      IdsFront(docs);
      AppliedOther(t, previous, tokens, front, c);
      if !Unchanged(previous, last) {
        ReplacedSame(Applied(t, previous, tokens, front), tokens, last, c);
      }
    }
  }

  /** The source of document k: as it was if its fingerprint was the same, otherwise new. */
  lemma {:induction false} AppliedAt(t: Tables, previous: map<SourceId, Row>, tokens: string -> string, docs: seq<Document>,
                                     k: nat, c: ChunkRow)
    requires DistinctIds(docs) && k < |docs| && c.source == IdOf(docs[k])
    ensures if Unchanged(previous, docs[k]) then SameAt(Applied(t, previous, tokens, docs), t, c)
            else NewAt(Applied(t, previous, tokens, docs), tokens, docs[k], c)
    decreases |docs|
  {
    var front, last := docs[..|docs| - 1], docs[|docs| - 1];
    var before := Applied(t, previous, tokens, front);
    IdsFront(docs);
    if k == |docs| - 1 {
      AppliedOther(t, previous, tokens, front, c);
      ReplacedSame(before, tokens, last, c);
    } else {
      AppliedAt(t, previous, tokens, front, k, c);
      if !Unchanged(previous, last) {
        ReplacedSame(before, tokens, last, c);
      }
    }
  }

  // ---------------------------------------------------------------- a consistent index

  /** The row is what its fingerprint says of its source. */
  predicate RowOk(id: SourceId, row: Row) {
    && row.kind == id.kind == row.fingerprint.kind && row.title == Short(row.fingerprint.title)
    && row.content == row.fingerprint.content && row.role == row.fingerprint.role && row.ts == row.fingerprint.ts
    && row.messageId == (if id.kind.History? then Some(id.identifier) else None)
    && row.attachmentId == (if id.kind.Attachment? then Some(id.identifier) else None)
  }

  function ExpectedRows(tokens: string -> string, sources: map<SourceId, Row>, id: SourceId): seq<ChunkRow> {
    if id in sources then ChunkRows(tokens, id, sources[id].title, sources[id].content) else []
  }

  /** The chunks of every source are those of its row, and no chunk is without a source. */
  ghost predicate Consistent(t: Tables, tokens: string -> string) {
    && (forall id :: id in t.sources ==> RowOk(id, t.sources[id]))
    && (forall c :: Count(t.chunks, c) == Count(ExpectedRows(tokens, t.sources, c.source), c))
  }

  /** Row of a document, whatever its place in the list. */
  predicate IsRowOf(row: Row, d: Document) {
    row == RowOf(d).(ordinal := row.ordinal)
  }

  /** Row and chunk counts of one source after a sync, whatever the tables were before. */
  lemma {:induction false} SyncedAt(t: Tables, tokens: string -> string, docs: seq<Document>, rebuild: bool, k: nat, c: ChunkRow)
    requires DistinctIds(docs) && k < |docs| && c.source == IdOf(docs[k])
    ensures var u, d, id := Synced(t, tokens, docs, rebuild), docs[k], IdOf(docs[k]);
            && id in u.sources
            && if !rebuild && Unchanged(t.sources, d)
               then u.sources[id] == t.sources[id] && Count(u.chunks, c) == Count(t.chunks, c)
               else u.sources[id] == RowOf(d) && Count(u.chunks, c) == Count(RowsOf(tokens, d), c)
  {
    var first := if rebuild then EMPTY else t;
    var gone := first.sources.Keys - Ids(docs);
    assert IdOf(docs[k]) in Ids(docs);
    AppliedAt(Dropped(first, gone), first.sources, tokens, docs, k, c);
    CountDrop(first.chunks, gone, c);
  }

  lemma {:induction false} SyncedElsewhere(t: Tables, tokens: string -> string, docs: seq<Document>, rebuild: bool, c: ChunkRow)
    requires c.source !in Ids(docs)
    ensures var u := Synced(t, tokens, docs, rebuild);
            && c.source !in u.sources
            && Count(u.chunks, c) == if rebuild || c.source in t.sources then 0 else Count(t.chunks, c)
  {
    var first := if rebuild then EMPTY else t;
    var gone := first.sources.Keys - Ids(docs);
    AppliedOther(Dropped(first, gone), first.sources, tokens, docs, c);
    CountDrop(first.chunks, gone, c);
  }

  lemma {:induction false} Member(docs: seq<Document>, id: SourceId) returns (k: nat)
    requires id in Ids(docs)
    ensures k < |docs| && IdOf(docs[k]) == id
  {
    k :| k < |docs| && IdOf(docs[k]) == id;
  }

  lemma {:induction false} SomeChunk(id: SourceId) returns (c: ChunkRow)
    ensures c.source == id
  {
    c := ChunkRow("", id, Range(0, 0), "");
  }

  /** An unchanged document of a consistent index has its own row and its own chunks there. */
  lemma {:induction false} UnchangedMeansSame(t: Tables, tokens: string -> string, d: Document, c: ChunkRow)
    requires Consistent(t, tokens) && Unchanged(t.sources, d) && c.source == IdOf(d)
    ensures IsRowOf(t.sources[IdOf(d)], d) && Count(t.chunks, c) == Count(RowsOf(tokens, d), c)
  {
    assert RowOk(IdOf(d), t.sources[IdOf(d)]);
    assert Count(t.chunks, c) == Count(ExpectedRows(tokens, t.sources, c.source), c);
  }

  /** Equal up to the order number that nothing reads. */
  ghost predicate SameSources(a: map<SourceId, Row>, b: map<SourceId, Row>) {
    a.Keys == b.Keys && forall id :: id in a ==> a[id] == b[id].(ordinal := a[id].ordinal)
  }

  /** Incremental and full synchronisation give the same sources and the same chunks, however often each. */
  lemma {:induction false} SyncIsRebuild(t: Tables, tokens: string -> string, docs: seq<Document>)
    requires Consistent(t, tokens) && DistinctIds(docs)
    ensures SameSources(Synced(t, tokens, docs, false).sources, Synced(t, tokens, docs, true).sources)
    ensures multiset(Synced(t, tokens, docs, false).chunks) == multiset(Synced(t, tokens, docs, true).chunks)
  {
    var a, b := Synced(t, tokens, docs, false), Synced(t, tokens, docs, true);
    forall c: ChunkRow ensures Count(a.chunks, c) == Count(b.chunks, c) {
      SyncIsRebuildAt(t, tokens, docs, c);
    }
    SameCounts(a.chunks, b.chunks);
    forall id: SourceId
      ensures id in a.sources <==> id in b.sources
      ensures id in a.sources && id in b.sources ==> a.sources[id] == b.sources[id].(ordinal := a.sources[id].ordinal)
    {
      var c := SomeChunk(id);
      SyncIsRebuildAt(t, tokens, docs, c);
    }
  }

  lemma {:induction false} SameCounts(a: seq<ChunkRow>, b: seq<ChunkRow>)
    requires forall c :: Count(a, c) == Count(b, c)
    ensures multiset(a) == multiset(b)
  {
    forall c: ChunkRow ensures multiset(a)[c] == multiset(b)[c] {
      assert Count(a, c) == Count(b, c);
    }
  }

  lemma {:induction false} SyncIsRebuildAt(t: Tables, tokens: string -> string, docs: seq<Document>, c: ChunkRow)
    requires Consistent(t, tokens) && DistinctIds(docs)
    ensures var a, b := Synced(t, tokens, docs, false), Synced(t, tokens, docs, true);
            && Count(a.chunks, c) == Count(b.chunks, c)
            && (c.source in a.sources <==> c.source in b.sources)
            && (c.source in a.sources ==> a.sources[c.source] == b.sources[c.source].(ordinal := a.sources[c.source].ordinal))
  {
    if c.source in Ids(docs) {
      var k := Member(docs, c.source);
      SyncedAt(t, tokens, docs, false, k, c);
      SyncedAt(t, tokens, docs, true, k, c);
      if Unchanged(t.sources, docs[k]) {
        UnchangedMeansSame(t, tokens, docs[k], c);
      }
    } else {
      SyncedElsewhere(t, tokens, docs, false, c);
      SyncedElsewhere(t, tokens, docs, true, c);
      assert Count(t.chunks, c) == Count(ExpectedRows(tokens, t.sources, c.source), c);
    }
  }

  /** A sync leaves a consistent index: always after a rebuild, otherwise if it was one. */
  lemma {:induction false} SyncKeepsConsistent(t: Tables, tokens: string -> string, docs: seq<Document>, rebuild: bool)
    requires DistinctIds(docs) && (rebuild || Consistent(t, tokens))
    ensures Consistent(Synced(t, tokens, docs, rebuild), tokens)
  {
    var u := Synced(t, tokens, docs, rebuild);
    forall c: ChunkRow ensures Count(u.chunks, c) == Count(ExpectedRows(tokens, u.sources, c.source), c) {
      SyncedConsistentAt(t, tokens, docs, rebuild, c);
    }
    forall id | id in u.sources ensures RowOk(id, u.sources[id]) {
      var c := SomeChunk(id);
      SyncedConsistentAt(t, tokens, docs, rebuild, c);
    }
  }

  lemma {:induction false} SyncedConsistentAt(t: Tables, tokens: string -> string, docs: seq<Document>, rebuild: bool, c: ChunkRow)
    requires DistinctIds(docs) && (rebuild || Consistent(t, tokens))
    ensures var u := Synced(t, tokens, docs, rebuild);
            && Count(u.chunks, c) == Count(ExpectedRows(tokens, u.sources, c.source), c)
            && (c.source in u.sources ==> RowOk(c.source, u.sources[c.source]))
  {
    if c.source in Ids(docs) {
      var k := Member(docs, c.source);
      SyncedAt(t, tokens, docs, rebuild, k, c);
      if !rebuild && Unchanged(t.sources, docs[k]) {
        UnchangedMeansSame(t, tokens, docs[k], c);
        assert RowOk(c.source, t.sources[c.source]);
      }
    } else {
      SyncedElsewhere(t, tokens, docs, rebuild, c);
      assert !rebuild ==> Count(t.chunks, c) == Count(ExpectedRows(tokens, t.sources, c.source), c);
    }
  }

  // ---------------------------------------------------------------- what is stored of a document

  /** A chunk row that holds the document's text of its own range, and the words of title and text. */
  predicate Holds(c: ChunkRow, tokens: string -> string, d: Document) {
    && c.source.kind == d.kind && c.source.identifier == d.identifier
    && c.range.start < c.range.end <= |d.content| && c.text == d.content[c.range.start..c.range.end]
    && c.tokens == tokens(d.title[..if |d.title| <= 300 then |d.title| else 300] + "\n" + c.text)
  }

  /** The row kept of a document: its content whole, its title up to 300 characters, and its own identifier. */
  predicate Describes(row: Row, d: Document) {
    && row.kind == d.kind && row.content == d.content && row.role == d.role && row.ts == d.ts
    && row.title == d.title[..if |d.title| <= 300 then |d.title| else 300]
    && row.messageId == (if d.kind.History? then Some(d.identifier) else None)
    && row.attachmentId == (if d.kind.Attachment? then Some(d.identifier) else None)
  }

  lemma {:induction false} RowsHold(tokens: string -> string, d: Document)
    ensures forall i :: 0 <= i < |RowsOf(tokens, d)| ==> Holds(RowsOf(tokens, d)[i], tokens, d)
  {
    RangesInside(d.content);
    if d.content != "" {
      ChunksCover(d.content, 0);
    }
    assert Short(d.title) == d.title[..if |d.title| <= 300 then |d.title| else 300];
  }

  lemma {:induction false} StoredAt(t: Tables, tokens: string -> string, docs: seq<Document>, rebuild: bool, k: nat, c: ChunkRow)
    requires DistinctIds(docs) && (rebuild || Consistent(t, tokens)) && k < |docs| && c.source == IdOf(docs[k])
    ensures c in Synced(t, tokens, docs, rebuild).chunks <==> c in RowsOf(tokens, docs[k])
  {
    var u := Synced(t, tokens, docs, rebuild);
    SyncedAt(t, tokens, docs, rebuild, k, c);
    if !rebuild && Unchanged(t.sources, docs[k]) {
      UnchangedMeansSame(t, tokens, docs[k], c);
    }
    assert Count(u.chunks, c) == Count(RowsOf(tokens, docs[k]), c);
  }

  /** Nothing but the documents is stored: every chunk row after a sync holds a stretch of one of them. */
  lemma {:induction false} OnlyDocumentsStored(t: Tables, tokens: string -> string, docs: seq<Document>, rebuild: bool, c: ChunkRow)
    requires DistinctIds(docs) && (rebuild || Consistent(t, tokens)) && c in Synced(t, tokens, docs, rebuild).chunks
    ensures exists k :: 0 <= k < |docs| && Holds(c, tokens, docs[k])
  {
    if c.source in Ids(docs) {
      var k := Member(docs, c.source);
      StoredAt(t, tokens, docs, rebuild, k, c);
      RowsHold(tokens, docs[k]);
    } else {
      SyncedElsewhere(t, tokens, docs, rebuild, c);
      SyncedConsistentAt(t, tokens, docs, rebuild, c);
    }
  }

  /** Every document is stored: its row describes it, and each stretch of at most 161 characters of it
      lies whole in one stored chunk row. */
  lemma {:induction false} EveryStretchStored(t: Tables, tokens: string -> string, docs: seq<Document>, rebuild: bool,
                                              k: nat, a: nat, b: nat) returns (c: ChunkRow)
    requires DistinctIds(docs) && (rebuild || Consistent(t, tokens)) && k < |docs|
    requires a < b <= |docs[k].content| && b - a <= 161
    ensures c in Synced(t, tokens, docs, rebuild).chunks && Holds(c, tokens, docs[k]) && c.range.start <= a && b <= c.range.end
  {
    var d := docs[k];
    var i := StretchInOneChunk(d.content, a, b);
    RangesInside(d.content);
    RowsHold(tokens, d);
    c := RowsOf(tokens, d)[i];
    StoredAt(t, tokens, docs, rebuild, k, c);
  }

  /** A sync leaves a row for every document and for nothing else. */
  lemma {:induction false} SourcesAreDocuments(t: Tables, tokens: string -> string, docs: seq<Document>, rebuild: bool, k: nat, id: SourceId)
    requires DistinctIds(docs) && (rebuild || Consistent(t, tokens)) && k < |docs|
    ensures var u := Synced(t, tokens, docs, rebuild).sources;
            && SourceId(docs[k].kind, docs[k].identifier) in u && Describes(u[SourceId(docs[k].kind, docs[k].identifier)], docs[k])
            && (id in u ==> exists j :: 0 <= j < |docs| && docs[j].kind == id.kind && docs[j].identifier == id.identifier)
  {
    var c := SomeChunk(IdOf(docs[k]));
    var other := SomeChunk(id);
    SyncedAt(t, tokens, docs, rebuild, k, c);
    if !rebuild && Unchanged(t.sources, docs[k]) {
      UnchangedMeansSame(t, tokens, docs[k], c);
    }
    if id in Ids(docs) {
      var j := Member(docs, id);
    } else {
      SyncedElsewhere(t, tokens, docs, rebuild, other);
    }
  }

  // ---------------------------------------------------------------- a second identical sync

  lemma {:induction false} NothingToApply(t: Tables, previous: map<SourceId, Row>, tokens: string -> string, docs: seq<Document>)
    requires forall k :: 0 <= k < |docs| ==> Unchanged(previous, docs[k])
    ensures Applied(t, previous, tokens, docs) == t && Changed(previous, docs) == 0
    decreases |docs|
  {
    if docs != [] {
      assert Unchanged(previous, docs[|docs| - 1]);
      NothingToApply(t, previous, tokens, docs[..|docs| - 1]);
    }
  }

  /** After any sync, consistent before or not, the same sync again changes nothing at all. */
  lemma {:induction false} SecondSyncChangesNothing(t: Tables, tokens: string -> string, docs: seq<Document>, rebuild: bool)
    requires DistinctIds(docs)
    ensures var u := Synced(t, tokens, docs, rebuild);
            && Synced(u, tokens, docs, false) == u
            && Changed(u.sources, docs) == 0 && u.sources.Keys - Ids(docs) == {}
  {
    var u := Synced(t, tokens, docs, rebuild);
    forall k | 0 <= k < |docs| ensures Unchanged(u.sources, docs[k]) {
      var c := SomeChunk(IdOf(docs[k]));
      SyncedAt(t, tokens, docs, rebuild, k, c);
    }
    forall id | id in u.sources ensures id in Ids(docs) {
      if id !in Ids(docs) {
        var c := SomeChunk(id);
        SyncedElsewhere(t, tokens, docs, rebuild, c);
      }
    }
    var gone := u.sources.Keys - Ids(docs);
    assert gone == {};
    DropNone(u.chunks);
    assert Dropped(u, gone) == u;
    NothingToApply(u, u.sources, tokens, docs);
  }

  // ---------------------------------------------------------------- every reachable index

  datatype SyncCall = SyncCall(docs: seq<Document>, rebuild: bool)

  function AfterCalls(tokens: string -> string, calls: seq<SyncCall>): Tables {
    if calls == [] then EMPTY
    else Synced(AfterCalls(tokens, calls[..|calls| - 1]), tokens, calls[|calls| - 1].docs, calls[|calls| - 1].rebuild)
  }

  /** After any series of syncs the index is what one rebuild from the last documents makes. */
  lemma {:induction false} ReachableIsRebuild(tokens: string -> string, calls: seq<SyncCall>, docs: seq<Document>, rebuild: bool)
    requires (forall i :: 0 <= i < |calls| ==> DistinctIds(calls[i].docs)) && DistinctIds(docs)
    ensures var t, anew := Synced(AfterCalls(tokens, calls), tokens, docs, rebuild), Synced(EMPTY, tokens, docs, true);
            SameSources(t.sources, anew.sources) && multiset(t.chunks) == multiset(anew.chunks)
  {
    CallsConsistent(tokens, calls);
    SyncIsRebuild(AfterCalls(tokens, calls), tokens, docs);
  }

  lemma {:induction false} CallsConsistent(tokens: string -> string, calls: seq<SyncCall>)
    requires forall i :: 0 <= i < |calls| ==> DistinctIds(calls[i].docs)
    ensures Consistent(AfterCalls(tokens, calls), tokens)
    decreases |calls|
  {
    if calls != [] {
      var n := |calls| - 1;
      CallsConsistent(tokens, calls[..n]);
      SyncKeepsConsistent(AfterCalls(tokens, calls[..n]), tokens, calls[n].docs, calls[n].rebuild);
    }
  }
}
