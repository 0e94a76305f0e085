/** The snapshot check before a sync (demo/local_retrieval.py, _documents): sizes, fields and ids of all
    messages and attachments, before any row is touched. */
module RetrievalDocuments {
  import opened Wrappers
  import opened Retrieval
  import opened RetrievalSync

  const MAX_SOURCE_CHARS: nat := 4_000_000
  const MAX_TOTAL_CHARS: nat := 16_000_000
  const MAX_SOURCES: nat := 100_000
  const MAX_CHUNKS: nat := 30_000
  const MAX_ATTACHMENTS: nat := 12
  const MAX_ROLE: nat := 64

  /** A message (text, role, ts) or an attachment (text, name) as the caller passes it. */
  datatype Record = Record(id: string, text: string, role: string, ts: int, name: string)

  predicate IdChar(c: char) {
    'A' <= c <= 'Z' || 'a' <= c <= 'z' || '0' <= c <= '9' || c == '_' || c == '-'
  }

  predicate ValidId(id: string) {
    1 <= |id| <= 128 && forall i :: 0 <= i < |id| ==> IdChar(id[i])
  }

  /** `valid` is the test for storable text. */
  predicate ValidRecord(valid: string -> bool, kind: Kind, r: Record) {
    && ValidId(r.id) && valid(r.text) && |r.text| <= MAX_SOURCE_CHARS
    && (kind.History? ==> valid(r.role) && 1 <= |r.role| <= MAX_ROLE && r.ts >= 0)
    && (kind.Attachment? ==> valid(r.name))
  }

  /** The document of record number `order`; `titleOf` titles a message by role and place. */
  function DocumentOf(titleOf: (string, nat) -> string, kind: Kind, order: nat, r: Record): Document {
    if kind.History? then Document(kind, r.id, titleOf(r.role, order), r.text, r.role, if r.ts >= 0 then r.ts else 0, order)
    else Document(kind, r.id, r.name, r.text, "", 0, order)
  }

  function DocumentsOf(titleOf: (string, nat) -> string, kind: Kind, records: seq<Record>): (docs: seq<Document>)
    ensures |docs| == |records|
  {
    if records == [] then []
    else
      var n := |records| - 1;
      DocumentsOf(titleOf, kind, records[..n]) + [DocumentOf(titleOf, kind, n, records[n])]
  }

  function Chars(docs: seq<Document>): nat {
    if docs == [] then 0 else Chars(docs[..|docs| - 1]) + |docs[|docs| - 1].content|
  }

  function ChunkTotal(docs: seq<Document>): nat {
    if docs == [] then 0 else ChunkTotal(docs[..|docs| - 1]) + |Chunks(docs[|docs| - 1].content)|
  }

  /** What a list of documents must satisfy to be indexed. */
  predicate Indexable(docs: seq<Document>) {
    Chars(docs) <= MAX_TOTAL_CHARS && ChunkTotal(docs) <= MAX_CHUNKS && DistinctIds(docs)
  }

  predicate ValidAt(valid: string -> bool, kind: Kind, records: seq<Record>, i: nat) {
    i < |records| ==> ValidRecord(valid, kind, records[i])
  }

  ghost predicate AllValid(valid: string -> bool, kind: Kind, records: seq<Record>) {
    forall i: nat :: ValidAt(valid, kind, records, i)
  }

  ghost predicate ValidUpTo(valid: string -> bool, kind: Kind, records: seq<Record>, k: nat) {
    forall i: nat :: i < k ==> ValidAt(valid, kind, records, i)
  }

  lemma {:induction false} IndexableFront(docs: seq<Document>)
    requires docs != [] && Indexable(docs)
    ensures Indexable(docs[..|docs| - 1])
  {
    IdsFront(docs);
  }

  lemma {:induction false} IndexablePrefix(docs: seq<Document>, more: seq<Document>)
    requires Indexable(docs + more)
    ensures Indexable(docs)
    decreases |more|
  {
    if more == [] {
      assert docs + more == docs;
    } else {
      IndexableFront(docs + more);
      assert (docs + more)[..|docs + more| - 1] == docs + more[..|more| - 1];
      IndexablePrefix(docs, more[..|more| - 1]);
    }
  }

  lemma {:induction false} IndexableNext(docs: seq<Document>, d: Document)
    requires Indexable(docs)
    ensures Indexable(docs + [d]) <==>
            Chars(docs) + |d.content| <= MAX_TOTAL_CHARS && ChunkTotal(docs) + |Chunks(d.content)| <= MAX_CHUNKS && IdOf(d) !in Ids(docs)
    ensures Ids(docs + [d]) == Ids(docs) + {IdOf(d)}
  {
    var all := docs + [d];
    assert all[..|docs|] == docs && all[|docs|] == d;
    IdsFront(all);
    if IdOf(d) !in Ids(docs) {
      forall i, j | 0 <= i < j < |all| ensures IdOf(all[i]) != IdOf(all[j]) {
        if j == |docs| {
          assert IdOf(docs[i]) in Ids(docs);
        }
      }
    }
  }

  /** seen, total and chunks beside the documents accepted so far. */
  datatype Tally = Tally(docs: seq<Document>, seen: set<SourceId>, total: nat, chunks: nat)

  predicate TallyOk(t: Tally) {
    Indexable(t.docs) && t.seen == Ids(t.docs) && t.total == Chars(t.docs) && t.chunks == ChunkTotal(t.docs)
  }

  /** One record: every check, then the document. */
  method AddRecord(titleOf: (string, nat) -> string, valid: string -> bool, kind: Kind, order: nat, r: Record, t: Tally)
    returns (ok: bool, next: Tally)
    requires TallyOk(t)
    ensures ok <==> ValidRecord(valid, kind, r) && Indexable(t.docs + [DocumentOf(titleOf, kind, order, r)])
    ensures ok ==> TallyOk(next) && next.docs == t.docs + [DocumentOf(titleOf, kind, order, r)]
    ensures ok ==> 1 <= |r.id| <= 128 && |r.text| <= 4_000_000 && (kind.History? ==> 1 <= |r.role| <= 64 && r.ts >= 0)
  {
    var d := DocumentOf(titleOf, kind, order, r);
    IndexableNext(t.docs, d);
    var total, chunks := t.total + |r.text|, t.chunks + |Chunks(r.text)|;
    if !ValidRecord(valid, kind, r) || total > MAX_TOTAL_CHARS || chunks > MAX_CHUNKS || IdOf(d) in t.seen {
      return false, t;
    }
    assert (t.docs + [d])[..|t.docs|] == t.docs;
    ok, next := true, Tally(t.docs + [d], t.seen + {IdOf(d)}, total, chunks);
  }

  /** The records of one kind, after those before them. */
  method AddRecords(titleOf: (string, nat) -> string, valid: string -> bool, kind: Kind, records: seq<Record>, first: Tally)
    returns (ok: bool, t: Tally)
    requires TallyOk(first)
    ensures ok <==> AllValid(valid, kind, records) && Indexable(first.docs + DocumentsOf(titleOf, kind, records))
    ensures ok ==> TallyOk(t) && t.docs == first.docs + DocumentsOf(titleOf, kind, records)
  {
    t := first;
    ok := true;
    var k := 0;
    assert DocumentsOf(titleOf, kind, records[..k]) == [] && first.docs + [] == first.docs;
    while ok && k < |records|
      invariant k <= |records| && (ok ==> ValidUpTo(valid, kind, records, k))
      invariant ok ==> TallyOk(t) && t.docs == first.docs + DocumentsOf(titleOf, kind, records[..k])
      invariant !ok ==> !(AllValid(valid, kind, records) && Indexable(first.docs + DocumentsOf(titleOf, kind, records)))
    {
      ok, t := AddNext(titleOf, valid, kind, records, k, first, t);
      k := k + 1;
    }
    if ok {
      assert records[..k] == records;
      AllUpTo(valid, kind, records);
    }
  }

  lemma {:induction false} AllUpTo(valid: string -> bool, kind: Kind, records: seq<Record>)
    requires ValidUpTo(valid, kind, records, |records|)
    ensures AllValid(valid, kind, records)
  {
    forall i: nat ensures ValidAt(valid, kind, records, i) {
      if i < |records| {
        assert ValidAt(valid, kind, records, i);
      }
    }
  }

  method AddNext(titleOf: (string, nat) -> string, valid: string -> bool, kind: Kind, records: seq<Record>, k: nat,
                 ghost first: Tally, t: Tally)
    returns (ok: bool, next: Tally)
    requires k < |records| && ValidUpTo(valid, kind, records, k)
    requires TallyOk(t) && t.docs == first.docs + DocumentsOf(titleOf, kind, records[..k])
    ensures ok ==> ValidUpTo(valid, kind, records, k + 1)
    ensures ok ==> TallyOk(next) && next.docs == first.docs + DocumentsOf(titleOf, kind, records[..k + 1])
    ensures !ok ==> !(AllValid(valid, kind, records) && Indexable(first.docs + DocumentsOf(titleOf, kind, records)))
  {
    PrefixDocuments(titleOf, kind, records, k, first.docs);
    ok, next := AddRecord(titleOf, valid, kind, k, records[k], t);
    assert AllValid(valid, kind, records) ==> ValidAt(valid, kind, records, k);
  }

  lemma {:induction false} PrefixDocuments(titleOf: (string, nat) -> string, kind: Kind, records: seq<Record>, k: nat, docs0: seq<Document>)
    requires k < |records|
    ensures var now, d := docs0 + DocumentsOf(titleOf, kind, records[..k]), DocumentOf(titleOf, kind, k, records[k]);
            && docs0 + DocumentsOf(titleOf, kind, records[..k + 1]) == now + [d]
            && (Indexable(docs0 + DocumentsOf(titleOf, kind, records)) ==> Indexable(now + [d]))
  {
    assert records[..k + 1][..k] == records[..k];
    DocumentsSplit(titleOf, kind, records, k + 1);
    var now := docs0 + DocumentsOf(titleOf, kind, records[..k + 1]);
    var rest := DocumentsOf(titleOf, kind, records)[k + 1..];
    assert docs0 + DocumentsOf(titleOf, kind, records) == now + rest;
    if Indexable(now + rest) {
      IndexablePrefix(now, rest);
    }
  }

  lemma {:induction false} DocumentsSplit(titleOf: (string, nat) -> string, kind: Kind, records: seq<Record>, k: nat)
    requires k <= |records|
    ensures DocumentsOf(titleOf, kind, records[..k]) == DocumentsOf(titleOf, kind, records)[..k]
    decreases |records|
  {
    if k < |records| {
      var n := |records| - 1;
      DocumentsSplit(titleOf, kind, records[..n], k);
      assert records[..n][..k] == records[..k];
    } else {
      assert records[..k] == records;
    }
  }

  /** _documents: every document in order, exactly for a snapshot within all limits. */
  method Documents(titleOf: (string, nat) -> string, valid: string -> bool, history: seq<Record>, attachments: seq<Record>)
    returns (r: Option<seq<Document>>)
    ensures r.Some? <==>
            && |history| + |attachments| <= 100_000 && |attachments| <= 12
            && AllValid(valid, History, history) && AllValid(valid, Attachment, attachments)
            && Indexable(DocumentsOf(titleOf, History, history) + DocumentsOf(titleOf, Attachment, attachments))
    ensures r.Some? ==> r.value == DocumentsOf(titleOf, History, history) + DocumentsOf(titleOf, Attachment, attachments)
                        && DistinctIds(r.value)
  {
    if |history| + |attachments| > MAX_SOURCES || |attachments| > MAX_ATTACHMENTS {
      return None;
    }
    var first := DocumentsOf(titleOf, History, history);
    var ok, t := AddRecords(titleOf, valid, History, history, Tally([], {}, 0, 0));
    assert [] + first == first;
    if !ok {
      if Indexable(first + DocumentsOf(titleOf, Attachment, attachments)) {
        IndexablePrefix(first, DocumentsOf(titleOf, Attachment, attachments));
      }
      return None;
    }
    ok, t := AddRecords(titleOf, valid, Attachment, attachments, t);
    r := if ok then Some(t.docs) else None;
  }

  /** The document is the record's, with its text whole and its number in the list. */
  predicate Describes(d: Document, kind: Kind, r: Record, i: nat) {
    && d.kind == kind && d.identifier == r.id && d.content == r.text && d.ordinal == i
    && (if kind.History? then d.role == r.role && d.ts == Max0(r.ts) else d.role == "" && d.ts == 0 && d.title == r.name)
  }

  function Max0(n: int): nat {
    if n >= 0 then n else 0
  }

  /** Every record becomes the document in its place. */
  lemma {:induction false} DocumentsDescribe(titleOf: (string, nat) -> string, kind: Kind, records: seq<Record>)
    ensures forall i :: 0 <= i < |records| ==> Describes(DocumentsOf(titleOf, kind, records)[i], kind, records[i], i)
    decreases |records|
  {
    if records != [] {
      DocumentsDescribe(titleOf, kind, records[..|records| - 1]);
    }
  }
}
