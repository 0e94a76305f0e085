/** Draft material (demo/session_context.py): attachment prefixes, the retrieved ranges not shown yet,
    the newest replayed records and the request, within one character budget. */
module DraftMaterial {
  import opened Wrappers

  type Id = nat

  const MATERIAL_CHARS: nat := 240_000
  const NOTE_CHARS: nat := 600
  const INJECT_CHARS: nat := 60_000
  const READ_CHARS: nat := 20_000

  function Min(a: int, b: int): int {
    if a <= b then a else b
  }

  function Max(a: int, b: int): int {
    if a >= b then a else b
  }

  // ---------------------------------------------------------------- intervals

  datatype Span = Span(start: int, end: int)

  predicate At(s: Span, x: int) {
    s.start <= x < s.end
  }

  ghost predicate In(spans: seq<Span>, x: int) {
    exists i :: 0 <= i < |spans| && At(spans[i], x)
  }

  function NonEmptySpan(s: Span): seq<Span> {
    if s.start < s.end then [s] else []
  }

  /** What is left of s beside o: a part before it and a part after it. */
  function Cut(s: Span, o: Span): seq<Span> {
    NonEmptySpan(Span(s.start, Min(o.start, s.end))) + NonEmptySpan(Span(Max(s.start, o.end), s.end))
  }

  function CutAll(spans: seq<Span>, o: Span): seq<Span> {
    if spans == [] then [] else CutAll(spans[..|spans| - 1], o) + Cut(spans[|spans| - 1], o)
  }

  /** spans minus all the occupied ranges, one after the other. */
  function Remaining(spans: seq<Span>, occupied: seq<Span>): seq<Span> {
    if occupied == [] then spans
    else CutAll(Remaining(spans, occupied[..|occupied| - 1]), occupied[|occupied| - 1])
  }

  predicate Apart(a: Span, b: Span) {
    a.start >= a.end || b.start >= b.end || a.end <= b.start || b.end <= a.start
  }

  predicate PairwiseApart(spans: seq<Span>) {
    forall i, j :: 0 <= i < j < |spans| ==> Apart(spans[i], spans[j])
  }

  predicate AllApart(spans: seq<Span>, o: Span) {
    forall i :: 0 <= i < |spans| ==> Apart(spans[i], o)
  }

  predicate Inside(spans: seq<Span>, s: Span) {
    forall i :: 0 <= i < |spans| ==> s.start <= spans[i].start <= spans[i].end <= s.end
  }

  lemma {:induction false} InAppend(a: seq<Span>, b: seq<Span>, x: int)
    ensures In(a + b, x) <==> In(a, x) || In(b, x)
  {
    if In(a, x) {
      var i :| 0 <= i < |a| && At(a[i], x);
      assert At((a + b)[i], x);
    }
    if In(b, x) {
      var i :| 0 <= i < |b| && At(b[i], x);
      assert At((a + b)[|a| + i], x);
    }
  }

  lemma {:induction false} InOne(s: Span, x: int)
    ensures In([s], x) <==> At(s, x)
  {
    assert [s][0] == s;
  }

  lemma {:induction false} InSnoc(spans: seq<Span>, x: int)
    requires spans != []
    ensures In(spans, x) <==> In(spans[..|spans| - 1], x) || At(spans[|spans| - 1], x)
  {
    var front, last := spans[..|spans| - 1], spans[|spans| - 1];
    assert spans == front + [last];
    InAppend(front, [last], x);
    InOne(last, x);
  }

  lemma {:induction false} CutAt(s: Span, o: Span, x: int)
    requires o.start <= o.end
    ensures In(Cut(s, o), x) <==> At(s, x) && !At(o, x)
  {
    var a, b := Span(s.start, Min(o.start, s.end)), Span(Max(s.start, o.end), s.end);
    InAppend(NonEmptySpan(a), NonEmptySpan(b), x);
    if At(a, x) {
      assert NonEmptySpan(a)[0] == a;
    }
    if At(b, x) {
      assert NonEmptySpan(b)[0] == b;
    }
  }

  /** Cutting removes exactly the positions of o. */
  lemma {:induction false} CutAllAt(spans: seq<Span>, o: Span, x: int)
    requires o.start <= o.end
    ensures In(CutAll(spans, o), x) <==> In(spans, x) && !At(o, x)
    decreases |spans|
  {
    if spans != [] {
      var front, last := spans[..|spans| - 1], spans[|spans| - 1];
      CutAllAt(front, o, x);
      CutAt(last, o, x);
      InAppend(CutAll(front, o), Cut(last, o), x);
      InSnoc(spans, x);
    }
  }

  /** The remaining ranges hold exactly the positions that no occupied range holds. */
  lemma {:induction false} RemainingAt(spans: seq<Span>, occupied: seq<Span>, x: int)
    requires Forward(occupied)
    ensures In(Remaining(spans, occupied), x) <==> In(spans, x) && !In(occupied, x)
    decreases |occupied|
  {
    if occupied != [] {
      var front, last := occupied[..|occupied| - 1], occupied[|occupied| - 1];
      RemainingAt(spans, front, x);
      CutAllAt(Remaining(spans, front), last, x);
      InSnoc(occupied, x);
    }
  }

  lemma {:induction false} CutAllFrom(spans: seq<Span>, o: Span, y: Span)
    requires AllApart(spans, y)
    ensures AllApart(CutAll(spans, o), y)
    decreases |spans|
  {
    if spans != [] {
      CutAllFrom(spans[..|spans| - 1], o, y);
    }
  }

  lemma {:induction false} CutAllOff(spans: seq<Span>, o: Span)
    requires o.start <= o.end
    ensures AllApart(CutAll(spans, o), o)
    decreases |spans|
  {
    if spans != [] {
      CutAllOff(spans[..|spans| - 1], o);
    }
  }

  lemma {:induction false} CutAllInside(spans: seq<Span>, o: Span, s: Span)
    requires Inside(spans, s)
    ensures Inside(CutAll(spans, o), s)
    decreases |spans|
  {
    if spans != [] {
      var front, last := spans[..|spans| - 1], spans[|spans| - 1];
      CutAllInside(front, o, s);
      assert Inside(Cut(last, o), s) by { assert s.start <= last.start <= last.end <= s.end; }
    }
  }

  lemma {:induction false} CutAllApart(spans: seq<Span>, o: Span)
    requires o.start <= o.end && PairwiseApart(spans)
    ensures PairwiseApart(CutAll(spans, o))
    decreases |spans|
  {
    if spans != [] {
      var front, last := spans[..|spans| - 1], spans[|spans| - 1];
      CutAllApart(front, o);
      assert AllApart(front, last);
      CutAllFrom(front, o, last);
    }
  }

  predicate Forward(spans: seq<Span>) {
    forall i :: 0 <= i < |spans| ==> spans[i].start <= spans[i].end
  }

  /** What remains of one range lies inside it, in pieces apart from each other. */
  lemma {:induction false} RemainingInside(s: Span, occupied: seq<Span>)
    requires s.start <= s.end && Forward(occupied)
    ensures PairwiseApart(Remaining([s], occupied)) && Inside(Remaining([s], occupied), s)
    decreases |occupied|
  {
    if occupied != [] {
      var front, last := occupied[..|occupied| - 1], occupied[|occupied| - 1];
      RemainingInside(s, front);
      CutAllApart(Remaining([s], front), last);
      CutAllInside(Remaining([s], front), last, s);
    }
  }

  /** And apart from every occupied range. */
  lemma {:induction false} RemainingOff(s: Span, occupied: seq<Span>, i: nat)
    requires Forward(occupied) && i < |occupied|
    ensures AllApart(Remaining([s], occupied), occupied[i])
    decreases |occupied|
  {
    var n := |occupied| - 1;
    var spans := Remaining([s], occupied[..n]);
    if i < n {
      RemainingOff(s, occupied[..n], i);
      CutAllFrom(spans, occupied[n], occupied[i]);
    } else {
      CutAllOff(spans, occupied[n]);
    }
  }

  /** The loop over the occupied ranges. */
  method CutSpans(s: Span, occupied: seq<Span>) returns (spans: seq<Span>)
    ensures spans == Remaining([s], occupied)
  {
    spans := [s];
    for k := 0 to |occupied|
      invariant spans == Remaining([s], occupied[..k])
    {
      assert occupied[..k + 1][..k] == occupied[..k];
      spans := CutAll(spans, occupied[k]);
    }
    assert occupied[..|occupied|] == occupied;
  }

  // ---------------------------------------------------------------- what the material is made of

  /** An upload's description line and its text. */
  datatype Upload = Upload(head: string, text: string)

  /** A retrieved range of a document; only attachments are placed here. */
  datatype Hit = Hit(attachment: bool, id: Id, title: string, start: int, end: int, text: string)

  /** A part of the material, with the document range it shows; a block comes from a hit. */
  datatype Piece = Prefix(id: Id, span: Span, text: string) | Block(id: Id, span: Span, text: string, hit: Hit)

  datatype Omission = Range(title: string, span: Span) | Globals | OlderRecords(n: nat)

  function Digits(n: nat): string {
    var d := ['0', '1', '2', '3', '4', '5', '6', '7', '8', '9'][n % 10];
    if n < 10 then [d] else Digits(n / 10) + [d]
  }

  function Decimal(n: int): string {
    if n < 0 then "-" + Digits(-n) else Digits(n)
  }

  /** read_upload with limit 20000 */
  function Rendered(u: Upload): string {
    u.head + "\n\n" + u.text[..Min(READ_CHARS, |u.text|)]
  }

  /** rendered.find("\n\n") + 2 */
  function BodyStart(s: string): nat {
    if |s| < 2 then 1 else if s[0] == '\n' && s[1] == '\n' then 2
    else
      var rest := BodyStart(s[1..]);
      if rest == 1 then 1 else rest + 1
  }

  /** text[a:b], clipped to the text */
  function Slice(text: string, a: int, b: int): string {
    var lo := Max(0, Min(a, |text|));
    var hi := Max(lo, Min(b, |text|));
    text[lo..hi]
  }

  function BlockText(title: string, span: Span, text: string): string {
    "【所选附件：" + title + " · 字符 " + Decimal(span.start) + "–" + Decimal(span.end) + "】\n" + text
  }

  /** Each part is what it says: the start of an upload's rendering, or a labelled range of its hit. */
  predicate Genuine(p: Piece, uploads: map<Id, Upload>) {
    match p
    case Prefix(id, span, text) =>
      id in uploads && text <= Rendered(uploads[id]) && span == Span(0, |text| - BodyStart(Rendered(uploads[id])))
    case Block(id, span, text, hit) =>
      hit.id == id && text == BlockText(hit.title, span, Slice(hit.text, span.start - hit.start, span.end - hit.start))
  }

  predicate GenuineAt(pieces: seq<Piece>, i: nat, uploads: map<Id, Upload>) {
    i < |pieces| ==> Genuine(pieces[i], uploads)
  }

  ghost predicate AllGenuine(pieces: seq<Piece>, uploads: map<Id, Upload>) {
    forall i: nat :: GenuineAt(pieces, i, uploads)
  }

  lemma {:induction false} GenuineAppend(pieces: seq<Piece>, p: Piece, uploads: map<Id, Upload>)
    requires AllGenuine(pieces, uploads) && Genuine(p, uploads)
    ensures AllGenuine(pieces + [p], uploads)
  {
    forall i: nat ensures GenuineAt(pieces + [p], i, uploads) {
      assert GenuineAt(pieces, i, uploads);
    }
  }

  // ---------------------------------------------------------------- the draft as it grows

  /** parts, used, selected and omitted of draft_material. */
  datatype Draft = Draft(pieces: seq<Piece>, used: nat, occupied: map<Id, seq<Span>>, omitted: seq<Omission>)

  function Texts(pieces: seq<Piece>): (r: seq<string>)
    ensures |r| == |pieces|
  {
    seq(|pieces|, i requires 0 <= i < |pieces| => pieces[i].text)
  }

  /** Characters including the two of the separator, part by part. */
  function Weight(texts: seq<string>): nat {
    if texts == [] then 0 else Weight(texts[..|texts| - 1]) + |texts[|texts| - 1]| + 2
  }

  /** Every piece's range is occupied in its document, and every occupied range is empty or shown. */
  ghost predicate Placed(pieces: seq<Piece>, occupied: map<Id, seq<Span>>) {
    && (forall i :: 0 <= i < |pieces| ==> pieces[i].id in occupied && pieces[i].span in occupied[pieces[i].id])
    && (forall id, x :: id in occupied && In(occupied[id], x) ==> Shown(pieces, id, x))
    && (forall id :: id in occupied ==> Forward(occupied[id]))
  }

  /** Position x of the document is in some piece. */
  ghost predicate Shown(pieces: seq<Piece>, id: Id, x: int)
  {
    exists i :: 0 <= i < |pieces| && pieces[i].id == id && At(pieces[i].span, x)
  }

  /** No two pieces show the same position of a document. */
  ghost predicate PiecesApart(pieces: seq<Piece>)
  {
    forall i, j :: 0 <= i < j < |pieces| && pieces[i].id == pieces[j].id ==>
      Apart(pieces[i].span, pieces[j].span)
  }

  ghost predicate DraftOk(d: Draft) {
    Placed(d.pieces, d.occupied) && PiecesApart(d.pieces)
  }

  function PieceWeight(pieces: seq<Piece>): nat {
    if pieces == [] then 0 else PieceWeight(pieces[..|pieces| - 1]) + |pieces[|pieces| - 1].text| + 2
  }

  /** The characters are counted right, and are at most one separator over the room. */
  predicate Fits(d: Draft, room: nat) {
    d.used == PieceWeight(d.pieces) <= room + 2
  }

  predicate Distinct(ids: seq<Id>) {
    forall i, j :: 0 <= i < j < |ids| ==> ids[i] != ids[j]
  }

  lemma {:induction false} WeightOfTexts(pieces: seq<Piece>)
    ensures Weight(Texts(pieces)) == PieceWeight(pieces)
    decreases |pieces|
  {
    if pieces != [] {
      WeightOfTexts(pieces[..|pieces| - 1]);
      assert Texts(pieces)[..|pieces| - 1] == Texts(pieces[..|pieces| - 1]);
    }
  }

  lemma {:induction false} ShownAppend(pieces: seq<Piece>, p: Piece, id: Id, x: int)
        ensures Shown(pieces, id, x) || (p.id == id && At(p.span, x)) ==> Shown(pieces + [p], id, x)
  {
    var all := pieces + [p];
    assert all[|pieces|] == p;
    if Shown(pieces, id, x) {
      var i :| 0 <= i < |pieces| && pieces[i].id == id && At(pieces[i].span, x);
      assert all[i] == pieces[i];
    }
  }

  // ---------------------------------------------------------------- attachment prefixes

  /** Adding a piece together with its range keeps the draft in order. */
  lemma {:induction false} PlacedMore(d: Draft, p: Piece, ranges: seq<Span>)
    requires Placed(d.pieces, d.occupied)
    requires ranges == (if p.id in d.occupied then d.occupied[p.id] else []) + [p.span]
    requires p.span.start <= p.span.end
    ensures Placed(d.pieces + [p], d.occupied[p.id := ranges])
  {
    var all, occupied, span := d.pieces + [p], d.occupied[p.id := ranges], p.span;
    var before := if p.id in d.occupied then d.occupied[p.id] else [];
    assert ranges[|before|] == span;
    forall i | 0 <= i < |all| ensures all[i].id in occupied && all[i].span in occupied[all[i].id] {
      if i < |d.pieces| && all[i].id == p.id {
        assert d.pieces[i].span in before;
      }
    }
    forall id, x | id in occupied && In(occupied[id], x) ensures Shown(all, id, x) {
      if id == p.id {
        InAppend(before, [span], x);
      }
      ShownAppend(d.pieces, p, id, x);
    }
  }

  lemma {:induction false} PrefixPlaced(d: Draft, p: Piece)
    requires DraftOk(d) && p.Prefix? && p.id !in d.occupied && p.span.start <= p.span.end
    ensures Placed(d.pieces + [p], d.occupied[p.id := [p.span]]) && PiecesApart(d.pieces + [p])
  {
    assert [] + [p.span] == [p.span];
    PlacedMore(d, p, [p.span]);
    var all := d.pieces + [p];
    forall i, j | 0 <= i < j < |all| && all[i].id == all[j].id ensures Apart(all[i].span, all[j].span) {
      assert j < |d.pieces|;
    }
  }

  /** How many characters all prefixes together may take. */
  function PrefixLimit(room: nat): nat {
    Min(INJECT_CHARS, room)
  }

  /** The prefix of one upload beside `used` characters: as much as the limit leaves, if that reaches into
      the body. */
  function PrefixOf(id: Id, u: Upload, used: nat, room: nat): Option<Piece> {
    var rendered := Rendered(u);
    var header := BodyStart(rendered);
    var take := Min(Max(0, PrefixLimit(room) - used), |rendered|);
    if take > header then Some(Prefix(id, Span(0, take - header), rendered[..take])) else None
  }

  function WithPrefix(d: Draft, id: Id, p: Option<Piece>): Draft {
    match p
    case None => d.(occupied := d.occupied[id := [Span(0, 0)]])
    case Some(p) => Draft(d.pieces + [p], d.used + |p.text| + 2, d.occupied[id := [p.span]], d.omitted)
  }

  /** The draft after the prefixes of all selected uploads. */
  function Prefixed(ids: seq<Id>, uploads: map<Id, Upload>, room: nat): Draft
    requires forall i :: 0 <= i < |ids| ==> ids[i] in uploads
  {
    if ids == [] then Draft([], 0, map[], [])
    else
      var d, id := Prefixed(ids[..|ids| - 1], uploads, room), ids[|ids| - 1];
      WithPrefix(d, id, PrefixOf(id, uploads[id], d.used, room))
  }

  /** One attachment: what is left of the limit, with its description line or not at all. */
  method TakePrefix(d: Draft, id: Id, uploads: map<Id, Upload>, room: nat) returns (next: Draft)
    requires id in uploads
    ensures next == WithPrefix(d, id, PrefixOf(id, uploads[id], d.used, room))
  {
    var rendered := Rendered(uploads[id]);
    var header := BodyStart(rendered);
    var take := Min(Max(0, Min(INJECT_CHARS, room) - d.used), |rendered|);
    if take <= header {
      take := 0;
    }
    next := d.(occupied := d.occupied[id := [Span(0, Max(0, take - header))]]);
    if take > 0 {
      next := next.(pieces := d.pieces + [Prefix(id, Span(0, take - header), rendered[..take])], used := d.used + take + 2);
    }
  }

  method TakePrefixes(ids: seq<Id>, uploads: map<Id, Upload>, room: nat) returns (d: Draft)
    requires forall i :: 0 <= i < |ids| ==> ids[i] in uploads
    ensures d == Prefixed(ids, uploads, room)
  {
    d := Draft([], 0, map[], []);
    for k := 0 to |ids|
      invariant d == Prefixed(ids[..k], uploads, room)
    {
      assert ids[..k + 1][..k] == ids[..k];
      d := TakePrefix(d, ids[k], uploads, room);
    }
    assert ids[..|ids|] == ids;
  }

  /** A prefix begins with the rendering, reaches into the body, and stays within the limit. */
  lemma {:induction false} PrefixInside(id: Id, uploads: map<Id, Upload>, used: nat, room: nat)
    requires id in uploads && PrefixOf(id, uploads[id], used, room).Some?
    ensures var p := PrefixOf(id, uploads[id], used, room).value;
            && p.Prefix? && p.id == id && Genuine(p, uploads) && p.span.start == 0 < p.span.end
            && used + |p.text| <= PrefixLimit(room)
  {
    var rendered := Rendered(uploads[id]);
    var p := PrefixOf(id, uploads[id], used, room).value;
    assert p.text <= rendered;
  }

  lemma {:induction false} WithPrefixOk(d: Draft, id: Id, p: Option<Piece>, uploads: map<Id, Upload>, room: nat)
    requires Fits(d, room) && AllGenuine(d.pieces, uploads)
    requires p.Some? ==> p.value.Prefix? && p.value.id == id && Genuine(p.value, uploads) && d.used + |p.value.text| <= room
                         && p.value.span.start <= p.value.span.end
    ensures var next := WithPrefix(d, id, p);
            && Fits(next, room) && AllGenuine(next.pieces, uploads)
            && (id !in d.occupied && DraftOk(d) ==> DraftOk(next))
  {
    if p.Some? {
      var all := d.pieces + [p.value];
      assert all[..|all| - 1] == d.pieces;
      GenuineAppend(d.pieces, p.value, uploads);
      if id !in d.occupied && DraftOk(d) {
        PrefixPlaced(d, p.value);
      }
    }
  }

  lemma {:induction false} PrefixedIds(ids: seq<Id>, uploads: map<Id, Upload>, room: nat)
    requires forall i :: 0 <= i < |ids| ==> ids[i] in uploads
    ensures forall id :: id in Prefixed(ids, uploads, room).occupied ==> id in ids
    decreases |ids|
  {
    if ids != [] {
      PrefixedIds(ids[..|ids| - 1], uploads, room);
    }
  }

  lemma {:induction false} LastIsNew(ids: seq<Id>)
    requires ids != [] && Distinct(ids)
    ensures Distinct(ids[..|ids| - 1]) && ids[|ids| - 1] !in ids[..|ids| - 1]
  {
  }

  /** Counted right, genuine, and apart when no upload is selected twice. */
  lemma {:induction false} PrefixedOk(ids: seq<Id>, uploads: map<Id, Upload>, room: nat)
    requires forall i :: 0 <= i < |ids| ==> ids[i] in uploads
    ensures var d := Prefixed(ids, uploads, room);
            && Fits(d, room) && d.omitted == [] && AllGenuine(d.pieces, uploads)
            && (Distinct(ids) ==> DraftOk(d))
    decreases |ids|
  {
    if ids != [] {
      var front, id := ids[..|ids| - 1], ids[|ids| - 1];
      PrefixedOk(front, uploads, room);
      var d := Prefixed(front, uploads, room);
      var p := PrefixOf(id, uploads[id], d.used, room);
      if p.Some? {
        PrefixInside(id, uploads, d.used, room);
      }
      WithPrefixOk(d, id, p, uploads, room);
      if Distinct(ids) {
        LastIsNew(ids);
        PrefixedIds(front, uploads, room);
      }
    }
  }

  /** The renderings that have a body, in order. */
  function Bodies(ids: seq<Id>, uploads: map<Id, Upload>): seq<string>
    requires forall i :: 0 <= i < |ids| ==> ids[i] in uploads
  {
    if ids == [] then []
    else
      var rendered := Rendered(uploads[ids[|ids| - 1]]);
      Bodies(ids[..|ids| - 1], uploads) + if |rendered| > BodyStart(rendered) then [rendered] else []
  }

  /** The prefixes stay within their limit, and none is a description line without text. */
  lemma {:induction false} PrefixesWithin(ids: seq<Id>, uploads: map<Id, Upload>, room: nat)
    requires forall i :: 0 <= i < |ids| ==> ids[i] in uploads
    ensures var d := Prefixed(ids, uploads, room);
            && d.used <= PrefixLimit(room) + 2
            && forall i :: 0 <= i < |d.pieces| ==> d.pieces[i].Prefix? && d.pieces[i].span.start == 0 < d.pieces[i].span.end
    decreases |ids|
  {
    if ids != [] {
      var front, id := ids[..|ids| - 1], ids[|ids| - 1];
      PrefixesWithin(front, uploads, room);
      var d := Prefixed(front, uploads, room);
      if PrefixOf(id, uploads[id], d.used, room).Some? {
        PrefixInside(id, uploads, d.used, room);
      }
    }
  }

  /** Every upload that has a body is shown whole exactly when all of them fit under the limit together. */
  lemma {:induction false} PrefixesWholeIff(ids: seq<Id>, uploads: map<Id, Upload>, room: nat)
    requires forall i :: 0 <= i < |ids| ==> ids[i] in uploads
    ensures Texts(Prefixed(ids, uploads, room).pieces) == Bodies(ids, uploads) <==> Weight(Bodies(ids, uploads)) <= PrefixLimit(room) + 2
  {
    var d := Prefixed(ids, uploads, room);
    PrefixedOk(ids, uploads, room);
    PrefixesWithin(ids, uploads, room);
    WeightOfTexts(d.pieces);
    if Weight(Bodies(ids, uploads)) <= PrefixLimit(room) + 2 {
      PrefixesWhole(ids, uploads, room);
    }
  }

  lemma {:induction false} PrefixesWhole(ids: seq<Id>, uploads: map<Id, Upload>, room: nat)
    requires forall i :: 0 <= i < |ids| ==> ids[i] in uploads
    requires Weight(Bodies(ids, uploads)) <= PrefixLimit(room) + 2
    ensures var d := Prefixed(ids, uploads, room); Texts(d.pieces) == Bodies(ids, uploads) && d.used == Weight(Bodies(ids, uploads))
    decreases |ids|
  {
    if ids != [] {
      var front, id := ids[..|ids| - 1], ids[|ids| - 1];
      var rendered := Rendered(uploads[id]);
      var bodies := Bodies(front, uploads);
      if |rendered| > BodyStart(rendered) {
        assert Bodies(ids, uploads)[..|bodies|] == bodies;
      } else {
        assert Bodies(ids, uploads) == bodies;
      }
      PrefixesWhole(front, uploads, room);
      var d := Prefixed(front, uploads, room);
      WholeBody(id, uploads[id], d.used, room);
      if |rendered| > BodyStart(rendered) {
        var p := PrefixOf(id, uploads[id], d.used, room).value;
        assert Texts(d.pieces + [p]) == Texts(d.pieces) + [p.text];
      }
    }
  }

  lemma {:induction false} WholeBody(id: Id, u: Upload, used: nat, room: nat)
    requires |Rendered(u)| > BodyStart(Rendered(u)) ==> used + |Rendered(u)| <= PrefixLimit(room)
    ensures PrefixOf(id, u, used, room).Some? <==> |Rendered(u)| > BodyStart(Rendered(u))
    ensures PrefixOf(id, u, used, room).Some? ==> PrefixOf(id, u, used, room).value.text == Rendered(u)
  {
    var rendered := Rendered(u);
    assert rendered[..|rendered|] == rendered;
  }

  // ---------------------------------------------------------------- retrieved ranges

  predicate IsRange(o: Omission, title: string, x: int) {
    o.Range? && o.title == title && At(o.span, x)
  }

  ghost predicate OmittedAt(omitted: seq<Omission>, title: string, x: int) {
    exists i :: 0 <= i < |omitted| && IsRange(omitted[i], title, x)
  }

  ghost predicate Grows(a: Draft, b: Draft) {
    && a.pieces <= b.pieces && a.omitted <= b.omitted && a.used <= b.used
    && forall id :: id in a.occupied ==> id in b.occupied && a.occupied[id] <= b.occupied[id]
  }

  ghost predicate Accounted(d: Draft, id: Id, title: string, x: int) {
    (id in d.occupied && In(d.occupied[id], x)) || OmittedAt(d.omitted, title, x)
  }

  lemma {:induction false} InPrefix(a: seq<Span>, b: seq<Span>, x: int)
    requires a <= b && In(a, x)
    ensures In(b, x)
  {
    var i :| 0 <= i < |a| && At(a[i], x);
    assert b[i] == a[i];
  }

  lemma {:induction false} AccountedGrows(a: Draft, b: Draft, id: Id, title: string, x: int)
    requires Grows(a, b) && Accounted(a, id, title, x)
    ensures Accounted(b, id, title, x)
  {
    if id in a.occupied && In(a.occupied[id], x) {
      InPrefix(a.occupied[id], b.occupied[id], x);
    } else {
      var i :| 0 <= i < |a.omitted| && IsRange(a.omitted[i], title, x);
      assert b.omitted[i] == a.omitted[i];
    }
  }

  lemma {:induction false} GrowsTwice(a: Draft, b: Draft, c: Draft)
    requires Grows(a, b) && Grows(b, c)
    ensures Grows(a, c)
  {
  }

  /** A block that is apart from all that is occupied keeps the pieces apart. */
  lemma {:induction false} BlockPlaced(d: Draft, p: Piece)
    requires DraftOk(d) && p.Block? && p.id in d.occupied && AllApart(d.occupied[p.id], p.span) && p.span.start <= p.span.end
    ensures Placed(d.pieces + [p], d.occupied[p.id := d.occupied[p.id] + [p.span]]) && PiecesApart(d.pieces + [p])
  {
    PlacedMore(d, p, d.occupied[p.id] + [p.span]);
    var all := d.pieces + [p];
    forall i, j | 0 <= i < j < |all| && all[i].id == all[j].id ensures Apart(all[i].span, all[j].span) {
      if j == |d.pieces| {
        assert d.pieces[i].span in d.occupied[p.id];
      }
    }
  }

  /** The labelled block that shows a range of a hit. */
  function BlockOf(hit: Hit, span: Span): Piece {
    Block(hit.id, span, BlockText(hit.title, span, Slice(hit.text, span.start - hit.start, span.end - hit.start)), hit)
  }

  /** One range: left out and named exactly when its block does not fit, otherwise shown. */
  function Emitted(d: Draft, hit: Hit, span: Span, room: nat): Draft
    requires hit.id in d.occupied
  {
    var p := BlockOf(hit, span);
    if d.used + |p.text| > room then d.(omitted := d.omitted + [Range(hit.title, span)])
    else Draft(d.pieces + [p], d.used + |p.text| + 2, d.occupied[hit.id := d.occupied[hit.id] + [span]], d.omitted)
  }

  function EmittedAll(d: Draft, hit: Hit, spans: seq<Span>, room: nat): (r: Draft)
    requires hit.id in d.occupied
    ensures hit.id in r.occupied
  {
    if spans == [] then d
    else Emitted(EmittedAll(d, hit, spans[..|spans| - 1], room), hit, spans[|spans| - 1], room)
  }

  /** What one hit does to the draft: the ranges it adds to what is occupied. */
  function Retrieved(d: Draft, hit: Hit, room: nat): Draft {
    var first := Opened(d, hit.id);
    EmittedAll(first, hit, Remaining([Span(hit.start, hit.end)], first.occupied[hit.id]), room)
  }

  /** The draft after all hits on attachments. */
  function RetrievedAll(d: Draft, sources: seq<Hit>, room: nat): Draft {
    if sources == [] then d
    else
      var before, hit := RetrievedAll(d, sources[..|sources| - 1], room), sources[|sources| - 1];
      if hit.attachment then Retrieved(before, hit, room) else before
  }

  /** One remaining range of a hit: shown whole, or left out and named. */
  method EmitBlock(d: Draft, hit: Hit, span: Span, room: nat) returns (next: Draft)
    requires hit.id in d.occupied
    ensures next == Emitted(d, hit, span, room)
  {
    var block := BlockText(hit.title, span, Slice(hit.text, span.start - hit.start, span.end - hit.start));
    if d.used + |block| > room {
      next := d.(omitted := d.omitted + [Range(hit.title, span)]);
    } else {
      next := Draft(d.pieces + [Block(hit.id, span, block, hit)], d.used + |block| + 2,
                    d.occupied[hit.id := d.occupied[hit.id] + [span]], d.omitted);
    }
  }

  /** Adding a block, or naming its range, keeps the draft in order. */
  lemma {:induction false} EmittedOk(d: Draft, hit: Hit, span: Span, uploads: map<Id, Upload>, room: nat)
    requires Fits(d, room) && hit.id in d.occupied
    ensures var next := Emitted(d, hit, span, room);
            && Fits(next, room) && Grows(d, next) && (AllGenuine(d.pieces, uploads) ==> AllGenuine(next.pieces, uploads))
            && (next.occupied == d.occupied || next.occupied == d.occupied[hit.id := d.occupied[hit.id] + [span]])
            && (forall x :: At(span, x) ==> Accounted(next, hit.id, hit.title, x))
            && (DraftOk(d) && AllApart(d.occupied[hit.id], span) && span.start <= span.end ==> DraftOk(next))
  {
    var p, next := BlockOf(hit, span), Emitted(d, hit, span, room);
    if d.used + |p.text| > room {
      NamedOk(d, hit, span);
    } else {
      ShownOk(d, hit, span, p, uploads, room);
    }
  }

  lemma {:induction false} NamedOk(d: Draft, hit: Hit, span: Span)
    ensures var next := d.(omitted := d.omitted + [Range(hit.title, span)]);
            Grows(d, next) && forall x :: At(span, x) ==> Accounted(next, hit.id, hit.title, x)
  {
    var o := Range(hit.title, span);
    var next := d.(omitted := d.omitted + [o]);
    assert next.omitted[|d.omitted|] == o;
    assert forall x :: At(span, x) ==> IsRange(o, hit.title, x);
  }

  lemma {:induction false} ShownOk(d: Draft, hit: Hit, span: Span, p: Piece, uploads: map<Id, Upload>, room: nat)
    requires Fits(d, room) && hit.id in d.occupied && d.used + |p.text| <= room
    requires p.Block? && p.id == hit.id && p.span == span && Genuine(p, uploads)
    ensures var ranges := d.occupied[hit.id] + [span];
            var next := Draft(d.pieces + [p], d.used + |p.text| + 2, d.occupied[hit.id := ranges], d.omitted);
            && Fits(next, room) && Grows(d, next) && (AllGenuine(d.pieces, uploads) ==> AllGenuine(next.pieces, uploads))
            && (forall x :: At(span, x) ==> Accounted(next, hit.id, hit.title, x))
            && (DraftOk(d) && AllApart(d.occupied[hit.id], span) && span.start <= span.end ==> DraftOk(next))
  {
    var ranges, all := d.occupied[hit.id] + [span], d.pieces + [p];
    assert ranges[|d.occupied[hit.id]|] == span;
    assert all[..|all| - 1] == d.pieces;
    if AllGenuine(d.pieces, uploads) {
      GenuineAppend(d.pieces, p, uploads);
    }
    if DraftOk(d) && AllApart(d.occupied[hit.id], span) && span.start <= span.end {
      BlockPlaced(d, p);
    }
  }

  predicate AllApartFrom(spans: seq<Span>, k: nat, occupied: seq<Span>) {
    forall j :: k <= j < |spans| ==> AllApart(occupied, spans[j])
  }

  lemma {:induction false} RemainingReady(s: Span, occupied: seq<Span>)
    requires Forward(occupied) && s.start <= s.end
    ensures AllApartFrom(Remaining([s], occupied), 0, occupied)
    ensures PairwiseApart(Remaining([s], occupied)) && Forward(Remaining([s], occupied))
  {
    RemainingInside(s, occupied);
    var spans := Remaining([s], occupied);
    forall j | 0 <= j < |spans| ensures AllApart(occupied, spans[j]) {
      forall i | 0 <= i < |occupied| ensures Apart(occupied[i], spans[j]) {
        RemainingOff(s, occupied, i);
        assert Apart(spans[j], occupied[i]);
      }
    }
  }

  lemma {:induction false} NextReady(spans: seq<Span>, k: nat, occupied: seq<Span>, more: seq<Span>)
    requires k < |spans| && AllApartFrom(spans, k, occupied) && PairwiseApart(spans)
    requires more == occupied || more == occupied + [spans[k]]
    ensures AllApartFrom(spans, k + 1, more)
  {
    forall j | k + 1 <= j < |spans| ensures AllApart(more, spans[j]) {
      assert AllApart(occupied, spans[j]) && Apart(spans[k], spans[j]);
    }
  }

  ghost predicate SpansAccounted(d: Draft, hit: Hit, spans: seq<Span>, k: nat)
    requires k <= |spans|
  {
    forall j, x :: 0 <= j < k && At(spans[j], x) ==> Accounted(d, hit.id, hit.title, x)
  }

  lemma {:induction false} SpansAccountedNext(d: Draft, next: Draft, hit: Hit, spans: seq<Span>, k: nat)
    requires k < |spans| && SpansAccounted(d, hit, spans, k) && Grows(d, next)
    requires forall x :: At(spans[k], x) ==> Accounted(next, hit.id, hit.title, x)
    ensures SpansAccounted(next, hit, spans, k + 1)
  {
    forall j, x | 0 <= j < k + 1 && At(spans[j], x) ensures Accounted(next, hit.id, hit.title, x) {
      if j < k {
        AccountedGrows(d, next, hit.id, hit.title, x);
      }
    }
  }

  /** The loop over the remaining ranges. */
  method EmitSpans(d: Draft, hit: Hit, spans: seq<Span>, room: nat) returns (next: Draft)
    requires hit.id in d.occupied
    ensures next == EmittedAll(d, hit, spans, room)
  {
    next := d;
    for k := 0 to |spans|
      invariant hit.id in next.occupied && next == EmittedAll(d, hit, spans[..k], room)
    {
      assert spans[..k + 1][..k] == spans[..k];
      next := EmitBlock(next, hit, spans[k], room);
    }
    assert spans[..|spans|] == spans;
  }

  ghost predicate SpansReady(d: Draft, hit: Hit, spans: seq<Span>)
    requires hit.id in d.occupied
  {
    DraftOk(d) && AllApartFrom(spans, 0, d.occupied[hit.id]) && PairwiseApart(spans) && Forward(spans)
  }

  lemma {:induction false} EmittedAllOk(d: Draft, hit: Hit, spans: seq<Span>, k: nat, uploads: map<Id, Upload>, room: nat)
    requires Fits(d, room) && hit.id in d.occupied && k <= |spans|
    ensures var next := EmittedAll(d, hit, spans[..k], room);
            && Fits(next, room) && Grows(d, next) && (AllGenuine(d.pieces, uploads) ==> AllGenuine(next.pieces, uploads))
            && SpansAccounted(next, hit, spans, k)
            && (SpansReady(d, hit, spans) ==> DraftOk(next) && AllApartFrom(spans, k, next.occupied[hit.id]))
    decreases k
  {
    if k > 0 {
      EmittedAllOk(d, hit, spans, k - 1, uploads, room);
      assert spans[..k][..k - 1] == spans[..k - 1];
      var before, next := EmittedAll(d, hit, spans[..k - 1], room), EmittedAll(d, hit, spans[..k], room);
      assert next == Emitted(before, hit, spans[k - 1], room);
      EmittedOk(before, hit, spans[k - 1], uploads, room);
      GrowsTwice(d, before, next);
      SpansAccountedNext(before, next, hit, spans, k - 1);
      if SpansReady(d, hit, spans) {
        NextReady(spans, k - 1, before.occupied[hit.id], next.occupied[hit.id]);
      }
    }
  }

  /** setdefault(id, []) */
  function Opened(d: Draft, id: Id): Draft {
    if id in d.occupied then d else d.(occupied := d.occupied[id := []])
  }

  lemma {:induction false} OpenedOk(d: Draft, id: Id, room: nat)
    ensures Grows(d, Opened(d, id)) && id in Opened(d, id).occupied
    ensures Fits(d, room) ==> Fits(Opened(d, id), room)
    ensures DraftOk(d) ==> DraftOk(Opened(d, id))
  {
  }

  /** One retrieved range: what is not shown yet is shown or named as left out. */
  method PlaceHit(d: Draft, hit: Hit, room: nat) returns (next: Draft)
    ensures next == Retrieved(d, hit, room)
  {
    var first := Opened(d, hit.id);
    var spans := CutSpans(Span(hit.start, hit.end), first.occupied[hit.id]);
    next := EmitSpans(first, hit, spans, room);
  }

  lemma {:induction false} RetrievedOk(d: Draft, hit: Hit, uploads: map<Id, Upload>, room: nat)
    requires Fits(d, room)
    ensures var next := Retrieved(d, hit, room);
            && Fits(next, room) && Grows(d, next) && (AllGenuine(d.pieces, uploads) ==> AllGenuine(next.pieces, uploads))
            && (DraftOk(d) && hit.start <= hit.end ==> DraftOk(next))
            && (DraftOk(d) ==> HitShownOrNamed(next, hit))
  {
    var first, next := Opened(d, hit.id), Retrieved(d, hit, room);
    OpenedOk(d, hit.id, room);
    var spans := Remaining([Span(hit.start, hit.end)], first.occupied[hit.id]);
    EmittedAllOk(first, hit, spans, |spans|, uploads, room);
    assert spans[..|spans|] == spans;
    GrowsTwice(d, first, next);
    if DraftOk(d) {
      if hit.start <= hit.end {
        RemainingReady(Span(hit.start, hit.end), first.occupied[hit.id]);
      }
      forall x | hit.start <= x < hit.end ensures Accounted(next, hit.id, hit.title, x) {
        HitAccounted(first, next, hit, x);
      }
    }
  }

  ghost predicate HitShownOrNamed(d: Draft, hit: Hit) {
    forall x :: hit.start <= x < hit.end ==> Accounted(d, hit.id, hit.title, x)
  }

  lemma {:induction false} HitAccounted(first: Draft, next: Draft, hit: Hit, x: int)
    requires hit.id in first.occupied && Forward(first.occupied[hit.id]) && Grows(first, next) && hit.start <= x < hit.end
    requires var spans := Remaining([Span(hit.start, hit.end)], first.occupied[hit.id]); SpansAccounted(next, hit, spans, |spans|)
    ensures Accounted(next, hit.id, hit.title, x)
  {
    var s := Span(hit.start, hit.end);
    assert At([s][0], x);
    RemainingAt([s], first.occupied[hit.id], x);
    if In(first.occupied[hit.id], x) {
      InPrefix(first.occupied[hit.id], next.occupied[hit.id], x);
    }
  }

  method PlaceSources(first: Draft, sources: seq<Hit>, room: nat) returns (d: Draft)
    ensures d == RetrievedAll(first, sources, room)
  {
    d := first;
    for k := 0 to |sources|
      invariant d == RetrievedAll(first, sources[..k], room)
    {
      assert sources[..k + 1][..k] == sources[..k];
      if sources[k].attachment {
        d := PlaceHit(d, sources[k], room);
      }
    }
    assert sources[..|sources|] == sources;
  }

  /** After all hits the pieces are apart and every retrieved position is shown or named. */
  lemma {:induction false} RetrievedAllOk(first: Draft, sources: seq<Hit>, k: nat, uploads: map<Id, Upload>, room: nat)
    requires Fits(first, room) && k <= |sources|
    ensures var d := RetrievedAll(first, sources[..k], room);
            && Fits(d, room) && Grows(first, d) && (AllGenuine(first.pieces, uploads) ==> AllGenuine(d.pieces, uploads))
            && (DraftOk(first) && ForwardHits(sources) ==> DraftOk(d) && HitsAccounted(d, sources, k))
    decreases k
  {
    if k > 0 {
      RetrievedAllOk(first, sources, k - 1, uploads, room);
      assert sources[..k][..k - 1] == sources[..k - 1];
      var before, d, hit := RetrievedAll(first, sources[..k - 1], room), RetrievedAll(first, sources[..k], room), sources[k - 1];
      if hit.attachment {
        assert d == Retrieved(before, hit, room);
        RetrievedOk(before, hit, uploads, room);
        GrowsTwice(first, before, d);
        if DraftOk(first) && ForwardHits(sources) {
          HitsAccountedNext(before, d, sources, k - 1);
        }
      }
    }
  }

  predicate ForwardHits(sources: seq<Hit>) {
    forall j :: 0 <= j < |sources| ==> sources[j].start <= sources[j].end
  }

  ghost predicate HitsAccounted(d: Draft, sources: seq<Hit>, k: nat)
    requires k <= |sources|
  {
    forall j :: 0 <= j < k && sources[j].attachment ==> HitShownOrNamed(d, sources[j])
  }

  lemma {:induction false} HitGrows(a: Draft, b: Draft, hit: Hit)
    requires Grows(a, b) && HitShownOrNamed(a, hit)
    ensures HitShownOrNamed(b, hit)
  {
    forall x | hit.start <= x < hit.end ensures Accounted(b, hit.id, hit.title, x) {
      AccountedGrows(a, b, hit.id, hit.title, x);
    }
  }

  lemma {:induction false} HitsAccountedNext(a: Draft, b: Draft, sources: seq<Hit>, k: nat)
    requires k < |sources| && Grows(a, b) && HitsAccounted(a, sources, k) && HitShownOrNamed(b, sources[k])
    ensures HitsAccounted(b, sources, k + 1)
  {
    forall j | 0 <= j < k + 1 && sources[j].attachment ensures HitShownOrNamed(b, sources[j]) {
      if j < k {
        HitGrows(a, b, sources[j]);
      }
    }
  }

  // ---------------------------------------------------------------- what is left out does not fit

  predicate InHit(hit: Hit, span: Span) {
    hit.start <= hit.end ==> hit.start <= span.start <= span.end <= hit.end
  }

  /** A range of this hit was left out: its block does not fit beside `used` characters. */
  predicate TooLong(o: Omission, hit: Hit, used: nat, room: nat) {
    o.Range? && o.title == hit.title && InHit(hit, o.span) && used + |BlockOf(hit, o.span).text| > room
  }

  predicate BlockIn(p: Piece, hit: Hit) {
    InHit(hit, p.span) && p == BlockOf(hit, p.span)
  }

  predicate Attached(sources: seq<Hit>, j: nat) {
    j < |sources| && sources[j].attachment
  }

  ghost predicate TooLongIn(o: Omission, sources: seq<Hit>, used: nat, room: nat) {
    exists j: nat :: Attached(sources, j) && TooLong(o, sources[j], used, room)
  }

  ghost predicate ShowsHit(p: Piece, sources: seq<Hit>) {
    exists j: nat :: Attached(sources, j) && BlockIn(p, sources[j])
  }

  /** Everything b has beyond a is a block of the hit, or a range of it whose block does not fit even now. */
  ghost predicate AddedFrom(a: Draft, b: Draft, hit: Hit, room: nat) {
    && (forall i :: |a.omitted| <= i < |b.omitted| ==> TooLong(b.omitted[i], hit, b.used, room))
    && (forall i :: |a.pieces| <= i < |b.pieces| ==> BlockIn(b.pieces[i], hit))
  }

  lemma {:induction false} RemainingWithin(s: Span, occupied: seq<Span>)
    requires s.start <= s.end
    ensures Inside(Remaining([s], occupied), s)
    decreases |occupied|
  {
    if occupied != [] {
      var front, last := occupied[..|occupied| - 1], occupied[|occupied| - 1];
      RemainingWithin(s, front);
      CutAllInside(Remaining([s], front), last, s);
    }
  }

  lemma {:induction false} EmittedFrom(d: Draft, hit: Hit, span: Span, room: nat)
    requires hit.id in d.occupied && InHit(hit, span)
    ensures var next := Emitted(d, hit, span, room); d.used <= next.used && AddedFrom(d, next, hit, room)
  {
  }

  lemma {:induction false} AddedTwice(a: Draft, b: Draft, c: Draft, hit: Hit, room: nat)
    requires AddedFrom(a, b, hit, room) && AddedFrom(b, c, hit, room) && Grows(a, b) && Grows(b, c)
    ensures AddedFrom(a, c, hit, room)
  {
    forall i | |a.omitted| <= i < |c.omitted| ensures TooLong(c.omitted[i], hit, c.used, room) {
      assert i < |b.omitted| ==> c.omitted[i] == b.omitted[i];
    }
    forall i | |a.pieces| <= i < |c.pieces| ensures BlockIn(c.pieces[i], hit) {
      assert i < |b.pieces| ==> c.pieces[i] == b.pieces[i];
    }
  }

  lemma {:induction false} EmittedAllFrom(d: Draft, hit: Hit, spans: seq<Span>, k: nat, room: nat)
    requires Fits(d, room) && hit.id in d.occupied && k <= |spans| && forall j :: 0 <= j < |spans| ==> InHit(hit, spans[j])
    ensures AddedFrom(d, EmittedAll(d, hit, spans[..k], room), hit, room)
    decreases k
  {
    if k > 0 {
      EmittedAllFrom(d, hit, spans, k - 1, room);
      assert spans[..k][..k - 1] == spans[..k - 1];
      var before, next := EmittedAll(d, hit, spans[..k - 1], room), EmittedAll(d, hit, spans[..k], room);
      assert next == Emitted(before, hit, spans[k - 1], room);
      EmittedAllOk(d, hit, spans, k - 1, map[], room);
      EmittedOk(before, hit, spans[k - 1], map[], room);
      EmittedFrom(before, hit, spans[k - 1], room);
      AddedTwice(d, before, next, hit, room);
    }
  }

  lemma {:induction false} RetrievedFrom(d: Draft, hit: Hit, room: nat)
    requires Fits(d, room)
    ensures AddedFrom(d, Retrieved(d, hit, room), hit, room)
  {
    var first, s := Opened(d, hit.id), Span(hit.start, hit.end);
    OpenedOk(d, hit.id, room);
    var spans := Remaining([s], first.occupied[hit.id]);
    if hit.start <= hit.end {
      RemainingWithin(s, first.occupied[hit.id]);
    }
    EmittedAllFrom(first, hit, spans, |spans|, room);
    assert spans[..|spans|] == spans;
  }

  /** Retrieval leaves a range out only if its block does not fit, not even beside all that is shown in the
      end; and it adds nothing but blocks of the hits on attachments. */
  ghost predicate OnlyTooLong(first: Draft, omitted: seq<Omission>, pieces: seq<Piece>, used: nat, sources: seq<Hit>, room: nat) {
    && (forall i :: |first.omitted| <= i < |omitted| ==> TooLongIn(omitted[i], sources, used, room))
    && (forall i :: |first.pieces| <= i < |pieces| ==> ShowsHit(pieces[i], sources))
  }

  lemma {:induction false} LeftOutTooLong(first: Draft, sources: seq<Hit>, k: nat, room: nat)
    requires Fits(first, room) && k <= |sources|
    ensures var d := RetrievedAll(first, sources[..k], room); OnlyTooLong(first, d.omitted, d.pieces, d.used, sources, room)
    decreases k
  {
    if k > 0 {
      LeftOutTooLong(first, sources, k - 1, room);
      assert sources[..k][..k - 1] == sources[..k - 1];
      var before, d, hit := RetrievedAll(first, sources[..k - 1], room), RetrievedAll(first, sources[..k], room), sources[k - 1];
      if hit.attachment {
        assert d == Retrieved(before, hit, room);
        RetrievedAllOk(first, sources, k - 1, map[], room);
        RetrievedOk(before, hit, map[], room);
        RetrievedFrom(before, hit, room);
        OnlyTooLongNext(first, before, d, sources, k - 1, room);
      }
    }
  }

  lemma {:induction false} OnlyTooLongNext(first: Draft, before: Draft, d: Draft, sources: seq<Hit>, k: nat, room: nat)
    requires OnlyTooLong(first, before.omitted, before.pieces, before.used, sources, room)
    requires Attached(sources, k) && Grows(before, d) && AddedFrom(before, d, sources[k], room)
    ensures OnlyTooLong(first, d.omitted, d.pieces, d.used, sources, room)
  {
    forall i | |first.omitted| <= i < |d.omitted| ensures TooLongIn(d.omitted[i], sources, d.used, room) {
      if i < |before.omitted| {
        assert d.omitted[i] == before.omitted[i] && TooLongIn(before.omitted[i], sources, before.used, room);
        var j: nat :| Attached(sources, j) && TooLong(before.omitted[i], sources[j], before.used, room);
        assert TooLong(d.omitted[i], sources[j], d.used, room);
      } else {
        assert TooLong(d.omitted[i], sources[k], d.used, room);
      }
    }
    forall i | |first.pieces| <= i < |d.pieces| ensures ShowsHit(d.pieces[i], sources) {
      if i < |before.pieces| {
        assert d.pieces[i] == before.pieces[i];
      } else {
        assert BlockIn(d.pieces[i], sources[k]);
      }
    }
  }

  /** The attachment half of the material. */
  function Gathered(ids: seq<Id>, uploads: map<Id, Upload>, sources: seq<Hit>, room: nat): Draft
    requires forall i :: 0 <= i < |ids| ==> ids[i] in uploads
  {
    RetrievedAll(Prefixed(ids, uploads, room), sources, room)
  }

  lemma {:induction false} GatheredOk(ids: seq<Id>, uploads: map<Id, Upload>, sources: seq<Hit>, room: nat)
    requires forall i :: 0 <= i < |ids| ==> ids[i] in uploads
    ensures var first, d := Prefixed(ids, uploads, room), Gathered(ids, uploads, sources, room);
            && Fits(d, room) && AllGenuine(d.pieces, uploads) && first.pieces <= d.pieces
            && (Distinct(ids) && ForwardHits(sources) ==> DraftOk(d) && HitsAccounted(d, sources, |sources|))
            && OnlyTooLong(first, d.omitted, d.pieces, d.used, sources, room) && first.omitted == []
  {
    var first := Prefixed(ids, uploads, room);
    PrefixedOk(ids, uploads, room);
    assert sources[..|sources|] == sources;
    RetrievedAllOk(first, sources, |sources|, uploads, room);
    LeftOutTooLong(first, sources, |sources|, room);
  }

  // ---------------------------------------------------------------- records, note and text

  lemma {:induction false} WeightAppend(a: seq<string>, b: seq<string>)
    ensures Weight(a + b) == Weight(a) + Weight(b)
    decreases |b|
  {
    if b == [] {
      assert a + b == a;
    } else {
      WeightAppend(a, b[..|b| - 1]);
      assert (a + b)[..|a + b| - 1] == a + b[..|b| - 1];
    }
  }

  /** The newest records that fit, without a gap. */
  method KeepRecords(records: seq<string>, used0: nat, room: nat) returns (keep: nat, used: nat)
    requires used0 <= room + 2
    ensures keep <= |records| && used == used0 + Weight(records[keep..]) && used <= room + 2
    ensures keep > 0 ==> used + |records[keep - 1]| > room
  {
    keep, used := |records|, used0;
    while keep > 0 && used + |records[keep - 1]| <= room
      invariant keep <= |records| && used == used0 + Weight(records[keep..]) && used <= room + 2
    {
      keep := keep - 1;
      assert records[keep..] == [records[keep]] + records[keep + 1..];
      WeightAppend([records[keep]], records[keep + 1..]);
      used := used + |records[keep]| + 2;
    }
  }

  function Joined(texts: seq<string>, mark: string): string {
    if texts == [] then ""
    else if |texts| == 1 then texts[0]
    else Joined(texts[..|texts| - 1], mark) + mark + texts[|texts| - 1]
  }

  const FRAME := "【本轮资料超出 240000 字预算，未加入："

  function More(n: nat): string {
    " 等 " + Digits(n) + " 项"
  }

  function OmissionText(o: Omission): string {
    match o
    case Range(title, span) => title + " 字符 " + Decimal(span.start) + "–" + Decimal(span.end)
    case Globals => "此前用户全局字段"
    case OlderRecords(n) => "较早的此前用户资料 " + Digits(n) + " 条"
  }

  const MARK := "、"
  const CLOSE := "】"

  /** The note lists the first items, six at most, while they fit beside its frame. */
  ghost predicate Lists(frame: string, mark: string, close: string, items: seq<string>, more: string, note: string, shown: seq<string>) {
    var limit := NOTE_CHARS - |frame| - |more| - 1;
    && |shown| <= Min(6, |items|) && shown == items[..|shown|]
    && note == frame + Joined(shown, mark) + (if |shown| < |items| then more else "") + close
    && (shown != [] ==> |Joined(shown, mark)| <= limit)
    && (|shown| < Min(6, |items|) ==> |Joined(items[..|shown| + 1], mark)| > limit)
  }

  method FillNote(frame: string, mark: string, close: string, items: seq<string>, more: string) returns (note: string, shown: seq<string>)
    ensures Lists(frame, mark, close, items, more, note, shown)
  {
    var limit := NOTE_CHARS - |frame| - |more| - 1;
    shown := [];
    while |shown| < Min(6, |items|)
      invariant |shown| <= Min(6, |items|) && shown == items[..|shown|]
      invariant shown != [] ==> |Joined(shown, mark)| <= limit
    {
      var item := items[|shown|];
      assert shown + [item] == items[..|shown| + 1];
      if |Joined(shown + [item], mark)| > limit {
        break;
      }
      shown := shown + [item];
    }
    note := frame + Joined(shown, mark) + (if |shown| < |items| then more else "") + close;
  }

  function Items(omitted: seq<Omission>, plain: string -> string): seq<string> {
    seq(|omitted|, i requires 0 <= i < |omitted| => plain(OmissionText(omitted[i])))
  }

  ghost predicate NoteOk(omitted: seq<Omission>, plain: string -> string, note: string, shown: seq<string>) {
    Lists(FRAME, MARK, CLOSE, Items(omitted, plain), More(|omitted|), note, shown)
  }

  /** _omission_note; `plain` takes separators and line breaks out of an item. */
  method OmissionNote(omitted: seq<Omission>, plain: string -> string) returns (note: string, shown: seq<string>)
    ensures omitted == [] ==> note == ""
    ensures omitted != [] ==> NoteOk(omitted, plain, note, shown)
  {
    if omitted == [] {
      return "", [];
    }
    note, shown := FillNote(FRAME, MARK, CLOSE, Items(omitted, plain), More(|omitted|));
  }

  lemma {:induction false} ListsFits(frame: string, mark: string, close: string, items: seq<string>, more: string, note: string, shown: seq<string>)
    requires Lists(frame, mark, close, items, more, note, shown) && |close| == 1 && |frame| + |more| + 1 <= NOTE_CHARS
    ensures 0 < |note| <= NOTE_CHARS
  {
    assert shown == [] ==> |Joined(shown, mark)| == 0;
  }

  /** 600 characters are enough for the note unless the count alone has hundreds of digits. */
  lemma {:induction false} NoteFits(omitted: seq<Omission>, plain: string -> string, note: string, shown: seq<string>)
    requires NoteOk(omitted, plain, note, shown) && |Digits(|omitted|)| <= 571
    ensures 0 < |note| <= NOTE_CHARS
  {
    assert |FRAME| == 23 && |More(|omitted|)| == 5 + |Digits(|omitted|)|;
    ListsFits(FRAME, MARK, CLOSE, Items(omitted, plain), More(|omitted|), note, shown);
  }

  function NonBlank(texts: seq<string>): seq<string> {
    if texts == [] then []
    else NonBlank(texts[..|texts| - 1]) + if texts[|texts| - 1] == "" then [] else [texts[|texts| - 1]]
  }

  lemma {:induction false} NonBlankWeight(texts: seq<string>)
    ensures Weight(NonBlank(texts)) <= Weight(texts)
    decreases |texts|
  {
    if texts != [] {
      NonBlankWeight(texts[..|texts| - 1]);
      if texts[|texts| - 1] != "" {
        WeightAppend(NonBlank(texts[..|texts| - 1]), [texts[|texts| - 1]]);
      } else {
        assert NonBlank(texts) == NonBlank(texts[..|texts| - 1]);
      }
    }
  }

  /** Joining with two characters between parts costs what Weight counts, less the last separator. */
  lemma {:induction false} JoinedLength(texts: seq<string>)
    requires texts != []
    ensures |Joined(texts, "\n\n")| == Weight(texts) - 2
    decreases |texts|
  {
    if |texts| == 1 {
      assert texts[..0] == [];
    } else {
      JoinedLength(texts[..|texts| - 1]);
    }
  }

  lemma {:induction false} NonBlankAppend(a: seq<string>, b: seq<string>)
    ensures NonBlank(a + b) == NonBlank(a) + NonBlank(b)
    decreases |b|
  {
    if b == [] {
      assert a + b == a;
    } else {
      NonBlankAppend(a, b[..|b| - 1]);
      assert (a + b)[..|a + b| - 1] == a + b[..|b| - 1];
    }
  }

  // ---------------------------------------------------------------- the whole

  /** The draft material and what it consists of. */
  datatype Material = Material(text: string, omitted: seq<Omission>, pieces: seq<Piece>, head: string, keep: nat, note: string)

  const SEPARATOR := "\n\n"

  function Sections(m: Material, records: seq<string>, request: string): seq<string>
    requires m.keep <= |records|
  {
    [m.head] + records[m.keep..] + Texts(m.pieces) + [m.note] + [request]
  }

  function Room(request: string): nat {
    Max(0, MATERIAL_CHARS - NOTE_CHARS - |request| - 4)
  }

  /** What the parts other than note and request take up. */
  function Spent(m: Material, records: seq<string>): nat
    requires m.keep <= |records|
  {
    (if m.head == "" then 0 else |m.head| + 2) + Weight(records[m.keep..]) + Weight(Texts(m.pieces))
  }

  /** The text is its sections; the global block is whole or too long; the records are a suffix that
      cannot be longer. */
  ghost predicate Made(m: Material, head: string, records: seq<string>, request: string, mark: string) {
    && m.keep <= |records|
    && m.text == Joined(NonBlank(Sections(m, records, request)), mark)
    && (m.head == head || (m.head == "" && Weight(Texts(m.pieces)) + |head| > Room(request)))
    && Spent(m, records) <= Room(request) + 2
    && (m.keep > 0 ==> Spent(m, records) + |records[m.keep - 1]| > Room(request))
  }

  /** Every retrieved position of an attachment is in a piece or in a range named as left out. */
  ghost predicate AllShownOrNamed(m: Material, sources: seq<Hit>)
  {
    forall j, x :: 0 <= j < |sources| && sources[j].attachment && sources[j].start <= x < sources[j].end ==>
      Shown(m.pieces, sources[j].id, x) || OmittedAt(m.omitted, sources[j].title, x)
  }

  lemma {:induction false} ShownOrNamed(d: Draft, m: Material, sources: seq<Hit>)
    requires DraftOk(d) && HitsAccounted(d, sources, |sources|) && m.pieces == d.pieces && d.omitted <= m.omitted
    ensures AllShownOrNamed(m, sources)
  {
    forall j, x | 0 <= j < |sources| && sources[j].attachment && sources[j].start <= x < sources[j].end
      ensures Shown(m.pieces, sources[j].id, x) || OmittedAt(m.omitted, sources[j].title, x)
    {
      var hit := sources[j];
      assert HitShownOrNamed(d, hit);
      AccountedGrows(d, d.(omitted := m.omitted), hit.id, hit.title, x);
    }
  }

  /** What the global block and the records leave out. */
  function Rest(head: string, head0: string, keep: nat): seq<Omission> {
    (if head != head0 then [Globals] else []) + if keep > 0 then [OlderRecords(keep)] else []
  }

  /** The global block and the records. */
  method FillRest(d: Draft, head0: string, records: seq<string>, room: nat) returns (head: string, keep: nat, omitted: seq<Omission>)
    requires Fits(d, room)
    ensures keep <= |records| && omitted == d.omitted + Rest(head, head0, keep)
    ensures head == head0 || (head == "" && d.used + |head0| > room)
    ensures var used := (if head == "" then 0 else |head| + 2) + Weight(records[keep..]) + d.used;
            used <= room + 2 && (keep > 0 ==> used + |records[keep - 1]| > room)
  {
    head, omitted := head0, d.omitted;
    var used := d.used;
    if head != "" && used + |head| > room {
      head := "";
      omitted := omitted + [Globals];
    }
    if head != "" {
      used := used + |head| + 2;
    }
    keep, used := KeepRecords(records, used, room);
    if keep > 0 {
      omitted := omitted + [OlderRecords(keep)];
    }
  }

  /** The end of draft_material: global block, records, note. */
  method Finish(d: Draft, head0: string, records: seq<string>, request: string, plain: string -> string, mark: string)
    returns (m: Material, shown: seq<string>)
    requires Fits(d, Room(request))
    ensures Made(m, head0, records, request, mark)
    ensures m.pieces == d.pieces && m.omitted == d.omitted + Rest(m.head, head0, m.keep)
    ensures if m.omitted == [] then m.note == "" else NoteOk(m.omitted, plain, m.note, shown)
  {
    var head, keep, omitted := FillRest(d, head0, records, Room(request));
    var note;
    note, shown := OmissionNote(omitted, plain);
    var sections := [head] + records[keep..] + Texts(d.pieces) + [note] + [request];
    m := Material(Joined(NonBlank(sections), mark), omitted, d.pieces, head, keep, note);
    WeightOfTexts(d.pieces);
  }

  /** Of the attachments: the prefixes first, then blocks of the hits and nothing else; a range is left out only
      if its block does not fit beside all that is shown. What is left out is named, in this order. */
  ghost predicate Attachments(m: Material, ids: seq<Id>, uploads: map<Id, Upload>, sources: seq<Hit>, head: string, room: nat)
    requires forall i :: 0 <= i < |ids| ==> ids[i] in uploads
  {
    var first, d := Prefixed(ids, uploads, room), Gathered(ids, uploads, sources, room);
    && m.pieces == d.pieces && first.pieces <= m.pieces
    && m.omitted == d.omitted + Rest(m.head, head, m.keep)
    && first.omitted == [] && OnlyTooLong(first, d.omitted, m.pieces, Weight(Texts(m.pieces)), sources, room)
  }

  /** draft_material, up to the final strip; nothing without every selected upload. */
  method Compose(ids: seq<Id>, uploads: map<Id, Upload>, sources: seq<Hit>, head: string, records: seq<string>, request: string,
                plain: string -> string)
    returns (r: Option<Material>, shown: seq<string>)
    ensures r.None? <==> exists i :: 0 <= i < |ids| && ids[i] !in uploads
    ensures r.Some? ==> Made(r.value, head, records, request, SEPARATOR)
    ensures r.Some? ==> Attachments(r.value, ids, uploads, sources, head, Room(request))
    ensures r.Some? ==> AllGenuine(r.value.pieces, uploads)
    ensures r.Some? && Distinct(ids) && ForwardHits(sources) ==>
              PiecesApart(r.value.pieces) && AllShownOrNamed(r.value, sources)
    ensures r.Some? ==> if r.value.omitted == [] then r.value.note == "" else NoteOk(r.value.omitted, plain, r.value.note, shown)
  {
    for k := 0 to |ids|
      invariant forall i :: 0 <= i < k ==> ids[i] in uploads
    {
      if ids[k] !in uploads {
        return None, [];
      }
    }
    var room := Room(request);
    var d := TakePrefixes(ids, uploads, room);
    d := PlaceSources(d, sources, room);
    GatheredOk(ids, uploads, sources, room);
    var m;
    m, shown := Finish(d, head, records, request, plain, SEPARATOR);
    WeightOfTexts(d.pieces);
    if Distinct(ids) && ForwardHits(sources) {
      ShownOrNamed(d, m, sources);
    }
    r := Some(m);
  }

  lemma {:induction false} SectionsWeight(m: Material, records: seq<string>, request: string)
    requires m.keep <= |records| && request != ""
    ensures Weight(NonBlank(Sections(m, records, request))) <=
            Spent(m, records) + (if m.note == "" then 0 else |m.note| + 2) + |request| + 2
    ensures NonBlank(Sections(m, records, request)) != []
  {
    var a, b, c, d, e := [m.head], records[m.keep..], Texts(m.pieces), [m.note], [request];
    NonBlankAppend(a, b);
    NonBlankAppend(a + b, c);
    NonBlankAppend(a + b + c, d);
    NonBlankAppend(a + b + c + d, e);
    WeightAppend(NonBlank(a), NonBlank(b));
    WeightAppend(NonBlank(a) + NonBlank(b), NonBlank(c));
    WeightAppend(NonBlank(a) + NonBlank(b) + NonBlank(c), NonBlank(d));
    WeightAppend(NonBlank(a) + NonBlank(b) + NonBlank(c) + NonBlank(d), NonBlank(e));
    NonBlankWeight(b);
    NonBlankWeight(c);
    OneWeight(m.head);
    OneWeight(m.note);
    OneWeight(request);
  }

  lemma {:induction false} OneWeight(text: string)
    ensures Weight(NonBlank([text])) == if text == "" then 0 else |text| + 2
    ensures text != "" ==> NonBlank([text]) == [text]
  {
    assert [text][..0] == [];
  }

  /** The whole material stays within its budget for every request the budget leaves room for. */
  lemma {:induction false} WithinBudget(m: Material, head: string, records: seq<string>, request: string,
                                        plain: string -> string, shown: seq<string>)
    requires Made(m, head, records, request, SEPARATOR) && request != ""
    requires if m.omitted == [] then m.note == "" else NoteOk(m.omitted, plain, m.note, shown)
    requires |Digits(|m.omitted|)| <= 571
    ensures |request| <= MATERIAL_CHARS - NOTE_CHARS - 4 ==> |m.text| <= MATERIAL_CHARS
    ensures |m.text| <= Max(MATERIAL_CHARS, |request| + NOTE_CHARS + 4)
  {
    if m.omitted != [] {
      NoteFits(m.omitted, plain, m.note, shown);
    }
    SectionsWeight(m, records, request);
    JoinedLength(NonBlank(Sections(m, records, request)));
  }

  // ---------------------------------------------------------------- neither constant can be smaller

  function Filler(n: nat): string {
    seq(n, _ => 'x')
  }

  function RangeTail(end: nat): string {
    " 字符 " + Decimal(0) + "–" + Decimal(end)
  }

  /** A hit with one character more than there is room for; its range is named with n characters. */
  function LongHit(id: Id, n: nat, room: nat): Hit {
    Hit(true, id, Filler(Max(0, n - |RangeTail(room + 1)|)), 0, room + 1, Filler(room + 1))
  }

  /** Three such hits: the first two fill the note, the third is only counted. */
  function LongHits(room: nat): seq<Hit> {
    [LongHit(0, 285, room), LongHit(1, 284, room), LongHit(2, 284, room)]
  }

  function LongRange(hit: Hit): Omission {
    Range(hit.title, Span(hit.start, hit.end))
  }

  lemma {:induction false} TailShort(end: nat)
    requires end <= MATERIAL_CHARS
    ensures |RangeTail(end)| <= 12
  {
    if end >= 10 { DigitsStep(end); }
    if end >= 100 { DigitsStep(end / 10); }
    if end >= 1000 { DigitsStep(end / 100); }
    if end >= 10000 { DigitsStep(end / 1000); }
    if end >= 100000 { DigitsStep(end / 10000); }
  }

  lemma {:induction false} DigitsStep(n: nat)
    requires n >= 10
    ensures |Digits(n)| == |Digits(n / 10)| + 1
  {
  }

  /** A hit that is too long for an empty draft is left out whole. */
  lemma {:induction false} LongLeftOut(d: Draft, hit: Hit, room: nat)
    requires hit.id !in d.occupied && hit.start == 0 && hit.end == |hit.text| == room + 1
    ensures Retrieved(d, hit, room) == d.(occupied := d.occupied[hit.id := []], omitted := d.omitted + [LongRange(hit)])
  {
    var first, s := Opened(d, hit.id), Span(0, room + 1);
    assert Remaining([s], first.occupied[hit.id]) == [s];
    assert Slice(hit.text, 0, room + 1) == hit.text;
    assert |BlockOf(hit, s).text| > room;
    assert [s][..0] == [];
    assert EmittedAll(first, hit, [], room) == first;
    assert EmittedAll(first, hit, [s], room) == Emitted(first, hit, s, room);
  }

  lemma {:induction false} AllLongLeftOut(room: nat)
    ensures var hits := LongHits(room);
            var d := Gathered([], map[], hits, room);
            d.pieces == [] && d.omitted == [LongRange(hits[0]), LongRange(hits[1]), LongRange(hits[2])]
  {
    var hits, d0 := LongHits(room), Draft([], 0, map[], []);
    assert hits[..2][..1] == hits[..1] && hits[..1][..0] == [];
    LongLeftOut(d0, hits[0], room);
    var d1 := Retrieved(d0, hits[0], room);
    assert RetrievedAll(d0, hits[..1][..0], room) == d0;
    assert RetrievedAll(d0, hits[..1], room) == d1;
    LongLeftOut(d1, hits[1], room);
    var d2 := Retrieved(d1, hits[1], room);
    assert RetrievedAll(d0, hits[..2], room) == d2;
    LongLeftOut(d2, hits[2], room);
    assert RetrievedAll(d0, hits, room) == Retrieved(d2, hits[2], room);
  }

  /** Two items that take all the room there is, and a third that is only counted, make a full note. */
  lemma {:induction false} NoteIsFull(frame: string, mark: string, close: string, items: seq<string>, more: string, note: string,
                                      shown: seq<string>)
    requires Lists(frame, mark, close, items, more, note, shown) && |close| == 1 && |mark| == 1 && |items| >= 3
    requires |items[0]| + 1 + |items[1]| == NOTE_CHARS - |frame| - |more| - 1
    ensures |note| == NOTE_CHARS
  {
    assert items[..1] == [items[0]] && items[..2] == [items[0], items[1]] && items[..2][..1] == [items[0]];
    if |shown| >= 3 {
      assert shown[..3] == items[..3] && items[..3][..2] == items[..2];
      assert |Joined(items[..3], mark)| > |Joined(items[..2], mark)|;
      JoinedMonotone(shown, mark, 3);
    }
  }

  lemma {:induction false} JoinedMonotone(texts: seq<string>, mark: string, k: nat)
    requires 1 <= k <= |texts|
    ensures |Joined(texts[..k], mark)| <= |Joined(texts, mark)|
    decreases |texts|
  {
    if k == |texts| {
      assert texts[..k] == texts;
    } else {
      JoinedMonotone(texts[..|texts| - 1], mark, k);
      assert texts[..|texts| - 1][..k] == texts[..k];
    }
  }

  /** A record, a note and the request, nothing else. */
  lemma {:induction false} ThreeSections(record: string, note: string, request: string)
    requires record != "" && note != "" && request != ""
    ensures |Joined(NonBlank([""] + [record] + [] + [note] + [request]), SEPARATOR)| == |record| + |note| + |request| + 4
  {
    var all, sections := [record, note, request], ["", record, note, request];
    assert [""] + [record] + [] + [note] + [request] == sections;
    assert sections[..3] == ["", record, note] && ["", record, note][..2] == ["", record]
           && ["", record][..1] == [""] && [""][..0] == [];
    assert NonBlank([""]) == [];
    assert NonBlank(["", record]) == [record];
    assert NonBlank(["", record, note]) == [record, note];
    assert NonBlank(sections) == all;
    JoinedLength(all);
    assert all[..2] == [record, note] && [record, note][..1] == [record] && [record][..0] == [];
    assert Weight([record]) == |record| + 2;
    assert Weight([record, note]) == |record| + |note| + 4;
  }

  /** The items of the long hits, as the note's clean-up leaves them. */
  ghost predicate LeavesItems(plain: string -> string, hits: seq<Hit>) {
    forall j :: 0 <= j < |hits| ==> plain(OmissionText(LongRange(hits[j]))) == OmissionText(LongRange(hits[j]))
  }

  lemma {:induction false} LongItem(id: Id, n: nat, room: nat, plain: string -> string)
    requires room < MATERIAL_CHARS && n >= 12
    requires var text := OmissionText(LongRange(LongHit(id, n, room))); plain(text) == text
    ensures |plain(OmissionText(LongRange(LongHit(id, n, room))))| == n
  {
    TailShort(room + 1);
    var title := Filler(n - |RangeTail(room + 1)|);
    assert OmissionText(LongRange(LongHit(id, n, room))) == title + RangeTail(room + 1);
  }

  /** For every request with room there is a call whose material has exactly MATERIAL_CHARS characters: a record
      that takes all the room, and hits that fill the note. With less than 600 for the note or 4 for the
      separators it would not fit. */
  lemma {:induction false} BudgetIsTight(request: string, plain: string -> string, m: Material, shown: seq<string>)
    requires request != "" && |request| < MATERIAL_CHARS - NOTE_CHARS - 4
    requires LeavesItems(plain, LongHits(Room(request)))
    requires Made(m, "", [Filler(Room(request))], request, SEPARATOR)
    requires Attachments(m, [], map[], LongHits(Room(request)), "", Room(request))
    requires if m.omitted == [] then m.note == "" else NoteOk(m.omitted, plain, m.note, shown)
    ensures |m.note| == NOTE_CHARS && |m.text| == MATERIAL_CHARS
  {
    var room, hits, records := Room(request), LongHits(Room(request)), [Filler(Room(request))];
    AllLongLeftOut(room);
    assert Texts(m.pieces) == [] && records[1..] == [] && records[0..] == records;
    assert m.keep == 0 && m.head == "";
    assert m.omitted == [LongRange(hits[0]), LongRange(hits[1]), LongRange(hits[2])];
    FullNote(m.omitted, room, plain, m.note, shown);
    ThreeSections(records[0], m.note, request);
  }

  lemma {:induction false} FullNote(omitted: seq<Omission>, room: nat, plain: string -> string, note: string, shown: seq<string>)
    requires room < MATERIAL_CHARS && LeavesItems(plain, LongHits(room)) && NoteOk(omitted, plain, note, shown)
    requires var hits := LongHits(room); omitted == [LongRange(hits[0]), LongRange(hits[1]), LongRange(hits[2])]
    ensures |note| == NOTE_CHARS
  {
    var hits, items := LongHits(room), Items(omitted, plain);
    assert plain(OmissionText(LongRange(hits[0]))) == OmissionText(LongRange(hits[0]));
    assert plain(OmissionText(LongRange(hits[1]))) == OmissionText(LongRange(hits[1]));
    LongItem(0, 285, room, plain);
    LongItem(1, 284, room, plain);
    assert |items| == 3 && |items[0]| == 285 && |items[1]| == 284;
    assert |FRAME| == 23 && |More(3)| == 6;
    NoteIsFull(FRAME, MARK, CLOSE, items, More(3), note, shown);
  }

  /** Such a call. */
  method FullMaterial(request: string, plain: string -> string) returns (m: Material)
    requires request != "" && |request| < MATERIAL_CHARS - NOTE_CHARS - 4
    requires LeavesItems(plain, LongHits(Room(request)))
    ensures |m.note| == NOTE_CHARS && |m.text| == MATERIAL_CHARS
  {
    var r, shown := Compose([], map[], LongHits(Room(request)), "", [Filler(Room(request))], request, plain);
    m := r.value;
    BudgetIsTight(request, plain, m, shown);
  }

  lemma {:induction false} BodyAfterHead(head: string, body: string)
    requires forall i :: 0 <= i < |head| ==> head[i] != '\n'
    ensures BodyStart(head + "\n\n" + body) == |head| + 2
    decreases |head|
  {
    var s := head + "\n\n" + body;
    if head == "" {
      assert s[0] == '\n' && s[1] == '\n';
    } else {
      BodyAfterHead(head[1..], body);
      assert s[1..] == head[1..] + "\n\n" + body;
    }
  }

  lemma {:induction false} PrefixIsTake(a: string, b: string)
    requires a <= b
    ensures a == b[..|a|]
  {
    assert forall i :: 0 <= i < |a| ==> a[i] == b[i];
  }

  lemma {:induction false} TakeOfAppend(a: string, b: string, k: nat)
    requires k <= |b|
    ensures (a + b)[..|a| + k] == a + b[..k]
  {
    assert forall i :: 0 <= i < |a| + k ==> (a + b)[..|a| + k][i] == (a + b[..k])[i];
  }

  lemma {:induction false} TakeOfTake(a: string, n: nat, k: nat)
    requires k <= n <= |a|
    ensures a[..n][..k] == a[..k]
  {
  }

  /** The range a prefix claims is the beginning of the upload's text, which it shows whole. */
  lemma {:induction false} PrefixShowsItsRange(p: Piece, u: Upload, uploads: map<Id, Upload>)
    requires p.Prefix? && Genuine(p, uploads) && u == uploads[p.id]
    requires p.span.start < p.span.end && forall i :: 0 <= i < |u.head| ==> u.head[i] != '\n'
    ensures p.span.end <= |u.text| && p.text == u.head + "\n\n" + u.text[..p.span.end]
  {
    var body := u.text[..Min(READ_CHARS, |u.text|)];
    BodyAfterHead(u.head, body);
    var start := u.head + "\n\n";
    assert Rendered(u) == start + body && |p.text| == |start| + p.span.end;
    PrefixIsTake(p.text, start + body);
    TakeOfAppend(start, body, p.span.end);
    TakeOfTake(u.text, Min(READ_CHARS, |u.text|), p.span.end);
  }

  lemma {:induction false} SliceOfSlice(text: string, lo: nat, hi: nat, a: nat, b: nat)
    requires lo <= hi <= |text| && a <= b <= hi - lo
    ensures text[lo..hi][a..b] == text[lo + a..lo + b]
  {
    var part := text[lo..hi];
    assert forall i :: 0 <= i < b - a ==> part[a..b][i] == text[lo + a..lo + b][i];
  }

  predicate AllDigits(s: string) {
    forall i :: 0 <= i < |s| ==> '0' <= s[i] <= '9'
  }

  /** The number a run of digits stands for. */
  function Number(s: string): nat
    requires AllDigits(s)
  {
    if s == "" then 0 else 10 * Number(s[..|s| - 1]) + (s[|s| - 1] as int - '0' as int)
  }

  lemma {:induction false} DigitsRead(n: nat)
    ensures Digits(n) != "" && AllDigits(Digits(n)) && Number(Digits(n)) == n
    decreases n
  {
    var d := ['0', '1', '2', '3', '4', '5', '6', '7', '8', '9'][n % 10];
    assert d as int - '0' as int == n % 10;
    if n < 10 {
      assert Digits(n) == [d] && Number([d][..0]) == 0;
    } else {
      DigitsRead(n / 10);
      assert Digits(n)[..|Digits(n)| - 1] == Digits(n / 10);
    }
  }

  /** A block whose hit was cut from a document shows exactly that document's text in its range, under a
      label with the title and with the numbers of its first and its last position. */
  lemma {:induction false} BlockShowsItsRange(p: Piece, uploads: map<Id, Upload>, text: string) returns (a: string, b: string)
    requires p.Block? && Genuine(p, uploads)
    requires 0 <= p.hit.start <= p.span.start <= p.span.end <= p.hit.end <= |text| && p.hit.text == text[p.hit.start..p.hit.end]
    ensures p.text == "【所选附件：" + p.hit.title + " · 字符 " + a + "–" + b + "】\n" + text[p.span.start..p.span.end]
    ensures AllDigits(a) && AllDigits(b) && Number(a) == p.span.start && Number(b) == p.span.end
  {
    var from, to := p.span.start - p.hit.start, p.span.end - p.hit.start;
    SliceOfSlice(text, p.hit.start, p.hit.end, from, to);
    assert Slice(p.hit.text, from, to) == p.hit.text[from..to];
    DigitsRead(p.span.start);
    DigitsRead(p.span.end);
    a, b := Decimal(p.span.start), Decimal(p.span.end);
  }

  /** What the note says of a part that is left out tells which range, or how many records. */
  lemma {:induction false} OmissionTells(o: Omission) returns (a: string, b: string)
    requires match o case Range(_, span) => 0 <= span.start && 0 <= span.end case _ => true
    ensures AllDigits(a) && AllDigits(b)
    ensures o.Range? ==> OmissionText(o) == o.title + " 字符 " + a + "–" + b && Number(a) == o.span.start && Number(b) == o.span.end
    ensures o.OlderRecords? ==> OmissionText(o) == "较早的此前用户资料 " + a + " 条" && Number(a) == o.n
  {
    a, b := "", "";
    match o
    case Range(_, span) =>
      DigitsRead(span.start);
      DigitsRead(span.end);
      a, b := Decimal(span.start), Decimal(span.end);
    case OlderRecords(n) =>
      DigitsRead(n);
      a := Digits(n);
    case Globals =>
  }

  // ---------------------------------------------------------------- the order of the parts

  predicate StandsAt(text: string, part: string, at: nat) {
    at + |part| <= |text| && text[at..at + |part|] == part
  }

  /** The parts stand in the text at these places, each after the one before it. */
  ghost predicate InOrder(text: string, parts: seq<string>, at: seq<nat>) {
    && |at| == |parts|
    && (forall i :: 0 <= i < |parts| ==> StandsAt(text, parts[i], at[i]))
    && (forall i, j :: 0 <= i && j == i + 1 && j < |parts| ==> at[i] + |parts[i]| <= at[j])
  }

  lemma {:induction false} StandsLonger(text: string, more: string, part: string, at: nat)
    requires StandsAt(text, part, at)
    ensures StandsAt(text + more, part, at)
  {
    assert (text + more)[at..at + |part|] == text[at..at + |part|];
  }

  /** One more part at the end of a longer text. */
  lemma {:induction false} OrderSnoc(text: string, more: string, parts: seq<string>, at: seq<nat>, part: string)
    requires InOrder(text, parts, at) && |part| <= |more| && more[|more| - |part|..] == part
    requires parts != [] ==> at[|at| - 1] + |parts[|parts| - 1]| <= |text|
    ensures InOrder(text + more, parts + [part], at + [|text| + |more| - |part|])
  {
    var all, place := text + more, |text| + |more| - |part|;
    forall i | 0 <= i < |parts| ensures StandsAt(all, parts[i], at[i]) {
      StandsLonger(text, more, parts[i], at[i]);
    }
    assert all[place..place + |part|] == more[|more| - |part|..];
    assert StandsAt(all, part, place);
  }

  /** What the last part adds to the joined text. */
  lemma {:induction false} JoinedSnoc(parts: seq<string>, mark: string)
    requires parts != []
    ensures var n := |parts| - 1;
            Joined(NonBlank(parts), mark) == Joined(NonBlank(parts[..n]), mark) +
            if parts[n] == "" then "" else if NonBlank(parts[..n]) == [] then parts[n] else mark + parts[n]
  {
    var n := |parts| - 1;
    var front := NonBlank(parts[..n]);
    if parts[n] == "" {
      assert NonBlank(parts) == front;
    } else {
      assert NonBlank(parts) == front + [parts[n]] && (front + [parts[n]])[..|front|] == front;
    }
  }

  lemma {:induction false} JoinedInOrder(parts: seq<string>, mark: string) returns (at: seq<nat>)
    ensures InOrder(Joined(NonBlank(parts), mark), parts, at)
    ensures parts != [] ==> at[|at| - 1] + |parts[|parts| - 1]| == |Joined(NonBlank(parts), mark)|
    decreases |parts|
  {
    at := [];
    if parts != [] {
      var n := |parts| - 1;
      var front, last := parts[..n], parts[n];
      var text := Joined(NonBlank(front), mark);
      var more := if last == "" then "" else if NonBlank(front) == [] then last else mark + last;
      var places := JoinedInOrder(front, mark);
      OrderSnoc(text, more, front, places, last);
      JoinedSnoc(parts, mark);
      assert front + [last] == parts;
      at := places + [|text| + |more| - |last|];
    }
  }

  lemma {:induction false} SectionsAt(m: Material, records: seq<string>, request: string)
    requires m.keep <= |records|
    ensures var parts := Sections(m, records, request);
            && |parts| == 1 + (|records| - m.keep) + |m.pieces| + 2 && parts[0] == m.head
            && (forall i :: m.keep <= i < |records| ==> parts[1 + i - m.keep] == records[i])
            && (forall i :: 0 <= i < |m.pieces| ==> parts[1 + |records| - m.keep + i] == m.pieces[i].text)
            && parts[|parts| - 2] == m.note && parts[|parts| - 1] == request
  {
    var start, kept, texts := [m.head], records[m.keep..], Texts(m.pieces);
    var parts := Sections(m, records, request);
    assert parts == start + (kept + (texts + ([m.note] + [request])));
    forall i | m.keep <= i < |records| ensures parts[1 + i - m.keep] == records[i] {
      assert kept[i - m.keep] == records[i];
    }
    forall i | 0 <= i < |m.pieces| ensures parts[1 + |records| - m.keep + i] == m.pieces[i].text {
      assert texts[i] == m.pieces[i].text;
    }
  }

  /** The material is, in this order: the global block, the records kept from the oldest to the newest, the
      pieces, the note, and at the very end the request. */
  lemma {:induction false} PartsInOrder(m: Material, head: string, records: seq<string>, request: string, mark: string)
    returns (parts: seq<string>, at: seq<nat>)
    requires Made(m, head, records, request, mark)
    ensures InOrder(m.text, parts, at) && |parts| == 1 + (|records| - m.keep) + |m.pieces| + 2
    ensures parts[0] == m.head && forall i :: m.keep <= i < |records| ==> parts[1 + i - m.keep] == records[i]
    ensures forall i :: 0 <= i < |m.pieces| ==> parts[1 + |records| - m.keep + i] == m.pieces[i].text
    ensures parts[|parts| - 2] == m.note && parts[|parts| - 1] == request && at[|at| - 1] + |request| == |m.text|
  {
    SectionsAt(m, records, request);
    parts := Sections(m, records, request);
    at := JoinedInOrder(parts, mark);
  }
}
