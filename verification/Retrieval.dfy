/** Chunking and incremental synchronisation of the session's retrieval index (demo/local_retrieval.py). */
module Retrieval {
  import opened Wrappers

  const CHUNK_CHARS: nat := 900
  const CHUNK_OVERLAP: nat := 160
  const TITLE_CHARS: nat := 300

  // ---------------------------------------------------------------- chunks

  datatype Range = Range(start: nat, end: nat)

  /** text.rfind(c, lo, hi) for a single character */
  function RFind(text: string, c: char, lo: nat, hi: nat): (r: int)
    requires hi <= |text|
    ensures r == -1 || (lo <= r < hi && text[r] == c)
    ensures forall i :: lo <= i < hi && i > r ==> text[i] != c
    decreases hi
  {
    if hi <= lo then -1 else if text[hi - 1] == c then hi - 1 else RFind(text, c, lo, hi - 1)
  }

  /** Where the chunk that starts at `start` ends: after the last break in its second half, if any. */
  function ChunkEnd(text: string, start: nat): (end: nat)
    requires start < |text|
    ensures start < end <= |text| && end <= start + CHUNK_CHARS
    ensures end < |text| ==> end > start + CHUNK_CHARS / 2
  {
    if |text| <= start + CHUNK_CHARS then |text|
    else
      var end, half := start + CHUNK_CHARS, start + CHUNK_CHARS / 2;
      var a, b := RFind(text, '\n', half, end), RFind(text, '。', half, end);
      var boundary := if a >= b then a else b;
      if boundary >= 0 then boundary + 1 else end
  }

  function ChunksFrom(text: string, start: nat): seq<Range>
    requires start < |text|
    decreases |text| - start
  {
    var end := ChunkEnd(text, start);
    [Range(start, end)] + if end == |text| then [] else ChunksFrom(text, end - CHUNK_OVERLAP)
  }

  function Chunks(text: string): seq<Range> {
    if text == "" then [] else ChunksFrom(text, 0)
  }

  lemma {:induction false} Unroll(text: string, chunks: seq<Range>, start: nat, end: nat)
    requires start < |text| && end == ChunkEnd(text, start)
    ensures end == |text| ==> chunks + ChunksFrom(text, start) == chunks + [Range(start, end)]
    ensures end < |text| ==> end - CHUNK_OVERLAP > start &&
                             chunks + ChunksFrom(text, start) == (chunks + [Range(start, end)]) + ChunksFrom(text, end - CHUNK_OVERLAP)
  {
    if end < |text| {
      Regroup(chunks, Range(start, end), ChunksFrom(text, end - CHUNK_OVERLAP));
    }
  }

  lemma {:induction false} Regroup(a: seq<Range>, x: Range, b: seq<Range>)
    ensures a + ([x] + b) == (a + [x]) + b
  {
  }

  /** _chunks */
  method CutChunks(text: string) returns (chunks: seq<Range>)
    ensures chunks == Chunks(text)
  {
    chunks := [];
    var start, done := 0, text == "";
    while !done
      invariant done ==> chunks == Chunks(text)
      invariant !done ==> start < |text| && chunks + ChunksFrom(text, start) == Chunks(text)
      decreases if done then 0 else |text| - start + 1
    {
      var end := if |text| <= start + CHUNK_CHARS then |text| else start + CHUNK_CHARS;
      if end < |text| {
        var a := RFind(text, '\n', start + CHUNK_CHARS / 2, end);
        var b := RFind(text, '。', start + CHUNK_CHARS / 2, end);
        var boundary := if a >= b then a else b;
        if boundary >= 0 {
          end := boundary + 1;
        }
      }
      Unroll(text, chunks, start, end);
      chunks := chunks + [Range(start, end)];
      if end == |text| {
        done := true;
      } else {
        start := if start + 1 >= end - CHUNK_OVERLAP then start + 1 else end - CHUNK_OVERLAP;
      }
    }
  }

  /** Chunks run from `start` to the end of the text without a gap, each at most 900 characters, each
      but the first beginning 160 characters before the end of the one before it. */
  ghost predicate Covers(chunks: seq<Range>, start: nat, n: nat) {
    && chunks != [] && chunks[0].start == start && chunks[|chunks| - 1].end == n
    && (forall i :: 0 <= i < |chunks| ==> chunks[i].start < chunks[i].end <= n && chunks[i].end <= chunks[i].start + CHUNK_CHARS)
    && (forall i, j :: 0 <= i && j == i + 1 && j < |chunks| ==> chunks[j].start == chunks[i].end - CHUNK_OVERLAP && chunks[i].end < chunks[j].end)
  }

  lemma {:induction false} ChunksCover(text: string, start: nat)
    requires start < |text|
    ensures Covers(ChunksFrom(text, start), start, |text|)
    decreases |text| - start
  {
    var end := ChunkEnd(text, start);
    if end < |text| {
      ChunksCover(text, end - CHUNK_OVERLAP);
      var rest := ChunksFrom(text, end - CHUNK_OVERLAP);
      assert ChunksFrom(text, start) == [Range(start, end)] + rest;
      CoverCons(Range(start, end), rest, |text|);
    } else {
      assert ChunksFrom(text, start) == [Range(start, end)];
    }
  }

  lemma {:induction false} CoverCons(first: Range, rest: seq<Range>, n: nat)
    requires CHUNK_OVERLAP <= first.end && Covers(rest, first.end - CHUNK_OVERLAP, n)
    requires first.start < first.end < rest[0].end && first.end <= n && first.end <= first.start + CHUNK_CHARS
    ensures Covers([first] + rest, first.start, n)
  {
    var all := [first] + rest;
    forall i, j | 0 <= i && j == i + 1 && j < |all|
      ensures all[j].start == all[i].end - CHUNK_OVERLAP && all[i].end < all[j].end
    {
      if i > 0 {
        assert all[i] == rest[i - 1] && all[j] == rest[j - 1];
      }
    }
  }

  /** The whole of any stretch of at most 161 characters is inside one chunk. */
  lemma {:induction false} StretchInOneChunk(text: string, a: nat, b: nat) returns (i: nat)
    requires a <= b <= |text| && b - a <= 161 && text != ""
    ensures i < |Chunks(text)| && Chunks(text)[i].start <= a && b <= Chunks(text)[i].end
  {
    ChunksCover(text, 0);
    i := FirstReaching(Chunks(text), 0, |text|, b);
  }

  lemma {:induction false} FirstReaching(chunks: seq<Range>, start: nat, n: nat, b: nat) returns (i: nat)
    requires Covers(chunks, start, n) && b <= n
    ensures i < |chunks| && b <= chunks[i].end
    ensures i == 0 || chunks[i].start + CHUNK_OVERLAP < b
  {
    i := 0;
    while chunks[i].end < b
      invariant i < |chunks| && (i == 0 || chunks[i].start + CHUNK_OVERLAP < b)
      decreases |chunks| - i
    {
      assert i + 1 < |chunks|;
      assert chunks[i + 1].start == chunks[i].end - CHUNK_OVERLAP;
      i := i + 1;
    }
  }

  lemma {:induction false} EndsAdvance(chunks: seq<Range>, start: nat, n: nat, i: nat, k: nat)
    requires Covers(chunks, start, n) && i <= k < |chunks|
    ensures chunks[i].end <= chunks[k].end
    decreases k
  {
    if i < k {
      EndsAdvance(chunks, start, n, i, k - 1);
      assert chunks[k - 1].end < chunks[k].end;
    }
  }

  /** Longer stretches need not be: at every seam of every text, the 162 characters that reach one character
      beyond the overlap on either side lie in no chunk. */
  lemma {:induction false} LongerStretchSplit(text: string, i: nat, k: nat)
    requires i + 1 < |Chunks(text)| && k < |Chunks(text)|
    ensures var chunks, e := Chunks(text), Chunks(text)[i].end;
            0 <= e - 161 && e + 1 <= |text| && !(chunks[k].start <= e - 161 && e + 1 <= chunks[k].end)
  {
    ChunksCover(text, 0);
    var chunks := Chunks(text);
    assert chunks[i + 1].start == chunks[i].end - CHUNK_OVERLAP && chunks[i].end < chunks[i + 1].end;
    assert chunks[i].start < chunks[i + 1].start;
    if k <= i {
      EndsAdvance(chunks, 0, |text|, k, i);
    } else {
      EndsAdvance(chunks, 0, |text|, i, k - 1);
      assert chunks[k].start == chunks[k - 1].end - CHUNK_OVERLAP;
    }
  }
}
