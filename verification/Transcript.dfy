/** The append-only transcript (demo/projects.py): appending after an interrupted record, and reading it
    back line by line. */
module Transcript {
  import opened Wrappers
  import opened TranscriptLine

  const HISTORY_MAX_BYTES: nat := 256 * 1024 * 1024
  const HISTORY_MAX_MESSAGES: nat := 100_000

  /** A message as read; its id, which may be derived from position and bytes, is left aside. */
  datatype Row = Row(role: Text, content: Text, ts: nat)

  /** Decoding of one line: UTF-8, JSON and the field checks; None for a damaged record. */
  type Parser = seq<Byte> -> Option<Row>

  function RowOf(t: Turn): Row {
    Row(t.role, t.text, t.ts)
  }

  /** What is relied on of JSON: a line break at the end is white space, and a written record reads back. */
  ghost predicate Sound(parse: Parser) {
    && (forall line :: parse(line + [NL]) == parse(line))
    && (forall t: Turn :: Accepted(t) && ValidId(t.id) ==> parse(Body(t)) == Some(RowOf(t)))
  }

  // ---------------------------------------------------------------- the file as lines

  /** The length of the first line, its line break included if it has one. */
  function LineLen(file: seq<Byte>): (n: nat)
    ensures n <= |file| && (file != [] ==> n > 0)
    ensures forall i :: 0 <= i < n - 1 ==> file[i] != NL
    ensures 0 < n < |file| ==> file[n - 1] == NL
  {
    if file == [] then 0 else if file[0] == NL then 1 else 1 + LineLen(file[1..])
  }

  /** Lines with their line break; the last one may lack it. */
  function Lines(file: seq<Byte>): seq<seq<Byte>> {
    if file == [] then [] else [file[..LineLen(file)]] + Lines(file[LineLen(file)..])
  }

  predicate Ended(file: seq<Byte>) {
    file == [] || file[|file| - 1] == NL
  }

  // ---------------------------------------------------------------- reading

  predicate BlankByte(b: Byte) {
    b == 32 || 9 <= b <= 13
  }

  predicate Blank(line: seq<Byte>) {
    forall i :: 0 <= i < |line| ==> BlankByte(line[i])
  }

  /** What one line yields: nothing, a damaged record, or a row. */
  function LineRecords(parse: Parser, line: seq<Byte>): seq<Option<Row>> {
    if |line| > LINE_LIMIT then [None]
    else if Blank(line) then []
    else [parse(line)]
  }

  function RecordsOf(parse: Parser, lines: seq<seq<Byte>>): seq<Option<Row>> {
    if lines == [] then [] else LineRecords(parse, lines[0]) + RecordsOf(parse, lines[1..])
  }

  function Records(parse: Parser, file: seq<Byte>): seq<Option<Row>> {
    RecordsOf(parse, Lines(file))
  }

  function RowsOf(records: seq<Option<Row>>): seq<Row> {
    if records == [] then []
    else (if records[0].Some? then [records[0].value] else []) + RowsOf(records[1..])
  }

  /** The messages a reader gets, damaged records left out. */
  function Rows(parse: Parser, file: seq<Byte>): seq<Row> {
    RowsOf(Records(parse, file))
  }

  /** handle.readline(n) at the start of what is left. */
  function ReadLine(rest: seq<Byte>, n: nat): seq<Byte> {
    if LineLen(rest) <= n then rest[..LineLen(rest)] else rest[..n]
  }

  /** The inner loop over a line that is too long: read on to its end. */
  method SkipLine(rest: seq<Byte>, n: nat) returns (pos: nat)
    requires 0 < n <= LineLen(rest)
    ensures pos == LineLen(rest)
  {
    var line := ReadLine(rest, n);
    pos := |line|;
    while line != [] && line[|line| - 1] != NL
      invariant 0 < pos <= LineLen(rest)
      invariant if line == [] then pos == LineLen(rest) else line[|line| - 1] == rest[pos - 1]
      decreases LineLen(rest) - pos, |line|
    {
      if pos < LineLen(rest) {
      }
      line := ReadLine(rest[pos..], n);
      pos := pos + |line|;
    }
  }

  /** _history_records */
  method ReadRecords(parse: Parser, file: seq<Byte>) returns (records: seq<Option<Row>>)
    ensures records == Records(parse, file)
  {
    records := [];
    var rest := file;
    while rest != []
      invariant records + RecordsOf(parse, Lines(rest)) == Records(parse, file)
      decreases |rest|
    {
      var line := ReadLine(rest, LINE_LIMIT + 1);
      var pos := |line|;
      NextLine(parse, rest, records);
      if |line| > LINE_LIMIT {
        pos := SkipLine(rest, LINE_LIMIT + 1);
        records := records + [None];
      } else if !Blank(line) {
        records := records + [parse(line)];
      } else {
        assert records + [] == records;
      }
      rest := rest[pos..];
    }
  }

  lemma {:induction false} NextLine(parse: Parser, rest: seq<Byte>, records: seq<Option<Row>>)
    requires rest != []
    ensures records + RecordsOf(parse, Lines(rest)) ==
            (records + LineRecords(parse, rest[..LineLen(rest)])) + RecordsOf(parse, Lines(rest[LineLen(rest)..]))
  {
    var lines := Lines(rest);
    assert lines[1..] == Lines(rest[LineLen(rest)..]);
  }

  lemma {:induction false} NextRow(rows: seq<Row>, records: seq<Option<Row>>, k: nat)
    requires k < |records|
    ensures rows + RowsOf(records[k..]) ==
            (if records[k].Some? then rows + [records[k].value] else rows) + RowsOf(records[k + 1..])
    ensures records[..k + 1] == records[..k] + [records[k]]
  {
    assert records[k..][0] == records[k] && records[k..][1..] == records[k + 1..];
    var rest := RowsOf(records[k + 1..]);
    if records[k].Some? {
      assert rows + ([records[k].value] + rest) == (rows + [records[k].value]) + rest;
    } else {
      assert rows + ([] + rest) == rows + rest;
    }
  }

  datatype History = TooLarge | TooMany | Damaged | Read(rows: seq<Row>)

  /** read_full_history; strict refuses a transcript with damaged records. */
  method ReadFullHistory(parse: Parser, file: seq<Byte>, strict: bool) returns (h: History)
    ensures h.TooLarge? <==> |file| > HISTORY_MAX_BYTES
    ensures h.Read? ==> h.rows == Rows(parse, file) && |h.rows| <= HISTORY_MAX_MESSAGES
    ensures h.TooMany? ==> |Rows(parse, file)| > HISTORY_MAX_MESSAGES
    ensures h.Damaged? ==> strict && None in Records(parse, file)
    ensures !strict && |file| <= HISTORY_MAX_BYTES ==> (h.Read? <==> |Rows(parse, file)| <= HISTORY_MAX_MESSAGES)
    ensures strict && h.Read? ==> None !in Records(parse, file)
  {
    if |file| > HISTORY_MAX_BYTES {
      return TooLarge;
    }
    var records := ReadRecords(parse, file);
    var rows := [];
    for k := 0 to |records|
      invariant rows + RowsOf(records[k..]) == RowsOf(records) && |rows| <= HISTORY_MAX_MESSAGES
      invariant strict ==> None !in records[..k]
    {
      NextRow(rows, records, k);
      if records[k].None? {
        if strict {
          return Damaged;
        }
      } else {
        rows := rows + [records[k].value];
        if |rows| > HISTORY_MAX_MESSAGES {
          return TooMany;
        }
      }
    }
    assert records[..|records|] == records;
    assert rows + [] == rows;
    h := Read(rows);
  }

  // ---------------------------------------------------------------- appending

  /** An interrupted record before it is closed with a line break first. */
  function Appended(file: seq<Byte>, t: Turn): seq<Byte>
    requires ValidText(t.role) && ValidText(t.text)
  {
    (if Ended(file) then file else file + [NL]) + Line(t)
  }

  class TranscriptFile {
    var bytes: seq<Byte>

    /** append_turn: refused turns leave the file alone. */
    method AppendTurn(t: Turn) returns (ok: bool)
      modifies this
      ensures ok <==> Accepted(t)
      ensures bytes == if ok then Appended(old(bytes), t) else old(bytes)
    {
      if !ValidText(t.text) || !ValidText(t.role) || t.role == [] || |t.role| > ROLE_MAX {
        return false;
      }
      if |Utf8Text(t.text)| > MESSAGE_MAX_BYTES {
        return false;
      }
      if |bytes| != 0 && bytes[|bytes| - 1] != NL {
        bytes := bytes + [NL];
      }
      bytes := bytes + Line(t);
      ok := true;
    }
  }

  // ---------------------------------------------------------------- an interrupted last line

  /** Where the last line break ends. */
  function TailStart(file: seq<Byte>): (k: nat)
    ensures k <= |file| && (k > 0 ==> file[k - 1] == NL)
    ensures forall i :: k <= i < |file| ==> file[i] != NL
  {
    if file == [] then 0 else if file[|file| - 1] == NL then |file| else TailStart(file[..|file| - 1])
  }

  /** What stands after the last line break. */
  function TailOf(file: seq<Byte>): seq<Byte> {
    file[TailStart(file)..]
  }

  function HeadOf(file: seq<Byte>): seq<Byte> {
    file[..TailStart(file)]
  }

  lemma {:induction false} HeadAndTail(file: seq<Byte>)
    ensures file == HeadOf(file) + TailOf(file) && Ended(HeadOf(file)) && NL !in TailOf(file)
    ensures Ended(file) <==> TailOf(file) == []
  {
  }

  lemma {:induction false} LineLenAppend(a: seq<Byte>, b: seq<Byte>)
    requires a != [] && Ended(a)
    ensures LineLen(a + b) == LineLen(a)
    decreases |a|
  {
    if a[0] != NL {
      assert (a + b)[1..] == a[1..] + b;
      if |a| > 1 {
        LineLenAppend(a[1..], b);
      }
    }
  }

  lemma {:induction false} SplitInside(a: seq<Byte>, b: seq<Byte>, n: nat)
    requires n <= |a|
    ensures (a + b)[..n] == a[..n] && (a + b)[n..] == a[n..] + b
  {
  }

  lemma {:induction false} LinesOfSome(file: seq<Byte>)
    requires file != []
    ensures Lines(file) == [file[..LineLen(file)]] + Lines(file[LineLen(file)..])
  {
  }

  lemma {:induction false} ConsAppend(x: seq<Byte>, a: seq<seq<Byte>>, b: seq<seq<Byte>>)
    ensures [x] + (a + b) == ([x] + a) + b
  {
  }

  /** After a line break a new line begins. */
  lemma {:induction false} LinesAppend(a: seq<Byte>, b: seq<Byte>)
    requires Ended(a)
    ensures Lines(a + b) == Lines(a) + Lines(b)
    decreases |a|
  {
    if a == [] {
      assert a + b == b;
    } else {
      var n := LineLen(a);
      LineLenAppend(a, b);
      SplitInside(a, b, n);
      LinesOfSome(a + b);
      LinesOfSome(a);
      ConsAppend(a[..n], Lines(a[n..]), Lines(b));
      assert a[n..] != [] ==> a[n..][|a[n..]| - 1] == a[|a| - 1];
      LinesAppend(a[n..], b);
    }
  }

  lemma {:induction false} OneLine(body: seq<Byte>, line: seq<Byte>)
    requires NL !in body && (line == body + [NL] || (line == body && body != []))
    ensures Lines(line) == [line]
  {
    assert forall i :: 0 <= i < |body| ==> line[i] == body[i];
    assert LineLen(line) == |line|;
    assert line[..|line|] == line && line[|line|..] == [];
  }

  lemma {:induction false} RecordsAppend(parse: Parser, a: seq<seq<Byte>>, b: seq<seq<Byte>>)
    ensures RecordsOf(parse, a + b) == RecordsOf(parse, a) + RecordsOf(parse, b)
    decreases |a|
  {
    if a == [] {
      assert a + b == b;
    } else {
      RecordsAppend(parse, a[1..], b);
      assert (a + b)[1..] == a[1..] + b;
    }
  }

  lemma {:induction false} RowsAppend(a: seq<Option<Row>>, b: seq<Option<Row>>)
    ensures RowsOf(a + b) == RowsOf(a) + RowsOf(b)
    decreases |a|
  {
    if a == [] {
      assert a + b == b;
    } else {
      RowsAppend(a[1..], b);
      assert (a + b)[0] == a[0] && (a + b)[1..] == a[1..] + b;
      var first := if a[0].Some? then [a[0].value] else [];
      assert first + (RowsOf(a[1..]) + RowsOf(b)) == (first + RowsOf(a[1..])) + RowsOf(b);
    }
  }

  /** The rows of a file that ends with a line break, and of what follows. */
  lemma {:induction false} RowsFollow(parse: Parser, head: seq<Byte>, more: seq<Byte>)
    requires Ended(head)
    ensures Rows(parse, head + more) == Rows(parse, head) + Rows(parse, more)
  {
    LinesAppend(head, more);
    RecordsAppend(parse, Lines(head), Lines(more));
    RowsAppend(Records(parse, head), Records(parse, more));
  }

  lemma {:induction false} RowsOfLine(parse: Parser, line: seq<Byte>)
    requires Lines(line) == [line]
    ensures Rows(parse, line) == RowsOf(LineRecords(parse, line))
  {
    assert [line][1..] == [];
    assert RecordsOf(parse, [line]) == LineRecords(parse, line) + [];
  }

  /** The one tail that closing with a line break makes unreadable: exactly as long as the limit, so
      that the break takes it past it, and a whole record as it stands. */
  predicate TailLost(parse: Parser, file: seq<Byte>) {
    var tail := TailOf(file);
    |tail| == LINE_LIMIT && !Blank(tail) && parse(tail).Some?
  }

  lemma {:induction false} ClosedTail(parse: Parser, tail: seq<Byte>)
    requires Sound(parse) && tail != []
    ensures RowsOf(LineRecords(parse, tail + [NL])) ==
            if |tail| == LINE_LIMIT && !Blank(tail) && parse(tail).Some? then [] else RowsOf(LineRecords(parse, tail))
  {
    assert parse(tail + [NL]) == parse(tail);
    assert forall i :: 0 <= i < |tail| ==> (tail + [NL])[i] == tail[i];
    assert Blank(tail + [NL]) <==> Blank(tail);
  }

  lemma {:induction false} WrittenLine(parse: Parser, t: Turn)
    requires Sound(parse) && Writable(t)
    ensures Rows(parse, Line(t)) == [RowOf(t)]
  {
    BodyIsOneLine(t);
    OneLine(Body(t), Line(t));
    AcceptedFits(t);
    assert !Blank(Line(t)) by {
      assert Line(t)[0] == Body(t)[0];
      assert !BlankByte(Line(t)[0]);
    }
    assert parse(Body(t) + [NL]) == parse(Body(t));
    assert LineRecords(parse, Line(t)) == [Some(RowOf(t))];
    RowsOfLine(parse, Line(t));
    assert [Some(RowOf(t))][1..] == [];
  }

  /** An accepted turn with its id and a time of at most 1585 digits. */
  predicate Writable(t: Turn) {
    Accepted(t) && ValidId(t.id) && |Digits(t.ts)| <= 1585
  }

  /** Reading after an append gives the rows as before and the new one, whatever bytes were there,
      exactly unless the interrupted last line is lost by being closed. */
  lemma {:induction false} AppendReads(parse: Parser, file: seq<Byte>, t: Turn)
    requires Sound(parse) && Writable(t)
    ensures Rows(parse, Appended(file, t)) == Rows(parse, file) + [RowOf(t)] <==> !TailLost(parse, file)
  {
    HeadAndTail(file);
    WrittenLine(parse, t);
    if Ended(file) {
      RowsFollow(parse, file, Line(t));
      assert TailOf(file) == [] && !TailLost(parse, file);
    } else {
      TornReads(parse, HeadOf(file), TailOf(file), t);
      Regroup(HeadOf(file), TailOf(file), [NL], Line(t));
    }
  }

  lemma {:induction false} Regroup(a: seq<Byte>, b: seq<Byte>, c: seq<Byte>, d: seq<Byte>)
    ensures a + b + c + d == a + (b + c) + d
  {
  }

  lemma {:induction false} TornReads(parse: Parser, head: seq<Byte>, tail: seq<Byte>, t: Turn)
    requires Sound(parse) && Writable(t) && Ended(head) && NL !in tail && tail != []
    ensures Rows(parse, head + (tail + [NL]) + Line(t)) == Rows(parse, head + tail) + [RowOf(t)] <==>
            !(|tail| == LINE_LIMIT && !Blank(tail) && parse(tail).Some?)
  {
    var closed := tail + [NL];
    WrittenLine(parse, t);
    OneLine(tail, tail);
    OneLine(tail, closed);
    RowsOfLine(parse, tail);
    RowsOfLine(parse, closed);
    RowsFollow(parse, head, tail);
    RowsFollow(parse, head, closed);
    RowsFollow(parse, head + closed, Line(t));
    ClosedTail(parse, tail);
    Lengths(Rows(parse, head), Rows(parse, closed), Rows(parse, tail), [RowOf(t)]);
    if |tail| == LINE_LIMIT && !Blank(tail) && parse(tail).Some? {
      assert [parse(tail)][1..] == [];
      assert |Rows(parse, tail)| == 1;
    }
  }

  lemma {:induction false} Lengths(before: seq<Row>, a: seq<Row>, b: seq<Row>, last: seq<Row>)
    ensures a == b ==> before + a + last == before + b + last
    ensures |a| != |b| ==> before + a + last != before + b + last
  {
    assert |before + a + last| == |before| + |a| + |last| && |before + b + last| == |before| + |b| + |last|;
  }

  /** A file of one readable line without line break, as long as the limit: read as it is, lost by an append. */
  lemma {:induction false} LostWhenClosed(parse: Parser, file: seq<Byte>, row: Row, u: Turn)
    requires Sound(parse) && Writable(u)
    requires |file| == LINE_LIMIT && NL !in file && !Blank(file) && parse(file) == Some(row)
    ensures TailLost(parse, file) && Rows(parse, file) == [row] && Rows(parse, Appended(file, u)) == [RowOf(u)]
  {
    TailAfter([], file);
    assert [] + file == file;
    OneLine(file, file);
    RowsOfLine(parse, file);
    assert [Some(row)][1..] == [];
    ClosedTail(parse, file);
    OneLine(file, file + [NL]);
    RowsOfLine(parse, file + [NL]);
    RowsFollow(parse, file + [NL], Line(u));
    WrittenLine(parse, u);
    assert file[|file| - 1] in file;
    assert Appended(file, u) == (file + [NL]) + Line(u);
  }

  // ---------------------------------------------------------------- a whole conversation

  predicate AllAccepted(turns: seq<Turn>) {
    forall i :: 0 <= i < |turns| ==> Accepted(turns[i])
  }

  function AppendAll(file: seq<Byte>, turns: seq<Turn>): seq<Byte>
    requires AllAccepted(turns)
  {
    if turns == [] then file
    else
      var last := turns[|turns| - 1];
      assert Accepted(last);
      Appended(AppendAll(file, turns[..|turns| - 1]), last)
  }

  function RowsWritten(turns: seq<Turn>): seq<Row> {
    if turns == [] then [] else RowsWritten(turns[..|turns| - 1]) + [RowOf(turns[|turns| - 1])]
  }

  /** Every conversation written from an empty file reads back turn by turn, role and text unchanged. */
  lemma {:induction false} ConversationReadsBack(parse: Parser, turns: seq<Turn>)
    requires Sound(parse) && AllAccepted(turns) && forall i :: 0 <= i < |turns| ==> Writable(turns[i])
    ensures Rows(parse, AppendAll([], turns)) == RowsWritten(turns)
    decreases |turns|
  {
    if turns != [] {
      var n := |turns| - 1;
      ConversationReadsBack(parse, turns[..n]);
      AppendReads(parse, AppendAll([], turns[..n]), turns[n]);
    }
  }

  // ---------------------------------------------------------------- appends that are cut off

  /** An append of which only the first `kept` bytes reach the file; all of them if there are no more. */
  datatype Write = Write(turn: Turn, kept: nat)

  function Written(file: seq<Byte>, w: Write): seq<Byte>
    requires Accepted(w.turn)
  {
    var all := Appended(file, w.turn);
    if |file| + w.kept < |all| then all[..|file| + w.kept] else all
  }

  predicate Writables(writes: seq<Write>) {
    forall i :: 0 <= i < |writes| ==> Writable(writes[i].turn)
  }

  /** The file after appends each of which may have been cut off at any byte. */
  function AfterWrites(file: seq<Byte>, writes: seq<Write>): seq<Byte>
    requires Writables(writes)
  {
    if writes == [] then file
    else
      var last := writes[|writes| - 1];
      assert Writable(last.turn);
      Written(AfterWrites(file, writes[..|writes| - 1]), last)
  }

  predicate TailFits(file: seq<Byte>) {
    |TailOf(file)| < LINE_LIMIT
  }

  /** What an append adds: a line break if the last line lacks one, and the line. */
  function Closed(file: seq<Byte>): seq<Byte> {
    if Ended(file) then file else file + [NL]
  }

  /** The record reached the file whole, with or without its line break. */
  predicate Arrived(file: seq<Byte>, w: Write)
    requires Accepted(w.turn)
  {
    |file| + w.kept >= |Closed(file)| + |Body(w.turn)|
  }

  lemma {:induction false} WrittenShape(file: seq<Byte>, w: Write) returns (part: seq<Byte>)
    requires Writable(w.turn)
    ensures part <= Line(w.turn)
    ensures (Written(file, w) == file && part == []) || Written(file, w) == Closed(file) + part
    ensures part == Line(w.turn) || (NL !in part && part <= Body(w.turn))
    ensures Written(file, w) == Appended(file, w.turn) ==> part == Line(w.turn)
    ensures Arrived(file, w) <==> |part| >= |Body(w.turn)|
  {
    var line, all := Line(w.turn), Appended(file, w.turn);
    assert all == Closed(file) + line;
    BodyIsOneLine(w.turn);
    if |file| + w.kept >= |all| {
      part := line;
    } else if |file| + w.kept < |Closed(file)| {
      part := [];
      assert Written(file, w) == file;
    } else {
      part := line[..|file| + w.kept - |Closed(file)|];
      assert Written(file, w) == Closed(file) + part;
      assert part <= Body(w.turn);
    }
  }

  lemma {:induction false} TailAfter(head: seq<Byte>, part: seq<Byte>)
    requires Ended(head) && NL !in part
    ensures TailOf(head + part) == part
    decreases |part|
  {
    if part == [] {
      assert head + part == head;
    } else {
      var n := |part| - 1;
      TailAfter(head, part[..n]);
      assert (head + part)[..|head + part| - 1] == head + part[..n];
      assert part[n] in part;
    }
  }

  /** No append, complete or cut off, leaves a last line as long as the limit. */
  lemma {:induction false} CutTailFits(file: seq<Byte>, w: Write)
    requires TailFits(file) && Writable(w.turn)
    ensures TailFits(Written(file, w))
  {
    var part := WrittenShape(file, w);
    if Written(file, w) != file {
      AcceptedFits(w.turn);
      if part == Line(w.turn) {
        HeadAndTail(Closed(file) + part);
      } else {
        TailAfter(Closed(file), part);
      }
    }
  }

  lemma {:induction false} RunTailFits(file: seq<Byte>, writes: seq<Write>)
    requires TailFits(file) && Writables(writes)
    ensures TailFits(AfterWrites(file, writes))
    decreases |writes|
  {
    if writes != [] {
      RunTailFits(file, writes[..|writes| - 1]);
      CutTailFits(AfterWrites(file, writes[..|writes| - 1]), writes[|writes| - 1]);
    }
  }

  /** What appends leave behind, cut off or not, never hinders a later one: over any run of them, every append
      that is complete adds exactly its turn to what is read. */
  lemma {:induction false} LaterAppendReads(parse: Parser, file: seq<Byte>, writes: seq<Write>, t: Turn)
    requires Sound(parse) && TailFits(file) && Writables(writes) && Writable(t)
    ensures Rows(parse, Appended(AfterWrites(file, writes), t)) == Rows(parse, AfterWrites(file, writes)) + [RowOf(t)]
  {
    RunTailFits(file, writes);
    AppendReads(parse, AfterWrites(file, writes), t);
  }

  lemma {:induction false} ClosedReads(parse: Parser, file: seq<Byte>)
    requires Sound(parse) && TailFits(file)
    ensures Rows(parse, Closed(file)) == Rows(parse, file)
  {
    HeadAndTail(file);
    if !Ended(file) {
      var head, tail := HeadOf(file), TailOf(file);
      assert Closed(file) == head + (tail + [NL]);
      RowsFollow(parse, head, tail);
      RowsFollow(parse, head, tail + [NL]);
      OneLine(tail, tail);
      OneLine(tail, tail + [NL]);
      RowsOfLine(parse, tail);
      RowsOfLine(parse, tail + [NL]);
      ClosedTail(parse, tail);
    }
  }

  /** A cut record is not a record: no proper beginning of a written one reads as anything. */
  ghost predicate Whole(parse: Parser) {
    forall t: Turn, part: seq<Byte> :: Accepted(t) && ValidId(t.id) && part < Body(t) ==> parse(part).None?
  }

  lemma {:induction false} PartOfBody(t: Turn, part: seq<Byte>)
    requires Writable(t) && part <= Body(t) && part != []
    ensures NL !in part && !Blank(part) && |part| < LINE_LIMIT
  {
    BodyIsOneLine(t);
    AcceptedFits(t);
    assert forall i :: 0 <= i < |part| ==> part[i] in Body(t);
    assert !BlankByte(part[0]);
  }

  lemma {:induction false} PartReads(parse: Parser, t: Turn, part: seq<Byte>)
    requires Writable(t) && part <= Body(t)
    requires parse(Body(t)) == Some(RowOf(t)) && (part < Body(t) ==> parse(part).None?)
    ensures Rows(parse, part) == if part == Body(t) then [RowOf(t)] else []
  {
    BodyIsOneLine(t);
    if part != [] {
      PartOfBody(t, part);
      OneLine(part, part);
      RowsOfLine(parse, part);
      assert LineRecords(parse, part) == [parse(part)];
      assert [parse(part)][1..] == [];
    }
  }

  lemma {:induction false} PieceReads(parse: Parser, t: Turn, part: seq<Byte>)
    requires Sound(parse) && Whole(parse) && Writable(t) && (part == Line(t) || part <= Body(t))
    ensures Rows(parse, part) == if |part| >= |Body(t)| then [RowOf(t)] else []
  {
    if part == Line(t) {
      WrittenLine(parse, t);
    } else {
      PartReads(parse, t, part);
    }
  }

  lemma {:induction false} WrittenReads(parse: Parser, file: seq<Byte>, w: Write)
    requires Sound(parse) && Whole(parse) && TailFits(file) && Writable(w.turn)
    ensures Rows(parse, Written(file, w)) == Rows(parse, file) + if Arrived(file, w) then [RowOf(w.turn)] else []
  {
    var part := WrittenShape(file, w);
    PieceReads(parse, w.turn, part);
    if Written(file, w) == Closed(file) + part {
      ClosedReads(parse, file);
      RowsFollow(parse, Closed(file), part);
    } else {
      BodyIsOneLine(w.turn);
    }
  }

  function RowsArrived(file: seq<Byte>, writes: seq<Write>): seq<Row>
    requires Writables(writes)
  {
    if writes == [] then []
    else
      var front, last := writes[..|writes| - 1], writes[|writes| - 1];
      assert Writable(last.turn);
      RowsArrived(file, front) + if Arrived(AfterWrites(file, front), last) then [RowOf(last.turn)] else []
  }

  lemma {:induction false} OneMore(parse: Parser, file: seq<Byte>, front: seq<Write>, last: Write)
    requires Sound(parse) && Whole(parse) && TailFits(file) && Writables(front) && Writable(last.turn)
    requires Rows(parse, AfterWrites(file, front)) == Rows(parse, file) + RowsArrived(file, front)
    ensures Writables(front + [last])
    ensures Rows(parse, AfterWrites(file, front + [last])) == Rows(parse, file) + RowsArrived(file, front + [last])
  {
    var writes, before := front + [last], AfterWrites(file, front);
    assert writes[..|writes| - 1] == front;
    RunTailFits(file, front);
    WrittenReads(parse, before, last);
    RowsRegroup(Rows(parse, file), RowsArrived(file, front), if Arrived(before, last) then [RowOf(last.turn)] else []);
  }

  lemma {:induction false} RowsRegroup(a: seq<Row>, b: seq<Row>, c: seq<Row>)
    ensures (a + b) + c == a + (b + c)
  {
  }

  lemma {:induction false} SplitLast(writes: seq<Write>) returns (front: seq<Write>, last: Write)
    requires writes != [] && Writables(writes)
    ensures |front| == |writes| - 1 && writes == front + [last] && Writables(front) && Writable(last.turn)
  {
    front, last := writes[..|writes| - 1], writes[|writes| - 1];
  }

  /** After any run of appends, each cut off at any byte, the reader gets what it got before and exactly the
      turns whose record reached the file whole, in order. */
  lemma {:induction false} CutConversationReads(parse: Parser, file: seq<Byte>, writes: seq<Write>)
    requires Sound(parse) && Whole(parse) && TailFits(file) && Writables(writes)
    ensures Rows(parse, AfterWrites(file, writes)) == Rows(parse, file) + RowsArrived(file, writes)
    decreases |writes|
  {
    if writes == [] {
      assert Rows(parse, file) + [] == Rows(parse, file);
    } else {
      var front, last := SplitLast(writes);
      CutConversationReads(parse, file, front);
      OneMore(parse, file, front, last);
    }
  }
}
