/** Decoding the record line back (demo/projects.py): what append_turn writes determines the turn, so
    that a reader as the transcript model assumes it exists. */
module TranscriptDecode {
  import opened Wrappers
  import opened TranscriptLine
  import opened Transcript

  // ---------------------------------------------------------------- one character

  /** A character at the start of the bytes and how many bytes it takes. */
  datatype Char = Char(c: nat, size: nat)

  function DecodeUtf8(b: seq<Byte>): (r: Char)
    requires b != []
  {
    var x: nat, y: int, z: int, w: int := b[0], Low(b, 1), Low(b, 2), Low(b, 3);
    if x < 0x80 then Char(x, 1)
    else if 0xC0 <= x < 0xE0 && y >= 0 then Char((x - 0xC0) * 64 + y, 2)
    else if 0xE0 <= x < 0xF0 && y >= 0 && z >= 0 then Char((x - 0xE0) * 4096 + y * 64 + z, 3)
    else if x >= 0xF0 && y >= 0 && z >= 0 && w >= 0 then Char((x - 0xF0) * 262144 + y * 4096 + z * 64 + w, 4)
    else Char(0, 0)
  }

  /** The six bits of byte i if it continues a character, otherwise -1. */
  function Low(b: seq<Byte>, i: nat): int {
    if i < |b| && 0x80 <= b[i] < 0xC0 then (b[i] as int) - 0x80 else -1
  }

  lemma {:induction false} Split64(c: nat)
    ensures c == c / 64 * 64 + c % 64 && c / 4096 == c / 64 / 64 && c / 262144 == c / 4096 / 64
    ensures c / 64 == c / 4096 * 64 + c / 64 % 64 && c / 4096 == c / 262144 * 64 + c / 4096 % 64
  {
  }

  lemma {:induction false} DecodesUtf8(c: nat, rest: seq<Byte>)
    requires Scalar(c)
    ensures DecodeUtf8(Utf8(c) + rest) == Char(c, |Utf8(c)|)
  {
    Split64(c);
    var b := Utf8(c) + rest;
    assert forall i :: 0 <= i < |Utf8(c)| ==> b[i] == Utf8(c)[i];
  }

  function HexValue(b: Byte): nat {
    var v: int := b;
    if 48 <= v <= 57 then v - 48 else if 97 <= v <= 102 then v - 87 else 0
  }

  /** A character of a JSON string: an escape or a character as it is. */
  function DecodeChar(b: seq<Byte>): Char
    requires b != []
  {
    if b[0] != 92 then DecodeUtf8(b)
    else if |b| < 2 then Char(0, 0)
    else if b[1] == 34 then Char(34, 2)
    else if b[1] == 92 then Char(92, 2)
    else if b[1] == 98 then Char(8, 2)
    else if b[1] == 116 then Char(9, 2)
    else if b[1] == 110 then Char(10, 2)
    else if b[1] == 102 then Char(12, 2)
    else if b[1] == 114 then Char(13, 2)
    else if b[1] == 117 && |b| >= 6 then
      Char(HexValue(b[2]) * 4096 + HexValue(b[3]) * 256 + HexValue(b[4]) * 16 + HexValue(b[5]), 6)
    else Char(0, 0)
  }

  lemma {:induction false} DecodesEscaped(c: nat, rest: seq<Byte>)
    requires Scalar(c)
    ensures Escaped(c) != [] && Escaped(c)[0] != 34
    ensures DecodeChar(Escaped(c) + rest) == Char(c, |Escaped(c)|)
  {
    var b := Escaped(c) + rest;
    assert forall i :: 0 <= i < |Escaped(c)| ==> b[i] == Escaped(c)[i];
    if c >= 32 && c != 34 && c != 92 {
      DecodesUtf8(c, rest);
      if c >= 0x80 {
        Utf8High(c, 0);
      }
    }
  }

  // ---------------------------------------------------------------- a string

  datatype Parsed = Parsed(text: Text, size: nat)

  /** Characters up to the closing quote, which is counted too. */
  function DecodeString(b: seq<Byte>): Option<Parsed>
    decreases |b|
  {
    if b == [] then None
    else if b[0] == 34 then Some(Parsed([], 1))
    else
      var c := DecodeChar(b);
      if c.size == 0 || c.size > |b| then None
      else
        var rest := DecodeString(b[c.size..]);
        if rest.None? then None else Some(Parsed([c.c] + rest.value.text, c.size + rest.value.size))
  }

  lemma {:induction false} EscapedFront(t: Text)
    requires ValidText(t) && t != []
    ensures EscapedText(t) == Escaped(t[0]) + EscapedText(t[1..])
    decreases |t|
  {
    var n := |t| - 1;
    if n == 0 {
      assert t[..0] == [] && t[1..] == [];
    } else {
      EscapedFront(t[..n]);
      var first, middle, last := Escaped(t[0]), t[1..][..n - 1], Escaped(t[n]);
      assert t[..n][1..] == middle && t[1..][n - 1] == t[n];
      assert EscapedText(t) == (first + EscapedText(middle)) + last;
      assert EscapedText(t[1..]) == EscapedText(middle) + last;
      Join3(first, EscapedText(middle), last);
    }
  }

  lemma {:induction false} Join3(a: seq<Byte>, b: seq<Byte>, c: seq<Byte>)
    ensures (a + b) + c == a + (b + c)
  {
  }

  lemma {:induction false} RegroupText(t: Text, rest: seq<Byte>)
    requires ValidText(t) && t != []
    ensures EscapedText(t) + [34] + rest == Escaped(t[0]) + (EscapedText(t[1..]) + [34] + rest)
    ensures |EscapedText(t)| == |Escaped(t[0])| + |EscapedText(t[1..])| && [t[0]] + t[1..] == t
  {
    EscapedFront(t);
    Join3(Escaped(t[0]), EscapedText(t[1..]), [34]);
    Join3(Escaped(t[0]), EscapedText(t[1..]) + [34], rest);
  }

  /** The characters of b up to its closing quote are `text`, in `size` bytes. */
  predicate Spells(b: seq<Byte>, text: Text, size: nat) {
    DecodeString(b) == Some(Parsed(text, size))
  }

  lemma {:induction false} SpellsMore(c: nat, more: seq<Byte>, text: Text, size: nat)
    requires Scalar(c) && Spells(more, text, size)
    ensures Spells(Escaped(c) + more, [c] + text, |Escaped(c)| + size)
  {
    var first := Escaped(c);
    DecodesEscaped(c, more);
    var b := first + more;
    assert b[0] == first[0] && b[|first|..] == more;
  }

  /** The rest of a text spelled out after its first character. */
  function Remainder(t: Text, rest: seq<Byte>): seq<Byte>
    requires ValidText(t)
  {
    EscapedText(t) + [34] + rest
  }

  lemma {:induction false} SpellsText(t: Text, rest: seq<Byte>, b: seq<Byte>, size: nat)
    requires ValidText(t) && size == |EscapedText(t)| + 1 && b == Remainder(t, rest)
    ensures Spells(b, t, size)
    decreases |t|
  {
    if t == [] {
    } else {
      var c, tail := t[0], t[1..];
      var more, n := Remainder(tail, rest), |EscapedText(tail)| + 1;
      SpellsText(tail, rest, more, n);
      RegroupText(t, rest);
      SpellsMore(c, more, tail, n);
    }
  }

  lemma {:induction false} DecodesText(t: Text, rest: seq<Byte>)
    requires ValidText(t)
    ensures DecodeString(EscapedText(t) + [34] + rest) == Some(Parsed(t, |EscapedText(t)| + 1))
  {
    SpellsText(t, rest, Remainder(t, rest), |EscapedText(t)| + 1);
  }

  // ---------------------------------------------------------------- digits

  predicate IsDigit(b: Byte) {
    48 <= b <= 57
  }

  function DigitsLen(b: seq<Byte>): (n: nat)
    ensures n <= |b|
  {
    if b == [] || !IsDigit(b[0]) then 0 else 1 + DigitsLen(b[1..])
  }

  function Value(b: seq<Byte>): nat
    requires forall i :: 0 <= i < |b| ==> IsDigit(b[i])
  {
    if b == [] then 0
    else
      assert IsDigit(b[|b| - 1]);
      Value(b[..|b| - 1]) * 10 + ((b[|b| - 1] as int) - 48)
  }

  lemma {:induction false} DigitsValue(n: nat)
    ensures (forall i :: 0 <= i < |Digits(n)| ==> IsDigit(Digits(n)[i])) && Value(Digits(n)) == n && Digits(n) != []
  {
    if n < 10 {
      assert Digits(n)[..0] == [];
    } else {
      DigitsValue(n / 10);
      assert Digits(n)[..|Digits(n)| - 1] == Digits(n / 10);
    }
  }

  lemma {:induction false} DigitsLenOf(d: seq<Byte>, rest: seq<Byte>)
    requires (forall i :: 0 <= i < |d| ==> IsDigit(d[i])) && (rest == [] || !IsDigit(rest[0]))
    ensures DigitsLen(d + rest) == |d|
    decreases |d|
  {
    if d == [] {
      assert d + rest == rest;
    } else {
      assert (d + rest)[1..] == d[1..] + rest;
      DigitsLenOf(d[1..], rest);
    }
  }

  // ---------------------------------------------------------------- the record

  /** What follows `prefix`, if the bytes begin with it. */
  function Skip(b: seq<Byte>, prefix: seq<Byte>): Option<seq<Byte>> {
    if prefix <= b then Some(b[|prefix|..]) else None
  }

  /** A row and the bytes after it, from the quote that closes its text on. */
  datatype Reading = Reading(row: Row, rest: seq<Byte>)

  /** The two strings at the end of a record, `between` standing between their characters. */
  function DecodeFields(b: seq<Byte>, ts: nat, between: seq<Byte>): Option<Reading> {
    var role := DecodeString(b);
    if role.None? || role.value.size > |b| then None
    else
      var next := Skip([34] + b[role.value.size..], between);
      if next.None? then None
      else
        var text := DecodeString(next.value);
        if text.None? || text.value.size > |next.value| then None
        else Some(Reading(Row(role.value.text, text.value.text, ts), [34] + next.value[text.value.size..]))
  }

  lemma {:induction false} DecodesFields(role: Text, text: Text, ts: nat, between: seq<Byte>, closing: seq<Byte>)
    requires ValidText(role) && ValidText(text)
    requires between != [] && between[0] == 34 && closing != [] && closing[0] == 34
    ensures DecodeFields(EscapedText(role) + between + EscapedText(text) + closing, ts, between) ==
            Some(Reading(Row(role, text, ts), closing))
  {
    var x, y := EscapedText(role), EscapedText(text);
    FieldsRegroup(x, between, y, closing);
    DecodesText(role, between[1..] + (y + closing));
    DecodesText(text, closing[1..]);
    assert (y + [34] + closing[1..])[|y| + 1..] == closing[1..];
    assert [34] + closing[1..] == closing;
  }

  lemma {:induction false} FieldsRegroup(x: seq<Byte>, between: seq<Byte>, y: seq<Byte>, closing: seq<Byte>)
    requires between != [] && between[0] == 34 && closing != [] && closing[0] == 34
    ensures x + between + y + closing == x + [34] + (between[1..] + (y + closing))
    ensures (x + [34] + (between[1..] + (y + closing)))[|x| + 1..] == between[1..] + (y + closing)
    ensures [34] + (between[1..] + (y + closing)) == between + (y + closing)
    ensures y + closing == y + [34] + closing[1..]
  {
    assert between == [34] + between[1..] && closing == [34] + closing[1..];
  }

  /** A record line: opening and 32 characters of id, the time, role and text. */
  function DecodeRecord(b: seq<Byte>, id: nat, tsField: seq<Byte>, roleField: seq<Byte>, between: seq<Byte>): Option<Reading> {
    if |b| < id then None
    else
      var fields := Skip(b[id..], tsField);
      if fields.None? then None
      else
        var n := DigitsLen(fields.value);
        DigitsAre(fields.value);
        var role := Skip(fields.value[n..], roleField);
        if role.None? then None else DecodeFields(role.value, Value(fields.value[..n]), between)
  }

  lemma {:induction false} DigitsAre(b: seq<Byte>)
    ensures forall i :: 0 <= i < DigitsLen(b) ==> IsDigit(b[i])
    decreases |b|
  {
    if b != [] && IsDigit(b[0]) {
      DigitsAre(b[1..]);
      assert forall i :: 0 < i < |b| ==> b[i] == b[1..][i - 1];
    }
  }

  lemma {:induction false} DecodesRecord(start: seq<Byte>, tsField: seq<Byte>, ts: nat, roleField: seq<Byte>, fields: seq<Byte>,
                                         between: seq<Byte>)
    requires roleField != [] && !IsDigit(roleField[0])
    ensures DecodeRecord(start + (tsField + (Digits(ts) + (roleField + fields))), |start|, tsField, roleField, between) ==
            DecodeFields(fields, ts, between)
  {
    var d, more := Digits(ts), roleField + fields;
    var b := start + (tsField + (d + more));
    assert b[|start|..] == tsField + (d + more);
    DigitsValue(ts);
    DigitsLenOf(d, more);
    DigitsAre(d + more);
    assert (d + more)[|d|..] == more && (d + more)[..|d|] == d;
  }

  predicate WhiteSpace(b: Byte) {
    b == 32 || b == 9 || b == 10 || b == 13
  }

  /** White space at the end does not matter. */
  function Trimmed(line: seq<Byte>): seq<Byte> {
    if line != [] && WhiteSpace(line[|line| - 1]) then Trimmed(line[..|line| - 1]) else line
  }

  /** The record, if the line is one from its first byte to its last. */
  function Decode(line: seq<Byte>): Option<Row> {
    var r := Read(Trimmed(line));
    if r.Some? && r.value.rest == Ascii(CLOSING) then Some(r.value.row) else None
  }

  function Read(b: seq<Byte>): Option<Reading> {
    DecodeRecord(b, |OPENING| + 32, Ascii(TS_FIELD), Ascii(ROLE_FIELD), Ascii(TEXT_FIELD))
  }

  lemma {:induction false} PartsRoundTrip(t: Turn, opening: seq<Byte>, tsField: seq<Byte>, roleField: seq<Byte>, between: seq<Byte>,
                                          closing: seq<Byte>)
    requires Accepted(t) && roleField != [] && !IsDigit(roleField[0])
    requires between != [] && between[0] == 34 && closing != [] && closing[0] == 34
    ensures DecodeRecord(opening + (tsField + (Digits(t.ts) + (roleField +
              (EscapedText(t.role) + between + EscapedText(t.text) + closing)))), |opening|, tsField, roleField, between) ==
            Some(Reading(RowOf(t), closing))
  {
    DecodesRecord(opening, tsField, t.ts, roleField, EscapedText(t.role) + between + EscapedText(t.text) + closing, between);
    DecodesFields(t.role, t.text, t.ts, between, closing);
  }

  lemma {:induction false} ReadsBody(t: Turn)
    requires Accepted(t) && ValidId(t.id)
    ensures Read(Body(t)) == Some(Reading(RowOf(t), Ascii(CLOSING)))
  {
    PartsRoundTrip(t, Ascii(OPENING) + t.id, Ascii(TS_FIELD), Ascii(ROLE_FIELD), Ascii(TEXT_FIELD), Ascii(CLOSING));
  }

  /** A line written by append_turn decodes to its time, role and text. */
  lemma {:induction false} RecordRoundTrip(t: Turn)
    requires Accepted(t) && ValidId(t.id)
    ensures Decode(Body(t)) == Some(RowOf(t)) && Decode(Line(t)) == Some(RowOf(t))
  {
    ReadsBody(t);
    BodyTrimmed(t, 0);
    assert Body(t) + Spaces(0) == Body(t);
    assert Trimmed(Line(t)) == Trimmed(Body(t)) by {
      assert Line(t)[..|Line(t)| - 1] == Body(t);
    }
  }

  function Spaces(n: nat): seq<Byte> {
    seq(n, _ => 32)
  }

  lemma {:induction false} BodyTrimmed(t: Turn, n: nat)
    requires Accepted(t) && ValidId(t.id)
    ensures Trimmed(Body(t) + Spaces(n)) == Body(t)
  {
    var line := Body(t) + Spaces(n);
    if n == 0 {
      assert line == Body(t);
      BodyEnds(t);
    } else {
      assert line[..|line| - 1] == Body(t) + Spaces(n - 1);
      BodyTrimmed(t, n - 1);
    }
  }

  lemma {:induction false} BodyEnds(t: Turn)
    requires Accepted(t) && ValidId(t.id)
    ensures Body(t) != [] && Body(t)[|Body(t)| - 1] == 125
  {
    assert Ascii(CLOSING)[|CLOSING| - 1] == 125;
    assert Fields(t)[|Fields(t)| - 1] == 125;
  }

  // ---------------------------------------------------------------- more bytes change no reading

  lemma {:induction false} Utf8More(b: seq<Byte>, more: seq<Byte>)
    requires b != [] && 0 < DecodeUtf8(b).size <= |b|
    ensures DecodeUtf8(b + more) == DecodeUtf8(b)
  {
    assert forall i: nat :: i < |b| ==> Low(b + more, i) == Low(b, i);
  }

  lemma {:induction false} CharMore(b: seq<Byte>, more: seq<Byte>)
    requires b != [] && 0 < DecodeChar(b).size <= |b|
    ensures DecodeChar(b + more) == DecodeChar(b)
  {
    if b[0] != 92 {
      Utf8More(b, more);
    }
  }

  lemma {:induction false} StringMore(b: seq<Byte>, more: seq<Byte>)
    requires DecodeString(b).Some?
    ensures DecodeString(b).value.size <= |b| && DecodeString(b + more) == DecodeString(b)
    decreases |b|
  {
    if b[0] != 34 {
      var c := DecodeChar(b);
      CharMore(b, more);
      StringMore(b[c.size..], more);
      assert (b + more)[c.size..] == b[c.size..] + more;
    }
  }

  lemma {:induction false} SkipMore(b: seq<Byte>, prefix: seq<Byte>, more: seq<Byte>)
    requires Skip(b, prefix).Some?
    ensures Skip(b + more, prefix) == Some(Skip(b, prefix).value + more)
  {
    assert (b + more)[|prefix|..] == b[|prefix|..] + more;
  }

  lemma {:induction false} RestMore(b: seq<Byte>, n: nat, more: seq<Byte>)
    requires n <= |b|
    ensures [34] + (b + more)[n..] == ([34] + b[n..]) + more
  {
    assert (b + more)[n..] == b[n..] + more;
  }

  lemma {:induction false} FieldsMore(b: seq<Byte>, ts: nat, between: seq<Byte>, more: seq<Byte>)
    requires DecodeFields(b, ts, between).Some?
    ensures var r := DecodeFields(b, ts, between).value; DecodeFields(b + more, ts, between) == Some(Reading(r.row, r.rest + more))
  {
    var n := DecodeString(b).value.size;
    StringMore(b, more);
    var next := Skip([34] + b[n..], between).value;
    RestMore(b, n, more);
    SkipMore([34] + b[n..], between, more);
    StringMore(next, more);
    var m := DecodeString(next).value.size;
    RestMore(next, m, more);
  }

  lemma {:induction false} DigitsMore(b: seq<Byte>, more: seq<Byte>)
    requires DigitsLen(b) < |b|
    ensures DigitsLen(b + more) == DigitsLen(b)
    decreases |b|
  {
    if IsDigit(b[0]) {
      assert (b + more)[1..] == b[1..] + more;
      DigitsMore(b[1..], more);
    }
  }

  /** A record from its time field on. */
  lemma {:induction false} AfterTimeMore(fields: seq<Byte>, roleField: seq<Byte>, between: seq<Byte>, more: seq<Byte>)
    requires roleField != [] && Skip(fields[DigitsLen(fields)..], roleField).Some?
    ensures var n, all := DigitsLen(fields), fields + more;
            && DigitsLen(all) == n && all[..n] == fields[..n]
            && Skip(all[n..], roleField) == Some(Skip(fields[n..], roleField).value + more)
  {
    var n := DigitsLen(fields);
    DigitsMore(fields, more);
    assert (fields + more)[n..] == fields[n..] + more && (fields + more)[..n] == fields[..n];
    SkipMore(fields[n..], roleField, more);
  }

  lemma {:induction false} RecordMore(b: seq<Byte>, id: nat, tsField: seq<Byte>, roleField: seq<Byte>, between: seq<Byte>, more: seq<Byte>)
    requires roleField != [] && DecodeRecord(b, id, tsField, roleField, between).Some?
    ensures var r := DecodeRecord(b, id, tsField, roleField, between).value;
            DecodeRecord(b + more, id, tsField, roleField, between) == Some(Reading(r.row, r.rest + more))
  {
    assert (b + more)[id..] == b[id..] + more;
    SkipMore(b[id..], tsField, more);
    var fields := Skip(b[id..], tsField).value;
    var n := DigitsLen(fields);
    AfterTimeMore(fields, roleField, between, more);
    DigitsAre(fields);
    DigitsAre(fields + more);
    FieldsMore(Skip(fields[n..], roleField).value, Value(fields[..n]), between, more);
  }

  lemma {:induction false} TrimmedBegins(line: seq<Byte>)
    ensures Trimmed(line) <= line
    decreases |line|
  {
    if line != [] && WhiteSpace(line[|line| - 1]) {
      TrimmedBegins(line[..|line| - 1]);
    }
  }

  /** Where a whole record leaves `rest` unread, a proper beginning of it that reads leaves less. */
  lemma {:induction false} PartEndsEarly(p: seq<Byte>, b: seq<Byte>, id: nat, tsField: seq<Byte>, roleField: seq<Byte>, between: seq<Byte>)
    requires p < b && roleField != []
    ensures var x, y := DecodeRecord(p, id, tsField, roleField, between), DecodeRecord(b, id, tsField, roleField, between);
            x.Some? ==> y.Some? && |x.value.rest| < |y.value.rest|
  {
    if DecodeRecord(p, id, tsField, roleField, between).Some? {
      assert b == p + b[|p|..];
      RecordMore(p, id, tsField, roleField, between, b[|p|..]);
    }
  }

  lemma {:induction false} TrimmedPart(part: seq<Byte>, body: seq<Byte>, id: nat, tsField: seq<Byte>, roleField: seq<Byte>,
                                       between: seq<Byte>, r: Reading)
    requires part < body && roleField != [] && DecodeRecord(body, id, tsField, roleField, between) == Some(r)
    ensures var x := DecodeRecord(Trimmed(part), id, tsField, roleField, between);
            x.Some? ==> x.value.rest != r.rest
  {
    TrimmedBegins(part);
    assert Trimmed(part) < body;
    PartEndsEarly(Trimmed(part), body, id, tsField, roleField, between);
  }

  lemma {:induction false} PartIsNone(part: seq<Byte>, body: seq<Byte>, r: Reading)
    requires part < body && Read(body) == Some(r) && r.rest == Ascii(CLOSING)
    ensures Decode(part).None?
  {
    TrimmedPart(part, body, |OPENING| + 32, Ascii(TS_FIELD), Ascii(ROLE_FIELD), Ascii(TEXT_FIELD), r);
  }

  /** No proper beginning of a written record reads as a record. */
  lemma {:induction false} PartIsNoRecord(t: Turn, part: seq<Byte>)
    requires Accepted(t) && ValidId(t.id) && part < Body(t)
    ensures Decode(part).None?
  {
    ReadsBody(t);
    PartIsNone(part, Body(t), Reading(RowOf(t), Ascii(CLOSING)));
  }

  /** So the reader that the transcript lemmas rely on exists. */
  lemma {:induction false} DecodeIsSound()
    ensures Sound(Decode) && Whole(Decode)
  {
    forall line: seq<Byte> ensures Decode(line + [NL]) == Decode(line) {
      assert (line + [NL])[..|line + [NL]| - 1] == line;
    }
    forall t: Turn | Accepted(t) && ValidId(t.id) ensures Decode(Body(t)) == Some(RowOf(t)) {
      RecordRoundTrip(t);
    }
    forall t: Turn, part: seq<Byte> | Accepted(t) && ValidId(t.id) && part < Body(t) ensures Decode(part).None? {
      PartIsNoRecord(t, part);
    }
  }

  /** A record that another writer has padded with spaces up to the reader's limit, and left without a line
      break, is read; but not any more once append_turn has closed its line. */
  lemma {:induction false} PaddedRecordLost(t: Turn, u: Turn) returns (file: seq<Byte>)
    requires Writable(t) && Writable(u)
    ensures TailLost(Decode, file) && Rows(Decode, file) == [RowOf(t)]
    ensures Rows(Decode, Appended(file, u)) == [RowOf(u)]
  {
    AcceptedFits(t);
    BodyIsOneLine(t);
    FirstByte(t);
    var n := LINE_LIMIT - |Body(t)|;
    file := Body(t) + Spaces(n);
    BodyTrimmed(t, n);
    ReadsBody(t);
    PaddedLine(Body(t), n);
    DecodeIsSound();
    LostWhenClosed(Decode, file, RowOf(t), u);
  }

  lemma {:induction false} FirstByte(t: Turn)
    requires Writable(t)
    ensures Body(t) != [] && Body(t)[0] == 123
  {
    assert Ascii(OPENING)[0] == 123;
  }

  lemma {:induction false} PaddedLine(body: seq<Byte>, n: nat)
    requires body != [] && NL !in body && !BlankByte(body[0])
    ensures NL !in body + Spaces(n) && !Blank(body + Spaces(n))
  {
    var file := body + Spaces(n);
    forall i | 0 <= i < |file| ensures file[i] != NL {
      assert i < |body| ==> file[i] in body;
    }
    assert file[0] == body[0];
  }
}
