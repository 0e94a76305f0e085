/** One transcript record as append_turn writes it (demo/projects.py): a JSON line, its escapes and its
    size. */
module TranscriptLine {
  type Byte = b: int | 0 <= b < 256

  const NL: Byte := 10
  const MESSAGE_MAX_BYTES: nat := 16 * 1024 * 1024
  const LINE_LIMIT: nat := MESSAGE_MAX_BYTES * 6 + 2048
  const ROLE_MAX: nat := 64

  // ---------------------------------------------------------------- text as bytes

  /** Code points; what can be encoded in UTF-8 is every scalar value. */
  type Text = seq<nat>

  predicate Scalar(c: nat) {
    c < 0xD800 || 0xE000 <= c < 0x110000
  }

  predicate ValidText(t: Text) {
    forall i :: 0 <= i < |t| ==> Scalar(t[i])
  }

  /** The UTF-8 encoding of one scalar value (section 3 of RFC 3629). */
  function Utf8(c: nat): (r: seq<Byte>)
    requires Scalar(c)
    ensures 1 <= |r| <= 4
  {
    if c < 0x80 then [c]
    else if c < 0x800 then [0xC0 + c / 64, 0x80 + c % 64]
    else if c < 0x1_0000 then [0xE0 + c / 4096, 0x80 + c / 64 % 64, 0x80 + c % 64]
    else [0xF0 + c / 262144, 0x80 + c / 4096 % 64, 0x80 + c / 64 % 64, 0x80 + c % 64]
  }

  /** Beyond ASCII no byte is below 128. */
  lemma {:induction false} Utf8High(c: nat, i: nat)
    requires Scalar(c) && c >= 0x80 && i < |Utf8(c)|
    ensures Utf8(c)[i] >= 0x80
  {
  }

  function Hex(d: nat): Byte
    requires d < 16
  {
    if d < 10 then 48 + d else 87 + d
  }

  /** A character inside a JSON string with non-ASCII kept as it is: quote, backslash and control
      characters are escaped. */
  function Escaped(c: nat): (r: seq<Byte>)
    requires Scalar(c)
  {
    if c == 34 then [92, 34]
    else if c == 92 then [92, 92]
    else if c == 8 then [92, 98]
    else if c == 9 then [92, 116]
    else if c == 10 then [92, 110]
    else if c == 12 then [92, 102]
    else if c == 13 then [92, 114]
    else if c < 32 then [92, 117, 48, 48, Hex(c / 16), Hex(c % 16)]
    else Utf8(c)
  }

  /** At most six bytes for each byte of the original, and never a raw line break. */
  lemma {:induction false} EscapedBound(c: nat)
    requires Scalar(c)
    ensures |Escaped(c)| <= 6 * |Utf8(c)| && |Escaped(c)| <= 6
    ensures NL !in Escaped(c)
  {
    if c >= 0x80 {
      forall i | 0 <= i < |Utf8(c)| ensures Utf8(c)[i] != NL {
        Utf8High(c, i);
      }
    }
  }

  function Utf8Text(t: Text): seq<Byte>
    requires ValidText(t)
  {
    if t == [] then [] else Utf8Text(t[..|t| - 1]) + Utf8(t[|t| - 1])
  }

  function EscapedText(t: Text): seq<Byte>
    requires ValidText(t)
  {
    if t == [] then [] else EscapedText(t[..|t| - 1]) + Escaped(t[|t| - 1])
  }

  lemma {:induction false} EscapedTextBound(t: Text)
    requires ValidText(t)
    ensures |EscapedText(t)| <= 6 * |Utf8Text(t)| && |EscapedText(t)| <= 6 * |t|
    ensures NL !in EscapedText(t)
    decreases |t|
  {
    if t != [] {
      EscapedTextBound(t[..|t| - 1]);
      EscapedBound(t[|t| - 1]);
    }
  }

  // ---------------------------------------------------------------- the record line

  /** A turn to append: 32 hexadecimal digits of id, a time in seconds, role and text. */
  datatype Turn = Turn(id: seq<Byte>, ts: nat, role: Text, text: Text)

  function Digits(n: nat): seq<Byte> {
    if n < 10 then [48 + n] else Digits(n / 10) + [48 + n % 10]
  }

  lemma {:induction false} DigitsPlain(n: nat)
    ensures NL !in Digits(n)
  {
    if n >= 10 {
      DigitsPlain(n / 10);
    }
  }

  function Ascii(s: string): (r: seq<Byte>)
    requires forall i :: 0 <= i < |s| ==> s[i] as int < 128
    ensures |r| == |s| && forall i :: 0 <= i < |s| ==> r[i] == s[i] as int
  {
    seq(|s|, i requires 0 <= i < |s| => s[i] as int)
  }

  predicate ValidId(id: seq<Byte>) {
    |id| == 32 && forall i :: 0 <= i < |id| ==> 48 <= id[i] <= 57 || 97 <= id[i] <= 102
  }

  /** What append_turn accepts. */
  predicate Accepted(t: Turn) {
    && ValidText(t.role) && 1 <= |t.role| <= ROLE_MAX
    && ValidText(t.text) && |Utf8Text(t.text)| <= MESSAGE_MAX_BYTES
  }

  const OPENING := "{\"id\": \"msg-"
  const TS_FIELD := "\", \"ts\": "
  const ROLE_FIELD := ", \"role\": \""
  const TEXT_FIELD := "\", \"text\": \""
  const CLOSING := "\"}"

  /** Role and text with what stands between and after them. */
  function Fields(t: Turn): seq<Byte>
    requires ValidText(t.role) && ValidText(t.text)
  {
    EscapedText(t.role) + Ascii(TEXT_FIELD) + EscapedText(t.text) + Ascii(CLOSING)
  }

  /** The JSON object, without its line break. */
  function Body(t: Turn): seq<Byte>
    requires ValidText(t.role) && ValidText(t.text)
  {
    (Ascii(OPENING) + t.id) + (Ascii(TS_FIELD) + (Digits(t.ts) + (Ascii(ROLE_FIELD) + Fields(t))))
  }

  function Line(t: Turn): seq<Byte>
    requires ValidText(t.role) && ValidText(t.text)
  {
    Body(t) + [NL]
  }

  /** The line of an accepted turn is one line of at most 6 bytes per byte of text and 463 more, besides
      the digits of its time. */
  lemma {:induction false} LineSize(t: Turn)
    requires Accepted(t) && ValidId(t.id)
    ensures |Line(t)| <= 6 * |Utf8Text(t.text)| + 463 + |Digits(t.ts)|
  {
    EscapedTextBound(t.role);
    EscapedTextBound(t.text);
  }

  /** So every record append_turn writes is within the reader's limit, for any time of up to 1585 digits. */
  lemma {:induction false} AcceptedFits(t: Turn)
    requires Accepted(t) && ValidId(t.id) && |Digits(t.ts)| <= 1585
    ensures |Line(t)| <= LINE_LIMIT
  {
    LineSize(t);
  }

  lemma {:induction false} PlainAscii(s: string)
    requires forall i :: 0 <= i < |s| ==> 32 <= s[i] as int < 128
    ensures NL !in Ascii(s)
  {
  }

  /** And it holds no line break but its last byte. */
  lemma {:induction false} BodyIsOneLine(t: Turn)
    requires Accepted(t) && ValidId(t.id)
    ensures NL !in Body(t) && Body(t) != []
  {
    PlainAscii(OPENING);
    PlainAscii(TS_FIELD);
    PlainAscii(ROLE_FIELD);
    PlainAscii(TEXT_FIELD);
    PlainAscii(CLOSING);
    DigitsPlain(t.ts);
    EscapedTextBound(t.role);
    EscapedTextBound(t.text);
  }
}
