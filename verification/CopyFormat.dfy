/** The binary COPY format as backend/scripts/database_transfer.py reads it: a parser over the
    whole stream, and the encoding it inverts ("Binary Format", COPY, PostgreSQL 17). */
module CopyFormat {
  import opened Outcomes

  type byte = b: int | 0 <= b < 256

  /** "PGCOPY\n\377\r\n\0", then a zero flags word and a zero extension length. */
  const SIGNATURE: seq<byte> := [80, 71, 67, 79, 80, 89, 10, 255, 13, 10, 0]
  const HEADER: seq<byte> := SIGNATURE + [0, 0, 0, 0, 0, 0, 0, 0]
  const TRAILER: seq<byte> := [255, 255]
  const MAX_COLUMNS := 2048

  function Unsigned16(d: seq<byte>, at: nat): (n: nat)
    requires at + 2 <= |d|
  {
    d[at] as int * 256 + d[at + 1] as int
  }

  function Signed16(d: seq<byte>, at: nat): int
    requires at + 2 <= |d|
  {
    var n := Unsigned16(d, at);
    if n < 0x8000 then n else n - 0x1_0000
  }

  function Signed32(d: seq<byte>, at: nat): int
    requires at + 4 <= |d|
  {
    var n := Unsigned16(d, at) * 0x1_0000 + Unsigned16(d, at + 2);
    if n < 0x8000_0000 then n else n - 0x1_0000_0000
  }

  datatype Reason =
    | Deadline | AfterTrailer | AggregateBound | ByteBound | HeaderRefused | ColumnBound | FieldBound
    | RowBound | IncompleteCopy

  /** What the buffer holds of the next row. */
  datatype Frame = Whole(size: nat) | Partial | Bad(reason: Reason)

  function Max(a: int, b: int): int {
    if a < b then b else a
  }

  /** The fields of a row from `offset` on. */
  function Fields(d: seq<byte>, offset: nat, count: nat, rowBytes: nat): (f: Frame)
    requires offset <= |d|
    ensures f.Whole? ==> offset <= f.size <= |d| && (count > 0 ==> f.size <= rowBytes)
    decreases count
  {
    if count == 0 then Whole(offset)
    else if |d| < offset + 4 then Partial
    else
      var size := Signed32(d, offset);
      var next := offset + 4 + Max(size, 0);
      if size < -1 || size > rowBytes then Bad(FieldBound)
      else if next > rowBytes then Bad(RowBound)
      else if |d| < next then Partial
      else Fields(d, next, count - 1, rowBytes)
  }

  function FirstFrame(d: seq<byte>, rowBytes: nat): (f: Frame)
    requires 2 <= |d|
    ensures f.Whole? ==> 2 <= f.size <= |d|
  {
    var count := Signed16(d, 0);
    if 0 <= count <= MAX_COLUMNS then Fields(d, 2, count, rowBytes) else Bad(ColumnBound)
  }

  datatype Tail = Ended(rest: seq<byte>) | Open(rest: seq<byte>) | Broken(reason: Reason)

  /** The rows at the head of `d` and what follows them. */
  datatype Parsed = Parsed(rows: seq<seq<byte>>, tail: Tail)

  function ParseRows(d: seq<byte>, rowBytes: nat): Parsed
    decreases |d|
  {
    if |d| < 2 then Parsed([], Open(d))
    else if Signed16(d, 0) == -1 then Parsed([], Ended(d[2..]))
    else
      match FirstFrame(d, rowBytes)
      case Partial => Parsed([], Open(d))
      case Bad(reason) => Parsed([], Broken(reason))
      case Whole(size) =>
        var later := ParseRows(d[size..], rowBytes);
        Parsed([d[..size]] + later.rows, later.tail)
  }

  predicate HasHeader(d: seq<byte>) {
    |d| >= 19 && d[..19] == HEADER
  }

  /** The simple parser over a whole stream: its row frames, or nothing when it is refused. */
  function Parse(d: seq<byte>, rowBytes: nat): Option<seq<seq<byte>>> {
    if !HasHeader(d) then None
    else
      var parsed := ParseRows(d[19..], rowBytes);
      if parsed.tail == Ended([]) then Some(parsed.rows) else None
  }

  // --- Parsing does not look past what it has consumed ---

  lemma {:induction false} FieldsStay(d: seq<byte>, e: seq<byte>, offset: nat, count: nat, rowBytes: nat)
    requires offset <= |d|
    ensures var f, f' := Fields(d, offset, count, rowBytes), Fields(d + e, offset, count, rowBytes);
            !f.Partial? ==> f' == f
    decreases count
  {
    if count > 0 && |d| >= offset + 4 {
      assert Signed32(d + e, offset) == Signed32(d, offset);
      var next := offset + 4 + Max(Signed32(d, offset), 0);
      if next <= |d| {
        FieldsStay(d, e, next, count - 1, rowBytes);
      }
    }
  }

  lemma FrameStays(d: seq<byte>, e: seq<byte>, rowBytes: nat)
    requires 2 <= |d|
    ensures !FirstFrame(d, rowBytes).Partial? ==> FirstFrame(d + e, rowBytes) == FirstFrame(d, rowBytes)
    ensures Signed16(d + e, 0) == Signed16(d, 0)
  {
    if 0 <= Signed16(d, 0) <= MAX_COLUMNS {
      FieldsStay(d, e, 2, Signed16(d, 0), rowBytes);
    }
  }

  /** What `d` parses to, continued with the bytes `e`. */
  function Continued(p: Parsed, e: seq<byte>, rowBytes: nat): Parsed {
    match p.tail
    case Ended(rest) => Parsed(p.rows, Ended(rest + e))
    case Broken(_) => p
    case Open(rest) => Parsed(p.rows + ParseRows(rest + e, rowBytes).rows, ParseRows(rest + e, rowBytes).tail)
  }

  lemma {:induction false} ContinuedCons(frame: seq<byte>, p: Parsed, e: seq<byte>, rowBytes: nat)
    ensures Continued(Parsed([frame] + p.rows, p.tail), e, rowBytes)
            == Parsed([frame] + Continued(p, e, rowBytes).rows, Continued(p, e, rowBytes).tail)
  {
  }

  /** Parsing `d` and then the rest of `d` with more bytes is parsing the longer string. */
  lemma {:induction false} ParseAppend(d: seq<byte>, e: seq<byte>, rowBytes: nat)
    ensures ParseRows(d + e, rowBytes) == Continued(ParseRows(d, rowBytes), e, rowBytes)
    decreases |d|
  {
    hide FirstFrame, Signed16, Continued;
    if |d| < 2 {
      OpenContinues(d, e, rowBytes);
    } else {
      FrameStays(d, e, rowBytes);
      if Signed16(d, 0) == -1 {
        assert (d + e)[2..] == d[2..] + e;
        EndContinues(d[2..], e, rowBytes);
      } else if FirstFrame(d, rowBytes).Whole? {
        var size := FirstFrame(d, rowBytes).size;
        assert (d + e)[size..] == d[size..] + e && (d + e)[..size] == d[..size];
        ParseAppend(d[size..], e, rowBytes);
        ContinuedCons(d[..size], ParseRows(d[size..], rowBytes), e, rowBytes);
      } else {
        OpenContinues(d, e, rowBytes);
      }
    }
  }

  lemma {:induction false} OpenContinues(d: seq<byte>, e: seq<byte>, rowBytes: nat)
    ensures Continued(Parsed([], Open(d)), e, rowBytes) == ParseRows(d + e, rowBytes)
    ensures forall reason :: Continued(Parsed([], Broken(reason)), e, rowBytes) == Parsed([], Broken(reason))
  {
    assert [] + ParseRows(d + e, rowBytes).rows == ParseRows(d + e, rowBytes).rows;
  }

  lemma EndContinues(rest: seq<byte>, e: seq<byte>, rowBytes: nat)
    ensures Continued(Parsed([], Ended(rest)), e, rowBytes) == Parsed([], Ended(rest + e))
  {
  }

  /** A row that is unfinished after more bytes than a row may have is never finished. */
  lemma {:induction false} LongPartialFields(d: seq<byte>, e: seq<byte>, offset: nat, count: nat, rowBytes: nat)
    requires offset <= |d| && Fields(d, offset, count, rowBytes).Partial? && |d| > rowBytes
    ensures !Fields(d + e, offset, count, rowBytes).Whole?
    decreases count
  {
    if |d| >= offset + 4 {
      assert Signed32(d + e, offset) == Signed32(d, offset);
      var next := offset + 4 + Max(Signed32(d, offset), 0);
      if next <= |d| {
        LongPartialFields(d, e, next, count - 1, rowBytes);
      }
    }
  }

  lemma {:induction false} LongPartialNeverEnds(d: seq<byte>, e: seq<byte>, rowBytes: nat)
    requires rowBytes >= 1 && |d| > rowBytes && ParseRows(d, rowBytes).tail == Open(d)
    ensures !ParseRows(d + e, rowBytes).tail.Ended? && ParseRows(d + e, rowBytes).rows == []
  {
    FrameStays(d, e, rowBytes);
    if FirstFrame(d, rowBytes).Whole? {
      RestIsShorter(d[FirstFrame(d, rowBytes).size..], rowBytes);
    } else {
      LongPartialFields(d, e, 2, Signed16(d, 0), rowBytes);
    }
  }

  /** The bound tested after each chunk never refuses the start of a stream that ends well. */
  ghost predicate BoundRefusesNoGoodStream(rowBytes: nat) {
    forall d, e :: ParseRows(d, rowBytes).tail == Open(d) && |d| > rowBytes ==> !ParseRows(d + e, rowBytes).tail.Ended?
  }

  /** That needs a positive bound: a chunk may end between the two bytes of the trailer. */
  lemma {:induction false} BoundMustBePositive(rowBytes: nat)
    ensures BoundRefusesNoGoodStream(rowBytes) <==> rowBytes >= 1
  {
    if rowBytes >= 1 {
      forall d, e | ParseRows(d, rowBytes).tail == Open(d) && |d| > rowBytes
        ensures !ParseRows(d + e, rowBytes).tail.Ended?
      {
        LongPartialNeverEnds(d, e, rowBytes);
      }
    } else {
      var half: seq<byte> := [0xFF];
      assert ParseRows(half, 0).tail == Open(half) && |half| > 0;
      assert half + half == [0xFF, 0xFF] && Signed16(half + half, 0) == -1;
      assert ParseRows(half + half, 0).tail.Ended?;
    }
  }

  lemma {:induction false} RestIsShorter(d: seq<byte>, rowBytes: nat)
    ensures ParseRows(d, rowBytes).tail.Open? ==> |ParseRows(d, rowBytes).tail.rest| <= |d|
    decreases |d|
  {
    if |d| >= 2 && Signed16(d, 0) != -1 && FirstFrame(d, rowBytes).Whole? {
      RestIsShorter(d[FirstFrame(d, rowBytes).size..], rowBytes);
    }
  }

  /** What is left open after the last whole row parses to itself. */
  lemma {:induction false} RestIsOpen(d: seq<byte>, rowBytes: nat)
    requires ParseRows(d, rowBytes).tail.Open?
    ensures var rest := ParseRows(d, rowBytes).tail.rest; ParseRows(rest, rowBytes) == Parsed([], Open(rest))
    decreases |d|
  {
    if |d| >= 2 && Signed16(d, 0) != -1 && FirstFrame(d, rowBytes).Whole? {
      RestIsOpen(d[FirstFrame(d, rowBytes).size..], rowBytes);
    }
  }

  // --- The encoding ---

  type Field = Option<seq<byte>>
  type Row = seq<Field>

  function Be16(n: nat): (d: seq<byte>)
    requires n < 0x1_0000
    ensures |d| == 2
  {
    [n / 256, n % 256]
  }

  function Be32(n: nat): (d: seq<byte>)
    requires n < 0x1_0000_0000
    ensures |d| == 4
  {
    Be16(n / 0x1_0000) + Be16(n % 0x1_0000)
  }

  predicate FieldFits(f: Field) {
    f.Some? ==> |f.value| < 0x8000_0000
  }

  predicate FieldsFit(r: Row) {
    forall i :: 0 <= i < |r| ==> FieldFits(r[i])
  }

  function EncodeField(f: Field): (d: seq<byte>)
    requires FieldFits(f)
    ensures |d| == 4 + (if f.Some? then |f.value| else 0)
  {
    match f
    case None => [255, 255, 255, 255]
    case Some(v) => Be32(|v|) + v
  }

  function EncodeFields(r: Row): seq<byte>
    requires FieldsFit(r)
  {
    if r == [] then [] else EncodeField(r[0]) + EncodeFields(r[1..])
  }

  predicate Encodable(r: Row) {
    |r| <= MAX_COLUMNS && FieldsFit(r)
  }

  function EncodeRow(r: Row): seq<byte>
    requires Encodable(r)
  {
    Be16(|r|) + EncodeFields(r)
  }

  /** The rows the reader's limits admit; the size bound is never tested on a row without fields. */
  predicate RowFits(r: Row, rowBytes: nat) {
    Encodable(r) && (r != [] ==> |EncodeRow(r)| <= rowBytes)
  }

  predicate RowsFit(rows: seq<Row>, rowBytes: nat) {
    forall i :: 0 <= i < |rows| ==> RowFits(rows[i], rowBytes)
  }

  function EncodeRows(rows: seq<Row>, rowBytes: nat): seq<byte>
    requires RowsFit(rows, rowBytes)
  {
    if rows == [] then TRAILER else EncodeRow(rows[0]) + EncodeRows(rows[1..], rowBytes)
  }

  function EncodeStream(rows: seq<Row>, rowBytes: nat): seq<byte>
    requires RowsFit(rows, rowBytes)
  {
    HEADER + EncodeRows(rows, rowBytes)
  }

  function Frames(rows: seq<Row>, rowBytes: nat): seq<seq<byte>>
    requires RowsFit(rows, rowBytes)
  {
    if rows == [] then [] else [EncodeRow(rows[0])] + Frames(rows[1..], rowBytes)
  }

  // --- Encoding, then parsing ---

  lemma {:induction false} ReadBe16(n: nat, d: seq<byte>, at: nat)
    requires n < 0x1_0000 && at + 2 <= |d| && d[at..at + 2] == Be16(n)
    ensures Unsigned16(d, at) == n
  {
    assert d[at] == d[at..at + 2][0] && d[at + 1] == d[at..at + 2][1];
  }

  lemma {:induction false} ReadBe32(n: nat, d: seq<byte>, at: nat)
    requires n < 0x8000_0000 && at + 4 <= |d| && d[at..at + 4] == Be32(n)
    ensures Signed32(d, at) == n
  {
  }

  lemma {:induction false} ReadNull(d: seq<byte>, at: nat)
    requires at + 4 <= |d| && d[at..at + 4] == EncodeField(None)
    ensures Signed32(d, at) == -1
  {
    assert d[at] == d[at..at + 4][0] && d[at + 1] == d[at..at + 4][1];
    assert d[at + 2] == d[at..at + 4][2] && d[at + 3] == d[at..at + 4][3];
  }

  lemma {:induction false} ReadSize(f: Field, d: seq<byte>, at: nat)
    requires FieldFits(f) && at + 4 <= |d| && d[at..at + 4] == EncodeField(f)[..4]
    ensures Signed32(d, at) == if f.Some? then |f.value| else -1
  {
    match f
    case None =>
      assert EncodeField(f)[..4] == EncodeField(None);
      ReadNull(d, at);
    case Some(v) =>
      assert EncodeField(f)[..4] == Be32(|v|);
      ReadBe32(|v|, d, at);
  }

  /** `d` holds the encoded fields of `r` at `offset`. */
  predicate Holds(d: seq<byte>, offset: nat, r: Row)
    requires FieldsFit(r)
  {
    offset + |EncodeFields(r)| <= |d| && d[offset..offset + |EncodeFields(r)|] == EncodeFields(r)
  }

  lemma SplitSlice(d: seq<byte>, offset: nat, head: seq<byte>, tail: seq<byte>)
    requires offset + |head| + |tail| <= |d| && d[offset..offset + |head| + |tail|] == head + tail
    ensures d[offset..offset + |head|] == head && d[offset + |head|..offset + |head| + |tail|] == tail
  {
    var whole := d[offset..offset + |head| + |tail|];
    assert whole[..|head|] == head && whole[|head|..] == tail;
    assert d[offset..offset + |head|] == whole[..|head|];
    assert d[offset + |head|..offset + |head| + |tail|] == whole[|head|..];
  }

  lemma HoldsFirst(d: seq<byte>, offset: nat, r: Row)
    requires FieldsFit(r) && r != [] && Holds(d, offset, r)
    ensures var head, next := EncodeField(r[0]), offset + |EncodeField(r[0])|;
            next <= |d| && d[offset..next] == head && Holds(d, next, r[1..])
  {
    hide EncodeField;
    SplitSlice(d, offset, EncodeField(r[0]), EncodeFields(r[1..]));
  }

  lemma {:induction false} ReadFirst(d: seq<byte>, offset: nat, f: Field)
    requires FieldFits(f) && offset + |EncodeField(f)| <= |d| && d[offset..offset + |EncodeField(f)|] == EncodeField(f)
    ensures Signed32(d, offset) == (if f.Some? then |f.value| else -1)
    ensures f.Some? ==> d[offset + 4..offset + 4 + |f.value|] == f.value
  {
    var head := EncodeField(f);
    assert d[offset..offset + 4] == d[offset..offset + |head|][..4];
    ReadSize(f, d, offset);
    if f.Some? {
      assert d[offset + 4..offset + |head|] == d[offset..offset + |head|][4..];
    }
  }

  lemma {:induction false} ParseFields(d: seq<byte>, offset: nat, r: Row, rowBytes: nat)
    requires FieldsFit(r) && Holds(d, offset, r) && (r != [] ==> offset + |EncodeFields(r)| <= rowBytes)
    ensures Fields(d, offset, |r|, rowBytes) == Whole(offset + |EncodeFields(r)|)
    decreases |r|
  {
    hide Holds, EncodeField, Signed32;
    if r != [] {
      HoldsFirst(d, offset, r);
      ReadFirst(d, offset, r[0]);
      ParseFields(d, offset + |EncodeField(r[0])|, r[1..], rowBytes);
    }
  }

  /** A frame is recognised whatever follows it: frames are prefix-free. */
  lemma {:induction false} ParseFrame(r: Row, after: seq<byte>, rowBytes: nat)
    requires RowFits(r, rowBytes)
    ensures var d := EncodeRow(r) + after;
            Signed16(d, 0) == |r| && FirstFrame(d, rowBytes) == Whole(|EncodeRow(r)|)
  {
    var d := EncodeRow(r) + after;
    assert d[0..2] == Be16(|r|);
    ReadBe16(|r|, d, 0);
    assert d[2..2 + |EncodeFields(r)|] == EncodeFields(r);
    ParseFields(d, 2, r, rowBytes);
  }

  lemma {:induction false} ParseEncodedRows(rows: seq<Row>, rowBytes: nat)
    requires RowsFit(rows, rowBytes)
    ensures ParseRows(EncodeRows(rows, rowBytes), rowBytes) == Parsed(Frames(rows, rowBytes), Ended([]))
    decreases |rows|
  {
    if rows == [] {
      assert Signed16(TRAILER, 0) == -1 && TRAILER[2..] == [];
    } else {
      var head, tail := EncodeRow(rows[0]), EncodeRows(rows[1..], rowBytes);
      ParseFrame(rows[0], tail, rowBytes);
      ParseEncodedRows(rows[1..], rowBytes);
      assert (head + tail)[|head|..] == tail && (head + tail)[..|head|] == head;
    }
  }

  /** Encoding any rows within limits and parsing them gives back exactly their frames. */
  lemma {:induction false} RoundTrip(rows: seq<Row>, rowBytes: nat)
    requires RowsFit(rows, rowBytes)
    ensures Parse(EncodeStream(rows, rowBytes), rowBytes) == Some(Frames(rows, rowBytes))
  {
    var d := EncodeStream(rows, rowBytes);
    assert d[..19] == HEADER && d[19..] == EncodeRows(rows, rowBytes);
    ParseEncodedRows(rows, rowBytes);
  }

  // --- Parsing, then decoding ---

  function DecodeFields(d: seq<byte>, offset: nat, count: nat): Row
    decreases count
  {
    if count == 0 || |d| < offset + 4 then []
    else
      var size := Signed32(d, offset);
      var next := offset + 4 + Max(size, 0);
      if |d| < next then []
      else [if size < 0 then None else Some(d[offset + 4..next])] + DecodeFields(d, next, count - 1)
  }

  function DecodeRow(frame: seq<byte>): Row {
    if |frame| < 2 || Signed16(frame, 0) < 0 then [] else DecodeFields(frame, 2, Signed16(frame, 0))
  }

  lemma {:induction false} EncodeSize(d: seq<byte>, at: nat)
    requires at + 4 <= |d| && Signed32(d, at) >= -1
    ensures Signed32(d, at) == -1 ==> d[at..at + 4] == EncodeField(None)
    ensures Signed32(d, at) >= 0 ==> d[at..at + 4] == Be32(Signed32(d, at))
  {
  }

  lemma {:induction false} EncodeUnsigned16(d: seq<byte>, at: nat)
    requires at + 2 <= |d|
    ensures Unsigned16(d, at) < 0x1_0000 && Be16(Unsigned16(d, at)) == d[at..at + 2]
    ensures Unsigned16(d, at) == 0xffff ==> d[at] == 255 && d[at + 1] == 255
  {
  }

  lemma SizeIsSmall(d: seq<byte>, at: nat)
    requires at + 4 <= |d|
    ensures Signed32(d, at) < 0x8000_0000
  {
  }

  lemma DecodedField(d: seq<byte>, offset: nat)
    requires offset + 4 <= |d| && Signed32(d, offset) >= -1
    requires offset + 4 + Max(Signed32(d, offset), 0) <= |d|
    ensures var size := Signed32(d, offset);
            var next := offset + 4 + Max(size, 0);
            EncodeField(if size == -1 then None else Some(d[offset + 4..next])) == d[offset..next]
  {
    hide Signed32;
    var next := offset + 4 + Max(Signed32(d, offset), 0);
    EncodeSize(d, offset);
    assert d[offset..next] == d[offset..offset + 4] + d[offset + 4..next];
  }

  lemma {:induction false} DecodedFields(d: seq<byte>, offset: nat, count: nat, rowBytes: nat)
    requires offset <= |d| && Fields(d, offset, count, rowBytes).Whole? && rowBytes < 0x8000_0000
    ensures var r, end := DecodeFields(d, offset, count), Fields(d, offset, count, rowBytes).size;
            |r| == count && FieldsFit(r) && EncodeFields(r) == d[offset..end]
    decreases count
  {
    hide Signed32, EncodeField;
    if count > 0 {
      var size := Signed32(d, offset);
      var next := offset + 4 + Max(size, 0);
      var r := DecodeFields(d, offset, count);
      DecodedFields(d, next, count - 1, rowBytes);
      DecodedField(d, offset);
      SizeIsSmall(d, offset);
      assert r[1..] == DecodeFields(d, next, count - 1);
      var end := Fields(d, offset, count, rowBytes).size;
      assert d[offset..end] == d[offset..next] + d[next..end];
    }
  }

  lemma {:induction false} FieldsWithin(d: seq<byte>, e: seq<byte>, offset: nat, count: nat, rowBytes: nat)
    requires offset <= |d| && Fields(d + e, offset, count, rowBytes) == Whole(|d|)
    ensures Fields(d, offset, count, rowBytes) == Whole(|d|)
    decreases count
  {
    if count > 0 {
      assert offset + 4 <= |d| by { EndIsLater(d + e, offset, count, rowBytes); }
      assert Signed32(d + e, offset) == Signed32(d, offset);
      FieldsWithin(d, e, offset + 4 + Max(Signed32(d, offset), 0), count - 1, rowBytes);
    }
  }

  lemma EndIsLater(d: seq<byte>, offset: nat, count: nat, rowBytes: nat)
    requires offset <= |d| && count > 0 && Fields(d, offset, count, rowBytes).Whole?
    ensures offset + 4 + Max(Signed32(d, offset), 0) <= Fields(d, offset, count, rowBytes).size
  {
  }

  /** A recognised frame is the encoding of the row it decodes to. */
  lemma DecodedFrame(d: seq<byte>, rowBytes: nat)
    requires 2 <= |d| && FirstFrame(d, rowBytes).Whole? && rowBytes < 0x8000_0000
    ensures var frame := d[..FirstFrame(d, rowBytes).size];
            RowFits(DecodeRow(frame), rowBytes) && EncodeRow(DecodeRow(frame)) == frame
  {
    var size := FirstFrame(d, rowBytes).size;
    var frame, rest, count := d[..size], d[size..], Signed16(d, 0);
    assert d == frame + rest;
    assert Signed16(frame, 0) == count;
    FieldsWithin(frame, rest, 2, count, rowBytes);
    DecodedFields(frame, 2, count, rowBytes);
    EncodeUnsigned16(frame, 0);
    assert frame == frame[0..2] + frame[2..size];
  }

  function DecodeRows(frames: seq<seq<byte>>): seq<Row> {
    if frames == [] then [] else [DecodeRow(frames[0])] + DecodeRows(frames[1..])
  }

  lemma {:induction false} TrailerOnly(d: seq<byte>)
    requires |d| == 2 && Signed16(d, 0) == -1
    ensures d == TRAILER
  {
    EncodeUnsigned16(d, 0);
    assert d == [d[0], d[1]];
  }

  lemma {:induction false} DecodedCons(frame: seq<byte>, frames: seq<seq<byte>>, d: seq<byte>, rowBytes: nat)
    requires RowFits(DecodeRow(frame), rowBytes) && EncodeRow(DecodeRow(frame)) == frame
    requires RowsFit(DecodeRows(frames), rowBytes) && EncodeRows(DecodeRows(frames), rowBytes) == d
    requires Frames(DecodeRows(frames), rowBytes) == frames
    ensures var rows := DecodeRows([frame] + frames);
            && RowsFit(rows, rowBytes) && EncodeRows(rows, rowBytes) == frame + d
            && Frames(rows, rowBytes) == [frame] + frames
  {
  }

  lemma {:induction false} DecodedRows(d: seq<byte>, rowBytes: nat)
    requires ParseRows(d, rowBytes).tail == Ended([]) && rowBytes < 0x8000_0000
    ensures var rows := DecodeRows(ParseRows(d, rowBytes).rows);
            && RowsFit(rows, rowBytes) && EncodeRows(rows, rowBytes) == d
            && Frames(rows, rowBytes) == ParseRows(d, rowBytes).rows
    decreases |d|
  {
    hide DecodeRow, EncodeRow, RowFits, FirstFrame, Signed16;
    if Signed16(d, 0) == -1 {
      TrailerOnly(d);
    } else {
      var size := FirstFrame(d, rowBytes).size;
      DecodedFrame(d, rowBytes);
      DecodedRows(d[size..], rowBytes);
      DecodedCons(d[..size], ParseRows(d[size..], rowBytes).rows, d[size..], rowBytes);
      assert d == d[..size] + d[size..];
    }
  }

  /** A stream is accepted exactly when it is the header, frames of rows within limits, and the
      trailer; the frames are then those of the rows. */
  lemma {:induction false} AcceptedIffEncoded(d: seq<byte>, rowBytes: nat)
    requires rowBytes < 0x8000_0000
    ensures Parse(d, rowBytes).Some? <==>
              exists rows: seq<Row> :: RowsFit(rows, rowBytes) && EncodeStream(rows, rowBytes) == d
    ensures Parse(d, rowBytes).Some? ==>
              var rows := DecodeRows(Parse(d, rowBytes).value);
              && RowsFit(rows, rowBytes) && EncodeStream(rows, rowBytes) == d
              && Frames(rows, rowBytes) == Parse(d, rowBytes).value
  {
    if Parse(d, rowBytes).Some? {
      DecodedRows(d[19..], rowBytes);
      assert d == d[..19] + d[19..];
    }
    forall rows: seq<Row> | RowsFit(rows, rowBytes) && EncodeStream(rows, rowBytes) == d
      ensures Parse(d, rowBytes).Some?
    {
      RoundTrip(rows, rowBytes);
    }
  }

  // --- Uniqueness ---

  lemma {:induction false} DecodeEncodedFields(d: seq<byte>, offset: nat, r: Row)
    requires FieldsFit(r) && Holds(d, offset, r)
    ensures DecodeFields(d, offset, |r|) == r
    decreases |r|
  {
    hide Holds, EncodeField, Signed32;
    if r != [] {
      HoldsFirst(d, offset, r);
      ReadFirst(d, offset, r[0]);
      DecodeEncodedFields(d, offset + |EncodeField(r[0])|, r[1..]);
      assert [r[0]] + r[1..] == r;
    }
  }

  lemma {:induction false} DecodeEncoded(r: Row)
    requires Encodable(r)
    ensures DecodeRow(EncodeRow(r)) == r
  {
    var d := EncodeRow(r);
    assert d[0..2] == Be16(|r|);
    ReadBe16(|r|, d, 0);
    DecodeEncodedFields(d, 2, r);
  }

  lemma {:induction false} DecodeFrames(rows: seq<Row>, rowBytes: nat)
    requires RowsFit(rows, rowBytes)
    ensures DecodeRows(Frames(rows, rowBytes)) == rows
    decreases |rows|
  {
    if rows != [] {
      DecodeEncoded(rows[0]);
      DecodeFrames(rows[1..], rowBytes);
      assert Frames(rows, rowBytes)[1..] == Frames(rows[1..], rowBytes);
      assert [rows[0]] + rows[1..] == rows;
    }
  }

  /** One stream encodes one sequence of rows, exact in every NULL, empty value and byte. */
  lemma {:induction false} RowsUnique(a: seq<Row>, b: seq<Row>, rowBytes: nat)
    requires RowsFit(a, rowBytes) && RowsFit(b, rowBytes) && EncodeStream(a, rowBytes) == EncodeStream(b, rowBytes)
    ensures a == b
  {
    RoundTrip(a, rowBytes);
    RoundTrip(b, rowBytes);
    DecodeFrames(a, rowBytes);
    DecodeFrames(b, rowBytes);
  }

  // --- Streams written out byte by byte ---

  /** The nineteen bytes every stream starts with, in the order they are sent. */
  ghost predicate StartsAsCopy(d: seq<byte>) {
    |d| >= 19 && d[..19] == [80, 71, 67, 79, 80, 89, 10, 255, 13, 10, 0, 0, 0, 0, 0, 0, 0, 0, 0]
  }

  lemma {:induction false} HeaderBytes(d: seq<byte>)
    ensures HasHeader(d) <==> StartsAsCopy(d)
  {
    assert HEADER == [80, 71, 67, 79, 80, 89, 10, 255, 13, 10, 0, 0, 0, 0, 0, 0, 0, 0, 0];
  }

  /** What PostgreSQL sends for a table without rows. */
  lemma {:induction false} EmptyTable(rowBytes: nat)
    ensures Parse([80, 71, 67, 79, 80, 89, 10, 255, 13, 10, 0, 0, 0, 0, 0, 0, 0, 0, 0, 255, 255], rowBytes) == Some([])
  {
    var d: seq<byte> := [80, 71, 67, 79, 80, 89, 10, 255, 13, 10, 0, 0, 0, 0, 0, 0, 0, 0, 0, 255, 255];
    HeaderBytes(d);
    assert d[19..] == [255, 255];
  }

  lemma {:induction false} NoColumnBound(d: seq<byte>, offset: nat, count: nat, rowBytes: nat)
    requires offset <= |d|
    ensures Fields(d, offset, count, rowBytes) != Bad(ColumnBound)
    decreases count
  {
    if count > 0 && |d| >= offset + 4 {
      var next := offset + 4 + Max(Signed32(d, offset), 0);
      if next <= |d| {
        NoColumnBound(d, next, count - 1, rowBytes);
      }
    }
  }

  /** What the first two bytes of a row say: 65535 ends the rows, 2049 to 65534 are refused as a count, and up to
      2048 fields are read, so that a row without fields is those two bytes. */
  lemma {:induction false} FirstCount(d: seq<byte>, rowBytes: nat)
    requires |d| >= 2
    ensures var count, p := d[0] as int * 256 + d[1] as int, ParseRows(d, rowBytes);
            && (p == Parsed([], Ended(d[2..])) <==> count == 65535)
            && (p == Parsed([], Broken(ColumnBound)) <==> 2049 <= count <= 65534)
            && (count == 0 ==> p.rows != [] && p.rows[0] == [0, 0])
  {
    var count := d[0] as int * 256 + d[1] as int;
    if count <= 2048 {
      NoColumnBound(d, 2, count, rowBytes);
    }
    if count == 0 {
      assert d[..2] == [0, 0];
    }
  }

  /** And for one row with the one field "A": a big-endian count and a big-endian size. */
  lemma {:induction false} OneRow(rowBytes: nat)
    requires rowBytes >= 7
    ensures Parse([80, 71, 67, 79, 80, 89, 10, 255, 13, 10, 0, 0, 0, 0, 0, 0, 0, 0, 0, 0, 1, 0, 0, 0, 1, 65, 255, 255],
                  rowBytes) == Some([[0, 1, 0, 0, 0, 1, 65]])
  {
    var d: seq<byte> := [80, 71, 67, 79, 80, 89, 10, 255, 13, 10, 0, 0, 0, 0, 0, 0, 0, 0, 0,
                         0, 1, 0, 0, 0, 1, 65, 255, 255];
    HeaderBytes(d);
    var row: seq<byte> := [0, 1, 0, 0, 0, 1, 65, 255, 255];
    assert d[19..] == row && row[..7] == [0, 1, 0, 0, 0, 1, 65] && row[7..] == [255, 255];
    assert Signed16(row, 0) == 1 && Signed32(row, 2) == 1;
    assert Fields(row, 2, 1, rowBytes) == Fields(row, 7, 0, rowBytes) == Whole(7);
    FirstCount(row[7..], rowBytes);
    assert row[7..][2..] == [];
    assert ParseRows(row, rowBytes) == Parsed([row[..7]] + [], Ended([]));
    assert [row[..7]] + [] == [[0, 1, 0, 0, 0, 1, 65]];
  }
}
