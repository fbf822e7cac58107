/** The streaming reader `_rows` and the shared content budget. */
module CopyRows {
  import opened Outcomes
  import opened CopyFormat

  datatype Limits = Limits(contentBytes: nat, rowBytes: nat, rows: nat, objects: nat) {
    /** What `Limits.validate` demands before any transfer. */
    predicate Valid() {
      && 0 < contentBytes <= 512 * 1024 * 1024 && 0 < rowBytes <= 16 * 1024 * 1024
      && 0 < rows <= 1_000_000 && 0 < objects <= 256
    }
  }

  /** The widest limits: 512 MiB of content, 16 MiB a row, a million rows, 256 objects. */
  lemma {:induction false} ValidLimits(l: Limits)
    ensures l.Valid() <==>
              && 1 <= l.contentBytes <= 536_870_912 && 1 <= l.rowBytes <= 16_777_216
              && 1 <= l.rows <= 1_000_000 && 1 <= l.objects <= 256
  {
  }

  class ContentBudget {
    var bytesLeft: int
    var rowsLeft: int

    constructor (bytes: nat, rows: nat)
      ensures bytesLeft == bytes && rowsLeft == rows
    {
      bytesLeft, rowsLeft := bytes, rows;
    }

    /** The charge is taken first and refused afterwards, so a refusal leaves it taken. */
    method Charge(size: nat, rows: nat) returns (ok: bool)
      modifies this
      ensures bytesLeft == old(bytesLeft) - size && rowsLeft == old(rowsLeft) - rows
      ensures ok <==> 0 <= bytesLeft && 0 <= rowsLeft
    {
      bytesLeft := bytesLeft - size;
      rowsLeft := rowsLeft - rows;
      return bytesLeft >= 0 && rowsLeft >= 0;
    }
  }

  /** The bytes a sequence of chunks carries, wherever it is cut. */
  function Flat(chunks: seq<seq<byte>>): seq<byte> {
    if chunks == [] then [] else Flat(chunks[..|chunks| - 1]) + chunks[|chunks| - 1]
  }

  lemma {:induction false} FlatSplit(chunks: seq<seq<byte>>, k: nat) returns (rest: seq<byte>)
    requires k <= |chunks|
    ensures Flat(chunks) == Flat(chunks[..k]) + rest
  {
    if k == |chunks| {
      rest := [];
      assert chunks[..k] == chunks;
    } else {
      var n := |chunks| - 1;
      var earlier := FlatSplit(chunks[..n], k);
      rest := earlier + chunks[n];
      assert chunks[..n][..k] == chunks[..k];
    }
  }

  // --- What acceptance and refusal mean for the whole stream ---

  function StreamRows(d: seq<byte>, rowBytes: nat): seq<seq<byte>> {
    if HasHeader(d) then ParseRows(d[19..], rowBytes).rows else []
  }

  predicate InTime(now: seq<int>, end: int) {
    forall i :: 0 <= i < |now| ==> now[i] < end
  }

  /** The stream is well formed and within every limit; chunk boundaries play no part. */
  predicate Accepts(d: seq<byte>, limits: Limits, bytesLeft: int, rowsLeft: int) {
    && Parse(d, limits.rowBytes).Some?
    && |d| <= limits.contentBytes && |d| <= bytesLeft
    && |Parse(d, limits.rowBytes).value| <= rowsLeft
  }

  /** Why a stream is refused, read off its bytes. */
  predicate Explains(reason: Reason, d: seq<byte>, limits: Limits, bytesLeft: int, rowsLeft: int) {
    match reason
    case Deadline => false
    case AfterTrailer =>
      HasHeader(d) && var tail := ParseRows(d[19..], limits.rowBytes).tail; tail.Ended? && tail.rest != []
    case AggregateBound => |d| > bytesLeft || rowsLeft < |StreamRows(d, limits.rowBytes)|
    case ByteBound => |d| > limits.contentBytes
    case HeaderRefused => |d| >= 19 && !HasHeader(d)
    case RowBound => HasHeader(d) && !ParseRows(d[19..], limits.rowBytes).tail.Ended?
    case IncompleteCopy => |d| < 19 || (HasHeader(d) && ParseRows(d[19..], limits.rowBytes).tail.Open?)
    case _ => HasHeader(d) && ParseRows(d[19..], limits.rowBytes).tail == Broken(reason)
  }

  lemma ExplainedIsRefused(reason: Reason, d: seq<byte>, limits: Limits, bytesLeft: int, rowsLeft: int)
    requires Explains(reason, d, limits, bytesLeft, rowsLeft)
    ensures !Accepts(d, limits, bytesLeft, rowsLeft)
  {
  }

  lemma {:induction false} HeaderStays(d: seq<byte>, e: seq<byte>)
    requires |d| >= 19
    ensures HasHeader(d + e) <==> HasHeader(d)
    ensures (d + e)[19..] == d[19..] + e
  {
    assert (d + e)[..19] == d[..19];
  }

  lemma RowsStay(d: seq<byte>, e: seq<byte>, rowBytes: nat)
    ensures StreamRows(d, rowBytes) <= StreamRows(d + e, rowBytes)
  {
    if HasHeader(d) {
      HeaderStays(d, e);
      ParseAppend(d[19..], e, rowBytes);
    }
  }

  /** A reason found on a prefix of the stream holds of the whole stream. */
  lemma {:induction false} ExplainsExtends(reason: Reason, d: seq<byte>, e: seq<byte>, limits: Limits, bytesLeft: int,
                                           rowsLeft: int)
    requires Explains(reason, d, limits, bytesLeft, rowsLeft) && reason != IncompleteCopy
    requires reason == RowBound ==> ParseRows(d[19..], limits.rowBytes).tail == Broken(RowBound)
    ensures Explains(reason, d + e, limits, bytesLeft, rowsLeft)
  {
    RowsStay(d, e, limits.rowBytes);
    if |d| >= 19 {
      HeaderStays(d, e);
      ParseAppend(d[19..], e, limits.rowBytes);
    }
  }

  /** An oversized unfinished row condemns the stream, whatever follows. */
  lemma OversizeExtends(d: seq<byte>, rest: seq<byte>, e: seq<byte>, limits: Limits, bytesLeft: int, rowsLeft: int)
    requires limits.Valid() && HasHeader(d) && ParseRows(d[19..], limits.rowBytes).tail == Open(rest)
    requires |rest| > limits.rowBytes
    ensures Explains(RowBound, d + e, limits, bytesLeft, rowsLeft)
  {
    HeaderStays(d, e);
    ParseAppend(d[19..], e, limits.rowBytes);
    RestIsOpen(d[19..], limits.rowBytes);
    LongPartialNeverEnds(rest, e, limits.rowBytes);
  }

  // --- The reader ---

  /** The loop over one row's fields. */
  method FrameSize(buffer: seq<byte>, count: nat, rowBytes: nat) returns (f: Frame)
    requires 2 <= |buffer|
    ensures f == Fields(buffer, 2, count, rowBytes)
  {
    var offset := 2;
    for i := 0 to count
      invariant 2 <= offset <= |buffer|
      invariant Fields(buffer, 2, count, rowBytes) == Fields(buffer, offset, count - i, rowBytes)
    {
      if |buffer| < offset + 4 {
        return Partial;
      }
      var size := Signed32(buffer, offset);
      if size < -1 || size > rowBytes {
        return Bad(FieldBound);
      }
      offset := offset + 4 + Max(size, 0);
      if offset > rowBytes {
        return Bad(RowBound);
      }
      if |buffer| < offset {
        return Partial;
      }
    }
    return Whole(offset);
  }

  /** What `Drain` reports about a buffer. */
  ghost predicate Drained(buffer: seq<byte>, rowBytes: nat, rowsLeft: int, more: seq<seq<byte>>, rest: seq<byte>,
                          trailer: bool, refusal: Option<Reason>) {
    var p := ParseRows(buffer, rowBytes);
    && more <= p.rows
    && (match refusal
        case None => p == Parsed(more, if trailer then Ended([]) else Open(rest)) && (trailer ==> rest == [])
        case Some(AfterTrailer) => p.tail.Ended? && p.tail.rest != []
        case Some(AggregateBound) => rowsLeft < |p.rows|
        case Some(reason) => p.tail == Broken(reason) && reason in {ColumnBound, FieldBound, RowBound})
  }

  /** The parser's next step. */
  lemma NextRow(d: seq<byte>, rowBytes: nat, before: seq<seq<byte>>)
    requires |d| >= 2
    ensures var count, p := Signed16(d, 0), ParseRows(d, rowBytes);
            if count == -1 then p == Parsed([], Ended(d[2..]))
            else if !(0 <= count <= MAX_COLUMNS) then p == Parsed([], Broken(ColumnBound))
            else
              var f := Fields(d, 2, count, rowBytes);
              if f.Partial? then p == Parsed([], Open(d))
              else if f.Bad? then p == Parsed([], Broken(f.reason))
              else
                && 2 <= f.size <= |d| && p.tail == ParseRows(d[f.size..], rowBytes).tail
                && p.rows == [d[..f.size]] + ParseRows(d[f.size..], rowBytes).rows
                && before + p.rows == before + [d[..f.size]] + ParseRows(d[f.size..], rowBytes).rows
  {
    hide Fields;
  }

  lemma NoNextRow(d: seq<byte>, rowBytes: nat)
    requires |d| < 2
    ensures ParseRows(d, rowBytes) == Parsed([], Open(d))
  {
  }

  /** The loop that takes whole rows off the buffer. */
  method Drain(buffer: seq<byte>, rowBytes: nat, budget: ContentBudget)
    returns (rows: seq<seq<byte>>, rest: seq<byte>, trailer: bool, refusal: Option<Reason>)
    requires budget.bytesLeft >= 0 && budget.rowsLeft >= 0
    modifies budget
    ensures budget.bytesLeft == old(budget.bytesLeft)
    ensures Drained(buffer, rowBytes, old(budget.rowsLeft), rows, rest, trailer, refusal)
    ensures refusal == None ==> 0 <= budget.rowsLeft == old(budget.rowsLeft) - |rows|
  {
    hide ParseRows, Fields, Signed16;
    rows, rest, trailer, refusal := [], buffer, false, None;
    assert [] + ParseRows(buffer, rowBytes).rows == ParseRows(buffer, rowBytes).rows;
    while |rest| >= 2
      invariant refusal == None && !trailer
      invariant budget.bytesLeft == old(budget.bytesLeft) && 0 <= budget.rowsLeft == old(budget.rowsLeft) - |rows|
      invariant ParseRows(buffer, rowBytes).rows == rows + ParseRows(rest, rowBytes).rows
      invariant ParseRows(buffer, rowBytes).tail == ParseRows(rest, rowBytes).tail
      decreases |rest|
    {
      var count := Signed16(rest, 0);
      NextRow(rest, rowBytes, rows);
      if count == -1 {
        rest, trailer := rest[2..], true;
        if rest != [] {
          refusal := Some(AfterTrailer);
        }
        return;
      }
      if !(0 <= count <= MAX_COLUMNS) {
        refusal := Some(ColumnBound);
        return;
      }
      var frame := FrameSize(rest, count, rowBytes);
      match frame
      case Bad(reason) =>
        BadFieldReason(rest, 2, count, rowBytes);
        refusal := Some(reason);
        return;
      case Partial => return;
      case Whole(size) =>
        var charged := budget.Charge(0, 1);
        if !charged {
          refusal := Some(AggregateBound);
          return;
        }
        rows, rest := rows + [rest[..size]], rest[size..];
    }
    NoNextRow(rest, rowBytes);
  }

  lemma {:induction false} BadFieldReason(d: seq<byte>, offset: nat, count: nat, rowBytes: nat)
    requires offset <= |d|
    ensures var f := Fields(d, offset, count, rowBytes); f.Bad? ==> f.reason in {FieldBound, RowBound}
    decreases count
  {
    if count > 0 && |d| >= offset + 4 {
      var next := offset + 4 + Max(Signed32(d, offset), 0);
      if next <= |d| {
        BadFieldReason(d, next, count - 1, rowBytes);
      }
    }
  }

  /** What the reader knows after the chunks that make up `d`. */
  ghost predicate ReadSoFar(d: seq<byte>, rowBytes: nat, header: bool, trailer: bool, buffer: seq<byte>,
                            rows: seq<seq<byte>>) {
    if header then
      && HasHeader(d) && (trailer ==> buffer == [])
      && ParseRows(d[19..], rowBytes) == Parsed(rows, if trailer then Ended([]) else Open(buffer))
    else |d| < 19 && buffer == d && rows == [] && !trailer
  }

  /** The stream up to one more chunk, and what is still to come. */
  lemma NextChunk(chunks: seq<seq<byte>>, k: nat) returns (rest: seq<byte>)
    requires k < |chunks|
    ensures Flat(chunks[..k + 1]) == Flat(chunks[..k]) + chunks[k]
    ensures Flat(chunks) == Flat(chunks[..k + 1]) + rest
  {
    assert chunks[..k + 1][..k] == chunks[..k];
    rest := FlatSplit(chunks, k + 1);
  }

  /** A reason found so far is the reason for refusing the whole stream. */
  lemma RefuseWhole(reason: Reason, d: seq<byte>, rest: seq<byte>, limits: Limits, bytesLeft: int, rowsLeft: int)
    requires Explains(reason, d, limits, bytesLeft, rowsLeft) && reason != IncompleteCopy
    requires reason == RowBound ==> ParseRows(d[19..], limits.rowBytes).tail == Broken(RowBound)
    ensures Explains(reason, d + rest, limits, bytesLeft, rowsLeft)
    ensures !Accepts(d + rest, limits, bytesLeft, rowsLeft)
  {
    ExplainsExtends(reason, d, rest, limits, bytesLeft, rowsLeft);
    ExplainedIsRefused(reason, d + rest, limits, bytesLeft, rowsLeft);
  }

  lemma FlatEmpty(chunks: seq<seq<byte>>)
    ensures Flat(chunks[..0]) == []
  {
  }

  /** The rows read so far are leading rows of the stream, whatever is still to come. */
  lemma RowsAreLeading(d: seq<byte>, rest: seq<byte>, rowBytes: nat, header: bool, trailer: bool,
                       buffer: seq<byte>, rows: seq<seq<byte>>)
    requires ReadSoFar(d, rowBytes, header, trailer, buffer, rows)
    ensures rows <= StreamRows(d + rest, rowBytes)
  {
    RowsStay(d, rest, rowBytes);
  }

  lemma AfterTheTrailer(d: seq<byte>, chunk: seq<byte>, rest: seq<byte>, limits: Limits, buffer: seq<byte>,
                        rows: seq<seq<byte>>, bytesLeft: int, rowsLeft: int)
    requires ReadSoFar(d, limits.rowBytes, true, true, buffer, rows)
    ensures chunk == [] ==> ReadSoFar(d + chunk, limits.rowBytes, true, true, buffer, rows)
    ensures chunk != [] ==>
              && Explains(AfterTrailer, d + chunk + rest, limits, bytesLeft, rowsLeft)
              && !Accepts(d + chunk + rest, limits, bytesLeft, rowsLeft)
  {
    HeaderStays(d, chunk);
    ParseAppend(d[19..], chunk, limits.rowBytes);
    assert [] + chunk == chunk;
    if chunk == [] {
      assert d + chunk == d;
    } else {
      RefuseWhole(AfterTrailer, d + chunk, rest, limits, bytesLeft, rowsLeft);
    }
  }

  /** The charge or the byte bound refuses at `d`. */
  lemma {:induction false} TooMuch(d: seq<byte>, rest: seq<byte>, limits: Limits, rows: seq<seq<byte>>,
                                   bytesLeft: int, rowsLeft: int)
    requires rows <= StreamRows(d + rest, limits.rowBytes)
    ensures |d| > bytesLeft || |rows| > rowsLeft ==>
              && Explains(AggregateBound, d + rest, limits, bytesLeft, rowsLeft)
              && !Accepts(d + rest, limits, bytesLeft, rowsLeft)
    ensures |d| > limits.contentBytes ==>
              && Explains(ByteBound, d + rest, limits, bytesLeft, rowsLeft)
              && !Accepts(d + rest, limits, bytesLeft, rowsLeft)
  {
  }

  lemma {:induction false} WithoutHeader(d: seq<byte>, rest: seq<byte>, limits: Limits, bytesLeft: int, rowsLeft: int)
    requires |d| >= 19 && d[..19] != HEADER
    ensures Explains(HeaderRefused, d + rest, limits, bytesLeft, rowsLeft)
    ensures !Accepts(d + rest, limits, bytesLeft, rowsLeft)
  {
    HeaderStays(d, rest);
  }

  /** What the buffer holds before it is drained: the unread part of the stream. */
  ghost predicate Unread(d: seq<byte>, rowBytes: nat, buffer: seq<byte>, rows: seq<seq<byte>>) {
    && HasHeader(d)
    && var p := ParseRows(buffer, rowBytes); ParseRows(d[19..], rowBytes) == Parsed(rows + p.rows, p.tail)
  }

  lemma {:induction false} StartsWithHeader(d: seq<byte>, rowBytes: nat)
    requires |d| >= 19 && d[..19] == HEADER
    ensures Unread(d, rowBytes, d[19..], [])
  {
    assert [] + ParseRows(d[19..], rowBytes).rows == ParseRows(d[19..], rowBytes).rows;
  }

  /** One more chunk after the header: draining the buffer and the chunk is parsing the longer stream. */
  lemma UnreadMore(d: seq<byte>, chunk: seq<byte>, rowBytes: nat, buffer: seq<byte>, rows: seq<seq<byte>>)
    requires ReadSoFar(d, rowBytes, true, false, buffer, rows)
    ensures Unread(d + chunk, rowBytes, buffer + chunk, rows)
  {
    HeaderStays(d, chunk);
    ParseAppend(d[19..], chunk, rowBytes);
  }

  lemma DrainRefuses(d: seq<byte>, later: seq<byte>, limits: Limits, buffer: seq<byte>, rows: seq<seq<byte>>,
                     more: seq<seq<byte>>, rest: seq<byte>, trailer: bool, reason: Reason, bytesLeft: int,
                     rowsLeft: int)
    requires Unread(d, limits.rowBytes, buffer, rows)
    requires Drained(buffer, limits.rowBytes, rowsLeft - |rows|, more, rest, trailer, Some(reason))
    ensures Explains(reason, d + later, limits, bytesLeft, rowsLeft)
    ensures reason != Deadline && !Accepts(d + later, limits, bytesLeft, rowsLeft)
    ensures rows + more <= StreamRows(d + later, limits.rowBytes)
  {
    RowsStay(d, later, limits.rowBytes);
    RefuseWhole(reason, d, later, limits, bytesLeft, rowsLeft);
  }

  lemma DrainAdvances(d: seq<byte>, later: seq<byte>, limits: Limits, buffer: seq<byte>, rows: seq<seq<byte>>,
                      more: seq<seq<byte>>, rest: seq<byte>, trailer: bool, bytesLeft: int, rowsLeft: int)
    requires Unread(d, limits.rowBytes, buffer, rows) && limits.Valid()
    requires Drained(buffer, limits.rowBytes, rowsLeft - |rows|, more, rest, trailer, None)
    ensures ReadSoFar(d, limits.rowBytes, true, trailer, rest, rows + more)
    ensures |rest| > limits.rowBytes ==>
              && Explains(RowBound, d + later, limits, bytesLeft, rowsLeft)
              && !Accepts(d + later, limits, bytesLeft, rowsLeft)
    ensures rows + more <= StreamRows(d + later, limits.rowBytes)
  {
    RowsStay(d, later, limits.rowBytes);
    if |rest| > limits.rowBytes {
      OversizeExtends(d, rest, later, limits, bytesLeft, rowsLeft);
    }
  }

  /** The test after the loop. */
  lemma ReadToTheEnd(d: seq<byte>, limits: Limits, header: bool, trailer: bool, buffer: seq<byte>,
                     rows: seq<seq<byte>>, bytesLeft: int, rowsLeft: int)
    requires ReadSoFar(d, limits.rowBytes, header, trailer, buffer, rows) && |d| <= limits.contentBytes
    requires d != [] ==> |d| <= bytesLeft && |rows| <= rowsLeft
    ensures header && trailer && buffer == [] ==>
              Accepts(d, limits, bytesLeft, rowsLeft) && Parse(d, limits.rowBytes) == Some(rows)
    ensures !(header && trailer && buffer == []) ==>
              Explains(IncompleteCopy, d, limits, bytesLeft, rowsLeft) && !Accepts(d, limits, bytesLeft, rowsLeft)
    ensures rows <= StreamRows(d, limits.rowBytes)
  {
  }

  lemma BeforeHeader(d: seq<byte>, rowBytes: nat)
    requires |d| < 19
    ensures ReadSoFar(d, rowBytes, false, false, d, [])
  {
  }

  lemma HeaderState(d: seq<byte>, rowBytes: nat, header: bool, trailer: bool, buffer: seq<byte>, rows: seq<seq<byte>>)
    requires ReadSoFar(d, rowBytes, header, trailer, buffer, rows)
    ensures !header ==> buffer == d && rows == [] && !trailer
  {
  }

  lemma HeaderExplained(reason: Reason, d: seq<byte>, limits: Limits, bytesLeft: int, rowsLeft: int)
    ensures Accepts(d, limits, bytesLeft, rowsLeft) ==> StartsAsCopy(d)
    ensures reason == HeaderRefused && Explains(reason, d, limits, bytesLeft, rowsLeft) ==>
              |d| >= 19 && !StartsAsCopy(d)
  {
    HeaderBytes(d);
  }

  /** `_rows` over one table's stream: what it yields and whether it accepts depend only on the
      bytes, not on how they are cut into chunks, and whatever it yields before refusing are
      genuine leading rows of the stream. */
  method Rows(chunks: seq<seq<byte>>, limits: Limits, now: seq<int>, end: int, budget: ContentBudget)
    returns (rows: seq<seq<byte>>, refusal: Option<Reason>)
    requires limits.Valid() && |now| == |chunks|
    modifies budget
    ensures refusal == None <==>
              InTime(now, end) && Accepts(Flat(chunks), limits, old(budget.bytesLeft), old(budget.rowsLeft))
    ensures refusal == None ==>
              && Parse(Flat(chunks), limits.rowBytes) == Some(rows)
              && 0 <= budget.bytesLeft == old(budget.bytesLeft) - |Flat(chunks)|
              && 0 <= budget.rowsLeft == old(budget.rowsLeft) - |rows|
    ensures rows <= StreamRows(Flat(chunks), limits.rowBytes)
    ensures refusal.Some? ==>
              if refusal.value == Deadline then !InTime(now, end)
              else Explains(refusal.value, Flat(chunks), limits, old(budget.bytesLeft), old(budget.rowsLeft))
    ensures refusal == None ==> StartsAsCopy(Flat(chunks))
    ensures refusal == Some(HeaderRefused) ==> |Flat(chunks)| >= 19 && !StartsAsCopy(Flat(chunks))
  {
    hide Accepts, Flat, Explains, ReadSoFar, Unread, Drained, HasHeader, StreamRows, Parse, ParseRows, Limits.Valid;
    hide StartsAsCopy;
    FlatEmpty(chunks);
    HeaderExplained(HeaderRefused, Flat(chunks), limits, budget.bytesLeft, budget.rowsLeft);
    BeforeHeader([], limits.rowBytes);
    var buffer: seq<byte>, header, trailer, total := [], false, false, 0;
    rows, refusal := [], None;
    ghost var bytesLeft, rowsLeft := budget.bytesLeft, budget.rowsLeft;
    for k := 0 to |chunks|
      invariant refusal == None && total == |Flat(chunks[..k])| <= limits.contentBytes
      invariant budget.bytesLeft == bytesLeft - total && budget.rowsLeft == rowsLeft - |rows|
      invariant k > 0 ==> 0 <= budget.bytesLeft && 0 <= budget.rowsLeft
      invariant InTime(now[..k], end)
      invariant ReadSoFar(Flat(chunks[..k]), limits.rowBytes, header, trailer, buffer, rows)
    {
      var chunk := chunks[k];
      ghost var d, d' := Flat(chunks[..k]), Flat(chunks[..k + 1]);
      ghost var later := NextChunk(chunks, k);
      HeaderState(d, limits.rowBytes, header, trailer, buffer, rows);
      RowsAreLeading(d, chunk + later, limits.rowBytes, header, trailer, buffer, rows);
      assert d + (chunk + later) == d' + later;
      if now[k] >= end {
        refusal := Some(Deadline);
        return;
      }
      if trailer {
        AfterTheTrailer(d, chunk, later, limits, buffer, rows, bytesLeft, rowsLeft);
      }
      if trailer && chunk != [] {
        refusal := Some(AfterTrailer);
        return;
      }
      total := total + |chunk|;
      TooMuch(d', later, limits, rows, bytesLeft, rowsLeft);
      var charged := budget.Charge(|chunk|, 0);
      if !charged {
        refusal := Some(AggregateBound);
        return;
      }
      if total > limits.contentBytes {
        refusal := Some(ByteBound);
        return;
      }
      if !header {
        buffer := buffer + chunk;
        if |buffer| < 19 {
          BeforeHeader(d', limits.rowBytes);
          continue;
        }
        if buffer[..19] != HEADER {
          WithoutHeader(d', later, limits, bytesLeft, rowsLeft);
          refusal := Some(HeaderRefused);
          return;
        }
        StartsWithHeader(d', limits.rowBytes);
        buffer, header := buffer[19..], true;
      } else {
        if !trailer {
          UnreadMore(d, chunk, limits.rowBytes, buffer, rows);
        }
        assert chunk == [] ==> buffer + chunk == buffer;
        buffer := buffer + chunk;
      }
      if trailer {
        continue;
      }
      var more, left, ended, refused := Drain(buffer, limits.rowBytes, budget);
      if refused.Some? {
        DrainRefuses(d', later, limits, buffer, rows, more, left, ended, refused.value, bytesLeft, rowsLeft);
        rows, refusal := rows + more, refused;
        return;
      }
      DrainAdvances(d', later, limits, buffer, rows, more, left, ended, bytesLeft, rowsLeft);
      rows, buffer, trailer := rows + more, left, ended;
      if |buffer| > limits.rowBytes {
        refusal := Some(RowBound);
        return;
      }
    }
    assert chunks[..|chunks|] == chunks && now[..|now|] == now;
    ReadToTheEnd(Flat(chunks), limits, header, trailer, buffer, rows, bytesLeft, rowsLeft);
    if !header || !trailer || buffer != [] {
      refusal := Some(IncompleteCopy);
    }
  }
}
