/** What any lines of a server-sent event stream come to, read off the lines as they are written. */
module SseLines {
  import opened Wrappers

  import opened Messages
  import Utf8
  import opened Sse
  import opened SseFrames

  /** A line as it is written: a data field, with or without the one space, or any other line; ended by LF
      or by CRLF. */
  datatype Line = Data(value: string, spaced: bool, crlf: bool) | Other(text: string, crlf: bool)

  function Spelled(line: Line): string {
    match line
    case Data(value, spaced, _) => (if spaced then "data: " else "data:") + value
    case Other(text, _) => text
  }

  function Ended(line: Line): string { if line.crlf then Spelled(line) + "\r" else Spelled(line) }

  /** The line is not blank and breaks no line, and it is of one kind only: a value written without the
      space does not begin with one, and another line is no data field. */
  predicate IsLine(line: Line) {
    && Spelled(line) != "" && '\n' !in Spelled(line) && Spelled(line)[|Spelled(line)| - 1] != '\r'
    && (line.Data? && !line.spaced ==> !(" " <= line.value))
    && (line.Other? ==> !("data:" <= line.text))
  }

  function LinesBytes(lines: seq<Line>): seq<byte> {
    if |lines| == 0 then []
    else LinesBytes(lines[..|lines| - 1]) + Utf8.Encode(Ended(lines[|lines| - 1])) + [10]
  }

  /** The values of the data fields, in order. */
  function Values(lines: seq<Line>): seq<string> {
    if |lines| == 0 then []
    else
      Values(lines[..|lines| - 1]) + (if lines[|lines| - 1].Data? then [lines[|lines| - 1].value] else [])
  }

  /** Lines up to a blank one, which counts toward the event, all of it within the event bound. */
  predicate IsBlock(lines: seq<Line>) {
    (forall line | line in lines :: IsLine(line)) && |LinesBytes(lines)| + 1 <= 262144
  }

  function BlocksBytes(blocks: seq<seq<Line>>): seq<byte> {
    if |blocks| == 0 then [] else BlocksBytes(blocks[..|blocks| - 1]) + LinesBytes(blocks[|blocks| - 1]) + [10]
  }

  /** A block with data fields is an event: its values with LFs between them. Any other says nothing. */
  function EventsOf(blocks: seq<seq<Line>>): seq<string> {
    if |blocks| == 0 then []
    else
      var values := Values(blocks[|blocks| - 1]);
      EventsOf(blocks[..|blocks| - 1]) + (if values == [] then [] else [JoinFields(values)])
  }

  // ----- trimming -----

  /** Trimming takes every carriage return off the end of a line, and nothing else. */
  lemma {:induction false} TrimmedTakesCrs(line: string)
    ensures !EndsInCr(Trimmed(line))
    ensures Trimmed(line) <= line && forall k | |Trimmed(line)| <= k < |line| :: line[k] == '\r'
  {
    if |line| > 0 && line[|line| - 1] == '\r' { TrimmedTakesCrs(line[..|line| - 1]); }
  }

  lemma EndedTrims(line: Line)
    requires IsLine(line)
    ensures Trimmed(Ended(line)) == Spelled(line)
  {
    TrimmedIffSame(Spelled(line));
    if line.crlf { assert Ended(line)[..|Ended(line)| - 1] == Spelled(line); }
  }

  lemma EndedBreaksNothing(line: Line)
    requires IsLine(line)
    ensures LF !in Utf8.Encode(Ended(line))
  {
    Utf8.AsciiIsItself(Ended(line), LF);
  }

  // ----- one line -----

  /** What a line says: a field begins after the colon and one space, if there is one. */
  lemma SpelledField(line: Line)
    requires IsLine(line)
    ensures Spelled(line) != "" && ("data:" <= Spelled(line) <==> line.Data?)
    ensures line.Data? ==> FieldOf(Spelled(line)) == line.value
  {
    if line.Data? {
      assert Spelled(line)[5..] == if line.spaced then " " + line.value else line.value;
      assert line.spaced ==> (" " + line.value)[1..] == line.value;
    }
  }

  lemma LineTaken(r: Reader, line: Line)
    requires IsLine(line) && r.failure.None? && r.eventBytes + |Utf8.Encode(Ended(line))| + 1 <= 262144
    ensures TakeLine(r, Utf8.Encode(Ended(line)))
         == r.(fields := r.fields + (if line.Data? then [line.value] else []),
               eventBytes := r.eventBytes + |Utf8.Encode(Ended(line))| + 1)
  {
    hide TakeLine, Trimmed, Utf8.Encode, IsLine, Ended, Spelled;
    TakeEncoded(r, Ended(line));
    EndedTrims(line);
    SpelledField(line);
    hide FieldOf;
    assert r.fields + [] == r.fields;
  }

  // ----- blocks -----

  lemma {:induction false} LinesRead(lines: seq<Line>, events: seq<string>)
    requires forall line | line in lines :: IsLine(line)
    requires |LinesBytes(lines)| <= 262144
    ensures SplitLines(LinesBytes(lines)).tail == []
    ensures TakeLines(Reader([], 0, events, None), SplitLines(LinesBytes(lines)).lines)
         == Reader(Values(lines), |LinesBytes(lines)|, events, None)
  {
    if |lines| > 0 {
      hide SplitLines, TakeLine, TakeLines, IsLine;
      var init, last := lines[..|lines| - 1], lines[|lines| - 1];
      assert last in lines;
      LinesRead(init, events);
      EndedBreaksNothing(last);
      SplitOneMore(LinesBytes(init), Utf8.Encode(Ended(last)));
      TakeOneMore(Reader([], 0, events, None), SplitLines(LinesBytes(init)).lines, Utf8.Encode(Ended(last)));
      LineTaken(Reader(Values(init), |LinesBytes(init)|, events, None), last);
      assert Values(init) + [] == Values(init);
    }
  }

  lemma BlankTaken(r: Reader)
    requires r.failure.None? && r.eventBytes + 1 <= 262144
    ensures TakeLine(r, [])
         == Reader([], 0, if r.fields == [] then r.events else r.events + [JoinFields(r.fields)], None)
  {
    assert StripCr([]) == [] && Utf8.Decode([]) == Some("");
  }

  lemma BlockReads(lines: seq<Line>, events: seq<string>)
    requires IsBlock(lines)
    ensures SplitLines(LinesBytes(lines) + [10]).tail == []
    ensures TakeLines(Reader([], 0, events, None), SplitLines(LinesBytes(lines) + [10]).lines)
         == Reader([], 0, events + (if Values(lines) == [] then [] else [JoinFields(Values(lines))]), None)
  {
    hide SplitLines, TakeLine, TakeLines, JoinFields;
    LinesRead(lines, events);
    assert LinesBytes(lines) + [] + [LF] == LinesBytes(lines) + [10];
    SplitOneMore(LinesBytes(lines), []);
    TakeOneMore(Reader([], 0, events, None), SplitLines(LinesBytes(lines)).lines, []);
    BlankTaken(Reader(Values(lines), |LinesBytes(lines)|, events, None));
    assert events + [] == events;
  }

  lemma {:induction false} BlocksRead(blocks: seq<seq<Line>>)
    requires forall block | block in blocks :: IsBlock(block)
    ensures SplitLines(BlocksBytes(blocks)).tail == []
    ensures TakeLines(START, SplitLines(BlocksBytes(blocks)).lines) == Reader([], 0, EventsOf(blocks), None)
  {
    if |blocks| > 0 {
      var init, block := blocks[..|blocks| - 1], blocks[|blocks| - 1];
      assert block in blocks;
      hide TakeLine, TakeLines, SplitLines, IsBlock, JoinFields;
      BlocksRead(init);
      var more := LinesBytes(block) + [10];
      BlockReads(block, EventsOf(init));
      assert BlocksBytes(blocks) == BlocksBytes(init) + more;
      SplitConcat(BlocksBytes(init), more);
      assert [] + more == more;
      TakeConcat(START, SplitLines(BlocksBytes(init)).lines, SplitLines(more).lines);
    }
  }

  /** Any blocks, under any chunking, are reported block by block: the values of the data fields, with at
      most one leading space gone, joined by LFs; other lines, and blocks without data, say nothing. */
  lemma BlocksRoundTrip(blocks: seq<seq<Line>>, chunks: seq<seq<byte>>)
    requires forall block | block in blocks :: IsBlock(block)
    requires Concat(chunks) == BlocksBytes(blocks) && |Concat(chunks)| <= 8388608
    ensures Decoded(chunks) == Report(EventsOf(blocks), None)
  {
    hide TakeLine, TakeLines, SplitLines, EventsOf, BlocksBytes;
    BlocksRead(blocks);
  }

  /** After any blocks, reading goes on as from the start, with their events reported. */
  lemma BlocksThen(blocks: seq<seq<Line>>, part: seq<byte>)
    requires forall block | block in blocks :: IsBlock(block)
    ensures ReadAll(BlocksBytes(blocks) + part)
         == Settle(TakeLines(Reader([], 0, EventsOf(blocks), None), SplitLines(part).lines), SplitLines(part).tail)
  {
    hide TakeLine, TakeLines, SplitLines, EventsOf, BlocksBytes, IsBlock;
    BlocksRead(blocks);
    SplitConcat(BlocksBytes(blocks), part);
    assert [] + part == part;
    TakeConcat(START, SplitLines(BlocksBytes(blocks)).lines, SplitLines(part).lines);
  }

  // ----- bytes that are not UTF-8 -----

  lemma BadLineFails(r: Reader, raw: seq<byte>)
    requires r.failure.None? && r.eventBytes + |raw| + 1 <= 262144
    requires raw != [] && raw[|raw| - 1] != CR && forall text :: Utf8.Encode(text) != raw
    ensures TakeLine(r, raw) == r.(failure := Some(Undecodable))
  {
    if Utf8.Decode(raw).Some? { Utf8.DecodeIsExact(raw); }
  }

  lemma LineThenMore(line: seq<byte>, rest: seq<byte>, r: Reader)
    requires LF !in line && TakeLine(r, line).failure.Some?
    ensures var s := SplitLines(line + [LF] + rest);
            Settle(TakeLines(r, s.lines), s.tail) == TakeLine(r, line)
  {
    OneLine(line, rest);
    TakeConcat(r, [line], SplitLines(rest).lines);
    assert [line][..0] == [];
    FailureStays(TakeLine(r, line), SplitLines(rest).lines);
  }

  /** A line that is not the encoding of any text fails the stream, after the events before it and whatever
      follows. */
  lemma UndecodableFails(blocks: seq<seq<Line>>, raw: seq<byte>, rest: seq<byte>, chunks: seq<seq<byte>>)
    requires forall block | block in blocks :: IsBlock(block)
    requires raw != [] && 10 !in raw && raw[|raw| - 1] != 13 && |raw| + 1 <= 262144
    requires forall text :: Utf8.Encode(text) != raw
    requires Concat(chunks) == BlocksBytes(blocks) + (raw + [10] + rest) && |Concat(chunks)| <= 8388608
    ensures Decoded(chunks) == Report(EventsOf(blocks), Some(Undecodable))
  {
    BadLineFails(Reader([], 0, EventsOf(blocks), None), raw);
    hide TakeLine, TakeLines, SplitLines, EventsOf, BlocksBytes, IsBlock, Concat, ReadAll;
    BlocksThen(blocks, raw + [LF] + rest);
    LineThenMore(raw, rest, Reader([], 0, EventsOf(blocks), None));
  }

  /** A line still unfinished fails its event as soon as it takes it past the bound, and not before. */
  lemma UnfinishedFitsIff(blocks: seq<seq<Line>>, raw: seq<byte>, chunks: seq<seq<byte>>)
    requires forall block | block in blocks :: IsBlock(block)
    requires 10 !in raw
    requires Concat(chunks) == BlocksBytes(blocks) + raw && |Concat(chunks)| <= 8388608
    ensures Decoded(chunks) == Report(EventsOf(blocks), if |raw| <= 262144 then None else Some(EventTooLarge))
  {
    hide TakeLine, TakeLines, SplitLines, EventsOf, BlocksBytes, IsBlock, Concat, ReadAll;
    BlocksThen(blocks, raw);
    NoLine(raw);
    NothingTaken(Reader([], 0, EventsOf(blocks), None));
  }
}
