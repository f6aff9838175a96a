/** The bounded incremental decoder of server-sent events: LF or CRLF line ends and `data:` fields, as
    section 9.2.6 of the WHATWG HTML Living Standard has them. */
module Sse {
  import opened Wrappers

  import opened Messages
  import Utf8

  const MAX_RESPONSE_BYTES: nat := 8 * 1024 * 1024
  const MAX_EVENT_BYTES: nat := 256 * 1024
  const LF: byte := 10
  const CR: byte := 13

  datatype Failure = ResponseTooLarge | EventTooLarge | Undecodable

  // ----- what a stream of bytes means -----

  /** The state between lines: the open event's fields and size, and what was reported so far. */
  datatype Reader = Reader(fields: seq<string>, eventBytes: nat, events: seq<string>, failure: Option<Failure>)

  const START: Reader := Reader([], 0, [], None)

  function StripCr(line: seq<byte>): seq<byte> {
    if |line| > 0 && line[|line| - 1] == CR then StripCr(line[..|line| - 1]) else line
  }

  function JoinFields(fields: seq<string>): string {
    if |fields| == 0 then ""
    else if |fields| == 1 then fields[0]
    else JoinFields(fields[..|fields| - 1]) + "\n" + fields[|fields| - 1]
  }

  /** The value of a data line, without the one space that may lead it. */
  function FieldOf(line: string): string
    requires "data:" <= line
  {
    var value := line[5..];
    if " " <= value then value[1..] else value
  }

  function TakeText(r: Reader, line: string, size: nat): Reader {
    if line == "" then Reader([], 0, if r.fields == [] then r.events else r.events + [JoinFields(r.fields)], None)
    else if "data:" <= line then r.(fields := r.fields + [FieldOf(line)], eventBytes := size)
    else r.(eventBytes := size)
  }

  /** One complete line, without its LF. After a failure nothing is read any more. */
  function TakeLine(r: Reader, raw: seq<byte>): Reader {
    var size := r.eventBytes + |raw| + 1;
    if r.failure.Some? then r
    else if size > MAX_EVENT_BYTES then r.(failure := Some(EventTooLarge))
    else match Utf8.Decode(StripCr(raw))
      case None => r.(failure := Some(Undecodable))
      case Some(line) => TakeText(r, line, size)
  }

  function TakeLines(r: Reader, lines: seq<seq<byte>>): Reader {
    if |lines| == 0 then r else TakeLine(TakeLines(r, lines[..|lines| - 1]), lines[|lines| - 1])
  }

  /** Bytes cut at every LF: the complete lines, and what follows the last LF. */
  datatype Split = Split(lines: seq<seq<byte>>, tail: seq<byte>)

  function SplitLines(bytes: seq<byte>): Split {
    if |bytes| == 0 then Split([], [])
    else
      var s, last := SplitLines(bytes[..|bytes| - 1]), bytes[|bytes| - 1];
      if last == LF then Split(s.lines + [s.tail], []) else Split(s.lines, s.tail + [last])
  }

  /** An unfinished line already counts toward its event. */
  function Settle(r: Reader, tail: seq<byte>): Reader {
    if r.failure.None? && r.eventBytes + |tail| > MAX_EVENT_BYTES
    then r.(failure := Some(EventTooLarge)) else r
  }

  function ReadAll(bytes: seq<byte>): Reader {
    var s := SplitLines(bytes);
    Settle(TakeLines(START, s.lines), s.tail)
  }

  datatype Report = Report(events: seq<string>, failure: Option<Failure>)

  function ReportOf(r: Reader): Report { Report(r.events, r.failure) }

  function Concat(chunks: seq<seq<byte>>): seq<byte> {
    if |chunks| == 0 then [] else Concat(chunks[..|chunks| - 1]) + chunks[|chunks| - 1]
  }

  /** What decoding a chunked response reports. Only the total bound looks at chunks: the one that
      breaks it is not read at all. */
  function Decoded(chunks: seq<seq<byte>>): Report
    decreases |chunks|
  {
    if |Concat(chunks)| <= MAX_RESPONSE_BYTES then ReportOf(ReadAll(Concat(chunks)))
    else
      assert |Concat([])| == 0;
      var before := Decoded(chunks[..|chunks| - 1]);
      if before.failure.Some? then before else before.(failure := Some(ResponseTooLarge))
  }

  // ----- splitting and reading are compositional -----

  lemma {:induction false} SplitConcat(a: seq<byte>, b: seq<byte>)
    ensures SplitLines(a + b).lines == SplitLines(a).lines + SplitLines(SplitLines(a).tail + b).lines
    ensures SplitLines(a + b).tail == SplitLines(SplitLines(a).tail + b).tail
  {
    var tail := SplitLines(a).tail;
    if b == [] {
      TailHasNoLf(a);
      NoLine(tail);
      assert a + b == a && tail + b == tail;
    } else {
      var n := |b| - 1;
      assert (a + b)[..|a| + n] == a + b[..n] && (tail + b)[..|tail| + n] == tail + b[..n];
      SplitConcat(a, b[..n]);
    }
  }

  lemma {:induction false} TailHasNoLf(bytes: seq<byte>)
    ensures LF !in SplitLines(bytes).tail
  {
    if |bytes| > 0 { TailHasNoLf(bytes[..|bytes| - 1]); }
  }

  lemma {:induction false} NoLine(bytes: seq<byte>)
    requires LF !in bytes
    ensures SplitLines(bytes) == Split([], bytes)
  {
    if |bytes| > 0 { NoLine(bytes[..|bytes| - 1]); }
  }

  /** A complete line in front comes out as it is. */
  lemma {:induction false} OneLine(line: seq<byte>, rest: seq<byte>)
    requires LF !in line
    ensures SplitLines(line + [LF] + rest) == Split([line] + SplitLines(rest).lines, SplitLines(rest).tail)
  {
    NoLine(line);
    assert (line + [LF])[..|line|] == line;
    SplitConcat(line + [LF], rest);
    assert [] + rest == rest;
  }

  lemma {:induction false} TakeConcat(r: Reader, a: seq<seq<byte>>, b: seq<seq<byte>>)
    ensures TakeLines(r, a + b) == TakeLines(TakeLines(r, a), b)
  {
    if b == [] {
      assert a + b == a;
    } else {
      assert (a + b)[..|a + b| - 1] == a + b[..|b| - 1];
      TakeConcat(r, a, b[..|b| - 1]);
    }
  }

  lemma {:induction false} FailureStays(r: Reader, lines: seq<seq<byte>>)
    requires r.failure.Some?
    ensures TakeLines(r, lines) == r
  {
    if |lines| > 0 { FailureStays(r, lines[..|lines| - 1]); }
  }

  /** An unfinished line is the beginning of whatever line completes it. */
  lemma {:induction false} TailGrows(tail: seq<byte>, more: seq<byte>)
    requires LF !in tail
    ensures var s := SplitLines(tail + more);
            if s.lines == [] then s.tail == tail + more else |s.lines[0]| >= |tail|
  {
    if more == [] {
      NoLine(tail);
      assert tail + more == tail;
    } else {
      TailGrows(tail, more[..|more| - 1]);
      assert (tail + more)[..|tail + more| - 1] == tail + more[..|more| - 1];
    }
  }

  /** Once a prefix fails, every continuation fails the same way, after the same events. */
  lemma FailureIsFinal(a: seq<byte>, b: seq<byte>)
    requires ReadAll(a).failure.Some?
    ensures ReportOf(ReadAll(a + b)) == ReportOf(ReadAll(a))
  {
    hide SplitLines, TakeLine, TakeLines;
    var s := SplitLines(a);
    var r, more := TakeLines(START, s.lines), SplitLines(s.tail + b);
    SplitConcat(a, b);
    TakeConcat(START, s.lines, more.lines);
    if r.failure.Some? {
      FailureStays(r, more.lines);
    } else {
      TailHasNoLf(a);
      TailGrows(s.tail, b);
      if more.lines != [] { FirstLineFails(r, more.lines); } else { NothingTaken(r); }
    }
  }

  lemma NothingTaken(r: Reader)
    ensures TakeLines(r, []) == r
  {
  }

  /** A first line that does not fit fails whatever follows. */
  lemma FirstLineFails(r: Reader, lines: seq<seq<byte>>)
    requires r.failure.None? && lines != [] && r.eventBytes + |lines[0]| + 1 > MAX_EVENT_BYTES
    ensures TakeLines(r, lines) == r.(failure := Some(EventTooLarge))
  {
    assert lines == [lines[0]] + lines[1..];
    TakeConcat(r, [lines[0]], lines[1..]);
    assert [lines[0]][..0] == [];
    FailureStays(TakeLine(r, lines[0]), lines[1..]);
  }

  /** Reading the first line of a buffer moves it from the buffer to the lines done; if that fails, so
      does reading everything. */
  lemma LineRead(bytes: seq<byte>, done: seq<seq<byte>>, buffer: seq<byte>, raw: seq<byte>, rest: seq<byte>)
    requires SplitLines(bytes) == Split(done + SplitLines(buffer).lines, SplitLines(buffer).tail)
    requires buffer == raw + [LF] + rest && LF !in raw
    ensures SplitLines(bytes) == Split((done + [raw]) + SplitLines(rest).lines, SplitLines(rest).tail)
    ensures TakeLines(START, done + [raw]) == TakeLine(TakeLines(START, done), raw)
    ensures TakeLine(TakeLines(START, done), raw).failure.Some? ==>
              ReadAll(bytes) == TakeLine(TakeLines(START, done), raw)
  {
    OneLine(raw, rest);
    var lines := SplitLines(rest).lines;
    assert done + ([raw] + lines) == (done + [raw]) + lines;
    assert (done + [raw])[..|done|] == done;
    TakeConcat(START, done + [raw], lines);
    if TakeLine(TakeLines(START, done), raw).failure.Some? {
      FailureStays(TakeLine(TakeLines(START, done), raw), lines);
    }
  }

  // ----- the decoder -----

  class Decoder {
    var buffer: seq<byte>
    var fields: seq<string>
    var eventBytes: nat
    var total: nat
    var events: seq<string>
    var failure: Option<Failure>

    ghost function View(): Reader
      reads this
    {
      Reader(fields, eventBytes, events, failure)
    }

    /** The decoder has read exactly `bytes` and may go on; what it buffers is bounded. */
    ghost predicate HasRead(bytes: seq<byte>)
      reads this
    {
      && failure == None && total == |bytes|
      && View() == TakeLines(START, SplitLines(bytes).lines) == ReadAll(bytes)
      && buffer == SplitLines(bytes).tail
      && eventBytes + |buffer| <= MAX_EVENT_BYTES
    }

    constructor ()
      ensures HasRead([])
    {
      buffer, fields, eventBytes, total, events, failure := [], [], 0, 0, [], None;
    }

    method TakeRaw(raw: seq<byte>)
      modifies this
      requires failure == None
      ensures ReportOf(View()) == ReportOf(TakeLine(old(View()), raw))
      ensures failure == None ==> View() == TakeLine(old(View()), raw)
      ensures buffer == old(buffer) && total == old(total)
    {
      eventBytes := eventBytes + |raw| + 1;
      if eventBytes > MAX_EVENT_BYTES {
        failure := Some(EventTooLarge);
        return;
      }
      var decoded := Utf8.Decode(StripCr(raw));
      if decoded.None? {
        failure := Some(Undecodable);
        return;
      }
      var line := decoded.value;
      if line == "" {
        if fields != [] { events := events + [JoinFields(fields)]; }
        fields := [];
        eventBytes := 0;
      } else if "data:" <= line {
        var value := line[5..];
        fields := fields + [if " " <= value then value[1..] else value];
      }
    }

    /** Read one more chunk: every line it completes, then the bound on what stays buffered. */
    method Feed(chunk: seq<byte>, ghost before: seq<byte>)
      requires HasRead(before)
      modifies this
      ensures if |before + chunk| > MAX_RESPONSE_BYTES
              then ReportOf(View()) == Report(old(events), Some(ResponseTooLarge))
              else ReportOf(View()) == ReportOf(ReadAll(before + chunk))
                   && (failure == None ==> HasRead(before + chunk))
    {
      total := total + |chunk|;
      if total > MAX_RESPONSE_BYTES {
        failure := Some(ResponseTooLarge);
        return;
      }
      hide TakeLine, TakeLines, SplitLines;
      ghost var bytes, done := before + chunk, SplitLines(before).lines;
      SplitConcat(before, chunk);
      buffer := buffer + chunk;
      while LF in buffer
        invariant failure == None && total == |bytes|
        invariant View() == TakeLines(START, done)
        invariant SplitLines(bytes) == Split(done + SplitLines(buffer).lines, SplitLines(buffer).tail)
        decreases |buffer|
      {
        var raw, rest := Partition(buffer);
        LineRead(bytes, done, buffer, raw, rest);
        buffer := rest;
        TakeRaw(raw);
        if failure.Some? { return; }
        done := done + [raw];
      }
      NoLine(buffer);
      assert done + [] == done;
      if eventBytes + |buffer| > MAX_EVENT_BYTES { failure := Some(EventTooLarge); }
    }
  }

  /** Cut a buffer at its first LF. */
  method Partition(buffer: seq<byte>) returns (raw: seq<byte>, rest: seq<byte>)
    requires LF in buffer
    ensures buffer == raw + [LF] + rest && LF !in raw
  {
    var k := 0;
    while buffer[k] != LF
      invariant 0 <= k < |buffer| && LF !in buffer[..k] && LF in buffer[k..]
      decreases |buffer| - k
    {
      k := k + 1;
    }
    raw, rest := buffer[..k], buffer[k + 1..];
  }

  lemma ConcatNext(chunks: seq<seq<byte>>, k: nat)
    requires k < |chunks|
    ensures Concat(chunks[..k + 1]) == Concat(chunks[..k]) + chunks[k]
  {
    assert chunks[..k + 1][..k] == chunks[..k];
  }

  /** A failing prefix of the chunks settles the report. */
  lemma {:induction false} FailedReport(chunks: seq<seq<byte>>, k: nat)
    requires k <= |chunks| && Decoded(chunks[..k]).failure.Some?
    ensures Decoded(chunks) == Decoded(chunks[..k])
    decreases |chunks|
  {
    if k == |chunks| {
      assert chunks[..k] == chunks;
    } else {
      var init := chunks[..|chunks| - 1];
      assert init[..k] == chunks[..k];
      FailedReport(init, k);
      if |Concat(chunks)| <= MAX_RESPONSE_BYTES {
        FailureIsFinal(Concat(init), chunks[|chunks| - 1]);
      }
    }
  }

  /** Decode a response chunk by chunk. */
  method SseData(chunks: seq<seq<byte>>) returns (report: Report)
    ensures report == Decoded(chunks)
  {
    var decoder := new Decoder();
    for k := 0 to |chunks|
      invariant decoder.HasRead(Concat(chunks[..k])) && |Concat(chunks[..k])| <= MAX_RESPONSE_BYTES
    {
      ConcatNext(chunks, k);
      assert chunks[..k + 1][..k] == chunks[..k];
      decoder.Feed(chunks[k], Concat(chunks[..k]));
      if decoder.failure.Some? {
        FailedReport(chunks, k + 1);
        return Report(decoder.events, decoder.failure);
      }
    }
    assert chunks[..|chunks|] == chunks;
    report := Report(decoder.events, None);
  }

  lemma {:induction false} EventsGrow(r: Reader, lines: seq<seq<byte>>)
    ensures r.events <= TakeLines(r, lines).events
  {
    if |lines| > 0 { EventsGrow(r, lines[..|lines| - 1]); }
  }

  /** Whatever the chunking, only events of the whole stream are reported, in order; a stream over the
      total bound always ends in a failure, and any other is reported from its bytes alone. */
  lemma {:induction false} ChunksDoNotMatter(chunks: seq<seq<byte>>)
    ensures Decoded(chunks).events <= ReadAll(Concat(chunks)).events
    ensures if |Concat(chunks)| <= MAX_RESPONSE_BYTES
            then Decoded(chunks) == ReportOf(ReadAll(Concat(chunks)))
            else Decoded(chunks).failure.Some?
    decreases |chunks|
  {
    if |Concat(chunks)| > MAX_RESPONSE_BYTES {
      assert |Concat([])| == 0;
      var init, last := Concat(chunks[..|chunks| - 1]), chunks[|chunks| - 1];
      ChunksDoNotMatter(chunks[..|chunks| - 1]);
      SplitConcat(init, last);
      TakeConcat(START, SplitLines(init).lines, SplitLines(SplitLines(init).tail + last).lines);
      EventsGrow(TakeLines(START, SplitLines(init).lines), SplitLines(SplitLines(init).tail + last).lines);
    }
  }

  // ----- when chunking shows -----

  /** Reading a prefix reports a prefix of the events. */
  lemma PrefixEvents(a: seq<byte>, b: seq<byte>)
    ensures ReadAll(a).events <= ReadAll(a + b).events
  {
    var s := SplitLines(a);
    var more := SplitLines(s.tail + b).lines;
    SplitConcat(a, b);
    TakeConcat(START, s.lines, more);
    EventsGrow(TakeLines(START, s.lines), more);
  }

  /** The total bound is no matter of lines. */
  lemma {:induction false} NeverTooLarge(r: Reader, lines: seq<seq<byte>>)
    requires r.failure != Some(ResponseTooLarge)
    ensures TakeLines(r, lines).failure != Some(ResponseTooLarge)
  {
    if |lines| > 0 { NeverTooLarge(r, lines[..|lines| - 1]); }
  }

  /** Nothing was reported by the time the total bound is reached: no event and no failure. */
  predicate QuietToBound(bytes: seq<byte>)
    requires |bytes| > MAX_RESPONSE_BYTES
  {
    ReportOf(ReadAll(bytes[..MAX_RESPONSE_BYTES])) == Report([], None)
  }

  /** A stream over the bound whose bytes up to the bound report nothing fails the same way under every
      chunking. */
  lemma {:induction false} QuietReport(chunks: seq<seq<byte>>)
    requires |Concat(chunks)| > MAX_RESPONSE_BYTES && QuietToBound(Concat(chunks))
    ensures Decoded(chunks) == Report([], Some(ResponseTooLarge))
    decreases |chunks|
  {
    assert |Concat([])| == 0;
    var bytes, before := Concat(chunks), chunks[..|chunks| - 1];
    var init := Concat(before);
    assert bytes == init + chunks[|chunks| - 1];
    if |init| > MAX_RESPONSE_BYTES {
      assert init[..MAX_RESPONSE_BYTES] == bytes[..MAX_RESPONSE_BYTES];
      QuietReport(before);
    } else {
      var rest := bytes[|init|..MAX_RESPONSE_BYTES];
      assert init + rest == bytes[..MAX_RESPONSE_BYTES];
      PrefixEvents(init, rest);
      if ReadAll(init).failure.Some? { FailureIsFinal(init, rest); }
    }
  }

  /** The whole stream in one chunk, against a first chunk that ends at the bound. */
  lemma TwoChunkings(bytes: seq<byte>)
    requires |bytes| > MAX_RESPONSE_BYTES
    ensures Concat([bytes]) == bytes
    ensures Concat([bytes[..MAX_RESPONSE_BYTES], bytes[MAX_RESPONSE_BYTES..]]) == bytes
    ensures Decoded([bytes]) == Report([], Some(ResponseTooLarge))
    ensures var head := ReportOf(ReadAll(bytes[..MAX_RESPONSE_BYTES]));
            Decoded([bytes[..MAX_RESPONSE_BYTES], bytes[MAX_RESPONSE_BYTES..]])
            == if head.failure.Some? then head else Report(head.events, Some(ResponseTooLarge))
  {
    var a, b := bytes[..MAX_RESPONSE_BYTES], bytes[MAX_RESPONSE_BYTES..];
    assert [bytes][..0] == [] && [a][..0] == [] && [a, b][..1] == [a];
    assert [] + bytes == bytes && [] + a == a && a + b == bytes;
    assert Concat([bytes]) == bytes && Concat([a]) == a && Concat([a, b]) == bytes;
    assert Decoded([]) == Report([], None);
  }

  /** Two chunkings of the same bytes. */
  predicate SameBytes(a: seq<seq<byte>>, b: seq<seq<byte>>, bytes: seq<byte>) {
    Concat(a) == bytes && Concat(b) == bytes
  }

  /** Chunking shows exactly over the total bound, and there exactly when the bytes up to the bound
      already report an event or a failure. */
  lemma ChunkingShowsIff(bytes: seq<byte>)
    ensures (forall a, b | SameBytes(a, b, bytes) :: Decoded(a) == Decoded(b)) <==>
              (|bytes| <= MAX_RESPONSE_BYTES || QuietToBound(bytes))
  {
    if |bytes| <= MAX_RESPONSE_BYTES {
    } else if QuietToBound(bytes) {
      forall a, b | SameBytes(a, b, bytes) ensures Decoded(a) == Decoded(b) {
        QuietReport(a);
        QuietReport(b);
      }
    } else {
      TwoChunkings(bytes);
      var head := bytes[..MAX_RESPONSE_BYTES];
      NeverTooLarge(START, SplitLines(head).lines);
      assert SameBytes([bytes], [head, bytes[MAX_RESPONSE_BYTES..]], bytes);
    }
  }
}
