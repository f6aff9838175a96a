/** The service's event frames, and what decoding them gives back. */
module SseFrames {
  import opened Wrappers

  import opened Messages
  import Utf8
  import opened Sse

  datatype Frame = Frame(event: string, data: string)

  /** One frame as the service writes it: two lines and a blank one. */
  function Text(f: Frame): string { EventLine(f) + "\n" + DataLine(f) + "\n" + "\n" }

  function EventLine(f: Frame): string { "event: " + f.event }

  function DataLine(f: Frame): string { "data: " + f.data }

  function Body(frames: seq<Frame>): seq<byte> {
    if |frames| == 0 then [] else Body(frames[..|frames| - 1]) + Utf8.Encode(Text(frames[|frames| - 1]))
  }

  /** A line loses its trailing carriage returns. */
  function Trimmed(line: string): string {
    if |line| > 0 && line[|line| - 1] == '\r' then Trimmed(line[..|line| - 1]) else line
  }

  function DataOf(frames: seq<Frame>): seq<string> {
    if |frames| == 0 then [] else DataOf(frames[..|frames| - 1]) + [Trimmed(frames[|frames| - 1].data)]
  }

  /** Neither the event name nor the data breaks its line, and the frame is within the event bound. */
  predicate Writable(f: Frame) {
    '\n' !in f.event && '\n' !in f.data && |Utf8.Encode(Text(f))| <= MAX_EVENT_BYTES
  }

  // ----- encoded lines -----

  lemma EncodeOne(c: char)
    ensures Utf8.Encode([c]) == Utf8.EncodeChar(c)
  {
    assert [c][1..] == "";
  }

  lemma {:induction false} StripEncoded(line: string)
    ensures StripCr(Utf8.Encode(line)) == Utf8.Encode(Trimmed(line))
  {
    if |line| > 0 {
      var init, last := line[..|line| - 1], line[|line| - 1];
      assert line == init + [last];
      Utf8.EncodeConcat(init, [last]);
      EncodeOne(last);
      if last == '\r' {
        assert Utf8.Encode(line)[..|Utf8.Encode(init)|] == Utf8.Encode(init);
        StripEncoded(init);
      } else {
        assert Utf8.EncodeChar(last)[|Utf8.EncodeChar(last)| - 1] != CR;
      }
    }
  }

  lemma {:induction false} TrimmedAfter(head: string, c: char, rest: string)
    requires c != '\r'
    ensures Trimmed(head + [c] + rest) == head + [c] + Trimmed(rest)
  {
    if |rest| > 0 && rest[|rest| - 1] == '\r' {
      assert (head + [c] + rest)[..|head + [c] + rest| - 1] == head + [c] + rest[..|rest| - 1];
      TrimmedAfter(head, c, rest[..|rest| - 1]);
    } else if |rest| == 0 {
      assert head + [c] + rest == head + [c];
    }
  }

  /** Reading an encoded line reads the line without its trailing carriage returns. */
  lemma TakeEncoded(r: Reader, line: string)
    requires r.failure.None? && r.eventBytes + |Utf8.Encode(line)| + 1 <= MAX_EVENT_BYTES
    ensures TakeLine(r, Utf8.Encode(line))
         == TakeText(r, Trimmed(line), r.eventBytes + |Utf8.Encode(line)| + 1)
  {
    StripEncoded(line);
    Utf8.RoundTrip(Trimmed(line));
  }

  // ----- one frame -----

  function FrameLines(f: Frame): seq<seq<byte>> {
    [Utf8.Encode(EventLine(f)), Utf8.Encode(DataLine(f)), []]
  }

  lemma FrameBytes(f: Frame)
    ensures Utf8.Encode(Text(f))
         == Utf8.Encode(EventLine(f)) + [LF] + (Utf8.Encode(DataLine(f)) + [LF] + ([] + [LF] + []))
  {
    EncodeOne('\n');
    Utf8.EncodeConcat(EventLine(f) + "\n" + DataLine(f) + "\n", "\n");
    Utf8.EncodeConcat(EventLine(f) + "\n" + DataLine(f), "\n");
    Utf8.EncodeConcat(EventLine(f) + "\n", DataLine(f));
    Utf8.EncodeConcat(EventLine(f), "\n");
  }

  lemma FrameSplits(f: Frame)
    requires '\n' !in f.event && '\n' !in f.data
    ensures SplitLines(Utf8.Encode(Text(f))) == Split(FrameLines(f), [])
  {
    FrameBytes(f);
    Utf8.AsciiIsItself(EventLine(f), LF);
    Utf8.AsciiIsItself(DataLine(f), LF);
    var data := Utf8.Encode(DataLine(f));
    OneLine([], []);
    OneLine(data, [] + [LF] + []);
    OneLine(Utf8.Encode(EventLine(f)), data + [LF] + ([] + [LF] + []));
  }

  lemma EventLineTrims(f: Frame)
    ensures Trimmed(EventLine(f)) != "" && !("data:" <= Trimmed(EventLine(f)))
  {
    TrimmedAfter("event:", ' ', f.event);
    assert "event:" + [' '] + f.event == EventLine(f);
    assert Trimmed(EventLine(f))[0] == 'e';
  }

  lemma DataLineTrims(f: Frame)
    ensures "data:" <= Trimmed(DataLine(f)) && FieldOf(Trimmed(DataLine(f))) == Trimmed(f.data)
  {
    TrimmedAfter("data:", ' ', f.data);
    assert "data:" + [' '] + f.data == DataLine(f);
    assert Trimmed(DataLine(f))[5..] == " " + Trimmed(f.data);
  }

  lemma EventTaken(f: Frame, events: seq<string>)
    requires |Utf8.Encode(EventLine(f))| + 1 <= MAX_EVENT_BYTES
    ensures TakeLine(Reader([], 0, events, None), Utf8.Encode(EventLine(f)))
         == Reader([], |Utf8.Encode(EventLine(f))| + 1, events, None)
  {
    TakeEncoded(Reader([], 0, events, None), EventLine(f));
    EventLineTrims(f);
  }

  lemma DataTaken(f: Frame, size: nat, events: seq<string>)
    requires size + |Utf8.Encode(DataLine(f))| + 1 <= MAX_EVENT_BYTES
    ensures TakeLine(Reader([], size, events, None), Utf8.Encode(DataLine(f)))
         == Reader([Trimmed(f.data)], size + |Utf8.Encode(DataLine(f))| + 1, events, None)
  {
    TakeEncoded(Reader([], size, events, None), DataLine(f));
    DataLineTrims(f);
  }

  lemma FrameSize(f: Frame)
    ensures |Utf8.Encode(Text(f))| == |Utf8.Encode(EventLine(f))| + |Utf8.Encode(DataLine(f))| + 3
  {
    FrameBytes(f);
  }

  /** After the event line and the data line, one field is open and nothing new is reported. */
  lemma FrameFields(f: Frame, events: seq<string>)
    requires Writable(f)
    ensures var size := |Utf8.Encode(EventLine(f))| + 1;
            var r := TakeLine(Reader([], 0, events, None), Utf8.Encode(EventLine(f)));
            && r == Reader([], size, events, None)
            && TakeLine(r, Utf8.Encode(DataLine(f)))
               == Reader([Trimmed(f.data)], size + |Utf8.Encode(DataLine(f))| + 1, events, None)
  {
    hide TakeLine;
    FrameSize(f);
    EventTaken(f, events);
    DataTaken(f, |Utf8.Encode(EventLine(f))| + 1, events);
  }

  lemma TakeThree(r: Reader, a: seq<byte>, b: seq<byte>, c: seq<byte>)
    ensures TakeLines(r, [a]) == TakeLine(r, a)
    ensures TakeLines(r, [a, b]) == TakeLine(TakeLine(r, a), b)
    ensures TakeLines(r, [a, b, c]) == TakeLine(TakeLine(TakeLine(r, a), b), c)
  {
    assert [a][..0] == [] && [a, b][..1] == [a] && [a, b, c][..2] == [a, b];
  }

  lemma FrameReads(f: Frame, events: seq<string>)
    requires Writable(f)
    ensures TakeLines(Reader([], 0, events, None), FrameLines(f))
         == Reader([], 0, events + [Trimmed(f.data)], None)
  {
    var start := Reader([], 0, events, None);
    TakeThree(start, Utf8.Encode(EventLine(f)), Utf8.Encode(DataLine(f)), []);
    FrameFields(f, events);
    FrameSize(f);
    assert StripCr([]) == [] && Utf8.Decode([]) == Some("");
  }

  // ----- any number of frames -----

  lemma {:induction false} BodyReads(frames: seq<Frame>)
    requires forall f | f in frames :: Writable(f)
    ensures SplitLines(Body(frames)).tail == []
    ensures TakeLines(START, SplitLines(Body(frames)).lines) == Reader([], 0, DataOf(frames), None)
  {
    if |frames| > 0 {
      var init, f := frames[..|frames| - 1], frames[|frames| - 1];
      assert Writable(f);
      hide TakeLine, TakeLines, SplitLines;
      BodyReads(init);
      FrameSplits(f);
      SplitConcat(Body(init), Utf8.Encode(Text(f)));
      assert [] + Utf8.Encode(Text(f)) == Utf8.Encode(Text(f));
      TakeConcat(START, SplitLines(Body(init)).lines, FrameLines(f));
      FrameReads(f, DataOf(init));
    }
  }

  lemma {:induction false} SomeLine(bytes: seq<byte>)
    requires LF in bytes
    ensures SplitLines(bytes).lines != []
  {
    if bytes[|bytes| - 1] != LF { SomeLine(bytes[..|bytes| - 1]); }
  }

  /** Cutting bytes that end in a LF loses at least their last line. */
  lemma CutLosesLine(bytes: seq<byte>, k: nat)
    requires k < |bytes| && bytes[|bytes| - 1] == LF
    ensures var cut, all := SplitLines(bytes[..k]).lines, SplitLines(bytes).lines;
            |cut| < |all| && cut == all[..|cut|]
  {
    var s := SplitLines(bytes[..k]);
    assert bytes == bytes[..k] + bytes[k..];
    SplitConcat(bytes[..k], bytes[k..]);
    assert bytes[k..][|bytes| - 1 - k] == LF;
    SomeLine(s.tail + bytes[k..]);
  }

  /** The lines of a frame cut short: none, its event line, or its event line and its data line. */
  lemma PartialLines(f: Frame, k: nat)
    requires Writable(f) && k < |Utf8.Encode(Text(f))|
    ensures var lines := SplitLines(Utf8.Encode(Text(f))[..k]).lines;
            lines == [] || lines == [FrameLines(f)[0]] || lines == [FrameLines(f)[0], FrameLines(f)[1]]
  {
    FrameSplits(f);
    FrameBytes(f);
    CutLosesLine(Utf8.Encode(Text(f)), k);
  }

  /** A frame cut short reports nothing: its blank line is still missing. */
  lemma PartialReads(f: Frame, k: nat, events: seq<string>)
    requires Writable(f) && k < |Utf8.Encode(Text(f))|
    ensures var s := SplitLines(Utf8.Encode(Text(f))[..k]);
            var r := TakeLines(Reader([], 0, events, None), s.lines);
            r.events == events && r.failure == None && r.eventBytes + |s.tail| <= MAX_EVENT_BYTES
  {
    var start := Reader([], 0, events, None);
    assert TakeLines(start, []) == start;
    hide TakeLine, TakeLines, SplitLines;
    PartialLines(f, k);
    FrameFields(f, events);
    TakeThree(start, FrameLines(f)[0], FrameLines(f)[1], []);
    Accounted(Utf8.Encode(Text(f))[..k], start);
  }

  /** What a reader charges an event never exceeds the bytes it has read. */
  lemma {:induction false} Accounted(bytes: seq<byte>, start: Reader)
    requires start.failure.None?
    ensures var r := TakeLines(start, SplitLines(bytes).lines);
            r.failure.None? ==> r.eventBytes + |SplitLines(bytes).tail| <= start.eventBytes + |bytes|
  {
    if |bytes| > 0 {
      var n := |bytes| - 1;
      var s := SplitLines(bytes[..n]);
      Accounted(bytes[..n], start);
      if bytes[n] == LF { assert (s.lines + [s.tail])[..|s.lines|] == s.lines; }
    }
  }

  /** After any frames, reading goes on as from the start, with their data reported. */
  lemma BodyThen(frames: seq<Frame>, part: seq<byte>)
    requires forall f | f in frames :: Writable(f)
    ensures ReadAll(Body(frames) + part)
         == Settle(TakeLines(Reader([], 0, DataOf(frames), None), SplitLines(part).lines), SplitLines(part).tail)
  {
    hide TakeLine, TakeLines, SplitLines;
    BodyReads(frames);
    SplitConcat(Body(frames), part);
    assert [] + part == part;
    TakeConcat(START, SplitLines(Body(frames)).lines, SplitLines(part).lines);
  }

  /** Decoding any frames, under any chunking, reports each frame's data in order, without trailing
      carriage returns; a last frame that is cut short adds nothing and breaks nothing. */
  lemma FramesRoundTrip(frames: seq<Frame>, last: Frame, k: nat, chunks: seq<seq<byte>>)
    requires forall f | f in frames :: Writable(f)
    requires Writable(last) && k < |Utf8.Encode(Text(last))|
    requires Concat(chunks) == Body(frames) + Utf8.Encode(Text(last))[..k]
    requires |Concat(chunks)| <= MAX_RESPONSE_BYTES
    ensures Decoded(chunks) == Report(DataOf(frames), None)
  {
    hide TakeLine, TakeLines, SplitLines, Concat, ReadAll;
    PartialReads(last, k, DataOf(frames));
    BodyThen(frames, Utf8.Encode(Text(last))[..k]);
  }

  /** Over the total bound chunking does show: any frame, followed by enough bytes, is reported under one
      chunking and not under another. */
  lemma ChunkingShows(f: Frame, rest: seq<byte>)
    requires Writable(f) && |Utf8.Encode(Text(f)) + rest| > MAX_RESPONSE_BYTES
    ensures exists a, b | SameBytes(a, b, Utf8.Encode(Text(f)) + rest) :: Decoded(a) != Decoded(b)
  {
    var frame := Utf8.Encode(Text(f));
    var bytes := frame + rest;
    FrameSplits(f);
    FrameReads(f, []);
    hide SplitLines, TakeLines, Decoded, Concat, Utf8.Encode;
    assert ReadAll(frame).events == [Trimmed(f.data)];
    assert MAX_EVENT_BYTES <= MAX_RESPONSE_BYTES;
    assert bytes[..MAX_RESPONSE_BYTES] == frame + bytes[|frame|..MAX_RESPONSE_BYTES];
    PrefixEvents(frame, bytes[|frame|..MAX_RESPONSE_BYTES]);
    ChunkingShowsIff(bytes);
  }

  predicate EndsInCr(data: string) { |data| > 0 && data[|data| - 1] == '\r' }

  function Written(frames: seq<Frame>): seq<string> {
    seq(|frames|, i requires 0 <= i < |frames| => frames[i].data)
  }

  lemma {:induction false} DataIsTrimmed(frames: seq<Frame>)
    ensures |DataOf(frames)| == |frames|
    ensures forall i | 0 <= i < |frames| :: DataOf(frames)[i] == Trimmed(frames[i].data)
  {
    if |frames| > 0 { DataIsTrimmed(frames[..|frames| - 1]); }
  }

  /** Decoding frames gives back exactly the data strings that were written if and only if none of them
      ends in a carriage return, whatever the chunking, and also when a last frame is cut short. */
  lemma UnchangedIffNoCr(frames: seq<Frame>, last: Frame, k: nat, chunks: seq<seq<byte>>)
    requires forall f | f in frames :: Writable(f)
    requires Writable(last) && k < |Utf8.Encode(Text(last))|
    requires Concat(chunks) == Body(frames) + Utf8.Encode(Text(last))[..k]
    requires |Concat(chunks)| <= MAX_RESPONSE_BYTES
    ensures Decoded(chunks) == Report(Written(frames), None) <==>
              forall i | 0 <= i < |frames| :: !EndsInCr(frames[i].data)
  {
    hide Decoded, Concat, Trimmed, Body, Utf8.Encode;
    FramesRoundTrip(frames, last, k, chunks);
    DataIsTrimmed(frames);
    hide DataOf, Writable;
    forall i | 0 <= i < |frames| ensures Trimmed(frames[i].data) == Written(frames)[i] <==> !EndsInCr(frames[i].data) {
      TrimmedIffSame(frames[i].data);
    }
    if DataOf(frames) == Written(frames) {
      forall i | 0 <= i < |frames| ensures !EndsInCr(frames[i].data) {
        assert DataOf(frames)[i] == Written(frames)[i];
      }
    }
  }

  /** Trimming changes exactly the data that ends in a carriage return. */
  lemma TrimmedIffSame(data: string)
    ensures Trimmed(data) == data <==> !EndsInCr(data)
  {
    TrimmedShorter(data);
    if |data| > 0 && data[|data| - 1] == '\r' { TrimmedShorter(data[..|data| - 1]); }
  }

  lemma {:induction false} TrimmedShorter(line: string)
    ensures |Trimmed(line)| <= |line|
  {
    if |line| > 0 && line[|line| - 1] == '\r' { TrimmedShorter(line[..|line| - 1]); }
  }

  // ----- the event bound -----

  /** A line that would take its event past the bound fails, whatever it says. */
  lemma TooLongFails(r: Reader, raw: seq<byte>)
    requires r.failure.None? && r.eventBytes + |raw| + 1 > MAX_EVENT_BYTES
    ensures TakeLine(r, raw) == r.(failure := Some(EventTooLarge))
  {
  }

  /** One frame on one line each is decoded exactly when all of it is within the event bound. */
  lemma FrameFitsIff(f: Frame, chunks: seq<seq<byte>>)
    requires '\n' !in f.event && '\n' !in f.data
    requires Concat(chunks) == Utf8.Encode(Text(f)) && |Concat(chunks)| <= MAX_RESPONSE_BYTES
    ensures Decoded(chunks) == if |Utf8.Encode(Text(f))| <= MAX_EVENT_BYTES
                               then Report([Trimmed(f.data)], None) else Report([], Some(EventTooLarge))
  {
    FrameSplits(f);
    FrameSize(f);
    var raw, data := Utf8.Encode(EventLine(f)), Utf8.Encode(DataLine(f));
    TakeThree(START, raw, data, []);
    if |Utf8.Encode(Text(f))| <= MAX_EVENT_BYTES {
      FrameReads(f, []);
    } else if |raw| + 1 > MAX_EVENT_BYTES {
      TooLongFails(START, raw);
    } else {
      EventTaken(f, []);
      var r := Reader([], |raw| + 1, [], None);
      if |raw| + 1 + |data| + 1 > MAX_EVENT_BYTES {
        TooLongFails(r, data);
      } else {
        DataTaken(f, |raw| + 1, []);
        TooLongFails(Reader([Trimmed(f.data)], |raw| + 1 + |data| + 1, [], None), []);
      }
    }
  }

  // ----- events of several data lines -----

  function DataLines(lines: seq<string>): seq<byte> {
    if |lines| == 0 then []
    else DataLines(lines[..|lines| - 1]) + Utf8.Encode("data: " + lines[|lines| - 1]) + [LF]
  }

  function TrimmedAll(lines: seq<string>): seq<string> {
    if |lines| == 0 then [] else TrimmedAll(lines[..|lines| - 1]) + [Trimmed(lines[|lines| - 1])]
  }

  lemma SplitOneMore(bytes: seq<byte>, raw: seq<byte>)
    requires SplitLines(bytes).tail == [] && LF !in raw
    ensures SplitLines(bytes + raw + [LF]) == Split(SplitLines(bytes).lines + [raw], [])
  {
    SplitConcat(bytes, raw + [LF]);
    OneLine(raw, []);
    assert bytes + raw + [LF] == bytes + (raw + [LF]);
    assert [] + (raw + [LF]) == raw + [LF] + [];
  }

  lemma TakeOneMore(r: Reader, lines: seq<seq<byte>>, raw: seq<byte>)
    ensures TakeLines(r, lines + [raw]) == TakeLine(TakeLines(r, lines), raw)
  {
    assert (lines + [raw])[..|lines|] == lines;
  }

  lemma DataLineTaken(r: Reader, line: string)
    requires r.failure.None? && r.eventBytes + |Utf8.Encode("data: " + line)| + 1 <= MAX_EVENT_BYTES
    ensures TakeLine(r, Utf8.Encode("data: " + line))
         == r.(fields := r.fields + [Trimmed(line)],
               eventBytes := r.eventBytes + |Utf8.Encode("data: " + line)| + 1)
  {
    TakeEncoded(r, "data: " + line);
    DataLineTrims(Frame("", line));
    assert DataLine(Frame("", line)) == "data: " + line;
  }

  /** Data lines pile up as fields, each charged with its bytes. */
  lemma {:induction false} DataLinesRead(lines: seq<string>, events: seq<string>)
    requires forall k | 0 <= k < |lines| :: '\n' !in lines[k]
    requires |DataLines(lines)| <= MAX_EVENT_BYTES
    ensures SplitLines(DataLines(lines)).tail == []
    ensures TakeLines(Reader([], 0, events, None), SplitLines(DataLines(lines)).lines)
         == Reader(TrimmedAll(lines), |DataLines(lines)|, events, None)
  {
    if |lines| > 0 {
      hide SplitLines, TakeLine, TakeLines;
      var init, last := lines[..|lines| - 1], lines[|lines| - 1];
      var raw := Utf8.Encode("data: " + last);
      DataLinesRead(init, events);
      Utf8.AsciiIsItself("data: " + last, LF);
      SplitOneMore(DataLines(init), raw);
      TakeOneMore(Reader([], 0, events, None), SplitLines(DataLines(init)).lines, raw);
      DataLineTaken(Reader(TrimmedAll(init), |DataLines(init)|, events, None), last);
    }
  }

  /** An event of several data lines is reported as those lines with LFs between them. */
  lemma {:induction false} MultilineRoundTrip(lines: seq<string>, chunks: seq<seq<byte>>)
    requires lines != [] && forall k | 0 <= k < |lines| :: '\n' !in lines[k]
    requires Concat(chunks) == DataLines(lines) + [LF] && |Concat(chunks)| <= MAX_EVENT_BYTES
    ensures Decoded(chunks) == Report([JoinFields(TrimmedAll(lines))], None)
  {
    DataLinesRead(lines, []);
    SplitConcat(DataLines(lines), [LF]);
    OneLine([], []);
    assert [] + [LF] == [] + [LF] + [];
    var blank: seq<seq<byte>> := [[]];
    TakeConcat(START, SplitLines(DataLines(lines)).lines, blank);
    assert blank[..0] == [];
    assert StripCr([]) == [] && Utf8.Decode([]) == Some("");
  }

  /** A text cut at every LF. */
  function CutAtLf(text: string): (lines: seq<string>)
    ensures |lines| > 0
  {
    if |text| == 0 then [""]
    else
      var lines, last := CutAtLf(text[..|text| - 1]), text[|text| - 1];
      if last == '\n' then lines + [""] else Longer(lines, [last])
  }

  function Longer(lines: seq<string>, more: string): seq<string>
    requires |lines| > 0
  {
    lines[..|lines| - 1] + [lines[|lines| - 1] + more]
  }

  lemma CutOne(text: string, c: char)
    requires c != '\n'
    ensures CutAtLf(text + [c]) == Longer(CutAtLf(text), [c])
  {
    assert (text + [c])[..|text|] == text;
  }

  lemma {:induction false} CutMore(text: string, line: string)
    requires '\n' !in line
    ensures CutAtLf(text + line) == Longer(CutAtLf(text), line)
  {
    var lines := CutAtLf(text);
    if line == "" {
      assert text + line == text && lines[|lines| - 1] + line == lines[|lines| - 1];
    } else {
      var n := |line| - 1;
      assert line[n] in line && text + line[..n] + [line[n]] == text + line;
      CutOne(text + line[..n], line[n]);
      hide CutAtLf;
      CutMore(text, line[..n]);
      assert lines[|lines| - 1] + line[..n] + [line[n]] == lines[|lines| - 1] + line;
    }
  }

  /** Joining loses nothing: the fields are the joined text cut at its LFs. */
  lemma {:induction false} JoinCuts(fields: seq<string>)
    requires fields != [] && forall k | 0 <= k < |fields| :: '\n' !in fields[k]
    ensures CutAtLf(JoinFields(fields)) == fields
  {
    var init, last := fields[..|fields| - 1], fields[|fields| - 1];
    if init == [] {
      CutMore("", last);
      LongerBlank([], last);
      assert "" + last == last && [] + [""] == [""] == CutAtLf("");
    } else {
      JoinCuts(init);
      var text := JoinFields(init) + "\n";
      assert text[..|text| - 1] == JoinFields(init);
      assert CutAtLf(text) == init + [""];
      CutMore(text, last);
      LongerBlank(init, last);
    }
  }

  lemma LongerBlank(lines: seq<string>, more: string)
    ensures Longer(lines + [""], more) == lines + [more]
  {
    assert "" + more == more;
    assert (lines + [""])[..|lines|] == lines;
  }
}
