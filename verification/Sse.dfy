/** Server-sent events: how frames are written (SSEWriter in internal/poeproto/poeproto.go), how a
    conforming reader interprets the bytes (section 9.2.6, Interpreting an event stream, of the
    WHATWG HTML Living Standard), and what Poe displays. */
module Sse {
  import opened Common

  datatype Frame = Frame(name: string, data: string)

  // ---- writing ----

  function Line(s: string): string {
    s + "\n"
  }

  /** The bytes of one frame. */
  function FrameBytes(f: Frame): string {
    Line("event: " + f.name) + Line("data: " + f.data) + Line("")
  }

  function StreamBytes(fs: seq<Frame>): string {
    if fs == [] then "" else StreamBytes(fs[..|fs| - 1]) + FrameBytes(fs[|fs| - 1])
  }

  lemma StreamSnoc(fs: seq<Frame>, f: Frame)
    ensures StreamBytes(fs + [f]) == StreamBytes(fs) + FrameBytes(f)
  {
    assert (fs + [f])[..|fs|] == fs;
  }

  // ---- reading ----

  /** The reader's event type buffer, data buffer and dispatched events. */
  datatype Buffers = Buffers(eventType: string, data: string, events: seq<Frame>)

  /** The reader in the middle of a line; afterCR: a line feed now would belong to the last break. */
  datatype Reader = Reader(line: string, afterCR: bool, buf: Buffers)

  const IDLE := Reader("", false, Buffers("", "", []))

  function WithoutSpace(s: string): string {
    if s != "" && s[0] == ' ' then s[1..] else s
  }

  function Dispatch(b: Buffers): Buffers {
    if b.data == "" then Buffers("", "", b.events)
    else
      var n := |b.data| - 1;
      var data := if b.data[n] == '\n' then b.data[..n] else b.data;
      Buffers("", "", b.events + [Frame(if b.eventType == "" then "message" else b.eventType, data)])
  }

  /** The fields id and retry do not affect which events are dispatched. */
  function Field(b: Buffers, name: string, value: string): Buffers {
    if name == "event" then b.(eventType := value)
    else if name == "data" then b.(data := b.data + value + "\n")
    else b
  }

  function ProcessLine(b: Buffers, line: string): Buffers {
    if line == "" then Dispatch(b)
    else
      var k := IndexOf(line, ':');
      if k == 0 then b
      else if k < |line| then Field(b, line[..k], WithoutSpace(line[k + 1..]))
      else Field(b, line, "")
  }

  /** Lines end in a carriage return, a line feed, or the pair of both. */
  function Feed(r: Reader, c: char): Reader {
    if c == '\n' && r.afterCR then r.(afterCR := false)
    else if c == '\n' || c == '\r' then Reader("", c == '\r', ProcessLine(r.buf, r.line))
    else Reader(r.line + [c], false, r.buf)
  }

  function FeedAll(r: Reader, s: string): Reader {
    if s == "" then r else Feed(FeedAll(r, s[..|s| - 1]), s[|s| - 1])
  }

  function WithoutBom(s: string): string {
    if s != "" && s[0] == '\U{FEFF}' then s[1..] else s
  }

  /** The events a reader dispatches; an unfinished line or event at the end is discarded. */
  function Read(s: string): seq<Frame> {
    FeedAll(IDLE, WithoutBom(s)).buf.events
  }

  // ---- reading back what was written ----

  predicate NoBreaks(s: string) {
    '\n' !in s && '\r' !in s
  }

  lemma {:induction false} FeedConcat(r: Reader, a: string, b: string)
    ensures FeedAll(r, a + b) == FeedAll(FeedAll(r, a), b)
  {
    if b == "" {
      assert a + b == a;
    } else {
      assert (a + b)[..|a + b| - 1] == a + b[..|b| - 1];
      FeedConcat(r, a, b[..|b| - 1]);
    }
  }

  lemma {:induction false} FeedText(r: Reader, s: string)
    requires NoBreaks(s) && !r.afterCR
    ensures FeedAll(r, s) == r.(line := r.line + s)
  {
    if s == "" {
      NoMore(r.line);
    } else {
      var n := |s| - 1;
      assert s == s[..n] + [s[n]] && NoBreaks(s[..n]);
      FeedText(r, s[..n]);
      Assoc(r.line, s[..n], [s[n]]);
    }
  }

  lemma FeedLine(b: Buffers, s: string)
    requires NoBreaks(s)
    ensures FeedAll(Reader("", false, b), Line(s)) == Reader("", false, ProcessLine(b, s))
  {
    FeedText(Reader("", false, b), s);
    NoMore(s);
    assert Line(s)[..|s|] == s;
  }

  lemma EventLine(b: Buffers, name: string)
    ensures ProcessLine(b, "event: " + name) == b.(eventType := name)
  {
    var line := "event: " + name;
    assert line[5] == ':' && IndexOf(line, ':') == 5;
    assert line[..5] == "event";
    assert line[6..] == " " + name && (" " + name)[1..] == name;
  }

  lemma DataLine(b: Buffers, data: string)
    ensures ProcessLine(b, "data: " + data) == b.(data := b.data + data + "\n")
  {
    var line := "data: " + data;
    assert line[4] == ':' && IndexOf(line, ':') == 4;
    assert line[..4] == "data";
    assert line[5..] == " " + data && (" " + data)[1..] == data;
  }

  predicate Writable(f: Frame) {
    f.name != "" && NoBreaks(f.name) && NoBreaks(f.data)
  }

  lemma DispatchOne(events: seq<Frame>, f: Frame)
    requires Writable(f)
    ensures ProcessLine(Buffers(f.name, "" + f.data + "\n", events), "") == Buffers("", "", events + [f])
  {
    var data := "" + f.data + "\n";
    assert data[..|data| - 1] == f.data;
  }

  lemma FeedLines(b: Buffers, l1: string, l2: string, l3: string)
    requires NoBreaks(l1) && NoBreaks(l2) && NoBreaks(l3)
    ensures FeedAll(Reader("", false, b), Line(l1) + Line(l2) + Line(l3))
            == Reader("", false, ProcessLine(ProcessLine(ProcessLine(b, l1), l2), l3))
  {
    var r := Reader("", false, b);
    FeedConcat(r, Line(l1) + Line(l2), Line(l3));
    FeedConcat(r, Line(l1), Line(l2));
    FeedLine(b, l1);
    FeedLine(ProcessLine(b, l1), l2);
    FeedLine(ProcessLine(ProcessLine(b, l1), l2), l3);
  }

  lemma FeedFrame(events: seq<Frame>, f: Frame)
    requires Writable(f)
    ensures FeedAll(Reader("", false, Buffers("", "", events)), FrameBytes(f))
            == Reader("", false, Buffers("", "", events + [f]))
  {
    var b := Buffers("", "", events);
    FeedLines(b, "event: " + f.name, "data: " + f.data, "");
    EventLine(b, f.name);
    DataLine(b.(eventType := f.name), f.data);
    DispatchOne(events, f);
  }

  lemma {:induction false} FeedStream(fs: seq<Frame>)
    requires forall i :: 0 <= i < |fs| ==> Writable(fs[i])
    ensures FeedAll(IDLE, StreamBytes(fs)) == Reader("", false, Buffers("", "", fs))
  {
    if fs != [] {
      var n := |fs| - 1;
      FeedStream(fs[..n]);
      FeedConcat(IDLE, StreamBytes(fs[..n]), FrameBytes(fs[n]));
      FeedFrame(fs[..n], fs[n]);
      assert fs == fs[..n] + [fs[n]];
    }
  }

  lemma FrameStarts(f: Frame)
    ensures FrameBytes(f) != "" && FrameBytes(f)[0] == 'e'
  {
    assert ("event: " + f.name)[0] == 'e';
  }

  lemma {:induction false} StreamStarts(fs: seq<Frame>)
    ensures StreamBytes(fs) == "" || StreamBytes(fs)[0] == 'e'
  {
    if fs != [] {
      StreamStarts(fs[..|fs| - 1]);
      FrameStarts(fs[|fs| - 1]);
    }
  }

  /** A conforming reader gets back exactly the frames that were written. */
  lemma {:induction false} FramingRoundTrip(fs: seq<Frame>)
    requires forall i :: 0 <= i < |fs| ==> Writable(fs[i])
    ensures Read(StreamBytes(fs)) == fs
  {
    StreamStarts(fs);
    FeedStream(fs);
  }

  lemma {:induction false} EventsOnlyGrow(r: Reader, s: string)
    ensures r.buf.events <= FeedAll(r, s).buf.events
  {
    if s != "" {
      EventsOnlyGrow(r, s[..|s| - 1]);
    }
  }

  lemma PrefixReads(p: string, rest: string)
    ensures FeedAll(IDLE, p).buf.events <= FeedAll(IDLE, p + rest).buf.events
  {
    FeedConcat(IDLE, p, rest);
    EventsOnlyGrow(FeedAll(IDLE, p), rest);
  }

  /** A connection that breaks anywhere, even inside a frame, yields a prefix of the frames. */
  lemma TruncationIsPrefix(fs: seq<Frame>, cut: nat)
    requires forall i :: 0 <= i < |fs| ==> Writable(fs[i])
    requires cut <= |StreamBytes(fs)|
    ensures Read(StreamBytes(fs)[..cut]) <= fs
  {
    var all := StreamBytes(fs);
    StreamStarts(fs);
    FramingRoundTrip(fs);
    PrefixOfPlain(all, cut);
  }

  /** For bytes that do not start with a byte order mark. */
  lemma PrefixOfPlain(all: string, cut: nat)
    requires cut <= |all| && (all == "" || all[0] == 'e')
    ensures Read(all[..cut]) <= Read(all)
  {
    PrefixReads(all[..cut], all[cut..]);
    assert all[..cut] + all[cut..] == all;
    NoBom(all);
    NoBom(all[..cut]);
  }

  lemma NoBom(s: string)
    requires s == "" || s[0] == 'e'
    ensures WithoutBom(s) == s
  {
  }
}
