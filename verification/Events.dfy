/** The events of the Poe protocol as frames, their JSON payloads, and the body that Poe displays
    (internal/poeproto/poeproto.go, docs/poe-protocol-reference.md). */
module Events {
  import opened Common
  import opened Sse

  datatype Event =
    | Meta
    | Text(s: string)
    | Replace(s: string)
    | Error(message: string, errorType: string)
    | Done

  // ---- JSON strings, as encoding/json writes them ----

  const HEX := "0123456789abcdef"

  /** Control characters and the characters special to HTML become numeric escapes. */
  predicate Numeric(c: char) {
    c < ' ' || c == '<' || c == '>' || c == '&'
  }

  /** The letter after the backslash, for characters with a short escape. */
  function ShortEscape(c: char): Option<char> {
    if c == '"' then Some('"')
    else if c == '\\' then Some('\\')
    else if c == '\n' then Some('n')
    else if c == '\r' then Some('r')
    else if c == '\t' then Some('t')
    else if c == '\U{8}' then Some('b')
    else if c == '\U{C}' then Some('f')
    else None
  }

  function EscapeChar(c: char): string {
    if ShortEscape(c).Some? then ['\\', ShortEscape(c).value]
    else if Numeric(c) then ['\\', 'u', '0', '0', HEX[c as int / 16], HEX[c as int % 16]]
    else if c == '\U{2028}' then ['\\', 'u', '2', '0', '2', '8']
    else if c == '\U{2029}' then ['\\', 'u', '2', '0', '2', '9']
    else [c]
  }

  function Escape(s: string): string {
    if s == "" then "" else EscapeChar(s[0]) + Escape(s[1..])
  }

  // ---- reading JSON strings ----

  function ShortUnescape(c: char): Option<char> {
    if c == '"' then Some('"')
    else if c == '\\' then Some('\\')
    else if c == '/' then Some('/')
    else if c == 'n' then Some('\n')
    else if c == 'r' then Some('\r')
    else if c == 't' then Some('\t')
    else if c == 'b' then Some('\U{8}')
    else if c == 'f' then Some('\U{C}')
    else None
  }

  function HexValue(c: char): Option<nat> {
    if '0' <= c <= '9' then Some(c as int - '0' as int)
    else if 'a' <= c <= 'f' then Some(c as int - 'a' as int + 10)
    else if 'A' <= c <= 'F' then Some(c as int - 'A' as int + 10)
    else None
  }

  /** The character of a four-digit escape; a lone surrogate is not a character. */
  function HexChar(s: string): Option<char>
    requires |s| == 4
  {
    var a, b, c, d := HexValue(s[0]), HexValue(s[1]), HexValue(s[2]), HexValue(s[3]);
    if a.None? || b.None? || c.None? || d.None? then None
    else
      var n := a.value * 4096 + b.value * 256 + c.value * 16 + d.value;
      if n < 0xD800 || 0xDFFF < n < 0x10000 then Some(n as char) else None
  }

  datatype Parsed = Parsed(value: string, rest: string)

  /** The string up to the closing quote, and what follows it. */
  function Unescape(s: string): Option<Parsed> {
    if s == "" then None
    else if s[0] == '"' then Some(Parsed("", s[1..]))
    else if s[0] != '\\' then Prepend(s[0], Unescape(s[1..]))
    else if |s| == 1 then None
    else if ShortUnescape(s[1]).Some? then Prepend(ShortUnescape(s[1]).value, Unescape(s[2..]))
    else if s[1] == 'u' && |s| >= 6 && HexChar(s[2..6]).Some? then Prepend(HexChar(s[2..6]).value, Unescape(s[6..]))
    else None
  }

  function Prepend(c: char, p: Option<Parsed>): Option<Parsed> {
    match p
    case None => None
    case Some(v) => Some(Parsed([c] + v.value, v.rest))
  }

  lemma ShortInverse(c: char)
    requires ShortEscape(c).Some?
    ensures ShortUnescape(ShortEscape(c).value) == Some(c)
  {
  }

  lemma UnescapePair(c: char, e: char, tail: string)
    requires ShortUnescape(e) == Some(c)
    ensures Unescape(['\\', e] + tail) == Prepend(c, Unescape(tail))
  {
    var s := ['\\', e] + tail;
    assert s[0] == '\\' && s[1] == e && s[2..] == tail;
  }

  lemma HexDigit(n: nat)
    requires n < 16
    ensures HexValue(HEX[n]) == Some(n)
  {
  }

  lemma HexCharOfNumeric(c: char)
    requires Numeric(c)
    ensures HexChar(['0', '0', HEX[c as int / 16], HEX[c as int % 16]]) == Some(c)
  {
    HexDigit(0);
    HexDigit(c as int / 16);
    HexDigit(c as int % 16);
  }

  lemma UnescapeNumeric(c: char, h: string, tail: string)
    requires |h| == 4 && HexChar(h) == Some(c)
    ensures Unescape(['\\', 'u'] + h + tail) == Prepend(c, Unescape(tail))
  {
    var s := ['\\', 'u'] + h + tail;
    assert s[0] == '\\' && s[1] == 'u' && s[2..6] == h && s[6..] == tail;
  }

  lemma {:induction false} UnescapeOne(c: char, tail: string)
    ensures Unescape(EscapeChar(c) + tail) == Prepend(c, Unescape(tail))
  {
    if ShortEscape(c).Some? {
      ShortInverse(c);
      UnescapePair(c, ShortEscape(c).value, tail);
    } else if Numeric(c) {
      var h := ['0', '0', HEX[c as int / 16], HEX[c as int % 16]];
      HexCharOfNumeric(c);
      UnescapeNumeric(c, h, tail);
      assert ['\\', 'u'] + h == EscapeChar(c);
    } else if c == '\U{2028}' || c == '\U{2029}' {
      var h := ['2', '0', '2', if c == '\U{2028}' then '8' else '9'];
      UnescapeNumeric(c, h, tail);
      assert ['\\', 'u'] + h == EscapeChar(c);
    } else {
      assert ([c] + tail)[1..] == tail;
    }
  }

  lemma {:induction false} UnescapeEscaped(s: string, rest: string)
    ensures Unescape(Escape(s) + "\"" + rest) == Some(Parsed(s, rest))
  {
    if s == "" {
      assert ("" + "\"" + rest)[1..] == rest;
    } else {
      UnescapeEscaped(s[1..], rest);
      Assoc(EscapeChar(s[0]), Escape(s[1..]), "\"");
      Assoc(EscapeChar(s[0]), Escape(s[1..]) + "\"", rest);
      UnescapeOne(s[0], Escape(s[1..]) + "\"" + rest);
      assert [s[0]] + s[1..] == s;
    }
  }

  lemma EscapeCharHasNoBreaks(c: char)
    ensures NoBreaks(EscapeChar(c))
  {
    if ShortEscape(c).None? && Numeric(c) {
      HexIsPlain(c as int / 16);
      HexIsPlain(c as int % 16);
    }
  }

  lemma HexIsPlain(n: nat)
    requires n < 16
    ensures HEX[n] != '\n' && HEX[n] != '\r'
  {
  }

  lemma {:induction false} EscapedHasNoBreaks(s: string)
    ensures NoBreaks(Escape(s))
  {
    if s != "" {
      EscapedHasNoBreaks(s[1..]);
      EscapeCharHasNoBreaks(s[0]);
      NoBreaksConcat(EscapeChar(s[0]), Escape(s[1..]));
    }
  }

  // ---- frames ----

  const RETRY := "{\"allow_retry\":true,"
  const TYPE_OPEN := "\"error_type\":\""
  const MESSAGE_OPEN := "\"text\":\""
  const TEXT_OPEN := "{\"text\":\""

  function TextPayload(s: string): string {
    TEXT_OPEN + Escape(s) + "\"" + "}"
  }

  function ErrorPayload(message: string, errorType: string): string {
    RETRY + (if errorType == "" then "" else TYPE_OPEN + Escape(errorType) + "\",") + MESSAGE_OPEN + Escape(message) + "\"}"
  }

  function FrameOf(e: Event): Frame {
    match e
    case Meta => Frame("meta", "{\"content_type\":" + "\"text/markdown\"}")
    case Text(s) => Frame("text", TextPayload(s))
    case Replace(s) => Frame("replace_response", TextPayload(s))
    case Error(m, et) => Frame("error", ErrorPayload(m, et))
    case Done => Frame("done", "{}")
  }

  function Frames(es: seq<Event>): (fs: seq<Frame>)
    ensures |fs| == |es|
    ensures forall i :: 0 <= i < |es| ==> fs[i] == FrameOf(es[i])
  {
    seq(|es|, i requires 0 <= i < |es| => FrameOf(es[i]))
  }

  lemma NoBreaksConcat(a: string, b: string)
    requires NoBreaks(a) && NoBreaks(b)
    ensures NoBreaks(a + b)
  {
  }

  lemma TextIsWritable(s: string)
    ensures NoBreaks(TextPayload(s))
  {
    EscapedHasNoBreaks(s);
    NoBreaksConcat(TEXT_OPEN, Escape(s));
    NoBreaksConcat(TEXT_OPEN + Escape(s), "\"");
    NoBreaksConcat(TEXT_OPEN + Escape(s) + "\"", "}");
  }

  lemma {:induction false} QuotedIsWritable(before: string, s: string, after: string)
    requires NoBreaks(before) && NoBreaks(after)
    ensures NoBreaks(before + Escape(s) + after)
  {
    EscapedHasNoBreaks(s);
    NoBreaksConcat(before, Escape(s));
    NoBreaksConcat(before + Escape(s), after);
  }

  lemma ErrorIsWritable(m: string, et: string)
    ensures NoBreaks(ErrorPayload(m, et))
  {
    QuotedIsWritable(TYPE_OPEN, et, "\",");
    ErrorPartsAreWritable(RETRY, if et == "" then "" else TYPE_OPEN + Escape(et) + "\",", MESSAGE_OPEN, m, "\"}");
  }

  lemma {:induction false} ErrorPartsAreWritable(open: string, kind: string, key: string, m: string, end: string)
    requires NoBreaks(open) && NoBreaks(kind) && NoBreaks(key) && NoBreaks(end)
    ensures NoBreaks(open + kind + key + Escape(m) + end)
  {
    NoBreaksConcat(open, kind);
    NoBreaksConcat(open + kind, key);
    QuotedIsWritable(open + kind + key, m, end);
  }

  lemma NamedFrame(name: string, data: string)
    requires name in {"text", "replace_response", "error"} && NoBreaks(data)
    ensures Writable(Frame(name, data))
  {
  }

  lemma MetaIsWritable()
    ensures Writable(FrameOf(Meta))
  {
    NoBreaksConcat("{\"content_type\":", "\"text/markdown\"}");
  }

  lemma DoneIsWritable()
    ensures Writable(FrameOf(Done))
  {
  }

  /** JSON escaping keeps line breaks out of every frame. */
  lemma {:induction false} FramesAreWritable(e: Event)
    ensures Writable(FrameOf(e))
  {
    match e {
      case Text(s) => TextIsWritable(s); NamedFrame("text", TextPayload(s));
      case Replace(s) => TextIsWritable(s); NamedFrame("replace_response", TextPayload(s));
      case Error(m, et) => ErrorIsWritable(m, et); NamedFrame("error", ErrorPayload(m, et));
      case Meta => MetaIsWritable();
      case Done => DoneIsWritable();
    }
  }

  // ---- what Poe displays ----

  /** text appends to the body and replace_response overwrites it; nothing else changes it. */
  function Show(body: string, e: Event): string {
    match e
    case Text(s) => body + s
    case Replace(s) => s
    case _ => body
  }

  function Body(es: seq<Event>): string {
    if es == [] then "" else Show(Body(es[..|es| - 1]), es[|es| - 1])
  }

  lemma BodySnoc(es: seq<Event>, e: Event)
    ensures Body(es + [e]) == Show(Body(es), e)
  {
    assert (es + [e])[..|es|] == es;
  }

  /** The text member of a payload, if it has the expected form. */
  function TextOf(data: string): Option<string> {
    if |data| >= |TEXT_OPEN| && data[..|TEXT_OPEN|] == TEXT_OPEN then
      match Unescape(data[|TEXT_OPEN|..])
      case Some(p) => if p.rest == "}" then Some(p.value) else None
      case None => None
    else None
  }

  lemma TextOfPayload(s: string)
    ensures TextOf(TextPayload(s)) == Some(s)
  {
    var tail := Escape(s) + "\"" + "}";
    assert TextPayload(s) == TEXT_OPEN + tail;
    assert TextPayload(s)[..|TEXT_OPEN|] == TEXT_OPEN;
    assert TextPayload(s)[|TEXT_OPEN|..] == tail;
    UnescapeEscaped(s, "}");
  }

  // ---- reading events back ----

  /** What follows a prefix. */
  function After(s: string, prefix: string): Option<string> {
    if |s| >= |prefix| && s[..|prefix|] == prefix then Some(s[|prefix|..]) else None
  }

  lemma AfterPrefix(prefix: string, rest: string)
    ensures After(prefix + rest, prefix) == Some(rest)
  {
  }

  /** A quoted string after an opening, and what follows it. */
  function Quoted(s: string, open: string): Option<Parsed> {
    match After(s, open)
    case Some(rest) => Unescape(rest)
    case None => None
  }

  lemma QuotedBack(open: string, text: string, rest: string)
    ensures Quoted(open + (Escape(text) + "\"" + rest), open) == Some(Parsed(text, rest))
  {
    AfterPrefix(open, Escape(text) + "\"" + rest);
    UnescapeEscaped(text, rest);
  }

  function ParseMessage(s: string, errorType: string): Option<Event> {
    match Quoted(s, MESSAGE_OPEN)
    case Some(p) => if p.rest == "}" then Some(Error(p.value, errorType)) else None
    case None => None
  }

  function ParseError(data: string): Option<Event> {
    match After(data, RETRY)
    case None => None
    case Some(rest) =>
      match Quoted(rest, TYPE_OPEN)
      case None => ParseMessage(rest, "")
      case Some(p) => if p.rest != "" && p.rest[0] == ',' then ParseMessage(p.rest[1..], p.value) else None
  }

  /** The event a client understands from a frame. */
  function ParseEvent(f: Frame): Option<Event> {
    if f.name == "meta" then Some(Meta)
    else if f.name == "done" then Some(Done)
    else if f.name == "error" then ParseError(f.data)
    else
      match TextOf(f.data)
      case None => None
      case Some(s) => if f.name == "text" then Some(Text(s)) else if f.name == "replace_response" then Some(Replace(s)) else None
  }

  /** The frames that are events, in order. */
  function ParseEvents(fs: seq<Frame>): seq<Event> {
    if fs == [] then []
    else
      ParseEvents(fs[..|fs| - 1]) +
      match ParseEvent(fs[|fs| - 1])
      case Some(e) => [e]
      case None => []
  }

  lemma MessageBack(m: string, errorType: string)
    ensures ParseMessage(MESSAGE_OPEN + (Escape(m) + "\"" + "}"), errorType) == Some(Error(m, errorType))
  {
    QuotedBack(MESSAGE_OPEN, m, "}");
  }

  lemma MessageIsNoType(rest: string)
    ensures Quoted(MESSAGE_OPEN + rest, TYPE_OPEN) == None
  {
    var s := MESSAGE_OPEN + rest;
    assert s[1] == 't' && TYPE_OPEN[1] == 'e';
    if |s| >= |TYPE_OPEN| { assert s[..|TYPE_OPEN|][1] == s[1]; }
  }

  lemma Regroup(a: string, b: string, c: string, d: string, e: string)
    ensures a + b + c + d + e == a + (b + (c + (d + e)))
  {
    Assoc(a + b + c, d, e);
    Assoc(a + b, c, d + e);
    Assoc(a, b, c + (d + e));
  }

  lemma ErrorPayloadParts(m: string, et: string)
    ensures var tail := MESSAGE_OPEN + (Escape(m) + "\"" + "}");
            ErrorPayload(m, et) == RETRY + (if et == "" then tail else TYPE_OPEN + (Escape(et) + "\"" + ("," + tail)))
  {
    var tail := MESSAGE_OPEN + (Escape(m) + "\"" + "}");
    Assoc(Escape(m), "\"", "}");
    EndQuote();
    if et == "" {
      Regroup(RETRY, "", MESSAGE_OPEN, Escape(m), "\"}");
      NoMore(tail);
    } else {
      Regroup(RETRY, TYPE_OPEN + Escape(et) + "\",", MESSAGE_OPEN, Escape(m), "\"}");
      TypeParts(TYPE_OPEN, Escape(et), tail);
    }
  }

  lemma EndQuote()
    ensures "\"" + "}" == "\"}" && "\"" + "," == "\","
  {
  }

  lemma TypeParts(open: string, et: string, tail: string)
    ensures open + et + "\"," + tail == open + (et + "\"" + ("," + tail))
  {
    EndQuote();
    Assoc(open + et, "\"", ",");
    Assoc(open + et + "\"", ",", tail);
    Assoc(open, et, "\"");
    Assoc(open, et + "\"", "," + tail);
  }

  lemma ErrorBack(m: string, et: string)
    ensures ParseError(ErrorPayload(m, et)) == Some(Error(m, et))
  {
    var tail := MESSAGE_OPEN + (Escape(m) + "\"" + "}");
    ErrorPayloadParts(m, et);
    MessageBack(m, et);
    if et == "" {
      AfterPrefix(RETRY, tail);
      MessageIsNoType(Escape(m) + "\"" + "}");
    } else {
      AfterPrefix(RETRY, TYPE_OPEN + (Escape(et) + "\"" + ("," + tail)));
      QuotedBack(TYPE_OPEN, et, "," + tail);
      assert ("," + tail)[1..] == tail;
    }
  }

  /** A client understands every frame as the event it was made from. */
  lemma EventBack(e: Event)
    ensures ParseEvent(FrameOf(e)) == Some(e)
  {
    match e {
      case Text(s) => TextOfPayload(s);
      case Replace(s) => TextOfPayload(s);
      case Error(m, et) => ErrorBack(m, et);
      case _ =>
    }
  }

  lemma {:induction false} ParseFrames(es: seq<Event>)
    ensures ParseEvents(Frames(es)) == es
  {
    if es != [] {
      var n := |es| - 1;
      ParseFrames(es[..n]);
      assert Frames(es)[..n] == Frames(es[..n]);
      EventBack(es[n]);
      assert es == es[..n] + [es[n]];
    }
  }

  /** From the bytes of any event list a client gets back exactly that list: every text, every error with
      its type, and the final done. */
  lemma EventsRoundTrip(es: seq<Event>)
    ensures Read(StreamBytes(Frames(es))) == Frames(es)
    ensures ParseEvents(Read(StreamBytes(Frames(es)))) == es
  {
    forall i | 0 <= i < |es|
      ensures Writable(Frames(es)[i])
    {
      FramesAreWritable(es[i]);
    }
    FramingRoundTrip(Frames(es));
    ParseFrames(es);
  }

  /** The body a client displays for a list of frames. */
  function Display(fs: seq<Frame>): string {
    Body(ParseEvents(fs))
  }

  /** A client that reads the bytes of an event list displays that list's body. */
  lemma DisplayOfBytes(es: seq<Event>)
    ensures Read(StreamBytes(Frames(es))) == Frames(es)
    ensures Display(Read(StreamBytes(Frames(es)))) == Body(es)
  {
    EventsRoundTrip(es);
  }
}
