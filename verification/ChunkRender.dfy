/** How agent updates become sink text (drainProcessChunk in internal/router/router.go), and why
    the result depends only on the visible characters and their kinds. */
module ChunkRender {
  import opened Common
  import opened Sinks

  datatype ChunkKind = ChunkNone | ChunkMessage | ChunkThought

  /** A session update; everything but message and thought text is suppressed. */
  datatype Update = Message(text: string) | Thought(text: string) | Other

  /** What the drain remembers between the chunks of one turn. */
  datatype Progress = Progress(first: bool, mode: ChunkKind)

  const START := Progress(false, ChunkNone)

  function KindOf(u: Update): ChunkKind {
    match u
    case Message(_) => ChunkMessage
    case Thought(_) => ChunkThought
    case Other => ChunkNone
  }

  predicate Visible(u: Update, hideThinking: bool) {
    !u.Other? && u.text != "" && !(u.Thought? && hideThinking)
  }

  /** Continues a block quote across line breaks. */
  function Quote(s: string): string {
    if s == "" then "" else Quote(s[..|s| - 1]) + QuoteChar(s[|s| - 1])
  }

  function QuoteChar(c: char): string {
    if c == '\n' then "\n> " else [c]
  }

  function Prefix(mode: ChunkKind, kind: ChunkKind): string {
    match (mode, kind)
    case (ChunkNone, ChunkThought) => "> _Thinking…_\n> "
    case (ChunkMessage, ChunkThought) => "\n\n> _Thinking…_\n> "
    case (ChunkThought, ChunkMessage) => "\n\n"
    case _ => ""
  }

  function Body(u: Update): string
    requires !u.Other?
  {
    if u.Thought? then Quote(u.text) else u.text
  }

  function NextProgress(p: Progress, u: Update, hideThinking: bool): Progress {
    if Visible(u, hideThinking) then Progress(true, KindOf(u)) else p
  }

  function ChunkCalls(p: Progress, u: Update, hideThinking: bool): seq<SinkCall> {
    if !Visible(u, hideThinking) then []
    else (if p.first then [] else [FirstChunk]) + [Text(Prefix(p.mode, KindOf(u)) + Body(u))]
  }

  /** The drain goroutine's state for the turn it is attached to. */
  class Drain {
    var first: bool
    var chunkMode: ChunkKind

    function State(): Progress
      reads this
    {
      Progress(first, chunkMode)
    }

    /** A begin marker attaches a new turn. */
    constructor ()
      ensures State() == START
    {
      first := false;
      chunkMode := ChunkNone;
    }

    method ProcessChunk(u: Update, hideThinking: bool, sink: Sink)
      modifies this, sink
      ensures State() == NextProgress(old(State()), u, hideThinking)
      ensures sink.calls == old(sink.calls) + ChunkCalls(old(State()), u, hideThinking)
    {
      var kind, text;
      match u {
        case Message(t) =>
          kind, text := ChunkMessage, t;
        case Thought(t) =>
          kind, text := ChunkThought, t;
        case Other =>
          return;
      }
      if text == "" || (kind == ChunkThought && hideThinking) {
        return;
      }
      var prefix := "";
      if chunkMode == ChunkNone && kind == ChunkThought {
        prefix := "> _Thinking…_\n> ";
      } else if chunkMode == ChunkMessage && kind == ChunkThought {
        prefix := "\n\n> _Thinking…_\n> ";
      } else if chunkMode == ChunkThought && kind == ChunkMessage {
        prefix := "\n\n";
      }
      chunkMode := kind;
      if !first {
        first := true;
        sink.Call(FirstChunk);
      }
      if kind == ChunkThought {
        text := QuoteLines(text);
      }
      sink.Call(Text(prefix + text));
    }
  }

  /** Replaces every line break by a line break and a quote marker. */
  method QuoteLines(s: string) returns (r: string)
    ensures r == Quote(s)
  {
    r := "";
    for i := 0 to |s|
      invariant r == Quote(s[..i])
    {
      assert s[..i + 1][..i] == s[..i];
      r := r + QuoteChar(s[i]);
    }
    assert s[..|s|] == s;
  }

  /** The drain's progress after the updates of one turn. */
  function After(us: seq<Update>, hideThinking: bool): Progress {
    if us == [] then START
    else NextProgress(After(us[..|us| - 1], hideThinking), us[|us| - 1], hideThinking)
  }

  /** All sink calls the drain makes for the updates of one turn. */
  function DrainCalls(us: seq<Update>, hideThinking: bool): seq<SinkCall> {
    if us == [] then []
    else
      var n := |us| - 1;
      DrainCalls(us[..n], hideThinking) + ChunkCalls(After(us[..n], hideThinking), us[n], hideThinking)
  }

  function StreamText(us: seq<Update>, hideThinking: bool): string {
    Texts(DrainCalls(us, hideThinking))
  }

  /** What one update adds to the text. */
  function Piece(mode: ChunkKind, u: Update, hideThinking: bool): string {
    if Visible(u, hideThinking) then Prefix(mode, KindOf(u)) + Body(u) else ""
  }

  lemma TextsOfChunk(p: Progress, u: Update, hideThinking: bool)
    ensures Texts(ChunkCalls(p, u, hideThinking)) == Piece(p.mode, u, hideThinking)
  {
    if Visible(u, hideThinking) {
      TextsOne(Prefix(p.mode, KindOf(u)) + Body(u));
    }
  }

  lemma TextsOne(s: string)
    ensures Texts([Text(s)]) == s && Texts([FirstChunk] + [Text(s)]) == s
  {
    assert [Text(s)][..0] == [] && [FirstChunk][..0] == [];
    assert ([FirstChunk] + [Text(s)])[..1] == [FirstChunk];
  }

  lemma StreamTextSnoc(us: seq<Update>, hideThinking: bool)
    requires us != []
    ensures var n := |us| - 1;
            StreamText(us, hideThinking)
            == StreamText(us[..n], hideThinking) + Piece(After(us[..n], hideThinking).mode, us[n], hideThinking)
  {
    var n := |us| - 1;
    var p := After(us[..n], hideThinking);
    TextsConcat(DrainCalls(us[..n], hideThinking), ChunkCalls(p, us[n], hideThinking));
    TextsOfChunk(p, us[n], hideThinking);
  }

  // ---- streaming equals batch ----

  datatype Run = Run(kind: ChunkKind, text: string)

  /** The visible chunks, with neighbours of the same kind joined. */
  function Runs(us: seq<Update>, hideThinking: bool): seq<Run> {
    if us == [] then []
    else
      var rs, u := Runs(us[..|us| - 1], hideThinking), us[|us| - 1];
      if Visible(u, hideThinking) then AddToRuns(rs, KindOf(u), u.text) else rs
  }

  function AddToRuns(rs: seq<Run>, kind: ChunkKind, text: string): seq<Run> {
    var n := |rs| - 1;
    if rs != [] && rs[n].kind == kind then rs[..n] + [Run(kind, rs[n].text + text)]
    else rs + [Run(kind, text)]
  }

  /** One finished block of the transcript. */
  function Block(r: Run): string {
    if r.kind == ChunkThought then "> _Thinking…_\n> " + Quote(r.text) else r.text
  }

  /** The blocks, separated by blank lines. */
  function Batch(rs: seq<Run>): string {
    if rs == [] then ""
    else if |rs| == 1 then Block(rs[0])
    else Batch(rs[..|rs| - 1]) + "\n\n" + Block(rs[|rs| - 1])
  }

  lemma {:induction false} QuoteConcat(a: string, b: string)
    ensures Quote(a + b) == Quote(a) + Quote(b)
  {
    if b == "" {
      assert a + b == a;
    } else {
      assert (a + b)[..|a + b| - 1] == a + b[..|b| - 1];
      QuoteConcat(a, b[..|b| - 1]);
    }
  }

  lemma BatchSnoc(rs: seq<Run>, r: Run)
    ensures Batch(rs + [r]) == if rs == [] then Block(r) else Batch(rs) + "\n\n" + Block(r)
  {
    assert (rs + [r])[..|rs|] == rs;
  }

  /** Extending the last block extends the transcript. */
  lemma BatchExtends(rs: seq<Run>, r: Run, s: Run, more: string)
    requires Block(s) == Block(r) + more
    ensures Batch(rs + [s]) == Batch(rs + [r]) + more
  {
    BatchSnoc(rs, r);
    BatchSnoc(rs, s);
    Assoc(Batch(rs) + "\n\n", Block(r), more);
  }

  lemma BlockExtends(kind: ChunkKind, a: string, b: string)
    ensures Block(Run(kind, a + b)) == Block(Run(kind, a)) + (if kind == ChunkThought then Quote(b) else b)
  {
    QuoteConcat(a, b);
  }

  lemma ThoughtHeader()
    ensures "\n\n" + "> _Thinking…_\n> " == "\n\n> _Thinking…_\n> "
  {
  }

  /** Starting a new run after a non-empty transcript. */
  lemma {:induction false} BlockStarts(before: string, mode: ChunkKind, u: Update, hideThinking: bool)
    requires Visible(u, hideThinking) && mode != ChunkNone && mode != KindOf(u)
    ensures before + "\n\n" + Block(Run(KindOf(u), u.text)) == before + Piece(mode, u, hideThinking)
  {
    Assoc(before, "\n\n", Block(Run(KindOf(u), u.text)));
    if u.Thought? {
      ThoughtHeader();
      Assoc("\n\n", "> _Thinking…_\n> ", Quote(u.text));
    }
  }

  lemma {:induction false} BatchAdds(rs: seq<Run>, mode: ChunkKind, u: Update, hideThinking: bool)
    requires Visible(u, hideThinking)
    requires rs != [] ==> rs[|rs| - 1].kind != ChunkNone
    requires mode == if rs == [] then ChunkNone else rs[|rs| - 1].kind
    ensures Batch(AddToRuns(rs, KindOf(u), u.text)) == Batch(rs) + Piece(mode, u, hideThinking)
  {
    var kind := KindOf(u);
    if mode == kind {
      BatchGrows(rs, u, hideThinking);
    } else {
      assert AddToRuns(rs, kind, u.text) == rs + [Run(kind, u.text)];
      BatchOpens(rs, mode, u, hideThinking);
    }
  }

  /** Starting a new run. */
  lemma BatchOpens(rs: seq<Run>, mode: ChunkKind, u: Update, hideThinking: bool)
    requires Visible(u, hideThinking) && mode != KindOf(u) && (mode == ChunkNone <==> rs == [])
    ensures Batch(rs + [Run(KindOf(u), u.text)]) == Batch(rs) + Piece(mode, u, hideThinking)
  {
    BatchSnoc(rs, Run(KindOf(u), u.text));
    if rs == [] {
      FirstBlock(u, hideThinking);
      NoMore(Piece(ChunkNone, u, hideThinking));
    } else {
      BlockStarts(Batch(rs), mode, u, hideThinking);
    }
  }

  lemma FirstBlock(u: Update, hideThinking: bool)
    requires Visible(u, hideThinking)
    ensures Block(Run(KindOf(u), u.text)) == Piece(ChunkNone, u, hideThinking)
  {
    NoMore(u.text);
  }

  /** Continuing the last run. */
  lemma {:induction false} BatchGrows(rs: seq<Run>, u: Update, hideThinking: bool)
    requires Visible(u, hideThinking) && rs != [] && rs[|rs| - 1].kind == KindOf(u)
    ensures Batch(AddToRuns(rs, KindOf(u), u.text)) == Batch(rs) + Piece(KindOf(u), u, hideThinking)
  {
    var n := |rs| - 1;
    BlockExtends(KindOf(u), rs[n].text, u.text);
    BatchExtends(rs[..n], rs[n], Run(KindOf(u), rs[n].text + u.text), Body(u));
    assert rs[..n] + [rs[n]] == rs;
    assert AddToRuns(rs, KindOf(u), u.text) == rs[..n] + [Run(KindOf(u), rs[n].text + u.text)];
    PieceInRun(u, hideThinking);
  }

  /** Within a run no separator is written. */
  lemma PieceInRun(u: Update, hideThinking: bool)
    requires Visible(u, hideThinking)
    ensures Piece(KindOf(u), u, hideThinking) == Body(u)
  {
  }

  lemma {:induction false} RunsMode(us: seq<Update>, hideThinking: bool)
    ensures var rs := Runs(us, hideThinking);
            && (forall i :: 0 <= i < |rs| ==> rs[i].kind != ChunkNone && rs[i].text != "")
            && (forall i :: 0 < i < |rs| ==> rs[i - 1].kind != rs[i].kind)
            && After(us, hideThinking).mode == if rs == [] then ChunkNone else rs[|rs| - 1].kind
  {
    if us != [] {
      RunsMode(us[..|us| - 1], hideThinking);
    }
  }

  /** Streaming writes exactly the transcript: the blocks of the maximal same-kind runs of visible
      chunks, separated by blank lines, with thoughts quoted line by line. */
  lemma {:induction false} StreamEqualsBatch(us: seq<Update>, hideThinking: bool)
    ensures StreamText(us, hideThinking) == Batch(Runs(us, hideThinking))
  {
    if us != [] {
      var n := |us| - 1;
      StreamEqualsBatch(us[..n], hideThinking);
      StreamTextSnoc(us, hideThinking);
      RunsMode(us[..n], hideThinking);
      if Visible(us[n], hideThinking) {
        BatchAdds(Runs(us[..n], hideThinking), After(us[..n], hideThinking).mode, us[n], hideThinking);
      }
    }
  }

  // ---- chunk boundaries do not matter ----

  /** A visible character and the kind of chunk that carried it. */
  datatype Letter = Letter(kind: ChunkKind, c: char)

  function Spell(kind: ChunkKind, text: string): (ls: seq<Letter>)
    ensures |ls| == |text|
  {
    seq(|text|, i requires 0 <= i < |text| => Letter(kind, text[i]))
  }

  function Letters(us: seq<Update>, hideThinking: bool): seq<Letter> {
    if us == [] then []
    else
      var u := us[|us| - 1];
      Letters(us[..|us| - 1], hideThinking) + (if Visible(u, hideThinking) then Spell(KindOf(u), u.text) else [])
  }

  function LastKind(ls: seq<Letter>): ChunkKind {
    if ls == [] then ChunkNone else ls[|ls| - 1].kind
  }

  /** The transcript, one character at a time. */
  function Typeset(ls: seq<Letter>): string {
    if ls == [] then ""
    else
      var n := |ls| - 1;
      Typeset(ls[..n]) + Prefix(LastKind(ls[..n]), ls[n].kind) + LetterText(ls[n])
  }

  function LetterText(l: Letter): string {
    if l.kind == ChunkThought then QuoteChar(l.c) else [l.c]
  }

  lemma TypesetSnoc(ls: seq<Letter>, l: Letter)
    ensures Typeset(ls + [l]) == Typeset(ls) + Prefix(LastKind(ls), l.kind) + LetterText(l)
  {
    assert (ls + [l])[..|ls|] == ls;
  }

  /** Within a run no separator is written. */
  lemma TypesetInRun(ls: seq<Letter>, l: Letter)
    requires LastKind(ls) == l.kind && l.kind != ChunkNone
    ensures Typeset(ls + [l]) == Typeset(ls) + LetterText(l)
  {
    TypesetSnoc(ls, l);
    NoMore(Typeset(ls));
  }

  lemma SpellSnoc(ls: seq<Letter>, kind: ChunkKind, text: string, c: char)
    ensures ls + Spell(kind, text + [c]) == (ls + Spell(kind, text)) + [Letter(kind, c)]
    ensures text != "" ==> LastKind(ls + Spell(kind, text)) == kind
    ensures text == "" ==> ls + Spell(kind, text) == ls
  {
  }

  lemma {:induction false} TypesetChunk(ls: seq<Letter>, u: Update, hideThinking: bool)
    requires Visible(u, hideThinking)
    ensures Typeset(ls + Spell(KindOf(u), u.text)) == Typeset(ls) + Piece(LastKind(ls), u, hideThinking)
    decreases u.text
  {
    var n := |u.text| - 1;
    var init := if u.Thought? then Thought(u.text[..n]) else Message(u.text[..n]);
    var last := Letter(KindOf(u), u.text[n]);
    var all := ls + Spell(KindOf(u), init.text);
    SpellSnoc(ls, KindOf(u), init.text, last.c);
    assert u.text == init.text + [last.c];
    if n == 0 {
      TypesetSnoc(ls, last);
      PieceOfOne(ls, u, hideThinking);
    } else {
      TypesetChunk(ls, init, hideThinking);
      PieceSnoc(LastKind(ls), u, init, last, hideThinking);
      TypesetInRun(all, last);
      Assoc(Typeset(ls), Piece(LastKind(ls), init, hideThinking), LetterText(last));
    }
  }

  lemma PieceOfOne(ls: seq<Letter>, u: Update, hideThinking: bool)
    requires Visible(u, hideThinking) && |u.text| == 1
    ensures var l := Letter(KindOf(u), u.text[0]);
            Typeset(ls) + Prefix(LastKind(ls), l.kind) + LetterText(l) == Typeset(ls) + Piece(LastKind(ls), u, hideThinking)
  {
    var l := Letter(KindOf(u), u.text[0]);
    assert u.text == [u.text[0]] && Quote(u.text) == Quote("") + QuoteChar(u.text[0]);
    NoMore(QuoteChar(u.text[0]));
    assert Body(u) == LetterText(l);
    Assoc(Typeset(ls), Prefix(LastKind(ls), l.kind), LetterText(l));
  }

  lemma PieceSnoc(mode: ChunkKind, u: Update, init: Update, last: Letter, hideThinking: bool)
    requires Visible(u, hideThinking) && Visible(init, hideThinking) && KindOf(u) == KindOf(init) == last.kind
    requires u.text == init.text + [last.c]
    ensures Piece(mode, u, hideThinking) == Piece(mode, init, hideThinking) + LetterText(last)
  {
    assert u.text[..|u.text| - 1] == init.text;
    assert Body(u) == Body(init) + LetterText(last);
    Assoc(Prefix(mode, KindOf(u)), Body(init), LetterText(last));
  }

  lemma {:induction false} StreamIsTypeset(us: seq<Update>, hideThinking: bool)
    ensures StreamText(us, hideThinking) == Typeset(Letters(us, hideThinking))
    ensures After(us, hideThinking).mode == LastKind(Letters(us, hideThinking))
  {
    if us != [] {
      var n := |us| - 1;
      StreamIsTypeset(us[..n], hideThinking);
      StreamTextSnoc(us, hideThinking);
      if Visible(us[n], hideThinking) {
        TypesetChunk(Letters(us[..n], hideThinking), us[n], hideThinking);
      } else {
        assert Letters(us, hideThinking) == Letters(us[..n], hideThinking);
      }
    }
  }

  /** Cutting the same visible characters into other chunks, or mixing in empty, hidden or
      suppressed ones, does not change what is streamed. */
  lemma ChunkingIsInvisible(us: seq<Update>, vs: seq<Update>, hideThinking: bool)
    requires Letters(us, hideThinking) == Letters(vs, hideThinking)
    ensures StreamText(us, hideThinking) == StreamText(vs, hideThinking)
  {
    StreamIsTypeset(us, hideThinking);
    StreamIsTypeset(vs, hideThinking);
  }

  /** The drain announces the first visible chunk once, ahead of all text. */
  lemma {:induction false} FirstChunkOnce(us: seq<Update>, hideThinking: bool)
    ensures var calls := DrainCalls(us, hideThinking);
            && (calls != [] <==> After(us, hideThinking).first)
            && (calls != [] ==> calls[0] == FirstChunk)
            && (forall i :: 0 < i < |calls| ==> calls[i].Text?)
  {
    if us != [] {
      FirstChunkOnce(us[..|us| - 1], hideThinking);
    }
  }

  // ---- what is shown and what is hidden ----

  function OnlyMessages(us: seq<Update>): seq<Update> {
    if us == [] then []
    else OnlyMessages(us[..|us| - 1]) + (if us[|us| - 1].Message? then [us[|us| - 1]] else [])
  }

  lemma DrainAfterSnoc(us: seq<Update>, u: Update, hideThinking: bool)
    ensures DrainCalls(us + [u], hideThinking)
            == DrainCalls(us, hideThinking) + ChunkCalls(After(us, hideThinking), u, hideThinking)
    ensures After(us + [u], hideThinking) == NextProgress(After(us, hideThinking), u, hideThinking)
  {
    assert (us + [u])[..|us|] == us;
  }

  /** Hiding the agent's thinking is the same as streaming only its messages. */
  lemma {:induction false} HidingDropsThoughts(us: seq<Update>)
    ensures DrainCalls(us, true) == DrainCalls(OnlyMessages(us), false)
    ensures After(us, true) == After(OnlyMessages(us), false)
  {
    if us != [] {
      var n := |us| - 1;
      HidingDropsThoughts(us[..n]);
      if us[n].Message? {
        DrainAfterSnoc(OnlyMessages(us[..n]), us[n], false);
      } else {
        NoMore(OnlyMessages(us[..n]));
        NoMore(DrainCalls(us[..n], true));
      }
    }
  }

  /** Every character of every message and thought, in order. */
  function AllLetters(us: seq<Update>): seq<Letter> {
    if us == [] then []
    else
      AllLetters(us[..|us| - 1]) +
      match us[|us| - 1]
      case Message(text) => seq(|text|, i requires 0 <= i < |text| => Letter(ChunkMessage, text[i]))
      case Thought(text) => seq(|text|, i requires 0 <= i < |text| => Letter(ChunkThought, text[i]))
      case Other => []
  }

  /** With thinking shown nothing that the agent says is left out, and nothing is added. */
  lemma {:induction false} EverythingIsStreamed(us: seq<Update>)
    ensures Letters(us, false) == AllLetters(us)
    ensures StreamText(us, false) == Typeset(AllLetters(us))
  {
    if us != [] { EverythingIsStreamed(us[..|us| - 1]); }
    StreamIsTypeset(us, false);
  }

  /** The texts of the messages, one after the other. */
  function MessageText(us: seq<Update>): string {
    if us == [] then ""
    else MessageText(us[..|us| - 1]) + (if us[|us| - 1].Message? then us[|us| - 1].text else "")
  }

  lemma {:induction false} MessagesHaveNoSeparators(us: seq<Update>)
    requires forall i :: 0 <= i < |us| ==> us[i].Message?
    ensures StreamText(us, false) == MessageText(us)
    ensures After(us, false).mode != ChunkThought
  {
    if us != [] {
      var n := |us| - 1;
      MessagesHaveNoSeparators(us[..n]);
      StreamTextSnoc(us, false);
      NoMore(us[n].text);
    } else {
      assert DrainCalls(us, false) == [];
    }
  }

  lemma {:induction false} OnlyMessagesText(us: seq<Update>)
    ensures forall i :: 0 <= i < |OnlyMessages(us)| ==> OnlyMessages(us)[i].Message?
    ensures MessageText(OnlyMessages(us)) == MessageText(us)
  {
    if us != [] {
      var n := |us| - 1;
      OnlyMessagesText(us[..n]);
      if us[n].Message? {
        assert (OnlyMessages(us[..n]) + [us[n]])[..|OnlyMessages(us[..n])|] == OnlyMessages(us[..n]);
      } else {
        NoMore(OnlyMessages(us[..n]));
        NoMore(MessageText(us[..n]));
      }
    }
  }

  /** With thinking hidden exactly the texts of the messages are streamed. */
  lemma HiddenStream(us: seq<Update>)
    ensures StreamText(us, true) == MessageText(us)
  {
    HidingDropsThoughts(us);
    OnlyMessagesText(us);
    MessagesHaveNoSeparators(OnlyMessages(us));
  }

  // ---- block quotes ----

  /** Drops the two characters after every line break. */
  function Unquote(s: string): string {
    if s == "" then ""
    else if s[0] == '\n' && |s| >= 3 then "\n" + Unquote(s[3..])
    else [s[0]] + Unquote(s[1..])
  }

  lemma {:induction false} QuoteHead(c: char, s: string)
    ensures Quote([c] + s) == QuoteChar(c) + Quote(s)
  {
    QuoteConcat([c], s);
    assert [c][..0] == "" && Quote([c]) == Quote("") + QuoteChar(c);
    NoMore(QuoteChar(c));
  }

  /** Quoting a text can be undone, so no line of it is lost or altered. */
  lemma {:induction false} UnquoteQuote(s: string)
    ensures Unquote(Quote(s)) == s
  {
    if s != "" {
      UnquoteQuote(s[1..]);
      QuoteHead(s[0], s[1..]);
      assert s == [s[0]] + s[1..];
      var q := Quote(s[1..]);
      if s[0] == '\n' {
        assert ("\n> " + q)[3..] == q;
      } else {
        assert ([s[0]] + q)[1..] == q;
      }
    }
  }

  /** Every line that starts inside s is quoted. */
  predicate QuotedInside(s: string) {
    forall i :: 0 <= i < |s| && s[i] == '\n' ==> i + 2 < |s| && s[i + 1] == '>' && s[i + 2] == ' '
  }

  lemma QuotedConcat(a: string, b: string)
    requires QuotedInside(a) && QuotedInside(b)
    ensures QuotedInside(a + b)
  {
    var all := a + b;
    forall i | 0 <= i < |all| && all[i] == '\n'
      ensures i + 2 < |all| && all[i + 1] == '>' && all[i + 2] == ' '
    {
      if i < |a| { assert a[i] == '\n'; } else { assert b[i - |a|] == '\n'; }
    }
  }

  lemma {:induction false} QuoteIsQuoted(s: string)
    ensures QuotedInside(Quote(s))
  {
    if s != "" {
      QuoteIsQuoted(s[..|s| - 1]);
      QuotedConcat(Quote(s[..|s| - 1]), QuoteChar(s[|s| - 1]));
    }
  }

  /** Every line of a thought's block starts with "> ", the first one included. */
  lemma ThoughtIsQuoted(r: Run)
    requires r.kind == ChunkThought
    ensures Block(r)[..2] == "> " && QuotedInside(Block(r))
  {
    QuoteIsQuoted(r.text);
    QuotedConcat("> _Thinking…_\n> ", Quote(r.text));
  }
}
