/** Every interleaving inside one session: submitters, the runner (runTurns, runOneTurn), the drain
    goroutine (drainChunks), the agent's update goroutines (OnUpdate) and the collector. The queue
    and the runner's program counter are those of QueueRuns. The collector works either in the small
    steps of QueueRuns or, as an abbreviation, in one atomic step; runs that use only the latter are
    called atomic. */
module SessionRuns {
  import opened Common
  import opened Sinks
  import opened ChunkRender
  import opened OptionCache
  import opened TurnQueue
  import Q = QueueRuns

  const CHUNK_CAP: nat := 256

  /** A message on the session's chunk channel. */
  datatype Msg = Chunk(u: Update) | Begin(t: Turn) | End(t: Turn)

  /** How Agent.Prompt came back. */
  datatype Outcome = Failed(err: string) | EndTurn | MaxTokens | MaxTurnRequests | Refusal | Cancelled | OtherReason

  /** Where the runner is within a turn. */
  datatype Sub =
    | Fresh                 // nothing done for the current turn yet
    | Ready                 // options applied, prompt assembled
    | Running               // begin sent; Agent.Prompt is running
    | Returned(o: Outcome)  // about to send the end marker
    | Acking(o: Outcome)    // end sent; waiting for the drain's acknowledgement

  /** The channel and its consumer; hist is what the drain has received so far. */
  datatype Pipe = Pipe(ch: seq<Msg>, hist: seq<Msg>, td: Option<Turn>, progress: Progress, acked: bool, gone: bool)

  /** Sink calls made so far, per turn, with what the runner contributed to them. */
  datatype Book = Book(log: map<Turn, seq<SinkCall>>, notices: map<Turn, Option<string>>, outcomes: map<Turn, Outcome>)

  /** A prompt the runner has assembled, and what the agent would answer to its options. */
  datatype Prepared = Prepared(t: Turn, ans: Answers, inline: bool)

  datatype Session = Session(
    core: Q.Sys,
    sub: Sub,
    pipe: Pipe,
    book: Book,
    cache: Options,
    needsInline: bool,       // the system prompt must go out inline
    pendingInline: bool,     // it has not gone out yet
    prepared: seq<Prepared>) // the turns the runner has assembled prompts for

  function NewSession(needsInline: bool): Session {
    Session(Q.INIT, Fresh, Pipe([], [], None, START, false, false), Book(map[], map[], map[]), NO_OPTIONS,
            needsInline, needsInline, [])
  }

  datatype Action =
    | Core(a: Q.Action)
    | Prepare(ans: Answers)
    | SendBegin
    | Return(o: Outcome)
    | SendEnd
    | Finish
    | Emit(u: Update)
    | Receive
    | DrainExit
    | Evict

  /** Queue-level actions that involve neither the sink, the channel nor the agent. */
  predicate Plain(a: Q.Action) {
    a.Push? || a.Pop? || a.SeeEmpty? || a.WakeByToken? || a.WakeByStop? || a.DropStale? || a.Admit?
    || a.TouchSession? || a.CloseDone? || a.FinishInFlight?
  }

  /** A small step of the collector. */
  predicate FineGrained(a: Action) {
    a.Core? && Q.ByCollector(a.a)
  }

  /** No idle test is separated from its stop. */
  predicate Atomic(run: seq<Action>) {
    forall i :: 0 <= i < |run| ==> !FineGrained(run[i])
  }

  predicate DrainStopped(s: Session) {
    Q.StopSignalled(s.core)
  }

  predicate Enabled(s: Session, a: Action) {
    match a
    case Core(c) => (Plain(c) || Q.ByCollector(c)) && Q.Enabled(s.core, c)
    case Prepare(_) => s.core.pc.Admitted? && s.sub.Fresh?
    case SendBegin => s.core.pc.Admitted? && s.sub.Ready? && |s.pipe.ch| < CHUNK_CAP
    case Return(_) => s.core.pc.Prompting? && s.sub.Running?
    case SendEnd => s.core.pc.Prompting? && s.sub.Returned? && |s.pipe.ch| < CHUNK_CAP
    case Finish => s.core.pc.Prompting? && s.sub.Acking? && s.pipe.acked
    case Emit(_) => |s.pipe.ch| < CHUNK_CAP
    case Receive => !s.pipe.gone && s.pipe.ch != []
    case DrainExit => !s.pipe.gone && DrainStopped(s)
    case Evict => s.core.gc.Watching? && Idle(s.core.queue)
  }

  function LogOf(log: map<Turn, seq<SinkCall>>, t: Turn): seq<SinkCall> {
    if t in log then log[t] else []
  }

  function Write(log: map<Turn, seq<SinkCall>>, t: Turn, calls: seq<SinkCall>): map<Turn, seq<SinkCall>> {
    log[t := LogOf(log, t) + calls]
  }

  function Hide(t: Turn): bool {
    t.opts.hideThinking
  }

  /** The user-visible notice about an option that could not be applied. */
  function NoticeCalls(error: Option<string>): seq<SinkCall> {
    if error.None? then [] else [FirstChunk, Text("_(option not applied: " + error.value + ")_\n\n")]
  }

  /** The runner's closing calls on the sink. */
  function FinalCalls(o: Outcome): seq<SinkCall> {
    match o
    case Failed(err) => [Error("acp prompt: " + err, "user_caused_error"), Done]
    case EndTurn => [Done]
    case MaxTokens => [Text("\n\n_(response truncated: max tokens)_"), Done]
    case MaxTurnRequests => [Text("\n\n_(response truncated: max turns)_"), Done]
    case Refusal => [Error("agent refused the request", "user_caused_error"), Done]
    case Cancelled => [Replace("_(cancelled)_"), Done]
    case OtherReason => [Done]
  }

  /** The error of applying a user turn's options. */
  function Notice(cache: Options, t: Turn, ans: Answers): Option<string> {
    if t.kind == User then ApplyOptions(cache, t.opts, ans).error else None
  }

  function DoPrepare(s: Session, t: Turn, ans: Answers): Session {
    var user := t.kind == User;
    var notice := Notice(s.cache, t, ans);
    s.(sub := Ready,
       cache := if user then ApplyOptions(s.cache, t.opts, ans).cache else s.cache,
       book := s.book.(log := Write(s.book.log, t, NoticeCalls(notice)), notices := s.book.notices[t := notice]),
       pendingInline := s.pendingInline && !user,
       prepared := s.prepared + [Prepared(t, ans, user && s.pendingInline)])
  }

  function Send(p: Pipe, m: Msg): Pipe {
    p.(ch := p.ch + [m])
  }

  /** The drain takes one message. */
  function Take(p: Pipe): Pipe
    requires p.ch != []
  {
    var q := p.(ch := p.ch[1..], hist := p.hist + [p.ch[0]]);
    match p.ch[0]
    case Begin(t) => q.(td := Some(t), progress := START)
    case End(_) => q.(td := None, acked := true)
    case Chunk(u) => if p.td.Some? then q.(progress := NextProgress(p.progress, u, Hide(p.td.value))) else q
  }

  /** What the drain writes while taking that message, and on whose sink. */
  function TakeLog(p: Pipe, log: map<Turn, seq<SinkCall>>): map<Turn, seq<SinkCall>>
    requires p.ch != []
  {
    if p.ch[0].Chunk? && p.td.Some? then
      Write(log, p.td.value, ChunkCalls(p.progress, p.ch[0].u, Hide(p.td.value)))
    else log
  }

  function DoFinish(s: Session, t: Turn, o: Outcome): Session
    requires Q.Enabled(s.core, Q.EndPrompt)
  {
    s.(core := Q.Apply(s.core, Q.EndPrompt), sub := Fresh,
       book := s.book.(log := Write(s.book.log, t, FinalCalls(o)), outcomes := s.book.outcomes[t := o]))
  }

  /** The collector finds the queue idle, closes the stop channels and stops the queue. */
  function EvictCore(c: Q.Sys): Q.Sys
    requires c.gc.Watching? && Idle(c.queue)
  {
    Q.Apply(Q.Apply(Q.Apply(c, Q.GcSawIdle), Q.GcSignal), Q.GcStop)
  }

  function Apply(s: Session, a: Action): Session
    requires Enabled(s, a)
  {
    match a
    case Core(c) => s.(core := Q.Apply(s.core, c))
    case Prepare(ans) => DoPrepare(s, s.core.pc.t, ans)
    case SendBegin => s.(core := Q.Apply(s.core, Q.StartPrompt), sub := Running, pipe := Send(s.pipe, Begin(s.core.pc.t)))
    case Return(o) => s.(sub := Returned(o))
    case SendEnd => s.(sub := Acking(s.sub.o), pipe := Send(s.pipe, End(s.core.pc.t)).(acked := false))
    case Finish => DoFinish(s, s.core.pc.t, s.sub.o)
    case Emit(u) => s.(pipe := Send(s.pipe, Chunk(u)))
    case Receive => s.(pipe := Take(s.pipe), book := s.book.(log := TakeLog(s.pipe, s.book.log)))
    case DrainExit => s.(pipe := s.pipe.(gone := true))
    case Evict => s.(core := EvictCore(s.core))
  }

  // ---- which chunks belong to a turn ----

  predicate Open(msgs: seq<Msg>, t: Turn) {
    Begin(t) in msgs && End(t) !in msgs
  }

  /** The chunks that lie between a turn's markers, in channel order. */
  function Attributed(msgs: seq<Msg>, t: Turn): seq<Update> {
    if msgs == [] then []
    else
      var n := |msgs| - 1;
      Attributed(msgs[..n], t) + (if msgs[n].Chunk? && Open(msgs[..n], t) then [msgs[n].u] else [])
  }

  /** The control messages of a channel. */
  function Ctl(msgs: seq<Msg>): seq<Msg> {
    if msgs == [] then []
    else (if msgs[0].Chunk? then [] else [msgs[0]]) + Ctl(msgs[1..])
  }

  // ---- the inductive invariant ----

  /** The drain is attached to the turn whose markers enclose its position, and to no other. */
  ghost predicate DrainInv(hist: seq<Msg>, td: Option<Turn>, progress: Progress) {
    && (forall t :: Open(hist, t) <==> td == Some(t))
    && (td.Some? ==> progress == After(Attributed(hist, td.value), Hide(td.value)))
  }

  /** The control messages in flight are those of the runner's current turn. */
  predicate Handshake(pc: Q.Pc, sub: Sub, p: Pipe) {
    match sub
    case Fresh => !pc.Prompting? && p.td == None && Ctl(p.ch) == []
    case Ready => pc.Admitted? && p.td == None && Ctl(p.ch) == []
    case Acking(_) =>
      && pc.Prompting?
      && (|| (!p.acked && p.td == None && Ctl(p.ch) == [Begin(pc.t), End(pc.t)] && Unmarked(p.hist, pc.t))
          || (!p.acked && p.td == Some(pc.t) && Ctl(p.ch) == [End(pc.t)])
          || (p.acked && p.td == None && Ctl(p.ch) == [] && End(pc.t) in p.hist))
    case _ =>
      && pc.Prompting?
      && (|| (p.td == None && Ctl(p.ch) == [Begin(pc.t)] && Unmarked(p.hist, pc.t))
          || (p.td == Some(pc.t) && Ctl(p.ch) == []))
  }

  predicate Unmarked(msgs: seq<Msg>, t: Turn) {
    Begin(t) !in msgs && End(t) !in msgs
  }

  function NoticeOf(b: Book, t: Turn): seq<SinkCall> {
    if t in b.notices then NoticeCalls(b.notices[t]) else []
  }

  function FinalOf(b: Book, t: Turn): seq<SinkCall> {
    if t in b.outcomes then FinalCalls(b.outcomes[t]) else []
  }

  /** Everything a turn's sink has received: the notice, the drain's rendering of the chunks between
      the turn's markers, and the closing calls. */
  predicate LogExact(b: Book, hist: seq<Msg>, t: Turn) {
    LogOf(b.log, t) == NoticeOf(b, t) + DrainCalls(Attributed(hist, t), Hide(t)) + FinalOf(b, t)
  }

  ghost predicate LogInv(b: Book, hist: seq<Msg>) {
    forall t :: LogExact(b, hist, t)
  }

  /** Markers, notices and outcomes exist only for turns the runner has got that far with. */
  ghost predicate Marked(prompts: seq<Turn>, msgs: seq<Msg>) {
    forall t :: t !in prompts ==> Unmarked(msgs, t)
  }

  ghost predicate Booked(pc: Q.Pc, sub: Sub, prompts: seq<Turn>, b: Book, hist: seq<Msg>) {
    && (forall t :: t in b.notices ==> t in prompts || (pc == Q.Admitted(t) && sub == Ready))
    && (forall t :: t in b.outcomes ==> t in prompts && End(t) in hist && pc != Q.Prompting(t))
    && (forall t :: t in prompts ==> t in b.notices && (t in b.outcomes || pc == Q.Prompting(t)))
    && (sub == Ready && pc.Admitted? ==> pc.t in b.notices)
  }

  /** The markers of some turns, one pair after the other. */
  function Brackets(ts: seq<Turn>): seq<Msg> {
    if ts == [] then []
    else Brackets(ts[..|ts| - 1]) + [Begin(ts[|ts| - 1]), End(ts[|ts| - 1])]
  }

  /** All markers ever sent: those of the prompted turns, in order, but for an end still to come. */
  predicate Bracketed(sub: Sub, prompts: seq<Turn>, msgs: seq<Msg>) {
    if sub.Running? || sub.Returned? then
      prompts != [] && Ctl(msgs) == Brackets(prompts[..|prompts| - 1]) + [Begin(prompts[|prompts| - 1])]
    else
      Ctl(msgs) == Brackets(prompts)
  }

  /** Atomic eviction never takes a turn. */
  predicate Eviction(c: Q.Sys) {
    && (c.gc.Watching? || (c.gc.Sealed? && Idle(c.queue)))
    && c.stopShed == [] && c.stopping == []
  }

  ghost predicate PipeOk(pc: Q.Pc, sub: Sub, prompts: seq<Turn>, p: Pipe) {
    && DrainInv(p.hist, p.td, p.progress)
    && Handshake(pc, sub, p)
    && Marked(prompts, p.hist) && Marked(prompts, p.ch)
    && Bracketed(sub, prompts, p.hist + p.ch)
    && (pc.Prompting? ==> prompts != [] && prompts[|prompts| - 1] == pc.t)
  }

  ghost predicate BookOk(pc: Q.Pc, sub: Sub, prompts: seq<Turn>, b: Book, hist: seq<Msg>) {
    LogInv(b, hist) && Booked(pc, sub, prompts, b, hist)
  }

  ghost predicate Inv(s: Session) {
    && Q.Inv(s.core)
    && PipeOk(s.core.pc, s.sub, s.core.prompts, s.pipe)
    && BookOk(s.core.pc, s.sub, s.core.prompts, s.book, s.pipe.hist)
    && (s.pipe.gone ==> DrainStopped(s))
  }

  /** What atomic runs keep in addition. */
  ghost predicate AtomicInv(s: Session) {
    Inv(s) && Eviction(s.core)
  }

  // ---- sequences of messages ----

  lemma {:induction false} CtlConcat(a: seq<Msg>, b: seq<Msg>)
    ensures Ctl(a + b) == Ctl(a) + Ctl(b)
  {
    if a == [] {
      assert a + b == b;
    } else {
      assert (a + b)[1..] == a[1..] + b;
      CtlConcat(a[1..], b);
    }
  }

  lemma CtlSend(ch: seq<Msg>, m: Msg)
    ensures Ctl(ch + [m]) == Ctl(ch) + (if m.Chunk? then [] else [m])
  {
    CtlConcat(ch, [m]);
    assert [m][1..] == [];
  }

  lemma AttributedSnoc(hist: seq<Msg>, m: Msg, t: Turn)
    ensures Attributed(hist + [m], t) == Attributed(hist, t) + (if m.Chunk? && Open(hist, t) then [m.u] else [])
  {
    assert (hist + [m])[..|hist|] == hist;
  }

  lemma {:induction false} NothingAttributed(hist: seq<Msg>, t: Turn)
    requires Begin(t) !in hist
    ensures Attributed(hist, t) == []
  {
    if hist != [] {
      NothingAttributed(hist[..|hist| - 1], t);
    }
  }

  lemma DrainCallsSnoc(us: seq<Update>, u: Update, hidden: bool)
    ensures DrainCalls(us + [u], hidden) == DrainCalls(us, hidden) + ChunkCalls(After(us, hidden), u, hidden)
    ensures After(us + [u], hidden) == NextProgress(After(us, hidden), u, hidden)
  {
    assert (us + [u])[..|us|] == us;
  }

  // ---- the queue-level part ----

  /** A turn that passed the staleness test has not been prompted before. */
  lemma AdmittedIsNew(c: Q.Sys)
    requires Q.Inv(c) && c.pc.Admitted?
    ensures c.pc.t !in c.prompts
  {
    Q.Counts(c, c.pc.t);
  }

  lemma {:induction false} PromptingIsPrompted(c: Q.Sys)
    requires Q.Inv(c) && c.pc.Prompting?
    ensures c.pc.t in c.prompts && c.pc.t !in c.stale
  {
    Q.Counts(c, c.pc.t);
  }

  lemma PlainStep(c: Q.Sys, a: Q.Action)
    requires Q.Shape(c) && Plain(a) && Q.Enabled(c, a)
    ensures var c' := Q.Apply(c, a);
            && c'.prompts == c.prompts && c'.gc == c.gc && c'.stopping == c.stopping && c'.stopShed == c.stopShed
            && (if a.Push? then c'.pc == c.pc
                else !c.pc.Admitted? && !c.pc.Prompting? && !c'.pc.Prompting?)
  {
  }

  lemma PlainStepIdle(c: Q.Sys, a: Q.Action)
    requires Q.Shape(c) && Plain(a) && Q.Enabled(c, a) && c.gc.Sealed? && Idle(c.queue)
    ensures Idle(Q.Apply(c, a).queue)
  {
  }

  /** Outside of prompting, the runner's position does not matter to channel and book. */
  lemma PcIndifferent(pc: Q.Pc, pc': Q.Pc, sub: Sub, prompts: seq<Turn>, p: Pipe, b: Book)
    requires !pc.Admitted? && !pc.Prompting? && !pc'.Prompting?
    requires PipeOk(pc, sub, prompts, p) && BookOk(pc, sub, prompts, b, p.hist)
    ensures PipeOk(pc', sub, prompts, p) && BookOk(pc', sub, prompts, b, p.hist)
  {
  }

  lemma SignalStays(c: Q.Sys, a: Q.Action)
    requires Q.Enabled(c, a) && Q.StopSignalled(c)
    ensures Q.StopSignalled(Q.Apply(c, a))
  {
  }

  /** The queue moves; the runner's position, or what depends on it, does not. */
  lemma SameRunner(s: Session, c: Q.Sys)
    requires Inv(s) && Q.Inv(c) && c.prompts == s.core.prompts
    requires c.pc == s.core.pc || (!s.core.pc.Admitted? && !s.core.pc.Prompting? && !c.pc.Prompting?)
    requires Q.StopSignalled(s.core) ==> Q.StopSignalled(c)
    ensures Inv(s.(core := c))
  {
    if c.pc != s.core.pc { PcIndifferent(s.core.pc, c.pc, s.sub, s.core.prompts, s.pipe, s.book); }
  }

  lemma CoreFrame(c: Q.Sys, a: Q.Action)
    requires Q.Shape(c) && (Plain(a) || Q.ByCollector(a)) && Q.Enabled(c, a)
    ensures var c' := Q.Apply(c, a);
            && c'.prompts == c.prompts
            && (c'.pc == c.pc || (!c.pc.Admitted? && !c.pc.Prompting? && !c'.pc.Prompting?))
            && (Q.StopSignalled(c) ==> Q.StopSignalled(c'))
  {
    if Q.StopSignalled(c) { SignalStays(c, a); }
    if Q.ByCollector(a) { Q.CollectorKeeps(c, a); } else { PlainStep(c, a); }
  }

  lemma CoreStep(s: Session, a: Q.Action)
    requires Inv(s) && Enabled(s, Core(a))
    ensures Inv(Apply(s, Core(a)))
  {
    Q.InvStep(s.core, a);
    CoreFrame(s.core, a);
    SameRunner(s, Q.Apply(s.core, a));
  }

  /** Atomic eviction stays atomic. */
  lemma EvictionKept(s: Session, a: Action)
    requires Q.Shape(s.core) && Eviction(s.core) && Enabled(s, a) && !FineGrained(a)
    ensures Eviction(Apply(s, a).core)
  {
    match a {
      case Core(c) => EvictionPlain(s.core, c);
      case Evict => EvictEffect(s.core);
      case _ =>
    }
  }

  lemma EvictionPlain(c: Q.Sys, a: Q.Action)
    requires Q.Shape(c) && Eviction(c) && Plain(a) && Q.Enabled(c, a)
    ensures Eviction(Q.Apply(c, a))
  {
    PlainStep(c, a);
    if c.gc.Sealed? { PlainStepIdle(c, a); }
  }

  lemma {:induction false} EvictCoreStep(c: Q.Sys)
    requires Q.Inv(c) && c.gc.Watching? && Idle(c.queue)
    ensures Q.Inv(EvictCore(c))
  {
    Q.InvStep(c, Q.GcSawIdle);
    var c1 := Q.Apply(c, Q.GcSawIdle);
    Q.InvStep(c1, Q.GcSignal);
    Q.InvStep(Q.Apply(c1, Q.GcSignal), Q.GcStop);
  }

  lemma EvictEffect(c: Q.Sys)
    requires c.gc.Watching? && Idle(c.queue)
    ensures var c' := EvictCore(c);
            && c' == c.(gc := Q.Sealed, queue := c.queue.(stopped := true), stopping := [])
            && Idle(c'.queue)
  {
  }

  lemma {:induction false} EvictStep(s: Session)
    requires Inv(s) && Enabled(s, Evict)
    ensures Inv(Apply(s, Evict))
  {
    EvictCoreStep(s.core);
    EvictEffect(s.core);
  }

  // ---- the runner ----

  lemma PrepareBook(b: Book, hist: seq<Msg>, t: Turn, notice: Option<string>)
    requires LogInv(b, hist) && Begin(t) !in hist && t !in b.notices && t !in b.outcomes
    ensures LogInv(b.(log := Write(b.log, t, NoticeCalls(notice)), notices := b.notices[t := notice]), hist)
  {
    NothingAttributed(hist, t);
    var b' := b.(log := Write(b.log, t, NoticeCalls(notice)), notices := b.notices[t := notice]);
    forall u
      ensures LogExact(b', hist, u)
    {
      assert LogExact(b, hist, u);
    }
  }

  lemma PrepareBooked(s: Session, ans: Answers)
    requires Enabled(s, Prepare(ans)) && Booked(s.core.pc, s.sub, s.core.prompts, s.book, s.pipe.hist)
    ensures Booked(s.core.pc, Ready, s.core.prompts, Apply(s, Prepare(ans)).book, s.pipe.hist)
  {
  }

  lemma {:induction false} PrepareStep(s: Session, ans: Answers)
    requires Inv(s) && Enabled(s, Prepare(ans))
    ensures Inv(Apply(s, Prepare(ans)))
  {
    AdmittedIsNew(s.core);
    PrepareBook(s.book, s.pipe.hist, s.core.pc.t, Notice(s.cache, s.core.pc.t, ans));
    PrepareBooked(s, ans);
  }

  lemma MarkedSend(prompts: seq<Turn>, more: seq<Turn>, ch: seq<Msg>, m: Msg)
    requires Marked(prompts, ch)
    requires m.Chunk? || m.t in prompts + more
    ensures Marked(prompts + more, ch + [m])
  {
  }

  lemma MarkedPrompt(prompts: seq<Turn>, t: Turn, msgs: seq<Msg>)
    requires Marked(prompts, msgs)
    ensures Marked(prompts + [t], msgs)
  {
  }

  lemma SendBeginHandshake(s: Session)
    requires Enabled(s, SendBegin) && Handshake(s.core.pc, s.sub, s.pipe) && Unmarked(s.pipe.hist, s.core.pc.t)
    ensures Handshake(Q.Prompting(s.core.pc.t), Running, Send(s.pipe, Begin(s.core.pc.t)))
  {
    CtlSend(s.pipe.ch, Begin(s.core.pc.t));
  }

  lemma SendBeginBooks(s: Session)
    requires Enabled(s, SendBegin) && Booked(s.core.pc, s.sub, s.core.prompts, s.book, s.pipe.hist)
    requires s.core.pc.t !in s.core.prompts
    ensures Booked(Q.Prompting(s.core.pc.t), Running, s.core.prompts + [s.core.pc.t], s.book, s.pipe.hist)
  {
  }

  lemma SendBracketed(hist: seq<Msg>, ch: seq<Msg>, m: Msg)
    ensures Ctl(hist + (ch + [m])) == Ctl(hist + ch) + (if m.Chunk? then [] else [m])
  {
    Assoc(hist, ch, [m]);
    CtlSend(hist + ch, m);
  }

  lemma BeginBracketed(prompts: seq<Turn>, t: Turn, hist: seq<Msg>, ch: seq<Msg>)
    requires Ctl(hist + ch) == Brackets(prompts)
    ensures Bracketed(Running, prompts + [t], hist + (ch + [Begin(t)]))
  {
    SendBracketed(hist, ch, Begin(t));
    assert (prompts + [t])[..|prompts|] == prompts;
  }

  lemma EndBracketed(prompts: seq<Turn>, t: Turn, o: Outcome, hist: seq<Msg>, ch: seq<Msg>)
    requires Bracketed(Returned(o), prompts, hist + ch) && prompts[|prompts| - 1] == t
    ensures Bracketed(Acking(o), prompts, hist + (ch + [End(t)]))
  {
    SendBracketed(hist, ch, End(t));
    Assoc(Brackets(prompts[..|prompts| - 1]), [Begin(t)], [End(t)]);
    assert [Begin(t)] + [End(t)] == [Begin(t), End(t)];
  }

  lemma SendBeginPipe(s: Session)
    requires Enabled(s, SendBegin) && s.core.pc.t !in s.core.prompts
    requires PipeOk(s.core.pc, s.sub, s.core.prompts, s.pipe)
    ensures PipeOk(Q.Prompting(s.core.pc.t), Running, s.core.prompts + [s.core.pc.t], Send(s.pipe, Begin(s.core.pc.t)))
  {
    var t := s.core.pc.t;
    SendBeginHandshake(s);
    BeginBracketed(s.core.prompts, t, s.pipe.hist, s.pipe.ch);
    MarkedPrompt(s.core.prompts, t, s.pipe.hist);
    MarkedSend(s.core.prompts, [t], s.pipe.ch, Begin(t));
  }

  lemma {:induction false} SendBeginStep(s: Session)
    requires Inv(s) && Enabled(s, SendBegin)
    ensures Inv(Apply(s, SendBegin))
  {
    AdmittedIsNew(s.core);
    Q.InvStep(s.core, Q.StartPrompt);
    SendBeginPipe(s);
    SendBeginBooks(s);
  }

  lemma SendEndHandshake(s: Session)
    requires Enabled(s, SendEnd) && Handshake(s.core.pc, s.sub, s.pipe)
    ensures Handshake(s.core.pc, Acking(s.sub.o), Send(s.pipe, End(s.core.pc.t)).(acked := false))
  {
    CtlSend(s.pipe.ch, End(s.core.pc.t));
  }

  lemma SendEndStep(s: Session)
    requires Inv(s) && Enabled(s, SendEnd)
    ensures Inv(Apply(s, SendEnd))
  {
    SendEndHandshake(s);
    EndBracketed(s.core.prompts, s.core.pc.t, s.sub.o, s.pipe.hist, s.pipe.ch);
    PromptingIsPrompted(s.core);
    NoMore(s.core.prompts);
    MarkedSend(s.core.prompts, [], s.pipe.ch, End(s.core.pc.t));
  }

  lemma EmitPipe(pc: Q.Pc, sub: Sub, prompts: seq<Turn>, p: Pipe, u: Update)
    requires PipeOk(pc, sub, prompts, p)
    ensures PipeOk(pc, sub, prompts, Send(p, Chunk(u)))
  {
    CtlSend(p.ch, Chunk(u));
    NoMore(Ctl(p.ch));
    NoMore(prompts);
    MarkedSend(prompts, [], p.ch, Chunk(u));
    SendBracketed(p.hist, p.ch, Chunk(u));
    NoMore(Ctl(p.hist + p.ch));
  }

  lemma EmitStep(s: Session, u: Update)
    requires Inv(s) && Enabled(s, Emit(u))
    ensures Inv(Apply(s, Emit(u)))
  {
    EmitPipe(s.core.pc, s.sub, s.core.prompts, s.pipe, u);
  }

  lemma FinishLog(b: Book, hist: seq<Msg>, t: Turn, o: Outcome, u: Turn)
    requires LogExact(b, hist, u) && t !in b.outcomes
    ensures LogExact(b.(log := Write(b.log, t, FinalCalls(o)), outcomes := b.outcomes[t := o]), hist, u)
  {
    NoMore(NoticeOf(b, t) + DrainCalls(Attributed(hist, t), Hide(t)));
  }

  lemma FinishBook(b: Book, hist: seq<Msg>, t: Turn, o: Outcome)
    requires LogInv(b, hist) && t !in b.outcomes
    ensures LogInv(b.(log := Write(b.log, t, FinalCalls(o)), outcomes := b.outcomes[t := o]), hist)
  {
    var b' := b.(log := Write(b.log, t, FinalCalls(o)), outcomes := b.outcomes[t := o]);
    forall u
      ensures LogExact(b', hist, u)
    {
      FinishLog(b, hist, t, o, u);
    }
  }

  lemma FinishBooked(s: Session)
    requires Enabled(s, Finish) && Handshake(s.core.pc, s.sub, s.pipe) && s.core.pc.t in s.core.prompts
    requires Booked(s.core.pc, s.sub, s.core.prompts, s.book, s.pipe.hist)
    ensures Booked(Q.Closing(s.core.pc.t), Fresh, s.core.prompts, DoFinish(s, s.core.pc.t, s.sub.o).book, s.pipe.hist)
  {
  }

  lemma Finishing(s: Session)
    requires Enabled(s, Finish)
    ensures s.core.pc.Prompting? && s.sub.Acking? && s.pipe.acked && Q.Enabled(s.core, Q.EndPrompt)
    ensures Apply(s, Finish) == DoFinish(s, s.core.pc.t, s.sub.o)
  {
  }

  lemma FinishedPipe(pc: Q.Pc, sub: Sub, prompts: seq<Turn>, p: Pipe)
    requires PipeOk(pc, sub, prompts, p) && pc.Prompting? && sub.Acking? && p.acked
    ensures PipeOk(Q.Closing(pc.t), Fresh, prompts, p)
  {
  }

  lemma FinishStep(s: Session)
    requires Enabled(s, Finish) && Inv(s)
    ensures Inv(Apply(s, Finish))
  {
    Finishing(s);
    PromptingIsPrompted(s.core);
    Q.InvStep(s.core, Q.EndPrompt);
    FinishedPipe(s.core.pc, s.sub, s.core.prompts, s.pipe);
    FinishBook(s.book, s.pipe.hist, s.core.pc.t, s.sub.o);
    FinishBooked(s);
  }

  // ---- the drain ----

  lemma OpenSnoc(hist: seq<Msg>, m: Msg, t: Turn)
    ensures Open(hist + [m], t) <==> if m == Begin(t) then End(t) !in hist else Open(hist, t) && m != End(t)
  {
  }

  /** The head of the channel is the control message that the runner's position allows. */
  lemma HeadOfChannel(pc: Q.Pc, sub: Sub, p: Pipe)
    requires Handshake(pc, sub, p) && p.ch != [] && !p.ch[0].Chunk?
    ensures pc.Prompting? && p.ch[0].t == pc.t
    ensures p.ch[0].Begin? ==> p.td == None && Unmarked(p.hist, pc.t)
    ensures p.ch[0].End? ==> p.td == Some(pc.t)
  {
    assert Ctl(p.ch) == [p.ch[0]] + Ctl(p.ch[1..]);
    assert Ctl(p.ch)[0] == p.ch[0];
  }

  lemma TakeHandshake(pc: Q.Pc, sub: Sub, p: Pipe)
    requires Handshake(pc, sub, p) && p.ch != []
    ensures Handshake(pc, sub, Take(p))
  {
    if p.ch[0].Chunk? {
      NoMore(Ctl(p.ch[1..]));
    } else {
      HeadOfChannel(pc, sub, p);
      assert Ctl(p.ch)[1..] == Ctl(p.ch[1..]);
    }
  }

  lemma TakeDrain(pc: Q.Pc, sub: Sub, p: Pipe)
    requires Handshake(pc, sub, p) && DrainInv(p.hist, p.td, p.progress) && p.ch != []
    ensures var p' := Take(p); DrainInv(p'.hist, p'.td, p'.progress)
  {
    var m := p.ch[0];
    if !m.Chunk? { HeadOfChannel(pc, sub, p); }
    forall t
      ensures Open(p.hist + [m], t) <==> Take(p).td == Some(t)
    {
      OpenSnoc(p.hist, m, t);
    }
    if m.Begin? {
      AttributedSnoc(p.hist, m, m.t);
      NothingAttributed(p.hist, m.t);
    } else if p.td.Some? && m.Chunk? {
      AttributedSnoc(p.hist, m, p.td.value);
      DrainCallsSnoc(Attributed(p.hist, p.td.value), m.u, Hide(p.td.value));
    }
  }

  lemma TakeOneLog(p: Pipe, b: Book, t: Turn)
    requires p.ch != [] && DrainInv(p.hist, p.td, p.progress)
    requires t in b.outcomes ==> End(t) in p.hist
    requires LogExact(b, p.hist, t)
    ensures LogExact(b.(log := TakeLog(p, b.log)), p.hist + [p.ch[0]], t)
  {
    var m := p.ch[0];
    AttributedSnoc(p.hist, m, t);
    if m.Chunk? && Open(p.hist, t) {
      var us := Attributed(p.hist, t);
      DrainCallsSnoc(us, m.u, Hide(t));
      NoMore(NoticeOf(b, t) + DrainCalls(us, Hide(t)));
      Assoc(NoticeOf(b, t), DrainCalls(us, Hide(t)), ChunkCalls(After(us, Hide(t)), m.u, Hide(t)));
      NoMore(NoticeOf(b, t) + DrainCalls(us + [m.u], Hide(t)));
    } else {
      NoMore(Attributed(p.hist, t));
    }
  }

  lemma TakeLogInv(p: Pipe, b: Book)
    requires p.ch != [] && DrainInv(p.hist, p.td, p.progress) && LogInv(b, p.hist)
    requires forall t :: t in b.outcomes ==> End(t) in p.hist
    ensures LogInv(b.(log := TakeLog(p, b.log)), Take(p).hist)
  {
    forall t
      ensures LogExact(b.(log := TakeLog(p, b.log)), Take(p).hist, t)
    {
      TakeOneLog(p, b, t);
    }
  }

  lemma TakeMarked(prompts: seq<Turn>, p: Pipe)
    requires p.ch != [] && Marked(prompts, p.hist) && Marked(prompts, p.ch)
    ensures Marked(prompts, Take(p).hist) && Marked(prompts, Take(p).ch)
  {
    assert p.ch[0] in p.ch;
  }

  lemma TakeBooked(pc: Q.Pc, sub: Sub, prompts: seq<Turn>, p: Pipe, b: Book)
    requires p.ch != [] && Booked(pc, sub, prompts, b, p.hist)
    ensures Booked(pc, sub, prompts, b.(log := TakeLog(p, b.log)), Take(p).hist)
  {
  }

  lemma TakeBook(pc: Q.Pc, sub: Sub, prompts: seq<Turn>, p: Pipe, b: Book)
    requires p.ch != [] && DrainInv(p.hist, p.td, p.progress) && BookOk(pc, sub, prompts, b, p.hist)
    ensures BookOk(pc, sub, prompts, b.(log := TakeLog(p, b.log)), Take(p).hist)
  {
    TakeLogInv(p, b);
    TakeBooked(pc, sub, prompts, p, b);
  }

  /** Receiving moves a message, it does not reorder any. */
  lemma TakeWhole(p: Pipe)
    requires p.ch != []
    ensures Take(p).hist + Take(p).ch == p.hist + p.ch
  {
    assert p.ch == [p.ch[0]] + p.ch[1..];
    Assoc(p.hist, [p.ch[0]], p.ch[1..]);
  }

  lemma TakePipe(pc: Q.Pc, sub: Sub, prompts: seq<Turn>, p: Pipe)
    requires PipeOk(pc, sub, prompts, p) && p.ch != []
    ensures PipeOk(pc, sub, prompts, Take(p))
  {
    TakeHandshake(pc, sub, p);
    TakeDrain(pc, sub, p);
    TakeMarked(prompts, p);
    TakeWhole(p);
  }

  lemma ReceivedPipe(s: Session)
    requires s.pipe.ch != [] && Inv(s)
    ensures PipeOk(s.core.pc, s.sub, s.core.prompts, Take(s.pipe))
  {
    TakePipe(s.core.pc, s.sub, s.core.prompts, s.pipe);
  }

  lemma ReceivedBook(s: Session)
    requires s.pipe.ch != [] && Inv(s)
    ensures BookOk(s.core.pc, s.sub, s.core.prompts, s.book.(log := TakeLog(s.pipe, s.book.log)), Take(s.pipe).hist)
  {
    TakeBook(s.core.pc, s.sub, s.core.prompts, s.pipe, s.book);
  }

  lemma Received(s: Session)
    requires Enabled(s, Receive)
    ensures s.pipe.ch != []
    ensures Apply(s, Receive) == s.(pipe := Take(s.pipe), book := s.book.(log := TakeLog(s.pipe, s.book.log)))
  {
  }

  lemma ReceiveStep(s: Session)
    requires Enabled(s, Receive) && Inv(s)
    ensures Inv(Apply(s, Receive))
  {
    Received(s);
    ReceivedPipe(s);
    ReceivedBook(s);
    SameCore(s, Take(s.pipe), s.book.(log := TakeLog(s.pipe, s.book.log)));
  }

  /** A step that leaves the runner where it is. */
  lemma SameCore(s: Session, p: Pipe, b: Book)
    requires Inv(s) && (p.gone ==> s.pipe.gone)
    requires PipeOk(s.core.pc, s.sub, s.core.prompts, p) && BookOk(s.core.pc, s.sub, s.core.prompts, b, p.hist)
    ensures Inv(s.(pipe := p, book := b))
  {
  }

  // ---- every step ----

  lemma {:induction false} InvStep(s: Session, a: Action)
    requires Inv(s) && Enabled(s, a)
    ensures Inv(Apply(s, a))
  {
    match a {
      case Core(c) => CoreStep(s, c);
      case Prepare(ans) => PrepareStep(s, ans);
      case SendBegin => SendBeginStep(s);
      case Return(_) =>
      case SendEnd => SendEndStep(s);
      case Finish => FinishStep(s);
      case Emit(u) => EmitStep(s, u);
      case Receive => ReceiveStep(s);
      case DrainExit =>
      case Evict => EvictStep(s);
    }
  }

  lemma NewSessionInv(needsInline: bool)
    ensures Inv(NewSession(needsInline))
  {
    Q.InitInv();
  }

  // ---- what every run guarantees ----

  function Exec(needsInline: bool, run: seq<Action>): Option<Session> {
    if run == [] then Some(NewSession(needsInline))
    else
      var n := |run| - 1;
      match Exec(needsInline, run[..n])
      case None => None
      case Some(u) => if Enabled(u, run[n]) then Some(Apply(u, run[n])) else None
  }

  lemma {:induction false} RunsKeepInv(needsInline: bool, run: seq<Action>)
    requires Exec(needsInline, run).Some?
    ensures Inv(Exec(needsInline, run).value)
  {
    if run == [] {
      NewSessionInv(needsInline);
    } else {
      var n := |run| - 1;
      RunsKeepInv(needsInline, run[..n]);
      InvStep(Exec(needsInline, run[..n]).value, run[n]);
    }
  }

  lemma {:induction false} AtomicRunsKeepInv(needsInline: bool, run: seq<Action>)
    requires Atomic(run) && Exec(needsInline, run).Some?
    ensures AtomicInv(Exec(needsInline, run).value)
  {
    RunsKeepInv(needsInline, run);
    if run != [] {
      var n := |run| - 1;
      assert !FineGrained(run[n]);
      AtomicRunsKeepInv(needsInline, run[..n]);
      EvictionKept(Exec(needsInline, run[..n]).value, run[n]);
    }
  }

  /** Some atomic run leads to this state. */
  ghost predicate Reached(s: Session) {
    exists needsInline, run :: Atomic(run) && Exec(needsInline, run) == Some(s)
  }

  lemma {:induction false} ReachedInv(s: Session)
    requires Reached(s)
    ensures AtomicInv(s)
  {
    var needsInline, run :| Atomic(run) && Exec(needsInline, run) == Some(s);
    AtomicRunsKeepInv(needsInline, run);
  }

  lemma ReachedNew(needsInline: bool)
    ensures Reached(NewSession(needsInline))
  {
    assert Atomic([]) && Exec(needsInline, []) == Some(NewSession(needsInline));
  }

  lemma {:induction false} ExecSnoc(needsInline: bool, run: seq<Action>, a: Action)
    requires Exec(needsInline, run).Some? && Enabled(Exec(needsInline, run).value, a)
    ensures Exec(needsInline, run + [a]) == Some(Apply(Exec(needsInline, run).value, a))
  {
    assert (run + [a])[..|run|] == run;
  }

  lemma ReachedStep(s: Session, a: Action)
    requires Reached(s) && Enabled(s, a) && !FineGrained(a)
    ensures Reached(Apply(s, a))
  {
    var needsInline, run :| Atomic(run) && Exec(needsInline, run) == Some(s);
    ExecSnoc(needsInline, run, a);
    assert Atomic(run + [a]);
  }

  /** The runner's code for t may call t's sink: before it sends the begin marker and after the
      drain has acknowledged the end marker. */
  predicate RunnerMayWrite(pc: Q.Pc, sub: Sub, p: Pipe, t: Turn) {
    || pc == Q.Popped(t)
    || pc == Q.Admitted(t)
    || (pc == Q.Prompting(t) && sub.Acking? && p.acked)
    || pc == Q.Closing(t)
    || pc == Q.Touched(t)
  }

  /** The drain is attached to t, or will be when it reaches a marker already in the channel. */
  predicate DrainMayWrite(p: Pipe, t: Turn) {
    p.td == Some(t) || Begin(t) in p.ch
  }

  /** The channel never holds more than 256 messages. */
  lemma {:induction false} ChannelIsBounded(needsInline: bool, run: seq<Action>)
    requires Exec(needsInline, run).Some?
    ensures |Exec(needsInline, run).value.pipe.ch| <= 256
  {
    if run != [] {
      var n := |run| - 1;
      ChannelIsBounded(needsInline, run[..n]);
      ChannelGrows(Exec(needsInline, run[..n]).value, run[n]);
    }
  }

  lemma ChannelGrows(s: Session, a: Action)
    requires Enabled(s, a) && |s.pipe.ch| <= 256
    ensures |Apply(s, a).pipe.ch| <= 256
  {
    if a.Receive? { Received(s); }
  }

  lemma {:induction false} InCtl(msgs: seq<Msg>, m: Msg)
    requires m in msgs && !m.Chunk?
    ensures m in Ctl(msgs)
  {
    if msgs[0] != m {
      InCtl(msgs[1..], m);
    }
  }

  /** The drain may write only while the runner is between sending begin and the acknowledgement. */
  lemma DrainWritesWhilePrompting(pc: Q.Pc, sub: Sub, p: Pipe, t: Turn)
    requires Handshake(pc, sub, p) && DrainMayWrite(p, t)
    ensures pc == Q.Prompting(t) && !(sub.Acking? && p.acked)
  {
    if Begin(t) in p.ch {
      InCtl(p.ch, Begin(t));
    }
  }

  /** Runner and drain never share a sink, and nobody writes to the sink of a completed turn. */
  lemma {:induction false} SingleWriter(needsInline: bool, run: seq<Action>, t: Turn)
    requires Exec(needsInline, run).Some?
    ensures var s := Exec(needsInline, run).value;
            && !(RunnerMayWrite(s.core.pc, s.sub, s.pipe, t) && DrainMayWrite(s.pipe, t))
            && (t in s.core.closes ==> !RunnerMayWrite(s.core.pc, s.sub, s.pipe, t) && !DrainMayWrite(s.pipe, t))
  {
    RunsKeepInv(needsInline, run);
    var s := Exec(needsInline, run).value;
    if DrainMayWrite(s.pipe, t) {
      DrainWritesWhilePrompting(s.core.pc, s.sub, s.pipe, t);
    }
    CompletedIsReleased(s.core, t);
  }

  /** The runner does not hold a completed turn. */
  lemma CompletedIsReleased(c: Q.Sys, t: Turn)
    requires Q.Inv(c)
    ensures t in c.closes ==> t !in Q.Current(c.pc)
  {
    Q.Counts(c, t);
  }

  lemma CompletedUserTurn(c: Q.Sys, t: Turn)
    requires Q.Inv(c) && t.kind == User && t in c.closes
    ensures t !in Q.Current(c.pc)
    ensures if t in c.stopShed then t in c.shed && t !in c.prompts else t !in c.shed && t in c.prompts
  {
    Q.Counts(c, t);
  }

  /** The runner never got as far as preparing t. */
  lemma UntouchedLog(pc: Q.Pc, sub: Sub, prompts: seq<Turn>, p: Pipe, b: Book, t: Turn)
    requires Marked(prompts, p.hist) && BookOk(pc, sub, prompts, b, p.hist)
    requires t !in prompts && pc != Q.Admitted(t)
    ensures LogOf(b.log, t) == []
  {
    assert LogExact(b, p.hist, t);
    NothingAttributed(p.hist, t);
  }

  lemma FinishedLog(pc: Q.Pc, sub: Sub, prompts: seq<Turn>, p: Pipe, b: Book, t: Turn)
    requires BookOk(pc, sub, prompts, b, p.hist) && t in prompts && pc != Q.Prompting(t)
    ensures t in b.outcomes && t in b.notices && End(t) in p.hist
    ensures LogOf(b.log, t) == NoticeCalls(b.notices[t]) + DrainCalls(Attributed(p.hist, t), Hide(t))
                               + FinalCalls(b.outcomes[t])
  {
    assert LogExact(b, p.hist, t);
  }

  /** Everything t's sink was due: the notice if its options could not be applied, the rendering of
      the chunks between its markers in channel order, and the closing calls. No more chunks follow. */
  predicate Served(s: Session, t: Turn) {
    && t in s.book.outcomes && t in s.book.notices && End(t) in s.pipe.hist
    && LogOf(s.book.log, t) == NoticeCalls(s.book.notices[t])
         + DrainCalls(Attributed(s.pipe.hist, t), Hide(t)) + FinalCalls(s.book.outcomes[t])
  }

  lemma SinkOfCompleted(s: Session, t: Turn)
    requires Inv(s) && t.kind == User && t in s.core.closes
    ensures if t in s.core.stopShed then t in s.core.shed && LogOf(s.book.log, t) == []
            else t !in s.core.shed && Served(s, t)
  {
    CompletedUserTurn(s.core, t);
    if t in s.core.stopShed {
      UntouchedLog(s.core.pc, s.sub, s.core.prompts, s.pipe, s.book, t);
    } else {
      FinishedLog(s.core.pc, s.sub, s.core.prompts, s.pipe, s.book, t);
    }
  }

  /** However eviction interleaves, a completed user turn was either taken by stop, and then its sink
      has received nothing at all, not even Done; or it went through Agent.Prompt to its end, and its
      sink has received exactly what it was due. */
  lemma {:induction false} CompletedSink(needsInline: bool, run: seq<Action>, t: Turn)
    requires Exec(needsInline, run).Some? && t.kind == User && t in Exec(needsInline, run).value.core.closes
    ensures var s := Exec(needsInline, run).value;
            if t in s.core.stopShed then t in s.core.shed && LogOf(s.book.log, t) == []
            else t !in s.core.shed && Served(s, t)
  {
    RunsKeepInv(needsInline, run);
    SinkOfCompleted(Exec(needsInline, run).value, t);
  }

  /** With atomic eviction only the latter happens. */
  lemma {:induction false} CompletedSinkAtomic(needsInline: bool, run: seq<Action>, t: Turn)
    requires Atomic(run) && Exec(needsInline, run).Some?
    requires t.kind == User && t in Exec(needsInline, run).value.core.closes
    ensures t !in Exec(needsInline, run).value.core.shed && Served(Exec(needsInline, run).value, t)
  {
    AtomicRunsKeepInv(needsInline, run);
    SinkOfCompleted(Exec(needsInline, run).value, t);
  }

  /** A sink that neither the runner nor the drain holds stays as it is. */
  lemma LogUntouched(s: Session, t: Turn, a: Action)
    requires Enabled(s, a) && t !in Q.Current(s.core.pc) && s.pipe.td != Some(t)
    ensures LogOf(Apply(s, a).book.log, t) == LogOf(s.book.log, t)
  {
  }

  lemma CoreClosesGrow(c: Q.Sys, a: Q.Action, t: Turn)
    requires Q.Enabled(c, a) && t in c.closes
    ensures t in Q.Apply(c, a).closes
  {
  }

  lemma CoreClosesGrowAll(c: Q.Sys, a: Q.Action)
    requires Q.Enabled(c, a)
    ensures forall t :: t in c.closes ==> t in Q.Apply(c, a).closes
  {
    forall t | t in c.closes
      ensures t in Q.Apply(c, a).closes
    {
      CoreClosesGrow(c, a, t);
    }
  }

  lemma ClosesGrow(s: Session, a: Action, t: Turn)
    requires Enabled(s, a) && t in s.core.closes
    ensures t in Apply(s, a).core.closes
  {
    if a.Core? { CoreClosesGrow(s.core, a.a, t); }
    if a.Evict? { EvictEffect(s.core); }
  }

  lemma SealedStep(s: Session, t: Turn, a: Action)
    requires Inv(s) && t in s.core.closes && Enabled(s, a)
    ensures LogOf(Apply(s, a).book.log, t) == LogOf(s.book.log, t)
    ensures t in Apply(s, a).core.closes
  {
    CompletedIsReleased(s.core, t);
    if s.pipe.td == Some(t) {
      DrainWritesWhilePrompting(s.core.pc, s.sub, s.pipe, t);
    }
    LogUntouched(s, t, a);
    ClosesGrow(s, a, t);
  }

  /** Nothing happens on the sink of a completed turn any more, however long the run goes on. */
  lemma {:induction false} SinkSealed(needsInline: bool, run: seq<Action>, more: seq<Action>, t: Turn)
    requires Exec(needsInline, run + more).Some?
    ensures Exec(needsInline, run).Some?
    ensures var s, s' := Exec(needsInline, run).value, Exec(needsInline, run + more).value;
            t in s.core.closes ==> t in s'.core.closes && LogOf(s'.book.log, t) == LogOf(s.book.log, t)
  {
    if more == [] {
      NoMore(run);
    } else {
      var n := |more| - 1;
      assert (run + more)[..|run + more| - 1] == run + more[..n];
      SinkSealed(needsInline, run, more[..n], t);
      RunsKeepInv(needsInline, run + more[..n]);
      if t in Exec(needsInline, run).value.core.closes {
        SealedStep(Exec(needsInline, run + more[..n]).value, t, more[n]);
      }
    }
  }

  /** Sinks are written only for turns the queue has accepted. */
  lemma WrittenIsAccepted(s: Session, t: Turn)
    requires Inv(s) && LogOf(s.book.log, t) != []
    ensures t in s.core.accepted
  {
    assert LogExact(s.book, s.pipe.hist, t);
    if Begin(t) !in s.pipe.hist { NothingAttributed(s.pipe.hist, t); }
    assert t in s.core.prompts || s.core.pc == Q.Admitted(t);
    HandledIsAccepted(s.core, t);
  }

  lemma HandledIsAccepted(c: Q.Sys, t: Turn)
    requires Q.Inv(c) && (t in c.prompts || c.pc == Q.Admitted(t))
    ensures t in c.accepted
  {
    Q.Counts(c, t);
  }

  // ---- markers and acknowledgements ----

  /** Control messages alternate: one begin and one end per prompted turn, in prompt order; only the
      last end may still be outstanding. */
  lemma {:induction false} MarkersAlternate(needsInline: bool, run: seq<Action>)
    requires Exec(needsInline, run).Some?
    ensures var s := Exec(needsInline, run).value;
            || Ctl(s.pipe.hist + s.pipe.ch) == Brackets(s.core.prompts)
            || (s.core.prompts != [] && Ctl(s.pipe.hist + s.pipe.ch) + [End(s.core.prompts[|s.core.prompts| - 1])]
                                        == Brackets(s.core.prompts))
  {
    RunsKeepInv(needsInline, run);
    var s := Exec(needsInline, run).value;
    if s.core.prompts != [] {
      var n := |s.core.prompts| - 1;
      Assoc(Brackets(s.core.prompts[..n]), [Begin(s.core.prompts[n])], [End(s.core.prompts[n])]);
    }
  }

  /** How many messages the drain must take to reach m. */
  function Distance(ch: seq<Msg>, m: Msg): nat
    requires m in ch
  {
    if ch[0] == m then 1 else 1 + Distance(ch[1..], m)
  }

  lemma {:induction false} DistanceSend(ch: seq<Msg>, m: Msg, x: Msg)
    requires m in ch
    ensures Distance(ch + [x], m) == Distance(ch, m)
  {
    if ch[0] != m {
      assert (ch + [x])[1..] == ch[1..] + [x];
      DistanceSend(ch[1..], m, x);
    }
  }

  /** The runner is waiting for the drain to reach its end marker. */
  predicate AwaitingAck(s: Session) {
    s.core.pc.Prompting? && s.sub.Acking? && !s.pipe.acked
  }

  lemma AwaitedEndIsSent(s: Session)
    requires Handshake(s.core.pc, s.sub, s.pipe) && AwaitingAck(s)
    ensures End(s.core.pc.t) in s.pipe.ch
  {
    CtlIn(s.pipe.ch, End(s.core.pc.t));
  }

  lemma {:induction false} CtlIn(msgs: seq<Msg>, m: Msg)
    requires m in Ctl(msgs)
    ensures m in msgs
  {
    if msgs[0].Chunk? || msgs[0] != m {
      CtlIn(msgs[1..], m);
    }
  }

  /** The acknowledgement has come, or the runner still awaits it at this distance. */
  predicate AckAfter(s: Session, t: Turn, d: nat) {
    if d == 0 then s.pipe.acked
    else
      && AwaitingAck(s) && s.core.pc == Q.Prompting(t) && End(t) in s.pipe.ch
      && Distance(s.pipe.ch, End(t)) == d
  }

  /** While the runner awaits the acknowledgement and the drain has not left, the drain can move; each
      of its steps brings the acknowledgement one step closer, and nobody else's step delays it. */
  lemma AckIsNear(s: Session, a: Action, d: nat)
    requires Inv(s) && AwaitingAck(s) && Enabled(s, a)
    requires AckAfter(s, s.core.pc.t, d)
    ensures Enabled(s, Receive) <==> !s.pipe.gone
    ensures AckAfter(Apply(s, a), s.core.pc.t, if a == Receive then d - 1 else d)
  {
    if a.Receive? {
      AckReceive(s);
    } else {
      AckOther(s, a);
    }
  }

  lemma AckReceive(s: Session)
    requires Handshake(s.core.pc, s.sub, s.pipe) && AwaitingAck(s) && Enabled(s, Receive)
    requires End(s.core.pc.t) in s.pipe.ch
    ensures var s' := Apply(s, Receive); var d := Distance(s.pipe.ch, End(s.core.pc.t));
            if d == 1 then s'.pipe.acked
            else !s'.pipe.acked && End(s.core.pc.t) in s'.pipe.ch && Distance(s'.pipe.ch, End(s.core.pc.t)) == d - 1
  {
    if s.pipe.ch[0].End? {
      HeadOfChannel(s.core.pc, s.sub, s.pipe);
    }
  }

  lemma AckOther(s: Session, a: Action)
    requires Q.Shape(s.core) && AwaitingAck(s) && Enabled(s, a) && !a.Receive?
    requires End(s.core.pc.t) in s.pipe.ch
    ensures var s' := Apply(s, a);
            && AwaitingAck(s') && s'.core.pc == s.core.pc && End(s.core.pc.t) in s'.pipe.ch
            && Distance(s'.pipe.ch, End(s.core.pc.t)) == Distance(s.pipe.ch, End(s.core.pc.t))
  {
    match a {
      case Emit(u) => DistanceSend(s.pipe.ch, End(s.core.pc.t), Chunk(u));
      case Core(b) => AwaitingOnlyPushes(s.core, b);
      case _ =>
    }
  }

  /** While it awaits an acknowledgement the runner makes no step of its own. */
  lemma AwaitingOnlyPushes(c: Q.Sys, a: Q.Action)
    requires c.pc.Prompting? && (Plain(a) || Q.ByCollector(a)) && Q.Enabled(c, a)
    ensures Q.Apply(c, a).pc == c.pc
  {
    if Q.ByCollector(a) { Q.CollectorKeeps(c, a); }
  }

  /** When the acknowledgement has fired, every chunk sent between the turn's markers has been
      rendered: what is still in the channel adds nothing to the turn. */
  lemma {:induction false} AckMeansRendered(hist: seq<Msg>, ch: seq<Msg>, t: Turn)
    requires End(t) in hist
    ensures Attributed(hist + ch, t) == Attributed(hist, t)
  {
    if ch == [] {
      NoMore(hist);
    } else {
      var n := |ch| - 1;
      Assoc(hist, ch[..n], [ch[n]]);
      assert ch == ch[..n] + [ch[n]];
      AttributedSnoc(hist + ch[..n], ch[n], t);
      AckMeansRendered(hist, ch[..n], t);
      NoMore(Attributed(hist, t));
    }
  }

  // ---- the inline system prompt ----

  predicate HasUser(ps: seq<Prepared>) {
    exists i :: 0 <= i < |ps| && ps[i].t.kind == User
  }

  /** The prompts that carry the system prompt inline: the first user turn's, if the session needs
      it, and no other. */
  predicate CarriedOnce(needsInline: bool, ps: seq<Prepared>) {
    forall i :: 0 <= i < |ps| ==> (ps[i].inline <==> needsInline && ps[i].t.kind == User && !HasUser(ps[..i]))
  }

  lemma CarriedSnoc(needsInline: bool, ps: seq<Prepared>, x: Prepared)
    requires CarriedOnce(needsInline, ps)
    requires x.inline <==> needsInline && x.t.kind == User && !HasUser(ps)
    ensures CarriedOnce(needsInline, ps + [x])
    ensures HasUser(ps + [x]) <==> HasUser(ps) || x.t.kind == User
  {
    var all := ps + [x];
    forall i | 0 <= i < |all|
      ensures all[i].inline <==> needsInline && all[i].t.kind == User && !HasUser(all[..i])
    {
      assert all[..i] == ps[..i];
      assert ps[..|ps|] == ps;
    }
    if HasUser(ps) {
      var i :| 0 <= i < |ps| && ps[i].t.kind == User;
      assert all[i].t.kind == User;
    }
    if x.t.kind == User {
      assert all[|ps|].t.kind == User;
    }
  }

  lemma NeedKept(s: Session, a: Action)
    requires Enabled(s, a)
    ensures Apply(s, a).needsInline == s.needsInline
  {
  }

  /** Exactly the first user turn the runner prepares carries the inline system prompt. */
  lemma {:induction false} InlineOnce(needsInline: bool, run: seq<Action>)
    requires Exec(needsInline, run).Some?
    ensures var s := Exec(needsInline, run).value;
            && CarriedOnce(needsInline, s.prepared)
            && s.needsInline == needsInline
            && (s.pendingInline <==> needsInline && !HasUser(s.prepared))
  {
    if run != [] {
      var n := |run| - 1;
      InlineOnce(needsInline, run[..n]);
      var s := Exec(needsInline, run[..n]).value;
      if run[n].Prepare? {
        var user := s.core.pc.t.kind == User;
        CarriedSnoc(needsInline, s.prepared, Prepared(s.core.pc.t, run[n].ans, user && s.pendingInline));
      }
    }
  }

  // ---- the option cache ----

  /** The option requests among the assembled prompts: those of user turns. */
  function Requests(ps: seq<Prepared>): seq<Request> {
    if ps == [] then []
    else
      var p := ps[|ps| - 1];
      Requests(ps[..|ps| - 1]) + (if p.t.kind == User then [Request(p.t.opts, p.ans)] else [])
  }

  lemma RequestsSnoc(ps: seq<Prepared>, p: Prepared)
    ensures Requests(ps + [p]) == Requests(ps) + (if p.t.kind == User then [Request(p.t.opts, p.ans)] else [])
  {
    assert (ps + [p])[..|ps|] == ps;
  }

  lemma CacheAfter(cache: Options, ps: seq<Prepared>, p: Prepared)
    requires cache == OptionCache.Session(Requests(ps)).cache
    ensures OptionCache.Session(Requests(ps + [p])).cache
            == if p.t.kind == User then ApplyOptions(cache, p.t.opts, p.ans).cache else cache
  {
    RequestsSnoc(ps, p);
    if p.t.kind == User {
      var rs := Requests(ps);
      assert (rs + [Request(p.t.opts, p.ans)])[..|rs|] == rs;
    } else {
      NoMore(Requests(ps));
    }
  }

  lemma CacheKept(s: Session, a: Action)
    requires Enabled(s, a) && !a.Prepare?
    ensures Apply(s, a).cache == s.cache && Apply(s, a).prepared == s.prepared
  {
  }

  /** A session's cache is what its user turns have made of it, in the order in which the runner took
      them; so its model is the one the agent last accepted, and the one it would run without a cache. */
  lemma {:induction false} CacheOfRun(needsInline: bool, run: seq<Action>)
    requires Exec(needsInline, run).Some?
    ensures var s := Exec(needsInline, run).value; var rs := Requests(s.prepared);
            && s.cache == OptionCache.Session(rs).cache
            && s.cache.model == AgentModel(OptionCache.Session(rs).calls) == AgentModel(Uncached(rs))
  {
    if run != [] {
      var n := |run| - 1;
      var s := Exec(needsInline, run[..n]).value;
      CacheOfRun(needsInline, run[..n]);
      if run[n].Prepare? {
        CacheAfter(s.cache, s.prepared, Prepared(s.core.pc.t, run[n].ans, s.core.pc.t.kind == User && s.pendingInline));
      } else {
        CacheKept(s, run[n]);
      }
    }
    CacheTracksAgent(Requests(Exec(needsInline, run).value.prepared));
  }

  /** Every prepared turn has its notice: the error of applying its options, if it is a user turn. */
  ghost predicate NoticesOk(ps: seq<Prepared>, notices: map<Turn, Option<string>>) {
    forall i :: 0 <= i < |ps| ==>
      && ps[i].t in notices
      && notices[ps[i].t] == (if ps[i].t.kind == User then OptionCache.Session(Requests(ps[..i + 1])).error else None)
  }

  lemma NoticesSnoc(ps: seq<Prepared>, p: Prepared, notices: map<Turn, Option<string>>)
    requires NoticesOk(ps, notices) && p.t !in notices
    ensures NoticesOk(ps + [p], notices[p.t := if p.t.kind == User then OptionCache.Session(Requests(ps + [p])).error else None])
  {
    var all := ps + [p];
    assert all[..|all|] == all;
    forall i | 0 <= i < |ps|
      ensures all[i] == ps[i] && all[..i + 1] == ps[..i + 1]
    {
    }
  }

  lemma NoticeAfter(cache: Options, ps: seq<Prepared>, p: Prepared)
    requires cache == OptionCache.Session(Requests(ps)).cache
    ensures Notice(cache, p.t, p.ans)
            == if p.t.kind == User then OptionCache.Session(Requests(ps + [p])).error else None
  {
    RequestsSnoc(ps, p);
    if p.t.kind == User {
      var rs := Requests(ps);
      assert (rs + [Request(p.t.opts, p.ans)])[..|rs|] == rs;
    }
  }

  lemma NoticesKept(s: Session, a: Action)
    requires Enabled(s, a) && !a.Prepare?
    ensures Apply(s, a).book.notices == s.book.notices && Apply(s, a).prepared == s.prepared
  {
  }

  lemma PreparedIsNew(s: Session)
    requires Inv(s) && s.core.pc.Admitted? && s.sub.Fresh?
    ensures s.core.pc.t !in s.book.notices
  {
    AdmittedIsNew(s.core);
  }

  /** In every run a prepared user turn's notice is what its request has led to; so it has one if and only
      if its model was refused. */
  lemma {:induction false} NoticesOfRun(needsInline: bool, run: seq<Action>)
    requires Exec(needsInline, run).Some?
    ensures NoticesOk(Exec(needsInline, run).value.prepared, Exec(needsInline, run).value.book.notices)
  {
    if run != [] {
      var n := |run| - 1;
      var s := Exec(needsInline, run[..n]).value;
      NoticesOfRun(needsInline, run[..n]);
      if run[n].Prepare? {
        var p := Prepared(s.core.pc.t, run[n].ans, s.core.pc.t.kind == User && s.pendingInline);
        RunsKeepInv(needsInline, run[..n]);
        PreparedIsNew(s);
        CacheOfRun(needsInline, run[..n]);
        NoticeAfter(s.cache, s.prepared, p);
        NoticesSnoc(s.prepared, p, s.book.notices);
      } else {
        NoticesKept(s, run[n]);
      }
    }
  }

  // ---- the outcome of a turn ----

  /** Agent.Prompt came back for t with this outcome, at this point of the run. */
  ghost predicate CameBack(needsInline: bool, run: seq<Action>, t: Turn, o: Outcome) {
    exists k: nat :: ReturnedAt(needsInline, run, t, o, k)
  }

  predicate ReturnedAt(needsInline: bool, run: seq<Action>, t: Turn, o: Outcome, k: nat) {
    k < |run| && run[k] == Return(o) && Exec(needsInline, run[..k]).Some? && Exec(needsInline, run[..k]).value.core.pc == Q.Prompting(t)
  }

  lemma CameBackStays(needsInline: bool, run: seq<Action>, a: Action, t: Turn, o: Outcome)
    requires CameBack(needsInline, run, t, o)
    ensures CameBack(needsInline, run + [a], t, o)
  {
    var k: nat :| ReturnedAt(needsInline, run, t, o, k);
    assert (run + [a])[..k] == run[..k];
    assert ReturnedAt(needsInline, run + [a], t, o, k);
  }

  /** The outcome known to the runner while it ends the turn. */
  predicate Ending(s: Session, t: Turn, o: Outcome) {
    s.core.pc == Q.Prompting(t) && (s.sub == Returned(o) || s.sub == Acking(o))
  }

  lemma OutcomeStep(s: Session, a: Action, t: Turn, o: Outcome)
    requires Q.Shape(s.core) && Handshake(s.core.pc, s.sub, s.pipe) && Enabled(s, a)
    ensures var s' := Apply(s, a);
            && (Ending(s', t, o) ==> Ending(s, t, o) || (a == Return(o) && s.core.pc == Q.Prompting(t)))
            && (t in s'.book.outcomes && s'.book.outcomes[t] == o ==>
                  (t in s.book.outcomes && s.book.outcomes[t] == o) || Ending(s, t, o))
  {
    match a {
      case Core(c) => CoreFrame(s.core, c); KeepsPrompting(s.core, c);
      case Evict => EvictEffect(s.core);
      case _ =>
    }
  }

  lemma KeepsPrompting(c: Q.Sys, a: Q.Action)
    requires Q.Shape(c) && (Plain(a) || Q.ByCollector(a)) && Q.Enabled(c, a)
    ensures Q.Apply(c, a).pc.Prompting? ==> Q.Apply(c, a).pc == c.pc
  {
    CoreFrame(c, a);
  }

  /** The runner ends t with this outcome, or has done so. */
  predicate Known(s: Session, t: Turn, o: Outcome) {
    Ending(s, t, o) || (t in s.book.outcomes && s.book.outcomes[t] == o)
  }

  lemma KnownStep(s: Session, a: Action, t: Turn, o: Outcome)
    requires Enabled(s, a) && Q.Shape(s.core) && Handshake(s.core.pc, s.sub, s.pipe)
    ensures Known(Apply(s, a), t, o) ==> Known(s, t, o) || (a == Return(o) && s.core.pc == Q.Prompting(t))
  {
    OutcomeStep(s, a, t, o);
  }

  lemma {:induction false} KnownInRun(needsInline: bool, run: seq<Action>, a: Action, t: Turn, o: Outcome)
    requires Exec(needsInline, run).Some? && Enabled(Exec(needsInline, run).value, a)
    ensures Known(Apply(Exec(needsInline, run).value, a), t, o) ==>
              Known(Exec(needsInline, run).value, t, o)
              || (a == Return(o) && Exec(needsInline, run).value.core.pc == Q.Prompting(t))
  {
    RunsKeepInv(needsInline, run);
    KnownStep(Exec(needsInline, run).value, a, t, o);
  }

  lemma {:induction false} CameBackStep(needsInline: bool, run: seq<Action>, a: Action, t: Turn, o: Outcome)
    requires Exec(needsInline, run).Some? && Enabled(Exec(needsInline, run).value, a)
    requires Known(Exec(needsInline, run).value, t, o) ==> CameBack(needsInline, run, t, o)
    ensures Known(Apply(Exec(needsInline, run).value, a), t, o) ==> CameBack(needsInline, run + [a], t, o)
  {
    KnownInRun(needsInline, run, a, t, o);
    if Known(Exec(needsInline, run).value, t, o) {
      CameBackStays(needsInline, run, a, t, o);
    } else if a == Return(o) && Exec(needsInline, run).value.core.pc == Q.Prompting(t) {
      assert (run + [a])[..|run|] == run;
      assert ReturnedAt(needsInline, run + [a], t, o, |run|);
    }
  }

  /** The outcome that a turn is closed with is the one Agent.Prompt came back with. */
  lemma {:induction false} OutcomeIsTheAgents(needsInline: bool, run: seq<Action>, t: Turn, o: Outcome)
    requires Exec(needsInline, run).Some?
    ensures Known(Exec(needsInline, run).value, t, o) ==> CameBack(needsInline, run, t, o)
  {
    if run != [] {
      var n := |run| - 1;
      OutcomeIsTheAgents(needsInline, run[..n], t, o);
      CameBackStep(needsInline, run[..n], run[n], t, o);
      assert run[..n] + [run[n]] == run;
    }
  }
}
