/** The sequential code of one session's two goroutines (runOneTurn and drainChunks in
    internal/router/router.go). SessionRuns says how their steps interleave. */
module Runner {
  import opened Common
  import opened Sinks
  import opened ChunkRender
  import opened OptionCache
  import opened TurnQueue
  import Q = QueueRuns
  import opened SessionRuns
  import R = RouterRuns
  import T = SessionTable

  // ---- the drain ----

  /** Every begin marker finds no turn open and is the first marker of its turn; every end marker
      ends the open turn. */
  ghost predicate WellMarked(msgs: seq<Msg>) {
    msgs == [] || (WellMarked(msgs[..|msgs| - 1]) && MayFollow(msgs[..|msgs| - 1], msgs[|msgs| - 1]))
  }

  ghost predicate MayFollow(msgs: seq<Msg>, m: Msg) {
    match m
    case Begin(t) => Unmarked(msgs, t) && forall u :: !Open(msgs, u)
    case End(t) => Open(msgs, t)
    case Chunk(_) => true
  }

  lemma {:induction false} WellMarkedPrefix(msgs: seq<Msg>, i: nat)
    requires WellMarked(msgs) && i <= |msgs|
    ensures WellMarked(msgs[..i])
    ensures i < |msgs| ==> MayFollow(msgs[..i], msgs[i])
  {
    var n := |msgs| - 1;
    if i < n {
      WellMarkedPrefix(msgs[..n], i);
      assert msgs[..n][..i] == msgs[..i];
    } else {
      assert msgs[..|msgs|] == msgs;
    }
  }

  /** Which turn is open after one more message. */
  lemma OpenAfter(msgs: seq<Msg>, td: Option<Turn>, m: Msg)
    requires MayFollow(msgs, m) && forall t :: Open(msgs, t) <==> td == Some(t)
    ensures var td' := match m case Begin(u) => Some(u) case End(_) => None case Chunk(_) => td;
            forall t :: Open(msgs + [m], t) <==> td' == Some(t)
  {
    forall t
      ensures Open(msgs + [m], t) <==> if m == Begin(t) then End(t) !in msgs else Open(msgs, t) && m != End(t)
    {
      OpenSnoc(msgs, m, t);
    }
  }

  /** What one more message adds to each turn. */
  lemma CallsAfter(msgs: seq<Msg>, m: Msg, t: Turn)
    ensures var us, vs := Attributed(msgs, t), Attributed(msgs + [m], t);
            if m.Chunk? && Open(msgs, t) then
              && DrainCalls(vs, Hide(t)) == DrainCalls(us, Hide(t)) + ChunkCalls(After(us, Hide(t)), m.u, Hide(t))
              && After(vs, Hide(t)) == NextProgress(After(us, Hide(t)), m.u, Hide(t))
            else vs == us
  {
    AttributedSnoc(msgs, m, t);
    if m.Chunk? && Open(msgs, t) {
      DrainCallsSnoc(Attributed(msgs, t), m.u, Hide(t));
    } else {
      NoMore(Attributed(msgs, t));
    }
  }

  /** What the sinks of these turns have received. */
  ghost function Logs(sinks: map<Turn, Sink>): map<Turn, seq<SinkCall>>
    reads sinks.Values
  {
    map t | t in sinks :: sinks[t].calls
  }

  /** Each sink has received the rendering of its turn's chunks among these messages. */
  ghost predicate Served(msgs: seq<Msg>, was: map<Turn, seq<SinkCall>>, logs: map<Turn, seq<SinkCall>>) {
    && logs.Keys == was.Keys
    && forall t :: t in was ==> logs[t] == was[t] + DrainCalls(Attributed(msgs, t), Hide(t))
  }

  lemma ServedStart(was: map<Turn, seq<SinkCall>>)
    ensures Served([], was, was)
  {
    forall t | t in was { NoMore(was[t]); }
  }

  lemma {:induction false} ServedMarker(msgs: seq<Msg>, m: Msg, was: map<Turn, seq<SinkCall>>, logs: map<Turn, seq<SinkCall>>)
    requires Served(msgs, was, logs) && !m.Chunk?
    ensures Served(msgs + [m], was, logs)
  {
    forall t { CallsAfter(msgs, m, t); }
  }

  /** The logs after the drain has handled a chunk. */
  ghost function Fed(logs: map<Turn, seq<SinkCall>>, td: Option<Turn>, p: Progress, u: Update): map<Turn, seq<SinkCall>> {
    if td.Some? && td.value in logs then
      logs[td.value := logs[td.value] + ChunkCalls(p, u, Hide(td.value))]
    else logs
  }

  lemma {:induction false} ServedChunk(msgs: seq<Msg>, u: Update, td: Option<Turn>, p: Progress, was: map<Turn, seq<SinkCall>>,
                    logs: map<Turn, seq<SinkCall>>)
    requires Served(msgs, was, logs) && forall t :: Open(msgs, t) <==> td == Some(t)
    requires td.Some? ==> td.value in was && p == After(Attributed(msgs, td.value), Hide(td.value))
    ensures Served(msgs + [Chunk(u)], was, Fed(logs, td, p, u))
  {
    forall t | t in was
      ensures Fed(logs, td, p, u)[t] == was[t] + DrainCalls(Attributed(msgs + [Chunk(u)], t), Hide(t))
    {
      CallsAfter(msgs, Chunk(u), t);
      if td == Some(t) {
        Assoc(was[t], DrainCalls(Attributed(msgs, t), Hide(t)), ChunkCalls(p, u, Hide(t)));
      }
    }
  }

  method Deliver(u: Update, td: Option<Turn>, d: Drain, sinks: map<Turn, Sink>)
    requires td.Some? ==> td.value in sinks
    requires forall t, u :: t in sinks && u in sinks && t != u ==> sinks[t] != sinks[u]
    modifies d, sinks.Values
    ensures Logs(sinks) == Fed(old(Logs(sinks)), td, old(d.State()), u)
    ensures d.State() == if td.Some? then NextProgress(old(d.State()), u, Hide(td.value)) else old(d.State())
  {
    if td.Some? {
      d.ProcessChunk(u, Hide(td.value), sinks[td.value]);
    }
  }

  /** Serves the channel until it notices drainStop, which happens after `taken` messages: each turn's
      sink has received the rendering of the chunks between its markers among these, in channel
      order, and nothing else. */
  method DrainChunks(msgs: seq<Msg>, sinks: map<Turn, Sink>, taken: nat)
    requires taken <= |msgs| && WellMarked(msgs) && forall t :: Begin(t) in msgs ==> t in sinks
    requires forall t, u :: t in sinks && u in sinks && t != u ==> sinks[t] != sinks[u]
    modifies sinks.Values
    ensures Served(msgs[..taken], old(Logs(sinks)), Logs(sinks))
  {
    var td: Option<Turn> := None;
    var d := new Drain();
    ghost var was := Logs(sinks);
    ServedStart(was);
    for i := 0 to taken
      invariant fresh(d)
      invariant forall t :: Open(msgs[..i], t) <==> td == Some(t)
      invariant td.Some? ==> td.value in sinks && d.State() == After(Attributed(msgs[..i], td.value), Hide(td.value))
      invariant Served(msgs[..i], was, Logs(sinks))
    {
      WellMarkedPrefix(msgs, i);
      assert msgs[..i + 1] == msgs[..i] + [msgs[i]];
      OpenAfter(msgs[..i], td, msgs[i]);
      match msgs[i] {
        case Begin(t) =>
          ServedMarker(msgs[..i], msgs[i], was, Logs(sinks));
          NothingAttributed(msgs[..i], t);
          CallsAfter(msgs[..i], msgs[i], t);
          td := Some(t);
          d := new Drain();
        case End(_) =>
          ServedMarker(msgs[..i], msgs[i], was, Logs(sinks));
          td := None;
        case Chunk(u) =>
          ServedChunk(msgs[..i], u, td, d.State(), was, Logs(sinks));
          if td.Some? { CallsAfter(msgs[..i], msgs[i], td.value); }
          Deliver(u, td, d, sinks);
      }
    }
  }

  // ---- the channel of every run is well marked ----

  lemma WellMarkedSend(msgs: seq<Msg>, m: Msg)
    requires WellMarked(msgs) && MayFollow(msgs, m)
    ensures WellMarked(msgs + [m])
  {
    assert (msgs + [m])[..|msgs|] == msgs;
  }

  lemma OpenInHistory(hist: seq<Msg>, ch: seq<Msg>, t: Turn)
    requires Ctl(ch) == []
    ensures Open(hist + ch, t) <==> Open(hist, t)
  {
    if Begin(t) in ch { InCtl(ch, Begin(t)); }
    if End(t) in ch { InCtl(ch, End(t)); }
  }

  lemma BeginMayFollow(s: Session)
    requires Inv(s) && Enabled(s, SendBegin)
    ensures MayFollow(s.pipe.hist + s.pipe.ch, Begin(s.core.pc.t))
  {
    AdmittedIsNew(s.core);
    forall u
      ensures !Open(s.pipe.hist + s.pipe.ch, u)
    {
      OpenInHistory(s.pipe.hist, s.pipe.ch, u);
    }
  }

  lemma EndMayFollow(pc: Q.Pc, sub: Sub, p: Pipe)
    requires Handshake(pc, sub, p) && pc.Prompting? && sub.Returned?
    requires forall t :: Open(p.hist, t) <==> p.td == Some(t)
    ensures MayFollow(p.hist + p.ch, End(pc.t))
  {
    if Ctl(p.ch) == [] {
      OpenInHistory(p.hist, p.ch, pc.t);
    } else {
      CtlIn(p.ch, Begin(pc.t));
      if End(pc.t) in p.ch { InCtl(p.ch, End(pc.t)); }
    }
  }

  lemma ChannelStep(s: Session, a: Action)
    requires Inv(s) && Enabled(s, a) && WellMarked(s.pipe.hist + s.pipe.ch)
    ensures var p := Apply(s, a).pipe; WellMarked(p.hist + p.ch)
  {
    match a {
      case SendBegin => BeginMayFollow(s); SentIsMarked(s.pipe, Begin(s.core.pc.t));
      case SendEnd => EndMayFollow(s.core.pc, s.sub, s.pipe); SentIsMarked(s.pipe, End(s.core.pc.t));
      case Emit(u) => SentIsMarked(s.pipe, Chunk(u));
      case Receive => TakeWhole(s.pipe);
      case _ =>
    }
  }

  lemma SentIsMarked(p: Pipe, m: Msg)
    requires WellMarked(p.hist + p.ch) && MayFollow(p.hist + p.ch, m)
    ensures WellMarked(p.hist + (p.ch + [m]))
  {
    WellMarkedSend(p.hist + p.ch, m);
    Assoc(p.hist, p.ch, [m]);
  }

  /** What DrainChunks demands of its channel holds in every run, whatever late chunks the agent
      sends. */
  lemma {:induction false} ChannelIsWellMarked(needsInline: bool, run: seq<Action>)
    requires Exec(needsInline, run).Some?
    ensures var p := Exec(needsInline, run).value.pipe; WellMarked(p.hist + p.ch)
  {
    if run == [] {
      NoMore<Msg>([]);
    } else {
      var n := |run| - 1;
      ChannelIsWellMarked(needsInline, run[..n]);
      RunsKeepInv(needsInline, run[..n]);
      ChannelStep(Exec(needsInline, run[..n]).value, run[n]);
    }
  }

  // ---- the runner ----

  /** What the surroundings contribute to one turn: the time, the agent's answers, the chunks that
      reach the channel between the markers, and how Agent.Prompt comes back. */
  datatype World = World(now: int, ans: Answers, chunks: seq<Update>, outcome: Outcome)

  /** The runner's share of a session: pendingInline is the field pendingSystemPromptInline. */
  class TurnRunner {
    const cache: Cache
    var pendingInline: bool
    var prompts: seq<Prepared>

    constructor (needsInline: bool)
      ensures fresh(cache) && cache.applied == NO_OPTIONS && pendingInline == needsInline && prompts == []
    {
      cache := new Cache();
      pendingInline := needsInline;
      prompts := [];
    }

    /** Options first, then the inline system prompt, for user turns only. */
    method Assemble(t: Turn, ans: Answers, sink: Sink)
      modifies this, cache, sink
      ensures sink.calls == old(sink.calls) + NoticeCalls(Notice(old(cache.applied), t, ans))
      ensures Assembled(old(cache.applied), old(pendingInline), old(prompts), t, ans)
    {
      if t.kind == User {
        var error := cache.Apply(t.opts, ans);
        if error.Some? {
          sink.Call(FirstChunk);
          sink.Call(Text("_(option not applied: " + error.value + ")_\n\n"));
        }
      }
      var inline := t.kind == User && pendingInline;
      if inline {
        pendingInline := false;
      }
      prompts := prompts + [Prepared(t, ans, inline)];
    }

    /** The terminal calls for the way Agent.Prompt came back. */
    method Conclude(o: Outcome, sink: Sink)
      modifies sink
      ensures sink.calls == old(sink.calls) + FinalCalls(o)
    {
      match o {
        case Failed(err) =>
          sink.Call(Error("acp prompt: " + err, "user_caused_error"));
        case EndTurn =>
        case MaxTokens =>
          sink.Call(Text("\n\n_(response truncated: max tokens)_"));
        case MaxTurnRequests =>
          sink.Call(Text("\n\n_(response truncated: max turns)_"));
        case Refusal =>
          sink.Call(Error("agent refused the request", "user_caused_error"));
        case Cancelled =>
          sink.Call(Replace("_(cancelled)_"));
        case OtherReason =>
      }
      sink.Call(Done);
    }

    /** The drain's share of the turn. */
    method Stream(chunks: seq<Update>, hidden: bool, sink: Sink)
      modifies sink
      ensures sink.calls == old(sink.calls) + DrainCalls(chunks, hidden)
    {
      var d := new Drain();
      ghost var was := sink.calls;
      for i := 0 to |chunks|
        invariant fresh(d) && d.State() == After(chunks[..i], hidden)
        invariant sink.calls == was + DrainCalls(chunks[..i], hidden)
      {
        assert chunks[..i + 1] == chunks[..i] + [chunks[i]];
        DrainCallsSnoc(chunks[..i], chunks[i], hidden);
        d.ProcessChunk(chunks[i], hidden, sink);
      }
      assert chunks[..|chunks|] == chunks;
    }

    /** A turn that is not stale: notice, chunks, terminal calls. */
    method Execute(t: Turn, w: World, sink: Sink)
      modifies this, cache, sink
      ensures sink.calls == old(sink.calls) + R.TurnCalls(Notice(old(cache.applied), t, w.ans), w.chunks, Hide(t), w.outcome)
      ensures Assembled(old(cache.applied), old(pendingInline), old(prompts), t, w.ans)
    {
      ghost var was, notice := sink.calls, Notice(cache.applied, t, w.ans);
      Assemble(t, w.ans, sink);
      Stream(w.chunks, Hide(t), sink);
      Conclude(w.outcome, sink);
      Assoc(was, NoticeCalls(notice), DrainCalls(w.chunks, Hide(t)));
      Assoc(was, NoticeCalls(notice) + DrainCalls(w.chunks, Hide(t)), FinalCalls(w.outcome));
    }

    /** The options went to the agent and the prompt was assembled, for user turns with the inline
        system prompt if that was still pending. */
    ghost predicate Assembled(applied: Options, pending: bool, before: seq<Prepared>, t: Turn, ans: Answers)
      reads this, cache
    {
      && prompts == before + [Prepared(t, ans, t.kind == User && pending)]
      && pendingInline == (pending && t.kind != User)
      && cache.applied == if t.kind == User then ApplyOptions(applied, t.opts, ans).cache else applied
    }

    /** One turn from end to end: a stale reaction is shed untouched; every other turn gets its
        notice, its chunks and its terminal calls, and keeps the error of a failed prompt. On every path
        the conversation's session is refreshed before the done channel is closed. */
    method RunOneTurn(req: TurnReq, w: World, sink: Sink, table: T.Table, conv: string)
      requires !req.done && !req.shed && req.err == None && R.MapOk(table.State())
      modifies this, cache, sink, req, table`sessions
      ensures req.done && req.shed == Q.TooOld(req.turn, w.now)
      ensures req.err == if !req.shed && w.outcome.Failed? then Some(w.outcome.err) else None
      ensures table.State() == R.Touch(old(table.State()), conv)
      ensures req.shed ==> sink.calls == old(sink.calls) && cache.applied == old(cache.applied)
                           && pendingInline == old(pendingInline) && prompts == old(prompts)
      ensures !req.shed ==>
                && sink.calls == old(sink.calls) + R.TurnCalls(Notice(old(cache.applied), req.turn, w.ans),
                                                               w.chunks, Hide(req.turn), w.outcome)
                && Assembled(old(cache.applied), old(pendingInline), old(prompts), req.turn, w.ans)
    {
      if req.turn.kind == Reaction && w.now - req.turn.enqueuedAt > Q.REACTION_MAX_AGE {
        req.shed := true;
      } else {
        Execute(req.turn, w, sink);
        if w.outcome.Failed? {
          req.err := Some(w.outcome.err);
        }
      }
      table.Touch(conv);
      req.CloseDone();
    }
  }
}
