/** What the user finally sees: the router's guarantees about a turn's sink, composed with the
    ordered stream, the event framing and Poe's display. */
module EndToEnd {
  import opened Common
  import opened Sinks
  import opened ChunkRender
  import TurnQueue
  import S = SessionRuns
  import R = RouterRuns
  import Sse
  import Events
  import O = OrderedStream

  /** The notice, the transcript of the agent's chunks, and what the stop reason adds. */
  function Expected(notice: Option<string>, chunks: seq<Update>, hidden: bool, o: S.Outcome): string {
    var streamed := NoticeText(notice) + Batch(Runs(chunks, hidden));
    match o
    case Cancelled => "_(cancelled)_"
    case MaxTokens => streamed + "\n\n_(response truncated: max tokens)_"
    case MaxTurnRequests => streamed + "\n\n_(response truncated: max turns)_"
    case _ => streamed
  }

  function NoticeText(notice: Option<string>): string {
    if notice.None? then "" else "_(option not applied: " + notice.value + ")_\n\n"
  }

  // ---- sink calls as seen on screen ----

  function ShowCall(body: string, c: SinkCall): string {
    match c
    case Text(s) => body + s
    case Replace(s) => s
    case _ => body
  }

  function Shown(calls: seq<SinkCall>): string {
    if calls == [] then "" else ShowCall(Shown(calls[..|calls| - 1]), calls[|calls| - 1])
  }

  lemma ShownSnoc(calls: seq<SinkCall>, c: SinkCall)
    ensures Shown(calls + [c]) == ShowCall(Shown(calls), c)
  {
    assert (calls + [c])[..|calls|] == calls;
  }

  predicate Streaming(calls: seq<SinkCall>) {
    forall i :: 0 <= i < |calls| ==> calls[i].Text? || calls[i].FirstChunk?
  }

  lemma {:induction false} StreamingShowsTexts(calls: seq<SinkCall>)
    requires Streaming(calls)
    ensures Shown(calls) == Texts(calls)
  {
    if calls != [] {
      StreamingShowsTexts(calls[..|calls| - 1]);
    }
  }

  /** One user call on a stream without spinner. */
  lemma QuietStep(x: O.Writer, c: SinkCall)
    requires x.wire.limit == None && !x.spinnerVisible && !x.closed && !x.wire.closed
    ensures var y := O.UserStep(x, c);
            && Events.Body(y.wire.events) == ShowCall(Events.Body(x.wire.events), c)
            && y.wire.limit == None && !y.spinnerVisible && y.closed == y.wire.closed == c.Done?
  {
    match c {
      case FirstChunk =>
      case Text(s) => Events.BodySnoc(x.wire.events, Events.Text(s)); NoMore(Events.Body(x.wire.events));
      case Replace(s) => Events.BodySnoc(x.wire.events, Events.Replace(s));
      case Error(m, et) => Events.BodySnoc(x.wire.events, Events.Error(m, et));
      case Done => Events.BodySnoc(x.wire.events, Events.Done);
    }
  }

  /** Without a heartbeat the stream shows the sink calls, and is closed by the final Done. */
  lemma {:induction false} QuietShows(calls: seq<SinkCall>)
    requires forall i :: 0 <= i < |calls| - 1 ==> calls[i] != Done
    ensures var x := O.Quiet(calls);
            && Events.Body(x.wire.events) == Shown(calls)
            && x.wire.limit == None && !x.spinnerVisible
            && x.closed == x.wire.closed == (calls != [] && calls[|calls| - 1] == Done)
  {
    if calls == [] {
      assert [Events.Meta][..0] == [];
    } else {
      var n := |calls| - 1;
      QuietShows(calls[..n]);
      QuietStep(O.Quiet(calls[..n]), calls[n]);
    }
  }

  // ---- the calls of one turn ----

  lemma NoticeShows(notice: Option<string>)
    ensures Streaming(S.NoticeCalls(notice)) && Texts(S.NoticeCalls(notice)) == NoticeText(notice)
  {
    if notice.Some? {
      TextsOne(NoticeText(notice));
      assert S.NoticeCalls(notice) == [FirstChunk] + [Text(NoticeText(notice))];
    }
  }

  lemma DrainShows(chunks: seq<Update>, hidden: bool)
    ensures Streaming(DrainCalls(chunks, hidden))
    ensures Texts(DrainCalls(chunks, hidden)) == Batch(Runs(chunks, hidden))
  {
    FirstChunkOnce(chunks, hidden);
    StreamEqualsBatch(chunks, hidden);
  }

  lemma StreamedShows(notice: Option<string>, chunks: seq<Update>, hidden: bool)
    ensures Shown(S.NoticeCalls(notice) + DrainCalls(chunks, hidden)) == NoticeText(notice) + Batch(Runs(chunks, hidden))
  {
    NoticeShows(notice);
    DrainShows(chunks, hidden);
    TextsConcat(S.NoticeCalls(notice), DrainCalls(chunks, hidden));
    StreamingShowsTexts(S.NoticeCalls(notice) + DrainCalls(chunks, hidden));
  }

  lemma TwoMore(calls: seq<SinkCall>, c: SinkCall, d: SinkCall)
    ensures calls + [c, d] == calls + [c] + [d]
  {
  }

  lemma ShownThen(calls: seq<SinkCall>, c: SinkCall)
    ensures Shown(calls + [c, Done]) == ShowCall(Shown(calls), c)
  {
    ShownSnoc(calls, c);
    ShownSnoc(calls + [c], Done);
    TwoMore(calls, c, Done);
  }

  lemma FinalShows(calls: seq<SinkCall>, o: S.Outcome)
    ensures Shown(calls + S.FinalCalls(o)) ==
            match o
            case Cancelled => "_(cancelled)_"
            case MaxTokens => Shown(calls) + "\n\n_(response truncated: max tokens)_"
            case MaxTurnRequests => Shown(calls) + "\n\n_(response truncated: max turns)_"
            case _ => Shown(calls)
  {
    match o {
      case Failed(_) => ShownThen(calls, S.FinalCalls(o)[0]);
      case MaxTokens => ShownThen(calls, S.FinalCalls(o)[0]);
      case MaxTurnRequests => ShownThen(calls, S.FinalCalls(o)[0]);
      case Refusal => ShownThen(calls, S.FinalCalls(o)[0]);
      case Cancelled => ShownThen(calls, S.FinalCalls(o)[0]);
      case EndTurn => ShownSnoc(calls, Done);
      case OtherReason => ShownSnoc(calls, Done);
    }
  }

  lemma TurnShows(notice: Option<string>, chunks: seq<Update>, hidden: bool, o: S.Outcome)
    ensures Shown(R.TurnCalls(notice, chunks, hidden, o)) == Expected(notice, chunks, hidden, o)
  {
    StreamedShows(notice, chunks, hidden);
    FinalShows(S.NoticeCalls(notice) + DrainCalls(chunks, hidden), o);
  }

  // ---- main results ----

  /** The body a client displays after reading the bytes of these events. */
  function BodyOnScreen(events: seq<Events.Event>): string {
    Events.Display(Sse.Read(Sse.StreamBytes(Events.Frames(events))))
  }

  /** With thinking hidden the agent's part of the body is exactly its messages; with thinking shown it
      is a function of every character the agent has sent, and of nothing else. */
  lemma AgentPart(chunks: seq<Update>)
    ensures Batch(Runs(chunks, true)) == MessageText(chunks)
    ensures Batch(Runs(chunks, false)) == Typeset(AllLetters(chunks))
  {
    StreamEqualsBatch(chunks, true);
    StreamEqualsBatch(chunks, false);
    HiddenStream(chunks);
    EverythingIsStreamed(chunks);
  }

  /** However heartbeat ticks fall among a turn's sink calls, the client ends up with the same body. */
  lemma ScreenShowsCalls(heartbeat: bool, es: seq<O.Happening>)
    requires O.Play(None, heartbeat, es).Some? && DoneOnceLast(O.CallsOf(es))
    ensures BodyOnScreen(O.Play(None, heartbeat, es).value.x.wire.events) == Shown(O.CallsOf(es))
  {
    var x := O.Play(None, heartbeat, es).value.x;
    O.HeartbeatIsInvisible(heartbeat, es);
    QuietShows(O.CallsOf(es));
    Events.DisplayOfBytes(x.wire.events);
  }

  /** For every run of the router and every accepted user turn that has returned, and for every way
      the heartbeat can interleave with the turn's sink calls, the body on screen is the option
      notice, the transcript of the chunks between the turn's markers, and the truncation suffix; or
      just the cancellation notice. */
  lemma {:induction false} DisplayedBody(cfg: R.Config, run: seq<R.Action>, id: nat, heartbeat: bool, es: seq<O.Happening>)
    requires R.Exec(cfg, run).Some? && R.In(R.Exec(cfg, run).value, id)
    requires var c := R.Exec(cfg, run).value.calls[id];
             c.kind == TurnQueue.User && c.phase.Returned? && c.phase.accepted.Some?
    requires O.Play(None, heartbeat, es).Some? && O.CallsOf(es) == R.SinkLog(R.Exec(cfg, run).value, id)
    ensures var at := R.Exec(cfg, run).value.calls[id].phase.accepted.value;
            && at.sid in R.Exec(cfg, run).value.sessions
            && var s := R.Exec(cfg, run).value.sessions[at.sid].s;
            && at.turn in s.book.outcomes && at.turn in s.book.notices
            && BodyOnScreen(O.Play(None, heartbeat, es).value.x.wire.events)
               == Expected(s.book.notices[at.turn], S.Attributed(s.pipe.hist, at.turn), S.Hide(at.turn), s.book.outcomes[at.turn])
  {
    R.RunsKeepInv(cfg, run);
    var r := R.Exec(cfg, run).value;
    R.AcceptedPrompt(cfg, run, id);
    R.PromptEndsWithDone(cfg, run, id);
    ScreenShowsCalls(heartbeat, es);
    var at := r.calls[id].phase.accepted.value;
    var s := r.sessions[at.sid].s;
    TurnShows(s.book.notices[at.turn], S.Attributed(s.pipe.hist, at.turn), S.Hide(at.turn), s.book.outcomes[at.turn]);
  }

  /** A Prompt call that never got a turn accepted leaves an empty body: its message travels in the
      error event only. */
  lemma {:induction false} RejectedBody(cfg: R.Config, run: seq<R.Action>, id: nat, heartbeat: bool, es: seq<O.Happening>)
    requires R.Exec(cfg, run).Some? && R.In(R.Exec(cfg, run).value, id)
    requires var c := R.Exec(cfg, run).value.calls[id];
             c.kind == TurnQueue.User && c.phase.Returned? && c.phase.accepted.None?
    requires O.Play(None, heartbeat, es).Some? && O.CallsOf(es) == R.SinkLog(R.Exec(cfg, run).value, id)
    ensures BodyOnScreen(O.Play(None, heartbeat, es).value.x.wire.events) == ""
  {
    R.RunsKeepInv(cfg, run);
    R.PromptEndsWithDone(cfg, run, id);
    ScreenShowsCalls(heartbeat, es);
    RejectedShowsNothing(R.Exec(cfg, run).value, id);
  }

  lemma RejectedShowsNothing(r: R.Router, id: nat)
    requires R.In(r, id) && R.CallOk(r, id) && r.calls[id].kind == TurnQueue.User
    requires r.calls[id].phase.Returned? && r.calls[id].phase.accepted.None?
    ensures Shown(R.SinkLog(r, id)) == ""
  {
    var own := r.calls[id].own;
    ShownThen([], own[0]);
    assert own == [] + [own[0], Done];
  }

  /** On a connection that fails for good the client reads a prefix of the frames that a healthy
      connection would have delivered. */
  lemma {:induction false} FailedConnection(limit: nat, heartbeat: bool, es: seq<O.Happening>)
    requires O.Play(None, heartbeat, es).Some?
    ensures O.Play(Some(limit), heartbeat, es).Some?
    ensures Sse.Read(Sse.StreamBytes(Events.Frames(O.Play(Some(limit), heartbeat, es).value.x.wire.events)))
            <= Sse.Read(Sse.StreamBytes(Events.Frames(O.Play(None, heartbeat, es).value.x.wire.events)))
  {
    O.FailureGivesPrefix(limit, heartbeat, es);
    var x, y := O.Play(Some(limit), heartbeat, es).value.x, O.Play(None, heartbeat, es).value.x;
    Events.DisplayOfBytes(x.wire.events);
    Events.DisplayOfBytes(y.wire.events);
  }

  // ---- in the caller's terms ----

  /** The body of a turn, said with the caller's option and what the agent has sent. */
  function BodyFor(hideThinking: bool, notice: Option<string>, chunks: seq<Update>, o: S.Outcome): string {
    var said := NoticeText(notice) + (if hideThinking then MessageText(chunks) else Typeset(AllLetters(chunks)));
    match o
    case Cancelled => "_(cancelled)_"
    case MaxTokens => said + "\n\n_(response truncated: max tokens)_"
    case MaxTurnRequests => said + "\n\n_(response truncated: max turns)_"
    case _ => said
  }

  lemma ExpectedIsBodyFor(notice: Option<string>, chunks: seq<Update>, hidden: bool, o: S.Outcome)
    ensures Expected(notice, chunks, hidden, o) == BodyFor(hidden, notice, chunks, o)
  {
    AgentPart(chunks);
  }

  /** Thinking is hidden for a turn as its call has asked for it. */
  lemma {:induction false} HidesAsAsked(cfg: R.Config, run: seq<R.Action>, id: nat)
    requires R.Exec(cfg, run).Some? && R.In(R.Exec(cfg, run).value, id)
    requires var c := R.Exec(cfg, run).value.calls[id]; c.phase.Returned? && c.phase.accepted.Some?
    ensures var c := R.Exec(cfg, run).value.calls[id]; S.Hide(c.phase.accepted.value.turn) == c.opts.hideThinking
  {
    R.TurnOfCall(cfg, run, id);
    HideIsTheOption(R.Exec(cfg, run).value.calls[id].phase.accepted.value.turn);
  }

  /** The body on screen for the options of the call itself: with thinking hidden only the agent's
      messages, otherwise every character it has sent. */
  lemma {:induction false} BodyForCaller(cfg: R.Config, run: seq<R.Action>, id: nat, heartbeat: bool, es: seq<O.Happening>)
    requires R.Exec(cfg, run).Some? && R.In(R.Exec(cfg, run).value, id)
    requires var c := R.Exec(cfg, run).value.calls[id];
             c.kind == TurnQueue.User && c.phase.Returned? && c.phase.accepted.Some?
    requires O.Play(None, heartbeat, es).Some? && O.CallsOf(es) == R.SinkLog(R.Exec(cfg, run).value, id)
    ensures R.ServedCall(R.Exec(cfg, run).value, id)
    ensures var c := R.Exec(cfg, run).value.calls[id]; var at := c.phase.accepted.value;
            var s := R.Exec(cfg, run).value.sessions[at.sid].s;
            BodyOnScreen(O.Play(None, heartbeat, es).value.x.wire.events)
            == BodyFor(c.opts.hideThinking, s.book.notices[at.turn], S.Attributed(s.pipe.hist, at.turn), s.book.outcomes[at.turn])
  {
    R.AcceptedPrompt(cfg, run, id);
    DisplayedBody(cfg, run, id, heartbeat, es);
    HidesAsAsked(cfg, run, id);
    var at := R.Exec(cfg, run).value.calls[id].phase.accepted.value;
    var s := R.Exec(cfg, run).value.sessions[at.sid].s;
    ExpectedIsBodyFor(s.book.notices[at.turn], S.Attributed(s.pipe.hist, at.turn), S.Hide(at.turn), s.book.outcomes[at.turn]);
  }

  lemma HideIsTheOption(t: TurnQueue.Turn)
    ensures S.Hide(t) == t.opts.hideThinking
  {
  }

  // ---- errors ----

  /** The Error calls among some sink calls. */
  function Errors(calls: seq<SinkCall>): seq<SinkCall> {
    if calls == [] then []
    else Errors(calls[..|calls| - 1]) + (if calls[|calls| - 1].Error? then [calls[|calls| - 1]] else [])
  }

  lemma {:induction false} ErrorsConcat(a: seq<SinkCall>, b: seq<SinkCall>)
    ensures Errors(a + b) == Errors(a) + Errors(b)
  {
    if b == [] {
      NoMore(a);
      NoMore(Errors(a));
    } else {
      assert (a + b)[..|a + b| - 1] == a + b[..|b| - 1];
      ErrorsConcat(a, b[..|b| - 1]);
    }
  }

  lemma {:induction false} NoErrors(calls: seq<SinkCall>)
    requires forall i :: 0 <= i < |calls| ==> !calls[i].Error?
    ensures Errors(calls) == []
  {
    if calls != [] { NoErrors(calls[..|calls| - 1]); }
  }

  /** The only error, directly before the final Done. */
  predicate EndsInError(calls: seq<SinkCall>, message: string) {
    && |calls| >= 2 && calls[|calls| - 1] == Done
    && calls[|calls| - 2] == Error(message, "user_caused_error")
    && Errors(calls) == [Error(message, "user_caused_error")]
  }

  /** An error is reported exactly if the prompt failed or the agent refused. */
  predicate ErrorsAsDue(calls: seq<SinkCall>, o: S.Outcome) {
    match o
    case Failed(err) => EndsInError(calls, "acp prompt: " + err)
    case Refusal => EndsInError(calls, "agent refused the request")
    case _ => Errors(calls) == []
  }

  lemma ErrorsSnoc(calls: seq<SinkCall>, c: SinkCall)
    ensures Errors(calls + [c]) == Errors(calls) + (if c.Error? then [c] else [])
  {
    assert (calls + [c])[..|calls|] == calls;
  }

  lemma EndError(body: seq<SinkCall>, message: string)
    requires Errors(body) == []
    ensures EndsInError(body + [Error(message, "user_caused_error"), Done], message)
  {
    var e := Error(message, "user_caused_error");
    ErrorsSnoc(body, e);
    ErrorsSnoc(body + [e], Done);
    TwoMore(body, e, Done);
  }

  lemma EndWithoutError(body: seq<SinkCall>, end: seq<SinkCall>)
    requires Errors(body) == [] && forall i :: 0 <= i < |end| ==> !end[i].Error?
    ensures Errors(body + end) == []
  {
    ErrorsConcat(body, end);
    NoErrors(end);
  }

  lemma ErrorsOfTurn(notice: Option<string>, chunks: seq<Update>, hidden: bool, o: S.Outcome)
    ensures ErrorsAsDue(R.TurnCalls(notice, chunks, hidden, o), o)
  {
    var body := S.NoticeCalls(notice) + DrainCalls(chunks, hidden);
    NoticeShows(notice);
    DrainShows(chunks, hidden);
    NoErrors(body);
    match o {
      case Failed(err) => EndError(body, "acp prompt: " + err);
      case Refusal => EndError(body, "agent refused the request");
      case _ => EndWithoutError(body, S.FinalCalls(o));
    }
  }

  /** An option that could not be applied is announced before anything else: the heartbeat is stopped and
      the notice written. */
  lemma {:induction false} NoticeComesFirst(cfg: R.Config, run: seq<R.Action>, id: nat)
    requires R.Exec(cfg, run).Some? && R.In(R.Exec(cfg, run).value, id)
    requires var c := R.Exec(cfg, run).value.calls[id];
             c.kind == TurnQueue.User && c.phase.Returned? && c.phase.accepted.Some?
    ensures R.ServedCall(R.Exec(cfg, run).value, id)
    ensures var r := R.Exec(cfg, run).value; var at := r.calls[id].phase.accepted.value;
            var notice := r.sessions[at.sid].s.book.notices[at.turn];
            notice.Some? ==> [FirstChunk, Text("_(option not applied: " + notice.value + ")_\n\n")] <= R.SinkLog(r, id)
  {
    R.AcceptedPrompt(cfg, run, id);
    var r := R.Exec(cfg, run).value;
    var at := r.calls[id].phase.accepted.value;
    var s := r.sessions[at.sid].s;
    NoticeLeads(s.book.notices[at.turn], S.Attributed(s.pipe.hist, at.turn), S.Hide(at.turn), s.book.outcomes[at.turn]);
  }

  lemma NoticeLeads(notice: Option<string>, chunks: seq<Update>, hidden: bool, o: S.Outcome)
    ensures notice.Some? ==>
              [FirstChunk, Text("_(option not applied: " + notice.value + ")_\n\n")] <= R.TurnCalls(notice, chunks, hidden, o)
  {
    Assoc(S.NoticeCalls(notice), DrainCalls(chunks, hidden), S.FinalCalls(o));
  }

  /** For every returned accepted user turn: its sink has received an error exactly if the prompt failed or
      the agent refused, and then one, directly before Done, with the agent's own message. */
  lemma {:induction false} ErrorReported(cfg: R.Config, run: seq<R.Action>, id: nat)
    requires R.Exec(cfg, run).Some? && R.In(R.Exec(cfg, run).value, id)
    requires var c := R.Exec(cfg, run).value.calls[id];
             c.kind == TurnQueue.User && c.phase.Returned? && c.phase.accepted.Some?
    ensures R.ServedCall(R.Exec(cfg, run).value, id)
    ensures var at := R.Exec(cfg, run).value.calls[id].phase.accepted.value;
            var s := R.Exec(cfg, run).value.sessions[at.sid].s;
            ErrorsAsDue(R.SinkLog(R.Exec(cfg, run).value, id), s.book.outcomes[at.turn])
  {
    R.AcceptedPrompt(cfg, run, id);
    var r := R.Exec(cfg, run).value;
    var at := r.calls[id].phase.accepted.value;
    var s := r.sessions[at.sid].s;
    ErrorsOfTurn(s.book.notices[at.turn], S.Attributed(s.pipe.hist, at.turn), S.Hide(at.turn), s.book.outcomes[at.turn]);
  }

  /** The error events of a stream, as sink calls. */
  function ErrorEvents(es: seq<Events.Event>): seq<SinkCall> {
    if es == [] then []
    else
      var e := es[|es| - 1];
      ErrorEvents(es[..|es| - 1]) + (if e.Error? then [Error(e.message, e.errorType)] else [])
  }

  lemma ErrorEventsSnoc(es: seq<Events.Event>, e: Events.Event)
    ensures ErrorEvents(es + [e]) == ErrorEvents(es) + (if e.Error? then [Error(e.message, e.errorType)] else [])
  {
    assert (es + [e])[..|es|] == es;
  }

  /** What the stream has carried so far: the errors of the calls, and done at its end if it is closed. */
  ghost predicate Carries(x: O.Writer, errors: seq<SinkCall>) {
    && x.wire.limit == None && x.closed == x.wire.closed && ErrorEvents(x.wire.events) == errors
    && (x.closed ==> x.wire.events != [] && x.wire.events[|x.wire.events| - 1] == Events.Done)
  }

  lemma CarriesFrame(x: O.Writer, e: Events.Event, errors: seq<SinkCall>)
    requires Carries(x, errors) && !x.closed
    ensures Carries(x.(wire := O.Emit(x.wire, e)), errors + (if e.Error? then [Error(e.message, e.errorType)] else []))
  {
    ErrorEventsSnoc(x.wire.events, e);
  }

  lemma CarriesClear(x: O.Writer, errors: seq<SinkCall>)
    requires Carries(x, errors) && !x.closed
    ensures Carries(O.ClearSpinner(x), errors) && !O.ClearSpinner(x).closed
  {
    CarriesFrame(x, Events.Replace(""), errors);
    NoMore(errors);
  }

  lemma CarriesCall(x: O.Writer, c: SinkCall, errors: seq<SinkCall>)
    requires Carries(x, errors) && !x.closed
    ensures Carries(O.UserStep(x, c), errors + (if c.Error? then [c] else []))
    ensures O.UserStep(x, c).closed <==> c.Done?
  {
    CarriesClear(x, errors);
    NoMore(errors);
    var y := O.ClearSpinner(x);
    match c {
      case FirstChunk =>
      case Text(s) => CarriesFrame(y, Events.Text(s), errors);
      case Replace(s) => CarriesFrame(x, Events.Replace(s), errors);
      case Error(m, et) => CarriesFrame(y, Events.Error(m, et), errors);
      case Done => CarriesFrame(y, Events.Done, errors);
    }
  }

  lemma CarriesTick(s: O.Stream, errors: seq<SinkCall>)
    requires Carries(s.x, errors)
    ensures var x := O.Happen(s, O.Tick).x; Carries(x, errors) && x.closed == s.x.closed
  {
    NoMore(errors);
    if O.GateOpen(s.x) { CarriesFrame(s.x, Events.Replace(O.SpinnerFrame(s.spinTick + 1)), errors); }
  }

  /** Up to the final Done the stream carries exactly the errors of the calls, whatever the heartbeat does. */
  lemma {:induction false} ErrorsOnWire(heartbeat: bool, es: seq<O.Happening>)
    requires O.Play(None, heartbeat, es).Some?
    requires var calls := O.CallsOf(es); forall i :: 0 <= i < |calls| - 1 ==> calls[i] != Done
    ensures var x := O.Play(None, heartbeat, es).value.x; var calls := O.CallsOf(es);
            && Carries(x, Errors(calls))
            && (x.closed <==> calls != [] && calls[|calls| - 1] == Done)
  {
    if es == [] {
      assert [Events.Meta][..0] == [];
    } else {
      var n := |es| - 1;
      var calls := O.CallsOf(es[..n]);
      if es[n].Call? {
        assert O.CallsOf(es) == calls + [es[n].c];
        assert O.CallsOf(es)[..|calls|] == calls;
        assert forall i :: 0 <= i < |calls| ==> O.CallsOf(es)[i] == calls[i];
      } else {
        NoMore(calls);
      }
      ErrorsOnWire(heartbeat, es[..n]);
      var s := O.Play(None, heartbeat, es[..n]).value;
      match es[n] {
        case Call(c) => CarriesCall(s.x, c, Errors(calls));
        case Tick => CarriesTick(s, Errors(calls));
        case Leave =>
      }
    }
  }

  /** What a client understands from the bytes of a stream. */
  function Understood(events: seq<Events.Event>): seq<Events.Event> {
    Events.ParseEvents(Sse.Read(Sse.StreamBytes(Events.Frames(events))))
  }

  /** And so it reaches the client: on a healthy connection, for every interleaving with the heartbeat,
      the events that a client reads from the bytes contain exactly the errors of the sink calls, and end
      in done. */
  lemma {:induction false} ErrorsReachClient(cfg: R.Config, run: seq<R.Action>, id: nat, heartbeat: bool, es: seq<O.Happening>)
    requires R.Exec(cfg, run).Some? && R.In(R.Exec(cfg, run).value, id)
    requires var c := R.Exec(cfg, run).value.calls[id]; c.kind == TurnQueue.User && c.phase.Returned?
    requires O.Play(None, heartbeat, es).Some? && O.CallsOf(es) == R.SinkLog(R.Exec(cfg, run).value, id)
    ensures var events := Understood(O.Play(None, heartbeat, es).value.x.wire.events);
            && ErrorEvents(events) == Errors(R.SinkLog(R.Exec(cfg, run).value, id))
            && events != [] && events[|events| - 1] == Events.Done
  {
    R.PromptEndsWithDone(cfg, run, id);
    ErrorsOnWire(heartbeat, es);
    Events.EventsRoundTrip(O.Play(None, heartbeat, es).value.x.wire.events);
  }
}
