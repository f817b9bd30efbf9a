/** Every interleaving of the router: any number of concurrent Prompt and ReportReaction calls, the
    conversation map with its install race, eviction, and everything that happens inside the
    sessions. */
module RouterRuns {
  import opened Common
  import opened Sinks
  import opened ChunkRender
  import opened OptionCache
  import opened TurnQueue
  import Q = QueueRuns
  import S = SessionRuns

  /** inlinePrompt: a system prompt is configured and the agent cannot install it itself. */
  datatype Config = Config(ttl: int, canResume: bool, inlinePrompt: bool)

  datatype Placed = Placed(sid: nat, turn: Turn)

  /** How far a Prompt or ReportReaction call has got. */
  datatype Phase =
    | Started
    | Creating(sid: nat)                  // the map had no entry; agent calls are pending
    | Installing(sid: nat, resumed: bool) // the agent session exists
    | Holding(sid: nat, seed: bool)       // getOrCreate has returned
    | Waiting(at: Placed)                 // the turn is accepted; waiting for done
    | Returned(accepted: Option<Placed>)

  /** own: the calls this goroutine itself makes on the sink. */
  datatype Call = Call(conv: string, kind: Kind, empty: bool, priorTurns: bool, opts: Options, phase: Phase, own: seq<SinkCall>)

  datatype Entry = Entry(conv: string, creator: nat, resumed: bool, lastUsed: int, s: S.Session)

  datatype Router = Router(cfg: Config, now: int, sessions: map<nat, Entry>, mapped: map<string, nat>, calls: map<nat, Call>)

  datatype Action =
    | Tick(d: nat)
    | Spawn(id: nat, conv: string, kind: Kind, empty: bool, priorTurns: bool, opts: Options)
    | RejectEmpty(id: nat)
    | Hit(id: nat)
    | Miss(id: nat, sid: nat)
    | MkdirFails(id: nat, err: string)
    | AgentFails(id: nat, err: string)
    | AgentResumes(id: nat)
    | AgentCreates(id: nat)
    | Install(id: nat)
    | Submit(id: nat)
    | Wake(id: nat)
    | Step(sid: nat, a: S.Action)
    | Evict(sid: nat)

  function ConvOf(conv: string): string {
    if conv == "" then "default" else conv
  }

  predicate MappedTo(r: Router, conv: string, sid: nat) {
    conv in r.mapped && r.mapped[conv] == sid
  }

  /** Session actions that are not initiated by a submitter or the collector. */
  predicate Internal(a: S.Action) {
    !a.Evict? && !(a.Core? && a.a.Push?) && !S.FineGrained(a)
  }

  /** Staleness is judged by the router's clock. */
  predicate Timely(a: S.Action, now: int) {
    a.Core? && (a.a.DropStale? || a.a.Admit?) ==> a.a.now == now
  }

  predicate In(r: Router, id: nat) {
    id in r.calls
  }

  predicate Enabled(r: Router, a: Action) {
    match a
    case Tick(_) => true
    case Spawn(id, _, kind, empty, prior, opts) =>
      id !in r.calls && (kind == Reaction ==> !empty && !prior && opts == NO_OPTIONS)
    case RejectEmpty(id) => In(r, id) && r.calls[id].phase.Started? && r.calls[id].empty
    case Hit(id) => In(r, id) && r.calls[id].phase.Started? && !r.calls[id].empty && r.calls[id].conv in r.mapped
    case Miss(id, sid) =>
      In(r, id) && r.calls[id].phase.Started? && !r.calls[id].empty && r.calls[id].conv !in r.mapped && sid !in r.sessions
    case MkdirFails(id, _) =>
      In(r, id) && r.calls[id].phase.Started? && !r.calls[id].empty && r.calls[id].conv !in r.mapped
    case AgentFails(id, _) => In(r, id) && r.calls[id].phase.Creating?
    case AgentResumes(id) => In(r, id) && r.calls[id].phase.Creating? && r.cfg.canResume
    case AgentCreates(id) => In(r, id) && r.calls[id].phase.Creating?
    case Install(id) =>
      && In(r, id) && r.calls[id].phase.Installing?
      && r.calls[id].phase.sid in r.sessions
      && (r.calls[id].conv in r.mapped ==> S.Enabled(r.sessions[r.calls[id].phase.sid].s, S.Evict))
    case Submit(id) =>
      && In(r, id) && r.calls[id].phase.Holding?
      && r.calls[id].phase.sid in r.sessions
      && NewTurn(r, id) !in r.sessions[r.calls[id].phase.sid].s.core.tried
    case Wake(id) =>
      && In(r, id) && r.calls[id].phase.Waiting?
      && r.calls[id].phase.at.sid in r.sessions
      && r.calls[id].phase.at.turn in r.sessions[r.calls[id].phase.at.sid].s.core.closes
    case Step(sid, b) => sid in r.sessions && Internal(b) && Timely(b, r.now) && S.Enabled(r.sessions[sid].s, b)
    case Evict(sid) =>
      && sid in r.sessions && MappedTo(r, r.sessions[sid].conv, sid)
      && S.Enabled(r.sessions[sid].s, S.Evict)
      && r.sessions[sid].lastUsed < r.now - r.cfg.ttl
  }

  /** The request a call pushes. */
  function NewTurn(r: Router, id: nat): Turn
    requires In(r, id) && r.calls[id].phase.Holding?
  {
    Turn(id, r.calls[id].kind, r.now, r.calls[id].opts, r.calls[id].phase.seed)
  }

  function Goto(r: Router, id: nat, p: Phase): Router
    requires In(r, id)
  {
    r.(calls := r.calls[id := r.calls[id].(phase := p)])
  }

  /** A Prompt call that never got a turn accepted reports an error itself; a reaction just returns. */
  function Bail(r: Router, id: nat, message: string): Router
    requires In(r, id)
  {
    var own := if r.calls[id].kind == User then [Error(message, "user_caused_error"), Done] else [];
    r.(calls := r.calls[id := r.calls[id].(phase := Returned(None), own := own)])
  }

  function SetSession(r: Router, sid: nat, s: S.Session): Router
    requires sid in r.sessions
  {
    r.(sessions := r.sessions[sid := r.sessions[sid].(s := s)])
  }

  /** install, under the router's mutex; the loser's goroutines and queue are stopped. */
  function DoInstall(r: Router, id: nat): Router
    requires Enabled(r, Install(id))
  {
    var c := r.calls[id];
    var sid := c.phase.sid;
    if c.conv in r.mapped then
      Goto(SetSession(r, sid, S.Apply(r.sessions[sid].s, S.Evict)), id, Holding(r.mapped[c.conv], false))
    else
      Goto(r.(mapped := r.mapped[c.conv := sid], sessions := r.sessions[sid := r.sessions[sid].(resumed := c.phase.resumed)]),
           id, Holding(sid, !c.phase.resumed && c.priorTurns))
  }

  function DoSubmit(r: Router, id: nat): Router
    requires Enabled(r, Submit(id))
  {
    var sid, t := r.calls[id].phase.sid, NewTurn(r, id);
    var s := r.sessions[sid].s;
    var r1 := SetSession(r, sid, S.Apply(s, S.Core(Q.Push(t))));
    if !PushTurn(s.core.queue, t).accepted then Bail(r1, id, "relay: session unavailable")
    else if t.kind == User then Goto(r1, id, Waiting(Placed(sid, t)))
    else Goto(r1, id, Returned(Some(Placed(sid, t))))
  }

  /** touch: the conversation's current session is refreshed just before a turn completes. */
  function Touch(r: Router, conv: string): Router {
    if conv in r.mapped && r.mapped[conv] in r.sessions then
      r.(sessions := r.sessions[r.mapped[conv] := r.sessions[r.mapped[conv]].(lastUsed := r.now)])
    else r
  }

  function DoStep(r: Router, sid: nat, a: S.Action): Router
    requires Enabled(r, Step(sid, a))
  {
    var r1 := SetSession(r, sid, S.Apply(r.sessions[sid].s, a));
    if a.Core? && a.a.TouchSession? then Touch(r1, r.sessions[sid].conv) else r1
  }

  function Apply(r: Router, a: Action): Router
    requires Enabled(r, a)
  {
    match a
    case Tick(d) => r.(now := r.now + d)
    case Spawn(id, conv, kind, empty, prior, opts) =>
      r.(calls := r.calls[id := Call(ConvOf(conv), kind, empty, prior, opts, Started, [])])
    case RejectEmpty(id) => Bail(r, id, "empty user message")
    case Hit(id) => Goto(r, id, Holding(r.mapped[r.calls[id].conv], false))
    case Miss(id, sid) =>
      Goto(r.(sessions := r.sessions[sid := Entry(r.calls[id].conv, id, false, r.now, S.NewSession(r.cfg.inlinePrompt))]),
           id, Creating(sid))
    case MkdirFails(id, err) => Bail(r, id, "relay: mkdir conv dir: " + err)
    case AgentFails(id, err) => Bail(r, id, "relay: acp new session: " + err)
    case AgentResumes(id) => Goto(r, id, Installing(r.calls[id].phase.sid, true))
    case AgentCreates(id) => Goto(r, id, Installing(r.calls[id].phase.sid, false))
    case Install(id) => DoInstall(r, id)
    case Submit(id) => DoSubmit(r, id)
    case Wake(id) => Goto(r, id, Returned(Some(r.calls[id].phase.at)))
    case Step(sid, b) => DoStep(r, sid, b)
    case Evict(sid) =>
      SetSession(r, sid, S.Apply(r.sessions[sid].s, S.Evict)).(mapped := r.mapped - {r.sessions[sid].conv})
  }

  // ---- the inductive invariant ----

  function PlaceOf(c: Call): Option<Placed> {
    match c.phase
    case Waiting(at) => Some(at)
    case Returned(a) => a
    case _ => None
  }

  predicate Submitted(c: Call) {
    c.phase.Waiting? || c.phase.Returned?
  }

  /** Every pushed turn belongs to a call that is past its push; accepted ones are remembered. */
  ghost predicate OwnedTurns(calls: map<nat, Call>, sid: nat, c: Q.Sys) {
    && (forall t :: t in c.tried ==> t.id in calls && Submitted(calls[t.id]))
    && (forall t :: t in c.accepted ==> t.id in calls && PlaceOf(calls[t.id]) == Some(Placed(sid, t)) && t.kind == calls[t.id].kind)
  }

  /** A session outside the map has no work. */
  ghost predicate EntryOk(r: Router, sid: nat)
    requires sid in r.sessions
  {
    var e := r.sessions[sid];
    && (if MappedTo(r, e.conv, sid) then e.s.core.gc.Watching? else Idle(e.s.core.queue))
    && OwnedTurns(r.calls, sid, e.s.core)
  }

  /** A session object that only its creating call knows. */
  predicate Private(r: Router, id: nat, sid: nat)
    requires In(r, id)
  {
    && sid in r.sessions && r.sessions[sid].conv == r.calls[id].conv && r.sessions[sid].creator == id
    && !MappedTo(r, r.sessions[sid].conv, sid) && r.sessions[sid].s.core.gc.Watching?
  }

  predicate SeedOk(r: Router, id: nat, sid: nat, seed: bool)
    requires In(r, id)
  {
    sid in r.sessions && (seed ==> r.sessions[sid].creator == id && !r.sessions[sid].resumed && r.calls[id].kind == User)
  }

  predicate PlacedOk(r: Router, id: nat, p: Placed)
    requires In(r, id)
  {
    && SeedOk(r, id, p.sid, p.turn.seeded) && p.turn.id == id && r.sessions[p.sid].conv == r.calls[id].conv
    && p.turn in r.sessions[p.sid].s.core.accepted && p.turn.opts == r.calls[id].opts
  }

  predicate CallOk(r: Router, id: nat)
    requires In(r, id)
  {
    var c := r.calls[id];
    && (c.kind == Reaction ==> !c.priorTurns)
    && match c.phase
       case Started => c.own == []
       case Creating(sid) => c.own == [] && Private(r, id, sid)
       case Installing(sid, _) => c.own == [] && Private(r, id, sid)
       case Holding(sid, seed) =>
         && c.own == [] && SeedOk(r, id, sid, seed) && r.sessions[sid].conv == c.conv
         && (MappedTo(r, c.conv, sid) || r.sessions[sid].s.core.gc.Sealed?)
       case Waiting(at) => c.own == [] && c.kind == User && PlacedOk(r, id, at) && at.turn.kind == User
       case Returned(Some(at)) =>
         && c.own == [] && PlacedOk(r, id, at) && at.turn.kind == c.kind
         && (c.kind == User ==> at.turn in r.sessions[at.sid].s.core.closes)
       case Returned(None) =>
         c.kind == User ==> |c.own| == 2 && c.own[0].Error? && c.own[0].errorType == "user_caused_error" && c.own[1] == Done
  }

  ghost predicate MapOk(r: Router) {
    forall conv :: conv in r.mapped ==> r.mapped[conv] in r.sessions && r.sessions[r.mapped[conv]].conv == conv
  }

  ghost predicate SessionsOk(sessions: map<nat, Entry>) {
    forall sid :: sid in sessions ==> S.Reached(sessions[sid].s)
  }

  ghost predicate EntriesOk(r: Router) {
    forall sid :: sid in r.sessions ==> EntryOk(r, sid)
  }

  ghost predicate CallsOk(r: Router) {
    forall id :: id in r.calls ==> CallOk(r, id)
  }

  ghost predicate Inv(r: Router) {
    MapOk(r) && SessionsOk(r.sessions) && EntriesOk(r) && CallsOk(r)
  }

  function Init(cfg: Config): Router {
    Router(cfg, 0, map[], map[], map[])
  }

  // ---- steps of a single call ----

  lemma OwnedAfterCall(calls: map<nat, Call>, id: nat, c: Call, sid: nat, core: Q.Sys)
    requires OwnedTurns(calls, sid, core)
    requires Keeps(calls, id, c)
    ensures OwnedTurns(calls[id := c], sid, core)
  {
  }

  /** c may replace the call id without disowning a turn. */
  predicate Keeps(calls: map<nat, Call>, id: nat, c: Call) {
    id in calls && Submitted(calls[id]) ==> Submitted(c) && PlaceOf(c) == PlaceOf(calls[id]) && c.kind == calls[id].kind
  }

  lemma CallOnlyEntry(r: Router, id: nat, c: Call, sid: nat)
    requires sid in r.sessions && EntryOk(r, sid) && Keeps(r.calls, id, c)
    ensures EntryOk(r.(calls := r.calls[id := c]), sid)
  {
    OwnedAfterCall(r.calls, id, c, sid, r.sessions[sid].s.core);
  }

  lemma CallOnlyEntries(r: Router, id: nat, c: Call)
    requires EntriesOk(r) && Keeps(r.calls, id, c)
    ensures EntriesOk(r.(calls := r.calls[id := c]))
  {
    var r' := r.(calls := r.calls[id := c]);
    forall sid | sid in r'.sessions
      ensures EntryOk(r', sid)
    {
      CallOnlyEntry(r, id, c, sid);
    }
  }

  lemma CallUnmoved(r: Router, r': Router, i: nat)
    requires i in r.calls && i in r'.calls && r'.calls[i] == r.calls[i]
    requires r'.sessions == r.sessions && r'.mapped == r.mapped
    requires CallOk(r, i)
    ensures CallOk(r', i)
  {
  }

  lemma CallOnlyCalls(r: Router, id: nat, c: Call)
    requires CallsOk(r) && CallOk(r.(calls := r.calls[id := c]), id)
    ensures CallsOk(r.(calls := r.calls[id := c]))
  {
    var r' := r.(calls := r.calls[id := c]);
    forall i | i in r'.calls
      ensures CallOk(r', i)
    {
      if i != id { CallUnmoved(r, r', i); }
    }
  }

  /** A step that changes one call only. */
  lemma {:induction false} CallOnly(r: Router, id: nat, c: Call)
    requires Inv(r) && Keeps(r.calls, id, c) && CallOk(r.(calls := r.calls[id := c]), id)
    ensures Inv(r.(calls := r.calls[id := c]))
  {
    CallOnlyEntries(r, id, c);
    CallOnlyCalls(r, id, c);
  }

  lemma {:induction false} BailStep(r: Router, id: nat, message: string)
    requires Inv(r) && In(r, id) && !Submitted(r.calls[id])
    ensures Inv(Bail(r, id, message))
  {
    assert CallOk(r, id);
    CallOnly(r, id, Bail(r, id, message).calls[id]);
  }

  lemma {:induction false} GotoStep(r: Router, id: nat, p: Phase)
    requires Inv(r) && In(r, id)
    requires Keeps(r.calls, id, r.calls[id].(phase := p))
    requires CallOk(Goto(r, id, p), id)
    ensures Inv(Goto(r, id, p))
  {
    CallOnly(r, id, r.calls[id].(phase := p));
  }

  // ---- steps of a single session ----

  /** Nothing the callers rely on is taken back. */
  predicate Evolved(e: Entry, e': Entry) {
    && e'.conv == e.conv && e'.creator == e.creator && e'.resumed == e.resumed
    && (forall t :: t in e.s.core.accepted ==> t in e'.s.core.accepted)
    && (forall t :: t in e.s.core.closes ==> t in e'.s.core.closes)
  }

  lemma CoreFrame(c: Q.Sys, a: Q.Action)
    requires Q.Shape(c) && S.Plain(a) && !a.Push? && Q.Enabled(c, a)
    ensures var c' := Q.Apply(c, a);
            && c'.gc == c.gc && c'.tried == c.tried && c'.accepted == c.accepted
            && (forall t :: t in c.closes ==> t in c'.closes)
            && (Idle(c.queue) ==> Idle(c'.queue))
  {
  }

  lemma ShapeOf(s: S.Session)
    requires S.Reached(s)
    ensures Q.Shape(s.core)
  {
    S.ReachedInv(s);
  }

  /** Steps inside a session accept no turn and give an idle session no work. */
  lemma {:induction false} InternalFrame(s: S.Session, a: S.Action)
    requires S.Reached(s) && Internal(a) && S.Enabled(s, a)
    ensures var s' := S.Apply(s, a);
            && s'.core.gc == s.core.gc && s'.core.tried == s.core.tried && s'.core.accepted == s.core.accepted
            && (forall t :: t in s.core.closes ==> t in s'.core.closes)
            && (Idle(s.core.queue) ==> Idle(s'.core.queue))
  {
    ShapeOf(s);
    if a.Core? { CoreFrame(s.core, a.a); }
  }

  function SetEntry(r: Router, sid: nat, e: Entry): Router {
    r.(sessions := r.sessions[sid := e])
  }

  /** A call does not notice that some session moves on. */
  lemma CallSurvives(r: Router, sid: nat, e: Entry, i: nat)
    requires sid in r.sessions && Evolved(r.sessions[sid], e) && e.s.core.gc == r.sessions[sid].s.core.gc
    requires In(r, i) && CallOk(r, i)
    ensures CallOk(SetEntry(r, sid, e), i)
  {
  }

  lemma EntryUnmoved(r: Router, sid: nat, e: Entry, other: nat)
    requires sid in r.sessions && other in r.sessions && other != sid && EntryOk(r, other)
    ensures EntryOk(SetEntry(r, sid, e), other)
  {
  }

  lemma SetSessionsOk(r: Router, sid: nat, e: Entry)
    requires SessionsOk(r.sessions) && sid in r.sessions && S.Reached(e.s)
    ensures SessionsOk(SetEntry(r, sid, e).sessions)
  {
  }

  lemma SetEntriesOk(r: Router, sid: nat, e: Entry)
    requires EntriesOk(r) && sid in r.sessions && EntryOk(SetEntry(r, sid, e), sid)
    ensures EntriesOk(SetEntry(r, sid, e))
  {
    forall other | other in SetEntry(r, sid, e).sessions
      ensures EntryOk(SetEntry(r, sid, e), other)
    {
      if other != sid { EntryUnmoved(r, sid, e, other); }
    }
  }

  lemma SetCallsOk(r: Router, sid: nat, e: Entry)
    requires CallsOk(r) && sid in r.sessions
    requires Evolved(r.sessions[sid], e) && e.s.core.gc == r.sessions[sid].s.core.gc
    ensures CallsOk(SetEntry(r, sid, e))
  {
    forall i | i in r.calls
      ensures CallOk(SetEntry(r, sid, e), i)
    {
      CallSurvives(r, sid, e, i);
    }
  }

  lemma SetMapOk(r: Router, sid: nat, e: Entry)
    requires MapOk(r) && sid in r.sessions && e.conv == r.sessions[sid].conv
    ensures MapOk(SetEntry(r, sid, e))
  {
  }

  /** A step that changes one session only, without accepting turns. */
  lemma {:induction false} EntryOnly(r: Router, sid: nat, e: Entry)
    requires Inv(r) && sid in r.sessions && S.Reached(e.s)
    requires Evolved(r.sessions[sid], e) && e.s.core.gc == r.sessions[sid].s.core.gc
    requires EntryOk(SetEntry(r, sid, e), sid)
    ensures Inv(SetEntry(r, sid, e))
  {
    SetMapOk(r, sid, e);
    SetSessionsOk(r, sid, e);
    SetEntriesOk(r, sid, e);
    SetCallsOk(r, sid, e);
  }

  /** What a step inside a session looks like from outside. */
  ghost predicate Inward(e: Entry, e': Entry) {
    && Evolved(e, e') && e'.s.core.gc == e.s.core.gc && e'.s.core.tried == e.s.core.tried
    && e'.s.core.accepted == e.s.core.accepted
    && (Idle(e.s.core.queue) ==> Idle(e'.s.core.queue))
  }

  lemma InwardEntry(r: Router, sid: nat, e: Entry)
    requires sid in r.sessions && EntryOk(r, sid) && Inward(r.sessions[sid], e)
    ensures EntryOk(SetEntry(r, sid, e), sid)
  {
  }

  lemma {:induction false} InwardStep(r: Router, sid: nat, e: Entry)
    requires Inv(r) && sid in r.sessions && Inward(r.sessions[sid], e) && S.Reached(e.s)
    ensures Inv(SetEntry(r, sid, e))
  {
    InwardEntry(r, sid, e);
    EntryOnly(r, sid, e);
  }

  lemma InternalStep(r: Router, sid: nat, a: S.Action)
    requires Inv(r) && sid in r.sessions && Internal(a) && S.Enabled(r.sessions[sid].s, a)
    ensures Inv(SetSession(r, sid, S.Apply(r.sessions[sid].s, a)))
  {
    S.ReachedStep(r.sessions[sid].s, a);
    InternalFrame(r.sessions[sid].s, a);
    InwardStep(r, sid, r.sessions[sid].(s := S.Apply(r.sessions[sid].s, a)));
  }

  lemma {:induction false} TouchStep(r: Router, conv: string)
    requires Inv(r)
    ensures Inv(Touch(r, conv))
  {
    if conv in r.mapped {
      var sid := r.mapped[conv];
      InwardStep(r, sid, r.sessions[sid].(lastUsed := r.now));
    }
  }

  lemma {:induction false} StepStep(r: Router, sid: nat, a: S.Action)
    requires Inv(r) && Enabled(r, Step(sid, a))
    ensures Inv(Apply(r, Step(sid, a)))
  {
    InternalStep(r, sid, a);
    if a.Core? && a.a.TouchSession? {
      TouchStep(SetSession(r, sid, S.Apply(r.sessions[sid].s, a)), r.sessions[sid].conv);
    }
  }

  // ---- creation ----

  lemma AddSessions(r: Router, sid: nat, e: Entry)
    requires SessionsOk(r.sessions) && sid !in r.sessions && S.Reached(e.s)
    ensures SessionsOk(SetEntry(r, sid, e).sessions)
  {
  }

  lemma AddEntries(r: Router, sid: nat, e: Entry)
    requires MapOk(r) && EntriesOk(r) && sid !in r.sessions && e.s.core == Q.INIT
    ensures EntriesOk(SetEntry(r, sid, e))
  {
    var r' := SetEntry(r, sid, e);
    forall other | other in r'.sessions
      ensures EntryOk(r', other)
    {
      if other != sid {
        assert EntryOk(r, other);
      } else {
        assert !MappedTo(r', e.conv, sid);
      }
    }
  }

  lemma AddCalls(r: Router, sid: nat, e: Entry)
    requires CallsOk(r) && sid !in r.sessions
    ensures CallsOk(SetEntry(r, sid, e))
  {
    forall i | i in r.calls
      ensures CallOk(SetEntry(r, sid, e), i)
    {
      assert CallOk(r, i);
    }
  }

  lemma AddMap(r: Router, sid: nat, e: Entry)
    requires MapOk(r) && sid !in r.sessions
    ensures MapOk(SetEntry(r, sid, e))
  {
  }

  lemma AddCreating(r: Router, id: nat, sid: nat, e: Entry)
    requires MapOk(r) && In(r, id) && CallOk(r, id) && r.calls[id].phase.Started? && sid !in r.sessions
    requires e.conv == r.calls[id].conv && e.creator == id && e.s.core == Q.INIT
    ensures CallOk(Goto(SetEntry(r, sid, e), id, Creating(sid)), id)
  {
  }

  lemma {:induction false} AddStep(r: Router, id: nat, sid: nat, e: Entry)
    requires Inv(r) && In(r, id) && r.calls[id].phase.Started? && sid !in r.sessions
    requires e.conv == r.calls[id].conv && e.creator == id && e.s.core == Q.INIT && S.Reached(e.s)
    ensures Inv(Goto(SetEntry(r, sid, e), id, Creating(sid)))
  {
    AddMap(r, sid, e);
    AddSessions(r, sid, e);
    AddEntries(r, sid, e);
    AddCalls(r, sid, e);
    AddCreating(r, id, sid, e);
    ThenGoto(SetEntry(r, sid, e), id, Creating(sid));
  }

  lemma MissStep(r: Router, id: nat, sid: nat)
    requires Inv(r) && Enabled(r, Miss(id, sid))
    ensures Inv(Apply(r, Miss(id, sid)))
  {
    S.ReachedNew(r.cfg.inlinePrompt);
    AddStep(r, id, sid, Entry(r.calls[id].conv, id, false, r.now, S.NewSession(r.cfg.inlinePrompt)));
  }

  // ---- eviction ----

  /** What an atomic stop of an idle session looks like from outside. */
  ghost predicate Sealing(e: Entry, e': Entry) {
    && e' == e.(s := e'.s) && e'.s.core.gc.Sealed? && Idle(e'.s.core.queue)
    && e'.s.core.tried == e.s.core.tried && e'.s.core.accepted == e.s.core.accepted && e'.s.core.closes == e.s.core.closes
  }

  lemma {:induction false} SealFrame(e: Entry)
    requires S.Reached(e.s) && S.Enabled(e.s, S.Evict)
    ensures S.Reached(S.Apply(e.s, S.Evict)) && Sealing(e, e.(s := S.Apply(e.s, S.Evict)))
  {
    S.ReachedStep(e.s, S.Evict);
    S.EvictEffect(e.s.core);
  }

  function Evicted(r: Router, sid: nat, e: Entry): Router
    requires sid in r.sessions
  {
    SetEntry(r, sid, e).(mapped := r.mapped - {r.sessions[sid].conv})
  }

  lemma EvictedEntries(r: Router, sid: nat, e: Entry)
    requires EntriesOk(r) && sid in r.sessions && MappedTo(r, r.sessions[sid].conv, sid) && Sealing(r.sessions[sid], e)
    ensures EntriesOk(Evicted(r, sid, e))
  {
    var r' := Evicted(r, sid, e);
    forall other | other in r'.sessions
      ensures EntryOk(r', other)
    {
      assert EntryOk(r, other);
    }
  }

  lemma EvictedCall(r: Router, sid: nat, e: Entry, i: nat)
    requires sid in r.sessions && MappedTo(r, r.sessions[sid].conv, sid) && Sealing(r.sessions[sid], e)
    requires In(r, i) && CallOk(r, i)
    ensures CallOk(Evicted(r, sid, e), i)
  {
  }

  lemma EvictedCalls(r: Router, sid: nat, e: Entry)
    requires sid in r.sessions && MappedTo(r, r.sessions[sid].conv, sid) && Sealing(r.sessions[sid], e)
    requires CallsOk(r)
    ensures CallsOk(Evicted(r, sid, e))
  {
    forall i | i in r.calls
      ensures CallOk(Evicted(r, sid, e), i)
    {
      EvictedCall(r, sid, e, i);
    }
  }

  lemma EvictedMap(r: Router, sid: nat, e: Entry)
    requires MapOk(r) && sid in r.sessions && e.conv == r.sessions[sid].conv
    ensures MapOk(Evicted(r, sid, e))
  {
  }

  lemma {:induction false} EvictStep(r: Router, sid: nat)
    requires Inv(r) && Enabled(r, Evict(sid))
    ensures Inv(Apply(r, Evict(sid)))
  {
    var e := r.sessions[sid].(s := S.Apply(r.sessions[sid].s, S.Evict));
    SealFrame(r.sessions[sid]);
    SetSessionsOk(r, sid, e);
    EvictedMap(r, sid, e);
    EvictedEntries(r, sid, e);
    EvictedCalls(r, sid, e);
  }

  // ---- the install race ----

  /** Another session already serves the conversation: the private one is sealed. */
  predicate Losing(r: Router, id: nat) {
    In(r, id) && r.calls[id].phase.Installing? && r.calls[id].phase.sid in r.sessions && r.calls[id].conv in r.mapped
  }

  lemma LostEntries(r: Router, id: nat, e: Entry)
    requires EntriesOk(r) && Losing(r, id) && CallOk(r, id) && Sealing(r.sessions[r.calls[id].phase.sid], e)
    ensures EntriesOk(SetEntry(r, r.calls[id].phase.sid, e))
  {
    var r' := SetEntry(r, r.calls[id].phase.sid, e);
    forall other | other in r'.sessions
      ensures EntryOk(r', other)
    {
      assert EntryOk(r, other);
    }
  }

  lemma LostCall(r: Router, id: nat, e: Entry, i: nat)
    requires Losing(r, id) && CallOk(r, id) && Sealing(r.sessions[r.calls[id].phase.sid], e)
    requires In(r, i) && i != id && CallOk(r, i)
    ensures CallOk(SetEntry(r, r.calls[id].phase.sid, e), i)
  {
  }

  lemma HoldsWinner(r: Router, id: nat)
    requires MapOk(r) && In(r, id) && r.calls[id].conv in r.mapped && r.calls[id].own == []
    requires r.calls[id].kind == Reaction ==> !r.calls[id].priorTurns
    ensures CallOk(Goto(r, id, Holding(r.mapped[r.calls[id].conv], false)), id)
  {
  }

  /** Like CallOnlyCalls, but the replaced call need not have been in order before. */
  lemma OthersAndOne(r: Router, id: nat, c: Call)
    requires OthersOk(r, id)
    requires CallOk(r.(calls := r.calls[id := c]), id)
    ensures CallsOk(r.(calls := r.calls[id := c]))
  {
    var r' := r.(calls := r.calls[id := c]);
    forall i | i in r'.calls
      ensures CallOk(r', i)
    {
      if i != id { CallUnmoved(r, r', i); }
    }
  }

  /** Every other call is in order. */
  ghost predicate OthersOk(r: Router, id: nat) {
    forall i :: i in r.calls && i != id ==> CallOk(r, i)
  }

  /** The session part of a step is done; the acting call moves to its next phase. */
  lemma {:induction false} ThenGoto(r: Router, id: nat, p: Phase)
    requires In(r, id) && !Submitted(r.calls[id]) && MapOk(r) && SessionsOk(r.sessions) && EntriesOk(r)
    requires OthersOk(r, id)
    requires CallOk(Goto(r, id, p), id)
    ensures Inv(Goto(r, id, p))
  {
    CallOnlyEntries(r, id, r.calls[id].(phase := p));
    OthersAndOne(r, id, r.calls[id].(phase := p));
  }

  lemma LostCalls(r: Router, id: nat, e: Entry)
    requires Losing(r, id) && CallsOk(r) && Sealing(r.sessions[r.calls[id].phase.sid], e)
    ensures OthersOk(SetEntry(r, r.calls[id].phase.sid, e), id)
  {
    forall i | i in r.calls && i != id
      ensures CallOk(SetEntry(r, r.calls[id].phase.sid, e), i)
    {
      LostCall(r, id, e, i);
    }
  }

  lemma {:induction false} LostStep(r: Router, id: nat, sid: nat, e: Entry)
    requires Inv(r) && Losing(r, id) && sid == r.calls[id].phase.sid && Sealing(r.sessions[sid], e) && S.Reached(e.s)
    ensures Inv(Goto(SetEntry(r, sid, e), id, Holding(r.mapped[r.calls[id].conv], false)))
  {
    assert CallOk(r, id);
    SetMapOk(r, sid, e);
    SetSessionsOk(r, sid, e);
    LostEntries(r, id, e);
    LostCalls(r, id, e);
    HoldsWinner(SetEntry(r, sid, e), id);
    ThenGoto(SetEntry(r, sid, e), id, Holding(r.mapped[r.calls[id].conv], false));
  }

  lemma {:induction false} LoseStep(r: Router, id: nat)
    requires Inv(r) && Enabled(r, Install(id)) && Losing(r, id)
    ensures Inv(Apply(r, Install(id)))
  {
    var sid := r.calls[id].phase.sid;
    SealFrame(r.sessions[sid]);
    LostStep(r, id, sid, r.sessions[sid].(s := S.Apply(r.sessions[sid].s, S.Evict)));
  }

  /** The conversation has no session: the private one enters the map. */
  predicate Winning(r: Router, id: nat) {
    In(r, id) && r.calls[id].phase.Installing? && r.calls[id].phase.sid in r.sessions && r.calls[id].conv !in r.mapped
  }

  function Won(r: Router, id: nat): Router
    requires Winning(r, id)
  {
    var c := r.calls[id];
    r.(mapped := r.mapped[c.conv := c.phase.sid],
       sessions := r.sessions[c.phase.sid := r.sessions[c.phase.sid].(resumed := c.phase.resumed)])
  }

  lemma WonEntries(r: Router, id: nat)
    requires EntriesOk(r) && Winning(r, id) && CallOk(r, id)
    ensures EntriesOk(Won(r, id))
  {
    forall other | other in Won(r, id).sessions
      ensures EntryOk(Won(r, id), other)
    {
      assert EntryOk(r, other);
    }
  }

  lemma WonCall(r: Router, id: nat, i: nat)
    requires Winning(r, id) && CallOk(r, id) && In(r, i) && i != id && CallOk(r, i)
    ensures CallOk(Won(r, id), i)
  {
  }

  lemma WonMap(r: Router, id: nat)
    requires MapOk(r) && Winning(r, id) && CallOk(r, id)
    ensures MapOk(Won(r, id))
  {
  }

  lemma WonSessions(r: Router, id: nat)
    requires SessionsOk(r.sessions) && Winning(r, id)
    ensures SessionsOk(Won(r, id).sessions)
  {
  }

  lemma WonSelf(r: Router, id: nat)
    requires Winning(r, id) && CallOk(r, id)
    ensures var c := r.calls[id];
            CallOk(Goto(Won(r, id), id, Holding(c.phase.sid, !c.phase.resumed && c.priorTurns)), id)
  {
  }

  lemma WonCalls(r: Router, id: nat)
    requires Winning(r, id) && CallsOk(r)
    ensures OthersOk(Won(r, id), id)
  {
    forall i | i in r.calls && i != id
      ensures CallOk(Won(r, id), i)
    {
      WonCall(r, id, i);
    }
  }

  lemma {:induction false} WinStep(r: Router, id: nat)
    requires Inv(r) && Winning(r, id)
    ensures var c := r.calls[id];
            Inv(Goto(Won(r, id), id, Holding(c.phase.sid, !c.phase.resumed && c.priorTurns)))
  {
    assert CallOk(r, id);
    WonMap(r, id);
    WonSessions(r, id);
    WonEntries(r, id);
    WonSelf(r, id);
    WonCalls(r, id);
    ThenGoto(Won(r, id), id, Holding(r.calls[id].phase.sid, !r.calls[id].phase.resumed && r.calls[id].priorTurns));
  }

  // ---- submitting a turn ----

  /** What a push looks like from outside. */
  ghost predicate Pushed(e: Entry, e': Entry, t: Turn, ok: bool) {
    && Evolved(e, e') && e' == e.(s := e'.s) && e'.s.core.gc == e.s.core.gc
    && e'.s.core.tried == e.s.core.tried + {t}
    && e'.s.core.accepted == (if ok then e.s.core.accepted + [t] else e.s.core.accepted)
    && (e.s.core.gc.Sealed? && Idle(e.s.core.queue) ==> !ok && Idle(e'.s.core.queue))
  }

  lemma {:induction false} PushFrame(e: Entry, t: Turn)
    requires S.Reached(e.s) && S.Enabled(e.s, S.Core(Q.Push(t)))
    ensures var s' := S.Apply(e.s, S.Core(Q.Push(t)));
            S.Reached(s') && Pushed(e, e.(s := s'), t, PushTurn(e.s.core.queue, t).accepted)
  {
    S.ReachedStep(e.s, S.Core(Q.Push(t)));
    ShapeOf(e.s);
    Q.PushHistory(e.s.core, t);
    S.CoreClosesGrowAll(e.s.core, Q.Push(t));
  }

  lemma OwnedAfterPush(calls: map<nat, Call>, id: nat, c: Call, sid: nat, core: Q.Sys, core': Q.Sys, t: Turn)
    requires OwnedTurns(calls, sid, core) && id in calls && !Submitted(calls[id])
    requires Submitted(c) && t.id == id && core'.tried == core.tried + {t}
    requires core'.accepted == core.accepted
             || (core'.accepted == core.accepted + [t] && PlaceOf(c) == Some(Placed(sid, t)) && t.kind == c.kind)
    ensures OwnedTurns(calls[id := c], sid, core')
  {
    OwnedAfterCall(calls, id, c, sid, core);
  }

  /** The state after a push and the submitter's reaction to its answer. */
  function Pushing(r: Router, id: nat, e: Entry, ok: bool): Router
    requires In(r, id) && r.calls[id].phase.Holding?
  {
    var sid, t := r.calls[id].phase.sid, NewTurn(r, id);
    var r1 := SetEntry(r, sid, e);
    if !ok then Bail(r1, id, "relay: session unavailable")
    else if t.kind == User then Goto(r1, id, Waiting(Placed(sid, t)))
    else Goto(r1, id, Returned(Some(Placed(sid, t))))
  }

  predicate Submitting(r: Router, id: nat) {
    In(r, id) && r.calls[id].phase.Holding? && r.calls[id].phase.sid in r.sessions
  }

  lemma SubmitEntry(r: Router, id: nat, e: Entry, ok: bool)
    requires Submitting(r, id) && CallOk(r, id) && EntryOk(r, r.calls[id].phase.sid)
    requires Pushed(r.sessions[r.calls[id].phase.sid], e, NewTurn(r, id), ok)
    ensures EntryOk(Pushing(r, id, e, ok), r.calls[id].phase.sid)
  {
    var sid, r' := r.calls[id].phase.sid, Pushing(r, id, e, ok);
    OwnedAfterPush(r.calls, id, r'.calls[id], sid, r.sessions[sid].s.core, e.s.core, NewTurn(r, id));
  }

  lemma SubmitOther(r: Router, id: nat, e: Entry, ok: bool, other: nat)
    requires Submitting(r, id) && other in r.sessions && other != r.calls[id].phase.sid && EntryOk(r, other)
    ensures EntryOk(Pushing(r, id, e, ok), other)
  {
    OwnedAfterCall(r.calls, id, Pushing(r, id, e, ok).calls[id], other, r.sessions[other].s.core);
  }

  lemma SubmitSelf(r: Router, id: nat, e: Entry, ok: bool)
    requires Submitting(r, id) && CallOk(r, id) && Pushed(r.sessions[r.calls[id].phase.sid], e, NewTurn(r, id), ok)
    ensures CallOk(Pushing(r, id, e, ok), id)
  {
  }

  lemma {:induction false} SubmitOtherCall(r: Router, id: nat, e: Entry, ok: bool, i: nat)
    requires Submitting(r, id) && In(r, i) && i != id && CallOk(r, i)
    requires Pushed(r.sessions[r.calls[id].phase.sid], e, NewTurn(r, id), ok)
    ensures CallOk(Pushing(r, id, e, ok), i)
  {
    CallSurvives(r, r.calls[id].phase.sid, e, i);
    CallUnmoved(SetEntry(r, r.calls[id].phase.sid, e), Pushing(r, id, e, ok), i);
  }

  lemma {:induction false} SubmitEntries(r: Router, id: nat, e: Entry, ok: bool)
    requires Submitting(r, id) && CallOk(r, id) && EntriesOk(r)
    requires Pushed(r.sessions[r.calls[id].phase.sid], e, NewTurn(r, id), ok)
    ensures EntriesOk(Pushing(r, id, e, ok))
  {
    forall other | other in Pushing(r, id, e, ok).sessions
      ensures EntryOk(Pushing(r, id, e, ok), other)
    {
      if other == r.calls[id].phase.sid { SubmitEntry(r, id, e, ok); } else { SubmitOther(r, id, e, ok, other); }
    }
  }

  lemma {:induction false} SubmitCalls(r: Router, id: nat, e: Entry, ok: bool)
    requires Submitting(r, id) && CallsOk(r)
    requires Pushed(r.sessions[r.calls[id].phase.sid], e, NewTurn(r, id), ok)
    ensures CallsOk(Pushing(r, id, e, ok))
  {
    forall i | i in r.calls
      ensures CallOk(Pushing(r, id, e, ok), i)
    {
      if i == id { SubmitSelf(r, id, e, ok); } else { SubmitOtherCall(r, id, e, ok, i); }
    }
  }

  lemma {:induction false} SubmitStep(r: Router, id: nat)
    requires Inv(r) && Enabled(r, Submit(id))
    ensures Inv(Apply(r, Submit(id)))
  {
    var sid, t := r.calls[id].phase.sid, NewTurn(r, id);
    var e := r.sessions[sid].(s := S.Apply(r.sessions[sid].s, S.Core(Q.Push(t))));
    var ok := PushTurn(r.sessions[sid].s.core.queue, t).accepted;
    assert CallOk(r, id);
    PushFrame(r.sessions[sid], t);
    SetMapOk(r, sid, e);
    SetSessionsOk(r, sid, e);
    SubmitEntries(r, id, e, ok);
    SubmitCalls(r, id, e, ok);
  }

  // ---- whole runs ----

  lemma {:induction false} BailSteps(r: Router, a: Action)
    requires Inv(r) && Enabled(r, a) && (a.RejectEmpty? || a.MkdirFails? || a.AgentFails?)
    ensures Inv(Apply(r, a))
  {
    match a {
      case RejectEmpty(id) => BailStep(r, id, "empty user message");
      case MkdirFails(id, err) => BailStep(r, id, "relay: mkdir conv dir: " + err);
      case AgentFails(id, err) => BailStep(r, id, "relay: acp new session: " + err);
    }
  }

  lemma {:induction false} AgentReadyStep(r: Router, id: nat, resumed: bool)
    requires Inv(r) && In(r, id) && r.calls[id].phase.Creating?
    ensures Inv(Goto(r, id, Installing(r.calls[id].phase.sid, resumed)))
  {
    assert CallOk(r, id);
    GotoStep(r, id, Installing(r.calls[id].phase.sid, resumed));
  }

  lemma {:induction false} WakeStep(r: Router, id: nat)
    requires Inv(r) && Enabled(r, Wake(id))
    ensures Inv(Goto(r, id, Returned(Some(r.calls[id].phase.at))))
  {
    assert CallOk(r, id);
    GotoStep(r, id, Returned(Some(r.calls[id].phase.at)));
  }

  lemma {:induction false} GotoSteps(r: Router, a: Action)
    requires Inv(r) && Enabled(r, a) && (a.AgentResumes? || a.AgentCreates? || a.Wake?)
    ensures Inv(Apply(r, a))
  {
    match a {
      case AgentResumes(id) => AgentReadyStep(r, id, true);
      case AgentCreates(id) => AgentReadyStep(r, id, false);
      case Wake(id) => WakeStep(r, id);
    }
  }

  lemma {:induction false} HitStep(r: Router, id: nat)
    requires Inv(r) && Enabled(r, Hit(id))
    ensures Inv(Apply(r, Hit(id)))
  {
    assert CallOk(r, id);
    HoldsWinner(r, id);
    GotoStep(r, id, Holding(r.mapped[r.calls[id].conv], false));
  }

  lemma {:induction false} SpawnStep(r: Router, a: Action)
    requires Inv(r) && a.Spawn? && Enabled(r, a)
    ensures Inv(Apply(r, a))
  {
    CallOnly(r, a.id, Call(ConvOf(a.conv), a.kind, a.empty, a.priorTurns, a.opts, Started, []));
  }

  lemma TickEntry(r: Router, now: int, sid: nat)
    requires sid in r.sessions && EntryOk(r, sid)
    ensures EntryOk(r.(now := now), sid)
  {
  }

  lemma TickStep(r: Router, d: nat)
    requires Inv(r)
    ensures Inv(Apply(r, Tick(d)))
  {
    var r' := Apply(r, Tick(d));
    forall sid | sid in r'.sessions
      ensures EntryOk(r', sid)
    {
      TickEntry(r, r'.now, sid);
    }
    forall i | i in r'.calls
      ensures CallOk(r', i)
    {
      CallUnmoved(r, r', i);
    }
  }

  lemma {:induction false} InstallStep(r: Router, id: nat)
    requires Inv(r) && Enabled(r, Install(id))
    ensures Inv(Apply(r, Install(id)))
  {
    if r.calls[id].conv in r.mapped { LoseStep(r, id); } else { WinStep(r, id); }
  }

  /** Actions that change the map or a session. */
  predicate OnSessions(a: Action) {
    a.Miss? || a.Install? || a.Submit? || a.Step? || a.Evict?
  }

  lemma SessionsStep(r: Router, a: Action)
    requires Inv(r) && Enabled(r, a) && OnSessions(a)
    ensures Inv(Apply(r, a))
  {
    match a {
      case Miss(id, sid) => MissStep(r, id, sid);
      case Install(id) => InstallStep(r, id);
      case Submit(id) => SubmitStep(r, id);
      case Step(sid, b) => StepStep(r, sid, b);
      case Evict(sid) => EvictStep(r, sid);
    }
  }

  lemma {:induction false} FirstSteps(r: Router, a: Action)
    requires Inv(r) && Enabled(r, a) && (a.Tick? || a.Spawn? || a.Hit?)
    ensures Inv(Apply(r, a))
  {
    match a {
      case Tick(d) => TickStep(r, d);
      case Spawn(_, _, _, _, _, _) => SpawnStep(r, a);
      case Hit(id) => HitStep(r, id);
    }
  }

  lemma InvStep(r: Router, a: Action)
    requires Inv(r) && Enabled(r, a)
    ensures Inv(Apply(r, a))
  {
    if OnSessions(a) {
      SessionsStep(r, a);
    } else if a.Tick? || a.Spawn? || a.Hit? {
      FirstSteps(r, a);
    } else if a.RejectEmpty? || a.MkdirFails? || a.AgentFails? {
      BailSteps(r, a);
    } else {
      GotoSteps(r, a);
    }
  }

  function Exec(cfg: Config, run: seq<Action>): Option<Router> {
    if run == [] then Some(Init(cfg))
    else
      var n := |run| - 1;
      match Exec(cfg, run[..n])
      case None => None
      case Some(u) => if Enabled(u, run[n]) then Some(Apply(u, run[n])) else None
  }

  lemma {:induction false} RunsKeepInv(cfg: Config, run: seq<Action>)
    requires Exec(cfg, run).Some?
    ensures Inv(Exec(cfg, run).value)
  {
    if run != [] {
      var n := |run| - 1;
      RunsKeepInv(cfg, run[..n]);
      InvStep(Exec(cfg, run[..n]).value, run[n]);
    }
  }

  // ---- what every run guarantees ----

  /** Install and Submit are never held up: their guards always hold. */
  lemma GuardsHold(cfg: Config, run: seq<Action>, id: nat)
    requires Exec(cfg, run).Some? && In(Exec(cfg, run).value, id)
    ensures var r := Exec(cfg, run).value;
            && (r.calls[id].phase.Installing? ==> Enabled(r, Install(id)))
            && (r.calls[id].phase.Holding? ==> Enabled(r, Submit(id)))
  {
    RunsKeepInv(cfg, run);
    var r := Exec(cfg, run).value;
    assert CallOk(r, id);
    if r.calls[id].phase.Installing? || r.calls[id].phase.Holding? {
      assert EntryOk(r, r.calls[id].phase.sid);
    }
  }

  /** A session with a queued or in-flight turn is the one the map holds for its conversation. */
  lemma {:induction false} WorkIsMapped(cfg: Config, run: seq<Action>, sid: nat)
    requires Exec(cfg, run).Some? && sid in Exec(cfg, run).value.sessions
    ensures var r := Exec(cfg, run).value; var e := r.sessions[sid];
            e.s.core.queue.q != [] || e.s.core.queue.inFlight ==> MappedTo(r, e.conv, sid) && e.s.core.gc.Watching?
  {
    RunsKeepInv(cfg, run);
    assert EntryOk(Exec(cfg, run).value, sid);
  }

  predicate Prompting(e: Entry) {
    e.s.core.pc.Prompting? && e.s.sub.Running?
  }

  /** At most one Agent.Prompt is running per conversation, whatever was evicted, re-created or lost
      an install race. */
  lemma OnePromptPerConversation(cfg: Config, run: seq<Action>, a: nat, b: nat)
    requires Exec(cfg, run).Some?
    requires a in Exec(cfg, run).value.sessions && b in Exec(cfg, run).value.sessions
    requires Prompting(Exec(cfg, run).value.sessions[a]) && Prompting(Exec(cfg, run).value.sessions[b])
    requires Exec(cfg, run).value.sessions[a].conv == Exec(cfg, run).value.sessions[b].conv
    ensures a == b
  {
    RunsKeepInv(cfg, run);
    var r := Exec(cfg, run).value;
    PromptingIsInFlight(r.sessions[a].s);
    PromptingIsInFlight(r.sessions[b].s);
    WorkIsMapped(cfg, run, a);
    WorkIsMapped(cfg, run, b);
  }

  lemma PromptingIsInFlight(s: S.Session)
    requires S.Reached(s) && s.core.pc.Prompting?
    ensures s.core.queue.inFlight
  {
    ShapeOf(s);
  }

  /** Everything the sink of a call has received: from its own goroutine and from the session that
      accepted its turn. */
  function SinkLog(r: Router, id: nat): seq<SinkCall>
    requires In(r, id)
  {
    match PlaceOf(r.calls[id])
    case None => r.calls[id].own
    case Some(at) => r.calls[id].own + (if at.sid in r.sessions then S.LogOf(r.sessions[at.sid].s.book.log, at.turn) else [])
  }

  /** What a turn contributes to its sink from first to last. */
  function TurnCalls(notice: Option<string>, chunks: seq<Update>, hidden: bool, o: S.Outcome): seq<SinkCall> {
    S.NoticeCalls(notice) + DrainCalls(chunks, hidden) + S.FinalCalls(o)
  }

  lemma TurnCallsEnd(notice: Option<string>, chunks: seq<Update>, hidden: bool, o: S.Outcome)
    ensures DoneOnceLast(TurnCalls(notice, chunks, hidden, o))
  {
    FirstChunkOnce(chunks, hidden);
    DoneAfter(S.NoticeCalls(notice) + DrainCalls(chunks, hidden), S.FinalCalls(o));
  }

  /** A returned Prompt call whose turn was accepted: the turn has run to its end, and this is all its
      sink got. */
  predicate ServedCall(r: Router, id: nat)
    requires In(r, id)
  {
    && r.calls[id].phase.Returned? && r.calls[id].phase.accepted.Some?
    && var at := r.calls[id].phase.accepted.value;
    && at.sid in r.sessions && at.turn.kind == User && at.turn in r.sessions[at.sid].s.core.closes
    && var s := r.sessions[at.sid].s;
    && at.turn in s.book.outcomes && at.turn in s.book.notices
    && SinkLog(r, id) == TurnCalls(s.book.notices[at.turn], S.Attributed(s.pipe.hist, at.turn),
                                   S.Hide(at.turn), s.book.outcomes[at.turn])
  }

  lemma ReturnedIsServed(r: Router, id: nat)
    requires SessionsOk(r.sessions) && In(r, id) && CallOk(r, id) && r.calls[id].kind == User
    requires r.calls[id].phase.Returned? && r.calls[id].phase.accepted.Some?
    ensures ServedCall(r, id)
  {
    var at := r.calls[id].phase.accepted.value;
    S.ReachedInv(r.sessions[at.sid].s);
    S.SinkOfCompleted(r.sessions[at.sid].s, at.turn);
    NoMore(S.LogOf(r.sessions[at.sid].s.book.log, at.turn));
  }

  /** When Prompt returns for an accepted turn, the turn has been served. */
  lemma {:induction false} AcceptedPrompt(cfg: Config, run: seq<Action>, id: nat)
    requires Exec(cfg, run).Some? && In(Exec(cfg, run).value, id)
    requires var c := Exec(cfg, run).value.calls[id]; c.kind == User && c.phase.Returned? && c.phase.accepted.Some?
    ensures ServedCall(Exec(cfg, run).value, id)
  {
    RunsKeepInv(cfg, run);
    ReturnedIsServed(Exec(cfg, run).value, id);
  }

  /** When Prompt has returned, on whatever path, its sink has been given exactly one Done, last. */
  lemma {:induction false} PromptEndsWithDone(cfg: Config, run: seq<Action>, id: nat)
    requires Exec(cfg, run).Some? && In(Exec(cfg, run).value, id)
    requires var c := Exec(cfg, run).value.calls[id]; c.kind == User && c.phase.Returned?
    ensures DoneOnceLast(SinkLog(Exec(cfg, run).value, id))
  {
    RunsKeepInv(cfg, run);
    ReturnedEndsWithDone(Exec(cfg, run).value, id);
  }

  lemma {:induction false} ReturnedEndsWithDone(r: Router, id: nat)
    requires Inv(r) && In(r, id) && r.calls[id].kind == User && r.calls[id].phase.Returned?
    ensures DoneOnceLast(SinkLog(r, id))
  {
    if r.calls[id].phase.accepted.Some? {
      var at := r.calls[id].phase.accepted.value;
      ReturnedIsServed(r, id);
      var s := r.sessions[at.sid].s;
      TurnCallsEnd(s.book.notices[at.turn], S.Attributed(s.pipe.hist, at.turn), S.Hide(at.turn), s.book.outcomes[at.turn]);
    } else {
      assert CallOk(r, id);
    }
  }

  /** Nobody but the session that accepted a turn writes to its sink. */
  lemma NoForeignWrites(cfg: Config, run: seq<Action>, sid: nat, t: Turn)
    requires Exec(cfg, run).Some? && sid in Exec(cfg, run).value.sessions
    requires S.LogOf(Exec(cfg, run).value.sessions[sid].s.book.log, t) != []
    ensures var r := Exec(cfg, run).value;
            In(r, t.id) && PlaceOf(r.calls[t.id]) == Some(Placed(sid, t))
  {
    RunsKeepInv(cfg, run);
    var r := Exec(cfg, run).value;
    S.ReachedInv(r.sessions[sid].s);
    S.WrittenIsAccepted(r.sessions[sid].s, t);
    assert EntryOk(r, sid);
  }

  lemma SealedInSession(s: S.Session, t: Turn, a: S.Action)
    requires S.Reached(s) && t in s.core.closes && S.Enabled(s, a)
    ensures S.LogOf(S.Apply(s, a).book.log, t) == S.LogOf(s.book.log, t)
  {
    S.ReachedInv(s);
    S.SealedStep(s, t, a);
  }

  /** Nothing is written to the sink after Prompt has returned. */
  lemma {:induction false} QuietAfterReturn(cfg: Config, run: seq<Action>, id: nat, a: Action)
    requires Exec(cfg, run).Some? && In(Exec(cfg, run).value, id) && Enabled(Exec(cfg, run).value, a)
    requires var c := Exec(cfg, run).value.calls[id]; c.kind == User && c.phase.Returned?
    ensures In(Apply(Exec(cfg, run).value, a), id)
    ensures SinkLog(Apply(Exec(cfg, run).value, a), id) == SinkLog(Exec(cfg, run).value, id)
    ensures Apply(Exec(cfg, run).value, a).calls[id] == Exec(cfg, run).value.calls[id]
  {
    RunsKeepInv(cfg, run);
    var r := Exec(cfg, run).value;
    assert CallOk(r, id);
    CallAtRest(r, id, a);
    if r.calls[id].phase.accepted.Some? {
      var at := r.calls[id].phase.accepted.value;
      SessionAtRest(r, at.sid, at.turn, a);
    }
  }

  function TimeOf(a: Action): nat {
    if a.Tick? then a.d else 0
  }

  /** Such actions change the clock or one call. */
  lemma OnlyCalls(r: Router, a: Action)
    requires !OnSessions(a) && Enabled(r, a)
    ensures var r' := Apply(r, a); r' == r.(now := r.now + TimeOf(a), calls := r'.calls)
  {
  }

  lemma RestOfSession(r: Router, id: nat, a: Action)
    requires In(r, id) && r.calls[id].phase.Returned? && Enabled(r, a) && (a.Step? || a.Evict?)
    ensures Apply(r, a).calls == r.calls
  {
  }

  lemma RestOfCall(r: Router, id: nat, a: Action)
    requires In(r, id) && r.calls[id].phase.Returned? && Enabled(r, a) && (a.Miss? || a.Install? || a.Submit?)
    ensures In(Apply(r, a), id) && Apply(r, a).calls[id] == r.calls[id]
  {
  }

  lemma RestOfOther(r: Router, id: nat, a: Action)
    requires In(r, id) && r.calls[id].phase.Returned? && Enabled(r, a) && !OnSessions(a)
    ensures In(Apply(r, a), id) && Apply(r, a).calls[id] == r.calls[id]
  {
  }

  lemma CallAtRest(r: Router, id: nat, a: Action)
    requires In(r, id) && r.calls[id].phase.Returned? && Enabled(r, a)
    ensures In(Apply(r, a), id) && Apply(r, a).calls[id] == r.calls[id]
  {
    if a.Step? || a.Evict? {
      RestOfSession(r, id, a);
    } else if OnSessions(a) {
      RestOfCall(r, id, a);
    } else {
      RestOfOther(r, id, a);
    }
  }

  /** What an action of the router means inside one session. */
  function MoveOf(r: Router, sid: nat, a: Action): Option<S.Action>
    requires Enabled(r, a)
  {
    match a
    case Step(x, b) => if x == sid then Some(b) else None
    case Evict(x) => if x == sid then Some(S.Evict) else None
    case Install(id) => if r.calls[id].conv in r.mapped && r.calls[id].phase.sid == sid then Some(S.Evict) else None
    case Submit(id) => if r.calls[id].phase.sid == sid then Some(S.Core(Q.Push(NewTurn(r, id)))) else None
    case _ => None
  }

  /** At most one step: the one that MoveOf names. */
  predicate Projects(r: Router, sid: nat, a: Action)
    requires Enabled(r, a) && sid in r.sessions
  {
    && sid in Apply(r, a).sessions
    && var s, s' := r.sessions[sid].s, Apply(r, a).sessions[sid].s;
    match MoveOf(r, sid, a)
    case None => s' == s
    case Some(b) => S.Enabled(s, b) && s' == S.Apply(s, b)
  }

  lemma ProjectStep(r: Router, sid: nat, a: Action)
    requires (a.Step? || a.Evict?) && Enabled(r, a) && sid in r.sessions
    ensures Projects(r, sid, a)
  {
  }

  lemma ProjectCall(r: Router, sid: nat, a: Action)
    requires (a.Miss? || a.Install? || a.Submit?) && Enabled(r, a) && sid in r.sessions
    ensures Projects(r, sid, a)
  {
  }

  lemma ProjectOther(r: Router, sid: nat, a: Action)
    requires !OnSessions(a) && Enabled(r, a) && sid in r.sessions
    ensures Projects(r, sid, a)
  {
    OnlyCalls(r, a);
  }

  /** The router's runs project to session runs: each action makes at most one step in a session. */
  lemma Projection(r: Router, sid: nat, a: Action)
    requires Enabled(r, a) && sid in r.sessions
    ensures sid in Apply(r, a).sessions
    ensures var s, s' := r.sessions[sid].s, Apply(r, a).sessions[sid].s;
            match MoveOf(r, sid, a)
            case None => s' == s
            case Some(b) => S.Enabled(s, b) && s' == S.Apply(s, b)
  {
    if a.Step? || a.Evict? {
      ProjectStep(r, sid, a);
    } else if OnSessions(a) {
      ProjectCall(r, sid, a);
    } else {
      ProjectOther(r, sid, a);
    }
  }

  lemma {:induction false} SessionAtRest(r: Router, sid: nat, t: Turn, a: Action)
    requires SessionsOk(r.sessions) && sid in r.sessions && t in r.sessions[sid].s.core.closes && Enabled(r, a)
    ensures sid in Apply(r, a).sessions
    ensures S.LogOf(Apply(r, a).sessions[sid].s.book.log, t) == S.LogOf(r.sessions[sid].s.book.log, t)
  {
    Projection(r, sid, a);
    if MoveOf(r, sid, a).Some? {
      SealedInSession(r.sessions[sid].s, t, MoveOf(r, sid, a).value);
    }
  }

  lemma SeededByCreator(r: Router, sid: nat, t: Turn)
    requires CallsOk(r) && sid in r.sessions && EntryOk(r, sid) && t in r.sessions[sid].s.core.accepted && t.seeded
    ensures t.id == r.sessions[sid].creator && !r.sessions[sid].resumed && t.kind == User
    ensures In(r, t.id) && PlaceOf(r.calls[t.id]) == Some(Placed(sid, t))
  {
    assert CallOk(r, t.id);
  }

  /** At most one accepted turn of a session object is seeded with the transcript: its creator's, and
      only if the agent session is new. */
  lemma {:induction false} SeededOnce(cfg: Config, run: seq<Action>, sid: nat, t: Turn, u: Turn)
    requires Exec(cfg, run).Some? && sid in Exec(cfg, run).value.sessions
    requires var ts := Exec(cfg, run).value.sessions[sid].s.core.accepted; t in ts && u in ts && t.seeded && u.seeded
    ensures t == u
    ensures var r := Exec(cfg, run).value;
            t.id == r.sessions[sid].creator && !r.sessions[sid].resumed && t.kind == User
  {
    RunsKeepInv(cfg, run);
    SeededByCreator(Exec(cfg, run).value, sid, t);
    SeededByCreator(Exec(cfg, run).value, sid, u);
  }

  lemma NeedStep(r: Router, sid: nat, a: Action)
    requires Enabled(r, a) && sid in Apply(r, a).sessions
    requires sid in r.sessions ==> r.sessions[sid].s.needsInline == r.cfg.inlinePrompt
    ensures Apply(r, a).sessions[sid].s.needsInline == r.cfg.inlinePrompt
  {
    if sid in r.sessions {
      Projection(r, sid, a);
      if MoveOf(r, sid, a).Some? { S.NeedKept(r.sessions[sid].s, MoveOf(r, sid, a).value); }
    } else {
      OnlyMissAdds(r, sid, a);
    }
  }

  lemma OnlyMissAdds(r: Router, sid: nat, a: Action)
    requires Enabled(r, a) && sid in Apply(r, a).sessions && sid !in r.sessions
    ensures a.Miss? && Apply(r, a).sessions[sid].s == S.NewSession(r.cfg.inlinePrompt)
  {
    if !OnSessions(a) {
      OnlyCalls(r, a);
    } else if !a.Miss? {
      NoneAdded(r, a);
    }
  }

  lemma NoneAdded(r: Router, a: Action)
    requires Enabled(r, a) && OnSessions(a) && !a.Miss?
    ensures Apply(r, a).sessions.Keys == r.sessions.Keys
  {
  }

  lemma ConfigKept(r: Router, a: Action)
    requires Enabled(r, a)
    ensures Apply(r, a).cfg == r.cfg
  {
    if !OnSessions(a) { OnlyCalls(r, a); }
  }

  /** A session needs the inline prompt iff the configuration asks for it. */
  lemma {:induction false} NeedIsConfigured(cfg: Config, run: seq<Action>, sid: nat)
    requires Exec(cfg, run).Some?
    ensures Exec(cfg, run).value.cfg == cfg
    ensures var r := Exec(cfg, run).value; sid in r.sessions ==> r.sessions[sid].s.needsInline == cfg.inlinePrompt
  {
    if run != [] {
      var n := |run| - 1;
      var r := Exec(cfg, run[..n]).value;
      NeedIsConfigured(cfg, run[..n], sid);
      ConfigKept(r, run[n]);
      if sid in Apply(r, run[n]).sessions { NeedStep(r, sid, run[n]); }
    }
  }

  /** In every session exactly the first user turn carries the inline system prompt, if a system prompt
      is configured that the agent cannot install itself. */
  lemma {:induction false} InlineOncePerSession(cfg: Config, run: seq<Action>, sid: nat)
    requires Exec(cfg, run).Some? && sid in Exec(cfg, run).value.sessions
    ensures S.CarriedOnce(cfg.inlinePrompt, Exec(cfg, run).value.sessions[sid].s.prepared)
  {
    RunsKeepInv(cfg, run);
    NeedIsConfigured(cfg, run, sid);
    CarriedWhenReached(Exec(cfg, run).value.sessions[sid].s);
  }

  lemma {:induction false} CarriedWhenReached(s: S.Session)
    requires S.Reached(s)
    ensures S.CarriedOnce(s.needsInline, s.prepared)
  {
    var needsInline, inner :| S.Atomic(inner) && S.Exec(needsInline, inner) == Some(s);
    S.InlineOnce(needsInline, inner);
  }

  // ---- what a call's turn and its sink say ----

  /** The turn of a call carries the call's own options. */
  lemma {:induction false} TurnOfCall(cfg: Config, run: seq<Action>, id: nat)
    requires Exec(cfg, run).Some? && In(Exec(cfg, run).value, id)
    requires PlaceOf(Exec(cfg, run).value.calls[id]).Some?
    ensures var c := Exec(cfg, run).value.calls[id]; var t := PlaceOf(c).value.turn;
            t.id == id && t.kind == c.kind && t.opts == c.opts
  {
    RunsKeepInv(cfg, run);
    assert CallOk(Exec(cfg, run).value, id);
  }

  /** A Prompt call that never got a turn accepted has told its sink so, and nothing else. */
  lemma {:induction false} RejectionIsReported(cfg: Config, run: seq<Action>, id: nat)
    requires Exec(cfg, run).Some? && In(Exec(cfg, run).value, id)
    requires var c := Exec(cfg, run).value.calls[id]; c.kind == User && c.phase == Returned(None)
    ensures exists m :: SinkLog(Exec(cfg, run).value, id) == [Error(m, "user_caused_error"), Done]
  {
    RunsKeepInv(cfg, run);
    var r := Exec(cfg, run).value;
    assert CallOk(r, id);
    var own := r.calls[id].own;
    assert own == [Error(own[0].message, "user_caused_error"), Done];
  }

  // ---- rejection and eviction ----

  /** A user turn is turned away exactly when its session was evicted between look-up and push. */
  lemma UserPromptRejectedIff(cfg: Config, run: seq<Action>, id: nat)
    requires Exec(cfg, run).Some? && Enabled(Exec(cfg, run).value, Submit(id))
    requires Exec(cfg, run).value.calls[id].kind == User
    ensures var r := Exec(cfg, run).value;
            Apply(r, Submit(id)).calls[id].phase == Returned(None) <==> !MappedTo(r, r.calls[id].conv, r.calls[id].phase.sid)
  {
    RunsKeepInv(cfg, run);
    RejectedIffUnmapped(Exec(cfg, run).value, id);
  }

  lemma {:induction false} RejectedIffUnmapped(r: Router, id: nat)
    requires Inv(r) && Enabled(r, Submit(id)) && r.calls[id].kind == User
    ensures Apply(r, Submit(id)).calls[id].phase == Returned(None)
            <==> !MappedTo(r, r.calls[id].conv, r.calls[id].phase.sid)
  {
    var sid := r.calls[id].phase.sid;
    assert CallOk(r, id);
    assert EntryOk(r, sid);
    ShapeOf(r.sessions[sid].s);
    UserPushRejected(r.sessions[sid].s.core.queue, NewTurn(r, id));
  }

  lemma UserPushRejected(q: QueueState, t: Turn)
    requires t.kind == User
    ensures PushTurn(q, t).accepted <==> !q.stopped
  {
  }

  /** The time that passes during a run. */
  function Elapsed(run: seq<Action>): nat {
    if run == [] then 0
    else Elapsed(run[..|run| - 1]) + TimeOf(run[|run| - 1])
  }

  ghost predicate UsedBefore(sessions: map<nat, Entry>, now: int) {
    forall sid :: sid in sessions ==> sessions[sid].lastUsed <= now
  }

  /** Time and every session's time of last use only move forward. */
  ghost predicate ClockMoves(r: Router, r': Router, d: nat) {
    && r'.now == r.now + d && r'.cfg == r.cfg && UsedBefore(r'.sessions, r'.now)
    && forall sid :: sid in r.sessions ==> sid in r'.sessions && r'.sessions[sid].lastUsed >= r.sessions[sid].lastUsed
  }

  lemma ClockOfStep(r: Router, a: Action)
    requires a.Step? && Enabled(r, a) && UsedBefore(r.sessions, r.now)
    ensures ClockMoves(r, Apply(r, a), TimeOf(a))
  {
  }

  lemma ClockOfSubmit(r: Router, a: Action)
    requires (a.Submit? || a.Install?) && Enabled(r, a) && UsedBefore(r.sessions, r.now)
    ensures ClockMoves(r, Apply(r, a), TimeOf(a))
  {
  }

  lemma ClockOfCreation(r: Router, a: Action)
    requires (a.Miss? || a.Evict?) && Enabled(r, a) && UsedBefore(r.sessions, r.now)
    ensures ClockMoves(r, Apply(r, a), TimeOf(a))
  {
  }

  lemma ClockOfCall(r: Router, a: Action)
    requires !OnSessions(a) && Enabled(r, a) && UsedBefore(r.sessions, r.now)
    ensures ClockMoves(r, Apply(r, a), TimeOf(a))
  {
    OnlyCalls(r, a);
  }

  lemma ClockStep(r: Router, a: Action)
    requires Enabled(r, a) && UsedBefore(r.sessions, r.now)
    ensures ClockMoves(r, Apply(r, a), TimeOf(a))
  {
    if a.Step? {
      ClockOfStep(r, a);
    } else if a.Submit? || a.Install? {
      ClockOfSubmit(r, a);
    } else if a.Miss? || a.Evict? {
      ClockOfCreation(r, a);
    } else {
      ClockOfCall(r, a);
    }
  }

  lemma {:induction false} RunsKeepClock(cfg: Config, run: seq<Action>)
    requires Exec(cfg, run).Some?
    ensures var r := Exec(cfg, run).value; UsedBefore(r.sessions, r.now) && r.cfg == cfg
  {
    if run != [] {
      var n := |run| - 1;
      RunsKeepClock(cfg, run[..n]);
      ClockStep(Exec(cfg, run[..n]).value, run[n]);
    }
  }

  /** What a longer run does to the clock and to a session's time of last use. */
  lemma {:induction false} ClockRuns(cfg: Config, run: seq<Action>, more: seq<Action>, sid: nat)
    requires Exec(cfg, run + more).Some?
    ensures Exec(cfg, run).Some?
    ensures var r, r' := Exec(cfg, run).value, Exec(cfg, run + more).value;
            && r'.now == r.now + Elapsed(more)
            && (sid in r.sessions ==> sid in r'.sessions && r'.sessions[sid].lastUsed >= r.sessions[sid].lastUsed)
  {
    if more == [] {
      NoMore(run);
    } else {
      var n := |more| - 1;
      assert (run + more)[..|run + more| - 1] == run + more[..n];
      ClockRuns(cfg, run, more[..n], sid);
      RunsKeepClock(cfg, run + more[..n]);
      ClockStep(Exec(cfg, run + more[..n]).value, more[n]);
    }
  }

  /** A session with a turn in flight is mapped. */
  lemma ClosingIsMapped(r: Router, sid: nat)
    requires sid in r.sessions && EntryOk(r, sid) && Q.Shape(r.sessions[sid].s.core)
    requires r.sessions[sid].s.core.pc.Closing?
    ensures MappedTo(r, r.sessions[sid].conv, sid)
  {
  }

  lemma TouchRefreshes(r: Router, sid: nat)
    requires Enabled(r, Step(sid, S.Core(Q.TouchSession))) && MappedTo(r, r.sessions[sid].conv, sid)
    ensures var r' := Apply(r, Step(sid, S.Core(Q.TouchSession)));
            sid in r'.sessions && r'.sessions[sid].lastUsed == r'.now
  {
  }

  lemma TouchIsClosing(r: Router, sid: nat)
    requires Enabled(r, Step(sid, S.Core(Q.TouchSession)))
    ensures sid in r.sessions && r.sessions[sid].s.core.pc.Closing?
  {
  }

  /** The touch at the end of a turn refreshes the session that ran it. */
  lemma CompletionRefreshes(r: Router, sid: nat)
    requires Enabled(r, Step(sid, S.Core(Q.TouchSession))) && SessionsOk(r.sessions) && EntriesOk(r)
    ensures var r' := Apply(r, Step(sid, S.Core(Q.TouchSession)));
            sid in r'.sessions && r'.sessions[sid].lastUsed == r'.now
  {
    TouchIsClosing(r, sid);
    ShapeOf(r.sessions[sid].s);
    ClosingIsMapped(r, sid);
    TouchRefreshes(r, sid);
  }

  lemma NotDue(r: Router, sid: nat)
    requires sid in r.sessions ==> r.sessions[sid].lastUsed >= r.now - r.cfg.ttl
    ensures !Enabled(r, Evict(sid))
  {
  }

  lemma ExecSnoc(cfg: Config, run: seq<Action>, a: Action)
    requires Exec(cfg, run).Some? && Enabled(Exec(cfg, run).value, a)
    ensures Exec(cfg, run + [a]) == Some(Apply(Exec(cfg, run).value, a))
  {
    assert (run + [a])[..|run|] == run;
  }

  /** No session is evicted within its time to live after the touch at the end of one of its turns. */
  lemma EvictionWaits(cfg: Config, run: seq<Action>, sid: nat, more: seq<Action>)
    requires Exec(cfg, run).Some? && Enabled(Exec(cfg, run).value, Step(sid, S.Core(Q.TouchSession)))
    requires Exec(cfg, run + [Step(sid, S.Core(Q.TouchSession))] + more).Some? && Elapsed(more) <= cfg.ttl
    ensures !Enabled(Exec(cfg, run + [Step(sid, S.Core(Q.TouchSession))] + more).value, Evict(sid))
  {
    var longer := run + [Step(sid, S.Core(Q.TouchSession))];
    RunsKeepInv(cfg, run);
    CompletionRefreshes(Exec(cfg, run).value, sid);
    ExecSnoc(cfg, run, Step(sid, S.Core(Q.TouchSession)));
    ClockRuns(cfg, longer, more, sid);
    RunsKeepClock(cfg, longer + more);
    NotDue(Exec(cfg, longer + more).value, sid);
  }
}
