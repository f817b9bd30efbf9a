/** Why Prompt returns: with atomic eviction, an accepted user turn is always one enabled step of the
    runner, the agent or the drain closer to its end, and no other step takes it further away. */
module Progress {
  import opened Common
  import opened OptionCache
  import opened TurnQueue
  import Q = QueueRuns
  import S = SessionRuns
  import D = Shutdown
  import opened RouterRuns

  /** t is queued, or the runner has not completed it yet. */
  predicate Waits(s: S.Session, t: Turn) {
    t in s.core.queue.q || t in Q.Current(s.core.pc)
  }

  /** The position of t in a queue. */
  function Place(q: seq<Turn>, t: Turn): nat
    requires t in q
  {
    if q[0] == t then 0 else 1 + Place(q[1..], t)
  }

  /** Turns to go, steps of the current turn to go, and messages before the awaited acknowledgement. */
  datatype Measure = Measure(turns: nat, steps: nat, messages: nat)

  predicate Less(m: Measure, n: Measure) {
    m.turns < n.turns || (m.turns == n.turns && (m.steps < n.steps || (m.steps == n.steps && m.messages < n.messages)))
  }

  function Steps(pc: Q.Pc, sub: S.Sub): nat {
    match pc
    case Blocked => 1
    case Closed(_) => 1
    case Touched(_) => 2
    case Closing(_) => 3
    case Prompting(_) => if sub.Acking? then 4 else if sub.Returned? then 5 else 6
    case Admitted(_) => if sub.Ready? then 7 else 8
    case Popped(_) => 9
    case _ => 0
  }

  function Messages(s: S.Session): nat {
    if S.AwaitingAck(s) && S.End(s.core.pc.t) in s.pipe.ch then S.Distance(s.pipe.ch, S.End(s.core.pc.t)) else 0
  }

  function ToGo(s: S.Session, t: Turn): Measure {
    Measure(if t in Q.Current(s.core.pc) || t !in s.core.queue.q then 0 else 1 + Place(s.core.queue.q, t),
            Steps(s.core.pc, s.sub), Messages(s))
  }

  // ---- the queue ----

  lemma {:induction false} PlaceAppend(q: seq<Turn>, t: Turn, u: Turn)
    requires t in q
    ensures Place(q + [u], t) == Place(q, t)
  {
    if q[0] != t {
      assert (q + [u])[1..] == q[1..] + [u];
      PlaceAppend(q[1..], t, u);
    }
  }

  lemma {:induction false} PlaceDrop(q: seq<Turn>, k: nat, t: Turn)
    requires t in q && k < |q| && q[k] != t
    ensures t in Drop(q, k) && Place(Drop(q, k), t) <= Place(q, t)
  {
    if k == 0 {
      assert Drop(q, 0) == q[1..];
    } else if q[0] != t {
      PlaceDrop(q[1..], k - 1, t);
      assert Drop(q, k) == [q[0]] + Drop(q[1..], k - 1);
      assert Drop(q, k)[1..] == Drop(q[1..], k - 1);
    } else {
      assert Drop(q, k)[0] == t;
    }
  }

  lemma PlaceAfterPush(q: QueueState, t: Turn, u: Turn)
    requires t in q.q && t.kind == User
    ensures t in PushTurn(q, u).state.q && Place(PushTurn(q, u).state.q, t) <= Place(q.q, t)
  {
    var k := OldestReaction(q.q);
    PlaceAppend(q.q, t, u);
    if k < |q.q| {
      PlaceDrop(q.q, k, t);
      PlaceAppend(Drop(q.q, k), t, u);
    }
  }

  // ---- every step of a session ----

  /** No step sets t back. */
  predicate Kept(s: S.Session, s': S.Session, t: Turn) {
    Waits(s', t) && (ToGo(s', t) == ToGo(s, t) || Less(ToGo(s', t), ToGo(s, t)))
  }

  /** This step brings t closer to its end, or is its end. */
  predicate Nearer(s: S.Session, s': S.Session, t: Turn) {
    t in s'.core.closes || (Waits(s', t) && Less(ToGo(s', t), ToGo(s, t)))
  }

  lemma PushKeepsPlace(s: S.Session, t: Turn, u: Turn)
    requires Waits(s, t) && t.kind == User && S.Enabled(s, S.Core(Q.Push(u)))
    ensures Kept(s, S.Apply(s, S.Core(Q.Push(u))), t)
  {
    Q.PushKeeps(s.core, u);
    if t in s.core.queue.q { PlaceAfterPush(s.core.queue, t, u); }
  }

  lemma PopNears(s: S.Session, t: Turn)
    requires Waits(s, t) && S.Enabled(s, S.Core(Q.Pop))
    ensures Nearer(s, S.Apply(s, S.Core(Q.Pop)), t)
  {
    var q := s.core.queue.q;
    assert q == [q[0]] + q[1..];
  }

  /** An active session does not stop. */
  lemma Active(s: S.Session, t: Turn)
    requires S.AtomicInv(s) && Waits(s, t)
    ensures s.core.gc.Watching? && !Idle(s.core.queue) && !s.pipe.gone && !s.core.pc.Exited?
    ensures !Q.MutexHeld(s.core)
    ensures s.core.queue.q == [] ==> t in Q.Current(s.core.pc)
  {
  }

  lemma QueueStepNears(s: S.Session, t: Turn, c: Q.Action)
    requires Waits(s, t) && t.kind == User && S.Enabled(s, S.Core(c)) && Q.ByRunner(c) && !c.Pop?
    requires s.core.gc.Watching?
    ensures Nearer(s, S.Apply(s, S.Core(c)), t)
  {
  }

  lemma RunnerStepNears(s: S.Session, t: Turn, a: S.Action)
    requires Waits(s, t) && S.Enabled(s, a) && D.ByRunner(a) && !a.Core?
    ensures Nearer(s, S.Apply(s, a), t)
  {
  }

  lemma EmitKeeps(s: S.Session, t: Turn, a: S.Action)
    requires Waits(s, t) && S.Enabled(s, a) && a.Emit?
    ensures Kept(s, S.Apply(s, a), t)
  {
    if S.AwaitingAck(s) && S.End(s.core.pc.t) in s.pipe.ch {
      S.DistanceSend(s.pipe.ch, S.End(s.core.pc.t), S.Chunk(a.u));
    }
  }

  lemma ReceiveNears(s: S.Session, t: Turn)
    requires S.Handshake(s.core.pc, s.sub, s.pipe) && Waits(s, t) && S.Enabled(s, S.Receive)
    ensures if S.AwaitingAck(s) then Nearer(s, S.Apply(s, S.Receive), t) else Kept(s, S.Apply(s, S.Receive), t)
  {
    S.Received(s);
    if S.AwaitingAck(s) {
      S.AwaitedEndIsSent(s);
      S.AckReceive(s);
    }
  }

  /** The steps that t is waiting for. */
  predicate Helpful(s: S.Session, a: S.Action) {
    D.ByRunner(a) || (a.Receive? && S.AwaitingAck(s))
  }

  lemma StepNears(s: S.Session, t: Turn, a: S.Action)
    requires S.Handshake(s.core.pc, s.sub, s.pipe) && s.core.gc.Watching? && !Idle(s.core.queue)
    requires Waits(s, t) && t.kind == User && S.Enabled(s, a) && !S.FineGrained(a)
    ensures var s' := S.Apply(s, a);
            if Helpful(s, a) then Nearer(s, s', t) else Kept(s, s', t)
  {
    if a.Core? {
      CoreNears(s, t, a.a);
    } else if D.ByRunner(a) {
      RunnerStepNears(s, t, a);
    } else if a.Emit? {
      EmitKeeps(s, t, a);
    } else if a.Receive? {
      ReceiveNears(s, t);
    }
  }

  /** Every step of an active session. */
  lemma ActiveStep(s: S.Session, t: Turn, a: S.Action)
    requires S.AtomicInv(s) && Waits(s, t) && t.kind == User && S.Enabled(s, a) && !S.FineGrained(a)
    ensures var s' := S.Apply(s, a);
            if Helpful(s, a) then Nearer(s, s', t) else Kept(s, s', t)
  {
    Active(s, t);
    StepNears(s, t, a);
  }

  lemma CoreNears(s: S.Session, t: Turn, c: Q.Action)
    requires s.core.gc.Watching? && Waits(s, t) && t.kind == User && S.Enabled(s, S.Core(c)) && !Q.ByCollector(c)
    ensures var s' := S.Apply(s, S.Core(c));
            if Q.ByRunner(c) then Nearer(s, s', t) else Kept(s, s', t)
  {
    match c {
      case Push(u) => PushKeepsPlace(s, t, u);
      case Pop => PopNears(s, t);
      case _ => QueueStepNears(s, t, c);
    }
  }

  // ---- there is always such a step ----

  /** The next step towards the end of the turns in the session. */
  function Onward(s: S.Session, now: int): S.Action {
    match s.core.pc
    case Checking => S.Core(Q.Pop)
    case Blocked => S.Core(Q.WakeByToken)
    case Popped(t) => S.Core(if Q.TooOld(t, now) then Q.DropStale(now) else Q.Admit(now))
    case _ => D.Next(s)
  }

  lemma OnwardIsEnabled(s: S.Session, t: Turn, now: int)
    requires Q.Shape(s.core) && S.Handshake(s.core.pc, s.sub, s.pipe) && Waits(s, t)
    requires !s.pipe.gone && !s.core.pc.Exited? && !Q.MutexHeld(s.core)
    ensures S.Enabled(s, Onward(s, now)) && !S.FineGrained(Onward(s, now)) && Internal(Onward(s, now))
    ensures Timely(Onward(s, now), now)
    ensures Helpful(s, Onward(s, now)) || (Onward(s, now) == S.Receive && |s.pipe.ch| >= S.CHUNK_CAP)
  {
    if S.AwaitingAck(s) { S.AwaitedEndIsSent(s); }
  }

  lemma ActiveMoves(s: S.Session, t: Turn, now: int)
    requires S.AtomicInv(s) && Waits(s, t)
    ensures Movable(s, now)
  {
    Active(s, t);
    OnwardIsEnabled(s, t, now);
  }

  /** The session's next step can be taken; it helps, or makes room in a full channel. */
  predicate Movable(s: S.Session, now: int) {
    var b := Onward(s, now);
    && S.Enabled(s, b) && Internal(b) && Timely(b, now)
    && (Helpful(s, b) || (b == S.Receive && |s.pipe.ch| >= S.CHUNK_CAP))
  }

  /** An accepted user turn is completed or waits. */
  lemma AcceptedWaits(s: S.Session, t: Turn)
    requires S.AtomicInv(s) && t in s.core.accepted && t.kind == User
    ensures t in s.core.closes || Waits(s, t)
  {
    Q.Counts(s.core, t);
  }

  // ---- Prompt returns ----

  /** A call of Prompt that waits for its turn. */
  predicate Waiting(r: Router, id: nat) {
    In(r, id) && r.calls[id].phase.Waiting?
  }

  lemma WaitingSession(r: Router, id: nat)
    requires Inv(r) && Waiting(r, id)
    ensures var at := r.calls[id].phase.at;
            && at.sid in r.sessions && S.AtomicInv(r.sessions[at.sid].s) && at.turn.kind == User
            && (at.turn in r.sessions[at.sid].s.core.closes || Waits(r.sessions[at.sid].s, at.turn))
  {
    assert CallOk(r, id);
    var at := r.calls[id].phase.at;
    S.ReachedInv(r.sessions[at.sid].s);
    AcceptedWaits(r.sessions[at.sid].s, at.turn);
  }

  lemma WakeIsEnabled(r: Router, id: nat)
    requires Waiting(r, id) && r.calls[id].phase.at.sid in r.sessions
    requires r.calls[id].phase.at.turn in r.sessions[r.calls[id].phase.at.sid].s.core.closes
    ensures Enabled(r, Wake(id))
  {
  }

  lemma MovableStep(r: Router, sid: nat)
    requires sid in r.sessions && Movable(r.sessions[sid].s, r.now)
    ensures Enabled(r, Step(sid, Onward(r.sessions[sid].s, r.now)))
  {
  }

  /** While Prompt waits it can return, or its session can take a step that brings its turn closer to
      the end, or the drain can make room in a full channel. */
  lemma {:induction false} WaitingCallMoves(cfg: Config, run: seq<Action>, id: nat)
    requires Exec(cfg, run).Some? && Waiting(Exec(cfg, run).value, id)
    ensures var r := Exec(cfg, run).value; var at := r.calls[id].phase.at;
            || Enabled(r, Wake(id))
            || (at.sid in r.sessions && Movable(r.sessions[at.sid].s, r.now)
                && Enabled(r, Step(at.sid, Onward(r.sessions[at.sid].s, r.now))))
  {
    RunsKeepInv(cfg, run);
    var r := Exec(cfg, run).value;
    WaitingSession(r, id);
    var at := r.calls[id].phase.at;
    if at.turn in r.sessions[at.sid].s.core.closes {
      WakeIsEnabled(r, id);
    } else {
      ActiveMoves(r.sessions[at.sid].s, at.turn, r.now);
      MovableStep(r, at.sid);
    }
  }

  lemma MoveIsCoarse(r: Router, sid: nat, a: Action)
    requires Enabled(r, a) && sid in r.sessions && MoveOf(r, sid, a).Some?
    ensures !S.FineGrained(MoveOf(r, sid, a).value)
  {
  }

  /** What a router action means for a turn of one session. */
  lemma SessionNears(r: Router, sid: nat, t: Turn, a: Action)
    requires Enabled(r, a) && sid in r.sessions && S.AtomicInv(r.sessions[sid].s)
    requires Waits(r.sessions[sid].s, t) && t.kind == User
    ensures sid in Apply(r, a).sessions
    ensures var s, s' := r.sessions[sid].s, Apply(r, a).sessions[sid].s;
            match MoveOf(r, sid, a)
            case None => s' == s
            case Some(b) => if Helpful(s, b) then Nearer(s, s', t) else Kept(s, s', t)
  {
    Projection(r, sid, a);
    if MoveOf(r, sid, a).Some? {
      MoveIsCoarse(r, sid, a);
      ActiveStep(r.sessions[sid].s, t, MoveOf(r, sid, a).value);
    }
  }

  lemma WaitingNears(r: Router, id: nat, a: Action)
    requires Inv(r) && Waiting(r, id) && Enabled(r, a)
    ensures NearsOrKeeps(r, r.calls[id].phase.at, a)
  {
    WaitingSession(r, id);
    var at := r.calls[id].phase.at;
    if at.turn !in r.sessions[at.sid].s.core.closes { SessionNears(r, at.sid, at.turn, a); }
  }

  /** A session step that the turn waits for lowers what is to go, every other action leaves it or
      lowers it. */
  predicate NearsOrKeeps(r: Router, at: Placed, a: Action)
    requires Enabled(r, a)
  {
    && at.sid in r.sessions
    && var s := r.sessions[at.sid].s;
    || at.turn in s.core.closes
    || (at.sid in Apply(r, a).sessions
        && var s' := Apply(r, a).sessions[at.sid].s;
        if a.Step? && a.sid == at.sid && Helpful(s, a.a) then Nearer(s, s', at.turn)
        else s' == s || Kept(s, s', at.turn) || Nearer(s, s', at.turn))
  }

  /** And nothing that happens anywhere in the router takes the turn further away. */
  lemma {:induction false} WaitingCallNears(cfg: Config, run: seq<Action>, id: nat, a: Action)
    requires Exec(cfg, run).Some? && Waiting(Exec(cfg, run).value, id) && Enabled(Exec(cfg, run).value, a)
    ensures NearsOrKeeps(Exec(cfg, run).value, Exec(cfg, run).value.calls[id].phase.at, a)
  {
    RunsKeepInv(cfg, run);
    WaitingNears(Exec(cfg, run).value, id, a);
  }

  // ---- some continuation returns it ----

  /** Steps of the session that the call waits for, and the call's own return. */
  predicate Returning(a: Action, sid: nat, id: nat) {
    a == Wake(id) || (a.Step? && a.sid == sid && (D.ByRunner(a.a) || a.a.Receive?))
  }

  lemma StepKeepsCalls(r: Router, sid: nat, b: S.Action)
    requires Enabled(r, Step(sid, b))
    ensures Apply(r, Step(sid, b)).calls == r.calls
    ensures sid in Apply(r, Step(sid, b)).sessions
    ensures Apply(r, Step(sid, b)).sessions[sid].s == S.Apply(r.sessions[sid].s, b)
  {
  }

  lemma WakeReturns(r: Router, id: nat)
    requires Enabled(r, Wake(id))
    ensures In(Apply(r, Wake(id)), id) && Apply(r, Wake(id)).calls[id].phase.Returned?
  {
  }

  /** How far a movable session has got with t when it has made its next step. */
  lemma OnwardNears(s: S.Session, t: Turn, now: int)
    requires S.AtomicInv(s) && Waits(s, t) && t.kind == User && Movable(s, now)
    ensures var s' := S.Apply(s, Onward(s, now));
            || Nearer(s, s', t)
            || (Kept(s, s', t) && |s'.pipe.ch| < |s.pipe.ch|)
  {
    ActiveStep(s, t, Onward(s, now));
    if Onward(s, now) == S.Receive { S.Received(s); }
  }

  /** The call with its session after one more step towards its return. */
  lemma {:induction false} NextMove(cfg: Config, run: seq<Action>, id: nat) returns (a: Action)
    requires Exec(cfg, run).Some? && Waiting(Exec(cfg, run).value, id)
    ensures var r := Exec(cfg, run).value; var at := r.calls[id].phase.at;
            Enabled(r, a) && Returning(a, at.sid, id)
    ensures var r := Exec(cfg, run).value; var at := r.calls[id].phase.at;
            a != Wake(id) ==>
              && at.sid in r.sessions && at.turn !in r.sessions[at.sid].s.core.closes && Moved(r, Apply(r, a), id)
  {
    RunsKeepInv(cfg, run);
    var r := Exec(cfg, run).value;
    var at := r.calls[id].phase.at;
    WaitingSession(r, id);
    if at.turn in r.sessions[at.sid].s.core.closes {
      WakeIsEnabled(r, id);
      a := Wake(id);
    } else {
      a := MoveSession(r, at.sid, at.turn, id);
    }
  }

  /** The session of a waiting call has completed its turn or come closer to it. */
  predicate Moved(r: Router, r': Router, id: nat) {
    && Waiting(r, id) && r'.calls == r.calls
    && var at := r.calls[id].phase.at;
    && at.sid in r.sessions && at.sid in r'.sessions
    && var s, s' := r.sessions[at.sid].s, r'.sessions[at.sid].s;
    Nearer(s, s', at.turn) || (Kept(s, s', at.turn) && |s'.pipe.ch| < |s.pipe.ch|)
  }

  lemma MoveSession(r: Router, sid: nat, t: Turn, id: nat) returns (a: Action)
    requires Waiting(r, id) && r.calls[id].phase.at == Placed(sid, t)
    requires sid in r.sessions && S.AtomicInv(r.sessions[sid].s) && Waits(r.sessions[sid].s, t) && t.kind == User
    ensures Enabled(r, a) && Returning(a, sid, id) && a.Step? && Moved(r, Apply(r, a), id)
  {
    var s := r.sessions[sid].s;
    ActiveMoves(s, t, r.now);
    MovableStep(r, sid);
    a := Step(sid, Onward(s, r.now));
    StepKeepsCalls(r, sid, Onward(s, r.now));
    OnwardNears(s, t, r.now);
  }

  /** What is to go before the call can return. */
  function CallToGo(r: Router, id: nat): Measure
    requires Waiting(r, id)
  {
    var at := r.calls[id].phase.at;
    if at.sid in r.sessions && at.turn !in r.sessions[at.sid].s.core.closes then
      var m := ToGo(r.sessions[at.sid].s, at.turn);
      m.(turns := m.turns + 1)
    else Measure(0, 0, 0)
  }

  function CallLoad(r: Router, id: nat): nat
    requires Waiting(r, id)
  {
    var at := r.calls[id].phase.at;
    if at.sid in r.sessions then |r.sessions[at.sid].s.pipe.ch| else 0
  }

  lemma MovedLess(r: Router, r': Router, id: nat)
    requires Moved(r, r', id)
    requires var at := r.calls[id].phase.at; at.turn !in r.sessions[at.sid].s.core.closes
    ensures Waiting(r', id)
    ensures Less(CallToGo(r', id), CallToGo(r, id))
            || (CallToGo(r', id) == CallToGo(r, id) && CallLoad(r', id) < CallLoad(r, id))
  {
  }

  /** From every reachable state in which Prompt waits for its turn some continuation returns it, made
      of nothing but steps of the turn's session and the return itself. */
  lemma {:induction false} PromptCanReturn(cfg: Config, run: seq<Action>, id: nat) returns (more: seq<Action>)
    requires Exec(cfg, run).Some? && Waiting(Exec(cfg, run).value, id)
    ensures Exec(cfg, run + more).Some? && In(Exec(cfg, run + more).value, id)
    ensures Exec(cfg, run + more).value.calls[id].phase.Returned?
    ensures var sid := Exec(cfg, run).value.calls[id].phase.at.sid;
            forall i :: 0 <= i < |more| ==> Returning(more[i], sid, id)
    decreases CallToGo(Exec(cfg, run).value, id).turns, CallToGo(Exec(cfg, run).value, id).steps,
              CallToGo(Exec(cfg, run).value, id).messages, CallLoad(Exec(cfg, run).value, id)
  {
    var r := Exec(cfg, run).value;
    var a := NextMove(cfg, run, id);
    ExecSnoc(cfg, run, a);
    if a == Wake(id) {
      WakeReturns(r, id);
      more := [a];
    } else {
      MovedLess(r, Apply(r, a), id);
      var rest := PromptCanReturn(cfg, run + [a], id);
      more := [a] + rest;
      Assoc(run, [a], rest);
    }
  }
}
