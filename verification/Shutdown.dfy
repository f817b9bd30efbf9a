/** How a session comes to rest after the collector has stopped it, with the drain's acknowledgements
    taken into account and without assuming that eviction is atomic: exactly when its runner exits,
    and which turns can keep it from exiting. */
module Shutdown {
  import opened Common
  import opened OptionCache
  import opened TurnQueue
  import Q = QueueRuns
  import W = EvictionWindow
  import opened SessionRuns

  // ---- turns that hang ----

  /** The turn that the runner holds cannot come to its end without the drain. */
  predicate NeedsDrain(s: Session) {
    || (s.core.pc.Popped? && s.core.pc.t.kind == User)
    || s.core.pc.Admitted?
    || (s.core.pc.Prompting? && !(s.sub.Acking? && s.pipe.acked))
  }

  /** The drain has left without having acknowledged that turn's end marker. */
  predicate Doomed(s: Session) {
    s.pipe.gone && NeedsDrain(s)
  }

  lemma DoomedStep(s: Session, a: Action)
    requires Doomed(s) && Enabled(s, a)
    ensures Doomed(Apply(s, a)) && Q.Current(Apply(s, a).core.pc) == Q.Current(s.core.pc)
  {
    match a {
      case Core(c) => DoomedCore(s, c);
      case Evict => EvictEffect(s.core);
      case _ =>
    }
  }

  lemma DoomedCore(s: Session, c: Q.Action)
    requires Doomed(s) && Enabled(s, Core(c))
    ensures Doomed(Apply(s, Core(c))) && Q.Current(Apply(s, Core(c)).core.pc) == Q.Current(s.core.pc)
  {
    if c.Push? {
      Q.PushKeeps(s.core, c.turn);
    } else if Q.ByCollector(c) {
      Q.CollectorKeeps(s.core, c);
    }
  }

  /** From then on, whatever happens: the runner keeps that turn, its done channel stays open, and the
      runner does not exit. */
  lemma {:induction false} DoomedForever(needsInline: bool, run: seq<Action>, more: seq<Action>)
    requires Exec(needsInline, run + more).Some?
    ensures Exec(needsInline, run).Some?
    ensures var s, s' := Exec(needsInline, run).value, Exec(needsInline, run + more).value;
            Doomed(s) ==>
              && Doomed(s') && !s'.core.pc.Exited? && Q.Current(s'.core.pc) == Q.Current(s.core.pc)
              && forall t :: t in Q.Current(s.core.pc) ==> t !in s'.core.closes
  {
    RunsKeepInv(needsInline, run + more);
    StaysDoomed(needsInline, run, more);
    forall t | t in Q.Current(Exec(needsInline, run + more).value.core.pc)
      ensures t !in Exec(needsInline, run + more).value.core.closes
    {
      CompletedIsReleased(Exec(needsInline, run + more).value.core, t);
    }
  }

  lemma {:induction false} StaysDoomed(needsInline: bool, run: seq<Action>, more: seq<Action>)
    requires Exec(needsInline, run + more).Some?
    ensures Exec(needsInline, run).Some?
    ensures var s, s' := Exec(needsInline, run).value, Exec(needsInline, run + more).value;
            Doomed(s) ==> Doomed(s') && Q.Current(s'.core.pc) == Q.Current(s.core.pc)
  {
    if more == [] {
      NoMore(run);
    } else {
      var n := |more| - 1;
      assert (run + more)[..|run + more| - 1] == run + more[..n];
      StaysDoomed(needsInline, run, more[..n]);
      if Doomed(Exec(needsInline, run).value) {
        DoomedStep(Exec(needsInline, run + more[..n]).value, more[n]);
      }
    }
  }

  // ---- the runner of a sealed session ----

  /** The runner's own steps, and the return of Agent.Prompt. */
  predicate ByRunner(a: Action) {
    (a.Core? && Q.ByRunner(a.a)) || a.Prepare? || a.SendBegin? || a.Return? || a.SendEnd? || a.Finish?
  }

  /** A bound on them once the queue is sealed. */
  function StepsLeft(s: Session): nat {
    (if s.core.queue.token then 2 else 0) +
    match s.core.pc
    case Exited => 0
    case Blocked => 1
    case Checking => 2
    case Closed(_) => 3
    case Touched(_) => 4
    case Closing(_) => 5
    case Prompting(_) => if s.sub.Acking? then 6 else if s.sub.Returned? then 7 else 8
    case Admitted(_) => if s.sub.Ready? then 9 else 10
    case Popped(_) => 11
  }

  lemma SealedCoreStep(s: Session, c: Q.Action)
    requires Q.Shape(s.core) && s.core.gc.Sealed? && Enabled(s, Core(c)) && Q.ByRunner(c)
    ensures Apply(s, Core(c)).core.gc.Sealed? && StepsLeft(Apply(s, Core(c))) < StepsLeft(s)
  {
  }

  lemma SealedOwnStep(s: Session, a: Action)
    requires s.core.gc.Sealed? && Enabled(s, a) && ByRunner(a) && !a.Core?
    ensures Apply(s, a).core.gc.Sealed? && StepsLeft(Apply(s, a)) < StepsLeft(s)
  {
  }

  lemma SealedPush(c: Q.Sys, t: Turn)
    requires Q.Shape(c) && c.gc.Sealed? && Q.Enabled(c, Q.Push(t))
    ensures var c' := Q.Apply(c, Q.Push(t)); c'.gc.Sealed? && c'.queue == c.queue && c'.pc == c.pc
  {
  }

  lemma SealedCollector(c: Q.Sys, a: Q.Action)
    requires c.gc.Sealed? && Q.Enabled(c, a) && Q.ByCollector(a)
    ensures var c' := Q.Apply(c, a); c'.gc.Sealed? && c'.queue == c.queue && c'.pc == c.pc
  {
  }

  lemma SealedOtherStep(s: Session, a: Action)
    requires Q.Shape(s.core) && s.core.gc.Sealed? && Enabled(s, a) && !ByRunner(a)
    ensures Apply(s, a).core.gc.Sealed? && StepsLeft(Apply(s, a)) == StepsLeft(s)
  {
    if a.Core? {
      if a.a.Push? { SealedPush(s.core, a.a.turn); } else { SealedCollector(s.core, a.a); }
    }
  }

  /** Only the runner's steps change the bound, and each of them lowers it. */
  lemma {:induction false} SealedRunnerStops(needsInline: bool, run: seq<Action>, a: Action)
    requires Exec(needsInline, run).Some? && Exec(needsInline, run).value.core.gc.Sealed?
    requires Enabled(Exec(needsInline, run).value, a)
    ensures var s := Exec(needsInline, run).value;
            && Apply(s, a).core.gc.Sealed?
            && (if ByRunner(a) then StepsLeft(Apply(s, a)) < StepsLeft(s) else StepsLeft(Apply(s, a)) == StepsLeft(s))
  {
    RunsKeepInv(needsInline, run);
    var s := Exec(needsInline, run).value;
    if !ByRunner(a) {
      SealedOtherStep(s, a);
    } else if a.Core? {
      SealedCoreStep(s, a.a);
    } else {
      SealedOwnStep(s, a);
    }
  }

  /** A step that takes the runner towards its exit: its own next one; the drain's if the runner waits
      for room in the channel or for the acknowledgement; the collector's if it waits for the mutex. */
  function Next(s: Session): Action {
    match s.core.pc
    case Blocked => Core(Q.WakeByStop)
    case Popped(t) =>
      if t.kind == User then Core(Q.Admit(t.enqueuedAt)) else Core(Q.DropStale(t.enqueuedAt + Q.REACTION_MAX_AGE + 1))
    case Admitted(_) => if s.sub.Ready? then Sending(s, SendBegin) else Prepare(Answers(None, true))
    case Prompting(_) =>
      if s.sub.Acking? then (if s.pipe.acked then Finish else Receive)
      else if s.sub.Returned? then Sending(s, SendEnd)
      else Return(EndTurn)
    case Closing(_) => if s.core.stopping != [] then Core(Q.GcCloseOne) else Core(Q.TouchSession)
    case Touched(_) => Core(Q.CloseDone)
    case Closed(_) => Core(Q.FinishInFlight)
    case _ => Core(Q.SeeEmpty)
  }

  function Sending(s: Session, a: Action): Action {
    if |s.pipe.ch| < CHUNK_CAP then a else Receive
  }

  /** What the exit of a runner may take. */
  predicate Helpful(a: Action) {
    ByRunner(a) || a == Receive || a == Core(Q.GcCloseOne)
  }

  /** The messages in the channel and the requests that stop has still to complete. */
  function Load(s: Session): nat {
    |s.pipe.ch| + |s.core.stopping|
  }

  lemma NextIsEnabled(s: Session)
    requires Q.Shape(s.core) && Handshake(s.core.pc, s.sub, s.pipe)
    requires s.core.gc.Sealed? && !s.core.pc.Exited? && !Doomed(s)
    ensures Enabled(s, Next(s)) && Helpful(Next(s))
  {
    if AwaitingAck(s) { AwaitedEndIsSent(s); }
  }

  lemma NextAvoidsDoom(s: Session)
    requires Handshake(s.core.pc, s.sub, s.pipe) && !s.core.pc.Exited? && !Doomed(s) && Enabled(s, Next(s))
    ensures !Doomed(Apply(s, Next(s)))
  {
  }

  lemma NextUnloads(s: Session)
    requires Enabled(s, Next(s)) && !ByRunner(Next(s))
    ensures Load(Apply(s, Next(s))) < Load(s)
  {
  }

  /** Unless its turn hangs, the runner of a sealed session can always be helped on: by its own step,
      by the agent's answer, by the drain, or by the collector finishing its stop. */
  lemma {:induction false} SealedRunnerMoves(needsInline: bool, run: seq<Action>)
    requires Exec(needsInline, run).Some? && Exec(needsInline, run).value.core.gc.Sealed?
    requires !Exec(needsInline, run).value.core.pc.Exited? && !Doomed(Exec(needsInline, run).value)
    ensures var s := Exec(needsInline, run).value;
            && Enabled(s, Next(s)) && Helpful(Next(s)) && !Doomed(Apply(s, Next(s)))
            && (!ByRunner(Next(s)) ==> Load(Apply(s, Next(s))) < Load(s))
  {
    RunsKeepInv(needsInline, run);
    NextIsEnabled(Exec(needsInline, run).value);
    NextAvoidsDoom(Exec(needsInline, run).value);
    if !ByRunner(Next(Exec(needsInline, run).value)) { NextUnloads(Exec(needsInline, run).value); }
  }

  /** The run can be continued to a state in which the runner has exited. */
  ghost predicate Exits(needsInline: bool, run: seq<Action>, more: seq<Action>) {
    Exec(needsInline, run + more).Some? && Exec(needsInline, run + more).value.core.pc.Exited?
  }

  lemma {:induction false} ContinueToExit(needsInline: bool, run: seq<Action>) returns (more: seq<Action>)
    requires Exec(needsInline, run).Some? && Exec(needsInline, run).value.core.gc.Sealed?
    requires !Doomed(Exec(needsInline, run).value)
    ensures Exits(needsInline, run, more)
    ensures forall i :: 0 <= i < |more| ==> Helpful(more[i])
    decreases StepsLeft(Exec(needsInline, run).value), Load(Exec(needsInline, run).value)
  {
    var s := Exec(needsInline, run).value;
    if s.core.pc.Exited? {
      more := [];
      NoMore(run);
    } else {
      var a := Next(s);
      SealedRunnerMoves(needsInline, run);
      SealedRunnerStops(needsInline, run, a);
      ExecSnoc(needsInline, run, a);
      var rest := ContinueToExit(needsInline, run + [a]);
      more := [a] + rest;
      Assoc(run, [a], rest);
    }
  }

  /** The exact condition, at the granularity of the code: the runner of a sealed session can still
      exit if and only if it does not hold a turn whose end marker the drain had not taken when it
      left. If it does not hold one, its own steps, the agent's answer, the drain and the end of the
      collector's stop suffice. */
  lemma {:induction false} RunnerExitsIff(needsInline: bool, run: seq<Action>)
    requires Exec(needsInline, run).Some? && Exec(needsInline, run).value.core.gc.Sealed?
    ensures (exists more :: Exits(needsInline, run, more)) <==> !Doomed(Exec(needsInline, run).value)
  {
    if Doomed(Exec(needsInline, run).value) {
      forall more
        ensures !Exits(needsInline, run, more)
      {
        if Exec(needsInline, run + more).Some? { DoomedForever(needsInline, run, more); }
      }
    } else {
      var more := ContinueToExit(needsInline, run);
    }
  }

  // ---- with atomic eviction ----

  lemma IdleIsNotDoomed(s: Session)
    requires AtomicInv(s)
    ensures !Doomed(s)
    ensures s.core.gc.Sealed? ==> s.core.pc.Checking? || s.core.pc.Blocked? || s.core.pc.Exited?
  {
  }

  /** With atomic eviction no turn ever hangs, and the runner of an evicted session holds none: it
      exits within four steps, none of which waits for the drain. */
  lemma {:induction false} AtomicRunnerExits(needsInline: bool, run: seq<Action>)
    requires Atomic(run) && Exec(needsInline, run).Some?
    ensures !Doomed(Exec(needsInline, run).value)
    ensures Exec(needsInline, run).value.core.gc.Sealed? ==>
              && StepsLeft(Exec(needsInline, run).value) <= 4
              && exists more :: Exits(needsInline, run, more)
  {
    AtomicRunsKeepInv(needsInline, run);
    IdleIsNotDoomed(Exec(needsInline, run).value);
    if Exec(needsInline, run).value.core.gc.Sealed? { RunnerExitsIff(needsInline, run); }
  }

  // ---- projection to the queue ----

  /** What an action of the session does to its queue. */
  function CoreOf(a: Action): seq<Q.Action> {
    match a
    case Core(c) => [c]
    case SendBegin => [Q.StartPrompt]
    case Finish => [Q.EndPrompt]
    case Evict => [Q.GcSawIdle, Q.GcSignal, Q.GcStop]
    case _ => []
  }

  function CoreRun(run: seq<Action>): seq<Q.Action> {
    if run == [] then [] else CoreRun(run[..|run| - 1]) + CoreOf(run[|run| - 1])
  }

  lemma CoreEvicts(run: seq<Q.Action>)
    requires Q.Exec(Q.INIT, run).Some? && Q.Exec(Q.INIT, run).value.gc.Watching? && Idle(Q.Exec(Q.INIT, run).value.queue)
    ensures Q.Exec(Q.INIT, run + CoreOf(Evict)) == Some(EvictCore(Q.Exec(Q.INIT, run).value))
  {
    Q.ExecSnoc(Q.INIT, run, Q.GcSawIdle);
    Q.ExecSnoc(Q.INIT, run + [Q.GcSawIdle], Q.GcSignal);
    Q.ExecSnoc(Q.INIT, run + [Q.GcSawIdle] + [Q.GcSignal], Q.GcStop);
    assert run + [Q.GcSawIdle] + [Q.GcSignal] + [Q.GcStop] == run + CoreOf(Evict);
  }

  lemma CoreMoves(run: seq<Q.Action>, s: Session, a: Action)
    requires Q.Exec(Q.INIT, run) == Some(s.core) && Enabled(s, a)
    ensures Q.Exec(Q.INIT, run + CoreOf(a)) == Some(Apply(s, a).core)
  {
    match a {
      case Core(c) => Q.ExecSnoc(Q.INIT, run, c);
      case SendBegin => Q.ExecSnoc(Q.INIT, run, Q.StartPrompt);
      case Finish => Q.ExecSnoc(Q.INIT, run, Q.EndPrompt);
      case Evict => CoreEvicts(run);
      case _ => NoMore(run);
    }
  }

  /** Session runs project to queue runs. */
  lemma {:induction false} CoreRunIsARun(needsInline: bool, run: seq<Action>)
    requires Exec(needsInline, run).Some?
    ensures Q.Exec(Q.INIT, CoreRun(run)) == Some(Exec(needsInline, run).value.core)
  {
    if run != [] {
      var n := |run| - 1;
      CoreRunIsARun(needsInline, run[..n]);
      CoreMoves(CoreRun(run[..n]), Exec(needsInline, run[..n]).value, run[n]);
    }
  }

  /** Conversely every turn that needs the drain after the stop channels are closed can be made to
      hang: the drain is free to leave at any moment. */
  lemma {:induction false} LateTurnMayHang(needsInline: bool, run: seq<Action>)
    requires Exec(needsInline, run).Some? && DrainStopped(Exec(needsInline, run).value)
    requires NeedsDrain(Exec(needsInline, run).value)
    ensures Doomed(Exec(needsInline, run).value) || (Exec(needsInline, run + [DrainExit]).Some?
                                                     && Doomed(Exec(needsInline, run + [DrainExit]).value))
  {
    if !Doomed(Exec(needsInline, run).value) { ExecSnoc(needsInline, run, DrainExit); }
  }

  // ---- a run in which the runner hangs ----

  /** Queue actions as session actions. */
  function Lift(run: seq<Q.Action>): seq<Action> {
    if run == [] then [] else Lift(run[..|run| - 1]) + [Core(run[|run| - 1])]
  }

  lemma {:induction false} LiftIsARun(needsInline: bool, run: seq<Q.Action>)
    requires Q.Exec(Q.INIT, run).Some? && forall i :: 0 <= i < |run| ==> Plain(run[i]) || Q.ByCollector(run[i])
    ensures Exec(needsInline, Lift(run)) == Some(NewSession(needsInline).(core := Q.Exec(Q.INIT, run).value))
  {
    if run != [] {
      var n := |run| - 1;
      LiftIsARun(needsInline, run[..n]);
      ExecSnoc(needsInline, Lift(run[..n]), Core(run[n]));
    }
  }

  /** The end marker is sent after the drain has been told to stop; the drain leaves; the queue is
      sealed. The runner waits for ever, and so does the submitter of t. */
  lemma {:induction false} RunnerHangs(needsInline: bool, t: Turn) returns (run: seq<Action>)
    requires t.kind == User
    ensures run == Lift([Q.GcSawIdle, Q.Push(t), Q.GcSignal, Q.Pop])
                   + [Core(Q.Admit(0)), Prepare(Answers(None, true)), SendBegin, Return(EndTurn), SendEnd, DrainExit, Core(Q.GcStop)]
    ensures Exec(needsInline, run).Some?
    ensures var s := Exec(needsInline, run).value;
            && s.core.gc.Sealed? && AwaitingAck(s) && s.core.pc.t == t && Doomed(s)
            && !exists more :: Exits(needsInline, run, more)
  {
    run := PoppedLate(needsInline, t);
    run := Prompted(needsInline, run, t);
    run := LeftAlone(needsInline, run, t);
    RunnerExitsIff(needsInline, run);
  }

  lemma {:induction false} PoppedLate(needsInline: bool, t: Turn) returns (run: seq<Action>)
    requires t.kind == User
    ensures run == Lift([Q.GcSawIdle, Q.Push(t), Q.GcSignal, Q.Pop]) && Exec(needsInline, run).Some?
    ensures var s := Exec(needsInline, run).value;
            s.core.pc == Q.Popped(t) && s.core.gc.Signalled? && s.sub.Fresh? && s.pipe.ch == [] && !s.pipe.gone
  {
    var late := W.LateTurnAfterSignal(t);
    LiftIsARun(needsInline, late);
    run := Lift(late);
  }

  lemma Prompted(needsInline: bool, run: seq<Action>, t: Turn) returns (longer: seq<Action>)
    requires Exec(needsInline, run).Some? && t.kind == User
    requires var s := Exec(needsInline, run).value;
             s.core.pc == Q.Popped(t) && s.core.gc.Signalled? && s.sub.Fresh? && s.pipe.ch == [] && !s.pipe.gone
    ensures longer == run + [Core(Q.Admit(0)), Prepare(Answers(None, true)), SendBegin]
    ensures Exec(needsInline, longer).Some?
    ensures var s := Exec(needsInline, longer).value;
            s.core.pc == Q.Prompting(t) && s.core.gc.Signalled? && s.sub.Running? && |s.pipe.ch| == 1 && !s.pipe.gone
  {
    ExecSnoc(needsInline, run, Core(Q.Admit(0)));
    longer := run + [Core(Q.Admit(0))];
    ExecSnoc(needsInline, longer, Prepare(Answers(None, true)));
    longer := longer + [Prepare(Answers(None, true))];
    ExecSnoc(needsInline, longer, SendBegin);
    longer := longer + [SendBegin];
  }

  lemma LeftAlone(needsInline: bool, run: seq<Action>, t: Turn) returns (longer: seq<Action>)
    requires Exec(needsInline, run).Some?
    requires var s := Exec(needsInline, run).value;
             s.core.pc == Q.Prompting(t) && s.core.gc.Signalled? && s.sub.Running? && |s.pipe.ch| == 1 && !s.pipe.gone
    ensures longer == run + [Return(EndTurn), SendEnd, DrainExit, Core(Q.GcStop)]
    ensures Exec(needsInline, longer).Some?
    ensures var s := Exec(needsInline, longer).value;
            s.core.gc.Sealed? && AwaitingAck(s) && s.core.pc.t == t && Doomed(s)
  {
    ExecSnoc(needsInline, run, Return(EndTurn));
    longer := run + [Return(EndTurn)];
    ExecSnoc(needsInline, longer, SendEnd);
    longer := longer + [SendEnd];
    ExecSnoc(needsInline, longer, DrainExit);
    longer := longer + [DrainExit];
    ExecSnoc(needsInline, longer, Core(Q.GcStop));
    longer := longer + [Core(Q.GcStop)];
  }
}
