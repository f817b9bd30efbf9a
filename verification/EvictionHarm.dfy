/** Which user turns an eviction can harm, exactly: those it loses, and those it leaves with a drain
    that is free to go before it has acknowledged them. Eviction is not assumed to be atomic. */
module EvictionHarm {
  import opened Common
  import opened OptionCache
  import opened TurnQueue
  import Q = QueueRuns
  import W = EvictionWindow
  import opened SessionRuns
  import opened Shutdown

  // ---- lost, at risk, acknowledged ----

  /** Taken by stop: completed, or about to be completed, without ever having been prompted. */
  predicate Lost(s: Session, t: Turn) {
    t in s.core.stopping || t in s.core.stopShed
  }

  /** The user turn that the runner holds and that still needs the drain. */
  function Pending(s: Session): set<Turn> {
    set t | t in Q.Current(s.core.pc) && t.kind == User && NeedsDrain(s)
  }

  /** The popped turns that need the drain no more: the drain has acknowledged them. */
  function Acknowledged(s: Session): set<Turn> {
    Q.Elements(s.core.popped) - Pending(s)
  }

  /** The turns that needed the drain in some state with closed stop channels. */
  function AtRisk(needsInline: bool, run: seq<Action>): set<Turn>
    requires Exec(needsInline, run).Some?
  {
    if run == [] then {}
    else AtRisk(needsInline, run[..|run| - 1]) + RiskNow(Exec(needsInline, run).value)
  }

  function RiskNow(s: Session): set<Turn> {
    if DrainStopped(s) then Pending(s) else {}
  }

  /** The collector closes the stop channels. */
  predicate Signals(a: Action) {
    a == Core(Q.GcSignal) || a.Evict?
  }

  /** The turns acknowledged by the time the stop channels were closed. */
  function AckedBySignal(needsInline: bool, run: seq<Action>): set<Turn>
    requires Exec(needsInline, run).Some?
  {
    if run == [] then {}
    else
      var n := |run| - 1;
      if Signals(run[n]) then Acknowledged(Exec(needsInline, run[..n]).value) else AckedBySignal(needsInline, run[..n])
  }

  /** The turns accepted between the collector's idle test and its stop. */
  function WindowOf(needsInline: bool, run: seq<Action>): set<Turn>
    requires Exec(needsInline, run).Some?
  {
    CoreRunIsARun(needsInline, run);
    W.Window(CoreRun(run))
  }

  // ---- the risk is real ----

  /** t can be made to hang at this point of the run: at once, or if the drain leaves now. */
  ghost predicate CanHang(needsInline: bool, run: seq<Action>, t: Turn) {
    && Exec(needsInline, run).Some?
    && t in Q.Current(Exec(needsInline, run).value.core.pc)
    && (Doomed(Exec(needsInline, run).value)
        || (Exec(needsInline, run + [DrainExit]).Some? && Doomed(Exec(needsInline, run + [DrainExit]).value)))
  }

  /** A turn at risk could have hung: at some point of the run it needed nothing but the drain's exit. */
  lemma {:induction false} RiskIsReal(needsInline: bool, run: seq<Action>, t: Turn) returns (k: nat)
    requires Exec(needsInline, run).Some? && t in AtRisk(needsInline, run)
    ensures k <= |run| && CanHang(needsInline, run[..k], t)
  {
    var n := |run| - 1;
    if t in RiskNow(Exec(needsInline, run).value) {
      k := |run|;
      assert run[..k] == run;
      LateTurnMayHang(needsInline, run);
    } else {
      k := RiskIsReal(needsInline, run[..n], t);
      assert run[..n][..k] == run[..k];
    }
  }

  // ---- how the turns of a signalled session divide ----

  ghost predicate Divided(s: Session, acked: set<Turn>, risky: set<Turn>) {
    && (forall t :: t in acked ==> t in s.core.popped && t !in risky && t !in Pending(s))
    && (forall t :: t in risky ==> t in s.core.popped)
    && (if DrainStopped(s) then forall t :: t in s.core.popped && t.kind == User ==> t in acked || t in risky
        else acked == {} && risky == {})
  }

  /** Between its pop and its acknowledgement a turn needs the drain, then never again. */
  lemma PendingStep(s: Session, a: Action)
    requires Handshake(s.core.pc, s.sub, s.pipe) && Enabled(s, a)
    ensures forall t :: t in Pending(Apply(s, a)) ==> t in Pending(s) || (a == Core(Q.Pop) && t == s.core.queue.q[0])
    ensures a == Core(Q.Pop) && s.core.queue.q[0].kind == User ==> s.core.queue.q[0] in Pending(Apply(s, a))
  {
    if a.Core? {
      PendingCore(s, a.a);
    } else if a.Evict? {
      EvictEffect(s.core);
    } else {
      PendingOwn(s, a);
    }
  }

  lemma PendingOwn(s: Session, a: Action)
    requires Handshake(s.core.pc, s.sub, s.pipe) && Enabled(s, a) && !a.Core? && !a.Evict?
    ensures Pending(Apply(s, a)) <= Pending(s)
  {
  }

  lemma PendingCore(s: Session, c: Q.Action)
    requires Handshake(s.core.pc, s.sub, s.pipe) && Enabled(s, Core(c))
    ensures forall t :: t in Pending(Apply(s, Core(c))) ==> t in Pending(s) || (c == Q.Pop && t == s.core.queue.q[0])
    ensures c == Q.Pop && s.core.queue.q[0].kind == User ==> s.core.queue.q[0] in Pending(Apply(s, Core(c)))
  {
    if c.Push? {
      Q.PushKeeps(s.core, c.turn);
    } else if Q.ByCollector(c) {
      Q.CollectorKeeps(s.core, c);
    }
  }

  lemma PoppedCore(c: Q.Sys, a: Q.Action)
    requires Q.Enabled(c, a)
    ensures Q.Apply(c, a).popped == if a.Pop? then c.popped + [c.queue.q[0]] else c.popped
  {
  }

  lemma PoppedStep(s: Session, a: Action)
    requires Enabled(s, a)
    ensures Apply(s, a).core.popped == if a == Core(Q.Pop) then s.core.popped + [s.core.queue.q[0]] else s.core.popped
  {
    match a {
      case Core(c) => PoppedCore(s.core, c);
      case Evict => EvictEffect(s.core);
      case _ =>
    }
  }

  lemma SignalStep(s: Session, a: Action)
    requires Enabled(s, a)
    ensures if Signals(a) then DrainStopped(Apply(s, a)) && !DrainStopped(s) else DrainStopped(Apply(s, a)) <==> DrainStopped(s)
  {
    match a {
      case Core(c) => SignalCore(s.core, c);
      case Evict => EvictEffect(s.core);
      case _ =>
    }
  }

  lemma SignalCore(c: Q.Sys, a: Q.Action)
    requires Q.Enabled(c, a)
    ensures if a.GcSignal? then Q.StopSignalled(Q.Apply(c, a)) && !Q.StopSignalled(c)
            else Q.StopSignalled(Q.Apply(c, a)) <==> Q.StopSignalled(c)
  {
  }

  /** What is still queued has not been popped. */
  lemma QueuedIsUnpopped(c: Q.Sys)
    requires Q.Inv(c) && c.queue.q != []
    ensures c.queue.q[0] !in c.popped
  {
    Q.Counts(c, c.queue.q[0]);
    MultisetHas(c.popped, c.queue.q[0]);
    MultisetHas(c.queue.q, c.queue.q[0]);
  }

  lemma PendingIsPopped(s: Session)
    requires Q.Shape(s.core)
    ensures forall t :: t in Pending(s) ==> t in s.core.popped
  {
  }

  /** When the stop channels are closed. */
  lemma DividedSignal(s: Session, a: Action)
    requires Q.Shape(s.core) && Handshake(s.core.pc, s.sub, s.pipe) && Enabled(s, a) && Signals(a)
    ensures Divided(Apply(s, a), Acknowledged(s), RiskNow(Apply(s, a)))
  {
    SignalStep(s, a);
    PoppedStep(s, a);
    SamePending(s, a);
    PendingIsPopped(s);
  }

  lemma SamePending(s: Session, a: Action)
    requires Enabled(s, a) && Signals(a)
    ensures Pending(Apply(s, a)) == Pending(s)
  {
    if a.Evict? { EvictEffect(s.core); } else { Q.CollectorKeeps(s.core, Q.GcSignal); }
  }

  /** Every other action. */
  lemma DividedStep(s: Session, a: Action, acked: set<Turn>, risky: set<Turn>)
    requires Q.Inv(s.core) && Handshake(s.core.pc, s.sub, s.pipe) && Enabled(s, a) && !Signals(a)
    requires Q.Shape(Apply(s, a).core) && Divided(s, acked, risky)
    ensures Divided(Apply(s, a), acked, risky + RiskNow(Apply(s, a)))
  {
    SignalStep(s, a);
    PoppedStep(s, a);
    PendingStep(s, a);
    PendingIsPopped(Apply(s, a));
    if a == Core(Q.Pop) { QueuedIsUnpopped(s.core); }
  }

  lemma {:induction false} TurnsDivide(needsInline: bool, run: seq<Action>)
    requires Exec(needsInline, run).Some?
    ensures Divided(Exec(needsInline, run).value, AckedBySignal(needsInline, run), AtRisk(needsInline, run))
  {
    if run != [] {
      var n := |run| - 1;
      var s := Exec(needsInline, run[..n]).value;
      TurnsDivide(needsInline, run[..n]);
      RunsKeepInv(needsInline, run[..n]);
      RunsKeepInv(needsInline, run);
      if Signals(run[n]) {
        DividedSignal(s, run[n]);
        assert AtRisk(needsInline, run[..n]) == {} by { SignalStep(s, run[n]); }
      } else {
        DividedStep(s, run[n], AckedBySignal(needsInline, run[..n]), AtRisk(needsInline, run[..n]));
      }
    }
  }

  // ---- turns at risk lie in the window ----

  lemma {:induction false} WindowKeeps(run: seq<Q.Action>, c: Q.Action)
    requires Q.Exec(Q.INIT, run).Some? && Q.Enabled(Q.Exec(Q.INIT, run).value, c)
    requires Q.StopSignalled(Q.Exec(Q.INIT, run).value)
    ensures Q.Exec(Q.INIT, run + [c]).Some? && W.Window(run) <= W.Window(run + [c])
  {
    Q.ExecSnoc(Q.INIT, run, c);
    assert (run + [c])[..|run|] == run;
  }

  lemma WindowStep(core: seq<Q.Action>, s: Session, a: Action)
    requires Q.Exec(Q.INIT, core) == Some(s.core) && Enabled(s, a) && DrainStopped(s)
    ensures Q.Exec(Q.INIT, core + CoreOf(a)).Some? && W.Window(core) <= W.Window(core + CoreOf(a))
  {
    match a {
      case Core(c) => WindowKeeps(core, c);
      case SendBegin => WindowKeeps(core, Q.StartPrompt);
      case Finish => WindowKeeps(core, Q.EndPrompt);
      case _ => NoMore(core);
    }
  }

  lemma {:induction false} RiskNowInWindow(needsInline: bool, run: seq<Action>)
    requires Exec(needsInline, run).Some?
    ensures RiskNow(Exec(needsInline, run).value) <= WindowOf(needsInline, run)
  {
    var s := Exec(needsInline, run).value;
    CoreRunIsARun(needsInline, run);
    W.WindowCovers(CoreRun(run));
    forall t | t in RiskNow(s)
      ensures t in WindowOf(needsInline, run)
    {
      assert W.AtHand(s.core, t);
    }
  }

  lemma {:induction false} RiskInWindow(needsInline: bool, run: seq<Action>)
    requires Exec(needsInline, run).Some?
    ensures AtRisk(needsInline, run) <= WindowOf(needsInline, run)
  {
    if run != [] {
      var n := |run| - 1;
      var s := Exec(needsInline, run[..n]).value;
      RiskNowInWindow(needsInline, run);
      if DrainStopped(s) {
        RiskInWindow(needsInline, run[..n]);
        CoreRunIsARun(needsInline, run[..n]);
        WindowStep(CoreRun(run[..n]), s, run[n]);
      } else {
        TurnsDivide(needsInline, run[..n]);
      }
    }
  }

  // ---- the exact condition ----

  /** Harmed by the eviction: lost, or left with a drain that is free to go. */
  predicate Harmed(needsInline: bool, run: seq<Action>, t: Turn)
    requires Exec(needsInline, run).Some?
  {
    Lost(Exec(needsInline, run).value, t) || t in AtRisk(needsInline, run)
  }

  lemma {:induction false} LostIff(needsInline: bool, run: seq<Action>, t: Turn)
    requires Exec(needsInline, run).Some? && Exec(needsInline, run).value.core.gc.Sealed? && t.kind == User
    ensures var s := Exec(needsInline, run).value;
            Lost(s, t) <==> t in WindowOf(needsInline, run) && t !in s.core.popped
  {
    var s := Exec(needsInline, run).value;
    CoreRunIsARun(needsInline, run);
    W.StopTakes(CoreRun(run));
    W.UserTurnLostIff(CoreRun(run), t);
    assert t in s.core.stopShed + s.core.stopping <==> Lost(s, t);
  }

  /** Once the session is sealed, a user turn is harmed if and only if it was accepted between the idle
      test and the stop and the drain had not acknowledged it when the stop channels were closed. */
  lemma {:induction false} HarmedIff(needsInline: bool, run: seq<Action>, t: Turn)
    requires Exec(needsInline, run).Some? && Exec(needsInline, run).value.core.gc.Sealed? && t.kind == User
    ensures Harmed(needsInline, run, t)
            <==> t in WindowOf(needsInline, run) && t !in AckedBySignal(needsInline, run)
  {
    TurnsDivide(needsInline, run);
    RiskInWindow(needsInline, run);
    LostIff(needsInline, run, t);
  }

  /** Hence an eviction harms nobody if and only if every user turn accepted between idle test and stop
      was acknowledged before the stop channels were closed; in particular if there was none. */
  lemma {:induction false} HarmlessIff(needsInline: bool, run: seq<Action>)
    requires Exec(needsInline, run).Some? && Exec(needsInline, run).value.core.gc.Sealed?
    ensures (forall t: Turn :: t.kind == User ==> !Harmed(needsInline, run, t))
            <==> (forall t: Turn :: t.kind == User && t in WindowOf(needsInline, run)
                                    ==> t in AckedBySignal(needsInline, run))
  {
    forall t: Turn | t.kind == User
      ensures Harmed(needsInline, run, t)
              <==> t in WindowOf(needsInline, run) && t !in AckedBySignal(needsInline, run)
    {
      HarmedIff(needsInline, run, t);
    }
  }

  /** A turn that hangs, sealed or not, is at risk, was accepted in the window, and was not acknowledged
      in time. */
  lemma {:induction false} HungIsAtRisk(needsInline: bool, run: seq<Action>, t: Turn)
    requires Exec(needsInline, run).Some? && Doomed(Exec(needsInline, run).value)
    requires t in Q.Current(Exec(needsInline, run).value.core.pc) && t.kind == User
    ensures t in AtRisk(needsInline, run) && t in WindowOf(needsInline, run) && t !in AckedBySignal(needsInline, run)
  {
    RunsKeepInv(needsInline, run);
    TurnsDivide(needsInline, run);
    RiskInWindow(needsInline, run);
  }

  lemma {:induction false} AtomicRisk(needsInline: bool, run: seq<Action>)
    requires Atomic(run) && Exec(needsInline, run).Some?
    ensures AtRisk(needsInline, run) == {}
  {
    if run != [] {
      AtomicRisk(needsInline, run[..|run| - 1]);
      AtomicRunsKeepInv(needsInline, run);
      NothingPending(Exec(needsInline, run).value);
    }
  }

  lemma NothingPending(s: Session)
    requires AtomicInv(s)
    ensures RiskNow(s) == {} && forall t :: !Lost(s, t)
  {
  }

  /** With atomic eviction nobody is ever harmed. */
  lemma {:induction false} AtomicHarmsNobody(needsInline: bool, run: seq<Action>, t: Turn)
    requires Atomic(run) && Exec(needsInline, run).Some?
    ensures !Harmed(needsInline, run, t)
  {
    AtomicRunsKeepInv(needsInline, run);
    AtomicRisk(needsInline, run);
    NothingPending(Exec(needsInline, run).value);
  }

  // ---- a turn of the window that is not harmed ----

  /** t is the only turn so far; the runner has got this far with it. */
  predicate Alone(s: Session, t: Turn, pc: Q.Pc, gc: Q.Gc, prompts: seq<Turn>, finished: seq<Turn>) {
    && s.core.pc == pc && s.core.gc == gc && s.core.queue.q == [] && s.core.stopping == []
    && s.core.popped == [t] && s.core.prompts == prompts && s.core.finished == finished
  }

  /** The drain acknowledges t between idle test and stop; everything else about t happens afterwards,
      in particular the runner waits for the router's mutex before it closes t's done channel. */
  lemma {:induction false} AcknowledgedTurnIsUnharmed(needsInline: bool, t: Turn) returns (run: seq<Action>)
    requires t.kind == User
    ensures run == Lift([Q.GcSawIdle, Q.Push(t), Q.Pop, Q.Admit(0)])
                   + [Prepare(Answers(None, true)), SendBegin] + [Return(EndTurn), SendEnd] + [Receive, Receive]
                   + [Core(Q.GcSignal), Core(Q.GcStop)] + [Finish, Core(Q.TouchSession)]
                   + [Core(Q.CloseDone), Core(Q.FinishInFlight)]
    ensures Exec(needsInline, run).Some?
    ensures var s := Exec(needsInline, run).value;
            && s.core.gc.Sealed? && s.core.finished == [t] && s.core.prompts == [t] && t !in s.core.shed
            && s.core.closes[t] == 1
    ensures t in WindowOf(needsInline, run) && !Harmed(needsInline, run, t)
  {
    var admitted := AdmittedInWindow(needsInline, t);
    var acked := AcknowledgedInTime(needsInline, admitted, t);
    var stopped := StoppedMeanwhile(needsInline, acked, t);
    run := CompletedLater(needsInline, stopped, t);
    HarmedIff(needsInline, run, t);
    RunsKeepInv(needsInline, run);
    Q.Counts(Exec(needsInline, run).value.core, t);
    MultisetHas(Exec(needsInline, run).value.core.finished, t);
  }

  lemma {:induction false} CoreAdmitted(t: Turn) returns (core: seq<Q.Action>)
    requires t.kind == User
    ensures core == [Q.GcSawIdle, Q.Push(t), Q.Pop, Q.Admit(0)] && Q.Exec(Q.INIT, core).Some?
    ensures var c := Q.Exec(Q.INIT, core).value;
            && c.gc.SawIdle? && c.pc == Q.Admitted(t) && c.queue.q == [] && c.stopping == [] && c.popped == [t]
            && c.finished == [] && c.prompts == [] && c.accepted == [t]
    ensures t in W.Window(core)
  {
    core := [Q.GcSawIdle];
    Q.ExecSnoc(Q.INIT, [], Q.GcSawIdle);
    assert [] + [Q.GcSawIdle] == core;
    core := CoreStep(core, Q.Push(t));
    core := CoreStep(core, Q.Pop);
    core := CoreStep(core, Q.Admit(0));
  }

  lemma {:induction false} CoreStep(core: seq<Q.Action>, a: Q.Action) returns (longer: seq<Q.Action>)
    requires Q.Exec(Q.INIT, core).Some? && Q.Enabled(Q.Exec(Q.INIT, core).value, a)
    ensures longer == core + [a] && Q.Exec(Q.INIT, longer) == Some(Q.Apply(Q.Exec(Q.INIT, core).value, a))
    ensures W.Window(longer) == W.NextWindow(Q.Exec(Q.INIT, core).value, W.Window(core), a)
  {
    longer := core + [a];
    Q.ExecSnoc(Q.INIT, core, a);
    assert longer[..|core|] == core;
  }

  lemma {:induction false} LiftedCore(core: seq<Q.Action>)
    ensures CoreRun(Lift(core)) == core
  {
    if core != [] {
      LiftedCore(core[..|core| - 1]);
      assert core == core[..|core| - 1] + [core[|core| - 1]];
    }
  }

  lemma {:induction false} AdmittedInWindow(needsInline: bool, t: Turn) returns (run: seq<Action>)
    requires t.kind == User
    ensures run == Lift([Q.GcSawIdle, Q.Push(t), Q.Pop, Q.Admit(0)]) && Exec(needsInline, run).Some?
    ensures var s := Exec(needsInline, run).value;
            && Alone(s, t, Q.Admitted(t), Q.SawIdle, [], [])
            && s.sub.Fresh? && s.pipe.ch == [] && s.pipe.td == None && !s.pipe.gone
    ensures t in WindowOf(needsInline, run)
  {
    var core := CoreAdmitted(t);
    LiftIsARun(needsInline, core);
    LiftedCore(core);
    run := Lift(core);
  }

  /** One more step that does not reset the window. */
  lemma {:induction false} Go(needsInline: bool, run: seq<Action>, a: Action, t: Turn) returns (longer: seq<Action>)
    requires Exec(needsInline, run).Some? && Enabled(Exec(needsInline, run).value, a)
    requires !a.Evict? && a != Core(Q.GcSawIdle) && t in WindowOf(needsInline, run)
    ensures longer == run + [a] && Exec(needsInline, longer) == Some(Apply(Exec(needsInline, run).value, a))
    ensures t in WindowOf(needsInline, longer)
    ensures AckedBySignal(needsInline, longer)
            == if Signals(a) then Acknowledged(Exec(needsInline, run).value) else AckedBySignal(needsInline, run)
  {
    longer := run + [a];
    ExecSnoc(needsInline, run, a);
    assert longer[..|run|] == run;
    CoreRunIsARun(needsInline, run);
    match a {
      case Core(c) => var _ := CoreStep(CoreRun(run), c);
      case SendBegin => var _ := CoreStep(CoreRun(run), Q.StartPrompt);
      case Finish => var _ := CoreStep(CoreRun(run), Q.EndPrompt);
      case _ => NoMore(CoreRun(run));
    }
  }

  /** Two steps at once. */
  lemma {:induction false} GoTwice(needsInline: bool, run: seq<Action>, a: Action, b: Action, t: Turn)
    returns (longer: seq<Action>)
    requires Exec(needsInline, run).Some? && Enabled(Exec(needsInline, run).value, a)
    requires Enabled(Apply(Exec(needsInline, run).value, a), b) && !Signals(b)
    requires !a.Evict? && a != Core(Q.GcSawIdle) && b != Core(Q.GcSawIdle) && t in WindowOf(needsInline, run)
    ensures longer == run + [a, b]
    ensures Exec(needsInline, longer) == Some(Apply(Apply(Exec(needsInline, run).value, a), b))
    ensures t in WindowOf(needsInline, longer)
    ensures AckedBySignal(needsInline, longer)
            == if Signals(a) then Acknowledged(Exec(needsInline, run).value) else AckedBySignal(needsInline, run)
  {
    longer := Go(needsInline, run, a, t);
    longer := Go(needsInline, longer, b, t);
    assert run + [a] + [b] == run + [a, b];
  }

  lemma PromptStarts(s: Session, t: Turn)
    requires Alone(s, t, Q.Admitted(t), Q.SawIdle, [], []) && s.sub.Fresh? && s.pipe.ch == []
    ensures Enabled(s, Prepare(Answers(None, true))) && Enabled(Apply(s, Prepare(Answers(None, true))), SendBegin)
    ensures var s' := Apply(Apply(s, Prepare(Answers(None, true))), SendBegin);
            Alone(s', t, Q.Prompting(t), Q.SawIdle, [t], []) && s'.sub.Running? && s'.pipe == Send(s.pipe, Begin(t))
  {
  }

  lemma PromptEnds(s: Session, t: Turn)
    requires Alone(s, t, Q.Prompting(t), Q.SawIdle, [t], []) && s.sub.Running? && s.pipe.ch == [Begin(t)]
    ensures Enabled(s, Return(EndTurn)) && Enabled(Apply(s, Return(EndTurn)), SendEnd)
    ensures var s' := Apply(Apply(s, Return(EndTurn)), SendEnd);
            && Alone(s', t, Q.Prompting(t), Q.SawIdle, [t], []) && s'.sub.Acking?
            && s'.pipe.ch == [Begin(t), End(t)] && s'.pipe.gone == s.pipe.gone
  {
  }

  lemma MarkersTaken(s: Session, t: Turn)
    requires Alone(s, t, Q.Prompting(t), Q.SawIdle, [t], []) && s.sub.Acking? && s.pipe.ch == [Begin(t), End(t)] && !s.pipe.gone
    ensures Enabled(s, Receive) && Enabled(Apply(s, Receive), Receive)
    ensures var s' := Apply(Apply(s, Receive), Receive);
            Alone(s', t, Q.Prompting(t), Q.SawIdle, [t], []) && s'.sub.Acking? && s'.pipe.acked
  {
    assert Take(s.pipe).ch == [End(t)];
  }

  lemma StopsMeanwhile(s: Session, t: Turn)
    requires Alone(s, t, Q.Prompting(t), Q.SawIdle, [t], []) && s.sub.Acking? && s.pipe.acked
    ensures Enabled(s, Core(Q.GcSignal)) && Enabled(Apply(s, Core(Q.GcSignal)), Core(Q.GcStop))
    ensures var s' := Apply(Apply(s, Core(Q.GcSignal)), Core(Q.GcStop));
            Alone(s', t, Q.Prompting(t), Q.Sealed, [t], []) && s'.sub.Acking? && s'.pipe.acked
    ensures t in Acknowledged(s)
  {
  }

  lemma TurnEnds(s: Session, t: Turn)
    requires Alone(s, t, Q.Prompting(t), Q.Sealed, [t], []) && s.sub.Acking? && s.pipe.acked
    ensures Enabled(s, Finish) && Enabled(Apply(s, Finish), Core(Q.TouchSession))
    ensures Alone(Apply(Apply(s, Finish), Core(Q.TouchSession)), t, Q.Touched(t), Q.Sealed, [t], [])
  {
  }

  lemma DoneCloses(s: Session, t: Turn)
    requires Alone(s, t, Q.Touched(t), Q.Sealed, [t], [])
    ensures Enabled(s, Core(Q.CloseDone)) && Enabled(Apply(s, Core(Q.CloseDone)), Core(Q.FinishInFlight))
    ensures Alone(Apply(Apply(s, Core(Q.CloseDone)), Core(Q.FinishInFlight)), t, Q.Checking, Q.Sealed, [t], [t])
  {
  }

  lemma {:induction false} AcknowledgedInTime(needsInline: bool, run: seq<Action>, t: Turn) returns (longer: seq<Action>)
    requires Exec(needsInline, run).Some? && t in WindowOf(needsInline, run)
    requires var s := Exec(needsInline, run).value;
             Alone(s, t, Q.Admitted(t), Q.SawIdle, [], []) && s.sub.Fresh? && s.pipe.ch == [] && !s.pipe.gone
    ensures longer == run + [Prepare(Answers(None, true)), SendBegin] + [Return(EndTurn), SendEnd] + [Receive, Receive]
    ensures Exec(needsInline, longer).Some? && t in WindowOf(needsInline, longer)
    ensures var s := Exec(needsInline, longer).value;
            Alone(s, t, Q.Prompting(t), Q.SawIdle, [t], []) && s.sub.Acking? && s.pipe.acked
  {
    PromptStarts(Exec(needsInline, run).value, t);
    longer := GoTwice(needsInline, run, Prepare(Answers(None, true)), SendBegin, t);
    PromptEnds(Exec(needsInline, longer).value, t);
    longer := GoTwice(needsInline, longer, Return(EndTurn), SendEnd, t);
    MarkersTaken(Exec(needsInline, longer).value, t);
    longer := GoTwice(needsInline, longer, Receive, Receive, t);
  }

  lemma {:induction false} StoppedMeanwhile(needsInline: bool, run: seq<Action>, t: Turn) returns (longer: seq<Action>)
    requires Exec(needsInline, run).Some? && t in WindowOf(needsInline, run)
    requires var s := Exec(needsInline, run).value;
             Alone(s, t, Q.Prompting(t), Q.SawIdle, [t], []) && s.sub.Acking? && s.pipe.acked
    ensures longer == run + [Core(Q.GcSignal), Core(Q.GcStop)]
    ensures Exec(needsInline, longer).Some? && t in WindowOf(needsInline, longer)
    ensures t in AckedBySignal(needsInline, longer)
    ensures var s := Exec(needsInline, longer).value;
            Alone(s, t, Q.Prompting(t), Q.Sealed, [t], []) && s.sub.Acking? && s.pipe.acked
  {
    StopsMeanwhile(Exec(needsInline, run).value, t);
    longer := GoTwice(needsInline, run, Core(Q.GcSignal), Core(Q.GcStop), t);
  }

  lemma {:induction false} CompletedLater(needsInline: bool, run: seq<Action>, t: Turn) returns (longer: seq<Action>)
    requires Exec(needsInline, run).Some? && t in WindowOf(needsInline, run) && t in AckedBySignal(needsInline, run)
    requires var s := Exec(needsInline, run).value;
             Alone(s, t, Q.Prompting(t), Q.Sealed, [t], []) && s.sub.Acking? && s.pipe.acked
    ensures longer == run + [Finish, Core(Q.TouchSession)] + [Core(Q.CloseDone), Core(Q.FinishInFlight)]
    ensures Exec(needsInline, longer).Some? && t in WindowOf(needsInline, longer)
    ensures t in AckedBySignal(needsInline, longer)
    ensures Alone(Exec(needsInline, longer).value, t, Q.Checking, Q.Sealed, [t], [t])
  {
    TurnEnds(Exec(needsInline, run).value, t);
    longer := GoTwice(needsInline, run, Finish, Core(Q.TouchSession), t);
    longer := DoneClosed(needsInline, longer, t);
  }

  lemma {:induction false} DoneClosed(needsInline: bool, run: seq<Action>, t: Turn) returns (longer: seq<Action>)
    requires Exec(needsInline, run).Some? && t in WindowOf(needsInline, run) && t in AckedBySignal(needsInline, run)
    requires Alone(Exec(needsInline, run).value, t, Q.Touched(t), Q.Sealed, [t], [])
    ensures longer == run + [Core(Q.CloseDone), Core(Q.FinishInFlight)]
    ensures Exec(needsInline, longer).Some? && t in WindowOf(needsInline, longer)
    ensures t in AckedBySignal(needsInline, longer)
    ensures Alone(Exec(needsInline, longer).value, t, Q.Checking, Q.Sealed, [t], [t])
  {
    DoneCloses(Exec(needsInline, run).value, t);
    longer := GoTwice(needsInline, run, Core(Q.CloseDone), Core(Q.FinishInFlight), t);
  }
}
