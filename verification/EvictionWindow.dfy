/** The collector's idle test and its stop are separate critical sections. Which turns the gap between
    them can harm, exactly. */
module EvictionWindow {
  import opened Common
  import opened TurnQueue
  import opened QueueRuns

  /** What the queue held when stop locked it. */
  function AtStop(run: seq<Action>): seq<Turn>
    requires Exec(INIT, run).Some?
  {
    if run == [] then []
    else
      var n := |run| - 1;
      if run[n].GcStop? then Exec(INIT, run[..n]).value.queue.q else AtStop(run[..n])
  }

  lemma {:induction false} StopTakes(run: seq<Action>)
    requires Exec(INIT, run).Some?
    ensures var s := Exec(INIT, run).value; s.stopShed + s.stopping == AtStop(run)
  {
    if run != [] {
      var n := |run| - 1;
      StopTakes(run[..n]);
      RunsKeepInv(run[..n]);
      StopTakesStep(Exec(INIT, run[..n]).value, run[n]);
    }
  }

  lemma StopTakesStep(s: Sys, a: Action)
    requires Shape(s) && Enabled(s, a)
    ensures var s' := Apply(s, a);
            s'.stopShed + s'.stopping == if a.GcStop? then s.queue.q else s.stopShed + s.stopping
  {
  }

  // ---- the window ----

  /** The turns accepted since the collector's last idle test, after one more action. */
  function NextWindow(s: Sys, window: set<Turn>, a: Action): set<Turn> {
    match a
    case GcSawIdle => {}
    case Push(t) => if PushTurn(s.queue, t).accepted then window + {t} else window
    case _ => window
  }

  function Window(run: seq<Action>): set<Turn>
    requires Exec(INIT, run).Some?
  {
    if run == [] then {}
    else
      var n := |run| - 1;
      NextWindow(Exec(INIT, run[..n]).value, Window(run[..n]), run[n])
  }

  predicate AtHand(s: Sys, t: Turn) {
    t in s.queue.q || t in Current(s.pc) || t in s.stopping || t in s.stopShed
  }

  /** Once the collector has seen the queue idle, whatever it finds there arrived afterwards. */
  ghost predicate Covered(s: Sys, window: set<Turn>) {
    && (!s.gc.Watching? ==> forall t :: AtHand(s, t) ==> t in window)
    && (forall t :: t in window ==> t in s.accepted)
  }

  lemma CoveredPush(s: Sys, window: set<Turn>, t: Turn)
    requires Covered(s, window) && Enabled(s, Push(t))
    ensures Covered(Apply(s, Push(t)), NextWindow(s, window, Push(t)))
  {
    PushKeeps(s, t);
    PushHistory(s, t);
    QueueAfterPush(s.queue, t);
    forall u | AtHand(Apply(s, Push(t)), u)
      ensures AtHand(s, u) || (u == t && PushTurn(s.queue, t).accepted)
    {
    }
  }

  lemma QueueAfterPush(q: QueueState, t: Turn)
    ensures forall u :: u in PushTurn(q, t).state.q ==> u in q.q || (u == t && PushTurn(q, t).accepted)
  {
  }

  lemma CoveredRunner(s: Sys, window: set<Turn>, a: Action)
    requires Covered(s, window) && Enabled(s, a) && ByRunner(a)
    ensures Covered(Apply(s, a), window)
  {
    AcceptedKept(s, a);
    forall u | AtHand(Apply(s, a), u)
      ensures AtHand(s, u)
    {
    }
  }

  lemma CoveredCollector(s: Sys, window: set<Turn>, a: Action)
    requires Shape(s) && Covered(s, window) && Enabled(s, a) && ByCollector(a)
    ensures Covered(Apply(s, a), NextWindow(s, window, a))
  {
    AcceptedKept(s, a);
    CollectorKeeps(s, a);
    forall u | AtHand(Apply(s, a), u)
      ensures AtHand(s, u) && !a.GcSawIdle?
    {
    }
  }

  lemma CoveredStep(s: Sys, window: set<Turn>, a: Action)
    requires Shape(s) && Covered(s, window) && Enabled(s, a)
    ensures Covered(Apply(s, a), NextWindow(s, window, a))
  {
    if a.Push? {
      CoveredPush(s, window, a.turn);
    } else if ByRunner(a) {
      CoveredRunner(s, window, a);
    } else {
      CoveredCollector(s, window, a);
    }
  }

  lemma {:induction false} WindowCovers(run: seq<Action>)
    requires Exec(INIT, run).Some?
    ensures Covered(Exec(INIT, run).value, Window(run))
  {
    if run != [] {
      var n := |run| - 1;
      WindowCovers(run[..n]);
      RunsKeepInv(run[..n]);
      CoveredStep(Exec(INIT, run[..n]).value, Window(run[..n]), run[n]);
    }
  }

  // ---- what happens to the turns of the window ----

  /** An accepted user turn is lost, that is completed or about to be completed as shed without ever
      having been prompted, if and only if the queue held it at the moment stop locked it. Once the
      queue is sealed these are the turns accepted after the idle test and not popped by then. */
  lemma {:induction false} UserTurnLostIff(run: seq<Action>, t: Turn)
    requires Exec(INIT, run).Some? && t.kind == User
    ensures var s := Exec(INIT, run).value;
            && (t in s.shed || t in s.stopping <==> t in AtStop(run))
            && (t in AtStop(run) ==> t in s.accepted && t !in s.prompts)
            && (s.gc.Sealed? ==> (t in AtStop(run) <==> t in Window(run) && t !in s.popped))
  {
    RunsKeepInv(run);
    StopTakes(run);
    WindowCovers(run);
    var s := Exec(INIT, run).value;
    Counts(s, t);
    assert t in s.stopShed + s.stopping <==> t in s.stopShed || t in s.stopping;
  }

  // ---- witnesses ----

  /** The collector's idle test does not prevent that: a push fits between the test and the stop.
      The turn is completed as shed, and nothing ever reaches Agent.Prompt. */
  lemma IdleTestIsNotEnough(t: Turn) returns (run: seq<Action>)
    requires t.kind == User
    ensures run == [GcSawIdle, Push(t), GcSignal, GcStop, GcCloseOne]
    ensures Exec(INIT, run).Some?
    ensures var s := Exec(INIT, run).value;
            s.accepted == [t] && s.shed == {t} && s.closes == multiset{t} && s.prompts == []
  {
    run := PushBeforeSignal(t);
    ExecSnoc(INIT, run, GcStop);
    run := run + [GcStop];
    ExecSnoc(INIT, run, GcCloseOne);
    run := run + [GcCloseOne];
  }

  /** Likewise the runner can take a turn after the collector has closed the stop channels. */
  lemma LateTurnAfterSignal(t: Turn) returns (run: seq<Action>)
    requires t.kind == User
    ensures run == [GcSawIdle, Push(t), GcSignal, Pop]
    ensures Exec(INIT, run).Some?
    ensures var s := Exec(INIT, run).value; s.pc == Popped(t) && s.gc.Signalled?
  {
    run := PushBeforeSignal(t);
    ExecSnoc(INIT, run, Pop);
    run := run + [Pop];
  }

  lemma PushBeforeSignal(t: Turn) returns (run: seq<Action>)
    requires t.kind == User
    ensures run == [GcSawIdle, Push(t), GcSignal]
    ensures Exec(INIT, run) ==
            Some(INIT.(queue := EMPTY_QUEUE.(q := [t], token := true), gc := Signalled, tried := {t}, accepted := [t]))
  {
    ExecSnoc(INIT, [], GcSawIdle);
    run := [] + [GcSawIdle];
    ExecSnoc(INIT, run, Push(t));
    run := run + [Push(t)];
    assert [] + [t] == [t] && {} + {t} == {t};
    ExecSnoc(INIT, run, GcSignal);
    run := run + [GcSignal];
  }
}
