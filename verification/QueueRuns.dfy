/** Every interleaving of submitters, the runner and the collector on one session queue, at the
    granularity of the queue's mutex: each action below is one critical section, one channel
    operation, or one store by the goroutine that owns the turn. In particular the collector's
    idle test and its stop are separate actions; the router's mutex, which the collector holds from
    the one to the end of the other, keeps nothing out but the runner's touch. */
module QueueRuns {
  import opened Common
  import opened TurnQueue

  /** Sixty seconds, in nanoseconds. */
  const REACTION_MAX_AGE: int := 60_000_000_000

  /** Where the runner goroutine is. */
  datatype Pc =
    | Checking                // about to lock the queue
    | Blocked                 // saw an empty queue, about to select on stop and notify
    | Popped(t: Turn)         // owns t, staleness not tested yet
    | Admitted(t: Turn)       // t passed the staleness test
    | Prompting(t: Turn)      // t has been handed to Agent.Prompt; ends when the drain acknowledges it
    | Closing(t: Turn)        // about to refresh the session, which takes the router's mutex
    | Touched(t: Turn)        // about to close t.done
    | Closed(t: Turn)         // about to leave the in-flight state
    | Exited

  /** Where the collector is with this session. */
  datatype Gc = Watching | SawIdle | Signalled | Sealed

  datatype Sys = Sys(
    queue: QueueState,
    pc: Pc,
    gc: Gc,
    stopping: seq<Turn>,    // taken by stop, done not closed yet
    // history
    tried: set<Turn>,       // pushed so far, accepted or not
    accepted: seq<Turn>,    // in accept order
    popped: seq<Turn>,      // in pop order
    finished: seq<Turn>,    // completed by the runner, in that order
    displaced: seq<Turn>,   // shed by push
    stopShed: seq<Turn>,    // taken by stop, done closed
    stale: seq<Turn>,       // dropped for their age
    prompts: seq<Turn>,     // handed to Agent.Prompt
    closes: multiset<Turn>, // every close of a done channel
    shed: set<Turn>)        // turns whose shed flag is set

  const INIT := Sys(EMPTY_QUEUE, Checking, Watching, [], {}, [], [], [], [], [], [], [], multiset{}, {})

  datatype Action =
    | Push(turn: Turn)
    | Pop | SeeEmpty | WakeByToken | WakeByStop
    | DropStale(now: int) | Admit(now: int) | StartPrompt | EndPrompt | TouchSession | CloseDone | FinishInFlight
    | GcSawIdle | GcGiveUp | GcSignal | GcStop | GcCloseOne

  predicate TooOld(t: Turn, now: int) {
    t.kind == Reaction && now - t.enqueuedAt > REACTION_MAX_AGE
  }

  /** The collector holds the router's mutex from its idle test until it has completed what stop took.
      Of all the actions below only the refresh of a session after a turn needs that mutex. */
  predicate MutexHeld(s: Sys) {
    s.gc.SawIdle? || s.gc.Signalled? || s.stopping != []
  }

  predicate Enabled(s: Sys, a: Action) {
    match a
    case Push(t) => t !in s.tried
    case Pop => s.pc.Checking? && s.queue.q != []
    case SeeEmpty => s.pc.Checking? && s.queue.q == []
    case WakeByToken => s.pc.Blocked? && s.queue.token
    case WakeByStop => s.pc.Blocked? && StopSignalled(s)
    case DropStale(now) => s.pc.Popped? && TooOld(s.pc.t, now)
    case Admit(now) => s.pc.Popped? && !TooOld(s.pc.t, now)
    case StartPrompt => s.pc.Admitted?
    case EndPrompt => s.pc.Prompting?
    case TouchSession => s.pc.Closing? && !MutexHeld(s)
    case CloseDone => s.pc.Touched?
    case FinishInFlight => s.pc.Closed?
    case GcSawIdle => s.gc.Watching? && Idle(s.queue)
    case GcGiveUp => s.gc.SawIdle?
    case GcSignal => s.gc.SawIdle?
    case GcStop => s.gc.Signalled?
    case GcCloseOne => s.stopping != []
  }

  /** True once runStop is closed. */
  predicate StopSignalled(s: Sys) {
    s.gc.Signalled? || s.gc.Sealed?
  }

  function Push_(s: Sys, t: Turn): Sys {
    var p := PushTurn(s.queue, t);
    var s1 := s.(queue := p.state, tried := s.tried + {t});
    var s2 := if p.accepted then s1.(accepted := s1.accepted + [t]) else s1;
    if p.displaced.Some? then Shed(s2, p.displaced.value).(displaced := s2.displaced + [p.displaced.value])
    else s2
  }

  /** Sets the shed flag of t and closes its done channel. */
  function Shed(s: Sys, t: Turn): Sys {
    s.(shed := s.shed + {t}, closes := s.closes + multiset{t})
  }

  function Apply(s: Sys, a: Action): Sys
    requires Enabled(s, a)
  {
    match a
    case Push(t) => Push_(s, t)
    case Pop => s.(queue := PopTurn(s.queue), pc := Popped(s.queue.q[0]), popped := s.popped + [s.queue.q[0]])
    case SeeEmpty => s.(pc := Blocked)
    case WakeByToken => s.(pc := Checking, queue := s.queue.(token := false))
    case WakeByStop => s.(pc := Exited)
    case DropStale(_) => s.(pc := Closing(s.pc.t), stale := s.stale + [s.pc.t], shed := s.shed + {s.pc.t})
    case Admit(_) => s.(pc := Admitted(s.pc.t))
    case StartPrompt => s.(pc := Prompting(s.pc.t), prompts := s.prompts + [s.pc.t])
    case EndPrompt => s.(pc := Closing(s.pc.t))
    case TouchSession => s.(pc := Touched(s.pc.t))
    case CloseDone => s.(pc := Closed(s.pc.t), finished := s.finished + [s.pc.t], closes := s.closes + multiset{s.pc.t})
    case FinishInFlight => s.(pc := Checking, queue := s.queue.(inFlight := false))
    case GcSawIdle => s.(gc := SawIdle)
    case GcGiveUp => s.(gc := Watching)
    case GcSignal => s.(gc := Signalled)
    case GcStop => s.(gc := Sealed, queue := StopQueue(s.queue), stopping := s.queue.q)
    case GcCloseOne =>
      Shed(s, s.stopping[0]).(stopping := s.stopping[1..], stopShed := s.stopShed + [s.stopping[0]])
  }

  /** The state after a run, if each of its actions was enabled. */
  function Exec(s: Sys, run: seq<Action>): Option<Sys> {
    if run == [] then Some(s)
    else
      var n := |run| - 1;
      match Exec(s, run[..n])
      case None => None
      case Some(u) => if Enabled(u, run[n]) then Some(Apply(u, run[n])) else None
  }

  // ---- the inductive invariant ----

  /** The turn the runner holds; in flight until its done channel is closed. */
  function Current(pc: Pc): seq<Turn> {
    match pc
    case Popped(t) => [t]
    case Admitted(t) => [t]
    case Prompting(t) => [t]
    case Closing(t) => [t]
    case Touched(t) => [t]
    case _ => []
  }

  /** Turns of s outside `gone`, in order. */
  function Keep(s: seq<Turn>, gone: set<Turn>): seq<Turn> {
    if s == [] then []
    else Keep(s[..|s| - 1], gone) + (if s[|s| - 1] in gone then [] else [s[|s| - 1]])
  }

  function Elements(s: seq<Turn>): set<Turn> {
    set t | t in s
  }

  /** The turn the runner holds that is neither dropped as stale nor prompted yet. */
  function Undecided(pc: Pc): seq<Turn> {
    match pc
    case Popped(t) => [t]
    case Admitted(t) => [t]
    case _ => []
  }

  ghost predicate Before(order: seq<Turn>, a: Turn, b: Turn) {
    exists i, j :: 0 <= i < j < |order| && order[i] == a && order[j] == b
  }

  /** Accepted turns that no push has displaced, in the order in which they leave the queue. */
  function Waiting(s: Sys): seq<Turn> {
    s.popped + s.stopShed + s.stopping + s.queue.q
  }

  ghost predicate Shape(s: Sys) {
    && (s.queue.inFlight <==> Current(s.pc) != [] || s.pc.Closed?)
    && (s.queue.stopped <==> s.gc.Sealed?)
    && (s.queue.stopped ==> s.queue.q == [])
    && (!s.queue.stopped ==> s.stopping == s.stopShed == [])
    && (s.pc.Exited? ==> StopSignalled(s))
    && (s.pc.Blocked? && s.queue.q != [] ==> s.queue.token)
    && s.popped == s.finished + Current(s.pc)
    && (s.pc.Prompting? ==> s.pc.t in s.prompts)
    && (MutexHeld(s) ==> !s.pc.Touched?)
  }

  /** Accepted turns are distinct; none gets lost; only displacement disturbs their order. */
  ghost predicate Accounted(tried: set<Turn>, accepted: seq<Turn>, waiting: seq<Turn>, displaced: seq<Turn>) {
    && Distinct(accepted)
    && (forall t :: t in accepted ==> t in tried)
    && multiset(accepted) == multiset(waiting) + multiset(displaced)
    && waiting == Keep(accepted, Elements(displaced))
  }

  /** What the runner holds or has completed was either dropped for its age or prompted, once. */
  ghost predicate Decided(popped: seq<Turn>, prompts: seq<Turn>, stale: seq<Turn>, undecided: seq<Turn>) {
    multiset(popped) == multiset(prompts) + multiset(stale) + multiset(undecided)
  }

  /** The done channels closed so far, each as often as one of these histories says. */
  ghost predicate ClosesExact(s: Sys) {
    s.closes == multiset(s.finished) + multiset(s.displaced) + multiset(s.stopShed)
  }

  ghost predicate ShedMarked(shed: set<Turn>, displaced: seq<Turn>, stale: seq<Turn>, stopShed: seq<Turn>) {
    forall t :: t in shed <==> t in displaced || t in stale || t in stopShed
  }

  ghost predicate AllReactions(s: seq<Turn>) {
    forall t :: t in s ==> t.kind == Reaction
  }

  ghost predicate InAcceptOrder(accepted: seq<Turn>, q: seq<Turn>) {
    forall i, j :: 0 <= i < j < |q| ==> Before(accepted, q[i], q[j])
  }

  ghost predicate OlderThanQueued(accepted: seq<Turn>, v: Turn, q: seq<Turn>) {
    forall i :: 0 <= i < |q| && q[i].kind == Reaction ==> Before(accepted, v, q[i])
  }

  /** The queue is in accept order, and every displaced reaction is older than every queued one. */
  ghost predicate Ordered(accepted: seq<Turn>, q: seq<Turn>, displaced: seq<Turn>) {
    && InAcceptOrder(accepted, q)
    && (forall v :: v in displaced ==> OlderThanQueued(accepted, v, q))
    && (forall v :: v in displaced ==> v in accepted)
    && (forall r :: r in q ==> r in accepted)
  }

  ghost predicate Bounded(q: seq<Turn>) {
    |q| > SESSION_QUEUE_CAP ==> forall i :: 0 <= i < |q| ==> q[i].kind == User
  }

  ghost predicate Inv(s: Sys) {
    && Shape(s)
    && Accounted(s.tried, s.accepted, Waiting(s), s.displaced)
    && ClosesExact(s)
    && ShedMarked(s.shed, s.displaced, s.stale, s.stopShed)
    && Decided(s.popped, s.prompts, s.stale, Undecided(s.pc))
    && AllReactions(s.displaced) && AllReactions(s.stale)
    && Ordered(s.accepted, s.queue.q, s.displaced)
    && Bounded(s.queue.q)
  }

  lemma InitInv()
    ensures Inv(INIT)
  {
  }

  lemma ShapePush(s: Sys, t: Turn)
    requires Shape(s) && Enabled(s, Push(t))
    ensures Shape(Apply(s, Push(t)))
  {
  }

  lemma ShapePop(s: Sys)
    requires Shape(s) && Enabled(s, Pop)
    ensures Shape(Apply(s, Pop))
  {
  }

  lemma ShapeHeld(s: Sys, a: Action)
    requires Shape(s) && Enabled(s, a)
    requires a.DropStale? || a.Admit? || a.StartPrompt? || a.EndPrompt? || a.TouchSession? || a.CloseDone?
    ensures Shape(Apply(s, a))
  {
  }

  lemma ShapeIdle(s: Sys, a: Action)
    requires Shape(s) && Enabled(s, a)
    requires a.SeeEmpty? || a.WakeByToken? || a.WakeByStop? || a.FinishInFlight?
    ensures Shape(Apply(s, a))
  {
  }

  lemma ShapeCollector(s: Sys, a: Action)
    requires Shape(s) && Enabled(s, a)
    requires a.GcSawIdle? || a.GcGiveUp? || a.GcSignal? || a.GcStop? || a.GcCloseOne?
    ensures Shape(Apply(s, a))
  {
  }

  lemma ShapeStep(s: Sys, a: Action)
    requires Shape(s) && Enabled(s, a)
    ensures Shape(Apply(s, a))
  {
    match a {
      case Push(t) => ShapePush(s, t);
      case Pop => ShapePop(s);
      case SeeEmpty | WakeByToken | WakeByStop | FinishInFlight => ShapeIdle(s, a);
      case DropStale(_) | Admit(_) | StartPrompt | EndPrompt | TouchSession | CloseDone => ShapeHeld(s, a);
      case GcSawIdle | GcGiveUp | GcSignal | GcStop | GcCloseOne => ShapeCollector(s, a);
    }
  }

  /** A push does not touch the runner or the turns it has taken. */
  lemma PushKeeps(s: Sys, t: Turn)
    requires Enabled(s, Push(t))
    ensures var s' := Apply(s, Push(t));
            && s'.pc == s.pc && s'.popped == s.popped && s'.finished == s.finished && s'.prompts == s.prompts
            && s'.stale == s.stale && s'.stopShed == s.stopShed && s'.stopping == s.stopping
  {
  }

  predicate ByRunner(a: Action) {
    a.Pop? || a.SeeEmpty? || a.WakeByToken? || a.WakeByStop? || a.DropStale? || a.Admit? || a.StartPrompt?
    || a.EndPrompt? || a.TouchSession? || a.CloseDone? || a.FinishInFlight?
  }

  predicate ByCollector(a: Action) {
    a.GcSawIdle? || a.GcGiveUp? || a.GcSignal? || a.GcStop? || a.GcCloseOne?
  }

  /** Neither does the collector. */
  lemma CollectorKeeps(s: Sys, a: Action)
    requires ByCollector(a) && Enabled(s, a)
    ensures var s' := Apply(s, a);
            && s'.pc == s.pc && s'.popped == s.popped && s'.finished == s.finished && s'.prompts == s.prompts
            && s'.stale == s.stale
  {
  }

  // ---- accounting ----

  lemma {:induction false} KeepConcat(a: seq<Turn>, b: seq<Turn>, gone: set<Turn>)
    ensures Keep(a + b, gone) == Keep(a, gone) + Keep(b, gone)
  {
    if b == [] {
      assert a + b == a;
    } else {
      var n := |b| - 1;
      assert (a + b)[..|a + b| - 1] == a + b[..n];
      KeepConcat(a, b[..n], gone);
    }
  }

  lemma {:induction false} KeepAll(s: seq<Turn>, gone: set<Turn>)
    requires forall t :: t in s ==> t !in gone
    ensures Keep(s, gone) == s
  {
    if s != [] {
      KeepAll(s[..|s| - 1], gone);
    }
  }

  lemma {:induction false} KeepTwice(s: seq<Turn>, gone: set<Turn>, more: set<Turn>)
    ensures Keep(s, gone + more) == Keep(Keep(s, gone), more)
  {
    if s != [] {
      var n := |s| - 1;
      KeepTwice(s[..n], gone, more);
      KeepConcat(Keep(s[..n], gone), if s[n] in gone then [] else [s[n]], more);
    }
  }

  /** Removing one turn that occurs once. */
  lemma KeepDrops(a: seq<Turn>, v: Turn, b: seq<Turn>)
    requires v !in a && v !in b
    ensures Keep(a + [v] + b, {v}) == a + b
  {
    var gone := {v};
    KeepConcat(a + [v], b, gone);
    KeepAll(b, gone);
    assert Keep(a + [v], gone) == a by {
      assert (a + [v])[..|a + [v]| - 1] == a;
      KeepAll(a, gone);
    }
  }

  lemma AccountAccepted(tried: set<Turn>, accepted: seq<Turn>, waiting: seq<Turn>, displaced: seq<Turn>, t: Turn)
    requires Accounted(tried, accepted, waiting, displaced) && t !in tried
    ensures Accounted(tried + {t}, accepted + [t], waiting + [t], displaced)
  {
    MultisetHas(displaced, t);
    MultisetHas(accepted, t);
    DistinctAppend(accepted, t);
    KeepConcat(accepted, [t], Elements(displaced));
    KeepAll([t], Elements(displaced));
  }

  lemma AccountTried(tried: set<Turn>, accepted: seq<Turn>, waiting: seq<Turn>, displaced: seq<Turn>, t: Turn)
    requires Accounted(tried, accepted, waiting, displaced)
    ensures Accounted(tried + {t}, accepted, waiting, displaced)
  {
  }

  lemma DisplacedOnce(accepted: seq<Turn>, before: seq<Turn>, v: Turn, after: seq<Turn>, displaced: seq<Turn>)
    requires Distinct(accepted) && multiset(accepted) == multiset(before + [v] + after) + multiset(displaced)
    ensures v !in before && v !in after
    ensures multiset(accepted) == multiset(before + after) + multiset(displaced + [v])
  {
    DistinctCounts(accepted, v);
    MultisetHas(before, v);
    MultisetHas(after, v);
  }

  lemma KeepDisplaced(accepted: seq<Turn>, before: seq<Turn>, v: Turn, after: seq<Turn>, displaced: seq<Turn>)
    requires before + [v] + after == Keep(accepted, Elements(displaced)) && v !in before && v !in after
    ensures before + after == Keep(accepted, Elements(displaced + [v]))
  {
    KeepDrops(before, v, after);
    KeepTwice(accepted, Elements(displaced), {v});
    assert Elements(displaced + [v]) == Elements(displaced) + {v};
  }

  lemma AccountDisplaced(tried: set<Turn>, accepted: seq<Turn>, before: seq<Turn>, v: Turn, after: seq<Turn>, displaced: seq<Turn>)
    requires Accounted(tried, accepted, before + [v] + after, displaced)
    ensures Accounted(tried, accepted, before + after, displaced + [v])
  {
    DisplacedOnce(accepted, before, v, after, displaced);
    KeepDisplaced(accepted, before, v, after, displaced);
  }

  lemma WaitingPop(s: Sys)
    requires Enabled(s, Pop) && s.stopShed == s.stopping == []
    ensures Waiting(Apply(s, Pop)) == Waiting(s)
  {
    assert s.queue.q == [s.queue.q[0]] + s.queue.q[1..];
  }

  lemma WaitingStop(s: Sys)
    requires Enabled(s, GcStop) && s.stopping == []
    ensures Waiting(Apply(s, GcStop)) == Waiting(s)
  {
  }

  lemma WaitingCloseOne(s: Sys)
    requires Enabled(s, GcCloseOne)
    ensures Waiting(Apply(s, GcCloseOne)) == Waiting(s)
  {
    assert s.stopping == [s.stopping[0]] + s.stopping[1..];
  }

  /** Only a push changes the turns that wait or have been served. */
  lemma WaitingKept(s: Sys, a: Action)
    requires Shape(s) && Enabled(s, a) && !a.Push?
    ensures Waiting(Apply(s, a)) == Waiting(s)
  {
    match a {
      case Pop => WaitingPop(s);
      case GcStop => WaitingStop(s);
      case GcCloseOne => WaitingCloseOne(s);
      case _ =>
    }
  }

  lemma AcceptedKept(s: Sys, a: Action)
    requires Enabled(s, a) && !a.Push?
    ensures var s' := Apply(s, a); s'.tried == s.tried && s'.accepted == s.accepted && s'.displaced == s.displaced
  {
  }

  lemma AccountStep(s: Sys, a: Action)
    requires Shape(s) && Enabled(s, a)
    requires Accounted(s.tried, s.accepted, Waiting(s), s.displaced)
    ensures var s' := Apply(s, a); Accounted(s'.tried, s'.accepted, Waiting(s'), s'.displaced)
  {
    if a.Push? {
      AccountPush(s, a.turn);
    } else {
      WaitingKept(s, a);
      AcceptedKept(s, a);
    }
  }

  function Head(s: Sys): seq<Turn> {
    s.popped + s.stopShed + s.stopping
  }

  lemma PushHistory(s: Sys, t: Turn)
    requires Enabled(s, Push(t))
    ensures var s', p := Apply(s, Push(t)), PushTurn(s.queue, t);
            && s'.tried == s.tried + {t}
            && (!p.accepted ==> s'.accepted == s.accepted && s'.displaced == s.displaced && Waiting(s') == Waiting(s))
            && (p.accepted ==> s'.accepted == s.accepted + [t])
            && (p.accepted && p.displaced.None? ==> s'.displaced == s.displaced && Waiting(s') == Waiting(s) + [t])
            && (p.displaced.Some? ==> p.accepted)
  {
  }

  lemma DisplacingPush(s: Sys, t: Turn)
    requires Enabled(s, Push(t)) && PushTurn(s.queue, t).displaced.Some?
    ensures var s', q, k := Apply(s, Push(t)), s.queue.q, OldestReaction(s.queue.q);
            && k < |q| && s'.displaced == s.displaced + [q[k]] && s'.queue.q == Drop(q, k) + [t] && Head(s') == Head(s)
  {
  }

  lemma SplitAt(head: seq<Turn>, q: seq<Turn>, k: nat, t: Turn)
    requires k < |q|
    ensures head + q == head + q[..k] + [q[k]] + q[k + 1..]
    ensures head + (Drop(q, k) + [t]) == head + q[..k] + q[k + 1..] + [t]
  {
    assert q == q[..k] + [q[k]] + q[k + 1..];
  }

  lemma DisplaceHistory(s: Sys, t: Turn)
    requires Enabled(s, Push(t)) && PushTurn(s.queue, t).displaced.Some?
    ensures var s', q, k := Apply(s, Push(t)), s.queue.q, OldestReaction(s.queue.q);
            && k < |q| && s'.displaced == s.displaced + [q[k]]
            && Waiting(s) == Head(s) + q[..k] + [q[k]] + q[k + 1..]
            && Waiting(s') == Head(s) + q[..k] + q[k + 1..] + [t]
  {
    DisplacingPush(s, t);
    SplitAt(Head(s), s.queue.q, OldestReaction(s.queue.q), t);
  }

  lemma {:induction false} AccountPush(s: Sys, t: Turn)
    requires Enabled(s, Push(t)) && Accounted(s.tried, s.accepted, Waiting(s), s.displaced)
    ensures var s' := Apply(s, Push(t)); Accounted(s'.tried, s'.accepted, Waiting(s'), s'.displaced)
  {
    var p := PushTurn(s.queue, t);
    if !p.accepted {
      PushHistory(s, t);
      AccountTried(s.tried, s.accepted, Waiting(s), s.displaced, t);
    } else if p.displaced.None? {
      PushHistory(s, t);
      AccountAccepted(s.tried, s.accepted, Waiting(s), s.displaced, t);
    } else {
      AccountDisplacing(s, t);
    }
  }

  lemma {:induction false} AccountDisplacing(s: Sys, t: Turn)
    requires Enabled(s, Push(t)) && PushTurn(s.queue, t).displaced.Some?
    requires Accounted(s.tried, s.accepted, Waiting(s), s.displaced)
    ensures var s' := Apply(s, Push(t)); Accounted(s'.tried, s'.accepted, Waiting(s'), s'.displaced)
  {
    var q, k := s.queue.q, OldestReaction(s.queue.q);
    PushHistory(s, t);
    DisplaceHistory(s, t);
    AccountDisplaced(s.tried, s.accepted, Head(s) + q[..k], q[k], q[k + 1..], s.displaced);
    AccountAccepted(s.tried, s.accepted, Head(s) + q[..k] + q[k + 1..], s.displaced + [q[k]], t);
  }

  // ---- completion ----

  lemma DecidedPop(s: Sys)
    requires Enabled(s, Pop) && Decided(s.popped, s.prompts, s.stale, Undecided(s.pc))
    ensures var s' := Apply(s, Pop); Decided(s'.popped, s'.prompts, s'.stale, Undecided(s'.pc))
  {
  }

  lemma DecidedPrompt(s: Sys)
    requires Enabled(s, StartPrompt) && Decided(s.popped, s.prompts, s.stale, Undecided(s.pc))
    ensures var s' := Apply(s, StartPrompt); Decided(s'.popped, s'.prompts, s'.stale, Undecided(s'.pc))
  {
  }

  lemma DecidedStale(s: Sys, now: int)
    requires Enabled(s, DropStale(now)) && Decided(s.popped, s.prompts, s.stale, Undecided(s.pc))
    ensures var s' := Apply(s, DropStale(now)); Decided(s'.popped, s'.prompts, s'.stale, Undecided(s'.pc))
  {
  }

  /** The runner's other steps keep what it holds, or let go of a turn it has decided on. */
  lemma SameDecision(s: Sys, a: Action)
    requires a.Admit? || a.EndPrompt? || a.TouchSession? || a.CloseDone? || a.FinishInFlight?
    requires Enabled(s, a)
    ensures var s' := Apply(s, a);
            && Undecided(s'.pc) == Undecided(s.pc) && s'.popped == s.popped && s'.prompts == s.prompts && s'.stale == s.stale
  {
  }

  lemma DecidedRunner(s: Sys, a: Action)
    requires a.Admit? || a.EndPrompt? || a.TouchSession? || a.CloseDone? || a.FinishInFlight?
    requires Enabled(s, a) && Decided(s.popped, s.prompts, s.stale, Undecided(s.pc))
    ensures var s' := Apply(s, a); Decided(s'.popped, s'.prompts, s'.stale, Undecided(s'.pc))
  {
    SameDecision(s, a);
  }

  lemma DecidedIdle(s: Sys, a: Action)
    requires a.SeeEmpty? || a.WakeByToken? || a.WakeByStop?
    requires Enabled(s, a) && Decided(s.popped, s.prompts, s.stale, Undecided(s.pc))
    ensures var s' := Apply(s, a); Decided(s'.popped, s'.prompts, s'.stale, Undecided(s'.pc))
  {
  }

  lemma DecidedCollector(s: Sys, a: Action)
    requires ByCollector(a) && Enabled(s, a) && Decided(s.popped, s.prompts, s.stale, Undecided(s.pc))
    ensures var s' := Apply(s, a); Decided(s'.popped, s'.prompts, s'.stale, Undecided(s'.pc))
  {
    CollectorKeeps(s, a);
  }

  lemma {:induction false} DecidedStep(s: Sys, a: Action)
    requires Enabled(s, a) && Decided(s.popped, s.prompts, s.stale, Undecided(s.pc))
    ensures var s' := Apply(s, a); Decided(s'.popped, s'.prompts, s'.stale, Undecided(s'.pc))
  {
    match a {
      case Pop => DecidedPop(s);
      case StartPrompt => DecidedPrompt(s);
      case DropStale(now) => DecidedStale(s, now);
      case Push(t) => PushKeeps(s, t);
      case Admit(_) | EndPrompt | TouchSession | CloseDone | FinishInFlight => DecidedRunner(s, a);
      case SeeEmpty | WakeByToken | WakeByStop => DecidedIdle(s, a);
      case _ => DecidedCollector(s, a);
    }
  }

  lemma ClosesStep(s: Sys, a: Action)
    requires Enabled(s, a) && ClosesExact(s)
    ensures ClosesExact(Apply(s, a))
  {
    match a {
      case Push(t) => ClosesPush(s, t);
      case CloseDone => ClosesDone(s);
      case GcCloseOne => ClosesStopped(s);
      case _ => ClosesOther(s, a);
    }
  }

  lemma ClosesPush(s: Sys, t: Turn)
    requires Enabled(s, Push(t)) && ClosesExact(s)
    ensures ClosesExact(Apply(s, Push(t)))
  {
    PushKeeps(s, t);
  }

  lemma ClosesDone(s: Sys)
    requires Enabled(s, CloseDone) && ClosesExact(s)
    ensures ClosesExact(Apply(s, CloseDone))
  {
  }

  lemma ClosesStopped(s: Sys)
    requires Enabled(s, GcCloseOne) && ClosesExact(s)
    ensures ClosesExact(Apply(s, GcCloseOne))
  {
  }

  lemma ClosesOther(s: Sys, a: Action)
    requires Enabled(s, a) && ClosesExact(s) && !a.Push? && !a.CloseDone? && !a.GcCloseOne?
    ensures ClosesExact(Apply(s, a))
  {
  }

  lemma ShedStep(s: Sys, a: Action)
    requires Enabled(s, a) && ShedMarked(s.shed, s.displaced, s.stale, s.stopShed)
    ensures var s' := Apply(s, a); ShedMarked(s'.shed, s'.displaced, s'.stale, s'.stopShed)
  {
  }

  lemma ReactionsStep(s: Sys, a: Action)
    requires Enabled(s, a) && AllReactions(s.displaced) && AllReactions(s.stale)
    ensures var s' := Apply(s, a); AllReactions(s'.displaced) && AllReactions(s'.stale)
  {
  }

  // ---- order ----

  lemma BeforeGrows(accepted: seq<Turn>, t: Turn, a: Turn, b: Turn)
    ensures Before(accepted, a, b) ==> Before(accepted + [t], a, b)
    ensures a in accepted ==> Before(accepted + [t], a, t)
  {
    var more := accepted + [t];
    if Before(accepted, a, b) {
      var i, j :| 0 <= i < j < |accepted| && accepted[i] == a && accepted[j] == b;
      assert more[i] == a && more[j] == b;
    }
    if a in accepted {
      var i :| 0 <= i < |accepted| && accepted[i] == a;
      assert more[i] == a && more[|accepted|] == t;
    }
  }

  lemma OrderedAccepted(accepted: seq<Turn>, q: seq<Turn>, displaced: seq<Turn>, t: Turn)
    requires Ordered(accepted, q, displaced)
    ensures Ordered(accepted + [t], q + [t], displaced)
  {
    forall a, b { BeforeGrows(accepted, t, a, b); }
  }

  /** Position i of the queue without its k-th turn. */
  function Skip(i: nat, k: nat): nat {
    if i < k then i else i + 1
  }

  lemma DropAt(q: seq<Turn>, k: nat)
    requires k < |q|
    ensures |Drop(q, k)| == |q| - 1
    ensures forall i :: 0 <= i < |q| - 1 ==> Drop(q, k)[i] == q[Skip(i, k)]
  {
  }

  lemma InOrderDropped(accepted: seq<Turn>, q: seq<Turn>, k: nat)
    requires k < |q| && InAcceptOrder(accepted, q)
    ensures InAcceptOrder(accepted, Drop(q, k))
  {
    DropAt(q, k);
  }

  lemma OlderDropped(accepted: seq<Turn>, v: Turn, q: seq<Turn>, k: nat)
    requires k < |q| && OlderThanQueued(accepted, v, q)
    ensures OlderThanQueued(accepted, v, Drop(q, k))
  {
    DropAt(q, k);
  }

  /** The oldest reaction is older than the reactions that stay behind. */
  lemma OldestIsOlder(accepted: seq<Turn>, q: seq<Turn>)
    requires InAcceptOrder(accepted, q) && OldestReaction(q) < |q|
    ensures var k := OldestReaction(q); OlderThanQueued(accepted, q[k], Drop(q, k))
  {
    var k := OldestReaction(q);
    DropAt(q, k);
    forall i | 0 <= i < |q| - 1 && q[Skip(i, k)].kind == Reaction
      ensures Before(accepted, q[k], q[Skip(i, k)])
    {
      assert i >= k;
    }
  }

  lemma OrderedDisplaced(accepted: seq<Turn>, q: seq<Turn>, displaced: seq<Turn>)
    requires Ordered(accepted, q, displaced) && OldestReaction(q) < |q|
    ensures var k := OldestReaction(q); Ordered(accepted, Drop(q, k), displaced + [q[k]])
  {
    var k := OldestReaction(q);
    InOrderDropped(accepted, q, k);
    OldestIsOlder(accepted, q);
    forall v | v in displaced + [q[k]]
      ensures OlderThanQueued(accepted, v, Drop(q, k))
    {
      if v in displaced { OlderDropped(accepted, v, q, k); }
    }
  }

  lemma OrderStep(s: Sys, a: Action)
    requires Enabled(s, a) && Ordered(s.accepted, s.queue.q, s.displaced)
    ensures var s' := Apply(s, a); Ordered(s'.accepted, s'.queue.q, s'.displaced)
  {
    if a.Push? {
      var p := PushTurn(s.queue, a.turn);
      if p.displaced.Some? {
        var k := OldestReaction(s.queue.q);
        OrderedDisplaced(s.accepted, s.queue.q, s.displaced);
        OrderedAccepted(s.accepted, Drop(s.queue.q, k), s.displaced + [s.queue.q[k]], a.turn);
      } else if p.accepted {
        OrderedAccepted(s.accepted, s.queue.q, s.displaced, a.turn);
      }
    }
  }

  lemma BoundStep(s: Sys, a: Action)
    requires Enabled(s, a) && Bounded(s.queue.q)
    ensures Bounded(Apply(s, a).queue.q)
  {
  }

  // ---- whole runs ----

  lemma {:induction false} InvStep(s: Sys, a: Action)
    requires Inv(s) && Enabled(s, a)
    ensures Inv(Apply(s, a))
  {
    ShapeStep(s, a);
    AccountStep(s, a);
    ClosesStep(s, a);
    ShedStep(s, a);
    DecidedStep(s, a);
    ReactionsStep(s, a);
    OrderStep(s, a);
    BoundStep(s, a);
  }

  lemma {:induction false} RunsKeepInv(run: seq<Action>)
    requires Exec(INIT, run).Some?
    ensures Inv(Exec(INIT, run).value)
  {
    if run == [] {
      InitInv();
    } else {
      RunsKeepInv(run[..|run| - 1]);
      InvStep(Exec(INIT, run[..|run| - 1]).value, run[|run| - 1]);
    }
  }

  // ---- what every run guarantees ----

  function One(b: bool): nat {
    if b then 1 else 0
  }

  /** The runner still owns t and has not completed it. */
  predicate InFlight(s: Sys, t: Turn) {
    t in Current(s.pc)
  }

  /** Displaced by a push, or taken by stop. */
  predicate Dropped(s: Sys, t: Turn) {
    t in s.displaced || t in s.stopping || t in s.stopShed
  }

  lemma Counts(s: Sys, t: Turn)
    requires Inv(s)
    ensures multiset(s.popped)[t] + multiset(s.stopShed)[t] + multiset(s.stopping)[t] + multiset(s.queue.q)[t]
            + multiset(s.displaced)[t] == One(t in s.accepted)
    ensures multiset(s.popped)[t] == multiset(s.finished)[t] + multiset(Current(s.pc))[t]
    ensures multiset(s.popped)[t] == multiset(s.prompts)[t] + multiset(s.stale)[t] + multiset(Undecided(s.pc))[t]
  {
    DistinctCounts(s.accepted, t);
  }

  /** Every accepted turn is queued, in flight, finished or dropped, and only one of these; a
      rejected or unknown turn is none of them. */
  lemma {:induction false} Conservation(run: seq<Action>, t: Turn)
    requires Exec(INIT, run).Some?
    ensures var s := Exec(INIT, run).value;
            One(t in s.queue.q) + One(InFlight(s, t)) + One(t in s.finished) + One(Dropped(s, t)) == One(t in s.accepted)
  {
    RunsKeepInv(run);
    Counts(Exec(INIT, run).value, t);
  }

  /** No done channel is closed twice, and none of a turn that push rejected. */
  lemma {:induction false} ClosedAtMostOnce(run: seq<Action>, t: Turn)
    requires Exec(INIT, run).Some?
    ensures var s := Exec(INIT, run).value; s.closes[t] <= One(t in s.accepted)
  {
    RunsKeepInv(run);
    Counts(Exec(INIT, run).value, t);
  }

  /** Once done is closed, the shed flag tells exactly whether Agent.Prompt ran; it ran at most once. */
  lemma {:induction false} ShedMeansNotPrompted(run: seq<Action>, t: Turn)
    requires Exec(INIT, run).Some?
    ensures var s := Exec(INIT, run).value;
            && multiset(s.prompts)[t] <= 1
            && (t in s.closes ==> (t !in s.shed <==> t in s.prompts))
  {
    RunsKeepInv(run);
    Counts(Exec(INIT, run).value, t);
  }

  function UserTurns(s: seq<Turn>): seq<Turn> {
    if s == [] then []
    else UserTurns(s[..|s| - 1]) + (if s[|s| - 1].kind == User then [s[|s| - 1]] else [])
  }

  lemma {:induction false} UserTurnsConcat(a: seq<Turn>, b: seq<Turn>)
    ensures UserTurns(a + b) == UserTurns(a) + UserTurns(b)
  {
    if b == [] {
      assert a + b == a;
    } else {
      assert (a + b)[..|a + b| - 1] == a + b[..|b| - 1];
      UserTurnsConcat(a, b[..|b| - 1]);
    }
  }

  lemma {:induction false} UserTurnsKept(s: seq<Turn>, gone: set<Turn>)
    requires forall t :: t in gone ==> t.kind == Reaction
    ensures UserTurns(Keep(s, gone)) == UserTurns(s)
  {
    if s != [] {
      var n := |s| - 1;
      UserTurnsKept(s[..n], gone);
      var kept := Keep(s[..n], gone);
      if s[n] in gone {
        assert Keep(s, gone) == kept;
      } else {
        assert (kept + [s[n]])[..|kept|] == kept;
      }
    }
  }

  /** In every run, and for every push: the turn is turned away if and only if the queue is stopped, or
      it is a reaction and the queue holds at least 32 turns, all of them user turns; some turn is
      displaced if and only if the push is accepted with at least 32 queued, one of them a reaction. */
  lemma {:induction false} PushOutcome(run: seq<Action>, t: Turn)
    requires Exec(INIT, run).Some? && Enabled(Exec(INIT, run).value, Push(t))
    ensures var s := Exec(INIT, run).value; var s' := Apply(s, Push(t));
            && (t !in s'.accepted <==> s.gc.Sealed? || (t.kind == Reaction && |s.queue.q| >= 32 && NoReaction(s.queue.q)))
            && (t in s'.accepted <==> s'.accepted == s.accepted + [t])
            && (s'.displaced != s.displaced <==> t in s'.accepted && |s.queue.q| >= 32 && !NoReaction(s.queue.q))
  {
    RunsKeepInv(run);
    PushEffect(Exec(INIT, run).value, t);
  }

  lemma PushEffect(s: Sys, t: Turn)
    requires Shape(s) && Enabled(s, Push(t)) && Accounted(s.tried, s.accepted, Waiting(s), s.displaced)
    ensures var s' := Apply(s, Push(t));
            && (t !in s'.accepted <==> s.gc.Sealed? || (t.kind == Reaction && |s.queue.q| >= 32 && NoReaction(s.queue.q)))
            && (t in s'.accepted <==> s'.accepted == s.accepted + [t])
            && (s'.displaced != s.displaced <==> t in s'.accepted && |s.queue.q| >= 32 && !NoReaction(s.queue.q))
  {
    PushDecision(s.queue, t);
    PushHistory(s, t);
    if PushTurn(s.queue, t).displaced.Some? {
      DisplaceHistory(s, t);
      assert |Apply(s, Push(t)).displaced| == |s.displaced| + 1;
    }
    assert |s.accepted + [t]| == |s.accepted| + 1;
  }

  /** Turns leave in accept order; only displaced ones are missing. */
  lemma {:induction false} Fifo(run: seq<Action>)
    requires Exec(INIT, run).Some?
    ensures var s := Exec(INIT, run).value;
            s.popped + s.stopShed + s.stopping + s.queue.q == Keep(s.accepted, Elements(s.displaced))
  {
    RunsKeepInv(run);
  }

  /** No push ever displaces a user turn: all of them are popped (or stopped) in accept order. */
  lemma {:induction false} UserFifo(run: seq<Action>)
    requires Exec(INIT, run).Some?
    ensures var s := Exec(INIT, run).value;
            UserTurns(s.popped) + UserTurns(s.stopShed) + UserTurns(s.stopping) + UserTurns(s.queue.q)
            == UserTurns(s.accepted)
  {
    RunsKeepInv(run);
    var s := Exec(INIT, run).value;
    UserTurnsKept(s.accepted, Elements(s.displaced));
    UserTurnsConcat(s.popped + s.stopShed + s.stopping, s.queue.q);
    UserTurnsConcat(s.popped + s.stopShed, s.stopping);
    UserTurnsConcat(s.popped, s.stopShed);
  }

  lemma {:induction false} AllUserTurns(q: seq<Turn>)
    requires forall i :: 0 <= i < |q| ==> q[i].kind == User
    ensures UserTurns(q) == q
  {
    if q != [] {
      AllUserTurns(q[..|q| - 1]);
    }
  }

  /** Only user turns push the queue past its cap. */
  lemma QueueBound(run: seq<Action>)
    requires Exec(INIT, run).Some?
    ensures var q := Exec(INIT, run).value.queue.q;
            |q| <= SESSION_QUEUE_CAP || UserTurns(q) == q
  {
    RunsKeepInv(run);
    var q := Exec(INIT, run).value.queue.q;
    if |q| > SESSION_QUEUE_CAP {
      AllUserTurns(q);
    }
  }

  /** Whatever push displaces is a reaction, accepted before every reaction still queued. */
  lemma {:induction false} DisplacedAreOldest(run: seq<Action>, v: Turn, r: Turn)
    requires Exec(INIT, run).Some?
    requires v in Exec(INIT, run).value.displaced
    ensures v.kind == Reaction
    ensures var s := Exec(INIT, run).value;
            r in s.queue.q && r.kind == Reaction ==> Before(s.accepted, v, r)
  {
    RunsKeepInv(run);
    var s := Exec(INIT, run).value;
    assert OlderThanQueued(s.accepted, v, s.queue.q);
  }

  /** A runner about to wait on a non-empty queue always finds a wake-up token. */
  lemma {:induction false} NoLostWakeup(run: seq<Action>)
    requires Exec(INIT, run).Some?
    ensures var s := Exec(INIT, run).value; s.pc.Blocked? && s.queue.q != [] ==> Enabled(s, WakeByToken)
  {
    RunsKeepInv(run);
  }

  /** The step with which the runner judged t's age. */
  predicate JudgedAt(run: seq<Action>, t: Turn, k: nat) {
    k < |run| && Exec(INIT, run[..k]).Some? && Exec(INIT, run[..k]).value.pc == Popped(t)
  }

  /** t was dropped: a reaction more than sixty seconds old. */
  ghost predicate DroppedOld(run: seq<Action>, t: Turn) {
    exists k: nat :: JudgedAt(run, t, k) && run[k].DropStale? && t.kind == Reaction && run[k].now - t.enqueuedAt > 60_000_000_000
  }

  /** t was admitted: a user turn, or a reaction at most sixty seconds old. */
  ghost predicate AdmittedFresh(run: seq<Action>, t: Turn) {
    exists k: nat :: JudgedAt(run, t, k) && run[k].Admit?
                && (t.kind == User || run[k].now - t.enqueuedAt <= 60_000_000_000)
  }

  lemma {:induction false} JudgementStays(run: seq<Action>, a: Action, t: Turn)
    ensures DroppedOld(run, t) ==> DroppedOld(run + [a], t)
    ensures AdmittedFresh(run, t) ==> AdmittedFresh(run + [a], t)
  {
    var more := run + [a];
    forall k | 0 <= k < |run|
      ensures more[..k] == run[..k] && more[k] == run[k]
    {
    }
    if DroppedOld(run, t) {
      var k: nat :| JudgedAt(run, t, k) && run[k].DropStale? && run[k].now - t.enqueuedAt > 60_000_000_000;
      assert JudgedAt(more, t, k);
    }
    if AdmittedFresh(run, t) {
      var k: nat :| JudgedAt(run, t, k) && run[k].Admit?
               && (t.kind == User || run[k].now - t.enqueuedAt <= 60_000_000_000);
      assert JudgedAt(more, t, k);
    }
  }

  lemma StaleOrHeld(s: Sys, a: Action, t: Turn)
    requires Enabled(s, a)
    ensures var s' := Apply(s, a);
            && (t in s'.stale ==> t in s.stale || (a.DropStale? && s.pc == Popped(t) && TooOld(t, a.now)))
            && (t in s'.prompts || s'.pc == Admitted(t) ==>
                  t in s.prompts || s.pc == Admitted(t) || (a.Admit? && s.pc == Popped(t) && !TooOld(t, a.now)))
  {
  }

  /** In every run a turn is dropped for its age only if it is a reaction that is more than sixty seconds
      old when the runner looks at it, and prompted only if it is a user turn or not that old. */
  lemma {:induction false} JudgedByAge(run: seq<Action>, t: Turn)
    requires Exec(INIT, run).Some?
    ensures var s := Exec(INIT, run).value;
            && (t in s.stale ==> DroppedOld(run, t))
            && (t in s.prompts || s.pc == Admitted(t) ==> AdmittedFresh(run, t))
  {
    if run != [] {
      var n := |run| - 1;
      var s, a := Exec(INIT, run[..n]).value, run[n];
      JudgedByAge(run[..n], t);
      assert run == run[..n] + [a];
      JudgementStays(run[..n], a, t);
      StaleOrHeld(s, a, t);
      assert s.pc == Popped(t) ==> JudgedAt(run, t, n);
    }
  }

  /** The runner can always go on with a popped turn, in the one way that its age allows. */
  lemma {:induction false} AgeDecides(run: seq<Action>, now: int)
    requires Exec(INIT, run).Some? && Exec(INIT, run).value.pc.Popped?
    ensures var s := Exec(INIT, run).value;
            && (Enabled(s, DropStale(now)) <==> s.pc.t.kind == Reaction && now - s.pc.t.enqueuedAt > 60_000_000_000)
            && (Enabled(s, Admit(now)) <==> !Enabled(s, DropStale(now)))
  {
  }

  /** No turn is completed by the runner while the collector works between idle test and stop. */
  lemma {:induction false} NoCompletionDuringEviction(run: seq<Action>)
    requires Exec(INIT, run).Some? && MutexHeld(Exec(INIT, run).value)
    ensures !Enabled(Exec(INIT, run).value, CloseDone) && !Enabled(Exec(INIT, run).value, TouchSession)
  {
    RunsKeepInv(run);
    NeitherTouchNorClose(Exec(INIT, run).value);
  }

  lemma NeitherTouchNorClose(s: Sys)
    requires MutexHeld(s) && !s.pc.Touched?
    ensures !Enabled(s, CloseDone) && !Enabled(s, TouchSession)
  {
  }

  lemma {:induction false} ExecSnoc(s: Sys, run: seq<Action>, a: Action)
    requires Exec(s, run).Some? && Enabled(Exec(s, run).value, a)
    ensures Exec(s, run + [a]) == Some(Apply(Exec(s, run).value, a))
  {
    assert (run + [a])[..|run|] == run;
  }
}
