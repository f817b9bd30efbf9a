/** What the accepted turns of a router run are: which of them are seeded with the transcript, exactly,
    and when they were queued. */
module AcceptedTurns {
  import opened Common
  import opened TurnQueue
  import Q = QueueRuns
  import S = SessionRuns
  import opened RouterRuns

  /** The call that an action belongs to. */
  predicate Acts(a: Action, id: nat) {
    match a
    case RejectEmpty(i) => i == id
    case Hit(i) => i == id
    case Miss(i, _) => i == id
    case MkdirFails(i, _) => i == id
    case AgentFails(i, _) => i == id
    case AgentResumes(i) => i == id
    case AgentCreates(i) => i == id
    case Install(i) => i == id
    case Submit(i) => i == id
    case Wake(i) => i == id
    case _ => false
  }

  /** Who created a session stays known; and nobody has used a session that has never been mapped. */
  predicate CreatorOk(r: Router, sid: nat)
    requires sid in r.sessions
  {
    var e := r.sessions[sid];
    && In(r, e.creator) && !r.calls[e.creator].phase.Started?
    && (r.calls[e.creator].phase.Creating? || r.calls[e.creator].phase.Installing? ==> r.calls[e.creator].phase.sid == sid)
    && (e.s.core.gc.Watching? && !MappedTo(r, e.conv, sid) ==> e.s.core.accepted == [])
  }

  ghost predicate CreatorsOk(r: Router) {
    forall sid :: sid in r.sessions ==> CreatorOk(r, sid)
  }

  predicate SeedAs(r: Router, id: nat, sid: nat, seed: bool)
    requires In(r, id)
  {
    && sid in r.sessions
    && (seed <==> r.sessions[sid].creator == id && !r.sessions[sid].resumed && r.calls[id].priorTurns)
  }

  /** The turn of a call is, or is going to be, seeded exactly if the call created its session, the
      agent session is new, and there are prior turns. */
  predicate SeedExact(r: Router, id: nat)
    requires In(r, id)
  {
    match r.calls[id].phase
    case Holding(sid, seed) => SeedAs(r, id, sid, seed)
    case Waiting(at) => SeedAs(r, id, at.sid, at.turn.seeded)
    case Returned(Some(at)) => SeedAs(r, id, at.sid, at.turn.seeded)
    case _ => true
  }

  ghost predicate SeedsExact(r: Router) {
    forall id :: In(r, id) ==> SeedExact(r, id)
  }

  /** Other calls do not notice an action. */
  lemma OtherCalls(r: Router, a: Action, i: nat)
    requires Enabled(r, a) && In(r, i) && !Acts(a, i)
    ensures In(Apply(r, a), i) && Apply(r, a).calls[i] == r.calls[i]
  {
    if !OnSessions(a) { OtherCallsOnly(r, a, i); } else if a.Step? || a.Evict? { SessionActions(r, a); }
  }

  lemma OtherCallsOnly(r: Router, a: Action, i: nat)
    requires Enabled(r, a) && In(r, i) && !Acts(a, i) && !OnSessions(a)
    ensures In(Apply(r, a), i) && Apply(r, a).calls[i] == r.calls[i]
  {
  }

  lemma SessionActions(r: Router, a: Action)
    requires Enabled(r, a) && (a.Step? || a.Evict?)
    ensures Apply(r, a).calls == r.calls
  {
  }

  /** A session that the action installs for its creator. */
  predicate InstalledBy(r: Router, a: Action, sid: nat)
    requires Enabled(r, a)
  {
    a.Install? && r.calls[a.id].conv !in r.mapped && r.calls[a.id].phase.sid == sid
  }

  lemma EntriesKept(r: Router, a: Action, sid: nat)
    requires Enabled(r, a) && sid in r.sessions
    ensures sid in Apply(r, a).sessions
    ensures var e, e' := r.sessions[sid], Apply(r, a).sessions[sid];
            e'.creator == e.creator && e'.conv == e.conv && (!InstalledBy(r, a, sid) ==> e'.resumed == e.resumed)
  {
    if !OnSessions(a) { OnlyCalls(r, a); }
  }

  lemma SeedUnmoved(r: Router, r': Router, i: nat)
    requires In(r, i) && In(r', i) && r'.calls[i] == r.calls[i] && SeedExact(r, i)
    requires forall sid :: sid in r.sessions ==>
               sid in r'.sessions && r'.sessions[sid].creator == r.sessions[sid].creator
               && (HoldsOrPlaced(r, i, sid) ==> r'.sessions[sid].resumed == r.sessions[sid].resumed)
    ensures SeedExact(r', i)
  {
  }

  predicate HoldsOrPlaced(r: Router, i: nat, sid: nat)
    requires In(r, i)
  {
    match r.calls[i].phase
    case Holding(x, _) => x == sid
    case Waiting(at) => at.sid == sid
    case Returned(Some(at)) => at.sid == sid
    case _ => false
  }

  /** Nobody holds a session that is only now being installed. */
  lemma PrivateIsUnused(r: Router, id: nat, i: nat)
    requires In(r, id) && r.calls[id].phase.Installing? && CallOk(r, id) && CreatorOk(r, r.calls[id].phase.sid)
    requires In(r, i) && CallOk(r, i)
    ensures !HoldsOrPlaced(r, i, r.calls[id].phase.sid)
  {
  }

  lemma InstallsUnused(r: Router, a: Action, i: nat, sid: nat)
    requires Enabled(r, a) && sid in r.sessions && InstalledBy(r, a, sid)
    requires CallOk(r, a.id) && CreatorOk(r, sid) && In(r, i) && CallOk(r, i)
    ensures !HoldsOrPlaced(r, i, sid)
  {
    PrivateIsUnused(r, a.id, i);
  }

  lemma SeedOfOther(r: Router, a: Action, i: nat)
    requires Enabled(r, a) && CallsOk(r) && CreatorsOk(r) && In(r, i) && !Acts(a, i) && SeedExact(r, i)
    ensures In(Apply(r, a), i) && SeedExact(Apply(r, a), i)
  {
    OtherCalls(r, a, i);
    var r' := Apply(r, a);
    forall sid | sid in r.sessions
      ensures sid in r'.sessions && r'.sessions[sid].creator == r.sessions[sid].creator
      ensures HoldsOrPlaced(r, i, sid) ==> r'.sessions[sid].resumed == r.sessions[sid].resumed
    {
      EntriesKept(r, a, sid);
      if InstalledBy(r, a, sid) { InstallsUnused(r, a, i, sid); }
    }
    SeedUnmoved(r, r', i);
  }

  /** A call that takes up a session it has not created. */
  lemma SeedOfHit(r: Router, id: nat)
    requires MapOk(r) && CreatorsOk(r) && Enabled(r, Hit(id))
    ensures SeedExact(Apply(r, Hit(id)), id)
  {
    assert CreatorOk(r, r.mapped[r.calls[id].conv]);
  }

  lemma SeedOfInstall(r: Router, id: nat)
    requires MapOk(r) && CreatorsOk(r) && Enabled(r, Install(id)) && CallOk(r, id)
    ensures SeedExact(Apply(r, Install(id)), id)
  {
    if r.calls[id].conv in r.mapped { assert CreatorOk(r, r.mapped[r.calls[id].conv]); }
  }

  lemma SeedOfSubmit(r: Router, id: nat)
    requires Enabled(r, Submit(id)) && SeedExact(r, id)
    ensures SeedExact(Apply(r, Submit(id)), id)
  {
  }

  lemma SeedOfRest(r: Router, a: Action, id: nat)
    requires Enabled(r, a) && Acts(a, id) && !a.Hit? && !a.Install? && !a.Submit? && SeedExact(r, id)
    ensures In(Apply(r, a), id) && SeedExact(Apply(r, a), id)
  {
  }

  lemma SeedOfActor(r: Router, a: Action, id: nat)
    requires Enabled(r, a) && Acts(a, id) && In(r, id) && SeedExact(r, id)
    requires MapOk(r) && CreatorsOk(r) && CallOk(r, id)
    ensures In(Apply(r, a), id) && SeedExact(Apply(r, a), id)
  {
    if a.Hit? {
      SeedOfHit(r, id);
    } else if a.Install? {
      SeedOfInstall(r, id);
    } else if a.Submit? {
      SeedOfSubmit(r, id);
    } else {
      SeedOfRest(r, a, id);
    }
  }

  lemma SeedsStep(r: Router, a: Action)
    requires Inv(r) && CreatorsOk(r) && SeedsExact(r) && Enabled(r, a)
    ensures SeedsExact(Apply(r, a))
  {
    forall i | In(Apply(r, a), i)
      ensures SeedExact(Apply(r, a), i)
    {
      if !In(r, i) {
        SpawnedIsFresh(r, a, i);
      } else {
        assert SeedExact(r, i);
        if Acts(a, i) { SeedOfActor(r, a, i); } else { SeedOfOther(r, a, i); }
      }
    }
  }

  lemma SpawnedIsFresh(r: Router, a: Action, i: nat)
    requires Enabled(r, a) && In(Apply(r, a), i) && !In(r, i)
    ensures a.Spawn? && a.id == i && Apply(r, a).calls[i].phase.Started?
  {
    if !OnSessions(a) { SpawnOnly(r, a, i); } else if a.Step? || a.Evict? { SessionActions(r, a); }
  }

  lemma SpawnOnly(r: Router, a: Action, i: nat)
    requires Enabled(r, a) && In(Apply(r, a), i) && !In(r, i) && !OnSessions(a)
    ensures a.Spawn? && a.id == i && Apply(r, a).calls[i].phase.Started?
  {
  }

  // ---- creators stay known ----

  /** A call that has created sid moves on, but not back and not to another session. */
  lemma CreatorMoves(r: Router, a: Action, id: nat, sid: nat)
    requires Enabled(r, a) && In(r, id) && !r.calls[id].phase.Started?
    requires r.calls[id].phase.Creating? || r.calls[id].phase.Installing? ==> r.calls[id].phase.sid == sid
    ensures In(Apply(r, a), id)
    ensures var p := Apply(r, a).calls[id].phase; !p.Started? && (p.Creating? || p.Installing? ==> p.sid == sid)
  {
    if Acts(a, id) { ActorMoves(r, a, id, sid); } else { OtherCalls(r, a, id); }
  }

  lemma ActorMoves(r: Router, a: Action, id: nat, sid: nat)
    requires Enabled(r, a) && In(r, id) && !r.calls[id].phase.Started? && Acts(a, id)
    requires r.calls[id].phase.Creating? || r.calls[id].phase.Installing? ==> r.calls[id].phase.sid == sid
    ensures In(Apply(r, a), id)
    ensures var p := Apply(r, a).calls[id].phase; !p.Started? && (p.Creating? || p.Installing? ==> p.sid == sid)
  {
  }

  /** A session that nobody has used stays unused until it is mapped. */
  predicate Unused(r: Router, sid: nat)
    requires sid in r.sessions
  {
    r.sessions[sid].s.core.gc.Watching? && !MappedTo(r, r.sessions[sid].conv, sid) ==> r.sessions[sid].s.core.accepted == []
  }

  lemma CoreUnused(s: S.Session, b: S.Action)
    requires S.Reached(s) && S.Enabled(s, b) && !S.FineGrained(b)
    ensures S.Apply(s, b).core.gc.Watching? ==> s.core.gc.Watching?
    ensures s.core.gc.Sealed? ==> S.Apply(s, b).core.gc.Sealed?
    ensures !(b.Core? && b.a.Push?) ==> S.Apply(s, b).core.accepted == s.core.accepted
  {
    if b.Evict? {
      S.EvictEffect(s.core);
    } else if b.Core? && b.a.Push? {
      PushKeepsGc(s.core, b.a.turn);
    } else {
      InternalFrame(s, b);
    }
  }

  lemma PushKeepsGc(c: Q.Sys, t: Turn)
    requires Q.Enabled(c, Q.Push(t))
    ensures Q.Apply(c, Q.Push(t)).gc == c.gc
  {
  }

  /** The map entry of another session appears or disappears, or this one's. */
  lemma MapMoves(r: Router, a: Action, sid: nat)
    requires Enabled(r, a) && sid in r.sessions && sid in Apply(r, a).sessions
    requires Apply(r, a).sessions[sid].conv == r.sessions[sid].conv
    ensures var r', conv := Apply(r, a), r.sessions[sid].conv;
            MappedTo(r, conv, sid) && !MappedTo(r', conv, sid) ==> a.Evict? && (a.sid == sid || conv == r.sessions[a.sid].conv)
  {
    if !OnSessions(a) { OnlyCalls(r, a); }
  }

  lemma EvictIsOwn(r: Router, a: Action, sid: nat)
    requires Enabled(r, a) && a.Evict? && sid in r.sessions && MappedTo(r, r.sessions[sid].conv, sid)
    requires r.sessions[sid].conv == r.sessions[a.sid].conv
    ensures a.sid == sid
  {
  }

  lemma EvictSeals(r: Router, sid: nat)
    requires Enabled(r, Evict(sid))
    ensures sid in Apply(r, Evict(sid)).sessions && !Apply(r, Evict(sid)).sessions[sid].s.core.gc.Watching?
  {
    S.EvictEffect(r.sessions[sid].s.core);
  }

  lemma PushIsHeld(r: Router, sid: nat, a: Action)
    requires Enabled(r, a) && sid in r.sessions && MoveOf(r, sid, a).Some?
    requires MoveOf(r, sid, a).value.Core? && MoveOf(r, sid, a).value.a.Push?
    ensures a.Submit? && r.calls[a.id].phase.Holding? && r.calls[a.id].phase.sid == sid
  {
  }

  lemma UnusedMove(r: Router, a: Action, sid: nat)
    requires Enabled(r, a) && sid in r.sessions && S.Reached(r.sessions[sid].s) && CallsOk(r)
    ensures sid in Apply(r, a).sessions
    ensures var s, s' := r.sessions[sid].s, Apply(r, a).sessions[sid].s;
            && (s'.core.gc.Watching? ==> s.core.gc.Watching?)
            && (s'.core.accepted == s.core.accepted || MappedTo(r, r.sessions[sid].conv, sid) || s.core.gc.Sealed?)
            && (s.core.gc.Sealed? ==> s'.core.gc.Sealed?)
  {
    var s := r.sessions[sid].s;
    Projection(r, sid, a);
    if MoveOf(r, sid, a).Some? {
      var b := MoveOf(r, sid, a).value;
      MoveIsNotFine(r, sid, a);
      CoreUnused(s, b);
      if b.Core? && b.a.Push? {
        PushIsHeld(r, sid, a);
        assert CallOk(r, a.id);
      }
    }
  }

  lemma UnusedStep(r: Router, a: Action, sid: nat)
    requires Enabled(r, a) && sid in r.sessions && Unused(r, sid) && S.Reached(r.sessions[sid].s) && CallsOk(r)
    ensures sid in Apply(r, a).sessions && Unused(Apply(r, a), sid)
  {
    EntriesKept(r, a, sid);
    MapMoves(r, a, sid);
    UnusedMove(r, a, sid);
    if a.Evict? && MappedTo(r, r.sessions[sid].conv, sid) && r.sessions[sid].conv == r.sessions[a.sid].conv {
      EvictIsOwn(r, a, sid);
      EvictSeals(r, sid);
    }
  }

  lemma MoveIsNotFine(r: Router, sid: nat, a: Action)
    requires Enabled(r, a) && sid in r.sessions && MoveOf(r, sid, a).Some?
    ensures !S.FineGrained(MoveOf(r, sid, a).value)
  {
  }

  lemma CreatorStep(r: Router, a: Action, sid: nat)
    requires Enabled(r, a) && sid in r.sessions && CreatorOk(r, sid) && S.Reached(r.sessions[sid].s) && CallsOk(r)
    ensures sid in Apply(r, a).sessions && CreatorOk(Apply(r, a), sid)
  {
    EntriesKept(r, a, sid);
    CreatorMoves(r, a, r.sessions[sid].creator, sid);
    UnusedStep(r, a, sid);
  }

  lemma CreatorOfNew(r: Router, a: Action, sid: nat)
    requires Enabled(r, a) && sid in Apply(r, a).sessions && sid !in r.sessions
    ensures CreatorOk(Apply(r, a), sid)
  {
    OnlyMissAdds(r, sid, a);
  }

  lemma CreatorsStep(r: Router, a: Action)
    requires Inv(r) && CreatorsOk(r) && Enabled(r, a)
    ensures CreatorsOk(Apply(r, a))
  {
    forall sid | sid in Apply(r, a).sessions
      ensures CreatorOk(Apply(r, a), sid)
    {
      if sid in r.sessions {
        assert CreatorOk(r, sid);
        CreatorStep(r, a, sid);
      } else {
        CreatorOfNew(r, a, sid);
      }
    }
  }

  lemma {:induction false} RunsKeepSeeds(cfg: Config, run: seq<Action>)
    requires Exec(cfg, run).Some?
    ensures CreatorsOk(Exec(cfg, run).value) && SeedsExact(Exec(cfg, run).value)
  {
    if run != [] {
      var n := |run| - 1;
      RunsKeepSeeds(cfg, run[..n]);
      RunsKeepInv(cfg, run[..n]);
      CreatorsStep(Exec(cfg, run[..n]).value, run[n]);
      SeedsStep(Exec(cfg, run[..n]).value, run[n]);
    }
  }

  /** An accepted turn is seeded with the transcript if and only if its call created the session, the
      agent session was not resumed, and the call came with prior turns. */
  lemma {:induction false} SeededIff(cfg: Config, run: seq<Action>, sid: nat, t: Turn)
    requires Exec(cfg, run).Some? && sid in Exec(cfg, run).value.sessions
    requires t in Exec(cfg, run).value.sessions[sid].s.core.accepted
    ensures var r := Exec(cfg, run).value;
            && In(r, t.id)
            && (t.seeded <==> r.sessions[sid].creator == t.id && !r.sessions[sid].resumed && r.calls[t.id].priorTurns)
  {
    RunsKeepInv(cfg, run);
    RunsKeepSeeds(cfg, run);
    var r := Exec(cfg, run).value;
    assert EntryOk(r, sid);
    assert SeedExact(r, t.id);
  }

  // ---- when a turn was queued ----

  predicate PushedAt(cfg: Config, run: seq<Action>, t: Turn, k: nat) {
    && k < |run| && run[k] == Submit(t.id)
    && Exec(cfg, run[..k]).Some? && Exec(cfg, run[..k]).value.now == t.enqueuedAt
  }

  lemma PlaceOfActor(r: Router, a: Action, id: nat, at: Placed)
    requires Enabled(r, a) && Acts(a, id) && In(r, id) && In(Apply(r, a), id)
    requires PlaceOf(Apply(r, a).calls[id]) == Some(at)
    ensures PlaceOf(r.calls[id]) == Some(at) || (a == Submit(id) && at.turn.id == id && at.turn.enqueuedAt == r.now)
  {
  }

  /** The time in an accepted turn is the time of its push, so its age is the time it has waited. */
  lemma {:induction false} EnqueuedWhenPushed(cfg: Config, run: seq<Action>, id: nat)
    requires Exec(cfg, run).Some? && In(Exec(cfg, run).value, id)
    requires PlaceOf(Exec(cfg, run).value.calls[id]).Some?
    ensures exists k: nat :: PushedAt(cfg, run, PlaceOf(Exec(cfg, run).value.calls[id]).value.turn, k)
  {
    var n := |run| - 1;
    var r, a := Exec(cfg, run[..n]).value, run[n];
    var at := PlaceOf(Apply(r, a).calls[id]).value;
    if !In(r, id) {
      SpawnedIsFresh(r, a, id);
    } else {
      if Acts(a, id) { PlaceOfActor(r, a, id, at); } else { OtherCalls(r, a, id); }
      if PlaceOf(r.calls[id]) == Some(at) {
        EnqueuedWhenPushed(cfg, run[..n], id);
        var k: nat :| PushedAt(cfg, run[..n], at.turn, k);
        assert run[..n][..k] == run[..k];
        assert PushedAt(cfg, run, at.turn, k);
      } else {
        assert PushedAt(cfg, run, at.turn, n);
      }
    }
  }
}
