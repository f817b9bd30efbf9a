/** The router's session map and the methods that change it under the router's mutex (install,
    touch and gcOnce in internal/router/router.go). Their specifications are steps of RouterRuns. */
module SessionTable {
  import opened Common
  import S = SessionRuns
  import opened TurnQueue
  import opened RouterRuns

  // ---- one collection ----

  /** Evicts these sessions one after the other. */
  function EvictAll(r: Router, sids: seq<nat>): Option<Router> {
    if sids == [] then Some(r)
    else
      match EvictAll(r, sids[..|sids| - 1])
      case None => None
      case Some(u) =>
        var sid := sids[|sids| - 1];
        if Enabled(u, Evict(sid)) then Some(Apply(u, Evict(sid))) else None
  }

  function Evictions(sids: seq<nat>): (run: seq<Action>)
    ensures |run| == |sids|
  {
    seq(|sids|, i requires 0 <= i < |sids| => Evict(sids[i]))
  }

  /** A collection is part of a run, so everything proved about runs holds after it. */
  lemma {:induction false} CollectionIsARun(cfg: Config, run: seq<Action>, sids: seq<nat>)
    requires Exec(cfg, run).Some? && EvictAll(Exec(cfg, run).value, sids).Some?
    ensures Exec(cfg, run + Evictions(sids)) == EvictAll(Exec(cfg, run).value, sids)
  {
    if sids == [] {
      NoMore(run);
    } else {
      var n := |sids| - 1;
      CollectionIsARun(cfg, run, sids[..n]);
      assert Evictions(sids) == Evictions(sids[..n]) + [Evict(sids[n])];
      Assoc(run, Evictions(sids[..n]), [Evict(sids[n])]);
      ExecSnoc(cfg, run + Evictions(sids[..n]), Evict(sids[n]));
    }
  }

  /** Due for eviction: in the map, idle, and unused for longer than the time to live. */
  predicate Due(r: Router, conv: string) {
    conv in r.mapped && r.mapped[conv] in r.sessions && Expired(r, r.sessions[r.mapped[conv]])
  }

  predicate Expired(r: Router, e: Entry) {
    Idle(e.s.core.queue) && e.lastUsed < r.now - r.cfg.ttl
  }

  /** Conversations of different sessions do not disturb each other's eviction. */
  lemma EvictKeepsOthers(r: Router, sid: nat, conv: string)
    requires MapOk(r) && Enabled(r, Evict(sid)) && conv != r.sessions[sid].conv
    ensures var r' := Apply(r, Evict(sid)); MapOk(r') && (Due(r', conv) <==> Due(r, conv))
    ensures var r' := Apply(r, Evict(sid)); conv in r'.mapped <==> conv in r.mapped
    ensures var r' := Apply(r, Evict(sid)); conv in r.mapped ==> r'.mapped[conv] == r.mapped[conv]
  {
  }

  /** A due session can be evicted. */
  lemma {:induction false} DueIsEnabled(r: Router, conv: string)
    requires Inv(r) && Due(r, conv)
    ensures Enabled(r, Evict(r.mapped[conv])) && r.sessions[r.mapped[conv]].conv == conv
  {
    assert EntryOk(r, r.mapped[conv]);
  }

  lemma EnabledIsDue(r: Router, conv: string)
    requires MapOk(r) && conv in r.mapped && Enabled(r, Evict(r.mapped[conv]))
    ensures Due(r, conv)
  {
  }

  /** Due means: without queued or running turns, and unused for longer than the time to live; and exactly
      the due sessions can be evicted. */
  lemma DueIff(r: Router, conv: string)
    requires Inv(r) && conv in r.mapped
    ensures r.mapped[conv] in r.sessions
    ensures Due(r, conv) <==> Enabled(r, Evict(r.mapped[conv]))
    ensures var e := r.sessions[r.mapped[conv]];
            Due(r, conv) <==> e.s.core.queue.q == [] && !e.s.core.queue.inFlight && r.now - e.lastUsed > r.cfg.ttl
  {
    if Due(r, conv) {
      DueIsEnabled(r, conv);
    } else if Enabled(r, Evict(r.mapped[conv])) {
      EnabledIsDue(r, conv);
    }
  }

  /** A collection has got this far: the due sessions of all conversations outside `rest` are gone,
      the other sessions are as they were. */
  ghost predicate Swept(start: Router, r: Router, rest: set<string>) {
    && (forall conv :: conv in r.mapped <==> conv in start.mapped && (conv in rest || !Due(start, conv)))
    && (forall conv :: conv in r.mapped ==> r.mapped[conv] == start.mapped[conv] && (Due(r, conv) <==> Due(start, conv)))
  }

  lemma SweptSkip(start: Router, r: Router, rest: set<string>, conv: string)
    requires Swept(start, r, rest) && conv in rest && conv in r.mapped && !Due(r, conv)
    ensures Swept(start, r, rest - {conv})
  {
  }

  lemma SweptEvict(start: Router, r: Router, r': Router, rest: set<string>, conv: string)
    requires Swept(start, r, rest) && Due(r, conv) && r'.mapped == r.mapped - {conv}
    requires forall c :: c in r'.mapped ==> (Due(r', c) <==> Due(r, c))
    ensures Swept(start, r', rest - {conv})
  {
  }

  /** The collector's loop invariant. */
  ghost predicate Collecting(start: Router, r: Router, evicted: seq<nat>, rest: set<string>) {
    EvictAll(start, evicted) == Some(r) && rest <= r.mapped.Keys && Swept(start, r, rest)
  }

  lemma {:induction false} EvictAllKeepsInv(r: Router, sids: seq<nat>)
    requires Inv(r) && EvictAll(r, sids).Some?
    ensures Inv(EvictAll(r, sids).value)
  {
    if sids != [] {
      var n := |sids| - 1;
      EvictAllKeepsInv(r, sids[..n]);
      EvictStep(EvictAll(r, sids[..n]).value, sids[n]);
    }
  }

  lemma CollectStarts(r: Router)
    requires Inv(r)
    ensures Collecting(r, r, [], r.mapped.Keys)
  {
  }

  lemma CollectEnds(start: Router, r: Router, evicted: seq<nat>)
    requires Inv(start) && Collecting(start, r, evicted, {})
    ensures EvictAll(start, evicted) == Some(r) && Inv(r) && Swept(start, r, {})
  {
    EvictAllKeepsInv(start, evicted);
  }

  lemma {:induction false} CollectSkips(start: Router, r: Router, evicted: seq<nat>, rest: set<string>, conv: string)
    requires Inv(start) && Collecting(start, r, evicted, rest) && conv in rest && !Due(r, conv)
    ensures Collecting(start, r, evicted, rest - {conv})
  {
    SweptSkip(start, r, rest, conv);
  }

  lemma {:induction false} EvictedIsDue(r: Router, conv: string)
    requires Inv(r) && Due(r, conv)
    ensures Enabled(r, Evict(r.mapped[conv]))
    ensures var r' := Apply(r, Evict(r.mapped[conv]));
            && r'.mapped == r.mapped - {conv}
            && forall c :: c in r'.mapped ==> (Due(r', c) <==> Due(r, c))
  {
    DueIsEnabled(r, conv);
    forall c | c != conv { EvictKeepsOthers(r, r.mapped[conv], c); }
  }

  lemma CollectStep(start: Router, r: Router, evicted: seq<nat>, rest: set<string>, conv: string, sid: nat)
    requires Collecting(start, r, evicted, rest) && conv in rest && Due(r, conv) && Enabled(r, Evict(sid))
    requires var r' := Apply(r, Evict(sid));
             r'.mapped == r.mapped - {conv} && forall c :: c in r'.mapped ==> (Due(r', c) <==> Due(r, c))
    ensures Collecting(start, Apply(r, Evict(sid)), evicted + [sid], rest - {conv})
  {
    SweptEvict(start, r, Apply(r, Evict(sid)), rest, conv);
    assert (evicted + [sid])[..|evicted|] == evicted;
  }

  lemma CollectEvicts(start: Router, r: Router, evicted: seq<nat>, rest: set<string>, conv: string)
    requires Inv(start) && Collecting(start, r, evicted, rest) && conv in rest && Due(r, conv)
    ensures Enabled(r, Evict(r.mapped[conv]))
    ensures Collecting(start, Apply(r, Evict(r.mapped[conv])), evicted + [r.mapped[conv]], rest - {conv})
  {
    EvictAllKeepsInv(start, evicted);
    EvictedIsDue(r, conv);
    CollectStep(start, r, evicted, rest, conv, r.mapped[conv]);
  }

  lemma CollectLooksUp(start: Router, r: Router, evicted: seq<nat>, rest: set<string>, conv: string)
    requires Inv(start) && Collecting(start, r, evicted, rest) && conv in rest
    ensures conv in r.mapped && r.mapped[conv] in r.sessions && r.sessions[r.mapped[conv]].conv == conv
  {
    EvictAllKeepsInv(start, evicted);
  }

  // ---- the table ----

  class Table {
    const cfg: Config
    var now: int
    var sessions: map<nat, Entry>
    var mapped: map<string, nat>
    ghost var calls: map<nat, Call>   // how far the callers have got

    ghost function State(): Router
      reads this
    {
      Router(cfg, now, sessions, mapped, calls)
    }

    constructor (cfg: Config)
      ensures State() == Init(cfg)
    {
      this.cfg := cfg;
      now := 0;
      sessions := map[];
      mapped := map[];
      calls := map[];
    }

    /** Registers a private session, or stops it if the conversation already has one. */
    method Install(ghost id: nat, conv: string, sid: nat, resumed: bool) returns (winner: nat, won: bool)
      requires Enabled(State(), RouterRuns.Install(id))
      requires calls[id].conv == conv && calls[id].phase == Installing(sid, resumed)
      modifies this
      ensures State() == Apply(old(State()), RouterRuns.Install(id))
      ensures won == (conv !in old(mapped)) && conv in mapped && winner == mapped[conv]
      ensures calls[id].phase == Holding(winner, won && !resumed && calls[id].priorTurns)
    {
      ghost var r := State();
      if conv in mapped {
        sessions := sessions[sid := sessions[sid].(s := S.Apply(sessions[sid].s, S.Evict))];
        winner, won := mapped[conv], false;
      } else {
        mapped := mapped[conv := sid];
        sessions := sessions[sid := sessions[sid].(resumed := resumed)];
        winner, won := sid, true;
      }
      calls := Apply(r, RouterRuns.Install(id)).calls;
    }

    method Touch(conv: string)
      requires MapOk(State())
      modifies this`sessions
      ensures State() == RouterRuns.Touch(old(State()), conv)
    {
      if conv in mapped {
        sessions := sessions[mapped[conv] := sessions[mapped[conv]].(lastUsed := now)];
      }
    }

    /** One pass of the collector: it evicts exactly the sessions that are due, each in one step. */
    method GcOnce() returns (ghost evicted: seq<nat>)
      requires Inv(State())
      modifies this`sessions, this`mapped
      ensures EvictAll(old(State()), evicted) == Some(State()) && Inv(State())
      ensures Swept(old(State()), State(), {})
    {
      CollectStarts(State());
      evicted := EvictDue(mapped.Keys, State());
      CollectEnds(old(State()), State(), evicted);
    }

    /** The collector's loop over these conversations. */
    method EvictDue(convs: set<string>, ghost start: Router) returns (ghost evicted: seq<nat>)
      requires Inv(start) && Collecting(start, State(), [], convs)
      modifies this`sessions, this`mapped
      ensures Collecting(start, State(), evicted, {})
    {
      var cutoff := now - cfg.ttl;
      var rest := convs;
      evicted := [];
      while rest != {}
        invariant now - cfg.ttl == cutoff && Collecting(start, State(), evicted, rest)
        decreases rest
      {
        var conv :| conv in rest;
        evicted := Consider(conv, cutoff, start, evicted, rest);
        rest := rest - {conv};
      }
    }

    /** Evicts the session of one conversation if it is due. */
    method Consider(conv: string, cutoff: int, ghost start: Router, ghost before: seq<nat>, ghost rest: set<string>)
      returns (ghost evicted: seq<nat>)
      requires Inv(start) && cutoff == now - cfg.ttl && Collecting(start, State(), before, rest) && conv in rest
      modifies this`sessions, this`mapped
      ensures Collecting(start, State(), evicted, rest - {conv})
    {
      evicted := before;
      CollectLooksUp(start, State(), before, rest, conv);
      var sid := mapped[conv];
      if Idle(sessions[sid].s.core.queue) && sessions[sid].lastUsed < cutoff {
        CollectEvicts(start, State(), before, rest, conv);
        EvictOne(conv, sid);
        evicted := evicted + [sid];
      } else {
        CollectSkips(start, State(), before, rest, conv);
      }
    }

    /** Stops and removes the session of one conversation. */
    method EvictOne(conv: string, sid: nat)
      requires Enabled(State(), Evict(sid)) && sessions[sid].conv == conv
      modifies this`sessions, this`mapped
      ensures State() == Apply(old(State()), Evict(sid))
    {
      sessions := sessions[sid := sessions[sid].(s := S.Apply(sessions[sid].s, S.Evict))];
      mapped := mapped - {conv};
    }
  }
}
