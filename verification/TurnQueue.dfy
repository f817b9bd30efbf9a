/** The per-session FIFO of pending turns (sessionQueue in internal/router/router.go). */
module TurnQueue {
  import opened Common
  import opened OptionCache

  /** The soft bound on the pending queue; only user turns may exceed it. */
  const SESSION_QUEUE_CAP: nat := 32

  datatype Kind = User | Reaction

  /** The immutable part of a queued request. Requests are told apart by their id. */
  datatype Turn = Turn(id: nat, kind: Kind, enqueuedAt: int, opts: Options, seeded: bool)

  /** What the queue's mutex protects, plus its one-slot notify channel. */
  datatype QueueState = QueueState(q: seq<Turn>, inFlight: bool, stopped: bool, token: bool)

  const EMPTY_QUEUE := QueueState([], false, false, false)

  /** The position of the oldest reaction, or the length of the queue if it holds none. */
  function OldestReaction(q: seq<Turn>): (k: nat)
    ensures k <= |q|
    ensures k < |q| ==> q[k].kind == Reaction
    ensures forall i :: 0 <= i < k ==> q[i].kind == User
  {
    if q == [] || q[0].kind == Reaction then 0
    else
      var rest := q[1..];
      assert q[0].kind.User? && forall i :: 1 <= i < |q| ==> q[i] == rest[i - 1];
      1 + OldestReaction(rest)
  }

  function Drop<T>(s: seq<T>, k: nat): seq<T>
    requires k < |s|
  {
    s[..k] + s[k + 1..]
  }

  datatype PushResult = PushResult(state: QueueState, accepted: bool, displaced: Option<Turn>)

  /** One critical section of push. */
  function PushTurn(s: QueueState, t: Turn): PushResult {
    var k := OldestReaction(s.q);
    if s.stopped then
      PushResult(s, false, None)
    else if |s.q| < SESSION_QUEUE_CAP then
      PushResult(s.(q := s.q + [t], token := true), true, None)
    else if k < |s.q| then
      PushResult(s.(q := Drop(s.q, k) + [t], token := true), true, Some(s.q[k]))
    else if t.kind == Reaction then
      PushResult(s, false, None)
    else
      PushResult(s.(q := s.q + [t], token := true), true, None)
  }

  /** The critical section of popOrWait on a non-empty queue. */
  function PopTurn(s: QueueState): QueueState
    requires s.q != []
  {
    s.(q := s.q[1..], inFlight := true)
  }

  /** The critical section of stop; the pending turns are s.q. */
  function StopQueue(s: QueueState): QueueState {
    s.(q := [], stopped := true)
  }

  predicate Idle(s: QueueState) {
    !s.inFlight && s.q == []
  }

  /** A queued request: the flag `done` is true once its done channel is closed. */
  class TurnReq {
    const turn: Turn
    var shed: bool
    var err: Option<string>
    var done: bool

    constructor (turn: Turn)
      ensures this.turn == turn && !shed && err == None && !done
    {
      this.turn := turn;
      shed := false;
      err := None;
      done := false;
    }

    /** Closing a closed channel panics, so the caller must know that it is open. */
    method CloseDone()
      requires !done
      modifies this`done
      ensures done
    {
      done := true;
    }
  }

  function Turns(rs: seq<TurnReq>): (ts: seq<Turn>)
    ensures |ts| == |rs|
    ensures forall i :: 0 <= i < |rs| ==> ts[i] == rs[i].turn
  {
    seq(|rs|, i requires 0 <= i < |rs| => rs[i].turn)
  }

  class SessionQueue {
    var q: seq<TurnReq>
    var inFlight: bool
    var stopped: bool
    var token: bool

    /** Pending requests are pairwise distinct objects that nobody has completed yet. */
    ghost predicate Valid()
      reads this, q
    {
      && (forall i, j :: 0 <= i < j < |q| ==> q[i] != q[j])
      && (forall i :: 0 <= i < |q| ==> !q[i].done && !q[i].shed)
    }

    function State(): QueueState
      reads this
    {
      QueueState(Turns(q), inFlight, stopped, token)
    }

    constructor ()
      ensures Valid() && State() == EMPTY_QUEUE
    {
      q := [];
      inFlight := false;
      stopped := false;
      token := false;
    }

    /** The position of the oldest pending reaction. */
    method FindOldestReaction() returns (k: nat)
      ensures k == OldestReaction(State().q)
    {
      k := 0;
      while k < |q| && q[k].turn.kind != Reaction
        invariant 0 <= k <= |q|
        invariant forall i :: 0 <= i < k ==> q[i].turn.kind == User
      {
        k := k + 1;
      }
      OldestReactionIs(Turns(q), k);
    }

    /** Removes one pending request and completes it as shed. */
    method Shed(k: nat)
      requires Valid() && k < |q|
      modifies this`q, q[k]
      ensures q == Drop(old(q), k) && Valid()
      ensures State() == old(State()).(q := Drop(old(State()).q, k))
      ensures old(q)[k].done && old(q)[k].shed && old(q)[k] !in q
    {
      var dropped := q[k];
      q := q[..k] + q[k + 1..];
      dropped.shed := true;
      dropped.CloseDone();
      assert Turns(q) == Drop(Turns(old(q)), k);
    }

    /** Accepts or rejects req; the only request completed on the way is the displaced reaction. */
    method Push(req: TurnReq) returns (accepted: bool)
      requires Valid() && req !in q && !req.done && !req.shed
      modifies this, q
      ensures Valid()
      ensures var p := PushTurn(old(State()), req.turn);
              && State() == p.state
              && accepted == p.accepted == (req in q)
              && (p.displaced.None? ==> forall r :: r in old(q) ==> r in q)
              && (p.displaced.Some? ==> p.displaced.value == old(q)[OldestReaction(old(State()).q)].turn)
      ensures accepted <==> !old(stopped) && !(req.turn.kind == Reaction && |old(q)| >= 32
                                               && forall i :: 0 <= i < |old(q)| ==> old(q)[i].turn.kind == User)
      ensures !req.done && !req.shed
      ensures forall r :: r in old(q) ==> r.done == r.shed == (r !in q)
    {
      if stopped {
        return false;
      }
      if |q| >= SESSION_QUEUE_CAP {
        var k := FindOldestReaction();
        if k < |q| {
          Shed(k);
        } else if req.turn.kind == Reaction {
          return false;
        }
      }
      Enqueue(req);
      return true;
    }

    /** Appends req and leaves a wake-up token, keeping the one that may already be there. */
    method Enqueue(req: TurnReq)
      requires Valid() && req !in q && !req.done && !req.shed
      modifies this`q, this`token
      ensures Valid() && q == old(q) + [req]
      ensures State() == old(State()).(q := old(State()).q + [req.turn], token := true)
    {
      q := q + [req];
      token := true;
      assert Turns(q) == Turns(old(q)) + [req.turn];
    }

    /** One pass of popOrWait's locked section: no request means that the caller goes on to wait. */
    method TryPop() returns (r: TurnReq?)
      requires Valid()
      modifies this
      ensures Valid()
      ensures old(q) == [] ==> r == null && State() == old(State())
      ensures old(q) != [] ==> r == old(q)[0] && q == old(q)[1..] && r !in q
      ensures old(q) != [] ==> State() == PopTurn(old(State()))
    {
      if |q| > 0 {
        r := q[0];
        assert Turns(q[1..]) == Turns(q)[1..];
        q := q[1..];
        inFlight := true;
        return r;
      }
      return null;
    }

    method FinishInFlight()
      requires Valid()
      modifies this`inFlight
      ensures Valid() && State() == old(State()).(inFlight := false)
    {
      inFlight := false;
    }

    /** Seals the queue and completes every pending request as shed, each exactly once. */
    method Stop()
      requires Valid()
      modifies this, q
      ensures Valid() && State() == StopQueue(old(State()))
      ensures forall r :: r in old(q) ==> r.done && r.shed
    {
      stopped := true;
      var pending := q;
      q := [];
      for i := 0 to |pending|
        invariant q == [] && stopped && inFlight == old(inFlight) && token == old(token)
        invariant forall j :: 0 <= j < i ==> pending[j].done && pending[j].shed
        invariant forall j :: i <= j < |pending| ==> !pending[j].done && !pending[j].shed
      {
        pending[i].shed := true;
        pending[i].CloseDone();
      }
    }
  }

  /** A scan that stops at the first reaction finds the oldest one. */
  lemma {:induction false} OldestReactionIs(q: seq<Turn>, k: nat)
    requires k <= |q| && (k < |q| ==> q[k].kind == Reaction)
    requires forall i :: 0 <= i < k ==> q[i].kind == User
    ensures OldestReaction(q) == k
  {
  }

  predicate NoReaction(q: seq<Turn>) {
    forall i :: 0 <= i < |q| ==> q[i].kind == User
  }

  /** When a push is accepted, and when it displaces a queued turn. */
  lemma PushDecision(s: QueueState, t: Turn)
    ensures PushTurn(s, t).accepted <==> !s.stopped && !(t.kind == Reaction && |s.q| >= 32 && NoReaction(s.q))
    ensures PushTurn(s, t).displaced.Some? <==> PushTurn(s, t).accepted && |s.q| >= 32 && !NoReaction(s.q)
  {
    var k := OldestReaction(s.q);
    if k < |s.q| { assert s.q[k].kind == Reaction; }
  }
}
