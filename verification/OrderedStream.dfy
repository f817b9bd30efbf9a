/** The stream of one query: the SSE writer, the gate that orders user writes and heartbeat frames,
    and the sink with its heartbeat (internal/poeproto/poeproto.go, internal/httpsrv/handler.go). */
module OrderedStream {
  import opened Common
  import opened Sse
  import opened Events
  import Sinks

  // ---- the wire ----

  /** Events written so far. A connection that fails for good accepts only its first `limit` frames. */
  datatype Wire = Wire(events: seq<Event>, closed: bool, limit: Option<nat>)

  predicate Accepts(w: Wire) {
    !w.closed && (w.limit.Some? ==> |w.events| < w.limit.value)
  }

  function Emit(w: Wire, e: Event): Wire {
    if Accepts(w) then w.(events := w.events + [e]) else w
  }

  function EmitText(w: Wire, s: string): Wire {
    if s == "" then w else Emit(w, Text(s))
  }

  function EmitDone(w: Wire): Wire {
    Emit(w, Done).(closed := true)
  }

  class SSEWriter {
    const limit: Option<nat>
    var out: string
    var closed: bool
    var frames: nat
    ghost var events: seq<Event>

    /** The response consists of exactly the frames of the events written. */
    ghost predicate Valid()
      reads this
    {
      frames == |events| && out == StreamBytes(Frames(events))
    }

    ghost function State(): Wire
      reads this
    {
      Wire(events, closed, limit)
    }

    constructor (limit: Option<nat>)
      ensures Valid() && State() == Wire([], false, limit)
    {
      this.limit := limit;
      out := "";
      closed := false;
      frames := 0;
      events := [];
    }

    /** One frame; the connection may have failed. */
    method Event(e: Event) returns (ok: bool)
      requires Valid()
      modifies this
      ensures Valid() && State() == Emit(old(State()), e)
      ensures ok == Accepts(old(State()))
    {
      if closed {
        return false;
      }
      if limit.Some? && frames >= limit.value {
        return false;
      }
      assert Frames(events + [e]) == Frames(events) + [FrameOf(e)];
      StreamSnoc(Frames(events), FrameOf(e));
      out := out + FrameBytes(FrameOf(e));
      frames := frames + 1;
      events := events + [e];
      return true;
    }

    method Text(s: string) returns (ok: bool)
      requires Valid()
      modifies this
      ensures Valid() && State() == EmitText(old(State()), s)
      ensures ok == (s == "" || Accepts(old(State())))
    {
      if s == "" {
        return true;
      }
      ok := Event(Events.Text(s));
    }

    method Done() returns (ok: bool)
      requires Valid()
      modifies this
      ensures Valid() && State() == EmitDone(old(State()))
      ensures ok == Accepts(old(State()))
    {
      ok := Event(Events.Done);
      closed := true;
    }
  }

  // ---- the gate ----

  datatype Writer = Writer(wire: Wire, realWritten: bool, closed: bool, spinnerVisible: bool)

  /** After handleQuery has sent the meta event. */
  function Opened(limit: Option<nat>): Writer {
    Writer(Emit(Wire([], false, limit), Meta), false, false, false)
  }

  function ClearSpinner(x: Writer): Writer {
    if !x.realWritten && x.spinnerVisible then x.(wire := Emit(x.wire, Replace("")), spinnerVisible := false) else x
  }

  /** A user call on the sink, as it reaches the writer. */
  function UserStep(x: Writer, c: Sinks.SinkCall): Writer {
    if x.closed then x
    else
      match c
      case FirstChunk => x
      case Text(s) => var y := ClearSpinner(x); y.(realWritten := true, wire := EmitText(y.wire, s))
      case Replace(s) => x.(realWritten := true, spinnerVisible := false, wire := Emit(x.wire, Replace(s)))
      case Error(m, et) => var y := ClearSpinner(x); y.(realWritten := true, wire := Emit(y.wire, Error(m, et)))
      case Done => var y := ClearSpinner(x); y.(closed := true, wire := EmitDone(y.wire))
  }

  predicate GateOpen(x: Writer) {
    !x.realWritten && !x.closed
  }

  /** A heartbeat frame; dropped once the gate is closed. */
  function BeatStep(x: Writer, frame: string): Writer {
    if GateOpen(x) then x.(spinnerVisible := frame != "", wire := Emit(x.wire, Replace(frame))) else x
  }

  class OrderedWriter {
    const w: SSEWriter
    var realWritten: bool
    var closed: bool
    var spinnerVisible: bool

    ghost predicate Valid()
      reads this, w
    {
      w.Valid()
    }

    ghost function State(): Writer
      reads this, w
    {
      Writer(w.State(), realWritten, closed, spinnerVisible)
    }

    constructor (w: SSEWriter)
      requires w.Valid()
      ensures this.w == w && Valid() && State() == Writer(w.State(), false, false, false)
    {
      this.w := w;
      realWritten := false;
      closed := false;
      spinnerVisible := false;
    }

    method ClearSpinnerLocked()
      requires Valid()
      modifies this`spinnerVisible, w
      ensures Valid() && State() == ClearSpinner(old(State()))
    {
      if !realWritten && spinnerVisible {
        var _ := w.Event(Replace(""));
        spinnerVisible := false;
      }
    }

    method UserText(s: string)
      requires Valid()
      modifies this, w
      ensures Valid() && State() == UserStep(old(State()), Sinks.Text(s))
    {
      if closed {
        return;
      }
      ClearSpinnerLocked();
      realWritten := true;
      var _ := w.Text(s);
    }

    method UserReplace(s: string)
      requires Valid()
      modifies this, w
      ensures Valid() && State() == UserStep(old(State()), Sinks.Replace(s))
    {
      if closed {
        return;
      }
      realWritten := true;
      spinnerVisible := false;
      var _ := w.Event(Replace(s));
    }

    method UserError(message: string, errorType: string)
      requires Valid()
      modifies this, w
      ensures Valid() && State() == UserStep(old(State()), Sinks.Error(message, errorType))
    {
      if closed {
        return;
      }
      ClearSpinnerLocked();
      realWritten := true;
      var _ := w.Event(Error(message, errorType));
    }

    method UserDone()
      requires Valid()
      modifies this, w
      ensures Valid() && State() == UserStep(old(State()), Sinks.Done)
    {
      if closed {
        return;
      }
      ClearSpinnerLocked();
      closed := true;
      var _ := w.Done();
    }

    method HbReplace(s: string) returns (gateOpen: bool)
      requires Valid()
      modifies this`spinnerVisible, w
      ensures Valid() && State() == BeatStep(old(State()), s)
      ensures gateOpen == GateOpen(old(State()))
    {
      if realWritten || closed {
        return false;
      }
      spinnerVisible := s != "";
      var _ := w.Event(Replace(s));
      return true;
    }
  }

  // ---- the sink and its heartbeat ----

  /** hbDone: the heartbeat has been told to stop. */
  datatype Stream = Stream(x: Writer, hbDone: bool, beating: bool, spinTick: nat)

  function OpenedStream(limit: Option<nat>, heartbeat: bool): Stream {
    Stream(Opened(limit), !heartbeat, heartbeat, 0)
  }

  /** What can happen next: a call by the router, a tick, or the heartbeat noticing hbDone. */
  datatype Happening = Call(c: Sinks.SinkCall) | Tick | Leave

  function Repeat(s: string, n: nat): string {
    if n == 0 then "" else s + Repeat(s, n - 1)
  }

  /** The frame of the tick-th tick, counted from one: one to three dots, in turn. */
  function SpinnerFrame(tick: nat): string
    requires tick > 0
  {
    "> _Thinking" + Repeat(".", 1 + (tick - 1) % 3) + "_"
  }

  predicate CanHappen(s: Stream, e: Happening) {
    match e
    case Call(_) => true
    case Tick => s.beating
    case Leave => s.beating && s.hbDone
  }

  /** Error, Done and the first chunk also wake the heartbeat for shutdown. */
  function Happen(s: Stream, e: Happening): Stream {
    match e
    case Call(c) => s.(x := UserStep(s.x, c), hbDone := s.hbDone || c.FirstChunk? || c.Error? || c.Done?)
    case Tick => s.(x := BeatStep(s.x, SpinnerFrame(s.spinTick + 1)), spinTick := s.spinTick + 1, beating := GateOpen(s.x))
    case Leave => s.(beating := false)
  }

  /** The sink handed to the router, together with its heartbeat goroutine's counter. */
  class StreamSink {
    const o: OrderedWriter
    var hbDone: bool
    var beating: bool
    var spinTick: nat

    ghost predicate Valid()
      reads this, o, o.w
    {
      o.Valid()
    }

    ghost function State(): Stream
      reads this, o, o.w
    {
      Stream(o.State(), hbDone, beating, spinTick)
    }

    constructor (o: OrderedWriter, heartbeat: bool)
      requires o.Valid()
      ensures this.o == o && Valid() && State() == Stream(o.State(), !heartbeat, heartbeat, 0)
    {
      this.o := o;
      hbDone := !heartbeat;
      beating := heartbeat;
      spinTick := 0;
    }

    method Stop()
      modifies this`hbDone
      ensures hbDone
    {
      hbDone := true;
    }

    method FirstChunk()
      requires Valid()
      modifies this`hbDone
      ensures Valid() && State() == Happen(old(State()), Call(Sinks.FirstChunk))
    {
      Stop();
    }

    method Text(s: string)
      requires Valid()
      modifies o, o.w
      ensures Valid() && State() == Happen(old(State()), Call(Sinks.Text(s)))
    {
      o.UserText(s);
    }

    method Replace(s: string)
      requires Valid()
      modifies o, o.w
      ensures Valid() && State() == Happen(old(State()), Call(Sinks.Replace(s)))
    {
      o.UserReplace(s);
    }

    method Error(message: string, errorType: string)
      requires Valid()
      modifies this`hbDone, o, o.w
      ensures Valid() && State() == Happen(old(State()), Call(Sinks.Error(message, errorType)))
    {
      Stop();
      o.UserError(message, errorType);
    }

    method Done()
      requires Valid()
      modifies this`hbDone, o, o.w
      ensures Valid() && State() == Happen(old(State()), Call(Sinks.Done))
    {
      Stop();
      o.UserDone();
    }

    /** One tick of the heartbeat loop; it leaves the loop when the gate turns out to be closed. */
    method Beat()
      requires Valid() && beating
      modifies this, o, o.w
      ensures Valid() && State() == Happen(old(State()), Tick)
    {
      spinTick := spinTick + 1;
      Animate(SpinnerFrame(spinTick));
    }

    method Animate(frame: string)
      requires Valid() && beating
      modifies this`beating, o, o.w
      ensures Valid() && o.State() == BeatStep(old(o.State()), frame) && beating == GateOpen(old(o.State()))
    {
      var gateOpen := o.HbReplace(frame);
      if !gateOpen {
        beating := false;
      }
    }
  }

  /** The interleavings of router and heartbeat. */
  function Play(limit: Option<nat>, heartbeat: bool, es: seq<Happening>): Option<Stream> {
    if es == [] then Some(OpenedStream(limit, heartbeat))
    else
      var n := |es| - 1;
      match Play(limit, heartbeat, es[..n])
      case None => None
      case Some(s) => if CanHappen(s, es[n]) then Some(Happen(s, es[n])) else None
  }

  /** The router's calls among them. */
  function CallsOf(es: seq<Happening>): seq<Sinks.SinkCall> {
    if es == [] then []
    else CallsOf(es[..|es| - 1]) + (if es[|es| - 1].Call? then [es[|es| - 1].c] else [])
  }

  /** The same calls without a heartbeat. */
  function Quiet(calls: seq<Sinks.SinkCall>): Writer {
    if calls == [] then Opened(None) else UserStep(Quiet(calls[..|calls| - 1]), calls[|calls| - 1])
  }

  // ---- the gate orders the stream ----

  /** Some call other than FirstChunk has been made. */
  predicate HasWrite(calls: seq<Sinks.SinkCall>) {
    calls != [] && (!calls[|calls| - 1].FirstChunk? || HasWrite(calls[..|calls| - 1]))
  }

  /** The spinner runs through one, two and three dots, again and again. */
  lemma SpinnerCycles(tick: nat)
    requires tick > 0
    ensures SpinnerFrame(tick) == if tick % 3 == 1 then "> _Thinking._" else if tick % 3 == 2 then "> _Thinking.._" else "> _Thinking..._"
  {
    Dots(1 + (tick - 1) % 3);
  }

  lemma Dots(n: nat)
    requires 1 <= n <= 3
    ensures "> _Thinking" + Repeat(".", n) + "_" == if n == 1 then "> _Thinking._" else if n == 2 then "> _Thinking.._" else "> _Thinking..._"
  {
    assert Repeat(".", 0) == "" && Repeat(".", 1) == "." && Repeat(".", 2) == ".." && Repeat(".", 3) == "...";
  }

  /** The gate is open exactly until the first user write, however the ticks fall. */
  lemma {:induction false} GateClosesOnWrite(limit: Option<nat>, heartbeat: bool, es: seq<Happening>)
    requires Play(limit, heartbeat, es).Some?
    ensures GateOpen(Play(limit, heartbeat, es).value.x) <==> !HasWrite(CallsOf(es))
  {
    if es != [] {
      var n := |es| - 1;
      GateClosesOnWrite(limit, heartbeat, es[..n]);
      GateAfter(Play(limit, heartbeat, es[..n]).value, es[n]);
      if es[n].Call? {
        HasWriteSnoc(CallsOf(es[..n]), es[n].c);
      } else {
        NoMore(CallsOf(es[..n]));
      }
    }
  }

  lemma GateAfter(s: Stream, e: Happening)
    ensures GateOpen(Happen(s, e).x) <==> GateOpen(s.x) && !(e.Call? && !e.c.FirstChunk?)
  {
  }

  lemma HasWriteSnoc(calls: seq<Sinks.SinkCall>, c: Sinks.SinkCall)
    ensures HasWrite(calls + [c]) <==> HasWrite(calls) || !c.FirstChunk?
  {
    assert (calls + [c])[..|calls|] == calls;
  }

  /** A heartbeat tick touches the stream only while no user write has been made, and the first tick
      that finds the gate closed ends the heartbeat. */
  lemma NoFrameAfterWrite(limit: Option<nat>, heartbeat: bool, es: seq<Happening>)
    requires Play(limit, heartbeat, es).Some? && Play(limit, heartbeat, es).value.beating
    ensures var s := Play(limit, heartbeat, es).value;
            if HasWrite(CallsOf(es)) then Happen(s, Tick).x == s.x && !Happen(s, Tick).beating
            else Happen(s, Tick).x.wire == Emit(s.x.wire, Replace(SpinnerFrame(s.spinTick + 1))) && Happen(s, Tick).beating
  {
    GateClosesOnWrite(limit, heartbeat, es);
  }

  /** An open gate does not mean that the frame goes out: it does if and only if the connection still
      accepts it. */
  lemma OpenGateWritesIff(x: Writer, frame: string)
    requires GateOpen(x)
    ensures BeatStep(x, frame).wire == (if Accepts(x.wire) then x.wire.(events := x.wire.events + [Replace(frame)]) else x.wire)
    ensures BeatStep(x, frame).wire != x.wire <==> Accepts(x.wire)
  {
    assert |x.wire.events + [Replace(frame)]| == |x.wire.events| + 1;
  }

  /** A connection that fails for good after the meta event: HbReplace answers that the gate is open
      although its frame has not been written. */
  method BeatOnBrokenConnection() returns (metaWritten: bool, gateOpen: bool, frames: nat)
    ensures metaWritten && gateOpen && frames == 1
  {
    var w := new SSEWriter(Some(1));
    metaWritten := w.Event(Meta);
    var o := new OrderedWriter(w);
    ghost var before := o.State();
    gateOpen := o.HbReplace(SpinnerFrame(1));
    OpenGateWritesIff(before, SpinnerFrame(1));
    frames := w.frames;
    assert o.State().wire == before.wire;
  }

  /** The heartbeat is told to stop by the first chunk, an error or done, and by nothing else. */
  lemma {:induction false} HeartbeatIsStopped(limit: Option<nat>, heartbeat: bool, es: seq<Happening>)
    requires Play(limit, heartbeat, es).Some?
    ensures Play(limit, heartbeat, es).value.hbDone
            <==> !heartbeat || exists c :: c in CallsOf(es) && (c.FirstChunk? || c.Error? || c.Done?)
  {
    if es != [] {
      HeartbeatIsStopped(limit, heartbeat, es[..|es| - 1]);
    }
  }

  /** done is written at most once and nothing follows it. */
  predicate DoneLast(es: seq<Event>, closed: bool) {
    forall i :: 0 <= i < |es| && es[i] == Done ==> closed && i == |es| - 1
  }

  /** The stream is closed exactly with its writer, and nothing follows done. */
  ghost predicate EndsWell(x: Writer) {
    x.closed == x.wire.closed && DoneLast(x.wire.events, x.closed)
  }

  lemma EmitKeepsEnd(x: Writer, e: Event)
    requires EndsWell(x) && e != Done
    ensures EndsWell(x.(wire := Emit(x.wire, e)))
  {
  }

  lemma DoneKeepsEnd(x: Writer)
    requires EndsWell(x)
    ensures EndsWell(x.(closed := true, wire := EmitDone(x.wire)))
  {
  }

  lemma UserKeepsEnd(x: Writer, c: Sinks.SinkCall)
    requires EndsWell(x)
    ensures EndsWell(UserStep(x, c))
  {
    EmitKeepsEnd(x, Replace(""));
    var y := ClearSpinner(x);
    match c {
      case FirstChunk =>
      case Text(s) => EmitKeepsEnd(y, Events.Text(s));
      case Replace(s) => EmitKeepsEnd(x, Replace(s));
      case Error(m, et) => EmitKeepsEnd(y, Error(m, et));
      case Done => DoneKeepsEnd(y);
    }
  }

  lemma HappenKeepsDoneLast(s: Stream, e: Happening)
    requires EndsWell(s.x)
    ensures EndsWell(Happen(s, e).x)
  {
    match e {
      case Call(c) => UserKeepsEnd(s.x, c);
      case Tick => EmitKeepsEnd(s.x, Replace(SpinnerFrame(s.spinTick + 1)));
      case Leave =>
    }
  }

  lemma {:induction false} DoneIsLast(limit: Option<nat>, heartbeat: bool, es: seq<Happening>)
    requires Play(limit, heartbeat, es).Some?
    ensures var x := Play(limit, heartbeat, es).value.x; x.closed == x.wire.closed && DoneLast(x.wire.events, x.closed)
  {
    if es != [] {
      var n := |es| - 1;
      DoneIsLast(limit, heartbeat, es[..n]);
      HappenKeepsDoneLast(Play(limit, heartbeat, es[..n]).value, es[n]);
    }
  }

  // ---- the heartbeat is invisible ----

  /** x has seen heartbeat frames, u the same calls without any. */
  predicate Alike(x: Writer, u: Writer) {
    && x.wire.limit == u.wire.limit == None
    && x.closed == u.closed == x.wire.closed == u.wire.closed && x.realWritten == u.realWritten && !u.spinnerVisible
    && (if GateOpen(x) then Body(u.wire.events) == "" && (x.spinnerVisible <==> Body(x.wire.events) != "")
        else Body(x.wire.events) == Body(u.wire.events))
  }

  lemma BeatStaysAlike(x: Writer, u: Writer, frame: string)
    requires Alike(x, u)
    ensures Alike(BeatStep(x, frame), u)
  {
    BodySnoc(x.wire.events, Replace(frame));
  }

  lemma ClearStaysAlike(x: Writer, u: Writer)
    requires Alike(x, u) && !x.closed
    ensures Alike(ClearSpinner(x), u) && Body(ClearSpinner(x).wire.events) == Body(u.wire.events)
    ensures ClearSpinner(u) == u
  {
    BodySnoc(x.wire.events, Replace(""));
  }

  lemma TextStaysAlike(x: Writer, u: Writer, s: string)
    requires Alike(x, u) && !x.closed
    ensures Alike(UserStep(x, Sinks.Text(s)), UserStep(u, Sinks.Text(s)))
  {
    ClearStaysAlike(x, u);
    BodySnoc(ClearSpinner(x).wire.events, Events.Text(s));
    BodySnoc(u.wire.events, Events.Text(s));
    NoMore(Body(u.wire.events));
  }

  lemma ReplaceStaysAlike(x: Writer, u: Writer, s: string)
    requires Alike(x, u) && !x.closed
    ensures Alike(UserStep(x, Sinks.Replace(s)), UserStep(u, Sinks.Replace(s)))
  {
    BodySnoc(x.wire.events, Replace(s));
    BodySnoc(u.wire.events, Replace(s));
  }

  lemma ErrorStaysAlike(x: Writer, u: Writer, m: string, et: string)
    requires Alike(x, u) && !x.closed
    ensures Alike(UserStep(x, Sinks.Error(m, et)), UserStep(u, Sinks.Error(m, et)))
  {
    ClearStaysAlike(x, u);
    BodySnoc(ClearSpinner(x).wire.events, Error(m, et));
    BodySnoc(u.wire.events, Error(m, et));
  }

  lemma DoneStaysAlike(x: Writer, u: Writer)
    requires Alike(x, u) && !x.closed
    ensures Alike(UserStep(x, Sinks.Done), UserStep(u, Sinks.Done))
  {
    ClearStaysAlike(x, u);
    BodySnoc(ClearSpinner(x).wire.events, Done);
    BodySnoc(u.wire.events, Done);
  }

  lemma UserStaysAlike(x: Writer, u: Writer, c: Sinks.SinkCall)
    requires Alike(x, u)
    ensures Alike(UserStep(x, c), UserStep(u, c))
  {
    if !x.closed {
      match c {
        case FirstChunk =>
        case Text(s) => TextStaysAlike(x, u, s);
        case Replace(s) => ReplaceStaysAlike(x, u, s);
        case Error(m, et) => ErrorStaysAlike(x, u, m, et);
        case Done => DoneStaysAlike(x, u);
      }
    }
  }

  lemma {:induction false} HeartbeatIsInvisible(heartbeat: bool, es: seq<Happening>)
    requires Play(None, heartbeat, es).Some?
    ensures Alike(Play(None, heartbeat, es).value.x, Quiet(CallsOf(es)))
  {
    if es == [] {
      assert [Meta][..0] == [];
    } else {
      var n := |es| - 1;
      HeartbeatIsInvisible(heartbeat, es[..n]);
      var s, u := Play(None, heartbeat, es[..n]).value, Quiet(CallsOf(es[..n]));
      match es[n] {
        case Call(c) =>
          UserStaysAlike(s.x, u, c);
          assert CallsOf(es)[..|CallsOf(es)| - 1] == CallsOf(es[..n]);
        case Tick =>
          BeatStaysAlike(s.x, u, SpinnerFrame(s.spinTick + 1));
          NoMore(CallsOf(es[..n]));
        case Leave =>
          NoMore(CallsOf(es[..n]));
      }
    }
  }

  // ---- a failing connection ----

  function Take(es: seq<Event>, limit: nat): seq<Event> {
    if |es| <= limit then es else es[..limit]
  }

  /** x on a connection that fails after `limit` frames, y on one that does not. */
  predicate Cut(x: Writer, y: Writer, limit: nat) {
    && x.wire.limit == Some(limit) && y.wire.limit == None
    && x.wire.events == Take(y.wire.events, limit)
    && x.wire.closed == y.wire.closed && x.closed == y.closed && x.realWritten == y.realWritten
    && x.spinnerVisible == y.spinnerVisible
  }

  lemma EmitStaysCut(x: Writer, y: Writer, limit: nat, e: Event)
    requires Cut(x, y, limit)
    ensures Cut(x.(wire := Emit(x.wire, e)), y.(wire := Emit(y.wire, e)), limit)
  {
  }

  lemma ClearStaysCut(x: Writer, y: Writer, limit: nat)
    requires Cut(x, y, limit)
    ensures Cut(ClearSpinner(x), ClearSpinner(y), limit)
  {
    EmitStaysCut(x, y, limit, Replace(""));
  }

  lemma UserStaysCut(x: Writer, y: Writer, limit: nat, c: Sinks.SinkCall)
    requires Cut(x, y, limit)
    ensures Cut(UserStep(x, c), UserStep(y, c), limit)
  {
    ClearStaysCut(x, y, limit);
    match c {
      case FirstChunk =>
      case Text(s) => EmitStaysCut(ClearSpinner(x), ClearSpinner(y), limit, Events.Text(s));
      case Replace(s) => EmitStaysCut(x, y, limit, Replace(s));
      case Error(m, et) => EmitStaysCut(ClearSpinner(x), ClearSpinner(y), limit, Error(m, et));
      case Done => EmitStaysCut(ClearSpinner(x), ClearSpinner(y), limit, Done);
    }
  }

  /** If the connection fails for good, the client has received a prefix of what a healthy one would
      have carried, and the writers' decisions do not change. */
  lemma {:induction false} FailureGivesPrefix(limit: nat, heartbeat: bool, es: seq<Happening>)
    requires Play(None, heartbeat, es).Some?
    ensures Play(Some(limit), heartbeat, es).Some?
    ensures var s, t := Play(Some(limit), heartbeat, es).value, Play(None, heartbeat, es).value;
            && Cut(s.x, t.x, limit)
            && s.beating == t.beating && s.hbDone == t.hbDone && s.spinTick == t.spinTick
  {
    if es != [] {
      var n := |es| - 1;
      FailureGivesPrefix(limit, heartbeat, es[..n]);
      var s, t := Play(Some(limit), heartbeat, es[..n]).value, Play(None, heartbeat, es[..n]).value;
      match es[n] {
        case Call(c) => UserStaysCut(s.x, t.x, limit, c);
        case Tick => EmitStaysCut(s.x, t.x, limit, Replace(SpinnerFrame(s.spinTick + 1)));
        case Leave =>
      }
    }
  }
}
