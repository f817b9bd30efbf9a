/** The calls a turn's sink can receive (ChunkSink in internal/router/router.go). */
module Sinks {
  datatype SinkCall =
    | FirstChunk
    | Text(s: string)
    | Replace(s: string)
    | Error(message: string, errorType: string)
    | Done

  /** A sink as its callers see it: the calls it has received so far. */
  class Sink {
    var calls: seq<SinkCall>

    constructor ()
      ensures calls == []
    {
      calls := [];
    }

    method Call(c: SinkCall)
      modifies this
      ensures calls == old(calls) + [c]
    {
      calls := calls + [c];
    }
  }

  /** The payloads of the Text calls, joined. */
  function Texts(calls: seq<SinkCall>): string {
    if calls == [] then ""
    else
      var c := calls[|calls| - 1];
      Texts(calls[..|calls| - 1]) + (if c.Text? then c.s else "")
  }

  lemma {:induction false} TextsConcat(a: seq<SinkCall>, b: seq<SinkCall>)
    ensures Texts(a + b) == Texts(a) + Texts(b)
  {
    if b == [] {
      assert a + b == a;
    } else {
      assert (a + b)[..|a + b| - 1] == a + b[..|b| - 1];
      TextsConcat(a, b[..|b| - 1]);
    }
  }

  /** The stream is terminated: its last call is Done, and there is no other. */
  predicate DoneOnceLast(calls: seq<SinkCall>) {
    calls != [] && forall i :: 0 <= i < |calls| ==> (calls[i] == Done <==> i == |calls| - 1)
  }

  lemma DoneAfter(body: seq<SinkCall>, end: seq<SinkCall>)
    requires Done !in body && DoneOnceLast(end)
    ensures DoneOnceLast(body + end)
  {
    var all := body + end;
    forall i | 0 <= i < |all|
      ensures all[i] == Done <==> i == |all| - 1
    {
      if i < |body| { assert all[i] in body; }
    }
  }
}
