/** The per-session cache of agent options (applyOptions in internal/router/router.go). */
module OptionCache {
  import opened Common

  /** Empty strings mean "leave as is". */
  datatype Options = Options(model: string, thinking: string, hideThinking: bool)

  const NO_OPTIONS := Options("", "", false)

  /** A call to the agent and whether it succeeded. */
  datatype AgentCall = SetModel(model: string, ok: bool) | SetThinking(level: string, ok: bool)

  /** What the agent would answer in one turn: an error text for set_model, success of
      set_config_option. */
  datatype Answers = Answers(modelError: Option<string>, thinkingOk: bool)

  datatype Applied = Applied(cache: Options, calls: seq<AgentCall>, error: Option<string>)

  function ApplyModel(cache: Options, opts: Options, ans: Answers): Applied {
    if opts.model == "" || opts.model == cache.model then Applied(cache, [], None)
    else if ans.modelError.Some? then
      Applied(cache, [SetModel(opts.model, false)], Some("set_model " + opts.model + ": " + ans.modelError.value))
    else Applied(cache.(model := opts.model), [SetModel(opts.model, true)], None)
  }

  /** A rejected thinking level counts as applied, so that it is not sent again. */
  function ApplyThinking(cache: Options, opts: Options, ans: Answers): Applied {
    if opts.thinking == "" || opts.thinking == cache.thinking then Applied(cache, [], None)
    else Applied(cache.(thinking := opts.thinking), [SetThinking(opts.thinking, ans.thinkingOk)], None)
  }

  function ApplyOptions(cache: Options, opts: Options, ans: Answers): Applied {
    var m := ApplyModel(cache, opts, ans);
    if m.error.Some? then m
    else
      var t := ApplyThinking(m.cache, opts, ans);
      Applied(t.cache, m.calls + t.calls, None)
  }

  /** The runner's view of one session's options; calls records what the agent has received. */
  class Cache {
    var applied: Options
    var calls: seq<AgentCall>

    constructor ()
      ensures applied == NO_OPTIONS && calls == []
    {
      applied := NO_OPTIONS;
      calls := [];
    }

    method Apply(opts: Options, ans: Answers) returns (error: Option<string>)
      modifies this
      ensures var a := ApplyOptions(old(applied), opts, ans);
              applied == a.cache && calls == old(calls) + a.calls && error == a.error
    {
      if opts.model != "" && opts.model != applied.model {
        calls := calls + [SetModel(opts.model, ans.modelError.None?)];
        if ans.modelError.Some? {
          return Some("set_model " + opts.model + ": " + ans.modelError.value);
        }
        applied := applied.(model := opts.model);
      }
      if opts.thinking != "" && opts.thinking != applied.thinking {
        calls := calls + [SetThinking(opts.thinking, ans.thinkingOk)];
        applied := applied.(thinking := opts.thinking);
      }
      return None;
    }
  }

  // ---- whole sessions ----

  datatype Request = Request(opts: Options, ans: Answers)

  /** The cache after a session's user turns, and all agent calls made on the way. */
  function Session(turns: seq<Request>): Applied {
    if turns == [] then Applied(NO_OPTIONS, [], None)
    else
      var n := |turns| - 1;
      var s := Session(turns[..n]);
      var a := ApplyOptions(s.cache, turns[n].opts, turns[n].ans);
      Applied(a.cache, s.calls + a.calls, a.error)
  }

  /** The calls of a relay without a cache: every requested model is sent every turn. */
  function Uncached(turns: seq<Request>): seq<AgentCall> {
    if turns == [] then []
    else
      var t := turns[|turns| - 1];
      Uncached(turns[..|turns| - 1]) + (if t.opts.model == "" then [] else [SetModel(t.opts.model, t.ans.modelError.None?)])
  }

  /** The model an agent runs after some calls: the last one it accepted. */
  function AgentModel(calls: seq<AgentCall>): string {
    if calls == [] then ""
    else
      var c := calls[|calls| - 1];
      if c.SetModel? && c.ok then c.model else AgentModel(calls[..|calls| - 1])
  }

  function ThinkingLevels(calls: seq<AgentCall>): seq<string> {
    if calls == [] then []
    else
      var c := calls[|calls| - 1];
      ThinkingLevels(calls[..|calls| - 1]) + (if c.SetThinking? then [c.level] else [])
  }

  lemma CallSuffix(calls: seq<AgentCall>, c: AgentCall)
    ensures AgentModel(calls + [c]) == if c.SetModel? && c.ok then c.model else AgentModel(calls)
    ensures ThinkingLevels(calls + [c]) == ThinkingLevels(calls) + (if c.SetThinking? then [c.level] else [])
  {
    assert (calls + [c])[..|calls|] == calls;
  }

  lemma ModelEffect(calls: seq<AgentCall>, cache: Options, t: Request)
    requires cache.model == AgentModel(calls)
    ensures var m := ApplyModel(cache, t.opts, t.ans);
            && m.cache.model == AgentModel(calls + m.calls)
            && m.cache.model == (if t.opts.model != "" && t.ans.modelError.None? then t.opts.model else cache.model)
            && m.cache.thinking == cache.thinking && ThinkingLevels(calls + m.calls) == ThinkingLevels(calls)
  {
    var m := ApplyModel(cache, t.opts, t.ans);
    NoMore(calls);
    if m.calls != [] {
      CallSuffix(calls, m.calls[0]);
      NoMore(ThinkingLevels(calls));
    }
  }

  lemma ThinkingEffect(calls: seq<AgentCall>, cache: Options, t: Request)
    ensures var a := ApplyThinking(cache, t.opts, t.ans);
            && a.cache.model == cache.model && AgentModel(calls + a.calls) == AgentModel(calls)
            && (if a.cache.thinking == cache.thinking then calls + a.calls == calls
                else ThinkingLevels(calls + a.calls) == ThinkingLevels(calls) + [a.cache.thinking])
  {
    var a := ApplyThinking(cache, t.opts, t.ans);
    NoMore(calls);
    if a.calls != [] { CallSuffix(calls, a.calls[0]); }
  }

  /** What one turn does to the agent, whatever it answers. */
  lemma ApplyEffect(calls: seq<AgentCall>, cache: Options, t: Request)
    requires cache.model == AgentModel(calls)
    ensures var a := ApplyOptions(cache, t.opts, t.ans);
            && a.cache.model == AgentModel(calls + a.calls)
            && a.cache.model == (if t.opts.model != "" && t.ans.modelError.None? then t.opts.model else cache.model)
            && (if a.cache.thinking == cache.thinking then ThinkingLevels(calls + a.calls) == ThinkingLevels(calls)
                else ThinkingLevels(calls + a.calls) == ThinkingLevels(calls) + [a.cache.thinking])
  {
    var m := ApplyModel(cache, t.opts, t.ans);
    ModelEffect(calls, cache, t);
    if m.error.None? {
      ThinkingEffect(calls + m.calls, m.cache, t);
      Assoc(calls, m.calls, ApplyThinking(m.cache, t.opts, t.ans).calls);
    }
  }

  /** The cache always holds the model the agent last accepted, and the diffed calls leave the agent
      on the same model as sending every request would. */
  lemma {:induction false} CacheTracksAgent(turns: seq<Request>)
    ensures Session(turns).cache.model == AgentModel(Session(turns).calls) == AgentModel(Uncached(turns))
  {
    if turns != [] {
      var n := |turns| - 1;
      CacheTracksAgent(turns[..n]);
      var s, t := Session(turns[..n]), turns[n];
      ApplyEffect(s.calls, s.cache, t);
      if t.opts.model != "" {
        CallSuffix(Uncached(turns[..n]), SetModel(t.opts.model, t.ans.modelError.None?));
      } else {
        NoMore(Uncached(turns[..n]));
      }
    }
  }

  predicate NeighboursDiffer(ls: seq<string>) {
    forall i :: 0 < i < |ls| ==> ls[i - 1] != ls[i]
  }

  function LastOf(ls: seq<string>): string {
    if ls == [] then "" else ls[|ls| - 1]
  }

  /** No thinking level is sent twice in a row, even one the agent rejected. */
  lemma {:induction false} NoThinkingResent(turns: seq<Request>)
    ensures var ls := ThinkingLevels(Session(turns).calls);
            NeighboursDiffer(ls) && Session(turns).cache.thinking == LastOf(ls)
  {
    if turns != [] {
      var n := |turns| - 1;
      NoThinkingResent(turns[..n]);
      CacheTracksAgent(turns[..n]);
      var s := Session(turns[..n]);
      ApplyEffect(s.calls, s.cache, turns[n]);
    }
  }

  // ---- said on the requests alone ----

  /** The agent's model after some turns, replayed without a cache. */
  function ModelAfter(turns: seq<Request>): string {
    AgentModel(Uncached(turns))
  }

  /** In the last turn a new model is asked for and the agent refuses it. */
  predicate ModelRefused(turns: seq<Request>)
    requires turns != []
  {
    var t := turns[|turns| - 1];
    t.opts.model != "" && t.opts.model != ModelAfter(turns[..|turns| - 1]) && t.ans.modelError.Some?
  }

  /** The thinking levels asked for, without those of turns whose model was refused. */
  function RequestedLevels(turns: seq<Request>): seq<string> {
    if turns == [] then []
    else
      var t := turns[|turns| - 1];
      RequestedLevels(turns[..|turns| - 1])
      + (if ModelRefused(turns) || t.opts.thinking == "" then [] else [t.opts.thinking])
  }

  /** A list without the elements that repeat their left neighbour. */
  function WithoutRepeats(ls: seq<string>): seq<string> {
    if ls == [] then []
    else if |ls| > 1 && ls[|ls| - 2] == ls[|ls| - 1] then WithoutRepeats(ls[..|ls| - 1])
    else WithoutRepeats(ls[..|ls| - 1]) + [ls[|ls| - 1]]
  }

  lemma WithoutRepeatsSnoc(ls: seq<string>, l: string)
    ensures WithoutRepeats(ls + [l])
            == if ls != [] && ls[|ls| - 1] == l then WithoutRepeats(ls) else WithoutRepeats(ls) + [l]
  {
    assert (ls + [l])[..|ls|] == ls;
  }

  lemma LastThinking(calls: seq<AgentCall>, cache: Options, t: Request)
    requires t.opts.thinking != "" && !(t.opts.model != "" && t.opts.model != cache.model && t.ans.modelError.Some?)
    ensures var a := ApplyOptions(cache, t.opts, t.ans);
            && a.cache.thinking == t.opts.thinking
            && ThinkingLevels(calls + a.calls) == ThinkingLevels(calls)
                 + (if cache.thinking == t.opts.thinking then [] else [t.opts.thinking])
  {
    var m := ApplyModel(cache, t.opts, t.ans);
    var a := ApplyThinking(m.cache, t.opts, t.ans);
    Assoc(calls, m.calls, a.calls);
    LevelsOfModel(calls, cache, t);
    if a.calls == [] {
      NoMore(calls + m.calls);
      NoMore(ThinkingLevels(calls));
    } else {
      CallSuffix(calls + m.calls, a.calls[0]);
    }
  }

  lemma LevelsOfModel(calls: seq<AgentCall>, cache: Options, t: Request)
    ensures var m := ApplyModel(cache, t.opts, t.ans);
            m.cache.thinking == cache.thinking && ThinkingLevels(calls + m.calls) == ThinkingLevels(calls)
  {
    var m := ApplyModel(cache, t.opts, t.ans);
    if m.calls == [] {
      NoMore(calls);
    } else {
      CallSuffix(calls, m.calls[0]);
      NoMore(ThinkingLevels(calls));
    }
  }

  /** Otherwise nothing about thinking changes. */
  lemma NoThinking(calls: seq<AgentCall>, cache: Options, t: Request)
    requires t.opts.thinking == "" || (t.opts.model != "" && t.opts.model != cache.model && t.ans.modelError.Some?)
    ensures var a := ApplyOptions(cache, t.opts, t.ans);
            a.cache.thinking == cache.thinking && ThinkingLevels(calls + a.calls) == ThinkingLevels(calls)
  {
    LevelsOfModel(calls, cache, t);
    NoMore(ApplyModel(cache, t.opts, t.ans).calls);
  }

  /** Every requested thinking level reaches the agent, unless it repeats the one before or its turn's
      model was refused; and the cached level is the last of them. */
  lemma {:induction false} LevelsAreSent(turns: seq<Request>)
    ensures Session(turns).cache.thinking == LastOf(RequestedLevels(turns))
    ensures ThinkingLevels(Session(turns).calls) == WithoutRepeats(RequestedLevels(turns))
  {
    if turns != [] {
      var n := |turns| - 1;
      var s, t := Session(turns[..n]), turns[n];
      LevelsAreSent(turns[..n]);
      CacheTracksAgent(turns[..n]);
      if ModelRefused(turns) || t.opts.thinking == "" {
        NoThinking(s.calls, s.cache, t);
        NoMore(RequestedLevels(turns[..n]));
      } else {
        LastThinking(s.calls, s.cache, t);
        WithoutRepeatsSnoc(RequestedLevels(turns[..n]), t.opts.thinking);
        NoMore(ThinkingLevels(s.calls));
      }
    }
  }

  /** Applying the options of a turn fails if and only if its model is refused, with this text. */
  lemma {:induction false} RefusalIsReported(turns: seq<Request>)
    requires turns != []
    ensures var t := turns[|turns| - 1];
            Session(turns).error == if ModelRefused(turns) then Some("set_model " + t.opts.model + ": " + t.ans.modelError.value)
                                    else None
  {
    CacheTracksAgent(turns[..|turns| - 1]);
  }

  function ModelCalls(calls: seq<AgentCall>): seq<AgentCall> {
    if calls == [] then []
    else
      var c := calls[|calls| - 1];
      ModelCalls(calls[..|calls| - 1]) + (if c.SetModel? then [c] else [])
  }

  /** The model calls of a relay that skips exactly the requests for the model in use. */
  function NeededModels(turns: seq<Request>): seq<AgentCall> {
    if turns == [] then []
    else
      var t := turns[|turns| - 1];
      NeededModels(turns[..|turns| - 1])
      + (if t.opts.model == "" || t.opts.model == ModelAfter(turns[..|turns| - 1]) then []
         else [SetModel(t.opts.model, t.ans.modelError.None?)])
  }

  lemma ModelCallsSnoc(calls: seq<AgentCall>, c: AgentCall)
    ensures ModelCalls(calls + [c]) == ModelCalls(calls) + (if c.SetModel? then [c] else [])
  {
    assert (calls + [c])[..|calls|] == calls;
  }

  lemma ModelCallsOfTurn(calls: seq<AgentCall>, cache: Options, t: Request)
    ensures ModelCalls(calls + ApplyOptions(cache, t.opts, t.ans).calls) == ModelCalls(calls)
            + (if t.opts.model == "" || t.opts.model == cache.model then [] else [SetModel(t.opts.model, t.ans.modelError.None?)])
  {
    var m := ApplyModel(cache, t.opts, t.ans);
    ModelCallsOfModel(calls, cache, t);
    if m.error.None? {
      var a := ApplyThinking(m.cache, t.opts, t.ans);
      Assoc(calls, m.calls, a.calls);
      if a.calls == [] {
        NoMore(calls + m.calls);
      } else {
        ModelCallsSnoc(calls + m.calls, a.calls[0]);
        NoMore(ModelCalls(calls + m.calls));
      }
    }
  }

  lemma ModelCallsOfModel(calls: seq<AgentCall>, cache: Options, t: Request)
    ensures ModelCalls(calls + ApplyModel(cache, t.opts, t.ans).calls) == ModelCalls(calls)
            + (if t.opts.model == "" || t.opts.model == cache.model then [] else [SetModel(t.opts.model, t.ans.modelError.None?)])
  {
    var m := ApplyModel(cache, t.opts, t.ans);
    if m.calls == [] {
      NoMore(calls);
      NoMore(ModelCalls(calls));
    } else {
      ModelCallsSnoc(calls, m.calls[0]);
    }
  }

  /** Every requested model is sent, except the one already in use. */
  lemma {:induction false} ModelsAreSent(turns: seq<Request>)
    ensures ModelCalls(Session(turns).calls) == NeededModels(turns)
  {
    if turns != [] {
      var n := |turns| - 1;
      ModelsAreSent(turns[..n]);
      CacheTracksAgent(turns[..n]);
      ModelCallsOfTurn(Session(turns[..n]).calls, Session(turns[..n]).cache, turns[n]);
    }
  }
}
