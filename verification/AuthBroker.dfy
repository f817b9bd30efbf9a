/** Interactive logins, one per conversation (internal/authbroker/authbroker.go). */
module AuthBroker {
  import opened Common

  // ---- commands ----

  /** Unicode white space, as strings.TrimSpace knows it. */
  predicate IsSpace(c: char) {
    || '\t' <= c <= '\r' || c == ' ' || c == '\U{85}' || c == '\U{A0}' || c == '\U{1680}'
    || '\U{2000}' <= c <= '\U{200A}' || c == '\U{2028}' || c == '\U{2029}' || c == '\U{202F}'
    || c == '\U{205F}' || c == '\U{3000}'
  }

  /** Only white space between these positions. */
  ghost predicate SpaceBetween(s: string, from: nat, to: nat)
    requires from <= to <= |s|
  {
    forall k :: from <= k < to ==> IsSpace(s[k])
  }

  /** s[i..j] is what remains of s when only white space is cut off at both ends. */
  ghost predicate Cuts(s: string, i: nat, j: nat) {
    i <= j <= |s| && SpaceBetween(s, 0, i) && SpaceBetween(s, j, |s|)
  }

  ghost predicate Trims(s: string, t: string) {
    exists i: nat, j: nat :: Cuts(s, i, j) && t == s[i..j]
  }

  function TrimSpace(s: string): (t: string)
    ensures t != "" ==> !IsSpace(t[0]) && !IsSpace(t[|t| - 1])
    ensures Trims(s, t)
  {
    if s == "" then
      TrimsNothing(s);
      ""
    else if IsSpace(s[0]) then
      TrimsLeft(s, TrimSpace(s[1..]));
      TrimSpace(s[1..])
    else if IsSpace(s[|s| - 1]) then
      TrimsRight(s, TrimSpace(s[..|s| - 1]));
      TrimSpace(s[..|s| - 1])
    else
      TrimsNothing(s);
      s
  }

  lemma TrimsNothing(s: string)
    ensures Trims(s, s)
  {
    assert Cuts(s, 0, |s|) && s == s[0..|s|];
  }

  lemma TrimsLeft(s: string, t: string)
    requires s != "" && IsSpace(s[0]) && Trims(s[1..], t)
    ensures Trims(s, t)
  {
    var tail := s[1..];
    var i: nat, j: nat :| Cuts(tail, i, j) && t == tail[i..j];
    assert forall k :: 0 < k < |s| ==> s[k] == tail[k - 1];
    SliceOfTail(s, i, j);
    assert Cuts(s, i + 1, j + 1);
  }

  lemma SliceOfTail(s: string, i: nat, j: nat)
    requires i <= j < |s|
    ensures s[1..][i..j] == s[i + 1..j + 1]
  {
  }

  lemma TrimsRight(s: string, t: string)
    requires s != "" && IsSpace(s[|s| - 1]) && Trims(s[..|s| - 1], t)
    ensures Trims(s, t)
  {
    var init := s[..|s| - 1];
    var i: nat, j: nat :| Cuts(init, i, j) && t == init[i..j];
    assert forall k :: 0 <= k < |init| ==> s[k] == init[k];
    SliceOfInit(s, i, j);
    assert Cuts(s, i, j);
  }

  lemma SliceOfInit(s: string, i: nat, j: nat)
    requires i <= j < |s|
    ensures s[..|s| - 1][i..j] == s[i..j]
  {
  }

  /** There is only one such remainder, so this is what TrimSpace means. */
  lemma TrimIsUnique(s: string, t: string)
    requires Trims(s, t) && (t != "" ==> !IsSpace(t[0]) && !IsSpace(t[|t| - 1]))
    ensures t == TrimSpace(s)
  {
    var u := TrimSpace(s);
    var i: nat, j: nat :| Cuts(s, i, j) && t == s[i..j];
    var k: nat, l: nat :| Cuts(s, k, l) && u == s[k..l];
    if i < j { Inside(s, i, j, k, l); }
    if k < l { Inside(s, k, l, i, j); }
  }

  /** A remainder that starts and ends with other characters lies inside every remainder. */
  lemma Inside(s: string, i: nat, j: nat, k: nat, l: nat)
    requires i < j <= |s| && !IsSpace(s[i]) && !IsSpace(s[j - 1]) && Cuts(s, k, l)
    ensures k <= i && j <= l
  {
  }

  const LOGIN := "/login"
  const CANCEL := "/cancel-login"

  predicate HasPrefix(s: string, p: string) {
    |p| <= |s| && s[..|p|] == p
  }

  predicate IsLoginCommand(text: string) {
    var t := TrimSpace(text);
    t == LOGIN || HasPrefix(t, LOGIN + " ") || t == "/logins" || t == CANCEL
  }

  /** A pending login. */
  datatype Entry = Entry(methodID: string, authID: string)

  /** What one user turn asks for. */
  datatype Request =
    | NotAuth
    | Paste(entry: Entry, redirect: string)
    | EmptyPaste
    | CancelLogin(entry: Entry)
    | NothingToCancel
    | ListMethods
    | StartLogin(provider: string)

  /** A pending login takes precedence over command parsing. */
  function Interpret(pending: Option<Entry>, text: string): Request {
    var t := TrimSpace(text);
    match pending
    case Some(e) => if t == CANCEL then CancelLogin(e) else if t == "" then EmptyPaste else Paste(e, t)
    case None =>
      if !IsLoginCommand(t) then NotAuth
      else if t == CANCEL then NothingToCancel
      else if t == LOGIN || t == "/logins" then ListMethods
      else StartLogin(TrimSpace(t[|LOGIN|..]))
  }

  lemma TrimmedStays(t: string)
    requires t != "" ==> !IsSpace(t[0]) && !IsSpace(t[|t| - 1])
    ensures TrimSpace(t) == t
  {
  }

  /** A login is never started for an empty provider. */
  lemma ProviderIsNotEmpty(pending: Option<Entry>, text: string)
    requires Interpret(pending, text).StartLogin?
    ensures Interpret(pending, text).provider != ""
  {
    var t := TrimSpace(text);
    TrimmedStays(t);
    assert HasPrefix(t, LOGIN + " ");
    assert t[|LOGIN|] == (LOGIN + " ")[|LOGIN|] == ' ';
    var rest := t[|LOGIN|..];
    assert rest[|rest| - 1] == t[|t| - 1];
  }

  // ---- the agent ----

  /** One authenticate call. */
  datatype AuthCall = AuthCall(methodID: string, authID: string, redirect: string, cancel: bool)

  datatype Answer = Failure(err: string) | Answer(state: string, id: string, url: string)

  datatype Logged = Logged(call: AuthCall, answer: Answer)

  predicate NeedsRedirect(a: Answer) {
    a.Answer? && a.state == "needs_redirect"
  }

  datatype Method = Method(id: string, kind: string)

  predicate Loginable(m: Method) {
    m.kind == "" || m.kind == "agent"
  }

  function WithoutOauth(id: string): string {
    if HasPrefix(id, "oauth-") then id[6..] else id
  }

  /** Provider names are compared up to case; `same` is that comparison. */
  predicate Names(m: Method, provider: string, same: (string, string) -> bool) {
    Loginable(m) && (m.id == provider || same(WithoutOauth(m.id), TrimSpace(provider)))
  }

  /** The first loginable method that the provider names. */
  function Resolve(methods: seq<Method>, provider: string, same: (string, string) -> bool): (id: Option<string>)
    ensures id.None? <==> forall m :: m in methods ==> !Names(m, provider, same)
    ensures id.Some? ==> exists i :: 0 <= i < |methods| && Names(methods[i], provider, same) && id.value == methods[i].id
                              && forall j :: 0 <= j < i ==> !Names(methods[j], provider, same)
  {
    if methods == [] then None
    else if Names(methods[0], provider, same) then Some(methods[0].id)
    else
      assert methods == [methods[0]] + methods[1..];
      Resolve(methods[1..], provider, same)
  }

  method ResolveMethodID(methods: seq<Method>, provider: string, same: (string, string) -> bool)
    returns (id: Option<string>)
    ensures id == Resolve(methods, provider, same)
    ensures id.None? <==> forall m :: m in methods ==> !Names(m, provider, same)
    ensures id.Some? ==> exists i :: 0 <= i < |methods| && Names(methods[i], provider, same) && id.value == methods[i].id
                              && forall j :: 0 <= j < i ==> !Names(methods[j], provider, same)
  {
    for i := 0 to |methods|
      invariant Resolve(methods[i..], provider, same) == Resolve(methods, provider, same)
    {
      assert methods[i..][1..] == methods[i + 1..];
      if Names(methods[i], provider, same) {
        return Some(methods[i].id);
      }
    }
    return None;
  }

  /** A method can be named by its id or by what follows "oauth-" in it; other prefixes stay. Methods
      that cannot be driven from a chat are never named. */
  lemma ShortNames(x: string, m: Method, provider: string, same: (string, string) -> bool)
    ensures WithoutOauth("oauth-" + x) == x
    ensures !(|x| >= 6 && x[..6] == "oauth-") ==> WithoutOauth(x) == x
    ensures Names(m, provider, same) ==> m.kind == "" || m.kind == "agent"
    ensures (m.kind == "" || m.kind == "agent") && m.id == provider ==> Names(m, provider, same)
    ensures (m.kind == "" || m.kind == "agent") && m.id == "oauth-" + x && same(x, TrimSpace(provider))
            ==> Names(m, provider, same)
  {
    assert ("oauth-" + x)[..6] == "oauth-" && ("oauth-" + x)[6..] == x;
  }

  // ---- one conversation ----

  /** Between two atomic steps of a turn. */
  datatype Phase =
    | Rest
    | Checking(methodID: string)             // about to look for a pending login again
    | Starting(methodID: string)             // about to call authenticate
    | Storing(methodID: string, authID: string) // about to record the pending login
    | Pasting(entry: Entry, redirect: string) // about to submit the redirect
    | Clearing                               // redirect submitted; about to drop the entry
    | Dropping(entry: Entry)                 // about to drop the entry for a cancel
    | Cancelling(entry: Entry)               // dropped; about to tell the agent

  /** A turn arrives with the provider resolved, or not; or the running turn takes its next step and
      the agent, if called, answers. */
  datatype Step = Arrive(text: string, resolved: Option<string>) | Proceed(answer: Answer)

  datatype Conv = Conv(pending: Option<Entry>, phase: Phase, log: seq<Logged>)

  const NEW_CONV := Conv(None, Rest, [])

  /** Turns of one conversation are serial. */
  predicate Can(phase: Phase, s: Step) {
    s.Arrive? <==> phase.Rest?
  }

  function Arrived(pending: Option<Entry>, text: string, resolved: Option<string>): Phase {
    PhaseFor(Interpret(pending, text), resolved)
  }

  function PhaseFor(request: Request, resolved: Option<string>): Phase {
    match request
    case Paste(e, redirect) => Pasting(e, redirect)
    case CancelLogin(e) => Dropping(e)
    case StartLogin(_) => if resolved.Some? then Checking(resolved.value) else Rest
    case _ => Rest
  }

  function CallOf(phase: Phase): Option<AuthCall> {
    match phase
    case Starting(m) => Some(AuthCall(m, "", "", false))
    case Pasting(e, redirect) => Some(AuthCall(e.methodID, e.authID, redirect, false))
    case Cancelling(e) => Some(AuthCall(e.methodID, e.authID, "", true))
    case _ => None
  }

  function NextPhase(pending: Option<Entry>, phase: Phase, s: Step): Phase {
    match s
    case Arrive(text, resolved) => Arrived(pending, text, resolved)
    case Proceed(answer) =>
      match phase
      case Checking(m) => if pending.Some? then Rest else Starting(m)
      case Starting(m) => if NeedsRedirect(answer) then Storing(m, answer.id) else Rest
      case Pasting(_, _) => Clearing
      case Dropping(e) => Cancelling(e)
      case _ => Rest
  }

  function NextPending(pending: Option<Entry>, phase: Phase, s: Step): Option<Entry> {
    match phase
    case Storing(m, id) => Some(Entry(m, id))
    case Clearing => None
    case Dropping(_) => None
    case _ => pending
  }

  function NewLog(phase: Phase, s: Step): seq<Logged> {
    if s.Proceed? && CallOf(phase).Some? then [Logged(CallOf(phase).value, s.answer)] else []
  }

  function ConvStep(c: Conv, s: Step): Conv
    requires Can(c.phase, s)
  {
    Conv(NextPending(c.pending, c.phase, s), NextPhase(c.pending, c.phase, s), c.log + NewLog(c.phase, s))
  }

  /** Steps a turn has still to take. */
  function StepsLeft(phase: Phase): nat {
    match phase
    case Rest => 0
    case Checking(_) => 3
    case Starting(_) => 2
    case Pasting(_, _) => 2
    case Dropping(_) => 2
    case _ => 1
  }

  /** The rest of a turn, if nothing else happens to the conversation. */
  function Settle(c: Conv, answer: Answer): Conv
    decreases StepsLeft(c.phase)
  {
    if c.phase.Rest? then c else Settle(ConvStep(c, Proceed(answer)), answer)
  }

  lemma SettleOnce(c: Conv, answer: Answer)
    requires !c.phase.Rest?
    ensures Settle(c, answer) == Settle(ConvStep(c, Proceed(answer)), answer)
  {
  }

  lemma SettlePasting(e: Entry, redirect: string, answer: Answer)
    ensures Settle(Conv(Some(e), Pasting(e, redirect), []), answer)
            == Conv(None, Rest, [Logged(AuthCall(e.methodID, e.authID, redirect, false), answer)])
  {
    var c1 := ConvStep(Conv(Some(e), Pasting(e, redirect), []), Proceed(answer));
    NoMore(c1.log);
    SettleOnce(c1, answer);
  }

  lemma SettleDropping(e: Entry, answer: Answer)
    ensures Settle(Conv(Some(e), Dropping(e), []), answer)
            == Conv(None, Rest, [Logged(AuthCall(e.methodID, e.authID, "", true), answer)])
  {
    var c1 := ConvStep(Conv(Some(e), Dropping(e), []), Proceed(answer));
    SettleOnce(c1, answer);
  }

  lemma SettleChecking(pending: Option<Entry>, m: string, answer: Answer)
    ensures Settle(Conv(pending, Checking(m), []), answer) ==
            if pending.Some? then Conv(pending, Rest, [])
            else Conv(if NeedsRedirect(answer) then Some(Entry(m, answer.id)) else None, Rest,
                      [Logged(AuthCall(m, "", "", false), answer)])
  {
    NoMore<Logged>([]);
    var c1 := ConvStep(Conv(pending, Checking(m), []), Proceed(answer));
    if pending.None? {
      SettleOnce(c1, answer);
      var c2 := ConvStep(c1, Proceed(answer));
      NoMore(c2.log);
      if NeedsRedirect(answer) { SettleOnce(c2, answer); }
    }
  }

  /** A start, once the provider has been looked up. */
  function Started(pending: Option<Entry>, methodID: Option<string>, answer: Answer): Conv {
    if methodID.None? then Conv(pending, Rest, []) else Settle(Conv(pending, Checking(methodID.value), []), answer)
  }

  /** What a request leads to. */
  function Outcome(pending: Option<Entry>, request: Request, resolved: Option<string>, answer: Answer): Conv {
    match request
    case Paste(e, redirect) => Settle(Conv(pending, Pasting(e, redirect), []), answer)
    case CancelLogin(e) => Settle(Conv(pending, Dropping(e), []), answer)
    case StartLogin(_) => Started(pending, resolved, answer)
    case _ => Conv(pending, Rest, [])
  }

  lemma SettleRequest(pending: Option<Entry>, request: Request, resolved: Option<string>, answer: Answer)
    ensures Settle(Conv(pending, PhaseFor(request, resolved), []), answer) == Outcome(pending, request, resolved, answer)
  {
  }

  /** A whole turn is what its request settles to. */
  lemma SettleTurn(pending: Option<Entry>, text: string, resolved: Option<string>, answer: Answer)
    ensures Settle(ConvStep(Conv(pending, Rest, []), Arrive(text, resolved)), answer)
            == Outcome(pending, Interpret(pending, text), resolved, answer)
  {
    NoMore<Logged>([]);
    SettleRequest(pending, Interpret(pending, text), resolved, answer);
  }

  /** What the provider in a request resolves to. */
  function Resolved(pending: Option<Entry>, text: string, methods: seq<Method>, same: (string, string) -> bool): Option<string> {
    match Interpret(pending, text)
    case StartLogin(provider) => Resolve(methods, provider, same)
    case _ => None
  }

  /** What a user sees of one turn, said without the machine. With a login pending, "/cancel-login"
      cancels it, any other text is submitted as the redirect, and blank text does nothing. With none
      pending, only "/login " and a provider that names a method calls the agent, and only the answer
      "needs_redirect" leaves a login pending. */
  predicate Replies(pending: Option<Entry>, text: string, methods: seq<Method>, same: (string, string) -> bool,
                    answer: Answer, log: seq<Logged>, after: Option<Entry>) {
    var t := TrimSpace(text);
    match pending
    case Some(e) =>
      if t == "" then log == [] && after == pending
      else if t == "/cancel-login" then log == [Logged(AuthCall(e.methodID, e.authID, "", true), answer)] && after == None
      else log == [Logged(AuthCall(e.methodID, e.authID, t, false), answer)] && after == None
    case None =>
      if |t| >= 7 && t[..7] == "/login " && Resolve(methods, TrimSpace(t[7..]), same).Some? then
        var m := Resolve(methods, TrimSpace(t[7..]), same).value;
        && log == [Logged(AuthCall(m, "", "", false), answer)]
        && after == if answer.Answer? && answer.state == "needs_redirect" then Some(Entry(m, answer.id)) else None
      else log == [] && after == None
  }

  lemma RepliesToPending(e: Entry, text: string, methods: seq<Method>, same: (string, string) -> bool, answer: Answer)
    ensures var c := Outcome(Some(e), Interpret(Some(e), text), Resolved(Some(e), text, methods, same), answer);
            Replies(Some(e), text, methods, same, answer, c.log, c.pending)
  {
    match Interpret(Some(e), text) {
      case Paste(x, redirect) => SettlePasting(x, redirect, answer);
      case CancelLogin(x) => SettleDropping(x, answer);
      case _ =>
    }
  }

  lemma LoginBlank()
    ensures LOGIN + " " == "/login " && |LOGIN| == 6 && |LOGIN + " "| == 7
  {
  }

  lemma NotAnotherCommand(t: string)
    requires |t| >= 7 && t[..7] == "/login "
    ensures t != LOGIN && t != "/logins" && t != CANCEL
  {
    assert t[6] == t[..7][6] == ' ' && "/logins"[6] == 's' && CANCEL[6] == 'l';
  }

  lemma BlankTrimmed(t: string)
    requires |t| >= 7 && t[..7] == "/login "
    ensures TrimSpace(t[6..]) == TrimSpace(t[7..])
  {
    assert t[6] == t[..7][6] == ' ';
    assert t[6..][0] == ' ' && t[6..][1..] == t[7..];
  }

  /** The command that starts a login, and the provider in it. */
  lemma StartCommand(text: string)
    ensures var t := TrimSpace(text); var r := Interpret(None, text);
            && (r.StartLogin? <==> |t| >= 7 && t[..7] == "/login ")
            && (r.StartLogin? ==> r.provider == TrimSpace(t[7..]))
            && !r.Paste? && !r.CancelLogin? && !r.EmptyPaste?
  {
    var t := TrimSpace(text);
    TrimmedStays(t);
    LoginBlank();
    if |t| >= 7 && t[..7] == "/login " {
      NotAnotherCommand(t);
      BlankTrimmed(t);
    }
  }

  lemma RepliesToNone(text: string, methods: seq<Method>, same: (string, string) -> bool, answer: Answer)
    ensures var c := Outcome(None, Interpret(None, text), Resolved(None, text, methods, same), answer);
            Replies(None, text, methods, same, answer, c.log, c.pending)
  {
    StartCommand(text);
    if Interpret(None, text).StartLogin? {
      var id := Resolved(None, text, methods, same);
      if id.Some? { SettleChecking(None, id.value, answer); }
    }
  }

  /** The machine replies as described, whatever the text, the methods and the answer. */
  lemma TurnReplies(pending: Option<Entry>, text: string, methods: seq<Method>, same: (string, string) -> bool, answer: Answer)
    ensures var c := Settle(ConvStep(Conv(pending, Rest, []), Arrive(text, Resolved(pending, text, methods, same))), answer);
            Replies(pending, text, methods, same, answer, c.log, c.pending)
  {
    SettleTurn(pending, text, Resolved(pending, text, methods, same), answer);
    if pending.Some? {
      RepliesToPending(pending.value, text, methods, same, answer);
    } else {
      RepliesToNone(text, methods, same, answer);
    }
  }

  /** A turn starts a login only for a loginable method that the user has named. */
  lemma StartsNamedMethod(pending: Option<Entry>, text: string, methods: seq<Method>, same: (string, string) -> bool,
                          answer: Answer, l: Logged)
    requires l in Settle(ConvStep(Conv(pending, Rest, []), Arrive(text, Resolved(pending, text, methods, same))), answer).log
    requires IsStart(l.call)
    ensures Interpret(pending, text).StartLogin?
    ensures exists m :: m in methods && m.id == l.call.methodID && Names(m, Interpret(pending, text).provider, same)
  {
    SettleTurn(pending, text, Resolved(pending, text, methods, same), answer);
    InterpretShape(pending, text);
    match Interpret(pending, text) {
      case Paste(e, redirect) => SettlePasting(e, redirect, answer);
      case CancelLogin(e) => SettleDropping(e, answer);
      case StartLogin(provider) =>
        var id := Resolve(methods, provider, same);
        if id.Some? { SettleChecking(pending, id.value, answer); }
      case _ =>
    }
  }

  function ConvRun(steps: seq<Step>): Option<Conv> {
    if steps == [] then Some(NEW_CONV)
    else
      var n := |steps| - 1;
      match ConvRun(steps[..n])
      case None => None
      case Some(c) => if Can(c.phase, steps[n]) then Some(ConvStep(c, steps[n])) else None
  }

  /** Logins the agent has opened: started, and answered with a request for a redirect. */
  function Issued(log: seq<Logged>): seq<Entry> {
    if log == [] then []
    else
      var l := log[|log| - 1];
      Issued(log[..|log| - 1])
      + (if IsStart(l.call) && NeedsRedirect(l.answer) then [Entry(l.call.methodID, l.answer.id)] else [])
  }

  predicate IsStart(c: AuthCall) {
    c.redirect == "" && !c.cancel
  }

  /** Logins that a redirect or a cancel has been sent for. */
  function Consumed(log: seq<Logged>): seq<Entry> {
    if log == [] then []
    else
      var l := log[|log| - 1];
      Consumed(log[..|log| - 1]) + (if IsStart(l.call) then [] else [Entry(l.call.methodID, l.call.authID)])
  }

  /** The opened login that nothing has been sent for yet. */
  function Outstanding(pending: Option<Entry>, phase: Phase): seq<Entry> {
    match phase
    case Storing(m, id) => [Entry(m, id)]
    case Cancelling(e) => [e]
    case Clearing => []
    case _ => if pending.Some? then [pending.value] else []
  }

  predicate ConvOk(c: Conv) {
    && Issued(c.log) == Consumed(c.log) + Outstanding(c.pending, c.phase)
    && match c.phase
       case Pasting(e, redirect) => c.pending == Some(e) && redirect != ""
       case Dropping(e) => c.pending == Some(e)
       case Cancelling(_) => c.pending == None
       case Starting(_) => c.pending == None
       case Storing(_, _) => c.pending == None
       case _ => true
  }

  lemma LogSnoc(log: seq<Logged>, l: Logged)
    ensures Issued(log + [l]) == Issued(log)
              + (if IsStart(l.call) && NeedsRedirect(l.answer) then [Entry(l.call.methodID, l.answer.id)] else [])
    ensures Consumed(log + [l]) == Consumed(log)
              + (if IsStart(l.call) then [] else [Entry(l.call.methodID, l.call.authID)])
  {
    assert (log + [l])[..|log|] == log;
  }

  lemma InterpretShape(pending: Option<Entry>, text: string)
    ensures var r := Interpret(pending, text);
            && (r.Paste? ==> pending == Some(r.entry) && r.redirect != "")
            && (r.CancelLogin? ==> pending == Some(r.entry))
  {
  }

  lemma ArrivedShape(pending: Option<Entry>, text: string, resolved: Option<string>)
    ensures var p := Arrived(pending, text, resolved);
            && (p.Rest? || p.Checking? || p.Pasting? || p.Dropping?)
            && (p.Pasting? ==> pending == Some(p.entry) && p.redirect != "")
            && (p.Dropping? ==> pending == Some(p.entry))
  {
    InterpretShape(pending, text);
  }

  lemma QuietOk(c: Conv, phase: Phase)
    requires ConvOk(c) && c.phase.Rest?
    requires phase.Rest? || phase.Checking? || phase.Pasting? || phase.Dropping?
    requires phase.Pasting? ==> c.pending == Some(phase.entry) && phase.redirect != ""
    requires phase.Dropping? ==> c.pending == Some(phase.entry)
    ensures ConvOk(Conv(c.pending, phase, c.log))
  {
  }

  lemma ArriveOk(c: Conv, text: string, resolved: Option<string>)
    requires ConvOk(c) && c.phase.Rest?
    ensures ConvOk(ConvStep(c, Arrive(text, resolved)))
  {
    NoMore(c.log);
    ArrivedShape(c.pending, text, resolved);
    QuietOk(c, Arrived(c.pending, text, resolved));
  }

  lemma SilentOk(c: Conv, answer: Answer)
    requires ConvOk(c) && !c.phase.Rest? && CallOf(c.phase).None?
    ensures ConvOk(ConvStep(c, Proceed(answer)))
  {
    NoMore(c.log);
  }

  lemma CallOk(c: Conv, answer: Answer)
    requires ConvOk(c) && CallOf(c.phase).Some?
    ensures ConvOk(ConvStep(c, Proceed(answer)))
  {
    LogSnoc(c.log, Logged(CallOf(c.phase).value, answer));
    NoMore(Issued(c.log));
    NoMore(Consumed(c.log));
  }

  lemma ConvStepOk(c: Conv, s: Step)
    requires ConvOk(c) && Can(c.phase, s)
    ensures ConvOk(ConvStep(c, s))
  {
    match s {
      case Arrive(text, resolved) => ArriveOk(c, text, resolved);
      case Proceed(answer) => if CallOf(c.phase).Some? { CallOk(c, answer); } else { SilentOk(c, answer); }
    }
  }

  /** Every redirect or cancel carries method and id of the conversation's own pending login: the
      k-th one is for the k-th login opened, so each login is consumed at most once, and at most one
      is outstanding. */
  lemma {:induction false} LoginsPairUp(steps: seq<Step>)
    requires ConvRun(steps).Some?
    ensures var c := ConvRun(steps).value;
            && Issued(c.log) == Consumed(c.log) + Outstanding(c.pending, c.phase)
            && |Outstanding(c.pending, c.phase)| <= 1
            && ConvOk(c)
  {
    if steps != [] {
      var n := |steps| - 1;
      LoginsPairUp(steps[..n]);
      ConvStepOk(ConvRun(steps[..n]).value, steps[n]);
    }
  }

  // ---- all conversations ----

  /** The shared map, the turns under way, and the calls made for each conversation. */
  datatype Shared = Shared(pending: map<string, Entry>, phases: map<string, Phase>, logs: map<string, seq<Logged>>)

  function Lookup<T>(m: map<string, T>, conv: string, otherwise: T): T {
    if conv in m then m[conv] else otherwise
  }

  function Peek(m: map<string, Entry>, conv: string): Option<Entry> {
    if conv in m then Some(m[conv]) else None
  }

  /** The three things the broker does to its map, each under the mutex. */
  class Broker {
    var pending: map<string, Entry>

    constructor ()
      ensures pending == map[]
    {
      pending := map[];
    }

    method PeekPending(conv: string) returns (e: Option<Entry>)
      ensures e == Peek(pending, conv)
    {
      if conv in pending {
        return Some(pending[conv]);
      }
      return None;
    }

    method Store(conv: string, e: Entry)
      modifies this
      ensures Peek(pending, conv) == Some(e)
      ensures forall other :: other != conv ==> Peek(pending, other) == Peek(old(pending), other)
      ensures pending == SetPending(old(pending), conv, Some(e))
    {
      pending := pending[conv := e];
    }

    method Delete(conv: string)
      modifies this
      ensures Peek(pending, conv) == None
      ensures forall other :: other != conv ==> Peek(pending, other) == Peek(old(pending), other)
      ensures pending == SetPending(old(pending), conv, None)
    {
      pending := pending - {conv};
    }

    /** Starts a login for the method that the provider names, unless one is pending by now. */
    method Start(conv: string, provider: string, methods: seq<Method>, same: (string, string) -> bool, answer: Answer)
      returns (log: seq<Logged>)
      modifies this
      ensures var c := Started(Peek(old(pending), conv), Resolve(methods, provider, same), answer);
              Peek(pending, conv) == c.pending && log == c.log
      ensures forall other :: other != conv ==> Peek(pending, other) == Peek(old(pending), other)
    {
      var methodID := ResolveMethodID(methods, provider, same);
      if methodID.None? {
        return [];
      }
      SettleChecking(Peek(pending, conv), methodID.value, answer);
      var existing := PeekPending(conv);
      if existing.Some? {
        return [];
      }
      log := [Logged(AuthCall(methodID.value, "", "", false), answer)];
      if NeedsRedirect(answer) {
        Store(conv, Entry(methodID.value, answer.id));
      }
    }

    /** Submits a pasted redirect; the pending login is dropped whatever the agent says. */
    method Complete(conv: string, e: Entry, redirect: string, answer: Answer) returns (log: seq<Logged>)
      requires Peek(pending, conv) == Some(e) && redirect != ""
      modifies this
      ensures var c := Settle(Conv(Some(e), Pasting(e, redirect), []), answer);
              pending == SetPending(old(pending), conv, None) && log == c.log && Peek(pending, conv) == c.pending
    {
      SettlePasting(e, redirect, answer);
      log := [Logged(AuthCall(e.methodID, e.authID, redirect, false), answer)];
      Delete(conv);
    }

    /** Drops the pending login, then tells the agent. */
    method Cancel(conv: string, e: Entry, answer: Answer) returns (log: seq<Logged>)
      requires Peek(pending, conv) == Some(e)
      modifies this
      ensures var c := Settle(Conv(Some(e), Dropping(e), []), answer);
              pending == SetPending(old(pending), conv, None) && log == c.log && Peek(pending, conv) == c.pending
    {
      SettleDropping(e, answer);
      Delete(conv);
      log := [Logged(AuthCall(e.methodID, e.authID, "", true), answer)];
    }

    /** One whole turn, undisturbed: exactly the steps of the conversation's machine. A login is
        started for the method that the user has named. */
    method Handle(conv: string, text: string, methods: seq<Method>, same: (string, string) -> bool, answer: Answer)
      returns (log: seq<Logged>)
      modifies this
      ensures var e := Peek(old(pending), conv);
              var c := Settle(ConvStep(Conv(e, Rest, []), Arrive(text, Resolved(e, text, methods, same))), answer);
              Peek(pending, conv) == c.pending && log == c.log
      ensures Replies(Peek(old(pending), conv), text, methods, same, answer, log, Peek(pending, conv))
      ensures forall other :: other != conv ==> Peek(pending, other) == Peek(old(pending), other)
    {
      var e := PeekPending(conv);
      TurnReplies(e, text, methods, same, answer);
      InterpretShape(e, text);
      SettleTurn(e, text, Resolved(e, text, methods, same), answer);
      match Interpret(e, text) {
        case Paste(entry, redirect) => log := Complete(conv, entry, redirect, answer);
        case CancelLogin(entry) => log := Cancel(conv, entry, answer);
        case StartLogin(provider) => log := Start(conv, provider, methods, same, answer);
        case _ => log := [];
      }
    }
  }

  function SetPending(m: map<string, Entry>, conv: string, e: Option<Entry>): map<string, Entry> {
    if e.Some? then m[conv := e.value] else m - {conv}
  }

  predicate SharedCan(b: Shared, conv: string, s: Step) {
    Can(Lookup(b.phases, conv, Rest), s)
  }

  /** One atomic step of the turn of `conv`: it reads and writes the shared map at its own key. */
  function SharedStep(b: Shared, conv: string, s: Step): Shared
    requires SharedCan(b, conv, s)
  {
    var phase := Lookup(b.phases, conv, Rest);
    var entry := Peek(b.pending, conv);
    Shared(if s.Proceed? && (phase.Storing? || phase.Clearing? || phase.Dropping?)
           then SetPending(b.pending, conv, NextPending(entry, phase, s)) else b.pending,
           b.phases[conv := NextPhase(entry, phase, s)],
           b.logs[conv := Lookup(b.logs, conv, []) + NewLog(phase, s)])
  }

  datatype Labelled = Labelled(conv: string, step: Step)

  function SharedRun(run: seq<Labelled>): Option<Shared> {
    if run == [] then Some(Shared(map[], map[], map[]))
    else
      var n := |run| - 1;
      match SharedRun(run[..n])
      case None => None
      case Some(b) =>
        if SharedCan(b, run[n].conv, run[n].step) then Some(SharedStep(b, run[n].conv, run[n].step)) else None
  }

  /** What a conversation can tell of the broker. */
  function View(b: Shared, conv: string): Conv {
    Conv(Peek(b.pending, conv), Lookup(b.phases, conv, Rest), Lookup(b.logs, conv, []))
  }

  function StepsOf(run: seq<Labelled>, conv: string): seq<Step> {
    if run == [] then []
    else
      var l := run[|run| - 1];
      StepsOf(run[..|run| - 1], conv) + (if l.conv == conv then [l.step] else [])
  }

  lemma ViewStep(b: Shared, l: Labelled, conv: string)
    requires SharedCan(b, l.conv, l.step)
    ensures View(SharedStep(b, l.conv, l.step), conv) ==
            if l.conv == conv then ConvStep(View(b, conv), l.step) else View(b, conv)
  {
  }

  /** However the turns of different conversations interleave, each conversation sees exactly what it
      would see if it were alone. */
  lemma {:induction false} Isolation(run: seq<Labelled>, conv: string)
    requires SharedRun(run).Some?
    ensures ConvRun(StepsOf(run, conv)) == Some(View(SharedRun(run).value, conv))
  {
    if run != [] {
      var n := |run| - 1;
      Isolation(run[..n], conv);
      var b := SharedRun(run[..n]).value;
      ViewStep(b, run[n], conv);
      var before := StepsOf(run[..n], conv);
      if run[n].conv == conv {
        assert (before + [run[n].step])[..|before|] == before;
      } else {
        NoMore(before);
      }
    }
  }

  /** Hence in every interleaving each conversation's redirects and cancels go to its own logins. */
  lemma OwnLoginsOnly(run: seq<Labelled>, conv: string)
    requires SharedRun(run).Some?
    ensures var c := View(SharedRun(run).value, conv);
            Issued(c.log) == Consumed(c.log) + Outstanding(c.pending, c.phase) && |Outstanding(c.pending, c.phase)| <= 1
  {
    Isolation(run, conv);
    LoginsPairUp(StepsOf(run, conv));
  }
}
