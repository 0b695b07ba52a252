/**
 * What one event of a feed leaves in the turn it belongs to (turnoutput/feed.go), by what its
 * payload says: which turn that is, what is known of its calls, what is asked, and what is
 * reported at its end.
 */
module FeedTheorems {
  import opened Bytes
  import opened Feeds
  import opened Lists
  import opened Options
  import opened ReducerModel
  import opened TurnInvariants
  import opened TurnModel
  import opened TurnOutputs
  import TR = TurnReducer

  // ---- the turn an event belongs to ---------------------------------------------------------------

  /** The turn it names, else the last begun that is open, else a new one. */
  function Target(s: State, turn: string, mint: string): string {
    if turn != "" then turn else if s.order != [] then Last(s.order) else mint
  }

  /** That turn before the event: a new one has the stop reason that led it. */
  ghost function Before(s: State, turn: string, mint: string): Turn {
    var id := Target(s, turn, mint);
    if id in s.open then s.open[id] else NewTurn(id).(usageStop := s.pendingStop)
  }

  /** Only turn id is changed, to t; past 64 the one begun first is gone. */
  ghost predicate OnlyChanges(s: State, now: map<string, Turn>, id: string, t: Turn) {
    && id in now && now[id] == t
    && (forall x :: x in now && x != id ==> x in s.open && now[x] == s.open[x])
    && forall x :: x in s.open && x !in now ==> id !in s.open && |s.order| == 64 && x == s.order[0]
  }

  /** Only that turn is changed, and a new one is last in the order. */
  ghost predicate Becomes(s: State, now: State, turn: string, mint: string, t: Turn) {
    var id := Target(s, turn, mint);
    && OnlyChanges(s, now.open, id, t)
    && now.finished == s.finished && now.lastDone == s.lastDone && now.lastError == s.lastError
    && if id in s.open then
         now.order == s.order && now.settled == s.settled && now.heldStop == s.heldStop && now.pendingStop == s.pendingStop
       else
         && now.order == (if |s.order| == 64 then s.order[1..] else s.order) + [id]
         && !now.settled && now.heldStop == NoStop && now.pendingStop == NoStop
  }

  lemma OneMoreOpen(s: State, id: string, t: Turn)
    requires OrderIsOpen(s.open, s.order) && id !in s.open
    ensures OnlyChanges(s, Evicted(s.open[id := t], s.order + [id]), id, t)
    ensures Newest(s.order + [id], MAX_OPEN_TURNS) == (if |s.order| == 64 then s.order[1..] else s.order) + [id]
  {
    if |s.order| == 64 { assert (s.order + [id])[0] == s.order[0] && s.order[0] in s.order; }
  }

  lemma CurrentIsOpen(s: State)
    requires Inv(s)
    ensures s.order != [] ==> Last(s.order) in s.open
  {
  }

  lemma NewTurnBecomes(s: State, turn: string, mint: string)
    requires Inv(s) && Mintable(s, mint) && (turn == "" || turn !in s.finished) && Target(s, turn, mint) !in s.open
    ensures BodyTurn(s, turn, mint) == (Begun(s, Target(s, turn, mint)), Some(Target(s, turn, mint)))
    ensures Becomes(s, Begun(s, Target(s, turn, mint)), turn, mint, Before(s, turn, mint))
  {
    OneMoreOpen(s, Target(s, turn, mint), Before(s, turn, mint));
    CurrentIsOpen(s);
  }

  lemma BodyBecomes(s: State, turn: string, mint: string)
    requires Inv(s) && Mintable(s, mint) && (turn == "" || turn !in s.finished)
    ensures BodyTurn(s, turn, mint).1 == Some(Target(s, turn, mint))
    ensures Becomes(s, BodyTurn(s, turn, mint).0, turn, mint, Before(s, turn, mint))
  {
    if Target(s, turn, mint) in s.open {
      CurrentIsOpen(s);
    } else {
      NewTurnBecomes(s, turn, mint);
    }
  }

  lemma WrittenBecomes(s: State, now: State, turn: string, mint: string, t: Turn, t': Turn)
    requires Becomes(s, now, turn, mint, t)
    ensures Becomes(s, now.(open := now.open[Target(s, turn, mint) := t']), turn, mint, t')
  {
  }

  lemma BeforeIsReachable(s: State, turn: string, mint: string)
    requires Inv(s)
    ensures Reachable(Before(s, turn, mint))
  {
  }

  /** An event of a turn's body reaches the turn it belongs to, and no other. */
  lemma BodyReachesItsTurn(s: State, turn: string, op: Option<Op>, mint: string)
    requires Inv(s) && Mintable(s, mint) && (turn == "" || turn !in s.finished)
    ensures Reachable(Before(s, turn, mint)) && Step(s, Input(Body(turn, op), mint)).1.None?
    ensures Becomes(s, Step(s, Input(Body(turn, op), mint)).0, turn, mint,
                    if op.Some? then Apply(Before(s, turn, mint), op.value) else Before(s, turn, mint))
  {
    BeforeIsReachable(s, turn, mint);
    BodyBecomes(s, turn, mint);
    if op.Some? {
      WrittenBecomes(s, BodyTurn(s, turn, mint).0, turn, mint, Before(s, turn, mint), Apply(Before(s, turn, mint), op.value));
      OperatedIs(s, turn, op.value, mint);
    }
  }

  lemma OperatedIs(s: State, turn: string, op: Op, mint: string)
    requires Inv(s) && Mintable(s, mint) && BodyTurn(s, turn, mint).1 == Some(Target(s, turn, mint))
    requires var id := Target(s, turn, mint); id in BodyTurn(s, turn, mint).0.open && BodyTurn(s, turn, mint).0.open[id] == Before(s, turn, mint)
    requires WellFormed(Before(s, turn, mint))
    ensures var now := BodyTurn(s, turn, mint).0;
      Step(s, Input(Body(turn, Some(op)), mint)).0 == now.(open := now.open[Target(s, turn, mint) := Apply(Before(s, turn, mint), op)])
  {
  }

  // ---- what an event does to its turn ---------------------------------------------------------------

  /** Only the anonymous block has ended. */
  predicate Pauses(was: Turn, now: Turn) {
    now == was.(buffer := was.buffer.(anonOpen := false))
  }

  predicate KeepsText(was: Turn, now: Turn) {
    now.id == was.id && now.usageStop == was.usageStop && Pauses(was, was.(buffer := now.buffer))
  }

  function LastOf<T>(list: seq<T>, n: nat): seq<T> {
    if |list| < n then list else list[|list| - n..]
  }

  function LastSignal(t: Turn): Option<Signal> {
    if t.asks.signals == [] then None else Some(Last(t.asks.signals))
  }

  /** The last signal says this, of the kind, where it came. */
  predicate Raises(was: Turn, now: Turn, kind: Kind, text: seq<Byte>) {
    && now.asks.pending == was.asks.pending && LastSignal(now).Some?
    && LastSignal(now).value.kind == kind && LastSignal(now).value.text == Clip(text)
    && Front(now.asks.signals) == LastOf(was.asks.signals, 63)
  }

  /** A call is the last of the turn's; a question tool also asks. */
  predicate MakesCall(was: Turn, now: Turn, tool: ToolFields) {
    && KeepsText(was, now) && now.calls.tools != []
    && Last(now.calls.tools).id == tool.id && Last(now.calls.tools).question == tool.question
    && Last(now.calls.tools).tick == was.calls.tick + 1 == now.calls.tick
    && if tool.question then Raises(was, now, Question, tool.asked) && LastSignal(now).value.toolCall && LastSignal(now).value.toolID == tool.id
       else now.asks == was.asks
  }

  /** What is known of the call with the id: its result if it had one, or else this. */
  predicate Results(was: Turn, now: Turn, id: string, isError: bool) {
    && KeepsText(was, now) && now.asks == was.asks
    && if id == "" || FactsOf(was.calls, id).result.Some? then now.calls == was.calls
       else
         var facts := FactsOf(now.calls, id);
         facts.result == Some(Outcome(isError, was.calls.tick + 1)) && facts.refused == FactsOf(was.calls, id).refused
  }

  /** The call it names is refused, and an approval is asked. */
  predicate Refuses(was: Turn, now: Turn, text: seq<Byte>, id: string) {
    && KeepsText(was, now) && Raises(was, now, Approval, text)
    && LastSignal(now).value.byTool && LastSignal(now).value.toolID == id
    && (id == "" ==> now.calls == was.calls)
    && (id != "" ==> FactsOf(now.calls, id) == FactsOf(was.calls, id).(refused := true))
  }

  /** A question at this point, of no call. */
  predicate AsksHere(was: Turn, now: Turn, text: seq<Byte>) {
    KeepsText(was, now) && now.calls == was.calls && Raises(was, now, Question, text) && !LastSignal(now).value.byTool
  }

  /** A request waits, by these ids, after those before it. */
  predicate Waits(was: Turn, now: Turn, ids: seq<string>, text: seq<Byte>) {
    && KeepsText(was, now) && now.calls == was.calls && now.asks.signals == was.asks.signals
    && now.asks.pending != [] && Last(now.asks.pending).ids == ids
    && Last(now.asks.pending).sig.kind == Approval && Last(now.asks.pending).sig.text == Clip(text)
    && Front(now.asks.pending) == LastOf(was.asks.pending, 63)
  }

  /** The request a resolution is of: the first that shares an id, or else the first. */
  predicate IsSettled(pending: seq<Request>, ids: seq<string>, i: nat) {
    && i < |pending|
    && ((Overlaps(pending[i].ids, ids) && forall j :: 0 <= j < i ==> !Overlaps(pending[j].ids, ids))
        || (i == 0 && forall j :: 0 <= j < |pending| ==> !Overlaps(pending[j].ids, ids)))
  }

  /** That request is gone, or none was there; refused, it asks for an approval. */
  ghost predicate Settles(was: Turn, now: Turn, ids: seq<string>, allowed: bool, text: seq<Byte>) {
    && KeepsText(was, now) && now.calls == was.calls
    && if was.asks.pending == [] then
         if allowed then now.asks == was.asks else Raises(was, now, Approval, text)
       else
         exists i: nat ::
           && IsSettled(was.asks.pending, ids, i)
           && now.asks.pending == was.asks.pending[..i] + was.asks.pending[i + 1..]
           && now.asks.signals == if allowed then was.asks.signals else LastOf(was.asks.signals, 63) + [was.asks.pending[i].sig]
  }

  lemma CallMeans(t: Turn, tool: ToolFields)
    requires Reachable(t)
    ensures MakesCall(t, Apply(t, UseTool(tool.id, tool.question, tool.asked)), tool)
  {
  }

  lemma ResultMeans(t: Turn, id: string, isError: bool)
    requires Reachable(t)
    ensures Results(t, Apply(t, ToolResult(id, isError)), id, isError)
  {
    if id != "" { FactsAreSet(t.calls, id, FactsOf(t.calls, id).(result := Some(Outcome(isError, t.calls.tick + 1)))); }
  }

  lemma FactsAreSet(c: Calls, id: string, facts: Facts)
    requires id != "" && Tidy(c)
    ensures FactsOf(SetFacts(c, id, facts), id) == facts
  {
    if ToolIndex(c.tools, id).Some? { SameIds(c.tools, SetFacts(c, id, facts).tools, id); }
  }

  lemma RefusalMeans(t: Turn, text: seq<Byte>, id: string)
    requires Reachable(t)
    ensures Refuses(t, Apply(t, Refuse(text, id)), text, id)
  {
    if id != "" { FactsAreSet(t.calls, id, FactsOf(t.calls, id).(refused := true)); }
  }

  lemma AskMeans(t: Turn, text: seq<Byte>)
    requires Reachable(t)
    ensures AsksHere(t, Apply(t, Ask(text)), text)
  {
  }

  lemma RequestMeans(t: Turn, ids: seq<string>, text: seq<Byte>)
    requires Reachable(t)
    ensures Waits(t, Apply(t, PermissionRequest(ids, text)), ids, text)
  {
    var now := Apply(t, PermissionRequest(ids, text));
    var request := Request(ids, AtPoint(Approval, text, |t.buffer.blocks|, t.calls.tick));
    assert now.asks.pending == Newest(t.asks.pending + [request], MAX_PENDING);
  }

  lemma {:induction false} NamedIs(pending: seq<Request>, ids: seq<string>)
    requires pending != []
    ensures IsSettled(pending, ids, if Named(pending, ids).Some? then Named(pending, ids).value else 0)
    ensures Named(pending, ids).None? ==> forall j :: 0 <= j < |pending| ==> !Overlaps(pending[j].ids, ids)
  {
    if !Overlaps(pending[0].ids, ids) && |pending| > 1 {
      NamedIs(pending[1..], ids);
      assert forall j :: 1 <= j < |pending| ==> pending[j] == pending[1..][j - 1];
    }
  }

  lemma SettlingMeans(a: Asks, ids: seq<string>, allowed: bool, unasked: Signal)
    requires a.pending != [] && |a.signals| <= MAX_SIGNALS
    ensures var now := Settled(a, ids, allowed, unasked);
      exists i: nat ::
        && IsSettled(a.pending, ids, i)
        && now.pending == a.pending[..i] + a.pending[i + 1..]
        && now.signals == if allowed then a.signals else LastOf(a.signals, 63) + [a.pending[i].sig]
  {
    NamedIs(a.pending, ids);
    var i := if Named(a.pending, ids).Some? then Named(a.pending, ids).value else 0;
    assert IsSettled(a.pending, ids, i);
  }

  lemma ResolutionMeans(t: Turn, ids: seq<string>, allowed: bool, text: seq<Byte>)
    requires Reachable(t)
    ensures Settles(t, Apply(t, Resolve(ids, allowed, text)), ids, allowed, text)
  {
    var unasked := AtPoint(Approval, text, |t.buffer.blocks|, t.calls.tick);
    assert Apply(t, Resolve(ids, allowed, text)).asks == Settled(t.asks, ids, allowed, unasked);
    if t.asks.pending != [] { SettlingMeans(t.asks, ids, allowed, unasked); }
  }

  // ---- the runtime feed -------------------------------------------------------------------------------

  /** The state after a runtime event, and what is reported. */
  ghost function Fed(s: State, ev: RuntimeEvent, mint: string): (State, Option<Output>)
    requires Inv(s) && Mintable(s, mint)
  {
    TR.FeedStep(s, Observed(ev), mint)
  }

  /** The event is of this turn, which has not been reported of late. */
  ghost predicate IsOf(s: State, turn: string, mint: string) {
    Inv(s) && Mintable(s, mint) && (turn == "" || turn !in s.finished)
  }

  lemma FedBody(s: State, event: Option<Event>, turn: string, op: Option<Op>, mint: string) returns (now: Turn)
    requires IsOf(s, turn, mint) && event == Some(Body(turn, op))
    ensures TR.FeedStep(s, event, mint).1.None? && Becomes(s, TR.FeedStep(s, event, mint).0, turn, mint, now)
    ensures Reachable(Before(s, turn, mint))
    ensures now == if op.Some? then Apply(Before(s, turn, mint), op.value) else Before(s, turn, mint)
  {
    BodyReachesItsTurn(s, turn, op, mint);
    now := if op.Some? then Apply(Before(s, turn, mint), op.value) else Before(s, turn, mint);
  }

  /** What an update of a call says of how it ended: is_error where there is one, else a final
      status, else nothing. */
  ghost predicate SaysOf(was: Turn, now: Turn, f: ResultFields) {
    match f.isError
    case Some(isError) => Results(was, now, f.id, isError)
    case None =>
      match f.status
      case StatusFailed => Results(was, now, f.id, true)
      case StatusCompleted => Results(was, now, f.id, false)
      case OtherStatus => Pauses(was, now)
  }

  /** The result a runtime event gives is that of the call named, once; a nested payload is read
      rather than the flat one. */
  lemma ResultOfARuntime(s: State, turn: string, result: Option<ResultPayload>, mint: string) returns (now: Turn)
    requires IsOf(s, turn, mint)
    ensures var (after, out) := Fed(s, AgentToolResult(turn, result), mint); out.None? && Becomes(s, after, turn, mint, now)
    ensures match result
      case None => Pauses(Before(s, turn, mint), now)
      case Some(p) => SaysOf(Before(s, turn, mint), now, if p.nested.Some? then p.nested.value else p.flat)
  {
    now := FedBody(s, Observed(AgentToolResult(turn, result)), turn, Some(ResultOp(result)), mint);
    var was := Before(s, turn, mint);
    if result.Some? {
      var f := if result.value.nested.Some? then result.value.nested.value else result.value.flat;
      ResultMeans(was, f.id, true);
      ResultMeans(was, f.id, false);
    }
  }

  /** A delta's content, or else its text, is said in the block it names; thinking, and what
      cannot be read, is not. */
  lemma DeltaOfARuntime(s: State, turn: string, delta: Option<DeltaFields>, mint: string) returns (now: Turn)
    requires IsOf(s, turn, mint)
    ensures var (after, out) := Fed(s, AgentDelta(turn, delta), mint); out.None? && Becomes(s, after, turn, mint, now)
    ensures Reachable(Before(s, turn, mint))
    ensures var was := Before(s, turn, mint);
      if delta.None? || delta.value.thinking || delta.value.phase == Thought then now == was
      else if delta.value.content != [] then now == Apply(was, Delta(delta.value.content, delta.value.blockID, delta.value.phase == FinalPhase))
      else now == Apply(was, Delta(delta.value.text, delta.value.blockID, delta.value.phase == FinalPhase))
  {
    now := FedBody(s, Observed(AgentDelta(turn, delta)), turn, DeltaIn(delta), mint);
  }

  lemma CallOfARuntime(s: State, turn: string, tool: Option<ToolFields>, mint: string) returns (now: Turn)
    requires IsOf(s, turn, mint)
    ensures var (after, out) := Fed(s, AgentToolUse(turn, tool), mint); out.None? && Becomes(s, after, turn, mint, now)
    ensures match tool
      case None => Pauses(Before(s, turn, mint), now)
      case Some(tool) => MakesCall(Before(s, turn, mint), now, tool)
  {
    now := FedBody(s, Observed(AgentToolUse(turn, tool)), turn, Some(if tool.None? then Pause else ToolOp(tool.value)), mint);
    if tool.Some? { CallMeans(Before(s, turn, mint), tool.value); }
  }

  /** A request waits by the event's id and the provider's own; a question is asked there. */
  lemma RequestOfARuntime(s: State, turn: string, eventID: string, request: Option<RequestFields>, mint: string) returns (now: Turn)
    requires IsOf(s, turn, mint)
    ensures var (after, out) := Fed(s, PermissionRequested(turn, eventID, request), mint); out.None? && Becomes(s, after, turn, mint, now)
    ensures match request
      case None => Pauses(Before(s, turn, mint), now)
      case Some(f) =>
        if f.question then AsksHere(Before(s, turn, mint), now, f.asked) else Waits(Before(s, turn, mint), now, [eventID, f.key], f.text)
  {
    now := FedBody(s, Observed(PermissionRequested(turn, eventID, request)), turn, Some(RequestOp(eventID, request)), mint);
    if request.Some? {
      AskMeans(Before(s, turn, mint), request.value.asked);
      RequestMeans(Before(s, turn, mint), [eventID, request.value.key], request.value.text);
    }
  }

  /** A resolution settles the request it names; what does not say it was allowed was refused. */
  lemma ResolutionOfARuntime(s: State, turn: string, parentID: string, resolved: Option<ResolvedFields>, mint: string) returns (now: Turn)
    requires IsOf(s, turn, mint)
    ensures var (after, out) := Fed(s, PermissionResolved(turn, parentID, resolved), mint); out.None? && Becomes(s, after, turn, mint, now)
    ensures match resolved
      case None => Pauses(Before(s, turn, mint), now)
      case Some(f) =>
        if f.question then Pauses(Before(s, turn, mint), now)
        else if f.allowed == Some(true) then Settles(Before(s, turn, mint), now, [parentID, f.key], true, f.text)
        else Settles(Before(s, turn, mint), now, [parentID, f.key], false, f.text)
  {
    now := FedBody(s, Observed(PermissionResolved(turn, parentID, resolved)), turn, Some(ResolvedOp(parentID, resolved)), mint);
    if resolved.Some? {
      ResolutionMeans(Before(s, turn, mint), [parentID, resolved.value.key], true, resolved.value.text);
      ResolutionMeans(Before(s, turn, mint), [parentID, resolved.value.key], false, resolved.value.text);
    }
  }

  lemma DenialOfARuntime(s: State, turn: string, text: seq<Byte>, id: string, mint: string) returns (now: Turn)
    requires IsOf(s, turn, mint)
    ensures var (after, out) := Fed(s, PermissionDenied(turn, text, id), mint); out.None? && Becomes(s, after, turn, mint, now)
    ensures Refuses(Before(s, turn, mint), now, text, id)
  {
    now := FedBody(s, Observed(PermissionDenied(turn, text, id)), turn, Some(Refuse(text, id)), mint);
    RefusalMeans(Before(s, turn, mint), text, id);
  }

  lemma SpawnOfARuntime(s: State, turn: string, mint: string) returns (now: Turn)
    requires IsOf(s, turn, mint)
    ensures var (after, out) := Fed(s, AgentSubagentSpawn(turn), mint); out.None? && Becomes(s, after, turn, mint, now)
    ensures Pauses(Before(s, turn, mint), now)
  {
    now := FedBody(s, Observed(AgentSubagentSpawn(turn)), turn, Some(Pause), mint);
  }

  lemma StartOfARuntime(s: State, turn: string, mint: string)
    requires IsOf(s, turn, mint)
    ensures var (after, out) := Fed(s, TurnStarted(turn), mint);
      out.None? && if turn == "" then after == s else Becomes(s, after, turn, mint, Before(s, turn, mint))
  {
    BodyBecomes(s, turn, mint);
  }

  // ---- the typed feed and the legacy stream ---------------------------------------------------------------

  ghost function FedTyped(s: State, ev: ProviderEvent, mint: string): (State, Option<Output>)
    requires Inv(s) && Mintable(s, mint)
  {
    TR.FeedStep(s, ObservedProvider(ev), mint)
  }

  ghost function FedStream(s: State, ev: StreamEvent, mint: string): (State, Option<Output>)
    requires Inv(s) && Mintable(s, mint)
  {
    TR.FeedStep(s, ObservedStream(ev), mint)
  }

  ghost predicate Speaks(was: Turn, now: Turn, text: seq<Byte>, blockID: string, phase: Phase)
    requires WellFormed(was)
  {
    match phase
    case Thought => now == was
    case FinalPhase => now == Apply(was, Delta(text, blockID, true))
    case OtherPhase => now == Apply(was, Delta(text, blockID, false))
  }

  /** What a typed event, or a stream event, says of the turn it is part of: the last begun. */
  ghost predicate SaysTyped(was: Turn, now: Turn, ev: ProviderEvent)
    requires WellFormed(was)
  {
    match ev
    case ProviderDelta(text, blockID, phase) => Speaks(was, now, text, blockID, phase)
    case ProviderThinking => now == was
    case ProviderToolUse(tool) => MakesCall(was, now, tool)
    case ProviderToolResult(id, isError) => Results(was, now, id, isError)
    case ProviderSpawn => Pauses(was, now)
    case ProviderDenied(text, id) => Refuses(was, now, text, id)
    case _ => false
  }

  predicate IsTypedBody(ev: ProviderEvent) {
    ev.ProviderDelta? || ev.ProviderThinking? || ev.ProviderToolUse? || ev.ProviderToolResult? || ev.ProviderSpawn? || ev.ProviderDenied?
  }

  lemma TypedMeans(t: Turn, ev: ProviderEvent)
    requires Reachable(t) && IsTypedBody(ev)
    ensures var op := ObservedProvider(ev).value.op;
      SaysTyped(t, if op.Some? then Apply(t, op.value) else t, ev)
  {
    match ev
    case ProviderToolUse(tool) => CallMeans(t, tool);
    case ProviderToolResult(id, isError) => ResultMeans(t, id, isError);
    case ProviderDenied(text, id) => RefusalMeans(t, text, id);
    case _ =>
  }

  lemma BodyOfATyped(s: State, ev: ProviderEvent, mint: string) returns (now: Turn)
    requires IsOf(s, "", mint) && IsTypedBody(ev)
    ensures var (after, out) := FedTyped(s, ev, mint); out.None? && Becomes(s, after, "", mint, now)
    ensures Reachable(Before(s, "", mint)) && SaysTyped(Before(s, "", mint), now, ev)
  {
    BeforeIsReachable(s, "", mint);
    now := FedBody(s, ObservedProvider(ev), "", ObservedProvider(ev).value.op, mint);
    TypedMeans(Before(s, "", mint), ev);
  }

  ghost predicate SaysStream(was: Turn, now: Turn, ev: StreamEvent)
    requires WellFormed(was)
  {
    match ev
    case StreamDelta(content, blockID, phase) => Speaks(was, now, content, blockID, phase)
    case StreamThinking => now == was
    case StreamToolUse(tool) => if tool.None? then Pauses(was, now) else MakesCall(was, now, tool.value)
    case _ => false
  }

  lemma BodyOfAStream(s: State, ev: StreamEvent, mint: string) returns (now: Turn)
    requires IsOf(s, "", mint) && (ev.StreamDelta? || ev.StreamThinking? || ev.StreamToolUse?)
    ensures var (after, out) := FedStream(s, ev, mint); out.None? && Becomes(s, after, "", mint, now)
    ensures Reachable(Before(s, "", mint)) && SaysStream(Before(s, "", mint), now, ev)
  {
    var was := Before(s, "", mint);
    BeforeIsReachable(s, "", mint);
    now := FedBody(s, ObservedStream(ev), "", ObservedStream(ev).value.op, mint);
    if ev.StreamToolUse? && ev.tool.Some? { CallMeans(was, ev.tool.value); }
  }

  // ---- the end of a turn ------------------------------------------------------------------------------------

  /** The turn a terminal event closes: the one it names, else the last begun that is open, else
      one that had no event, with the stop reason that came alone. */
  ghost predicate IsEnding(s: State, turn: string, mint: string, t: Turn)
    requires Inv(s)
  {
    CurrentIsOpen(s);
    if turn != "" then t == if turn in s.open then s.open[turn] else NewTurn(turn)
    else if s.order != [] then t == s.open[Last(s.order)]
    else t == NewTurn(mint).(usageStop := if s.heldStop != NoStop then s.heldStop else s.pendingStop)
  }

  /** That turn is closed and reported so, and the others stay; or nothing at all changes. */
  ghost predicate Ends(s: State, after: State, out: Option<Output>, turn: string, mint: string, term: Ending)
    requires Inv(s)
  {
    match out
    case None => after == s && if turn == "" then s.order == [] && s.settled else turn in s.finished
    case Some(record) =>
      exists t: Turn ::
        && IsEnding(s, turn, mint, t) && IsRecord(t, term, record)
        && after.open == s.open - {t.id} && after.order == Without(s.order, t.id)
        && after.finished == LastOf(s.finished, 63) + [t.id]
        && (after.settled <==> after.order == []) && after.heldStop == after.pendingStop == NoStop
  }

  /** The event ends that turn, so. */
  ghost predicate EndsSo(s: State, event: Option<Event>, turn: string, mint: string, term: Ending)
    requires Inv(s) && Mintable(s, mint)
  {
    var (after, out) := TR.FeedStep(s, event, mint);
    Ends(s, after, out, turn, mint, term)
  }

  lemma FinishedEnds(s: State, t: Turn, turn: string, mint: string, term: Ending)
    requires Inv(s) && IsEnding(s, turn, mint, t)
    ensures Ends(s, Finished(s, t, term), Some(OutputOf(t, term)), turn, mint, term)
  {
    OutputIs(t, term);
  }

  lemma EndingEnds(s: State, turn: string, mint: string, term: Ending)
    requires Inv(s) && Mintable(s, mint)
    ensures EndsSo(s, Some(Ended(turn, term)), turn, mint, term)
  {
    CurrentIsOpen(s);
    var t := EndingTurn(s, turn, term, mint);
    assert TR.FeedStep(s, Some(Ended(turn, term)), mint) == TR.Reported(CloseOne(s, t, term));
    if t.Some? { FinishedEnds(s, t.value, turn, mint, term); }
  }

  /** Each feed ends a turn with what it says: a completion with its text and stop reason, a
      failure with its error. */
  lemma EndOfARuntime(s: State, turn: string, term: Ending, mint: string)
    requires Inv(s) && Mintable(s, mint)
    ensures EndsSo(s, Observed(TurnEnded(turn, term)), turn, mint, term)
  {
    assert Observed(TurnEnded(turn, term)) == Some(Ended(turn, term));
    EndingEnds(s, turn, mint, term);
  }

  lemma EndsSame(s: State, event: Option<Event>, mint: string, term: Ending)
    requires Inv(s) && Mintable(s, mint) && event == Some(Ended("", term))
    ensures EndsSo(s, event, "", mint, term)
  {
    EndingEnds(s, "", mint, term);
  }

  lemma DoneOfATyped(s: State, stop: StopReason, text: seq<Byte>, mint: string)
    requires Inv(s) && Mintable(s, mint)
    ensures EndsSo(s, ObservedProvider(ProviderDone(stop, text)), "", mint, Ending(false, [], false, NoReason, stop, text))
  {
    EndsSame(s, ObservedProvider(ProviderDone(stop, text)), mint, Ending(false, [], false, NoReason, stop, text));
  }

  lemma ErrorOfATyped(s: State, errText: seq<Byte>, mint: string)
    requires Inv(s) && Mintable(s, mint)
    ensures EndsSo(s, ObservedProvider(ProviderError(errText)), "", mint, Ending(true, errText, false, NoReason, NoStop, []))
  {
    EndsSame(s, ObservedProvider(ProviderError(errText)), mint, Ending(true, errText, false, NoReason, NoStop, []));
  }

  lemma DoneOfAStream(s: State, content: seq<Byte>, mint: string)
    requires Inv(s) && Mintable(s, mint)
    ensures EndsSo(s, ObservedStream(StreamDone(content)), "", mint, Ending(false, [], false, NoReason, NoStop, content))
  {
    EndsSame(s, ObservedStream(StreamDone(content)), mint, Ending(false, [], false, NoReason, NoStop, content));
  }

  lemma ErrorOfAStream(s: State, errText: seq<Byte>, mint: string)
    requires Inv(s) && Mintable(s, mint)
    ensures EndsSo(s, ObservedStream(StreamError(errText)), "", mint, Ending(true, errText, false, NoReason, NoStop, []))
  {
    EndsSame(s, ObservedStream(StreamError(errText)), mint, Ending(true, errText, false, NoReason, NoStop, []));
  }

  /** With no turn open the event changes nothing; else it cuts short the last one begun. */
  ghost predicate CutsShort(s: State, event: Option<Event>, mint: string, term: Ending)
    requires Inv(s) && Mintable(s, mint)
  {
    if s.order == [] then TR.FeedStep(s, event, mint) == (s, None)
    else TR.FeedStep(s, event, mint).1.Some? && EndsSo(s, event, "", mint, term)
  }

  lemma CurrentEnds(s: State, event: Event, mint: string, term: Ending)
    requires Inv(s) && Mintable(s, mint) && Step(s, Input(event, mint)) == CloseOne(s, CurrentTurn(s), term)
    ensures CutsShort(s, Some(event), mint, term)
  {
    CurrentIsOpen(s);
    if s.order != [] { FinishedEnds(s, s.open[Last(s.order)], "", mint, term); }
  }

  lemma ExitCloses(s: State, errText: seq<Byte>, mint: string)
    requires Inv(s) && Mintable(s, mint)
    ensures Observed(RuntimeExited(errText)) == Some(Exited(errText))
    ensures Step(s, Input(Exited(errText), mint)) == CloseOne(s, CurrentTurn(s), Ending(true, errText, false, ProcessExited, NoStop, []))
  {
  }

  lemma ExitEnds(s: State, errText: seq<Byte>, mint: string)
    requires Inv(s) && Mintable(s, mint)
    ensures CutsShort(s, Observed(RuntimeExited(errText)), mint, Ending(true, errText, false, ProcessExited, NoStop, []))
  {
    ExitCloses(s, errText, mint);
    CurrentEnds(s, Exited(errText), mint, Ending(true, errText, false, ProcessExited, NoStop, []));
  }

  lemma FlushCloses(s: State, reason: seq<Byte>, mint: string)
    requires Inv(s) && Mintable(s, mint)
    ensures var why := if Blank(reason) then ReasonText(ProcessExited) else reason;
      && Step(s, Input(Flush(reason), mint)) == CloseOne(s, CurrentTurn(s), Ending(true, [], true, ReasonOf(why), NoStop, []))
      && ReasonText(ReasonOf(why)) == why
  {
  }

  /** A flush says why, or else that the process exited. */
  lemma FlushEnds(s: State, reason: seq<Byte>, mint: string)
    requires Inv(s) && Mintable(s, mint)
    ensures var why := if Blank(reason) then ReasonText(ProcessExited) else reason;
      CutsShort(s, Some(Flush(reason)), mint, Ending(true, [], true, ReasonOf(why), NoStop, [])) && ReasonText(ReasonOf(why)) == why
  {
    FlushCloses(s, reason, mint);
    CurrentEnds(s, Flush(reason), mint, Ending(true, [], true, ReasonOf(if Blank(reason) then ReasonText(ProcessExited) else reason), NoStop, []));
  }

  /** A stop reason that comes alone is the last turn's that is open, from either feed. */
  lemma UsageOfAFeed(s: State, stop: StopReason, mint: string)
    requires Inv(s) && Mintable(s, mint) && s.order != [] && stop != NoStop
    ensures Last(s.order) in s.open && ObservedProvider(ProviderUsage(stop)) == ObservedStream(StreamUsage(stop))
    ensures var id := Last(s.order);
      FedTyped(s, ProviderUsage(stop), mint) == (s.(open := s.open[id := s.open[id].(usageStop := stop)]), None)
  {
    CurrentIsOpen(s);
    NotedIs(s, stop);
    assert Step(s, Input(Usage(stop), mint)) == (NotedStop(s, stop), None);
  }

  lemma NotedIs(s: State, stop: StopReason)
    requires Inv(s) && s.order != [] && stop != NoStop && Last(s.order) in s.open
    ensures NotedStop(s, stop) == s.(open := s.open[Last(s.order) := s.open[Last(s.order)].(usageStop := stop)])
  {
  }
}
