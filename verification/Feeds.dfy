/**
 * The three feeds of turnoutput/feed.go: what Observe, ObserveProvider and ObserveStream
 * make of an event whose payload has been decoded. A payload that could not be decoded is
 * absent. Names, phases and methods are given as what the feed recognises in them.
 */
module Feeds {
  import opened Bytes
  import opened Lists
  import opened Options
  import opened ReducerModel
  import opened TurnInvariants
  import opened TurnModel

  datatype Phase = Thought | FinalPhase | OtherPhase

  datatype Status = StatusFailed | StatusCompleted | OtherStatus

  datatype DeltaFields = DeltaFields(content: seq<Byte>, text: seq<Byte>, phase: Phase, blockID: string, thinking: bool)

  datatype ToolFields = ToolFields(id: string, question: bool, asked: seq<Byte>)

  datatype ResultFields = ResultFields(id: string, isError: Option<bool>, status: Status)

  /** A native runtime nests the result; an ACP agent sends it flat. */
  datatype ResultPayload = ResultPayload(nested: Option<ResultFields>, flat: ResultFields)

  datatype RequestFields = RequestFields(key: string, question: bool, asked: seq<Byte>, text: seq<Byte>)

  datatype ResolvedFields = ResolvedFields(key: string, question: bool, allowed: Option<bool>, text: seq<Byte>)

  datatype RuntimeEvent =
    | TurnStarted(turn: string)
    | AgentDelta(turn: string, delta: Option<DeltaFields>)
    | AgentToolUse(turn: string, tool: Option<ToolFields>)
    | AgentToolResult(turn: string, result: Option<ResultPayload>)
    | AgentSubagentSpawn(turn: string)
    | PermissionRequested(turn: string, eventID: string, request: Option<RequestFields>)
    | PermissionResolved(turn: string, parentID: string, resolved: Option<ResolvedFields>)
    | PermissionDenied(turn: string, text: seq<Byte>, toolUseID: string)
    | TurnEnded(turn: string, term: Ending)
    | RuntimeExited(errText: seq<Byte>)
    | OtherKind

  datatype ProviderEvent =
    | ProviderDelta(text: seq<Byte>, blockID: string, phase: Phase)
    | ProviderThinking
    | ProviderToolUse(tool: ToolFields)
    | ProviderToolResult(id: string, isError: bool)
    | ProviderSpawn
    | ProviderUsage(stop: StopReason)
    | ProviderDenied(text: seq<Byte>, toolUseID: string)
    | ProviderDone(stop: StopReason, text: seq<Byte>)
    | ProviderError(errText: seq<Byte>)
    | OtherProvider

  datatype StreamEvent =
    | StreamDelta(content: seq<Byte>, blockID: string, phase: Phase)
    | StreamThinking
    | StreamToolUse(tool: Option<ToolFields>)
    | StreamUsage(stop: StopReason)
    | StreamDone(content: seq<Byte>)
    | StreamError(errText: seq<Byte>)
    | OtherStream

  /** toolResultOutcome: an explicit flag, else a final status; anything else is progress. */
  function ResultOutcome(p: ResultPayload): (string, Option<bool>) {
    var f := if p.nested.Some? then p.nested.value else p.flat;
    (f.id, if f.isError.Some? then f.isError
           else if f.status.StatusFailed? then Some(true)
           else if f.status.StatusCompleted? then Some(false)
           else None)
  }

  function DeltaOp(text: seq<Byte>, blockID: string, phase: Phase): Option<Op> {
    if phase.Thought? then None else Some(Delta(text, blockID, phase.FinalPhase?))
  }

  function DeltaIn(delta: Option<DeltaFields>): Option<Op> {
    if delta.None? || delta.value.thinking then None
    else
      var d := delta.value;
      DeltaOp(if d.content != [] then d.content else d.text, d.blockID, d.phase)
  }

  /** toolUse. */
  function ToolOp(tool: ToolFields): Op {
    UseTool(tool.id, tool.question, tool.asked)
  }

  function ResultOp(result: Option<ResultPayload>): Op {
    if result.None? then Pause
    else
      var (id, outcome) := ResultOutcome(result.value);
      if outcome.None? then Pause else ToolResult(id, outcome.value)
  }

  function RequestOp(eventID: string, request: Option<RequestFields>): Op {
    if request.None? then Pause
    else if request.value.question then Ask(request.value.asked)
    else PermissionRequest([eventID, request.value.key], request.value.text)
  }

  /** A resolution that does not say it allowed the action did not allow it. */
  function ResolvedOp(parentID: string, resolved: Option<ResolvedFields>): Op {
    if resolved.None? || resolved.value.question then Pause
    else Resolve([parentID, resolved.value.key], resolved.value.allowed == Some(true), resolved.value.text)
  }

  function Observed(ev: RuntimeEvent): Option<Event> {
    match ev
    case TurnStarted(turn) => Some(Started(turn))
    case AgentDelta(turn, delta) => Some(Body(turn, DeltaIn(delta)))
    case AgentToolUse(turn, tool) => Some(Body(turn, Some(if tool.None? then Pause else ToolOp(tool.value))))
    case AgentToolResult(turn, result) => Some(Body(turn, Some(ResultOp(result))))
    case AgentSubagentSpawn(turn) => Some(Body(turn, Some(Pause)))
    case PermissionRequested(turn, eventID, request) => Some(Body(turn, Some(RequestOp(eventID, request))))
    case PermissionResolved(turn, parentID, resolved) => Some(Body(turn, Some(ResolvedOp(parentID, resolved))))
    case PermissionDenied(turn, text, id) => Some(Body(turn, Some(Refuse(text, id))))
    case TurnEnded(turn, term) => Some(Ended(turn, term))
    case RuntimeExited(errText) => Some(Exited(errText))
    case OtherKind => None
  }

  function Completed(stop: StopReason, text: seq<Byte>): Ending {
    Ending(false, [], false, NoReason, stop, text)
  }

  function FailedWith(errText: seq<Byte>): Ending {
    Ending(true, errText, false, NoReason, NoStop, [])
  }

  function ObservedProvider(ev: ProviderEvent): Option<Event> {
    match ev
    case ProviderDelta(text, blockID, phase) => Some(Body("", DeltaOp(text, blockID, phase)))
    case ProviderThinking => Some(Body("", None))
    case ProviderToolUse(tool) => Some(Body("", Some(ToolOp(tool))))
    case ProviderToolResult(id, isError) => Some(Body("", Some(ToolResult(id, isError))))
    case ProviderSpawn => Some(Body("", Some(Pause)))
    case ProviderUsage(stop) => Some(Usage(stop))
    case ProviderDenied(text, id) => Some(Body("", Some(Refuse(text, id))))
    case ProviderDone(stop, text) => Some(Ended("", Completed(stop, text)))
    case ProviderError(errText) => Some(Ended("", FailedWith(errText)))
    case OtherProvider => None
  }

  function ObservedStream(ev: StreamEvent): Option<Event> {
    match ev
    case StreamDelta(content, blockID, phase) => Some(Body("", DeltaOp(content, blockID, phase)))
    case StreamThinking => Some(Body("", None))
    case StreamToolUse(tool) => Some(Body("", Some(if tool.None? then Pause else ToolOp(tool.value))))
    case StreamUsage(stop) => Some(Usage(stop))
    case StreamDone(content) => Some(Ended("", Completed(NoStop, content)))
    case StreamError(errText) => Some(Ended("", FailedWith(errText)))
    case OtherStream => None
  }

  // ---- the updates of one call ----------------------------------------------------------------------

  /** What an update says: nested by a native runtime, else flat. */
  function Fields(p: ResultPayload): ResultFields {
    match p.nested
    case Some(f) => f
    case None => p.flat
  }

  /** It says that the call ended, and whether with an error. */
  predicate SaysEnd(p: ResultPayload, isError: bool) {
    var f := Fields(p);
    f.isError == Some(isError) || (f.isError.None? && f.status == if isError then StatusFailed else StatusCompleted)
  }

  predicate IsProgress(p: ResultPayload) {
    Fields(p).isError.None? && Fields(p).status.OtherStatus?
  }

  /** Update i is the first that says how the call ended. */
  predicate IsFinal(updates: seq<ResultPayload>, i: nat) {
    i < |updates| && !IsProgress(updates[i]) && forall j :: 0 <= j < i ==> IsProgress(updates[j])
  }

  /** The calls after updates of one of them. */
  function Updated(c: Calls, updates: seq<ResultPayload>): Calls {
    if updates == [] then c else NotedCalls(Updated(c, Front(updates)), 0, ResultOp(Some(Last(updates))))
  }

  lemma ResultIsKept(c: Calls, id: string, isError: bool)
    requires id != "" && ToolIndex(c.tools, id).Some?
    ensures ToolIndex(SetResult(c, id, isError).tools, id) == ToolIndex(c.tools, id)
    ensures var (was, now) := (FactsOf(c, id), FactsOf(SetResult(c, id, isError), id));
      && now.refused == was.refused
      && (was.result.Some? ==> now == was)
      && (was.result.None? ==> now.result.Some? && now.result.value.isError == isError)
  {
    var i := ToolIndex(c.tools, id).value;
    SameIds(c.tools, SetResult(c, id, isError).tools, id);
  }

  lemma UpdateMeans(c: Calls, id: string, p: ResultPayload)
    requires id != "" && ToolIndex(c.tools, id).Some? && Fields(p).id == id
    ensures var now := NotedCalls(c, 0, ResultOp(Some(p)));
      && ToolIndex(now.tools, id) == ToolIndex(c.tools, id) && FactsOf(now, id).refused == FactsOf(c, id).refused
      && (IsProgress(p) || FactsOf(c, id).result.Some? ==> FactsOf(now, id).result == FactsOf(c, id).result)
      && (!IsProgress(p) && FactsOf(c, id).result.None? ==>
            FactsOf(now, id).result.Some? && SaysEnd(p, FactsOf(now, id).result.value.isError))
  {
    ResultIsKept(c, id, true);
    ResultIsKept(c, id, false);
  }

  /** An agent updates a call several times: progress says nothing, the first update that
      says how the call ended is its result, and later ones do not overwrite it. */
  lemma {:induction false} FirstFinalUpdateCounts(c: Calls, id: string, updates: seq<ResultPayload>)
    requires id != "" && ToolIndex(c.tools, id).Some? && FactsOf(c, id).result.None?
    requires forall u :: u in updates ==> Fields(u).id == id
    ensures var now := Updated(c, updates);
      && ToolIndex(now.tools, id) == ToolIndex(c.tools, id)
      && FactsOf(now, id).refused == FactsOf(c, id).refused
      && match FactsOf(now, id).result
         case None => forall u :: u in updates ==> IsProgress(u)
         case Some(o) => exists i: nat :: IsFinal(updates, i) && SaysEnd(updates[i], o.isError)
  {
    if updates != [] {
      assert Last(updates) in updates;
      FirstFinalUpdateCounts(c, id, Front(updates));
      UpdateMeans(Updated(c, Front(updates)), id, Last(updates));
      StillFinal(updates);
    }
  }

  lemma StillFinal(updates: seq<ResultPayload>)
    requires updates != []
    ensures forall i: nat :: IsFinal(Front(updates), i) ==> IsFinal(updates, i) && updates[i] == Front(updates)[i]
    ensures (forall u :: u in Front(updates) ==> IsProgress(u)) && !IsProgress(Last(updates)) ==> IsFinal(updates, |updates| - 1)
  {
    assert forall j :: 0 <= j < |updates| - 1 ==> updates[j] == Front(updates)[j] && updates[j] in Front(updates);
  }
}
