/** Chat entries as they are stored: one row per entry, keyed by the entry id. */
module Entries {
  import opened Options

  type Id = nat

  datatype ToolState = Resolving | Requested | Running | Done | Error | Denied {
    /** The states the fan-in counts as resolved. */
    predicate Terminal() {
      this == Done || this == Error || this == Denied
    }
  }

  /** The fan-out batch a tool invocation belongs to. */
  datatype Batch = Batch(id: nat, size: nat)

  /** A JSON value, as far as the modelled code looks at it. */
  datatype Value = Text(text: string) | Number(number: real) | BatchRef(batch: Batch) | OtherValue(tag: nat)

  type Params = map<string, Value>

  datatype ThoughtKind = Planner | Summarize | OtherThought

  /** The token fields of a thought; a field that is absent or not a number is None. */
  datatype Usage = Usage(prompt: Option<real>, cached: Option<real>, completion: Option<real>, cost: Option<real>)

  datatype Payload =
    | UserMessage(text: string)
    | Thought(kind: ThoughtKind, usage: Usage)
    | ToolInvocation(toolId: string, state: ToolState, allowed: bool, parameters: Params)
    | CheckpointSummary(text: string)
    | OtherEntry(text: string)

  /** The fields that a merge overwrites; all others are written back as they were read. */
  datatype Patch = Patch(state: Option<ToolState>, allowed: Option<bool>, parameters: Option<Params>,
                         usage: Option<Usage>, text: Option<string>)

  function ToolPatch(state: Option<ToolState>, allowed: Option<bool>, parameters: Option<Params>): Patch {
    Patch(state, allowed, parameters, None, None)
  }

  /** A payload with the fields of a patch assigned over it. */
  function Merged(stored: Payload, patch: Patch): (p: Payload)
    ensures stored.ToolInvocation? <==> p.ToolInvocation?
  {
    match stored
    case ToolInvocation(toolId, state, allowed, parameters) =>
      ToolInvocation(toolId, patch.state.GetOr(state), patch.allowed.GetOr(allowed), patch.parameters.GetOr(parameters))
    case Thought(kind, usage) => Thought(kind, patch.usage.GetOr(usage))
    case UserMessage(text) => UserMessage(patch.text.GetOr(text))
    case CheckpointSummary(text) => CheckpointSummary(patch.text.GetOr(text))
    case OtherEntry(text) => OtherEntry(patch.text.GetOr(text))
  }

  predicate Field<T(==)>(patch: Option<T>, was: T, now: T) {
    match patch
    case Some(x) => now == x
    case None => now == was
  }

  /** p is q, except that each field which the patch has is now the patch's. */
  predicate Assigned(q: Payload, patch: Patch, p: Payload) {
    match q
    case ToolInvocation(toolId, _, _, _) =>
      && p.ToolInvocation? && p.toolId == toolId && Field(patch.state, q.state, p.state)
      && Field(patch.allowed, q.allowed, p.allowed) && Field(patch.parameters, q.parameters, p.parameters)
    case Thought(kind, _) => p.Thought? && p.kind == kind && Field(patch.usage, q.usage, p.usage)
    case UserMessage(_) => p.UserMessage? && Field(patch.text, q.text, p.text)
    case CheckpointSummary(_) => p.CheckpointSummary? && Field(patch.text, q.text, p.text)
    case OtherEntry(_) => p.OtherEntry? && Field(patch.text, q.text, p.text)
  }

  /** A row of a conversation. Stored rows are numbered from 0; the optimistic rows of the client have
      negative indices, in the order in which they were made. */
  datatype Row = Row(index: int, parent: Option<Id>, isSide: bool, payload: Payload)
}
