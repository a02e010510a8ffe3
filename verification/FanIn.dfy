/**
 Tool fan-in of one conversation, as a step system. A planner dispatches a batch of tool
 invocations as a chain of stamped entries; flows carry single invocations to their terminal
 states, each write a read followed later by a write-back; a settled flow asks for a continuation
 check; checks run one at a time, but every query of a check is a step of its own.
 */
module FanIn {
  import opened Options
  import opened Entries
  import opened Forest
  import opened Batches

  type FlowId = nat

  datatype After = ThenEdited | ThenExecuting | ThenSettled | ThenEnds

  datatype Phase =
    | Preparing
    | Approving(stored: Params)
    | Edited
    | Retrying
    | Denying
    | Executing
    | Writing(patch: Patch, fetched: Payload, after: After)
    | Settled

  /** One handling of a tool invocation: its first run, an approval, a denial or a retry. */
  datatype Flow = Flow(entry: Id, batch: Option<Batch>, continues: bool, forced: bool, scope: nat, phase: Phase)

  /** A fan-in check asked for by a settled flow. */
  datatype Check = Check(entry: Id, batch: Option<Batch>, forced: bool, scope: nat)

  datatype Current =
    | Idle
    | AtGate(check: Check)
    | AtTail(check: Check)
    | AtChild(check: Check, anchor: Id)
    | AtInsert(check: Check, anchor: Id)

  /** A planner continuation that was created. */
  datatype Cont = Cont(check: Check, anchor: Id, child: Id)

  datatype Dispatch = Dispatch(size: nat, continues: bool, anchor: Id, members: seq<Id>)

  datatype State = State(
    rows: Forest,
    batches: map<nat, Dispatch>,
    started: set<Id>,
    flows: map<FlowId, Flow>,
    queue: seq<Check>,
    current: Current,
    // history
    foreign: set<Id>,
    asked: seq<Check>,
    conts: seq<Cont>,
    aborted: set<nat>)

  const INIT := State(map[], map[], {}, map[], [], Idle, {}, [], [], {})

  datatype Action =
    | Foreign(id: Id, row: Row)
    | MergeOther(id: Id, patch: Patch)
    | Begin(batchId: nat, size: nat, continues: bool, anchor: Id)
    | AppendMember(batchId: nat, id: Id, index: int, toolId: string, parameters: Params)
    | StartMember(flow: FlowId, entry: Id, scope: nat)
    | Approve(flow: FlowId, entry: Id, scope: nat)
    | Deny(flow: FlowId, entry: Id, scope: nat)
    | Retry(flow: FlowId, entry: Id, scope: nat)
    | Fetch(flow: FlowId, patch: Patch, after: After)
    | Write(flow: FlowId)
    | Resolve(flow: FlowId)
    | Drop(flow: FlowId)
    | Abort(scope: nat)
    | Restart
    | TakeCheck
    | Gate
    | Tail
    | Child
    | Insert(id: Id, index: int, payload: Payload)
    | DropCheck

  // ---------------------------------------------------------------- writes

  /** Parameters as a run rewrites them. Without a batch they come out of the envelope's strip,
      which leaves no stamp behind. */
  ghost predicate Rewrites(batch: Option<Batch>, q: Option<Params>) {
    exists p: Option<Params>, raw: Value, request: Option<string>, note: Option<string> ::
      && q == Some(ToParametersPayload(p, raw, request, note, batch))
      && (batch.None? && p.Some? ==> STAMP !in p.value)
  }

  ghost predicate EditsOf(stored: Params, q: Option<Params>) {
    exists edited: Params :: q == Some(EditedParameters(stored, edited))
  }

  ghost predicate Runs(batch: Option<Batch>, patch: Patch, after: After) {
    patch.state == Some(Running) && patch.allowed == None && Rewrites(batch, patch.parameters) && after == ThenExecuting
  }

  /** The writes that each phase of a flow may come to. */
  ghost predicate MayWrite(phase: Phase, batch: Option<Batch>, patch: Patch, after: After) {
    match phase
    case Preparing =>
      || Runs(batch, patch, after)
      || (patch.state == Some(Requested) && patch.allowed == Some(false) && Rewrites(batch, patch.parameters) && after == ThenEnds)
      || (patch.state == Some(Error) && patch.allowed == Some(false) && Rewrites(batch, patch.parameters) && after == ThenSettled)
    case Approving(stored) =>
      || Runs(batch, patch, after)
      || (patch.state == None && patch.allowed == None && EditsOf(stored, patch.parameters) && after == ThenEdited)
    case Edited => Runs(batch, patch, after)
    case Retrying => Runs(batch, patch, after)
    case Denying => patch == ToolPatch(Some(Denied), Some(false), None) && after == ThenSettled
    case Executing =>
      || (patch == ToolPatch(Some(Done), Some(true), None) && after == ThenSettled)
      || (patch == ToolPatch(Some(Error), Some(true), None) && (after == ThenSettled || after == ThenEnds))
    case _ => false
  }

  function PhaseAfter(after: After): Phase
    requires after != ThenEnds
  {
    match after
    case ThenEdited => Edited
    case ThenExecuting => Executing
    case ThenSettled => Settled
  }

  /** A flow that has written something which only its own check can answer. */
  predicate Owes(f: Flow) {
    match f.phase
    case Edited => true
    case Executing => true
    case Settled => true
    case Writing(patch, _, after) => !(patch.state == Some(Requested))
    case _ => false
  }

  function CheckOf(f: Flow): Check {
    Check(f.entry, f.batch, f.forced, f.scope)
  }

  /** The sweep at boot: what was running is marked failed, and can be retried. */
  function Swept(p: Payload): Payload {
    if p.ToolInvocation? && p.state == Running then p.(state := Error, allowed := true) else p
  }

  function Sweep(m: Forest): Forest {
    map a | a in m :: m[a].(payload := Swept(m[a].payload))
  }

  // ---------------------------------------------------------------- steps

  /** The entry that the next member hangs under. */
  function Cursor(d: Dispatch): Id {
    if d.members == [] then d.anchor else d.members[|d.members| - 1]
  }

  function MemberRow(d: Dispatch, batchId: nat, index: int, toolId: string, parameters: Params): Row {
    Row(index, Some(Cursor(d)), false,
        ToolInvocation(toolId, Resolving, false, parameters[STAMP := BatchRef(Batch(batchId, d.size))]))
  }

  predicate HasState(m: Forest, a: Id, state: ToolState) {
    a in m && m[a].payload.ToolInvocation? && m[a].payload.state == state
  }

  function ContRow(anchor: Id, index: int, payload: Payload): Row {
    Row(index, Some(anchor), false, payload)
  }

  ghost predicate Enabled(s: State, a: Action) {
    match a
    case Foreign(id, row) =>
      MayAppend(s.rows, id, row) && StampOf(row.payload) == None
    case MergeOther(id, _) => id in s.rows && !s.rows[id].payload.ToolInvocation?
    case Begin(b, size, _, anchor) =>
      b !in s.batches && size > 0 && anchor in s.rows && StampOf(s.rows[anchor].payload) == None
    case AppendMember(b, id, index, toolId, parameters) =>
      && b in s.batches && |s.batches[b].members| < s.batches[b].size
      && MayAppend(s.rows, id, MemberRow(s.batches[b], b, index, toolId, parameters))
    case StartMember(f, e, _) =>
      f !in s.flows && e in s.rows && StampOf(s.rows[e].payload).Some? && StampOf(s.rows[e].payload).value.id in s.batches
      && e !in s.started
    case Approve(f, e, _) => f !in s.flows && HasState(s.rows, e, Requested)
    case Deny(f, e, _) => f !in s.flows && HasState(s.rows, e, Requested)
    case Retry(f, e, _) => f !in s.flows && HasState(s.rows, e, Error) && s.rows[e].payload.allowed
    case Fetch(f, patch, after) =>
      f in s.flows && s.flows[f].entry in s.rows && MayWrite(s.flows[f].phase, s.flows[f].batch, patch, after)
    case Write(f) =>
      && f in s.flows && s.flows[f].phase.Writing? && s.flows[f].phase.fetched.ToolInvocation?
      && s.flows[f].entry in s.rows
    case Resolve(f) => f in s.flows && s.flows[f].phase == Settled
    case Drop(f) => f in s.flows
    case Abort(_) => true
    case Restart => true
    case TakeCheck => s.current.Idle? && s.queue != []
    case Gate => s.current.AtGate? && s.current.check.batch.Some?
    case Tail => s.current.AtTail? && s.current.check.batch.Some?
    case Child => s.current.AtChild?
    case Insert(id, index, payload) =>
      && s.current.AtInsert? && payload.Thought? && payload.kind == Planner
      && MayAppend(s.rows, id, ContRow(s.current.anchor, index, payload))
    case DropCheck => s.current.AtInsert? && s.current.check.scope in s.aborted
  }

  function NewFlow(s: State, e: Id, continues: bool, forced: bool, scope: nat, phase: Phase): Flow
    requires e in s.rows
  {
    Flow(e, StampOf(s.rows[e].payload), continues, forced, scope, phase)
  }

  ghost function Do(s: State, a: Action): State
    requires Enabled(s, a)
  {
    match a
    case Foreign(id, row) => s.(rows := s.rows[id := row], foreign := s.foreign + {id})
    case MergeOther(id, patch) => s.(rows := s.rows[id := s.rows[id].(payload := Merged(s.rows[id].payload, patch))])
    case Begin(b, size, continues, anchor) => s.(batches := s.batches[b := Dispatch(size, continues, anchor, [])])
    case AppendMember(b, id, index, toolId, parameters) =>
      s.(rows := s.rows[id := MemberRow(s.batches[b], b, index, toolId, parameters)],
      batches := s.batches[b := s.batches[b].(members := s.batches[b].members + [id])])
    case StartMember(f, e, scope) =>
      var continues := s.batches[StampOf(s.rows[e].payload).value.id].continues;
      s.(started := s.started + {e}, flows := s.flows[f := NewFlow(s, e, continues, false, scope, Preparing)])
    case Approve(f, e, scope) =>
      s.(flows := s.flows[f := NewFlow(s, e, true, false, scope, Approving(s.rows[e].payload.parameters))])
    case Deny(f, e, scope) => s.(flows := s.flows[f := NewFlow(s, e, true, false, scope, Denying)])
    case Retry(f, e, scope) => s.(flows := s.flows[f := NewFlow(s, e, true, true, scope, Retrying)])
    case Fetch(f, patch, after) =>
      s.(flows := s.flows[f := s.flows[f].(phase := Writing(patch, s.rows[s.flows[f].entry].payload, after))])
    case Write(f) =>
      var fl := s.flows[f];
      var p := fl.phase;
      var s' := s.(rows := s.rows[fl.entry := s.rows[fl.entry].(payload := Merged(p.fetched, p.patch))]);
      if p.after != ThenEnds then s'.(flows := s.flows[f := fl.(phase := PhaseAfter(p.after))])
      else s'.(flows := s.flows - {f})
    case Resolve(f) =>
      var fl := s.flows[f];
      var s' := s.(flows := s.flows - {f});
      if fl.continues then s'.(queue := s.queue + [CheckOf(fl)], asked := s.asked + [CheckOf(fl)]) else s'
    case Drop(f) => s.(flows := s.flows - {f})
    case Abort(scope) => s.(aborted := s.aborted + {scope})
    case Restart => s.(rows := Sweep(s.rows), flows := map[], queue := [], current := Idle)
    case TakeCheck =>
      var c := s.queue[0];
      s.(queue := s.queue[1..], current := if c.batch.Some? then AtGate(c) else AtChild(c, c.entry))
    case Gate =>
      var c := s.current.check;
      s.(current := if |ResolvedMembers(s.rows, c.batch.value.id)| < c.batch.value.size then Idle else AtTail(c))
    case Tail =>
      var c := s.current.check;
      var tail := TailOf(s.rows, c.batch.value.id);
      s.(current := AtChild(c, if tail.Some? then tail.value else c.entry))
    case Child =>
      var c := s.current.check;
      s.(current := if !c.forced && HasSpineChild(s.rows, s.current.anchor) then Idle else AtInsert(c, s.current.anchor))
    case Insert(id, index, payload) =>
      s.(rows := s.rows[id := ContRow(s.current.anchor, index, payload)],
      conts := s.conts + [Cont(s.current.check, s.current.anchor, id)], current := Idle)
    case DropCheck => s.(current := Idle)
  }

  // ---------------------------------------------------------------- runs

  /** A state that some run of the system comes to. */
  ghost predicate Run(acts: seq<Action>, states: seq<State>) {
    && |states| == |acts| + 1 && states[0] == INIT
    && forall i | 0 <= i < |acts| :: Steps(states[i], acts[i], states[i + 1])
  }

  ghost predicate Steps(s: State, a: Action, t: State) {
    Enabled(s, a) && t == Do(s, a)
  }
}
