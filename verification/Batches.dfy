/**
 Fan-out batches as the chat history records them: the stamp inside a tool invocation's
 parameters, the members of a batch, which of them are resolved, and the batch tail.
 */
module Batches {
  import opened Options
  import opened Entries
  import opened Forest

  const STAMP := "__tool_batch"
  const REQUEST := "tool_request"
  const NOTE := "tool_note"
  const SOURCE := "source"
  const RAW := "raw"
  const PLANNER_SOURCE := Text("planner_tool_request")

  // ---------------------------------------------------------------- the envelope

  function ParseToolBatch(parameters: Params): Option<Batch> {
    if STAMP in parameters && parameters[STAMP].BatchRef? then Some(parameters[STAMP].batch) else None
  }

  /** Parameters as persisted: the tool's own, plus the bookkeeping keys. Anything that is not
      an object is kept under one key. */
  function ToParametersPayload(params: Option<Params>, raw: Value, request: Option<string>,
                               note: Option<string>, batch: Option<Batch>): Params
  {
    var base := if params.Some? then params.value else map[RAW := raw];
    var p1 := if request.Some? && request.value != ""
              then base[REQUEST := Text(request.value)][SOURCE := PLANNER_SOURCE] else base;
    var p2 := if note.Some? && note.value != "" then p1[NOTE := Text(note.value)] else p1;
    if batch.Some? then p2[STAMP := BatchRef(batch.value)] else p2
  }

  /** The tool's own parameters, as sent to its strict schema. */
  function StripToolParamEnvelope(parameters: Params): Params {
    parameters
      - (if REQUEST in parameters && parameters[REQUEST].Text? then {REQUEST} else {})
      - (if NOTE in parameters && parameters[NOTE].Text? then {NOTE} else {})
      - (if SOURCE in parameters && parameters[SOURCE] == PLANNER_SOURCE then {SOURCE} else {})
      - {STAMP}
  }

  /** What approve-with-edits persists: the user's parameters under the stored envelope. */
  function EditedParameters(stored: Params, edited: Params): Params {
    var clean := StripToolParamEnvelope(edited);
    var p1 := if REQUEST in stored then clean[REQUEST := stored[REQUEST]] else clean;
    var p2 := if SOURCE in stored then p1[SOURCE := stored[SOURCE]] else p1;
    if STAMP in stored then p2[STAMP := stored[STAMP]] else p2
  }

  /** A rewritten payload carries exactly the batch of the run that rewrites it. */
  lemma {:induction false} PayloadKeepsStamp(params: Option<Params>, raw: Value, request: Option<string>,
                          note: Option<string>, batch: Batch)
    ensures ParseToolBatch(ToParametersPayload(params, raw, request, note, Some(batch))) == Some(batch)
  {
  }

  predicate EnvelopeKey(k: string) {
    k == REQUEST || k == NOTE || k == SOURCE || k == STAMP
  }

  /** Key by key: a request is recorded with its source, a note as it is, neither if it is empty, and
      every other key of the tool's parameters keeps its value. */
  lemma {:induction false} PayloadRecords(params: Params, request: Option<string>, note: Option<string>, batch: Option<Batch>, k: string)
    ensures var p := ToParametersPayload(Some(params), OtherValue(0), request, note, batch);
            var requested, noted := request.Some? && request.value != "", note.Some? && note.value != "";
            && (requested ==> REQUEST in p && p[REQUEST] == Text(request.value) && SOURCE in p && p[SOURCE] == PLANNER_SOURCE)
            && (noted ==> NOTE in p && p[NOTE] == Text(note.value))
            && (!(requested && (k == REQUEST || k == SOURCE)) && !(noted && k == NOTE) && !(batch.Some? && k == STAMP) ==>
                  (k in p <==> k in params) && (k in p ==> p[k] == params[k]))
  {
  }

  /** Key by key: what approve-with-edits persists has the user's value, or none, under every key of the
      tool, and the stored request, source and stamp. A stamp of the user's own is dropped. */
  lemma {:induction false} EditKeepsEdits(stored: Params, edited: Params, k: string)
    ensures var p := EditedParameters(stored, edited);
            && (!EnvelopeKey(k) ==> (k in p <==> k in edited) && (k in p ==> p[k] == edited[k]))
            && (k in stored && EnvelopeKey(k) && k != NOTE ==> k in p && p[k] == stored[k])
            && (STAMP !in stored ==> STAMP !in p)
  {
  }

  /** The edit box may hand back the envelope. The tool gets the user's edits and nothing of it. */
  lemma {:induction false} EditsReachTool(params: Params, raw: Value, request: Option<string>, note: Option<string>,
                                          batch: Option<Batch>, edited: Params)
    requires !exists k | k in params :: EnvelopeKey(k)
    requires REQUEST in edited ==> edited[REQUEST].Text?
    requires NOTE in edited ==> edited[NOTE].Text?
    requires SOURCE in edited ==> edited[SOURCE] == PLANNER_SOURCE
    ensures var given := StripToolParamEnvelope(EditedParameters(ToParametersPayload(Some(params), raw, request, note, batch), edited));
            forall k :: (k in given <==> k in edited && !EnvelopeKey(k)) && (k in given ==> given[k] == edited[k])
  {
    var stored := ToParametersPayload(Some(params), raw, request, note, batch);
    assert REQUEST in stored ==> stored[REQUEST].Text?;
    assert SOURCE in stored ==> stored[SOURCE] == PLANNER_SOURCE;
  }

  /** Edits cannot forge, move or drop a stamp. */
  lemma {:induction false} EditKeepsStamp(stored: Params, edited: Params)
    ensures ParseToolBatch(EditedParameters(stored, edited)) == ParseToolBatch(stored)
  {
  }

  /** Stripping undoes the envelope: the tool gets back the parameters it was given, as long
      as these use none of the envelope's own keys. */
  lemma {:induction false} StripUndoesPayload(params: Params, request: Option<string>, note: Option<string>, batch: Option<Batch>)
    requires params.Keys !! {REQUEST, NOTE, SOURCE, STAMP}
    ensures StripToolParamEnvelope(ToParametersPayload(Some(params), OtherValue(0), request, note, batch)) == params
  {
    var p := StripToolParamEnvelope(ToParametersPayload(Some(params), OtherValue(0), request, note, batch));
    assert p.Keys == params.Keys;
  }

  // ---------------------------------------------------------------- queries

  function StampOf(p: Payload): Option<Batch> {
    if p.ToolInvocation? then ParseToolBatch(p.parameters) else None
  }

  predicate InBatch(p: Payload, b: nat) {
    StampOf(p).Some? && StampOf(p).value.id == b
  }

  predicate Resolved(p: Payload) {
    p.ToolInvocation? && p.state.Terminal()
  }

  ghost function Members(m: Forest, b: nat): set<Id> {
    set a | a in m && InBatch(m[a].payload, b)
  }

  ghost function ResolvedMembers(m: Forest, b: nat): set<Id> {
    set a | a in m && InBatch(m[a].payload, b) && Resolved(m[a].payload)
  }

  /** The member with the highest index. */
  ghost function TailOf(m: Forest, b: nat): Option<Id> {
    if Members(m, b) == {} then None else Some(Newest(m, Members(m, b)))
  }

  ghost predicate HasSpineChild(m: Forest, a: Id) {
    SpineChildren(m, Some(a)) != {}
  }
}
