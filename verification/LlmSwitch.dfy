/**
 The model that the next planning round of a run uses, derived from the lineage alone: the latest
 accepted switch of the run decides, for a leased number of rounds or to the end of the run.
 */
module LlmSwitch {
  import opened Options
  import opened Entries
  import opened Forest
  import opened Tokens

  const SWITCH_LLM := "switch_llm"

  datatype LlmRef = LlmRef(providerId: string, model: string)

  datatype SwitchState = NoSwitch | Active(llm: LlmRef) | Expired

  function TextOf(params: Params, key: string): string {
    if key in params && params[key].Text? then params[key].text else ""
  }

  predicate IsUserMessage(e: Row) {
    e.payload.UserMessage?
  }

  /** Denied, failed and pending switches never took effect. */
  predicate IsSwitch(e: Row) {
    e.payload.ToolInvocation? && e.payload.toolId == SWITCH_LLM && e.payload.state == Done
  }

  predicate IsRound(e: Row) {
    e.payload.Thought? && e.payload.kind == Planner && !e.isSide
  }

  function TurnsOf(params: Params): int {
    if "turns" in params && params["turns"].Number? then Trunc(params["turns"].number) else 1
  }

  predicate Leased(params: Params) {
    TextOf(params, "scope") == "n_turns"
  }

  /** What a switch means once so many rounds have run since. */
  function Verdict(params: Params, roundsSince: nat): SwitchState {
    var llm := LlmRef(TextOf(params, "provider_id"), TextOf(params, "model_name"));
    if llm.providerId == "" || llm.model == "" then NoSwitch
    else if Leased(params) && roundsSince >= TurnsOf(params) then Expired
    else Active(llm)
  }

  // ---------------------------------------------------------------- reference

  /** The run so far: the switch in force, and the rounds since. */
  datatype Lease = NoLease | Lease(params: Params, roundsSince: nat)

  function After(l: Lease, e: Row): Lease {
    if IsUserMessage(e) then NoLease
    else if IsSwitch(e) then Lease(e.payload.parameters, 0)
    else if IsRound(e) && l.Lease? then l.(roundsSince := l.roundsSince + 1)
    else l
  }

  /** The lease read forwards, entry by entry. */
  function LeaseOf(entries: seq<Row>): Lease {
    if entries == [] then NoLease else After(LeaseOf(entries[..|entries| - 1]), entries[|entries| - 1])
  }

  function StateOf(l: Lease): SwitchState {
    if l.NoLease? then NoSwitch else Verdict(l.params, l.roundsSince)
  }

  // ---------------------------------------------------------------- the scan

  /** The scan runs backwards, to the last user message and to the latest switch behind it, and then
      counts the rounds that follow that. It agrees with the lease read forwards. */
  method ResolveLlmSwitchState(entries: seq<Row>) returns (r: SwitchState)
    ensures r == StateOf(LeaseOf(entries))
  {
    var windowStart := 0;
    var i := |entries|;
    while i > 0
      invariant 0 <= i <= |entries| && windowStart == 0
      invariant forall j | i <= j < |entries| :: !IsUserMessage(entries[j])
    {
      i := i - 1;
      if IsUserMessage(entries[i]) {
        windowStart := i + 1;
        break;
      }
    }
    i := |entries|;
    while i > windowStart
      invariant windowStart <= i <= |entries|
      invariant forall j | i <= j < |entries| :: !IsSwitch(entries[j])
    {
      i := i - 1;
      if IsSwitch(entries[i]) {
        var since := CountRounds(entries, i + 1);
        LeaseFrom(entries, i);
        return Verdict(entries[i].payload.parameters, since);
      }
    }
    NoLeaseFrom(entries, windowStart);
    return NoSwitch;
  }

  method CountRounds(entries: seq<Row>, start: nat) returns (n: nat)
    requires start <= |entries|
    ensures n == Rounds(entries[start..])
  {
    n := 0;
    for j := start to |entries|
      invariant n == Rounds(entries[start..j])
    {
      assert entries[start..j + 1] == entries[start..j] + [entries[j]];
      if IsRound(entries[j]) { n := n + 1; }
    }
    assert entries[start..|entries|] == entries[start..];
  }

  function Rounds(entries: seq<Row>): nat {
    if entries == [] then 0
    else Rounds(entries[..|entries| - 1]) + (if IsRound(entries[|entries| - 1]) then 1 else 0)
  }

  lemma {:induction false} RoundsMore(entries: seq<Row>, e: Row)
    ensures Rounds(entries + [e]) == Rounds(entries) + (if IsRound(e) then 1 else 0)
  {
    assert (entries + [e])[..|entries|] == entries;
  }

  lemma {:induction false} RoundsJoin(a: seq<Row>, b: seq<Row>)
    ensures Rounds(a + b) == Rounds(a) + Rounds(b)
    decreases |b|
  {
    if b == [] {
      assert a + b == a;
    } else {
      RoundsJoin(a, b[..|b| - 1]);
      assert (a + b)[..|a + b| - 1] == a + b[..|b| - 1];
    }
  }

  /** Neither a user message nor an accepted switch. */
  predicate Plain(e: Row) {
    !IsUserMessage(e) && !IsSwitch(e)
  }

  lemma {:induction false} LeaseFrom(entries: seq<Row>, i: nat)
    requires i < |entries| && IsSwitch(entries[i]) && forall j | i < j < |entries| :: Plain(entries[j])
    ensures LeaseOf(entries) == Lease(entries[i].payload.parameters, Rounds(entries[i + 1..]))
    decreases |entries| - i
  {
    var f, z := entries[..|entries| - 1], entries[|entries| - 1];
    if i == |entries| - 1 {
      assert entries[i + 1..] == [];
    } else {
      assert forall j | i < j < |f| :: f[j] == entries[j];
      assert Plain(entries[|entries| - 1]);
      LeaseFrom(f, i);
      assert entries[i + 1..] == f[i + 1..] + [z];
      RoundsMore(f[i + 1..], z);
    }
  }

  lemma {:induction false} NoLeaseFrom(entries: seq<Row>, start: nat)
    requires start <= |entries| && (start > 0 ==> IsUserMessage(entries[start - 1]))
    requires forall j | start <= j < |entries| :: !IsSwitch(entries[j])
    ensures LeaseOf(entries).NoLease?
    decreases |entries|
  {
    if |entries| > start {
      var f := entries[..|entries| - 1];
      assert forall j | start <= j < |f| :: f[j] == entries[j];
      NoLeaseFrom(f, start);
    }
  }

  // ---------------------------------------------------------------- whole runs

  /** The model of a continuation: the switched one, or after an expired lease the run's own,
      recomputed; else whatever the run used so far. */
  function EffectiveLlm(entries: seq<Row>, threaded: LlmRef, own: LlmRef): LlmRef {
    match StateOf(LeaseOf(entries))
    case Active(llm) => llm
    case Expired => own
    case NoSwitch => threaded
  }

  /** Denied, failed and pending switches, other tools, thoughts of the side lane or of another kind, and
      whatever else is no user message. */
  predicate Ignored(e: Row) {
    match e.payload
    case UserMessage(_) => false
    case ToolInvocation(toolId, state, _, _) => toolId != "switch_llm" || state != Done
    case Thought(kind, _) => kind != Planner || e.isSide
    case _ => true
  }

  /** Such an entry never matters, wherever it stands. */
  lemma {:induction false} IgnoredAnywhere(before: seq<Row>, e: Row, after: seq<Row>)
    requires Ignored(e)
    ensures LeaseOf(before + [e] + after) == LeaseOf(before + after)
    decreases |after|
  {
    var f := before + [e];
    if after == [] {
      assert f + after == f && before + after == before && f[..|f| - 1] == before;
    } else {
      var q, z := after[..|after| - 1], after[|after| - 1];
      IgnoredAnywhere(before, e, q);
      assert (f + after)[..|f + after| - 1] == f + q && (before + after)[..|before + after| - 1] == before + q;
    }
  }

  lemma {:induction false} IgnoredRows(q: seq<Row>)
    requires forall i | 0 <= i < |q| :: Ignored(q[i])
    ensures Rounds(q) == 0 && forall i | 0 <= i < |q| :: Plain(q[i])
    decreases |q|
  {
    if q != [] {
      assert Ignored(q[|q| - 1]);
      IgnoredRows(q[..|q| - 1]);
    }
    forall i | 0 <= i < |q| ensures Plain(q[i]) { assert Ignored(q[i]); }
  }

  /** One planning round: the planner's thought on the spine, and what follows up to the next round. */
  predicate IsRoundBlock(block: seq<Row>) {
    && block != [] && block[0].payload.Thought? && block[0].payload.kind == Planner && !block[0].isSide
    && forall i | 1 <= i < |block| :: Ignored(block[i])
  }

  lemma {:induction false} RoundBlock(block: seq<Row>)
    requires IsRoundBlock(block)
    ensures Rounds(block) == 1 && forall i | 0 <= i < |block| :: Plain(block[i])
  {
    var q := block[1..];
    forall i | 0 <= i < |q| ensures Ignored(q[i]) { assert Ignored(block[i + 1]); }
    IgnoredRows(q);
    RoundsJoin([block[0]], q);
    assert block == [block[0]] + q;
    RoundsMore([], block[0]);
    assert [] + [block[0]] == [block[0]];
    forall i | 0 <= i < |block| ensures Plain(block[i]) { assert i > 0 ==> block[i] == q[i - 1]; }
  }

  function Joined(blocks: seq<seq<Row>>): seq<Row> {
    if blocks == [] then [] else Joined(blocks[..|blocks| - 1]) + blocks[|blocks| - 1]
  }

  lemma {:induction false} BlockRounds(blocks: seq<seq<Row>>)
    requires forall i | 0 <= i < |blocks| :: IsRoundBlock(blocks[i])
    ensures Rounds(Joined(blocks)) == |blocks| && forall i | 0 <= i < |Joined(blocks)| :: Plain(Joined(blocks)[i])
    decreases |blocks|
  {
    if blocks != [] {
      var f, z := blocks[..|blocks| - 1], blocks[|blocks| - 1];
      assert forall i | 0 <= i < |f| :: f[i] == blocks[i];
      assert IsRoundBlock(blocks[|blocks| - 1]);
      BlockRounds(f);
      RoundsJoin(Joined(f), z);
      RoundBlock(z);
    }
  }

  /** The model of each round of a run, from the entries it starts with; each round passes its model
      on to the next. */
  function Used(entries: seq<Row>, blocks: seq<seq<Row>>, threaded: LlmRef, own: LlmRef, i: nat): LlmRef
    requires i <= |blocks|
  {
    EffectiveLlm(entries + Joined(blocks[..i]), if i == 0 then threaded else Used(entries, blocks, threaded, own, i - 1), own)
  }

  /** The length of a lease, cut towards zero; a switch that names none has one round. */
  lemma {:induction false} TurnsAre(p: Params)
    ensures if "turns" in p && p["turns"].Number?
            then var t, n := p["turns"].number, TurnsOf(p) as real;
                 if t >= 0.0 then n <= t < n + 1.0 else n - 1.0 < t <= n
            else TurnsOf(p) == 1
  {
  }

  /** A lease of k rounds covers exactly the first k continuations after the switch: each later one
      runs on the model recomputed for the run, whatever was passed on. With another scope the switch
      covers them all. A switch that names no provider or no model covers none: each continuation
      keeps the model that the run had. */
  lemma {:induction false} LeaseExact(before: seq<Row>, switch: Row, rest: seq<Row>, blocks: seq<seq<Row>>,
                                      threaded: LlmRef, own: LlmRef, i: nat)
    requires switch.payload.ToolInvocation? && switch.payload.toolId == "switch_llm" && switch.payload.state == Done
    requires forall j | 0 <= j < |rest| :: Ignored(rest[j])
    requires forall j | 0 <= j < |blocks| :: IsRoundBlock(blocks[j])
    requires i <= |blocks|
    ensures var p := switch.payload.parameters;
            Used(before + [switch] + rest, blocks, threaded, own, i)
              == if TextOf(p, "provider_id") == "" || TextOf(p, "model_name") == "" then threaded
                 else if "scope" in p && p["scope"] == Text("n_turns") && i >= TurnsOf(p) then own
                 else LlmRef(TextOf(p, "provider_id"), TextOf(p, "model_name"))
    decreases i
  {
    if i > 0 { LeaseExact(before, switch, rest, blocks, threaded, own, i - 1); }
    RoundsSince(rest, blocks[..i]);
    LeaseAfter(before, switch, rest, Joined(blocks[..i]));
  }

  lemma {:induction false} RoundsSince(rest: seq<Row>, blocks: seq<seq<Row>>)
    requires forall j | 0 <= j < |rest| :: Ignored(rest[j])
    requires forall j | 0 <= j < |blocks| :: IsRoundBlock(blocks[j])
    ensures Rounds(rest + Joined(blocks)) == |blocks|
    ensures forall j | 0 <= j < |rest + Joined(blocks)| :: Plain((rest + Joined(blocks))[j])
  {
    IgnoredRows(rest);
    BlockRounds(blocks);
    RoundsJoin(rest, Joined(blocks));
  }

  lemma {:induction false} LeaseAfter(before: seq<Row>, switch: Row, rest: seq<Row>, more: seq<Row>)
    requires IsSwitch(switch) && forall j | 0 <= j < |rest + more| :: Plain((rest + more)[j])
    ensures LeaseOf(before + [switch] + rest + more) == Lease(switch.payload.parameters, Rounds(rest + more))
  {
    var entries, tail := before + [switch] + rest + more, rest + more;
    assert entries[|before|] == switch && entries[|before| + 1..] == tail;
    forall j | |before| < j < |entries| ensures Plain(entries[j]) {
      assert entries[j] == tail[j - |before| - 1];
    }
    LeaseFrom(entries, |before|);
  }

  /** A new user message ends every switch. */
  lemma {:induction false} UserMessageEnds(before: seq<Row>, message: Row, rest: seq<Row>)
    requires IsUserMessage(message) && forall j | 0 <= j < |rest| :: !IsSwitch(rest[j])
    ensures StateOf(LeaseOf(before + [message] + rest)) == NoSwitch
  {
    var entries := before + [message] + rest;
    assert entries[|before|] == message;
    forall j | |before| + 1 <= j < |entries| ensures !IsSwitch(entries[j]) {
      assert entries[j] == rest[j - |before| - 1];
    }
    NoLeaseFrom(entries, |before| + 1);
  }

  /** With no accepted switch since the last user message, or since the start, every continuation uses
      the model that the run was given. */
  lemma {:induction false} UnswitchedKeepsModel(before: seq<Row>, rest: seq<Row>, blocks: seq<seq<Row>>,
                                                threaded: LlmRef, own: LlmRef, i: nat)
    requires before != [] ==> IsUserMessage(before[|before| - 1])
    requires forall j | 0 <= j < |rest| :: !IsSwitch(rest[j])
    requires i <= |blocks| && forall j, k | 0 <= j < |blocks| && 0 <= k < |blocks[j]| :: !IsSwitch(blocks[j][k])
    ensures Used(before + rest, blocks, threaded, own, i) == threaded
    decreases i
  {
    if i > 0 { UnswitchedKeepsModel(before, rest, blocks, threaded, own, i - 1); }
    var tail := rest + Joined(blocks[..i]);
    JoinedUnswitched(blocks[..i]);
    assert before + rest + Joined(blocks[..i]) == before + tail;
    var entries := before + tail;
    forall j | |before| <= j < |entries| ensures !IsSwitch(entries[j]) { assert entries[j] == tail[j - |before|]; }
    assert before != [] ==> entries[|before| - 1] == before[|before| - 1];
    NoLeaseFrom(entries, |before|);
  }

  lemma {:induction false} JoinedUnswitched(blocks: seq<seq<Row>>)
    requires forall j, k | 0 <= j < |blocks| && 0 <= k < |blocks[j]| :: !IsSwitch(blocks[j][k])
    ensures forall j | 0 <= j < |Joined(blocks)| :: !IsSwitch(Joined(blocks)[j])
    decreases |blocks|
  {
    if blocks != [] { JoinedUnswitched(blocks[..|blocks| - 1]); }
  }

  // ---------------------------------------------------------------- branches

  ghost function RowsOf(m: Forest, q: seq<Id>): seq<Row>
    requires forall x | x in q :: x in m
  {
    seq(|q|, i requires 0 <= i < |q| => assert q[i] in q; m[q[i]])
  }

  /** Only the lineage matters: rows that are added or changed off the branch never do. */
  lemma {:induction false} BranchesIndependent(m: Forest, n: Forest, leaf: Id, threaded: LlmRef, own: LlmRef)
    requires WellFormed(m) && WellFormed(n) && leaf in m && SameParents(m, n)
    requires forall x | x in Lineage(m, leaf) && x in m :: x in n && n[x] == m[x]
    ensures forall x | x in Lineage(m, leaf) :: x in m
    ensures forall x | x in Lineage(n, leaf) :: x in n
    ensures EffectiveLlm(RowsOf(n, Lineage(n, leaf)), threaded, own) == EffectiveLlm(RowsOf(m, Lineage(m, leaf)), threaded, own)
  {
    LineageStable(m, n, leaf);
    forall x | x in Lineage(m, leaf) ensures x in m && x in n { LineageBelow(m, leaf, x); }
    assert RowsOf(n, Lineage(n, leaf)) == RowsOf(m, Lineage(m, leaf));
  }
}
