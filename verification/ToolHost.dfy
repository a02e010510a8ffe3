/**
 The tool-host protocol: a client that correlates invocations with results, a server that runs them,
 and a pair of first-in first-out channels between the two.
 */
module ToolHost {
  import opened Options

  type InvId = nat

  datatype Outcome = Ok(output: string) | Failed(error: string)

  datatype ToHost = Hello | ListTools(request: nat) | Invoke(id: InvId, tool: string) | Cancel(id: InvId) | Ping(nonce: nat)

  datatype ToHarness =
    | HostReady
    | Tools(request: nat)
    | Progress(id: InvId, delta: string)
    | Result(id: InvId, outcome: Outcome)
    | Pong(nonce: nat)
    | HostError(about: Option<InvId>, message: string)

  // ---------------------------------------------------------------- the client

  datatype Settlement = Settlement(id: InvId, outcome: Outcome)

  /** Invocations in flight, each with whether it listens to an abort signal, and the invocations
      that were accepted and settled so far. */
  datatype Client = Client(pending: map<InvId, bool>, closed: bool, accepted: set<InvId>, settled: seq<Settlement>)

  const NEW_CLIENT := Client(map[], false, {}, [])

  function Accepted(c: Client, id: InvId, listens: bool): Client {
    c.(pending := c.pending[id := listens], accepted := c.accepted + {id})
  }

  function SettledBy(c: Client, id: InvId, outcome: Outcome): Client {
    if id in c.pending then c.(pending := c.pending - {id}, settled := c.settled + [Settlement(id, outcome)]) else c
  }

  function Handled(c: Client, m: ToHarness): Client {
    match m
    case Result(id, outcome) => SettledBy(c, id, outcome)
    case HostError(about, message) => if about.Some? then SettledBy(c, about.value, Failed(message)) else c
    case _ => c
  }

  /** The signal fires once: a cancel goes out if the invocation still listens. */
  predicate Listens(c: Client, id: InvId) {
    id in c.pending && c.pending[id]
  }

  function Aborted(c: Client, id: InvId): Client {
    if Listens(c, id) then c.(pending := c.pending[id := false]) else c
  }

  ghost predicate SettlesAll(q: seq<Settlement>, ids: set<InvId>, message: string) {
    && NoRepeat(q) && (forall i | 0 <= i < |q| :: q[i].id in ids && q[i].outcome == Failed(message))
    && (forall id | id in ids :: Has(q, id))
  }

  /** On close everything in flight settles, once, as failed. */
  ghost predicate ClosesTo(c: Client, message: string, d: Client) {
    if c.closed then d == c
    else
      && d.closed && d.pending == map[] && d.accepted == c.accepted
      && |c.settled| <= |d.settled| && d.settled[..|c.settled|] == c.settled
      && SettlesAll(d.settled[|c.settled|..], c.pending.Keys, message)
  }

  ghost predicate Has(q: seq<Settlement>, id: InvId) {
    exists i :: 0 <= i < |q| && q[i].id == id
  }

  ghost predicate NoRepeat(q: seq<Settlement>) {
    forall i, j | 0 <= i < j < |q| :: q[i].id != q[j].id
  }

  /** Every accepted invocation is in flight or has settled, not both, and none has settled twice. */
  ghost predicate ClientOk(c: Client) {
    && NoRepeat(c.settled) && (c.closed ==> c.pending == map[])
    && (forall id :: id in c.accepted <==> id in c.pending || Has(c.settled, id))
    && (forall id | id in c.pending :: !Has(c.settled, id))
  }

  lemma {:induction false} HasMore(q: seq<Settlement>, x: Settlement, id: InvId)
    ensures Has(q + [x], id) <==> Has(q, id) || x.id == id
  {
    if Has(q, id) {
      var i :| 0 <= i < |q| && q[i].id == id;
      assert (q + [x])[i].id == id;
    }
    assert (q + [x])[|q|] == x;
  }

  lemma {:induction false} SettleKeeps(c: Client, id: InvId, outcome: Outcome)
    requires ClientOk(c)
    ensures ClientOk(SettledBy(c, id, outcome))
  {
    if id in c.pending {
      var x, d := Settlement(id, outcome), SettledBy(c, id, outcome);
      forall k: InvId ensures Has(d.settled, k) <==> Has(c.settled, k) || k == id { HasMore(c.settled, x, k); }
      assert forall i | 0 <= i < |c.settled| :: c.settled[i].id != id;
    }
  }

  lemma {:induction false} HasJoin(q: seq<Settlement>, r: seq<Settlement>, id: InvId)
    ensures Has(q + r, id) <==> Has(q, id) || Has(r, id)
  {
    if Has(q, id) {
      var i :| 0 <= i < |q| && q[i].id == id;
      assert (q + r)[i].id == id;
    }
    if Has(r, id) {
      var i :| 0 <= i < |r| && r[i].id == id;
      assert (q + r)[|q| + i].id == id;
    }
  }

  lemma {:induction false} CloseKeeps(c: Client, message: string, d: Client)
    requires ClientOk(c) && ClosesTo(c, message, d)
    ensures ClientOk(d)
  {
    if !c.closed {
      var more := d.settled[|c.settled|..];
      assert d.settled == c.settled + more;
      forall id: InvId ensures Has(d.settled, id) <==> Has(c.settled, id) || id in c.pending {
        HasJoin(c.settled, more, id);
      }
      forall i, j | 0 <= i < j < |d.settled| ensures d.settled[i].id != d.settled[j].id {
        if i < |c.settled| <= j {
          assert more[j - |c.settled|].id in c.pending;
        } else if |c.settled| <= i {
          assert more[i - |c.settled|].id != more[j - |c.settled|].id;
        }
      }
    }
  }

  // ---------------------------------------------------------------- the system

  /** Invocations that run, each with whether it has been told to stop. */
  datatype State = State(client: Client, toHost: seq<ToHost>, toHarness: seq<ToHarness>,
                         tools: set<string>, running: map<InvId, bool>,
                         // history
                         outcomes: map<InvId, Outcome>, invokes: seq<ToHost>, results: seq<ToHarness>)

  function Init(tools: set<string>): State {
    State(NEW_CLIENT, [], [], tools, map[], map[], [], [])
  }

  datatype Action =
    | Start(id: InvId, tool: string, listens: bool)
    | Signal(id: InvId)
    | HostTakes
    | Report(id: InvId, delta: string)
    | Finish(id: InvId, outcome: Outcome)
    | ClientTakes
    | Close(message: string, after: Client)

  /** A message for the client. Once the channel is closed, sends do nothing. */
  function Sent(s: State, m: ToHarness): State {
    if s.client.closed then s else s.(toHarness := s.toHarness + [m])
  }

  /** The server answers: a result, for which this was the last step of the invocation. */
  function Answered(s: State, id: InvId, outcome: Outcome): State {
    Sent(s, Result(id, outcome)).(outcomes := s.outcomes[id := outcome],
       results := s.results + [Result(id, outcome)], running := s.running - {id})
  }

  function HostHandled(s: State, m: ToHost): State {
    match m
    case Invoke(id, tool) =>
      if tool in s.tools then s.(running := s.running[id := false]) else Answered(s, id, Failed("Unknown tool: " + tool))
    case Cancel(id) => if id in s.running then s.(running := s.running[id := true]) else s
    case ListTools(r) => Sent(s, Tools(r))
    case Ping(n) => Sent(s, Pong(n))
    case Hello => s
  }

  ghost predicate Enabled(s: State, a: Action) {
    match a
    case Start(id, _, _) => id !in s.client.accepted && !s.client.closed
    case Signal(_) => true
    case HostTakes => s.toHost != []
    case Report(id, _) => id in s.running
    case Finish(id, _) => id in s.running
    case ClientTakes => s.toHarness != []
    case Close(message, after) => ClosesTo(s.client, message, after)
  }

  ghost function Do(s: State, a: Action): State
    requires Enabled(s, a)
  {
    match a
    case Start(id, tool, listens) =>
      s.(client := Accepted(s.client, id, listens), toHost := s.toHost + [Invoke(id, tool)],
         invokes := s.invokes + [Invoke(id, tool)])
    case Signal(id) =>
      s.(client := Aborted(s.client, id), toHost := if Listens(s.client, id) then s.toHost + [Cancel(id)] else s.toHost)
    case HostTakes => HostHandled(s.(toHost := s.toHost[1..]), s.toHost[0])
    case Report(id, delta) => if delta == "" then s else Sent(s, Progress(id, delta))
    case Finish(id, outcome) => Answered(s, id, outcome)
    case ClientTakes => s.(client := Handled(s.client, s.toHarness[0]), toHarness := s.toHarness[1..])
    case Close(_, after) => s.(client := after, running := map id | id in s.running :: true)
  }

  ghost predicate Steps(s: State, a: Action, t: State) {
    Enabled(s, a) && t == Do(s, a)
  }

  ghost predicate Run(tools: set<string>, acts: seq<Action>, states: seq<State>) {
    && |states| == |acts| + 1 && states[0] == Init(tools)
    && forall i | 0 <= i < |acts| :: Steps(states[i], acts[i], states[i + 1])
  }

  // ---------------------------------------------------------------- where an invocation is

  function InvokesOf(q: seq<ToHost>, id: InvId): nat {
    if q == [] then 0
    else InvokesOf(q[..|q| - 1], id) + (if q[|q| - 1].Invoke? && q[|q| - 1].id == id then 1 else 0)
  }

  function ResultsOf(q: seq<ToHarness>, id: InvId): nat {
    if q == [] then 0
    else ResultsOf(q[..|q| - 1], id) + (if q[|q| - 1].Result? && q[|q| - 1].id == id then 1 else 0)
  }

  lemma {:induction false} InvokesMore(q: seq<ToHost>, m: ToHost, id: InvId)
    ensures InvokesOf(q + [m], id) == InvokesOf(q, id) + (if m.Invoke? && m.id == id then 1 else 0)
  {
    assert (q + [m])[..|q|] == q;
  }

  lemma {:induction false} InvokesFront(q: seq<ToHost>, id: InvId)
    requires q != []
    ensures InvokesOf(q, id) == InvokesOf(q[1..], id) + (if q[0].Invoke? && q[0].id == id then 1 else 0)
    decreases |q|
  {
    if |q| == 1 {
      assert q[..0] == [] == q[1..];
    } else {
      InvokesFront(q[..|q| - 1], id);
      assert q[..|q| - 1][1..] == q[1..][..|q[1..]| - 1];
    }
  }

  lemma {:induction false} ResultsMore(q: seq<ToHarness>, m: ToHarness, id: InvId)
    ensures ResultsOf(q + [m], id) == ResultsOf(q, id) + (if m.Result? && m.id == id then 1 else 0)
  {
    assert (q + [m])[..|q|] == q;
  }

  lemma {:induction false} ResultsFront(q: seq<ToHarness>, id: InvId)
    requires q != []
    ensures ResultsOf(q, id) == ResultsOf(q[1..], id) + (if q[0].Result? && q[0].id == id then 1 else 0)
    decreases |q|
  {
    if |q| == 1 {
      assert q[..0] == [] == q[1..];
    } else {
      ResultsFront(q[..|q| - 1], id);
      assert q[..|q| - 1][1..] == q[1..][..|q[1..]| - 1];
    }
  }

  function One(b: bool): nat {
    if b then 1 else 0
  }

  /** An invocation in flight is in exactly one place: on its way out, running, or on its way back.
      And the server has answered each invoke that it has taken and finished with, once. */
  ghost predicate PlaceOk(s: State, id: InvId) {
    && (!s.client.closed ==>
          InvokesOf(s.toHost, id) + One(id in s.running) + ResultsOf(s.toHarness, id) == One(id in s.client.pending))
    && ResultsOf(s.results, id) + One(id in s.running) + InvokesOf(s.toHost, id) == InvokesOf(s.invokes, id)
    && InvokesOf(s.invokes, id) == One(id in s.client.accepted)
  }

  /** A result on its way is what the server decided. */
  ghost predicate FrameOk(s: State, i: nat)
    requires i < |s.toHarness|
  {
    s.toHarness[i].Result? && !s.client.closed ==> s.toHarness[i].id in s.outcomes && s.outcomes[s.toHarness[i].id] == s.toHarness[i].outcome
  }

  ghost predicate Inv(s: State) {
    && ClientOk(s.client) && (forall id :: PlaceOk(s, id))
    && (forall i | 0 <= i < |s.toHarness| :: FrameOk(s, i) && !s.toHarness[i].HostError?)
    && (forall i | 0 <= i < |s.client.settled| :: OutcomeOk(s, s.client.settled[i]))
  }

  /** Before a close, an invocation settles with the outcome that the server decided. */
  ghost predicate OutcomeOk(s: State, x: Settlement) {
    !s.client.closed ==> x.id in s.outcomes && s.outcomes[x.id] == x.outcome
  }

  // ---------------------------------------------------------------- steps

  lemma {:induction false} StartKeeps(s: State, a: Action)
    requires Inv(s) && a.Start? && Enabled(s, a)
    ensures Inv(Do(s, a))
  {
    var t := Do(s, a);
    assert forall id | id in s.client.pending :: id in s.client.accepted;
    forall id: InvId ensures PlaceOk(t, id) {
      assert PlaceOk(s, id);
      InvokesMore(s.toHost, Invoke(a.id, a.tool), id);
      InvokesMore(s.invokes, Invoke(a.id, a.tool), id);
    }
    forall i | 0 <= i < |t.toHarness| ensures FrameOk(t, i) && !t.toHarness[i].HostError? { assert FrameOk(s, i); }
    forall i | 0 <= i < |t.client.settled| ensures OutcomeOk(t, t.client.settled[i]) { assert OutcomeOk(s, s.client.settled[i]); }
  }

  lemma {:induction false} SignalKeeps(s: State, a: Action)
    requires Inv(s) && a.Signal? && Enabled(s, a)
    ensures Inv(Do(s, a))
  {
    var t := Do(s, a);
    forall id: InvId ensures PlaceOk(t, id) {
      assert PlaceOk(s, id);
      InvokesMore(s.toHost, Cancel(a.id), id);
    }
    forall i | 0 <= i < |t.toHarness| ensures FrameOk(t, i) && !t.toHarness[i].HostError? { assert FrameOk(s, i); }
    forall i | 0 <= i < |t.client.settled| ensures OutcomeOk(t, t.client.settled[i]) { assert OutcomeOk(s, s.client.settled[i]); }
  }

  /** An invocation that has been answered has a result neither on its way nor settled before. */
  lemma {:induction false} AnswerKeeps(s: State, id: InvId, outcome: Outcome, u: State)
    requires Inv(s) && (!s.client.closed ==> id in s.client.pending)
    requires u.client == s.client && u.toHarness == s.toHarness && u.outcomes == s.outcomes && u.results == s.results
    requires u.invokes == s.invokes
    requires forall k: InvId :: InvokesOf(u.toHost, k) + One(k in u.running) + One(k == id)
                                == InvokesOf(s.toHost, k) + One(k in s.running)
    requires id !in u.running
    ensures Inv(Answered(u, id, outcome))
  {
    var t, m := Answered(u, id, outcome), Result(id, outcome);
    assert t.running == u.running;
    forall k: InvId ensures PlaceOk(t, k) {
      assert PlaceOk(s, k);
      ResultsMore(s.toHarness, m, k);
      ResultsMore(s.results, m, k);
    }
    assert PlaceOk(s, id);
    forall i | 0 <= i < |t.toHarness| ensures FrameOk(t, i) && !t.toHarness[i].HostError? {
      if i < |s.toHarness| {
        assert FrameOk(s, i);
        if !s.client.closed { NoResult(s.toHarness, id, i); }
      }
    }
    forall i | 0 <= i < |t.client.settled| ensures OutcomeOk(t, t.client.settled[i]) {
      assert OutcomeOk(s, s.client.settled[i]);
      assert Has(s.client.settled, s.client.settled[i].id);
    }
  }

  lemma {:induction false} NoResult(q: seq<ToHarness>, id: InvId, i: nat)
    requires i < |q| && ResultsOf(q, id) == 0
    ensures !(q[i].Result? && q[i].id == id)
    decreases |q|
  {
    if i < |q| - 1 { NoResult(q[..|q| - 1], id, i); }
  }

  lemma {:induction false} FinishKeeps(s: State, a: Action)
    requires Inv(s) && a.Finish? && Enabled(s, a)
    ensures Inv(Do(s, a))
  {
    var u := s.(running := s.running - {a.id});
    assert PlaceOk(s, a.id);
    AnswerKeeps(s, a.id, a.outcome, u);
    assert Answered(u, a.id, a.outcome) == Do(s, a);
  }

  lemma {:induction false} TakeInvoke(s: State, id: InvId, tool: string)
    requires Inv(s) && s.toHost != [] && s.toHost[0] == Invoke(id, tool)
    ensures Inv(Do(s, HostTakes))
  {
    var u, t := s.(toHost := s.toHost[1..]), Do(s, HostTakes);
    forall k: InvId ensures InvokesOf(s.toHost, k) == InvokesOf(u.toHost, k) + One(k == id) { InvokesFront(s.toHost, k); }
    assert PlaceOk(s, id);
    if tool in s.tools {
      forall k: InvId ensures PlaceOk(t, k) { assert PlaceOk(s, k); }
      forall i | 0 <= i < |t.toHarness| ensures FrameOk(t, i) && !t.toHarness[i].HostError? { assert FrameOk(s, i); }
      forall i | 0 <= i < |t.client.settled| ensures OutcomeOk(t, t.client.settled[i]) { assert OutcomeOk(s, s.client.settled[i]); }
    } else {
      AnswerKeeps(s, id, Failed("Unknown tool: " + tool), u);
    }
  }

  /** Nothing that is neither an invoke nor a result moves an invocation. */
  lemma {:induction false} Aside(s: State, t: State)
    requires Inv(s) && t.client == s.client && t.outcomes == s.outcomes && t.results == s.results && t.invokes == s.invokes
    requires t.running.Keys == s.running.Keys
    requires forall k: InvId :: InvokesOf(t.toHost, k) == InvokesOf(s.toHost, k)
    requires t.toHarness == s.toHarness
             || (|t.toHarness| == |s.toHarness| + 1 && t.toHarness[..|s.toHarness|] == s.toHarness
                 && !t.toHarness[|s.toHarness|].Result? && !t.toHarness[|s.toHarness|].HostError?)
    ensures Inv(t)
  {
    forall k: InvId ensures PlaceOk(t, k) {
      assert PlaceOk(s, k);
      if t.toHarness != s.toHarness {
        assert t.toHarness == s.toHarness + [t.toHarness[|s.toHarness|]];
        ResultsMore(s.toHarness, t.toHarness[|s.toHarness|], k);
      }
    }
    forall i | 0 <= i < |t.toHarness| ensures FrameOk(t, i) && !t.toHarness[i].HostError? {
      if i < |s.toHarness| { assert FrameOk(s, i) && t.toHarness[i] == s.toHarness[i]; }
    }
    forall i | 0 <= i < |t.client.settled| ensures OutcomeOk(t, t.client.settled[i]) { assert OutcomeOk(s, s.client.settled[i]); }
  }

  lemma {:induction false} HostKeeps(s: State)
    requires Inv(s) && Enabled(s, HostTakes)
    ensures Inv(Do(s, HostTakes))
  {
    var m := s.toHost[0];
    if m.Invoke? {
      TakeInvoke(s, m.id, m.tool);
    } else {
      forall k: InvId ensures InvokesOf(s.toHost[1..], k) == InvokesOf(s.toHost, k) { InvokesFront(s.toHost, k); }
      Aside(s, Do(s, HostTakes));
    }
  }

  lemma {:induction false} ClientKeeps(s: State)
    requires Inv(s) && Enabled(s, ClientTakes)
    ensures Inv(Do(s, ClientTakes))
  {
    var t, m := Do(s, ClientTakes), s.toHarness[0];
    assert FrameOk(s, 0);
    if m.Result? { SettleKeeps(s.client, m.id, m.outcome); }
    forall k: InvId ensures PlaceOk(t, k) {
      assert PlaceOk(s, k);
      ResultsFront(s.toHarness, k);
    }
    forall i | 0 <= i < |t.toHarness| ensures FrameOk(t, i) && !t.toHarness[i].HostError? { assert FrameOk(s, i + 1); }
    forall i | 0 <= i < |t.client.settled| ensures OutcomeOk(t, t.client.settled[i]) {
      if i < |s.client.settled| { assert OutcomeOk(s, s.client.settled[i]); }
    }
  }

  lemma {:induction false} CloseStepKeeps(s: State, a: Action)
    requires Inv(s) && a.Close? && Enabled(s, a)
    ensures Inv(Do(s, a))
  {
    var t := Do(s, a);
    CloseKeeps(s.client, a.message, a.after);
    forall k: InvId ensures PlaceOk(t, k) { assert PlaceOk(s, k); }
    forall i | 0 <= i < |t.client.settled| ensures OutcomeOk(t, t.client.settled[i]) {}
  }

  lemma {:induction false} InvStep(s: State, a: Action)
    requires Inv(s) && Enabled(s, a)
    ensures Inv(Do(s, a))
  {
    match a
    case Start(_, _, _) => StartKeeps(s, a);
    case Signal(_) => SignalKeeps(s, a);
    case HostTakes => HostKeeps(s);
    case Report(_, _) => Aside(s, Do(s, a));
    case Finish(_, _) => FinishKeeps(s, a);
    case ClientTakes => ClientKeeps(s);
    case Close(_, _) => CloseStepKeeps(s, a);
  }

  lemma {:induction false} InvAlways(tools: set<string>, acts: seq<Action>, states: seq<State>, n: nat)
    requires Run(tools, acts, states) && n < |states|
    ensures Inv(states[n])
    decreases n
  {
    if n > 0 {
      InvAlways(tools, acts, states, n - 1);
      assert Steps(states[n - 1], acts[n - 1], states[n - 1 + 1]);
      InvStep(states[n - 1], acts[n - 1]);
    } else {
      forall id: InvId ensures PlaceOk(states[0], id) {}
    }
  }

  // ---------------------------------------------------------------- results

  /** Every accepted invocation settles at most once, and a closed client has none in flight. */
  lemma {:induction false} SettlesOnce(tools: set<string>, acts: seq<Action>, states: seq<State>, n: nat)
    requires Run(tools, acts, states) && n < |states|
    ensures var c := states[n].client;
            && NoRepeat(c.settled)
            && (forall id :: Has(c.settled, id) <==> id in c.accepted && id !in c.pending)
            && (c.closed ==> forall id :: Has(c.settled, id) <==> id in c.accepted)
  {
    InvAlways(tools, acts, states, n);
  }

  /** Once everything sent has been taken and no invocation runs, every accepted invocation has
      settled, and with the outcome that the server sent for it. */
  lemma {:induction false} DrainedIsSettled(tools: set<string>, acts: seq<Action>, states: seq<State>, n: nat)
    requires Run(tools, acts, states) && n < |states| && !states[n].client.closed
    requires states[n].toHost == [] && states[n].toHarness == [] && states[n].running == map[]
    ensures var s := states[n];
            && s.client.pending == map[] && (forall id :: Has(s.client.settled, id) <==> id in s.client.accepted)
            && forall i | 0 <= i < |s.client.settled| :: OutcomeOk(s, s.client.settled[i])
  {
    InvAlways(tools, acts, states, n);
    var s := states[n];
    forall id ensures id !in s.client.pending { assert PlaceOk(s, id); }
  }

  /** The server sends one result for each invoke it takes, even for unknown tools and cancelled
      runs, and none for anything else. */
  lemma {:induction false} OneResultPerInvoke(tools: set<string>, acts: seq<Action>, states: seq<State>, n: nat, id: InvId)
    requires Run(tools, acts, states) && n < |states|
    ensures var s := states[n];
            ResultsOf(s.results, id) == One(id in s.client.accepted && InvokesOf(s.toHost, id) == 0 && id !in s.running)
  {
    InvAlways(tools, acts, states, n);
    assert PlaceOk(states[n], id);
  }

  /** Whatever a host sends, a message about an invocation that is not in flight changes nothing. */
  lemma {:induction false} StrayIgnored(c: Client, m: ToHarness)
    requires ClientOk(c)
    ensures ClientOk(Handled(c, m))
    ensures Handled(c, m) != c <==>
              (m.Result? && m.id in c.pending) || (m.HostError? && m.about.Some? && m.about.value in c.pending)
  {
    match m
    case Result(id, outcome) => SettleKeeps(c, id, outcome);
    case HostError(about, message) => if about.Some? { SettleKeeps(c, about.value, Failed(message)); }
    case _ =>
  }

  /** What the client sends in a step. */
  function SentBy(s: State, a: Action): seq<ToHost> {
    match a
    case Start(id, tool, _) => [Invoke(id, tool)]
    case Signal(id) => if Listens(s.client, id) then [Cancel(id)] else []
    case _ => []
  }

  function SentToHost(acts: seq<Action>, states: seq<State>, n: nat): seq<ToHost>
    requires n <= |acts| <= |states|
  {
    if n == 0 then [] else SentToHost(acts, states, n - 1) + SentBy(states[n - 1], acts[n - 1])
  }

  /** That is what the step puts on the way to the host. */
  lemma {:induction false} SentIsSent(s: State, a: Action)
    requires Enabled(s, a)
    ensures Do(s, a).toHost == (if a.HostTakes? then s.toHost[1..] else s.toHost) + SentBy(s, a)
  {
    assert s.toHost + [] == s.toHost;
    if a.HostTakes? { assert s.toHost[1..] + [] == s.toHost[1..]; }
  }

  function CancelsOf(q: seq<ToHost>, id: InvId): nat {
    if q == [] then 0
    else CancelsOf(q[..|q| - 1], id) + (if q[|q| - 1] == Cancel(id) then 1 else 0)
  }

  lemma {:induction false} CancelsMore(q: seq<ToHost>, r: seq<ToHost>, id: InvId)
    requires |r| <= 1
    ensures CancelsOf(q + r, id) == CancelsOf(q, id) + (if r == [Cancel(id)] then 1 else 0)
  {
    if r == [] {
      assert q + r == q;
    } else {
      assert (q + r)[..|q|] == q;
    }
  }

  /** Over a run, an invocation that still listens has not been cancelled, and no invocation is
      cancelled twice, or without having been accepted. */
  lemma {:induction false} CancelsOnce(tools: set<string>, acts: seq<Action>, states: seq<State>, n: nat, id: InvId)
    requires Run(tools, acts, states) && n <= |acts|
    ensures CancelsOf(SentToHost(acts, states, n), id) + One(Listens(states[n].client, id)) <= One(id in states[n].client.accepted)
    decreases n
  {
    if n > 0 {
      CancelsOnce(tools, acts, states, n - 1, id);
      InvAlways(tools, acts, states, n - 1);
      assert Steps(states[n - 1], acts[n - 1], states[n - 1 + 1]);
      CancelsMore(SentToHost(acts, states, n - 1), SentBy(states[n - 1], acts[n - 1]), id);
      CancelsStep(states[n - 1], acts[n - 1], id);
    }
  }

  lemma {:induction false} CancelsStep(s: State, a: Action, id: InvId)
    requires Inv(s) && Enabled(s, a)
    ensures var t := Do(s, a);
            && (id in s.client.accepted ==> id in t.client.accepted)
            && (if a == Signal(id) && Listens(s.client, id) then !Listens(t.client, id) && id in s.client.accepted
                else Listens(t.client, id) ==> Listens(s.client, id) || (id !in s.client.accepted && id in t.client.accepted))
    ensures SentBy(s, a) == [Cancel(id)] <==> a == Signal(id) && Listens(s.client, id)
  {
    assert ClientOk(s.client);
  }

  // ---------------------------------------------------------------- client and server as objects

  class ToolHostClient {
    var pending: map<InvId, bool>
    var closed: bool
    var sent: seq<ToHost>
    ghost var accepted: set<InvId>
    var settled: seq<Settlement>

    ghost function Now(): Client
      reads this
    {
      Client(pending, closed, accepted, settled)
    }

    constructor ()
      ensures Now() == NEW_CLIENT && ClientOk(Now()) && sent == [Hello]
    {
      pending, closed, accepted, settled, sent := map[], false, {}, [], [Hello];
    }

    /** Refused, with a failed result at once, on a closed channel or an aborted signal. */
    method Invoke(id: InvId, tool: string, listens: bool, aborted: bool) returns (refused: Option<Outcome>)
      requires ClientOk(Now()) && id !in accepted
      modifies this
      ensures ClientOk(Now())
      ensures refused == if old(closed) then Some(Failed("tool-host channel closed"))
                         else if aborted then Some(Failed("aborted")) else None
      ensures refused.Some? ==> Now() == old(Now()) && sent == old(sent)
      ensures refused.None? ==> Now() == Accepted(old(Now()), id, listens) && sent == old(sent) + [ToHost.Invoke(id, tool)]
    {
      if closed { return Some(Failed("tool-host channel closed")); }
      if aborted { return Some(Failed("aborted")); }
      pending := pending[id := listens];
      accepted := accepted + {id};
      sent := sent + [ToHost.Invoke(id, tool)];
      refused := None;
    }

    method OnAbort(id: InvId)
      requires ClientOk(Now())
      modifies this`pending, this`sent
      ensures ClientOk(Now()) && Now() == Aborted(old(Now()), id)
      ensures sent == if Listens(old(Now()), id) then old(sent) + [Cancel(id)] else old(sent)
    {
      if id in pending && pending[id] {
        pending := pending[id := false];
        sent := sent + [Cancel(id)];
      }
    }

    method Handle(m: ToHarness)
      requires ClientOk(Now())
      modifies this`pending, this`settled
      ensures ClientOk(Now()) && Now() == Handled(old(Now()), m)
      ensures m.Result? && m.id in old(pending) ==>
                pending == old(pending) - {m.id} && settled == old(settled) + [Settlement(m.id, m.outcome)]
      ensures m.HostError? && m.about.Some? && m.about.value in old(pending) ==>
                pending == old(pending) - {m.about.value}
                && settled == old(settled) + [Settlement(m.about.value, Failed(m.message))]
    {
      StrayIgnored(Now(), m);
      match m
      case Result(id, outcome) => Settle(id, outcome);
      case HostError(about, message) =>
        if about.Some? { Settle(about.value, Failed(message)); }
      case _ =>
    }

    method Settle(id: InvId, outcome: Outcome)
      modifies this`pending, this`settled
      ensures Now() == SettledBy(old(Now()), id, outcome)
    {
      if id !in pending { return; }
      pending := pending - {id};
      settled := settled + [Settlement(id, outcome)];
    }

    /** Everything in flight settles as failed; a second close does nothing. */
    method OnClose(message: string)
      requires ClientOk(Now())
      modifies this`pending, this`closed, this`settled
      ensures ClientOk(Now()) && ClosesTo(old(Now()), message, Now())
    {
      if closed { return; }
      closed := true;
      ghost var c := old(Now());
      var todo := pending.Keys;
      while todo != {}
        invariant closed && pending == c.pending && todo <= c.pending.Keys
        invariant |c.settled| <= |settled| && settled[..|c.settled|] == c.settled
        invariant SettlesAll(settled[|c.settled|..], c.pending.Keys - todo, message)
      {
        var id :| id in todo;
        var x := Settlement(id, Failed(message));
        OneMoreSettles(settled[|c.settled|..], c.pending.Keys - todo, message, x);
        assert (settled + [x])[|c.settled|..] == settled[|c.settled|..] + [x];
        assert c.pending.Keys - (todo - {id}) == c.pending.Keys - todo + {id};
        settled := settled + [x];
        todo := todo - {id};
      }
      assert c.pending.Keys - todo == c.pending.Keys;
      pending := map[];
      CloseKeeps(c, message, Now());
    }
  }

  lemma {:induction false} OneMoreSettles(q: seq<Settlement>, ids: set<InvId>, message: string, x: Settlement)
    requires SettlesAll(q, ids, message) && x.id !in ids && x.outcome == Failed(message)
    ensures SettlesAll(q + [x], ids + {x.id}, message)
  {
    forall id | id in ids + {x.id} ensures Has(q + [x], id) { HasMore(q, x, id); }
  }

  class ToolHostServer {
    var tools: set<string>
    // Running invocations, each with its signal; inflight holds those that a cancel can reach.
    var runs: map<InvId, bool>
    var inflight: set<InvId>
    var closed: bool
    var sent: seq<ToHarness>

    constructor (names: set<string>)
      ensures Matches(Init(names), [HostReady])
    {
      tools, runs, inflight, closed, sent := names, map[], {}, false, [HostReady];
    }

    /** The object is the server of s; what it has sent since is on its way. */
    ghost predicate Matches(s: State, before: seq<ToHarness>)
      reads this
    {
      && tools == s.tools && runs == s.running && closed == s.client.closed
      && inflight == (if closed then {} else runs.Keys) && sent == before + s.toHarness
    }

    /** A closed channel drops what it is given. */
    method Send(m: ToHarness, ghost s: State, ghost before: seq<ToHarness>)
      requires Matches(s, before)
      modifies this`sent
      ensures Matches(Sent(s, m), before) && sent == if closed then old(sent) else old(sent) + [m]
    {
      if !closed { sent := sent + [m]; }
    }

    method Handle(m: ToHost, ghost s: State, ghost before: seq<ToHarness>)
      requires Matches(s, before) && !s.client.closed
      modifies this
      ensures Matches(HostHandled(s, m), before)
      ensures m.Invoke? && m.tool in tools ==> runs == old(runs)[m.id := false] && m.id in inflight && sent == old(sent)
      ensures m.Invoke? && m.tool !in tools ==>
                runs == old(runs) - {m.id} && sent == old(sent) + [Result(m.id, Failed("Unknown tool: " + m.tool))]
      ensures m.Cancel? ==>
                sent == old(sent) && runs == if m.id in old(runs) then old(runs)[m.id := true] else old(runs)
      ensures m.ListTools? ==> runs == old(runs) && sent == old(sent) + [Tools(m.request)]
      ensures m.Ping? ==> runs == old(runs) && sent == old(sent) + [Pong(m.nonce)]
    {
      match m
      case Invoke(id, tool) =>
        if tool in tools {
          runs := runs[id := false];
          inflight := inflight + {id};
        } else {
          Finish(id, Failed("Unknown tool: " + tool), s, before);
        }
      case Cancel(id) =>
        if id in inflight { runs := runs[id := true]; }
      case ListTools(r) => Send(Tools(r), s, before);
      case Ping(n) => Send(Pong(n), s, before);
      case Hello =>
    }

    /** Output of a run: nothing is sent for an empty piece. */
    method Report(id: InvId, delta: string, ghost s: State, ghost before: seq<ToHarness>)
      requires Matches(s, before) && id in s.running
      modifies this`sent
      ensures Matches(Do(s, Action.Report(id, delta)), before)
      ensures sent == if closed || delta == "" then old(sent) else old(sent) + [Progress(id, delta)]
    {
      if delta != "" { Send(Progress(id, delta), s, before); }
    }

    /** The run of an invocation is over, perhaps long after the channel was closed. */
    method Finish(id: InvId, outcome: Outcome, ghost s: State, ghost before: seq<ToHarness>)
      requires Matches(s, before)
      modifies this
      ensures Matches(Answered(s, id, outcome), before)
      ensures runs == old(runs) - {id} && sent == if closed then old(sent) else old(sent) + [Result(id, outcome)]
    {
      runs := runs - {id};
      inflight := inflight - {id};
      if !closed { sent := sent + [Result(id, outcome)]; }
    }

    /** The channel is closed: every run is told to stop and is forgotten; it finishes in its own time. */
    method Shutdown(ghost s: State, ghost before: seq<ToHarness>, ghost message: string, ghost after: Client)
      requires Matches(s, before) && !s.client.closed && Enabled(s, Close(message, after))
      modifies this`runs, this`inflight, this`closed
      ensures Matches(Do(s, Close(message, after)), before) && inflight == {}
    {
      var todo := inflight;
      while todo != {}
        invariant todo <= inflight && runs.Keys == old(runs).Keys && inflight == old(inflight)
        invariant forall id | id in runs && id !in todo :: runs[id]
        decreases todo
      {
        var id :| id in todo;
        runs := runs[id := true];
        todo := todo - {id};
      }
      inflight, closed := {}, true;
    }
  }
}
