/** Voice-agent activation and the snapshots it hands to live sessions, for one organization:
    server/internal/database/sqlc/voice_agents.sql.go, ai_provider_credentials.sql.go and
    voice_agent_sessions.sql.go, with the services around them. Each SQL statement is one step; the check
    and the write of a binding request are two. */
module Activation {
  import opened Basics
  import opened Readiness

  type AgentId = nat
  type CredentialId = nat
  type SessionId = nat

  datatype Binding = Binding(role: Role, provider: Provider, credential: CredentialId, config: nat)
  datatype Credential = Credential(provider: Provider, state: ConnectionState)

  /** `content` stands for instructions, voice, language, engine configuration and policies; `tools` for
      the enabled tools. */
  datatype Snapshot = Snapshot(revision: nat, engine: Engine, content: nat, tools: nat, bindings: seq<Binding>)
  datatype Agent = Agent(
    enabled: bool, engine: Engine, content: nat, tools: nat, revision: nat, active: Option<Snapshot>)
  datatype Session = Session(agent: AgentId, snapshot: Snapshot, live: bool)
  datatype Request = Request(agent: AgentId, binding: Binding)

  /** `issued` remembers the provider of every credential ever created: identifiers are not reused. */
  datatype State = State(
    organizationActive: bool, agents: map<AgentId, Agent>, bindings: map<(AgentId, Role), Binding>,
    credentials: map<CredentialId, Credential>, issued: map<CredentialId, Provider>,
    requests: map<nat, Request>, sessions: map<SessionId, Session>)

  const INITIAL := State(true, map[], map[], map[], map[], map[], map[])

  predicate RoleProviderCompatible(role: Role, provider: Provider) {
    match role
    case Realtime => provider == OpenAI
    case Stt => provider == Deepgram
    case Llm => provider == Groq
    case Tts => provider == Cartesia
  }

  function Row(bindings: map<(AgentId, Role), Binding>, a: AgentId, role: Role): seq<Binding> {
    if (a, role) in bindings then [bindings[(a, role)]] else []
  }

  /** The agent's bindings, ordered by role. */
  function BindingsOf(bindings: map<(AgentId, Role), Binding>, a: AgentId): seq<Binding> {
    Row(bindings, a, Llm) + Row(bindings, a, Realtime) + Row(bindings, a, Stt) + Row(bindings, a, Tts)
  }

  /** The join with the credentials. It would show no row, hence nothing unready, for a credential that is
      gone; the foreign key rules that out. */
  function StatusOf(b: Binding, credentials: map<CredentialId, Credential>): Status {
    Status(b.role, b.provider, if b.credential in credentials then credentials[b.credential].state else Ready)
  }

  function Statuses(bindings: seq<Binding>, credentials: map<CredentialId, Credential>): seq<Status> {
    seq(|bindings|, i requires 0 <= i < |bindings| => StatusOf(bindings[i], credentials))
  }

  function StatusesOf(s: State, a: AgentId): seq<Status> { Statuses(BindingsOf(s.bindings, a), s.credentials) }

  function SnapshotNow(s: State, a: AgentId): Snapshot
    requires a in s.agents
  {
    var agent := s.agents[a];
    Snapshot(agent.revision, agent.engine, agent.content, agent.tools, BindingsOf(s.bindings, a))
  }

  /** The trigger on bindings and tools. */
  function Bumped(agent: Agent): Agent { agent.(revision := agent.revision + 1) }

  datatype Op =
    | SetOrganization(active: bool)
    | CreateAgent(a: AgentId, engine: Engine, content: nat)
    | UpdateAgent(a: AgentId, newEngine: Option<Engine>, newContent: Option<nat>)
    | DisableAgent(a: AgentId)
    | ChangeTools(a: AgentId, tools: nat)
    | CreateCredential(c: CredentialId, provider: Provider)
    | RotateCredential(c: CredentialId)
    | VerifyCredential(c: CredentialId, state: ConnectionState)
    | DeleteCredential(c: CredentialId)
    | CheckBinding(request: nat, a: AgentId, binding: Binding)
    | WriteBinding(request: nat)
    | DeleteBinding(a: AgentId, role: Role)
    | Activate(a: AgentId)
    | CreateSession(session: SessionId, a: AgentId, callAnswered: bool)
    | CompleteSession(session: SessionId)

  predicate Bound(bindings: map<(AgentId, Role), Binding>, c: CredentialId) {
    exists k :: k in bindings && bindings[k].credential == c
  }

  /** A statement whose WHERE clause or constraint fails leaves the tables alone. */
  function Apply(s: State, op: Op): State {
    match op
    case SetOrganization(active) => s.(organizationActive := active)
    case CreateAgent(a, engine, content) =>
      if a in s.agents || !s.organizationActive then s
      else s.(agents := s.agents[a := Agent(true, engine, content, 0, 1, None)])
    case UpdateAgent(a, newEngine, newContent) =>
      if !(a in s.agents && s.agents[a].enabled && s.organizationActive) then s else
        var agent := s.agents[a];
        s.(agents := s.agents[a := Bumped(agent.(
             engine := if newEngine.Some? then newEngine.value else agent.engine,
             content := if newContent.Some? then newContent.value else agent.content))])
    case DisableAgent(a) =>
      if !(a in s.agents && s.agents[a].enabled && s.organizationActive) then s
      else s.(agents := s.agents[a := s.agents[a].(enabled := false)])
    case ChangeTools(a, tools) =>
      if a !in s.agents then s else s.(agents := s.agents[a := Bumped(s.agents[a].(tools := tools))])
    case CreateCredential(c, provider) =>
      if c in s.issued then s
      else s.(credentials := s.credentials[c := Credential(provider, Unchecked)], issued := s.issued[c := provider])
    case RotateCredential(c) =>
      if c !in s.credentials then s else s.(credentials := s.credentials[c := s.credentials[c].(state := Unchecked)])
    case VerifyCredential(c, state) =>
      if c !in s.credentials then s else s.(credentials := s.credentials[c := s.credentials[c].(state := state)])
    case DeleteCredential(c) =>
      if Bound(s.bindings, c) then s else s.(credentials := s.credentials - {c})
    case CheckBinding(request, a, binding) =>
      if request !in s.requests && RoleProviderCompatible(binding.role, binding.provider)
         && binding.credential in s.credentials && s.credentials[binding.credential].provider == binding.provider
      then s.(requests := s.requests[request := Request(a, binding)]) else s
    case WriteBinding(request) =>
      if request !in s.requests then s else
        var a, binding := s.requests[request].agent, s.requests[request].binding;
        if a !in s.agents || binding.credential !in s.credentials then s.(requests := s.requests - {request}) else
          s.(requests := s.requests - {request}, bindings := s.bindings[(a, binding.role) := binding],
             agents := s.agents[a := Bumped(s.agents[a])])
    case DeleteBinding(a, role) =>
      if !((a, role) in s.bindings && a in s.agents) then s else
        s.(bindings := s.bindings - {(a, role)}, agents := s.agents[a := Bumped(s.agents[a])])
    case Activate(a) =>
      if !(a in s.agents && s.agents[a].enabled && ActivationGuard(s.agents[a].engine, StatusesOf(s, a))) then s else
        s.(agents := s.agents[a := s.agents[a].(active := Some(SnapshotNow(s, a)))])
    case CreateSession(session, a, callAnswered) =>
      if !(session !in s.sessions && callAnswered && s.organizationActive
           && a in s.agents && s.agents[a].enabled && s.agents[a].active.Some?) then s
      else s.(sessions := s.sessions[session := Session(a, s.agents[a].active.value, true)])
    case CompleteSession(session) =>
      if !(session in s.sessions && s.sessions[session].live) then s
      else s.(sessions := s.sessions[session := s.sessions[session].(live := false)])
  }

  function Run(s: State, ops: seq<Op>): State
    decreases |ops|
  {
    if ops == [] then s else Run(Apply(s, ops[0]), ops[1..])
  }

  // ---- topology and resolution ----

  /** What the map of roles holds after the values were put in, in order. */
  function LastProvider(values: seq<Binding>, role: Role): Option<Provider> {
    if values == [] then None
    else if values[|values| - 1].role == role then Some(values[|values| - 1].provider)
    else LastProvider(values[..|values| - 1], role)
  }

  predicate TopologyOk(engine: Engine, values: seq<Binding>) {
    match engine
    case Integrated => LastProvider(values, Realtime) == Some(OpenAI)
    case Composable =>
      && LastProvider(values, Stt) == Some(Deepgram) && LastProvider(values, Llm) == Some(Groq)
      && LastProvider(values, Tts) == Some(Cartesia)
  }

  method ValidateProviderTopology(values: seq<Binding>, engine: Engine) returns (ok: bool)
    ensures ok <==> TopologyOk(engine, values)
  {
    var roles: map<Role, Provider> := map[];
    for i := 0 to |values|
      invariant forall r :: r in roles <==> LastProvider(values[..i], r).Some?
      invariant forall r :: r in roles ==> LastProvider(values[..i], r) == Some(roles[r])
    {
      assert values[..i + 1][..i] == values[..i];
      roles := roles[values[i].role := values[i].provider];
    }
    assert values[..|values|] == values;
    if engine.Integrated? { return Realtime in roles && roles[Realtime] == OpenAI; }
    if Stt !in roles || roles[Stt] != Deepgram { return false; }
    if Llm !in roles || roles[Llm] != Groq { return false; }
    if Tts !in roles || roles[Tts] != Cartesia { return false; }
    return true;
  }

  datatype Resolution = Resolved(values: seq<Binding>) | Missing | Mismatch

  predicate Present(values: seq<Binding>, credentials: map<CredentialId, Credential>) {
    forall i :: 0 <= i < |values| ==> values[i].credential in credentials
  }

  predicate Matching(values: seq<Binding>, issued: map<CredentialId, Provider>) {
    forall i :: 0 <= i < |values| ==>
        values[i].credential in issued && issued[values[i].credential] == values[i].provider
  }

  /** ResolveSnapshot stops at the first binding whose credential is gone or has another provider. */
  function Resolve(values: seq<Binding>, credentials: map<CredentialId, Credential>): Resolution {
    if values == [] then Resolved([]) else
      var rest, b := Resolve(values[..|values| - 1], credentials), values[|values| - 1];
      if !rest.Resolved? then rest
      else if b.credential !in credentials then Missing
      else if credentials[b.credential].provider != b.provider then Mismatch
      else Resolved(rest.values + [b])
  }

  method ResolveSnapshot(values: seq<Binding>, credentials: map<CredentialId, Credential>) returns (r: Resolution)
    ensures r == Resolve(values, credentials)
  {
    var result: seq<Binding> := [];
    for i := 0 to |values|
      invariant Resolve(values[..i], credentials) == Resolved(result)
    {
      assert values[..i + 1][..i] == values[..i];
      var b := values[i];
      if b.credential !in credentials {
        StopsFor(values, i + 1, credentials);
        return Missing;
      }
      if credentials[b.credential].provider != b.provider {
        StopsFor(values, i + 1, credentials);
        return Mismatch;
      }
      result := result + [b];
    }
    assert values[..|values|] == values;
    return Resolved(result);
  }

  lemma {:induction false} StopsFor(values: seq<Binding>, i: nat, credentials: map<CredentialId, Credential>)
    requires i <= |values| && !Resolve(values[..i], credentials).Resolved?
    ensures Resolve(values, credentials) == Resolve(values[..i], credentials)
    decreases |values|
  {
    if i == |values| {
      assert values[..i] == values;
    } else {
      var rest := values[..|values| - 1];
      assert rest[..i] == values[..i];
      StopsFor(rest, i, credentials);
    }
  }

  // ---- what every step keeps ----

  predicate DistinctBindings(values: seq<Binding>) {
    forall i, j :: 0 <= i < j < |values| ==> values[i].role != values[j].role
  }

  /** The bindings are exactly those the engine calls for, one for each of its roles. */
  predicate ExactFor(engine: Engine, values: seq<Binding>) {
    && TopologyOk(engine, values) && DistinctBindings(values)
    && (forall i :: 0 <= i < |values| ==> values[i].role in ExpectedProviders(engine))
  }

  predicate SnapshotOk(snapshot: Snapshot, issued: map<CredentialId, Provider>) {
    ExactFor(snapshot.engine, snapshot.bindings) && Matching(snapshot.bindings, issued)
  }

  ghost predicate CredentialsOk(credentials: map<CredentialId, Credential>, issued: map<CredentialId, Provider>) {
    forall c :: c in credentials ==> c in issued && issued[c] == credentials[c].provider
  }

  predicate BindingOk(b: Binding, credentials: map<CredentialId, Credential>) {
    && RoleProviderCompatible(b.role, b.provider)
    && b.credential in credentials && credentials[b.credential].provider == b.provider
  }

  ghost predicate BindingsOk(bindings: map<(AgentId, Role), Binding>, credentials: map<CredentialId, Credential>) {
    forall k :: k in bindings ==> bindings[k].role == k.1 && BindingOk(bindings[k], credentials)
  }

  ghost predicate RequestsOk(requests: map<nat, Request>, issued: map<CredentialId, Provider>) {
    forall q :: q in requests ==>
      var b := requests[q].binding;
      RoleProviderCompatible(b.role, b.provider) && b.credential in issued && issued[b.credential] == b.provider
  }

  /** The active snapshot fits its engine; while its revision is still the agent's, it is also what the
      agent is configured to be. */
  predicate AgentOk(agent: Agent, now: seq<Binding>, issued: map<CredentialId, Provider>) {
    agent.active.Some? ==>
      var snapshot := agent.active.value;
      && SnapshotOk(snapshot, issued)
      && snapshot.revision <= agent.revision
      && (snapshot.revision == agent.revision ==>
            snapshot == Snapshot(agent.revision, agent.engine, agent.content, agent.tools, now))
  }

  ghost predicate AgentsOk(
      agents: map<AgentId, Agent>, bindings: map<(AgentId, Role), Binding>, issued: map<CredentialId, Provider>)
  {
    forall a :: a in agents ==> AgentOk(agents[a], BindingsOf(bindings, a), issued)
  }

  ghost predicate SessionsOk(sessions: map<SessionId, Session>, issued: map<CredentialId, Provider>) {
    forall x :: x in sessions ==> SnapshotOk(sessions[x].snapshot, issued)
  }

  ghost predicate Inv(s: State) {
    && CredentialsOk(s.credentials, s.issued)
    && BindingsOk(s.bindings, s.credentials)
    && RequestsOk(s.requests, s.issued)
    && AgentsOk(s.agents, s.bindings, s.issued)
    && SessionsOk(s.sessions, s.issued)
  }

  // ---- activation produces a fitting snapshot ----

  lemma RowsOk(bindings: map<(AgentId, Role), Binding>, credentials: map<CredentialId, Credential>, a: AgentId)
    requires BindingsOk(bindings, credentials)
    ensures DistinctBindings(BindingsOf(bindings, a))
    ensures forall i :: 0 <= i < |BindingsOf(bindings, a)| ==> BindingOk(BindingsOf(bindings, a)[i], credentials)
  {
    hide BindingOk;
    assert forall r: Role, i :: 0 <= i < |Row(bindings, a, r)| ==>
        Row(bindings, a, r)[i].role == r && BindingOk(Row(bindings, a, r)[i], credentials);
  }

  lemma {:induction false} SameRoles(values: seq<Binding>, statuses: seq<Status>, role: Role)
    requires |values| == |statuses|
    requires forall i :: 0 <= i < |values| ==>
        statuses[i].role == values[i].role && statuses[i].provider == values[i].provider
    ensures LastProvider(values, role) ==
        (if Last(statuses, role).Some? then Some(Last(statuses, role).value.provider) else None)
    decreases |values|
  {
    if values != [] { SameRoles(values[..|values| - 1], statuses[..|statuses| - 1], role); }
  }

  lemma GuardGivesTopology(engine: Engine, values: seq<Binding>, credentials: map<CredentialId, Credential>)
    requires DistinctBindings(values) && ActivationGuard(engine, Statuses(values, credentials))
    ensures ExactFor(engine, values)
  {
    hide ActivationGuard, LastProvider, Last;
    var statuses := Statuses(values, credentials);
    assert forall i :: 0 <= i < |values| ==> statuses[i] == StatusOf(values[i], credentials);
    ReadyExactlyWhenGuardHolds(engine, statuses);
    NoIssues(engine, statuses);
    SameRoles(values, statuses, Realtime);
    SameRoles(values, statuses, Stt);
    SameRoles(values, statuses, Llm);
    SameRoles(values, statuses, Tts);
    forall i | 0 <= i < |values| ensures values[i].role in ExpectedProviders(engine) {
      assert statuses[i].role == values[i].role;
    }
  }

  lemma MatchingFromBindings(values: seq<Binding>, credentials: map<CredentialId, Credential>,
      issued: map<CredentialId, Provider>)
    requires CredentialsOk(credentials, issued)
    requires forall i :: 0 <= i < |values| ==> BindingOk(values[i], credentials)
    ensures Matching(values, issued)
  {
  }

  lemma ActivateKeeps(s: State, a: AgentId)
    requires Inv(s)
    ensures Inv(Apply(s, Activate(a)))
  {
    hide ExactFor, BindingOk, BindingsOf, Matching, ActivationGuard;
    if a in s.agents && s.agents[a].enabled && ActivationGuard(s.agents[a].engine, StatusesOf(s, a)) {
      var values := BindingsOf(s.bindings, a);
      RowsOk(s.bindings, s.credentials, a);
      GuardGivesTopology(s.agents[a].engine, values, s.credentials);
      MatchingFromBindings(values, s.credentials, s.issued);
    }
  }

  // ---- the other statements ----

  lemma AgentStepKeeps(s: State, op: Op)
    requires Inv(s)
    requires op.CreateAgent? || op.UpdateAgent? || op.DisableAgent? || op.ChangeTools? || op.SetOrganization?
    ensures Inv(Apply(s, op))
  {
    hide SnapshotOk, BindingsOf, CredentialsOk, BindingsOk, RequestsOk, SessionsOk, Bound, ActivationGuard;
  }

  lemma MatchingGrows(snapshot: Snapshot, issued: map<CredentialId, Provider>, c: CredentialId, provider: Provider)
    requires SnapshotOk(snapshot, issued) && c !in issued
    ensures SnapshotOk(snapshot, issued[c := provider])
  {
  }

  lemma AgentsIssued(s: State, c: CredentialId, provider: Provider)
    requires AgentsOk(s.agents, s.bindings, s.issued) && SessionsOk(s.sessions, s.issued) && c !in s.issued
    ensures AgentsOk(s.agents, s.bindings, s.issued[c := provider]) && SessionsOk(s.sessions, s.issued[c := provider])
  {
    hide SnapshotOk, BindingsOf;
    forall a | a in s.agents ensures AgentOk(s.agents[a], BindingsOf(s.bindings, a), s.issued[c := provider]) {
      if s.agents[a].active.Some? { MatchingGrows(s.agents[a].active.value, s.issued, c, provider); }
    }
    forall x | x in s.sessions ensures SnapshotOk(s.sessions[x].snapshot, s.issued[c := provider]) {
      MatchingGrows(s.sessions[x].snapshot, s.issued, c, provider);
    }
  }

  lemma CredentialStepKeeps(s: State, op: Op)
    requires Inv(s) && (op.CreateCredential? || op.RotateCredential? || op.VerifyCredential? || op.DeleteCredential?)
    ensures Inv(Apply(s, op))
  {
    hide AgentsOk, SessionsOk, RoleProviderCompatible, ActivationGuard;
    if op.CreateCredential? && op.c !in s.issued { AgentsIssued(s, op.c, op.provider); }
  }

  lemma OtherBindingsStay(bindings: map<(AgentId, Role), Binding>, after: map<(AgentId, Role), Binding>, a: AgentId,
      other: AgentId)
    requires other != a
    requires forall k: (AgentId, Role) :: k.0 != a ==> (k in after <==> k in bindings)
    requires forall k: (AgentId, Role) :: k.0 != a && k in after ==> after[k] == bindings[k]
    ensures BindingsOf(after, other) == BindingsOf(bindings, other)
  {
    assert forall r: Role :: Row(after, other, r) == Row(bindings, other, r);
  }

  /** One agent's bindings change and its revision goes up. */
  lemma AgentsRebound(s: State, after: map<(AgentId, Role), Binding>, a: AgentId)
    requires AgentsOk(s.agents, s.bindings, s.issued) && a in s.agents
    requires forall k: (AgentId, Role) :: k.0 != a ==> (k in after <==> k in s.bindings)
    requires forall k: (AgentId, Role) :: k.0 != a && k in after ==> after[k] == s.bindings[k]
    ensures AgentsOk(s.agents[a := Bumped(s.agents[a])], after, s.issued)
  {
    hide SnapshotOk, BindingsOf;
    forall b | b in s.agents && b != a ensures AgentOk(s.agents[b], BindingsOf(after, b), s.issued) {
      OtherBindingsStay(s.bindings, after, a, b);
    }
    assert AgentOk(s.agents[a], BindingsOf(s.bindings, a), s.issued);
  }

  lemma BindingWritten(bindings: map<(AgentId, Role), Binding>, credentials: map<CredentialId, Credential>,
      a: AgentId, b: Binding)
    requires BindingsOk(bindings, credentials) && BindingOk(b, credentials)
    ensures BindingsOk(bindings[(a, b.role) := b], credentials)
  {
    hide BindingOk;
  }

  lemma WriteKeeps(s: State, q: nat)
    requires Inv(s) && q in s.requests
    ensures Inv(Apply(s, WriteBinding(q)))
  {
    hide AgentsOk, SessionsOk, BindingsOk, RoleProviderCompatible, ActivationGuard;
    var a, b := s.requests[q].agent, s.requests[q].binding;
    if a in s.agents && b.credential in s.credentials {
      BindingWritten(s.bindings, s.credentials, a, b);
      AgentsRebound(s, s.bindings[(a, b.role) := b], a);
    }
  }

  lemma NotRequested(s: State, q: nat)
    requires q !in s.requests
    ensures Apply(s, WriteBinding(q)) == s
  {
  }

  lemma BindingStepKeeps(s: State, op: Op)
    requires Inv(s) && (op.CheckBinding? || op.DeleteBinding?)
    ensures Inv(Apply(s, op))
  {
    hide AgentsOk, SessionsOk, RoleProviderCompatible, ActivationGuard;
    if op.DeleteBinding? && (op.a, op.role) in s.bindings && op.a in s.agents {
      AgentsRebound(s, s.bindings - {(op.a, op.role)}, op.a);
    }
  }

  lemma SessionStepKeeps(s: State, op: Op)
    requires Inv(s) && (op.CreateSession? || op.CompleteSession?)
    ensures Inv(Apply(s, op))
  {
    hide SnapshotOk, BindingsOf, CredentialsOk, BindingsOk, RequestsOk, ActivationGuard;
  }

  lemma ApplyKeepsInvariant(s: State, op: Op)
    requires Inv(s)
    ensures Inv(Apply(s, op))
  {
    hide Inv, Apply;
    match op {
      case Activate(a) => ActivateKeeps(s, a);
      case CreateSession(_, _, _) => SessionStepKeeps(s, op);
      case CompleteSession(_) => SessionStepKeeps(s, op);
      case CheckBinding(_, _, _) => BindingStepKeeps(s, op);
      case WriteBinding(q) => if q in s.requests { WriteKeeps(s, q); } else { NotRequested(s, q); }
      case DeleteBinding(_, _) => BindingStepKeeps(s, op);
      case CreateCredential(_, _) => CredentialStepKeeps(s, op);
      case RotateCredential(_) => CredentialStepKeeps(s, op);
      case VerifyCredential(_, _) => CredentialStepKeeps(s, op);
      case DeleteCredential(_) => CredentialStepKeeps(s, op);
      case _ => AgentStepKeeps(s, op);
    }
  }

  lemma {:induction false} RunKeepsInvariant(s: State, ops: seq<Op>)
    requires Inv(s)
    ensures Inv(Run(s, ops))
    decreases |ops|
  {
    hide Inv, Apply;
    if ops != [] {
      ApplyKeepsInvariant(s, ops[0]);
      RunKeepsInvariant(Apply(s, ops[0]), ops[1..]);
    }
  }

  // ---- over every run ----

  /** Every active snapshot and every session snapshot passes the topology check of its own engine, and
      binds no role the engine does not use. */
  lemma SnapshotsFitTheirEngine(ops: seq<Op>)
    ensures var s := Run(INITIAL, ops);
            && (forall a :: a in s.agents && s.agents[a].active.Some? ==>
                  ExactFor(s.agents[a].active.value.engine, s.agents[a].active.value.bindings))
            && (forall x :: x in s.sessions ==>
                ExactFor(s.sessions[x].snapshot.engine, s.sessions[x].snapshot.bindings))
  {
    hide Run, ExactFor;
    RunKeepsInvariant(INITIAL, ops);
  }

  lemma {:induction false} ResolvesWhenMatching(values: seq<Binding>, credentials: map<CredentialId, Credential>,
      issued: map<CredentialId, Provider>)
    requires Matching(values, issued) && CredentialsOk(credentials, issued)
    ensures Resolve(values, credentials) == if Present(values, credentials) then Resolved(values) else Missing
    decreases |values|
  {
    if values == [] {
    } else {
      var rest := values[..|values| - 1];
      ResolvesWhenMatching(rest, credentials, issued);
      assert values == rest + [values[|values| - 1]];
      if Present(rest, credentials) {
        assert Present(values, credentials) <==> values[|values| - 1].credential in credentials by {
          forall i | 0 <= i < |rest| ensures values[i].credential in credentials { assert rest[i] == values[i]; }
        }
      } else {
        var i :| 0 <= i < |rest| && rest[i].credential !in credentials;
        assert values[i].credential !in credentials;
      }
    }
  }

  /** Whatever was edited, rotated or deleted since: resolving a session's snapshot never reports a
      provider mismatch. It gives back exactly the snapshot's bindings, which pass the topology check, unless
      a credential was deleted, and then it reports that. */
  lemma MismatchUnreachable(ops: seq<Op>, x: SessionId)
    requires x in Run(INITIAL, ops).sessions
    ensures var s := Run(INITIAL, ops);
            var snapshot := s.sessions[x].snapshot;
            && Resolve(snapshot.bindings, s.credentials)
                 == (if Present(snapshot.bindings, s.credentials) then Resolved(snapshot.bindings) else Missing)
            && TopologyOk(snapshot.engine, snapshot.bindings)
  {
    hide Run, TopologyOk;
    RunKeepsInvariant(INITIAL, ops);
    var s := Run(INITIAL, ops);
    ResolvesWhenMatching(s.sessions[x].snapshot.bindings, s.credentials, s.issued);
  }

  lemma SessionStays(s: State, op: Op, x: SessionId)
    requires x in s.sessions
    ensures x in Apply(s, op).sessions && Apply(s, op).sessions[x].snapshot == s.sessions[x].snapshot
    ensures Apply(s, op).sessions[x].agent == s.sessions[x].agent &&
        (!s.sessions[x].live ==> !Apply(s, op).sessions[x].live)
  {
  }

  /** A session's snapshot never changes, and a completed session is not revived. */
  lemma {:induction false} SessionSnapshotFixed(s: State, ops: seq<Op>, x: SessionId)
    requires x in s.sessions
    ensures x in Run(s, ops).sessions && Run(s, ops).sessions[x].snapshot == s.sessions[x].snapshot
    ensures !s.sessions[x].live ==> !Run(s, ops).sessions[x].live
    decreases |ops|
  {
    hide Apply;
    if ops != [] {
      SessionStays(s, ops[0], x);
      SessionSnapshotFixed(Apply(s, ops[0]), ops[1..], x);
    }
  }

  /** Edits, disabling, credential changes and sessions leave an agent's active snapshot alone: only an
      activation of that agent whose guard holds replaces it, by what the agent is at that instant. */
  lemma OnlyActivationReplaces(s: State, op: Op, a: AgentId)
    requires a in s.agents
    ensures a in Apply(s, op).agents
    ensures Apply(s, op).agents[a].active != s.agents[a].active ==>
              && op == Activate(a) && s.agents[a].enabled
              && ActivationGuard(s.agents[a].engine, StatusesOf(s, a))
              && Apply(s, op).agents[a].active == Some(SnapshotNow(s, a))
  {
    hide ActivationGuard, StatusesOf, SnapshotNow;
  }

  /** On an enabled agent, an activation goes through exactly when the readiness report of that instant
      has no issue. */
  lemma ActivatesExactlyWhenReady(ops: seq<Op>, a: AgentId)
    requires var s := Run(INITIAL, ops); a in s.agents && s.agents[a].enabled
    ensures var s := Run(INITIAL, ops);
            Apply(s, Activate(a)) ==
              if Issues(s.agents[a].engine, StatusesOf(s, a)) == []
              then s.(agents := s.agents[a := s.agents[a].(active := Some(SnapshotNow(s, a)))])
              else s
  {
    hide Run, ActivationGuard, Issues, BindingOk;
    RunKeepsInvariant(INITIAL, ops);
    var s := Run(INITIAL, ops);
    RowsOk(s.bindings, s.credentials, a);
    var statuses := StatusesOf(s, a);
    assert DistinctRoles(statuses) by { hide BindingsOf; }
    ReadyExactlyWhenGuardHolds(s.agents[a].engine, statuses);
  }

  /** Rotating a credential makes every agent bound to it unready: no activation of such an agent goes
      through before the credential has been verified again. */
  lemma RotationBlocksActivation(ops: seq<Op>, c: CredentialId, a: AgentId, role: Role)
    requires var s := Run(INITIAL, ops); (a, role) in s.bindings && s.bindings[(a, role)].credential == c
    ensures var s := Run(INITIAL, ops);
            var rotated := Apply(s, RotateCredential(c));
            c in rotated.credentials && rotated.credentials[c].state == Unchecked &&
                Apply(rotated, Activate(a)) == rotated
  {
    hide Run, Apply;
    RunKeepsInvariant(INITIAL, ops);
    RotatedUnready(Run(INITIAL, ops), c, a, role);
  }

  lemma RotatedUnready(s: State, c: CredentialId, a: AgentId, role: Role)
    requires Inv(s) && (a, role) in s.bindings && s.bindings[(a, role)].credential == c
    ensures var rotated := Apply(s, RotateCredential(c));
            c in rotated.credentials && rotated.credentials[c].state == Unchecked &&
                Apply(rotated, Activate(a)) == rotated
  {
    hide CountIf, AgentsOk, SessionsOk, RequestsOk, BindingsOf;
    var rotated := Apply(s, RotateCredential(c));
    var i := RowIndex(s.bindings, a, role);
    assert StatusesOf(rotated, a)[i].state == Unchecked;
  }

  lemma RowIndex(bindings: map<(AgentId, Role), Binding>, a: AgentId, role: Role) returns (i: nat)
    requires (a, role) in bindings
    ensures i < |BindingsOf(bindings, a)| && BindingsOf(bindings, a)[i] == bindings[(a, role)]
  {
    var l, r, x := Row(bindings, a, Llm), Row(bindings, a, Realtime), Row(bindings, a, Stt);
    i := match role case Llm => 0 case Realtime => |l| case Stt => |l + r| case Tts => |l + r + x|;
  }

  /** An agent whose active revision is its current revision runs exactly what is configured now. */
  lemma ActiveRevisionIsCurrent(ops: seq<Op>, a: AgentId)
    requires var s := Run(INITIAL, ops);
             a in s.agents && s.agents[a].active.Some? && s.agents[a].active.value.revision == s.agents[a].revision
    ensures var s := Run(INITIAL, ops); s.agents[a].active.value == SnapshotNow(s, a)
  {
    hide Run, SnapshotOk, BindingsOf;
    RunKeepsInvariant(INITIAL, ops);
  }

  // ---- the tables, updated in place ----

  class Store {
    var organizationActive: bool
    var agents: map<AgentId, Agent>
    var bindings: map<(AgentId, Role), Binding>
    var credentials: map<CredentialId, Credential>
    ghost var issued: map<CredentialId, Provider>
    ghost var requests: map<nat, Request>
    var sessions: map<SessionId, Session>

    constructor ()
      ensures View() == INITIAL
    {
      organizationActive, agents, bindings, credentials, issued, requests, sessions :=
        true, map[], map[], map[], map[], map[], map[];
    }

    ghost function View(): State
      reads this
    {
      State(organizationActive, agents, bindings, credentials, issued, requests, sessions)
    }

    method Activate(a: AgentId) returns (ok: bool)
      modifies this`agents
      ensures View() == Apply(old(View()), Op.Activate(a))
      ensures ok <==> a in old(agents) && old(agents)[a].enabled
                      && ActivationGuard(old(agents)[a].engine, old(StatusesOf(View(), a)))
    {
      if a !in agents || !agents[a].enabled { return false; }
      var values := BindingsOf(bindings, a);
      ok := ActivationGuard(agents[a].engine, Statuses(values, credentials));
      if ok {
        var agent := agents[a];
        var snapshot := Snapshot(agent.revision, agent.engine, agent.content, agent.tools, values);
        agents := agents[a := agent.(active := Some(snapshot))];
      }
    }

    /** The service's checks: refused unless role and provider go together and the credential is there
        with that provider. */
    method CheckBinding(ghost request: nat, a: AgentId, binding: Binding) returns (ok: bool)
      requires request !in requests
      modifies this`requests
      ensures View() == Apply(old(View()), Op.CheckBinding(request, a, binding))
      ensures ok <==> BindingOk(binding, credentials)
    {
      if !RoleProviderCompatible(binding.role, binding.provider) { return false; }
      if binding.credential !in credentials { return false; }
      if credentials[binding.credential].provider != binding.provider { return false; }
      requests := requests[request := Request(a, binding)];
      return true;
    }

    /** The statement after the service's checks; the foreign keys may still refuse it. */
    method UpsertBinding(ghost request: nat, a: AgentId, binding: Binding) returns (ok: bool)
      requires request in requests && requests[request] == Request(a, binding)
      modifies this
      ensures View() == Apply(old(View()), WriteBinding(request))
      ensures ok <==> a in old(agents) && binding.credential in old(credentials)
    {
      requests := requests - {request};
      ok := a in agents && binding.credential in credentials;
      if ok {
        bindings := bindings[(a, binding.role) := binding];
        agents := agents[a := Bumped(agents[a])];
      }
    }

    method DeleteCredential(c: CredentialId) returns (ok: bool)
      modifies this`credentials
      ensures View() == Apply(old(View()), Op.DeleteCredential(c))
      ensures ok <==> !Bound(bindings, c)
    {
      ok := !exists k | k in bindings.Keys :: bindings[k].credential == c;
      if ok { credentials := credentials - {c}; }
    }

    method CreateSession(x: SessionId, a: AgentId, callAnswered: bool) returns (ok: bool)
      requires x !in sessions
      modifies this`sessions
      ensures View() == Apply(old(View()), Op.CreateSession(x, a, callAnswered))
      ensures ok ==>
                && a in agents && agents[a].active.Some?
                && sessions == old(sessions)[x := Session(a, agents[a].active.value, true)]
      ensures !ok ==> sessions == old(sessions)
    {
      ok := callAnswered && organizationActive && a in agents && agents[a].enabled && agents[a].active.Some?;
      if ok { sessions := sessions[x := Session(a, agents[a].active.value, true)]; }
    }

    method CompleteSession(x: SessionId) returns (ok: bool)
      modifies this`sessions
      ensures View() == Apply(old(View()), Op.CompleteSession(x))
      ensures ok <==> x in old(sessions) && old(sessions)[x].live
    {
      ok := x in sessions && sessions[x].live;
      if ok { sessions := sessions[x := sessions[x].(live := false)]; }
    }
  }
}
