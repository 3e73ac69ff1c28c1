/** What the edits of an agent are for: from every state, any configuration of an enabled agent can be put in place,
    activated and run; and what stays over for good once an agent is disabled, a credential deleted, a session
    completed or the organization suspended. */
module ActivationProgress {
  import opened Basics
  import opened Readiness
  import opened Activation

  ghost predicate Reaches(s: State, t: State) { exists ops :: Run(s, ops) == t }

  lemma ReachesItself(s: State)
    ensures Reaches(s, s)
  {
    assert Run(s, []) == s;
  }

  lemma {:induction false} RunOneMore(s: State, ops: seq<Op>, op: Op)
    ensures Run(s, ops + [op]) == Apply(Run(s, ops), op)
    decreases |ops|
  {
    hide Apply;
    if ops == [] {
      assert [op][1..] == [] && ops + [op] == [op];
      assert Run(Apply(s, op), []) == Apply(s, op);
    } else {
      assert (ops + [op])[1..] == ops[1..] + [op];
      RunOneMore(Apply(s, ops[0]), ops[1..], op);
    }
  }

  lemma Next(start: State, s: State, op: Op)
    requires Reaches(start, s)
    ensures Reaches(start, Apply(s, op))
  {
    hide Apply;
    var ops :| Run(start, ops) == s;
    RunOneMore(start, ops, op);
  }

  // ---- any configuration can be activated ----

  /** The provider a role belongs to. */
  function ProviderOf(role: Role): Provider {
    match role
    case Llm => Groq
    case Realtime => OpenAI
    case Stt => Deepgram
    case Tts => Cartesia
  }

  /** The binding of the role is to its provider, with that configuration and a verified credential. */
  predicate BoundTo(s: State, a: AgentId, role: Role, config: nat) {
    && (a, role) in s.bindings
    && var b := s.bindings[(a, role)];
       && b.role == role && b.provider == ProviderOf(role) && b.config == config
       && b.credential in s.credentials && s.credentials[b.credential] == Credential(ProviderOf(role), Ready)
  }

  /** What an edit of one binding leaves alone. */
  ghost predicate OnlyBinding(s: State, t: State, a: AgentId, role: Role) {
    && a in t.agents && t.sessions == s.sessions && t.organizationActive == s.organizationActive
    && (a in s.agents ==> var was, now := s.agents[a], t.agents[a];
          && now.enabled == was.enabled && now.engine == was.engine && now.content == was.content
          && now.tools == was.tools)
    && (forall r: Role :: r != role ==>
          ((a, r) in t.bindings <==> (a, r) in s.bindings)
          && ((a, r) in s.bindings ==> t.bindings[(a, r)] == s.bindings[(a, r)]))
    && (forall c :: c in s.credentials ==> c in t.credentials && t.credentials[c] == s.credentials[c])
  }

  /** A new credential is created, verified and bound. */
  lemma BindRole(start: State, s: State, a: AgentId, role: Role, config: nat) returns (t: State)
    requires Reaches(start, s) && Inv(s) && a in s.agents
    ensures Reaches(start, t) && Inv(t) && BoundTo(t, a, role, config) && OnlyBinding(s, t, a, role)
  {
    hide Reaches, Inv;
    var c := Above(s.issued.Keys);
    var q := Above(s.requests.Keys);
    assert c !in s.credentials by { Issued(s, c); }
    var b := Binding(role, ProviderOf(role), c, config);
    var n := Verified(start, s, c, ProviderOf(role));
    var m := Stepped(start, n, CheckBinding(q, a, b));
    assert m == n.(requests := n.requests[q := Request(a, b)]);
    t := Stepped(start, m, WriteBinding(q));
  }

  lemma Verified(start: State, s: State, c: CredentialId, p: Provider) returns (t: State)
    requires Reaches(start, s) && Inv(s) && c !in s.issued
    ensures Reaches(start, t) && Inv(t)
    ensures t == s.(credentials := s.credentials[c := Credential(p, Ready)], issued := s.issued[c := p])
  {
    hide Reaches, Inv;
    t := Stepped(start, s, CreateCredential(c, p));
    t := Stepped(start, t, VerifyCredential(c, Ready));
  }

  lemma Issued(s: State, c: CredentialId)
    requires Inv(s)
    ensures c in s.credentials ==> c in s.issued
  {
  }

  lemma Stepped(start: State, s: State, op: Op) returns (t: State)
    requires Reaches(start, s) && Inv(s)
    ensures t == Apply(s, op) && Reaches(start, t) && Inv(t)
  {
    hide Apply, Reaches, Inv;
    Next(start, s, op);
    ApplyKeepsInvariant(s, op);
    t := Apply(s, op);
  }

  lemma UnbindRole(start: State, s: State, a: AgentId, role: Role) returns (t: State)
    requires Reaches(start, s) && Inv(s) && a in s.agents
    ensures Reaches(start, t) && Inv(t) && (a, role) !in t.bindings && OnlyBinding(s, t, a, role)
  {
    hide Reaches, Inv;
    t := Stepped(start, s, DeleteBinding(a, role));
  }

  lemma StaysBound(s: State, t: State, a: AgentId, role: Role, other: Role, config: nat)
    requires OnlyBinding(s, t, a, role) && other != role && BoundTo(s, a, other, config)
    ensures BoundTo(t, a, other, config)
  {
  }

  /** Exactly the roles of the engine are bound, as configured. */
  ghost predicate Configured(s: State, a: AgentId, engine: Engine, config: Role -> nat) {
    forall r: Role ::
      if r in ExpectedProviders(engine) then BoundTo(s, a, r, config(r)) else (a, r) !in s.bindings
  }

  lemma Configure(start: State, s: State, a: AgentId, engine: Engine, config: Role -> nat) returns (t: State)
    requires Reaches(start, s) && Inv(s) && a in s.agents
    ensures Reaches(start, t) && Inv(t) && Configured(t, a, engine, config) && OnlyAgent(s, t, a)
  {
    hide Reaches, Inv, Configured;
    if engine.Integrated? {
      t := ConfigureIntegrated(start, s, a, config);
    } else {
      t := ConfigureComposable(start, s, a, config);
    }
  }

  lemma ConfigureIntegrated(start: State, s: State, a: AgentId, config: Role -> nat) returns (t: State)
    requires Reaches(start, s) && Inv(s) && a in s.agents
    ensures Reaches(start, t) && Inv(t) && Configured(t, a, Integrated, config) && OnlyAgent(s, t, a)
  {
    hide Reaches, Inv, BoundTo, OnlyBinding;
    var x := UnbindRole(start, s, a, Stt);
    Same(s, x, a, Stt);
    var y := UnbindRole(start, x, a, Llm);
    Same(x, y, a, Llm);
    var z := UnbindRole(start, y, a, Tts);
    Same(y, z, a, Tts);
    t := BindRole(start, z, a, Realtime, config(Realtime));
    Same(z, t, a, Realtime);
  }

  lemma ConfigureComposable(start: State, s: State, a: AgentId, config: Role -> nat) returns (t: State)
    requires Reaches(start, s) && Inv(s) && a in s.agents
    ensures Reaches(start, t) && Inv(t) && Configured(t, a, Composable, config) && OnlyAgent(s, t, a)
  {
    hide Reaches, Inv, BoundTo, OnlyBinding, Apply;
    var x := UnbindRole(start, s, a, Realtime);
    Same(s, x, a, Realtime);
    var y := BindRole(start, x, a, Stt, config(Stt));
    Same(x, y, a, Stt);
    var z := BindRole(start, y, a, Llm, config(Llm));
    Same(y, z, a, Llm);
    StaysBound(y, z, a, Llm, Stt, config(Stt));
    t := BindRole(start, z, a, Tts, config(Tts));
    Same(z, t, a, Tts);
    StaysBound(z, t, a, Tts, Stt, config(Stt));
    StaysBound(z, t, a, Tts, Llm, config(Llm));
    AgentChain(s, x, y, a);
    AgentChain(s, y, z, a);
    AgentChain(s, z, t, a);
  }

  lemma AgentChain(s: State, t: State, u: State, a: AgentId)
    requires a in s.agents && OnlyAgent(s, t, a) && OnlyAgent(t, u, a)
    ensures OnlyAgent(s, u, a)
  {
  }

  ghost predicate OnlyAgent(s: State, t: State, a: AgentId) {
    && a in t.agents && t.sessions == s.sessions && t.organizationActive == s.organizationActive
    && (a in s.agents ==> var was, now := s.agents[a], t.agents[a];
          && now.enabled == was.enabled && now.engine == was.engine && now.content == was.content
          && now.tools == was.tools)
  }

  lemma Same(s: State, t: State, a: AgentId, role: Role)
    requires OnlyBinding(s, t, a, role)
    ensures OnlyAgent(s, t, a)
    ensures forall r: Role :: r != role ==> ((a, r) in t.bindings <==> (a, r) in s.bindings)
  {
  }

  /** The bindings of a configured agent, and what the report makes of them. */
  lemma ConfiguredIsReady(s: State, a: AgentId, engine: Engine, config: Role -> nat)
    requires Configured(s, a, engine, config)
    ensures var values := BindingsOf(s.bindings, a);
            && ActivationGuard(engine, StatusesOf(s, a))
            && RunsOn(values, engine, config) && Present(values, s.credentials)
  {
    hide ActivationGuard, CountIf;
    var values := BindingsOf(s.bindings, a);
    if engine.Integrated? {
      assert BoundTo(s, a, Realtime, config(Realtime)) && (a, Stt) !in s.bindings;
      assert (a, Llm) !in s.bindings && (a, Tts) !in s.bindings;
      assert values == [s.bindings[(a, Realtime)]];
    } else {
      assert BoundTo(s, a, Stt, config(Stt)) && BoundTo(s, a, Llm, config(Llm)) && BoundTo(s, a, Tts, config(Tts));
      assert (a, Realtime) !in s.bindings;
      assert values == [s.bindings[(a, Llm)], s.bindings[(a, Stt)], s.bindings[(a, Tts)]];
    }
    GuardCounts(engine, StatusesOf(s, a));
    assert |ExpectedProviders(engine)| == if engine.Integrated? then 1 else 3;
  }

  /** One binding for each role of the engine, by name, to its provider and with that configuration. */
  predicate RunsOn(values: seq<Binding>, engine: Engine, config: Role -> nat) {
    var roles: seq<Role> := if engine.Integrated? then [Realtime] else [Llm, Stt, Tts];
    && |values| == |roles|
    && forall i :: 0 <= i < |values| ==>
         && values[i].role == roles[i]
         && values[i].provider == ProviderOf(roles[i]) && values[i].config == config(roles[i])
  }

  lemma Edit(start: State, s: State, a: AgentId, engine: Engine, content: nat, tools: nat) returns (t: State)
    requires Reaches(start, s) && Inv(s) && (a in s.agents ==> s.agents[a].enabled)
    ensures Reaches(start, t) && Inv(t) && t.organizationActive && t.sessions == s.sessions
    ensures a in t.agents && t.agents[a].enabled && t.agents[a].engine == engine
    ensures t.agents[a].content == content && t.agents[a].tools == tools
  {
    hide Reaches, Inv;
    t := Stepped(start, s, SetOrganization(true));
    if a !in t.agents { t := Stepped(start, t, CreateAgent(a, engine, content)); }
    t := Stepped(start, t, UpdateAgent(a, Some(engine), Some(content)));
    t := Stepped(start, t, ChangeTools(a, tools));
  }

  lemma Launch(start: State, s: State, a: AgentId, engine: Engine, config: Role -> nat)
      returns (t: State, x: SessionId)
    requires Reaches(start, s) && Inv(s) && a in s.agents && s.agents[a].enabled && s.organizationActive
    requires s.agents[a].engine == engine && Configured(s, a, engine, config)
    ensures Reaches(start, t) && a in t.agents && t.credentials == s.credentials
    ensures x in t.sessions && t.sessions[x] == Session(a, SnapshotNow(s, a), true)
    ensures t.agents[a] == s.agents[a].(active := Some(SnapshotNow(s, a)))
  {
    hide Reaches, Inv, ActivationGuard, Configured;
    ConfiguredIsReady(s, a, engine, config);
    var m := Stepped(start, s, Activate(a));
    x := Above(m.sessions.Keys);
    t := Stepped(start, m, CreateSession(x, a, true));
  }

  /** From wherever a run has led: a new agent, or one that is enabled, can be given any engine, content and tools
      and any configuration of the engine's roles, be activated, and start a session that runs on exactly these,
      each role on its own provider and every credential still there. */
  lemma AnyConfigurationCanRun(
      ops: seq<Op>, a: AgentId, engine: Engine, content: nat, tools: nat, config: Role -> nat)
      returns (more: seq<Op>, x: SessionId)
    requires var s := Run(INITIAL, ops); a in s.agents ==> s.agents[a].enabled
    ensures var t := Run(Run(INITIAL, ops), more);
            && a in t.agents && t.agents[a].active.Some? && x in t.sessions
            && var snapshot := t.agents[a].active.value;
               && t.sessions[x] == Session(a, snapshot, true)
               && snapshot.revision == t.agents[a].revision && snapshot.engine == engine
               && snapshot.content == content && snapshot.tools == tools
               && RunsOn(snapshot.bindings, engine, config)
               && Resolve(snapshot.bindings, t.credentials) == Resolved(snapshot.bindings)
  {
    hide Run, Inv, Reaches, Configured, RunsOn, BindingsOf, Resolve;
    var start := Run(INITIAL, ops);
    assert Inv(INITIAL) by { Founded(); }
    RunKeepsInvariant(INITIAL, ops);
    ReachesItself(start);
    var s := Edit(start, start, a, engine, content, tools);
    var u := Configure(start, s, a, engine, config);
    var t;
    t, x := Launch(start, u, a, engine, config);
    ConfiguredIsReady(u, a, engine, config);
    ResolvesHere(u, a);
    more := Path(start, t);
  }

  lemma Founded()
    ensures Inv(INITIAL)
  {
  }

  lemma Path(s: State, t: State) returns (ops: seq<Op>)
    requires Reaches(s, t)
    ensures Run(s, ops) == t
  {
    ops :| Run(s, ops) == t;
  }

  lemma ResolvesHere(s: State, a: AgentId)
    requires Inv(s) && Present(BindingsOf(s.bindings, a), s.credentials)
    ensures Resolve(BindingsOf(s.bindings, a), s.credentials) == Resolved(BindingsOf(s.bindings, a))
  {
    hide BindingsOf, BindingOk, Resolve;
    RowsOk(s.bindings, s.credentials, a);
    MatchingFromBindings(BindingsOf(s.bindings, a), s.credentials, s.issued);
    ResolvesWhenMatching(BindingsOf(s.bindings, a), s.credentials, s.issued);
  }

  // ---- unready credentials ----

  /** Whatever a bound credential is found to be short of ready, its agent cannot be activated. */
  lemma UnreadyBlocksActivation(ops: seq<Op>, c: CredentialId, state: ConnectionState, a: AgentId, role: Role)
    requires state != Ready
    requires var s := Run(INITIAL, ops); (a, role) in s.bindings && s.bindings[(a, role)].credential == c
    ensures var found := Apply(Run(INITIAL, ops), VerifyCredential(c, state));
            c in found.credentials && found.credentials[c].state == state && Apply(found, Activate(a)) == found
  {
    hide Run, Apply;
    RunKeepsInvariant(INITIAL, ops);
    FoundUnready(Run(INITIAL, ops), c, state, a, role);
  }

  lemma FoundUnready(s: State, c: CredentialId, state: ConnectionState, a: AgentId, role: Role)
    requires Inv(s) && state != Ready && (a, role) in s.bindings && s.bindings[(a, role)].credential == c
    ensures var found := Apply(s, VerifyCredential(c, state));
            c in found.credentials && found.credentials[c].state == state && Apply(found, Activate(a)) == found
  {
    hide CountIf, AgentsOk, SessionsOk, RequestsOk, BindingsOf;
    var found := Apply(s, VerifyCredential(c, state));
    var i := RowIndex(s.bindings, a, role);
    assert StatusesOf(found, a)[i].state == state;
  }

  // ---- what a credential was last found to be ----

  /** What a step makes of the credential's state, if it says anything about it. */
  function Finding(s: State, op: Op, c: CredentialId): Option<ConnectionState> {
    match op
    case CreateCredential(d, _) => if d == c && c !in s.issued then Some(Unchecked) else None
    case RotateCredential(d) => if d == c then Some(Unchecked) else None
    case VerifyCredential(d, state) => if d == c then Some(state) else None
    case _ => None
  }

  function LastFinding(s: State, ops: seq<Op>, c: CredentialId, before: ConnectionState): ConnectionState
    decreases |ops|
  {
    if ops == [] then before else
      var found := Finding(s, ops[0], c);
      LastFinding(Apply(s, ops[0]), ops[1..], c, if found.Some? then found.value else before)
  }

  lemma StepFinds(s: State, op: Op, c: CredentialId, before: ConnectionState)
    requires CredentialsOk(s.credentials, s.issued) && (c in s.credentials ==> s.credentials[c].state == before)
    ensures var t, found := Apply(s, op), Finding(s, op, c);
            && CredentialsOk(t.credentials, t.issued)
            && (c in t.credentials ==> t.credentials[c].state == if found.Some? then found.value else before)
  {
    IssuedHere(s, c);
    hide Apply, CredentialsOk;
    if TouchesCredentials(op) {
      CredentialStepIssues(s, op);
      CredentialStepFinds(s, op, c, before);
    } else {
      CredentialsStay(s, op);
    }
  }

  lemma IssuedHere(s: State, c: CredentialId)
    requires CredentialsOk(s.credentials, s.issued)
    ensures c in s.credentials ==> c in s.issued
  {
  }

  lemma CredentialStepIssues(s: State, op: Op)
    requires CredentialsOk(s.credentials, s.issued) && TouchesCredentials(op)
    ensures CredentialsOk(Apply(s, op).credentials, Apply(s, op).issued)
  {
    hide ActivationGuard, BindingsOf, RoleProviderCompatible, Bound;
  }

  lemma CredentialStepFinds(s: State, op: Op, c: CredentialId, before: ConnectionState)
    requires c in s.credentials ==> c in s.issued && s.credentials[c].state == before
    requires TouchesCredentials(op)
    ensures var t, found := Apply(s, op), Finding(s, op, c);
            c in t.credentials ==> t.credentials[c].state == if found.Some? then found.value else before
  {
    hide ActivationGuard, BindingsOf, RoleProviderCompatible, Bound;
  }

  predicate TouchesCredentials(op: Op) {
    op.CreateCredential? || op.RotateCredential? || op.VerifyCredential? || op.DeleteCredential?
  }

  lemma CredentialsStay(s: State, op: Op)
    requires !TouchesCredentials(op)
    ensures Apply(s, op).credentials == s.credentials && Apply(s, op).issued == s.issued
  {
    hide ActivationGuard, BindingsOf, RoleProviderCompatible;
  }

  lemma {:induction false} RunFinds(s: State, ops: seq<Op>, c: CredentialId, before: ConnectionState)
    requires CredentialsOk(s.credentials, s.issued) && (c in s.credentials ==> s.credentials[c].state == before)
    ensures var t := Run(s, ops); c in t.credentials ==> t.credentials[c].state == LastFinding(s, ops, c, before)
    decreases |ops|
  {
    hide Apply, Finding, CredentialsOk;
    if ops != [] {
      var found := Finding(s, ops[0], c);
      StepFinds(s, ops[0], c, before);
      RunFinds(Apply(s, ops[0]), ops[1..], c, if found.Some? then found.value else before);
    }
  }

  /** No agent is activated on a credential that was not found ready since it was created and last rotated: if
      an activation changes anything, the last finding about every credential it is bound to is ready. */
  lemma ActivatedMeansVerified(ops: seq<Op>, a: AgentId, role: Role)
    requires var s := Run(INITIAL, ops); Apply(s, Activate(a)) != s && (a, role) in s.bindings
    ensures var s := Run(INITIAL, ops);
            LastFinding(INITIAL, ops, s.bindings[(a, role)].credential, Unchecked) == Ready
  {
    hide Run, Inv;
    assert Inv(INITIAL) by { Founded(); }
    RunKeepsInvariant(INITIAL, ops);
    var s := Run(INITIAL, ops);
    var c := s.bindings[(a, role)].credential;
    RunFinds(INITIAL, ops, c, Unchecked);
    BoundIsThere(s, a, role);
    NoNews(s, c);
    if s.credentials[c].state != Ready {
      FoundUnready(s, c, s.credentials[c].state, a, role);
    }
  }

  lemma NoNews(s: State, c: CredentialId)
    requires c in s.credentials
    ensures Apply(s, VerifyCredential(c, s.credentials[c].state)) == s
  {
    assert s.credentials[c := s.credentials[c].(state := s.credentials[c].state)] == s.credentials;
  }

  lemma BoundIsThere(s: State, a: AgentId, role: Role)
    requires Inv(s) && (a, role) in s.bindings
    ensures s.bindings[(a, role)].credential in s.credentials
  {
    assert BindingOk(s.bindings[(a, role)], s.credentials);
  }

  // ---- what is over for good ----

  /** The agent is disabled, and is what it was but for its tools, bindings and revision. */
  ghost predicate Dormant(s: State, a: AgentId, agent: Agent, sessions: set<SessionId>) {
    && a in s.agents && !s.agents[a].enabled
    && s.agents[a].active == agent.active && s.agents[a].engine == agent.engine
    && s.agents[a].content == agent.content
    && forall x :: x in s.sessions && s.sessions[x].agent == a ==> x in sessions
  }

  lemma StaysDormant(s: State, op: Op, a: AgentId, agent: Agent, sessions: set<SessionId>)
    requires Dormant(s, a, agent, sessions)
    ensures Dormant(Apply(s, op), a, agent, sessions)
  {
    hide ActivationGuard, BindingsOf, Bound, RoleProviderCompatible;
  }

  lemma {:induction false} RunStaysDormant(s: State, ops: seq<Op>, a: AgentId, agent: Agent, sessions: set<SessionId>)
    requires Dormant(s, a, agent, sessions)
    ensures Dormant(Run(s, ops), a, agent, sessions)
    decreases |ops|
  {
    hide Apply, Dormant;
    if ops != [] {
      StaysDormant(s, ops[0], a, agent, sessions);
      RunStaysDormant(Apply(s, ops[0]), ops[1..], a, agent, sessions);
    }
  }

  /** Once an agent is disabled, no continuation enables, edits or activates it or starts a session of it. */
  lemma DisabledForGood(s: State, a: AgentId, more: seq<Op>)
    requires a in s.agents && s.organizationActive
    ensures var t := Run(Apply(s, DisableAgent(a)), more);
            && a in t.agents && !t.agents[a].enabled && t.agents[a].active == s.agents[a].active
            && t.agents[a].engine == s.agents[a].engine && t.agents[a].content == s.agents[a].content
            && forall x :: x in t.sessions && t.sessions[x].agent == a ==> x in s.sessions
  {
    hide Run;
    RunStaysDormant(Apply(s, DisableAgent(a)), more, a, s.agents[a], s.sessions.Keys);
  }

  /** Deleted for good: identifiers of credentials are not reused. */
  predicate Deleted(s: State, c: CredentialId) { c in s.issued && c !in s.credentials }

  lemma StaysDeleted(s: State, op: Op, c: CredentialId)
    requires Deleted(s, c)
    ensures Deleted(Apply(s, op), c)
  {
    hide ActivationGuard, BindingsOf, Bound, RoleProviderCompatible;
  }

  lemma {:induction false} RunStaysDeleted(s: State, ops: seq<Op>, c: CredentialId)
    requires Deleted(s, c)
    ensures Deleted(Run(s, ops), c)
    decreases |ops|
  {
    hide Apply, Deleted;
    if ops != [] {
      StaysDeleted(s, ops[0], c);
      RunStaysDeleted(Apply(s, ops[0]), ops[1..], c);
    }
  }

  /** After a credential that nothing is bound to is deleted, every session whose snapshot uses it resolves to a
      missing credential, in every continuation. */
  lemma DeletedCredentialIsMissing(ops: seq<Op>, c: CredentialId, x: SessionId, i: nat, more: seq<Op>)
    requires var s := Run(INITIAL, ops);
             && c in s.credentials && !Bound(s.bindings, c) && x in s.sessions
             && i < |s.sessions[x].snapshot.bindings| && s.sessions[x].snapshot.bindings[i].credential == c
    ensures var t := Run(Apply(Run(INITIAL, ops), DeleteCredential(c)), more);
            && c !in t.credentials && x in t.sessions
            && Resolve(t.sessions[x].snapshot.bindings, t.credentials) == Missing
  {
    hide Run, Inv, Resolve;
    assert Inv(INITIAL) by { Founded(); }
    RunKeepsInvariant(INITIAL, ops);
    var s := Run(INITIAL, ops);
    Issued(s, c);
    var a := Apply(s, DeleteCredential(c));
    ApplyKeepsInvariant(s, DeleteCredential(c));
    assert Deleted(a, c);
    RunStaysDeleted(a, more, c);
    RunKeepsInvariant(a, more);
    SessionSnapshotFixed(a, more, x);
    MissingHere(Run(a, more), x, i);
  }

  lemma MissingHere(s: State, x: SessionId, i: nat)
    requires Inv(s) && x in s.sessions && i < |s.sessions[x].snapshot.bindings|
    requires s.sessions[x].snapshot.bindings[i].credential !in s.credentials
    ensures Resolve(s.sessions[x].snapshot.bindings, s.credentials) == Missing
  {
    hide Resolve;
    ResolvesWhenMatching(s.sessions[x].snapshot.bindings, s.credentials, s.issued);
  }

  /** A completed session is over, and keeps its snapshot, in every continuation. */
  lemma CompletedIsFinal(s: State, x: SessionId, more: seq<Op>)
    requires x in s.sessions
    ensures var t := Run(Apply(s, CompleteSession(x)), more);
            x in t.sessions && !t.sessions[x].live && t.sessions[x].snapshot == s.sessions[x].snapshot
  {
    hide Run;
    SessionSnapshotFixed(Apply(s, CompleteSession(x)), more, x);
  }

  /** While the organization is suspended no agent is created or edited by hand and no session starts. */
  ghost predicate Suspended(s: State, t: State) {
    && !t.organizationActive && t.sessions.Keys <= s.sessions.Keys && t.agents.Keys == s.agents.Keys
    && forall a :: a in s.agents ==>
         && t.agents[a].engine == s.agents[a].engine && t.agents[a].content == s.agents[a].content
         && t.agents[a].enabled == s.agents[a].enabled
  }

  lemma StaysSuspended(s: State, t: State, op: Op)
    requires Suspended(s, t) && op != SetOrganization(true)
    ensures Suspended(s, Apply(t, op))
  {
    hide ActivationGuard, BindingsOf, Bound, RoleProviderCompatible;
    if !TouchesAgents(op) {
      hide Apply;
      AgentsStay(t, op);
    }
  }

  predicate TouchesAgents(op: Op) {
    || op.CreateAgent? || op.UpdateAgent? || op.DisableAgent? || op.ChangeTools? || op.Activate?
    || op.WriteBinding? || op.DeleteBinding?
  }

  lemma AgentsStay(t: State, op: Op)
    requires !t.organizationActive && op != SetOrganization(true) && !TouchesAgents(op)
    ensures var u := Apply(t, op);
            !u.organizationActive && u.agents == t.agents && u.sessions.Keys == t.sessions.Keys
  {
    hide ActivationGuard, BindingsOf, Bound, RoleProviderCompatible;
  }

  lemma {:induction false} RunStaysSuspended(s: State, t: State, ops: seq<Op>)
    requires Suspended(s, t) && forall i :: 0 <= i < |ops| ==> ops[i] != SetOrganization(true)
    ensures Suspended(s, Run(t, ops))
    decreases |ops|
  {
    hide Apply, Suspended;
    if ops != [] {
      StaysSuspended(s, t, ops[0]);
      RunStaysSuspended(s, Apply(t, ops[0]), ops[1..]);
    }
  }

  lemma SuspendedUntilRestored(s: State, more: seq<Op>)
    requires forall i :: 0 <= i < |more| ==> more[i] != SetOrganization(true)
    ensures Suspended(s, Run(Apply(s, SetOrganization(false)), more))
  {
    hide Run;
    RunStaysSuspended(s, Apply(s, SetOrganization(false)), more);
  }

  lemma StaysWithoutSession(s: State, op: Op)
    requires s.sessions == map[] && !(op.CreateSession? && op.callAnswered)
    ensures Apply(s, op).sessions == map[]
  {
    hide ActivationGuard, BindingsOf, Bound, RoleProviderCompatible;
  }

  /** No session without an answered call. */
  lemma {:induction false} NoAnswerNoSession(s: State, ops: seq<Op>)
    requires s.sessions == map[]
    requires forall i :: 0 <= i < |ops| ==> !(ops[i].CreateSession? && ops[i].callAnswered)
    ensures Run(s, ops).sessions == map[]
    decreases |ops|
  {
    hide Apply;
    if ops != [] {
      StaysWithoutSession(s, ops[0]);
      NoAnswerNoSession(Apply(s, ops[0]), ops[1..]);
    }
  }
}
