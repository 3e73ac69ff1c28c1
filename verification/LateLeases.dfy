/** Media leases whose callers read the clock before their script reaches Redis
    (server/internal/integrations/redis/media.go:80-92, 125-134): which promises survive a late script. */
module LateLeases {
  import opened Basics
  import opened RedisKeys
  import opened MediaLeases

  /** Any step of the prompt system, or an acquire or a refresh that carries an earlier reading. */
  datatype LateOp =
    | Prompt(op: Op)
    | AcquireLate(node: NodeId, session: SessionId, at: int)
    | RefreshLate(node: NodeId, session: SessionId, at: int)

  function ApplyLate(s: State, cfg: Config, op: LateOp): State {
    match op
    case Prompt(o) => Apply(s, cfg, o)
    case AcquireLate(node, session, at) => if at <= s.now then AcquireAt(s, cfg, node, session, at).0 else s
    case RefreshLate(node, session, at) => if at <= s.now then RefreshAt(s, cfg, node, session, at).0 else s
  }

  function RunLate(s: State, cfg: Config, ops: seq<LateOp>): State
    decreases |ops|
  {
    if ops == [] then s else RunLate(ApplyLate(s, cfg, ops[0]), cfg, ops[1..])
  }

  // ---- what survives: a lease never outlives its owner key ----

  predicate OwnedAtLeastUntil(s: State, node: NodeId, session: SessionId, expiry: int) {
    GetOwner(s, session) == Some(node) && expiry <= s.owners[session].expiry
  }

  ghost predicate Owned(s: State) {
    forall node, session, expiry :: LeasedUntil(s, node, session, expiry) ==>
        OwnedAtLeastUntil(s, node, session, expiry)
  }

  ghost predicate Keyed(s: State, cfg: Config) {
    forall node :: KeyOutlivesMembers(Leases(s, node), s.now, cfg.ttl)
  }

  lemma TouchKeepsOwned(s: State, cfg: Config, node: NodeId, session: SessionId, at: int)
    requires cfg.ttl > 0 && at <= s.now && Owned(s) && Keyed(s, cfg)
    requires GetOwner(s, session).Some? ==> GetOwner(s, session).value == node
    ensures Owned(TouchAt(s, cfg, node, session, at)) && Keyed(TouchAt(s, cfg, node, session, at), cfg)
  {
    var t := TouchAt(s, cfg, node, session, at);
    forall n, x, expiry | LeasedUntil(t, n, x, expiry) ensures OwnedAtLeastUntil(t, n, x, expiry) {
      assert KeyOutlivesMembers(Leases(s, n), s.now, cfg.ttl);
      if x != session || n != node { assert LeasedUntil(s, n, x, expiry); }
    }
    forall n ensures KeyOutlivesMembers(Leases(t, n), t.now, cfg.ttl) {
      assert KeyOutlivesMembers(Leases(s, n), s.now, cfg.ttl);
    }
  }

  lemma PruneKeepsOwned(s: State, cfg: Config, node: NodeId, upTo: int)
    requires Owned(s) && Keyed(s, cfg)
    ensures Owned(Prune(s, node, upTo)) && Keyed(Prune(s, node, upTo), cfg)
  {
    var t := Prune(s, node, upTo);
    forall n, x, expiry | LeasedUntil(t, n, x, expiry) ensures OwnedAtLeastUntil(t, n, x, expiry) {
      assert LeasedUntil(s, n, x, expiry);
    }
    forall n ensures KeyOutlivesMembers(Leases(t, n), t.now, cfg.ttl) {
      assert KeyOutlivesMembers(Leases(s, n), s.now, cfg.ttl);
    }
  }

  lemma AcquireKeepsOwned(s: State, cfg: Config, node: NodeId, session: SessionId, at: int)
    requires cfg.ttl > 0 && at <= s.now && Owned(s) && Keyed(s, cfg)
    ensures var t := AcquireAt(s, cfg, node, session, at).0; Owned(t) && Keyed(t, cfg)
  {
    hide Owned, Keyed, TouchAt, KeyOutlivesMembers;
    PruneKeepsOwned(s, cfg, node, at);
    if GetOwner(s, session).None? {
      TouchKeepsOwned(Prune(s, node, at), cfg, node, session, at);
    } else if GetOwner(s, session).value == node {
      TouchKeepsOwned(s, cfg, node, session, at);
    }
  }

  lemma RefreshKeepsOwned(s: State, cfg: Config, node: NodeId, session: SessionId, at: int)
    requires cfg.ttl > 0 && at <= s.now && Owned(s) && Keyed(s, cfg)
    ensures var t := RefreshAt(s, cfg, node, session, at).0; Owned(t) && Keyed(t, cfg)
  {
    hide Owned, Keyed, TouchAt;
    if GetOwner(s, session) == Some(node) { TouchKeepsOwned(s, cfg, node, session, at); }
  }

  lemma ReleaseKeepsOwned(s: State, cfg: Config, node: NodeId, session: SessionId)
    requires Owned(s) && Keyed(s, cfg)
    ensures var t := Release(s, node, session); Owned(t) && Keyed(t, cfg)
  {
    var t := Release(s, node, session);
    ReleaseEffect(s, node, session);
    forall n, x, expiry | LeasedUntil(t, n, x, expiry) ensures OwnedAtLeastUntil(t, n, x, expiry) {
      assert LeasedUntil(s, n, x, expiry);
      assert OwnedAtLeastUntil(s, n, x, expiry);
    }
    forall n ensures KeyOutlivesMembers(Leases(t, n), t.now, cfg.ttl) {
      assert KeyOutlivesMembers(Leases(s, n), s.now, cfg.ttl);
    }
  }

  lemma TickKeepsOwned(s: State, cfg: Config, elapsed: nat)
    requires Owned(s) && Keyed(s, cfg)
    ensures var t := s.(now := s.now + elapsed); Owned(t) && Keyed(t, cfg)
  {
    var t := s.(now := s.now + elapsed);
    forall n, x, expiry | LeasedUntil(t, n, x, expiry) ensures OwnedAtLeastUntil(t, n, x, expiry) {
      assert LeasedUntil(s, n, x, expiry);
    }
    forall n ensures KeyOutlivesMembers(Leases(t, n), t.now, cfg.ttl) {
      assert KeyOutlivesMembers(Leases(s, n), s.now, cfg.ttl);
    }
  }

  lemma ApplyKeepsOwned(s: State, cfg: Config, op: LateOp)
    requires cfg.ttl > 0 && Owned(s) && Keyed(s, cfg)
    ensures var t := ApplyLate(s, cfg, op); Owned(t) && Keyed(t, cfg)
  {
    match op {
      case AcquireLate(node, session, at) => if at <= s.now { AcquireKeepsOwned(s, cfg, node, session, at); }
      case RefreshLate(node, session, at) => if at <= s.now { RefreshKeepsOwned(s, cfg, node, session, at); }
      case Prompt(o) => PromptKeepsOwned(s, cfg, o);
    }
  }

  lemma PromptKeepsOwned(s: State, cfg: Config, op: Op)
    requires cfg.ttl > 0 && Owned(s) && Keyed(s, cfg)
    ensures var t := Apply(s, cfg, op); Owned(t) && Keyed(t, cfg)
  {
    hide AcquireAt, RefreshAt, Release, Prune;
    match op {
      case Tick(elapsed) => TickKeepsOwned(s, cfg, elapsed);
      case DoAcquire(node, session) => AcquireKeepsOwned(s, cfg, node, session, s.now);
      case DoRefresh(node, session) => RefreshKeepsOwned(s, cfg, node, session, s.now);
      case DoRelease(node, session) => ReleaseKeepsOwned(s, cfg, node, session);
      case DoPrune(node, upTo) => PruneKeepsOwned(s, cfg, node, upTo);
      case _ => OthersKeepOwned(s, Apply(s, cfg, op), cfg);
    }
  }

  lemma OthersKeepOwned(s: State, t: State, cfg: Config)
    requires Owned(s) && Keyed(s, cfg) && t.now == s.now && t.leases == s.leases && t.owners == s.owners
    ensures Owned(t) && Keyed(t, cfg)
  {
    forall n, x, expiry | LeasedUntil(t, n, x, expiry) ensures OwnedAtLeastUntil(t, n, x, expiry) {
      assert LeasedUntil(s, n, x, expiry);
    }
    forall n ensures KeyOutlivesMembers(Leases(t, n), t.now, cfg.ttl) {
      assert KeyOutlivesMembers(Leases(s, n), s.now, cfg.ttl);
    }
  }

  lemma {:induction false} RunKeepsOwned(s: State, cfg: Config, ops: seq<LateOp>)
    requires cfg.ttl > 0 && Owned(s) && Keyed(s, cfg)
    ensures var t := RunLate(s, cfg, ops); Owned(t) && Keyed(t, cfg)
    decreases |ops|
  {
    hide ApplyLate, Owned, Keyed;
    if ops != [] {
      ApplyKeepsOwned(s, cfg, ops[0]);
      RunKeepsOwned(ApplyLate(s, cfg, ops[0]), cfg, ops[1..]);
    }
  }

  /** However late the scripts run, a live lease has a live owner key that names its node and expires no
      earlier. */
  lemma OwnerOutlivesLease(cfg: Config, ops: seq<LateOp>, node: NodeId, session: SessionId, expiry: int)
    requires cfg.ttl > 0 && LeasedUntil(RunLate(INITIAL, cfg, ops), node, session, expiry)
    ensures OwnedAtLeastUntil(RunLate(INITIAL, cfg, ops), node, session, expiry)
  {
    hide RunLate, LeasedUntil, OwnedAtLeastUntil;
    InitiallyOwned(cfg);
    RunKeepsOwned(INITIAL, cfg, ops);
  }

  lemma InitiallyOwned(cfg: Config)
    ensures Owned(INITIAL) && Keyed(INITIAL, cfg)
  {
  }

  /** So no session ever has live leases on two nodes, however late the scripts run. */
  lemma NeverLeasedTwiceLate(cfg: Config, ops: seq<LateOp>, session: SessionId, a: NodeId, b: NodeId)
    requires cfg.ttl > 0
    requires session in LiveLeases(RunLate(INITIAL, cfg, ops), a) &&
        session in LiveLeases(RunLate(INITIAL, cfg, ops), b)
    ensures a == b
  {
    hide RunLate;
    var s := RunLate(INITIAL, cfg, ops);
    OwnerOutlivesLease(cfg, ops, a, session, Scores(Leases(s, a), s.now)[session]);
    OwnerOutlivesLease(cfg, ops, b, session, Scores(Leases(s, b), s.now)[session]);
  }

  // ---- what does not: equal expiries and the capacity ----

  /** The write a granted acquire or refresh ends with, on live leases. */
  lemma TouchAtEffect(s: State, cfg: Config, node: NodeId, session: SessionId, at: int)
    requires cfg.ttl > 0
    ensures var t := TouchAt(s, cfg, node, session, at);
            && LiveLeases(t, node) ==
                 (if at + cfg.ttl > s.now then LiveLeases(s, node) + {session} else LiveLeases(s, node) - {session})
            && forall n :: n != node ==> LiveLeases(t, n) == LiveLeases(s, n)
  {
    var t := TouchAt(s, cfg, node, session, at);
    assert Scores(Leases(t, node), t.now) == Scores(Leases(s, node), s.now)[session := at + cfg.ttl];
  }

  /** Lease and owner key expire together after the write exactly when the reading was of that instant. */
  lemma ExpiriesEqualExactlyWhen(s: State, cfg: Config, node: NodeId, session: SessionId, at: int)
    requires cfg.ttl > 0
    ensures var t := TouchAt(s, cfg, node, session, at);
            (forall e :: LeasedUntil(t, node, session, e) <==> OwnedUntil(t, node, session, e)) <==> at == s.now
  {
    var t := TouchAt(s, cfg, node, session, at);
    assert Scores(Leases(t, node), t.now)[session] == at + cfg.ttl;
    assert OwnedUntil(t, node, session, s.now + cfg.ttl);
  }

  /** The clock reading of a late write that is granted. */
  function LateWrite(s: State, cfg: Config, op: LateOp): Option<int> {
    match op
    case AcquireLate(node, session, at) =>
      if at <= s.now && AcquireAt(s, cfg, node, session, at).1 == Ok then Some(at) else None
    case RefreshLate(node, session, at) =>
      if at <= s.now && RefreshAt(s, cfg, node, session, at).1 then Some(at) else None
    case Prompt(_) => None
  }

  predicate WritesPromptly(s: State, cfg: Config, op: LateOp) {
    var at := LateWrite(s, cfg, op);
    at.Some? ==> at.value == s.now
  }

  lemma LateWriteUncouples(s: State, cfg: Config, node: NodeId, session: SessionId, at: int)
    requires cfg.ttl > 0 && at != s.now
    ensures !Coupled(TouchAt(s, cfg, node, session, at))
  {
    hide TouchAt;
    ExpiriesEqualExactlyWhen(s, cfg, node, session, at);
  }

  lemma InvIsCoupled(s: State, cfg: Config)
    requires MediaLeases.Inv(s, cfg)
    ensures Coupled(s)
  {
  }

  lemma PositiveTtl(cfg: Config)
    requires ValidConfig(cfg)
    ensures cfg.ttl > 0
  {
  }

  lemma AcquireCoupledExactlyWhen(s: State, cfg: Config, node: NodeId, session: SessionId, at: int)
    requires ValidConfig(cfg) && MediaLeases.Inv(s, cfg) && at <= s.now
    ensures var (t, reason) := AcquireAt(s, cfg, node, session, at);
            && (Coupled(t) <==> reason != Ok || at == s.now)
            && (reason != Ok || at == s.now ==> MediaLeases.Inv(t, cfg))
  {
    hide MediaLeases.Inv, Coupled, TouchAt, Prune, Leases, Exists, GetOwner, ZCard, ValidConfig;
    InvIsCoupled(s, cfg);
    if at == s.now {
      AcquireKeepsInvariant(s, cfg, node, session);
      InvIsCoupled(Acquire(s, cfg, node, session).0, cfg);
    } else {
      PositiveTtl(cfg);
      PruneKeepsInvariant(s, cfg, node, at);
      PruneTakesNoTime(s, node, at);
      InvIsCoupled(Prune(s, node, at), cfg);
      LateWriteUncouples(s, cfg, node, session, at);
      LateWriteUncouples(Prune(s, node, at), cfg, node, session, at);
    }
  }

  lemma RefreshCoupledExactlyWhen(s: State, cfg: Config, node: NodeId, session: SessionId, at: int)
    requires ValidConfig(cfg) && MediaLeases.Inv(s, cfg) && at <= s.now
    ensures var (t, ok) := RefreshAt(s, cfg, node, session, at);
            && (Coupled(t) <==> !ok || at == s.now)
            && (!ok || at == s.now ==> MediaLeases.Inv(t, cfg))
  {
    hide MediaLeases.Inv, Coupled, TouchAt, Exists, GetOwner, ValidConfig;
    InvIsCoupled(s, cfg);
    if at == s.now {
      MediaLeases.ApplyKeepsInvariant(s, cfg, DoRefresh(node, session));
      InvIsCoupled(Refresh(s, cfg, node, session).0, cfg);
    } else {
      PositiveTtl(cfg);
      LateWriteUncouples(s, cfg, node, session, at);
    }
  }

  /** From a state in which leases and owner keys agree, a step keeps them in agreement if and only if it is
      not a granted write with an earlier reading. */
  lemma StepCoupledExactlyWhen(s: State, cfg: Config, op: LateOp)
    requires ValidConfig(cfg) && MediaLeases.Inv(s, cfg)
    ensures Coupled(ApplyLate(s, cfg, op)) <==> WritesPromptly(s, cfg, op)
    ensures WritesPromptly(s, cfg, op) ==> MediaLeases.Inv(ApplyLate(s, cfg, op), cfg)
  {
    hide MediaLeases.Inv, Coupled, AcquireAt, RefreshAt, ValidConfig, Apply;
    InvIsCoupled(s, cfg);
    match op {
      case AcquireLate(node, session, at) => if at <= s.now { AcquireCoupledExactlyWhen(s, cfg, node, session, at); }
      case RefreshLate(node, session, at) => if at <= s.now { RefreshCoupledExactlyWhen(s, cfg, node, session, at); }
      case Prompt(o) =>
        MediaLeases.ApplyKeepsInvariant(s, cfg, o);
        InvIsCoupled(Apply(s, cfg, o), cfg);
    }
  }

  predicate AllWritePromptly(s: State, cfg: Config, ops: seq<LateOp>)
    decreases |ops|
  {
    ops == [] || (WritesPromptly(s, cfg, ops[0]) && AllWritePromptly(ApplyLate(s, cfg, ops[0]), cfg, ops[1..]))
  }

  ghost predicate AlwaysCoupled(s: State, cfg: Config, ops: seq<LateOp>)
    decreases |ops|
  {
    Coupled(s) && (ops == [] || AlwaysCoupled(ApplyLate(s, cfg, ops[0]), cfg, ops[1..]))
  }

  lemma {:induction false} FromCoupled(s: State, cfg: Config, ops: seq<LateOp>)
    requires ValidConfig(cfg) && MediaLeases.Inv(s, cfg)
    ensures AlwaysCoupled(s, cfg, ops) <==> AllWritePromptly(s, cfg, ops)
    decreases |ops|
  {
    hide MediaLeases.Inv, Coupled, ApplyLate, WritesPromptly, ValidConfig;
    InvIsCoupled(s, cfg);
    if ops != [] {
      StepCoupledExactlyWhen(s, cfg, ops[0]);
      if WritesPromptly(s, cfg, ops[0]) {
        FromCoupled(ApplyLate(s, cfg, ops[0]), cfg, ops[1..]);
      } else {
        assert !AlwaysCoupled(ApplyLate(s, cfg, ops[0]), cfg, ops[1..]);
      }
    }
  }

  /** Over whole runs: in every state of a run each session's live lease and live owner key agree, node and
      expiry, if and only if every granted write in it carries a reading of its own instant. */
  lemma CoupledExactlyWhen(cfg: Config, ops: seq<LateOp>)
    requires ValidConfig(cfg)
    ensures AlwaysCoupled(INITIAL, cfg, ops) <==> AllWritePromptly(INITIAL, cfg, ops)
  {
    hide AlwaysCoupled, AllWritePromptly, MediaLeases.Inv;
    ReachableInvariant(cfg, []);
    assert Run(INITIAL, cfg, []) == INITIAL;
    FromCoupled(INITIAL, cfg, ops);
  }

  // ---- draining nodes ----

  /** A granted refresh on that node whose session has no live lease there and gets one. */
  predicate RefreshGains(s: State, cfg: Config, op: LateOp, node: NodeId) {
    var r := RefreshOf(s, op);
    && r.Some? && r.value.node == node
    && r.value.at + cfg.ttl > s.now && r.value.session !in LiveLeases(s, node)
  }

  lemma DrainingAcquire(s: State, cfg: Config, node: NodeId, n: NodeId, session: SessionId, at: int)
    requires cfg.ttl > 0 && at <= s.now && Exists(s.draining, node, s.now)
    ensures LiveLeases(AcquireAt(s, cfg, n, session, at).0, node) == LiveLeases(s, node)
  {
    hide TouchAt, Prune, LiveLeases, ZCard, Leases, GetOwner;
    PruneLeavesLive(s, n, at);
    PruneTakesNoTime(s, n, at);
    TouchAtEffect(s, cfg, n, session, at);
    TouchAtEffect(Prune(s, n, at), cfg, n, session, at);
  }

  lemma DrainingRefresh(s: State, cfg: Config, node: NodeId, n: NodeId, session: SessionId, at: int)
    requires cfg.ttl > 0 && at <= s.now
    ensures LiveLeases(RefreshAt(s, cfg, n, session, at).0, node) <= LiveLeases(s, node) <==>
              !(Refreshed(s, n, session, at).Some? && n == node && at + cfg.ttl > s.now
                && session !in LiveLeases(s, node))
  {
    hide TouchAt, LiveLeases, GetOwner, Exists;
    TouchAtEffect(s, cfg, n, session, at);
  }

  /** Whatever step comes next, a node whose draining key is live gains no lease if and only if the step is
      not such a refresh: acquires and re-acquires are refused there, refreshes are not. */
  lemma DrainingGainsExactlyWhen(s: State, cfg: Config, op: LateOp, node: NodeId)
    requires cfg.ttl > 0 && Exists(s.draining, node, s.now)
    ensures LiveLeases(ApplyLate(s, cfg, op), node) <= LiveLeases(s, node) <==> !RefreshGains(s, cfg, op, node)
  {
    hide LiveLeases, AcquireAt, RefreshAt, Refreshed, Exists;
    match op {
      case AcquireLate(n, session, at) => if at <= s.now { DrainingAcquire(s, cfg, node, n, session, at); }
      case RefreshLate(n, session, at) =>
        RefreshedReading(s, n, session, at);
        if at <= s.now { DrainingRefresh(s, cfg, node, n, session, at); }
      case Prompt(o) =>
        if o.DoAcquire? {
          DrainingAcquire(s, cfg, node, o.node, o.session, s.now);
        } else if o.DoRefresh? {
          RefreshedReading(s, o.node, o.session, s.now);
          DrainingRefresh(s, cfg, node, o.node, o.session, s.now);
        } else {
          OthersAddNothing(s, cfg, o, node);
        }
    }
  }

  lemma RefreshedReading(s: State, node: NodeId, session: SessionId, at: int)
    ensures var r := Refreshed(s, node, session, at);
            r.Some? ==> r.value == Retouch(node, session, at) && at <= s.now
  {
  }

  // ---- capacity ----

  /** What a caller would have to check before a re-acquire or a refresh: the new lease is over already, or
      the old one is still live, or there is room. */
  predicate RetouchFits(s: State, cfg: Config, node: NodeId, session: SessionId, at: int) {
    at + cfg.ttl <= s.now || session in LiveLeases(s, node) || |LiveLeases(s, node)| < cfg.capacity(node)
  }

  /** A write to a node within its capacity keeps it there if and only if it fits. */
  lemma RetouchKeepsCapacityExactlyWhen(s: State, cfg: Config, node: NodeId, session: SessionId, at: int)
    requires cfg.ttl > 0 && |LiveLeases(s, node)| <= cfg.capacity(node)
    ensures |LiveLeases(TouchAt(s, cfg, node, session, at), node)| <= cfg.capacity(node)
            <==> RetouchFits(s, cfg, node, session, at)
  {
    var live := LiveLeases(s, node);
    hide TouchAt, LiveLeases;
    TouchAtEffect(s, cfg, node, session, at);
    SubsetCardinality(live - {session}, live);
    assert session in live ==> live + {session} == live;
  }

  ghost predicate WithinCapacity(s: State, cfg: Config) {
    forall node :: |LiveLeases(s, node)| <= cfg.capacity(node)
  }

  datatype Retouch = Retouch(node: NodeId, session: SessionId, at: int)

  /** The re-acquire or refresh that a step is, if it is one and is granted. */
  function RetouchOf(s: State, op: LateOp): Option<Retouch> {
    match op
    case AcquireLate(node, session, at) => Reacquired(s, node, session, at)
    case Prompt(DoAcquire(node, session)) => Reacquired(s, node, session, s.now)
    case _ => RefreshOf(s, op)
  }

  function RefreshOf(s: State, op: LateOp): Option<Retouch> {
    match op
    case RefreshLate(node, session, at) => Refreshed(s, node, session, at)
    case Prompt(DoRefresh(node, session)) => Refreshed(s, node, session, s.now)
    case _ => None
  }

  function Reacquired(s: State, node: NodeId, session: SessionId, at: int): Option<Retouch> {
    if at <= s.now && GetOwner(s, session) == Some(node)
       && Exists(s.heartbeats, node, s.now) && !Exists(s.draining, node, s.now)
    then Some(Retouch(node, session, at)) else None
  }

  function Refreshed(s: State, node: NodeId, session: SessionId, at: int): Option<Retouch> {
    if at <= s.now && GetOwner(s, session) == Some(node) && Exists(s.heartbeats, node, s.now)
    then Some(Retouch(node, session, at)) else None
  }

  predicate StepFits(s: State, cfg: Config, op: LateOp) {
    var r := RetouchOf(s, op);
    r.Some? ==> RetouchFits(s, cfg, r.value.node, r.value.session, r.value.at)
  }

  lemma TouchWithinExactlyWhen(s: State, cfg: Config, node: NodeId, session: SessionId, at: int)
    requires cfg.ttl > 0 && WithinCapacity(s, cfg)
    ensures WithinCapacity(TouchAt(s, cfg, node, session, at), cfg) <==> RetouchFits(s, cfg, node, session, at)
  {
    hide TouchAt, LiveLeases, RetouchFits;
    TouchAtEffect(s, cfg, node, session, at);
    RetouchKeepsCapacityExactlyWhen(s, cfg, node, session, at);
  }

  lemma PruneLeavesLive(s: State, node: NodeId, upTo: int)
    requires upTo <= s.now
    ensures forall n :: LiveLeases(Prune(s, node, upTo), n) == LiveLeases(s, n)
  {
  }

  lemma LiveAreCounted(s: State, node: NodeId)
    ensures |LiveLeases(s, node)| <= ZCard(Leases(s, node), s.now)
  {
    var scores := Scores(Leases(s, node), s.now);
    assert LiveLeases(s, node) <= scores.Keys && |scores.Keys| == |scores|;
    SubsetCardinality(LiveLeases(s, node), scores.Keys);
  }

  lemma AcquireWithinExactlyWhen(s: State, cfg: Config, node: NodeId, session: SessionId, at: int)
    requires ValidConfig(cfg) && at <= s.now && WithinCapacity(s, cfg)
    ensures WithinCapacity(AcquireAt(s, cfg, node, session, at).0, cfg) <==>
              (Reacquired(s, node, session, at).Some? ==> RetouchFits(s, cfg, node, session, at))
  {
    hide TouchAt, LiveLeases, Prune, ZCard, Leases;
    PruneLeavesLive(s, node, at);
    PruneTakesNoTime(s, node, at);
    var pruned := Prune(s, node, at);
    assert WithinCapacity(pruned, cfg);
    LiveAreCounted(pruned, node);
    TouchWithinExactlyWhen(pruned, cfg, node, session, at);
    TouchWithinExactlyWhen(s, cfg, node, session, at);
  }

  lemma RefreshWithinExactlyWhen(s: State, cfg: Config, node: NodeId, session: SessionId, at: int)
    requires ValidConfig(cfg) && at <= s.now && WithinCapacity(s, cfg)
    ensures WithinCapacity(RefreshAt(s, cfg, node, session, at).0, cfg) <==>
              (Refreshed(s, node, session, at).Some? ==> RetouchFits(s, cfg, node, session, at))
  {
    hide TouchAt, LiveLeases;
    TouchWithinExactlyWhen(s, cfg, node, session, at);
  }

  lemma OthersStayWithin(s: State, cfg: Config, op: Op)
    requires WithinCapacity(s, cfg) && !op.DoAcquire? && !op.DoRefresh?
    ensures WithinCapacity(Apply(s, cfg, op), cfg)
  {
    hide Apply, LiveLeases;
    forall n ensures |LiveLeases(Apply(s, cfg, op), n)| <= cfg.capacity(n) {
      OthersAddNothing(s, cfg, op, n);
      SubsetCardinality(LiveLeases(Apply(s, cfg, op), n), LiveLeases(s, n));
    }
  }

  lemma OthersAddNothing(s: State, cfg: Config, op: Op, n: NodeId)
    requires !op.DoAcquire? && !op.DoRefresh?
    ensures LiveLeases(Apply(s, cfg, op), n) <= LiveLeases(s, n)
  {
    if op.Tick? { LiveMembersShrink(Leases(s, n), s.now, s.now + op.elapsed); }
    if op.DoPrune? && op.upTo <= s.now { PruneLeavesLive(s, op.node, op.upTo); }
    if op.DoRelease? { ReleaseEffect(s, op.node, op.session); }
  }

  /** A step from a state within its capacities stays within them if and only if it is not a re-acquire or a
      refresh that does not fit. */
  lemma StepWithinExactlyWhen(s: State, cfg: Config, op: LateOp)
    requires ValidConfig(cfg) && WithinCapacity(s, cfg)
    ensures WithinCapacity(ApplyLate(s, cfg, op), cfg) <==> StepFits(s, cfg, op)
  {
    hide WithinCapacity, RetouchFits, AcquireAt, RefreshAt;
    match op {
      case AcquireLate(node, session, at) => if at <= s.now { AcquireWithinExactlyWhen(s, cfg, node, session, at); }
      case RefreshLate(node, session, at) => if at <= s.now { RefreshWithinExactlyWhen(s, cfg, node, session, at); }
      case Prompt(o) =>
        if o.DoAcquire? {
          AcquireWithinExactlyWhen(s, cfg, o.node, o.session, s.now);
        } else if o.DoRefresh? {
          RefreshWithinExactlyWhen(s, cfg, o.node, o.session, s.now);
        } else {
          OthersStayWithin(s, cfg, o);
        }
    }
  }

  predicate AllFit(s: State, cfg: Config, ops: seq<LateOp>)
    decreases |ops|
  {
    ops == [] || (StepFits(s, cfg, ops[0]) && AllFit(ApplyLate(s, cfg, ops[0]), cfg, ops[1..]))
  }

  ghost predicate AlwaysWithin(s: State, cfg: Config, ops: seq<LateOp>)
    decreases |ops|
  {
    WithinCapacity(s, cfg) && (ops == [] || AlwaysWithin(ApplyLate(s, cfg, ops[0]), cfg, ops[1..]))
  }

  lemma {:induction false} FromWithin(s: State, cfg: Config, ops: seq<LateOp>)
    requires ValidConfig(cfg) && WithinCapacity(s, cfg)
    ensures AlwaysWithin(s, cfg, ops) <==> AllFit(s, cfg, ops)
    decreases |ops|
  {
    hide WithinCapacity, ApplyLate, StepFits;
    if ops != [] {
      StepWithinExactlyWhen(s, cfg, ops[0]);
      if StepFits(s, cfg, ops[0]) {
        FromWithin(ApplyLate(s, cfg, ops[0]), cfg, ops[1..]);
      } else {
        assert !AlwaysWithin(ApplyLate(s, cfg, ops[0]), cfg, ops[1..]);
      }
    }
  }

  /** However late the scripts run, every state of a run is within the capacities if and only if every
      re-acquire and refresh in it fits when it runs. */
  lemma CapacityHoldsExactlyWhen(cfg: Config, ops: seq<LateOp>)
    requires ValidConfig(cfg)
    ensures AlwaysWithin(INITIAL, cfg, ops) <==> AllFit(INITIAL, cfg, ops)
  {
    hide AlwaysWithin, AllFit;
    assert forall node :: LiveLeases(INITIAL, node) == {};
    FromWithin(INITIAL, cfg, ops);
  }

  // ---- a run that goes over ----

  const ONE := Config(10, (_: NodeId) => 1)

  // With room for one lease of 10 ms: "a" is acquired at 3 with a reading of 0, so its lease ends at 10 and
  // its owner key at 13; "b" is acquired at 11; "a" is refreshed at 12.
  const OVER: seq<LateOp> := [
    Prompt(Heartbeat("n", 100)), Prompt(Tick(3)), AcquireLate("n", "a", 0), Prompt(Tick(8)),
    Prompt(DoAcquire("n", "b")), Prompt(Tick(1)), Prompt(DoRefresh("n", "a"))]

  lemma OneThen(s: State, cfg: Config, op: LateOp, rest: seq<LateOp>)
    ensures RunLate(s, cfg, [op] + rest) == RunLate(ApplyLate(s, cfg, op), cfg, rest)
  {
    assert ([op] + rest)[1..] == rest;
  }

  lemma LateAcquire() returns (s: State)
    ensures s == ApplyLate(State(3, map["n" := 100], map[], map[], map[]), ONE, AcquireLate("n", "a", 0))
    ensures s == State(3, map["n" := 100], map[], map["n" := ZKey(map["a" := 10], Some(13))],
        map["a" := Owner("n", 13)])
  {
    var before := State(3, map["n" := 100], map[], map[], map[]);
    assert Prune(before, "n", 0).leases == map["n" := ABSENT];
    s := ApplyLate(before, ONE, AcquireLate("n", "a", 0));
  }

  lemma SecondAcquire() returns (s: State)
    ensures var before :=
              State(11, map["n" := 100], map[], map["n" := ZKey(map["a" := 10], Some(13))], map["a" := Owner("n", 13)]);
            s == ApplyLate(before, ONE, Prompt(DoAcquire("n", "b")))
    ensures s == State(11, map["n" := 100], map[], map["n" := ZKey(map["b" := 21], Some(21))],
                       map["a" := Owner("n", 13), "b" := Owner("n", 21)])
  {
    var before :=
      State(11, map["n" := 100], map[], map["n" := ZKey(map["a" := 10], Some(13))], map["a" := Owner("n", 13)]);
    assert Prune(before, "n", 11).leases == map["n" := ABSENT];
    s := ApplyLate(before, ONE, Prompt(DoAcquire("n", "b")));
  }

  lemma LateAcquireOverfills()
    ensures var s := RunLate(INITIAL, ONE, OVER);
            LiveLeases(s, "n") == {"a", "b"} && ONE.capacity("n") == 1
  {
    hide RunLate, ApplyLate;
    var a := LateAcquire();
    var b := SecondAcquire();
    var p := State(0, map["n" := 100], map[], map[], map[]);
    LateTick(p, 3);
    LateTick(a, 8);
    LateTick(b, 1);
    LateBeat();
    var c := b.(now := 12);
    var d := ApplyLate(c, ONE, Prompt(DoRefresh("n", "a")));
    assert OVER == [OVER[0]] + OVER[1..];
    OneThen(INITIAL, ONE, OVER[0], OVER[1..]);
    assert OVER[1..] == [OVER[1]] + OVER[2..];
    OneThen(p, ONE, OVER[1], OVER[2..]);
    assert OVER[2..] == [OVER[2]] + OVER[3..];
    OneThen(p.(now := 3), ONE, OVER[2], OVER[3..]);
    assert OVER[3..] == [OVER[3]] + OVER[4..];
    OneThen(a, ONE, OVER[3], OVER[4..]);
    assert OVER[4..] == [OVER[4]] + OVER[5..];
    OneThen(a.(now := 11), ONE, OVER[4], OVER[5..]);
    assert OVER[5..] == [OVER[5]] + OVER[6..];
    OneThen(b, ONE, OVER[5], OVER[6..]);
    assert OVER[6..] == [OVER[6]] + [];
    OneThen(c, ONE, OVER[6], []);
    NothingLeft(d, ONE);
    LastRefresh(c, d);
  }

  // "a" is acquired as above, the node starts draining, and the lapsed lease is refreshed at 11.
  const DRAINED: seq<LateOp> := [
    Prompt(Heartbeat("n", 100)), Prompt(Tick(3)), AcquireLate("n", "a", 0),
    Prompt(MarkDraining("n", 100)), Prompt(Tick(8)), Prompt(DoRefresh("n", "a"))]

  lemma LateRefreshFillsDraining()
    ensures var s, t := RunLate(INITIAL, ONE, DRAINED[..5]), RunLate(INITIAL, ONE, DRAINED);
            && Exists(s.draining, "n", s.now) && LiveLeases(s, "n") == {}
            && Exists(t.draining, "n", t.now) && LiveLeases(t, "n") == {"a"}
  {
    hide RunLate, ApplyLate;
    var a := LateAcquire();
    var p := State(0, map["n" := 100], map[], map[], map[]);
    var drained := a.(draining := map["n" := 100]);
    var c := drained.(now := 11);
    LateBeat();
    LateTick(p, 3);
    LateMark(a);
    LateTick(drained, 8);
    LastOnDraining(c);
    forall rest: seq<LateOp>
      ensures RunLate(INITIAL, ONE, DRAINED[..5] + rest) == RunLate(c, ONE, rest)
    {
      OneThen(INITIAL, ONE, DRAINED[0], DRAINED[1..5] + rest);
      OneThen(p, ONE, DRAINED[1], DRAINED[2..5] + rest);
      OneThen(p.(now := 3), ONE, DRAINED[2], DRAINED[3..5] + rest);
      OneThen(a, ONE, DRAINED[3], DRAINED[4..5] + rest);
      OneThen(drained, ONE, DRAINED[4], rest);
      assert DRAINED[..5] + rest == [DRAINED[0]] + (DRAINED[1..5] + rest);
      assert DRAINED[1..5] + rest == [DRAINED[1]] + (DRAINED[2..5] + rest);
      assert DRAINED[2..5] + rest == [DRAINED[2]] + (DRAINED[3..5] + rest);
      assert DRAINED[3..5] + rest == [DRAINED[3]] + (DRAINED[4..5] + rest);
      assert DRAINED[4..5] + rest == [DRAINED[4]] + rest;
    }
    assert DRAINED[..5] + [] == DRAINED[..5] && DRAINED[..5] + [DRAINED[5]] == DRAINED;
    assert [DRAINED[5]] + [] == [DRAINED[5]];
    OneThen(c, ONE, DRAINED[5], []);
    NothingLeft(c, ONE);
    NothingLeft(ApplyLate(c, ONE, DRAINED[5]), ONE);
  }

  lemma LateMark(s: State)
    ensures ApplyLate(s, ONE, Prompt(MarkDraining("n", 100))) == s.(draining := s.draining["n" := 100])
  {
  }

  lemma LastOnDraining(c: State)
    requires c == State(11, map["n" := 100], map["n" := 100], map["n" := ZKey(map["a" := 10], Some(13))],
                        map["a" := Owner("n", 13)])
    ensures var t := ApplyLate(c, ONE, Prompt(DoRefresh("n", "a")));
            && Exists(c.draining, "n", c.now) && LiveLeases(c, "n") == {}
            && Exists(t.draining, "n", t.now) && LiveLeases(t, "n") == {"a"}
  {
    TouchAtEffect(c, ONE, "n", "a", 11);
  }

  lemma LateTick(s: State, elapsed: nat)
    ensures ApplyLate(s, ONE, Prompt(Tick(elapsed))) == s.(now := s.now + elapsed)
  {
  }

  lemma LateBeat()
    ensures ApplyLate(INITIAL, ONE, Prompt(Heartbeat("n", 100))) == State(0, map["n" := 100], map[], map[], map[])
  {
  }

  lemma NothingLeft(s: State, cfg: Config)
    ensures RunLate(s, cfg, []) == s
  {
  }

  lemma LastRefresh(c: State, d: State)
    requires c == State(12, map["n" := 100], map[], map["n" := ZKey(map["b" := 21], Some(21))],
                        map["a" := Owner("n", 13), "b" := Owner("n", 21)])
    requires d == ApplyLate(c, ONE, Prompt(DoRefresh("n", "a")))
    ensures LiveLeases(d, "n") == {"a", "b"}
  {
    TouchAtEffect(c, ONE, "n", "a", 12);
    assert LiveLeases(c, "n") == {"b"};
  }
}
