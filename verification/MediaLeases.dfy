/** Media node leases (server/internal/integrations/redis/media.go).
    Each Lua script is one atomic step over the keys of the registry: a heartbeat key and a
    draining key per node, a sorted set of leases per node, and an owner key per session.
    Time is one monotone clock in milliseconds. */
module MediaLeases {
  import opened Basics
  import opened RedisKeys

  type NodeId = string
  type SessionId = string

  datatype Config = Config(ttl: int, capacity: NodeId -> int)

  ghost predicate ValidConfig(cfg: Config) {
    cfg.ttl > 0 && forall n :: cfg.capacity(n) > 0
  }

  datatype Owner = Owner(node: NodeId, expiry: int)

  datatype State = State(
    now: int,
    heartbeats: map<NodeId, int>,
    draining: map<NodeId, int>,
    leases: map<NodeId, ZKey>,
    owners: map<SessionId, Owner>)

  datatype Reason = Missing | Draining | Owned | Capacity | Ok

  const INITIAL := State(0, map[], map[], map[], map[])

  predicate Exists(keys: map<string, int>, key: string, now: int) {
    key in keys && now < keys[key]
  }

  function Leases(s: State, node: NodeId): ZKey {
    if node in s.leases then s.leases[node] else ABSENT
  }

  /** GET ownerKey. */
  function GetOwner(s: State, session: SessionId): Option<NodeId> {
    if session in s.owners && s.now < s.owners[session].expiry then Some(s.owners[session].node) else None
  }

  function LiveLeases(s: State, node: NodeId): set<SessionId> {
    LiveMembers(Leases(s, node), s.now)
  }

  // ---- the scripts ----

  // `at` is the clock reading a caller took before its script reached Redis: it sets the scores and the
  // bound of the prune, while Redis applies expiries at its own instant.

  function TouchAt(s: State, cfg: Config, node: NodeId, session: SessionId, at: int): State {
    var key := PExpire(ZAdd(Leases(s, node), s.now, session, at + cfg.ttl), s.now, cfg.ttl);
    s.(leases := s.leases[node := key],
       owners := s.owners[session := Owner(node, s.now + cfg.ttl)])
  }

  function AcquireAt(s: State, cfg: Config, node: NodeId, session: SessionId, at: int): (State, Reason) {
    if !Exists(s.heartbeats, node, s.now) then (s, Missing)
    else if Exists(s.draining, node, s.now) then (s, Draining)
    else match GetOwner(s, session)
      case Some(owner) =>
        if owner != node then (s, Owned) else (TouchAt(s, cfg, node, session, at), Ok)
      case None =>
        var pruned := Prune(s, node, at);
        if ZCard(Leases(pruned, node), s.now) >= cfg.capacity(node) then (pruned, Capacity)
        else (TouchAt(pruned, cfg, node, session, at), Ok)
  }

  function RefreshAt(s: State, cfg: Config, node: NodeId, session: SessionId, at: int): (State, bool) {
    if !Exists(s.heartbeats, node, s.now) || GetOwner(s, session) != Some(node) then (s, false)
    else (TouchAt(s, cfg, node, session, at), true)
  }

  // The same with a reading of the script's own instant.

  function Touch(s: State, cfg: Config, node: NodeId, session: SessionId): State {
    TouchAt(s, cfg, node, session, s.now)
  }

  function Acquire(s: State, cfg: Config, node: NodeId, session: SessionId): (State, Reason) {
    AcquireAt(s, cfg, node, session, s.now)
  }

  function Refresh(s: State, cfg: Config, node: NodeId, session: SessionId): (State, bool) {
    RefreshAt(s, cfg, node, session, s.now)
  }

  function Release(s: State, node: NodeId, session: SessionId): State {
    var removed := s.(leases := s.leases[node := ZRem(Leases(s, node), s.now, session)]);
    if GetOwner(s, session) == Some(node) then removed.(owners := s.owners - {session}) else removed
  }

  function Prune(s: State, node: NodeId, upTo: int): State {
    s.(leases := s.leases[node := ZRemRangeByScore(Leases(s, node), s.now, upTo)])
  }

  // ---- runs ----

  /** One step of the system: a script, a heartbeat write, or the passing of time.
      `upTo` is the clock reading a count took before its prune reached Redis. */
  datatype Op =
    | Tick(elapsed: nat)
    | DoAcquire(node: NodeId, session: SessionId)
    | DoRefresh(node: NodeId, session: SessionId)
    | DoRelease(node: NodeId, session: SessionId)
    | DoPrune(node: NodeId, upTo: int)
    | Heartbeat(node: NodeId, expiry: int)
    | MarkDraining(node: NodeId, expiry: int)
    | ClearDraining(node: NodeId)
    | RemoveNode(node: NodeId)

  function Apply(s: State, cfg: Config, op: Op): State {
    match op
    case Tick(elapsed) => s.(now := s.now + elapsed)
    case DoAcquire(node, session) => Acquire(s, cfg, node, session).0
    case DoRefresh(node, session) => Refresh(s, cfg, node, session).0
    case DoRelease(node, session) => Release(s, node, session)
    case DoPrune(node, upTo) => if upTo <= s.now then Prune(s, node, upTo) else s
    case Heartbeat(node, expiry) => s.(heartbeats := s.heartbeats[node := expiry])
    case MarkDraining(node, expiry) => s.(draining := s.draining[node := expiry])
    case ClearDraining(node) => s.(draining := s.draining - {node})
    case RemoveNode(node) => s.(heartbeats := s.heartbeats - {node}, draining := s.draining - {node})
  }

  function Run(s: State, cfg: Config, ops: seq<Op>): State
    decreases |ops|
  {
    if ops == [] then s else Run(Apply(s, cfg, ops[0]), cfg, ops[1..])
  }

  // ---- the coupling of the two data structures ----

  /** The lease of `session` on `node` is live and runs out at `expiry`. */
  predicate LeasedUntil(s: State, node: NodeId, session: SessionId, expiry: int) {
    var scores := Scores(Leases(s, node), s.now);
    session in scores && scores[session] == expiry && s.now < expiry
  }

  /** The owner key of `session` is live, names `node` and runs out at `expiry`. */
  predicate OwnedUntil(s: State, node: NodeId, session: SessionId, expiry: int) {
    GetOwner(s, session) == Some(node) && s.owners[session].expiry == expiry
  }

  ghost predicate Coupled(s: State) {
    forall node, session, expiry ::
      LeasedUntil(s, node, session, expiry) <==> OwnedUntil(s, node, session, expiry)
  }

  /** A lease key outlives its members, and nothing runs further ahead than one ttl. */
  predicate KeyOutlivesMembers(k: ZKey, now: int, ttl: int) {
    var c := Current(k, now);
    c.score != map[] ==>
      c.expiry.Some? && c.expiry.value <= now + ttl && forall m :: m in c.score ==> c.score[m] <= c.expiry.value
  }

  ghost predicate Inv(s: State, cfg: Config) {
    && Coupled(s)
    && (forall node :: KeyOutlivesMembers(Leases(s, node), s.now, cfg.ttl))
    && (forall node :: |LiveLeases(s, node)| <= cfg.capacity(node))
  }

  lemma TickKeepsInvariant(s: State, cfg: Config, elapsed: nat)
    requires ValidConfig(cfg) && Inv(s, cfg)
    ensures Inv(s.(now := s.now + elapsed), cfg)
  {
    var t := s.(now := s.now + elapsed);
    forall node
      ensures KeyOutlivesMembers(Leases(t, node), t.now, cfg.ttl)
      ensures |LiveLeases(t, node)| <= cfg.capacity(node)
    {
      assert KeyOutlivesMembers(Leases(s, node), s.now, cfg.ttl);
      LiveMembersShrink(Leases(s, node), s.now, t.now);
    }
    forall node, session, expiry
      ensures LeasedUntil(t, node, session, expiry) <==> OwnedUntil(t, node, session, expiry)
    {
      assert KeyOutlivesMembers(Leases(s, node), s.now, cfg.ttl);
      assert LeasedUntil(s, node, session, expiry) <==> OwnedUntil(s, node, session, expiry);
    }
  }

  lemma PruneKeepsInvariant(s: State, cfg: Config, node: NodeId, upTo: int)
    requires ValidConfig(cfg) && Inv(s, cfg) && upTo <= s.now
    ensures Inv(Prune(s, node, upTo), cfg)
    ensures forall n :: LiveLeases(Prune(s, node, upTo), n) == LiveLeases(s, n)
  {
    var t := Prune(s, node, upTo);
    forall n
      ensures LiveLeases(t, n) == LiveLeases(s, n)
      ensures KeyOutlivesMembers(Leases(t, n), t.now, cfg.ttl)
    {
      assert KeyOutlivesMembers(Leases(s, n), s.now, cfg.ttl);
    }
    forall n, session, expiry
      ensures LeasedUntil(t, n, session, expiry) <==> OwnedUntil(t, n, session, expiry)
    {
      assert LeasedUntil(s, n, session, expiry) <==> OwnedUntil(s, n, session, expiry);
    }
  }

  /** What writing a lease and its owner key does to the live leases of every node. */
  lemma TouchEffect(s: State, cfg: Config, node: NodeId, session: SessionId)
    requires ValidConfig(cfg) && Inv(s, cfg)
    ensures LiveLeases(Touch(s, cfg, node, session), node) == LiveLeases(s, node) + {session}
    ensures forall n :: n != node ==> LiveLeases(Touch(s, cfg, node, session), n) == LiveLeases(s, n)
  {
    var t := Touch(s, cfg, node, session);
    assert KeyOutlivesMembers(Leases(s, node), s.now, cfg.ttl);
    assert Scores(Leases(t, node), t.now) == Scores(Leases(s, node), s.now)[session := s.now + cfg.ttl];
  }

  lemma TouchKeepsKeys(s: State, cfg: Config, node: NodeId, session: SessionId)
    requires ValidConfig(cfg) && Inv(s, cfg)
    requires session in LiveLeases(s, node) || |LiveLeases(s, node)| < cfg.capacity(node)
    ensures forall n :: KeyOutlivesMembers(Leases(Touch(s, cfg, node, session), n), s.now, cfg.ttl)
    ensures forall n :: |LiveLeases(Touch(s, cfg, node, session), n)| <= cfg.capacity(n)
  {
    hide Coupled;
    var t := Touch(s, cfg, node, session);
    TouchEffect(s, cfg, node, session);
    forall n
      ensures KeyOutlivesMembers(Leases(t, n), t.now, cfg.ttl)
      ensures |LiveLeases(t, n)| <= cfg.capacity(n)
    {
      assert KeyOutlivesMembers(Leases(s, n), s.now, cfg.ttl);
      if n == node && session in LiveLeases(s, node) { assert LiveLeases(t, n) == LiveLeases(s, n); }
    }
  }

  lemma TouchKeepsCoupling(s: State, cfg: Config, node: NodeId, session: SessionId)
    requires ValidConfig(cfg) && Inv(s, cfg) && (GetOwner(s, session).Some? ==> GetOwner(s, session).value == node)
    ensures Coupled(Touch(s, cfg, node, session))
  {
    var t := Touch(s, cfg, node, session);
    forall n, x, expiry
      ensures LeasedUntil(t, n, x, expiry) <==> OwnedUntil(t, n, x, expiry)
    {
      assert KeyOutlivesMembers(Leases(s, n), s.now, cfg.ttl);
      assert LeasedUntil(s, n, x, expiry) <==> OwnedUntil(s, n, x, expiry);
      if x == session && n != node && x in LiveLeases(s, n) {
        assert LeasedUntil(s, n, x, Scores(Leases(s, n), s.now)[x]);
      }
    }
  }

  /** The step both re-acquire and first acquire end with. It is sound when the session is either
      already leased on this very node, or leased nowhere and the node has room. */
  lemma TouchKeepsInvariant(s: State, cfg: Config, node: NodeId, session: SessionId)
    requires ValidConfig(cfg) && Inv(s, cfg)
    requires GetOwner(s, session) == Some(node)
          || (GetOwner(s, session) == None && |LiveLeases(s, node)| < cfg.capacity(node))
    ensures Inv(Touch(s, cfg, node, session), cfg)
  {
    assert session in LiveLeases(s, node) || |LiveLeases(s, node)| < cfg.capacity(node) by {
      if GetOwner(s, session) == Some(node) { assert LeasedUntil(s, node, session, s.owners[session].expiry); }
    }
    hide LiveLeases, KeyOutlivesMembers, LeasedUntil, OwnedUntil;
    TouchKeepsKeys(s, cfg, node, session);
    TouchKeepsCoupling(s, cfg, node, session);
  }

  lemma AcquireKeepsInvariant(s: State, cfg: Config, node: NodeId, session: SessionId)
    requires ValidConfig(cfg) && Inv(s, cfg)
    ensures Inv(Acquire(s, cfg, node, session).0, cfg)
  {
    if Exists(s.heartbeats, node, s.now) && !Exists(s.draining, node, s.now) {
      match GetOwner(s, session) {
        case Some(owner) => if owner == node { TouchKeepsInvariant(s, cfg, node, session); }
        case None =>
          PruneKeepsInvariant(s, cfg, node, s.now);
          PrunedCardinality(Leases(s, node), s.now);
          var pruned := Prune(s, node, s.now);
          if ZCard(Leases(pruned, node), s.now) < cfg.capacity(node) {
            TouchKeepsInvariant(pruned, cfg, node, session);
          }
      }
    }
  }

  lemma PruneTakesNoTime(s: State, node: NodeId, upTo: int)
    ensures Prune(s, node, upTo).now == s.now
  {
  }

  ghost predicate Adds(s: State, t: State, node: NodeId, added: set<SessionId>) {
    && LiveLeases(t, node) == LiveLeases(s, node) + added
    && forall n :: n != node ==> LiveLeases(t, n) == LiveLeases(s, n)
  }

  lemma AddsNone(s: State, node: NodeId)
    ensures Adds(s, s, node, {})
  {
  }

  lemma TouchAdds(s: State, cfg: Config, node: NodeId, session: SessionId)
    requires ValidConfig(cfg) && Inv(s, cfg)
    ensures Adds(s, Touch(s, cfg, node, session), node, {session})
    ensures Adds(s, Prune(s, node, s.now), node, {})
    ensures Adds(s, TouchAt(Prune(s, node, s.now), cfg, node, session, s.now), node, {session})
  {
    hide Inv, ValidConfig, TouchAt, Prune, LiveLeases;
    TouchEffect(s, cfg, node, session);
    PruneKeepsInvariant(s, cfg, node, s.now);
    PruneTakesNoTime(s, node, s.now);
    TouchEffect(Prune(s, node, s.now), cfg, node, session);
  }

  /** An acquire adds the session to that node when granted, and changes no other live lease. */
  lemma AcquireEffect(s: State, cfg: Config, node: NodeId, session: SessionId)
    requires ValidConfig(cfg) && Inv(s, cfg)
    ensures var (t, reason) := Acquire(s, cfg, node, session);
            && LiveLeases(t, node) == LiveLeases(s, node) + (if reason == Ok then {session} else {})
            && forall n :: n != node ==> LiveLeases(t, n) == LiveLeases(s, n)
  {
    AcquireAdds(s, cfg, node, session);
    hide Acquire, Inv, ValidConfig, LiveLeases;
  }

  lemma AcquireAdds(s: State, cfg: Config, node: NodeId, session: SessionId)
    requires ValidConfig(cfg) && Inv(s, cfg)
    ensures var (t, reason) := Acquire(s, cfg, node, session);
            Adds(s, t, node, if reason == Ok then {session} else {})
  {
    hide Adds, Inv, ValidConfig, TouchAt, Prune, LiveLeases, Leases, Exists, GetOwner, ZCard;
    TouchAdds(s, cfg, node, session);
    AddsNone(s, node);
  }

  lemma ReleaseEffect(s: State, node: NodeId, session: SessionId)
    ensures var t := Release(s, node, session);
            && Scores(Leases(t, node), t.now) == Scores(Leases(s, node), s.now) - {session}
            && LiveLeases(t, node) == LiveLeases(s, node) - {session}
            && forall n :: n != node ==> Leases(t, n) == Leases(s, n)
  {
    var t := Release(s, node, session);
    assert Leases(t, node) == ZRem(Leases(s, node), s.now, session);
  }

  lemma ReleaseKeepsKeys(s: State, cfg: Config, node: NodeId, session: SessionId, n: NodeId)
    requires KeyOutlivesMembers(Leases(s, n), s.now, cfg.ttl)
    ensures KeyOutlivesMembers(Leases(Release(s, node, session), n), s.now, cfg.ttl)
  {
    if n == node {
      assert Leases(Release(s, node, session), n) == ZRem(Leases(s, n), s.now, session);
    }
  }

  lemma ReleaseKeepsCoupling(s: State, node: NodeId, session: SessionId, n: NodeId, x: SessionId, expiry: int)
    requires LeasedUntil(s, n, x, expiry) <==> OwnedUntil(s, n, x, expiry)
    ensures var t := Release(s, node, session);
            LeasedUntil(t, n, x, expiry) <==> OwnedUntil(t, n, x, expiry)
  {
    ReleaseEffect(s, node, session);
  }

  lemma ReleaseKeepsInvariant(s: State, cfg: Config, node: NodeId, session: SessionId)
    requires ValidConfig(cfg) && Inv(s, cfg)
    ensures Inv(Release(s, node, session), cfg)
  {
    var t := Release(s, node, session);
    ReleaseEffect(s, node, session);
    forall n
      ensures KeyOutlivesMembers(Leases(t, n), t.now, cfg.ttl)
      ensures |LiveLeases(t, n)| <= cfg.capacity(n)
    {
      ReleaseKeepsKeys(s, cfg, node, session, n);
      SubsetCardinality(LiveLeases(t, n), LiveLeases(s, n));
    }
    forall n, x, expiry
      ensures LeasedUntil(t, n, x, expiry) <==> OwnedUntil(t, n, x, expiry)
    {
      assert LeasedUntil(s, n, x, expiry) <==> OwnedUntil(s, n, x, expiry);
      ReleaseKeepsCoupling(s, node, session, n, x, expiry);
    }
  }

  lemma ApplyKeepsInvariant(s: State, cfg: Config, op: Op)
    requires ValidConfig(cfg) && Inv(s, cfg)
    ensures Inv(Apply(s, cfg, op), cfg)
  {
    match op {
      case Tick(elapsed) => TickKeepsInvariant(s, cfg, elapsed);
      case DoAcquire(node, session) => AcquireKeepsInvariant(s, cfg, node, session);
      case DoRefresh(node, session) =>
        if Refresh(s, cfg, node, session).1 { TouchKeepsInvariant(s, cfg, node, session); }
      case DoRelease(node, session) => ReleaseKeepsInvariant(s, cfg, node, session);
      case DoPrune(node, upTo) => if upTo <= s.now { PruneKeepsInvariant(s, cfg, node, upTo); }
      case _ =>
        var t := Apply(s, cfg, op);
        assert forall n :: Leases(t, n) == Leases(s, n);
        forall n, x, expiry
          ensures LeasedUntil(t, n, x, expiry) <==> OwnedUntil(t, n, x, expiry)
        {
          assert LeasedUntil(s, n, x, expiry) <==> OwnedUntil(s, n, x, expiry);
        }
        forall n ensures KeyOutlivesMembers(Leases(t, n), t.now, cfg.ttl) && |LiveLeases(t, n)| <= cfg.capacity(n) {
          assert KeyOutlivesMembers(Leases(s, n), s.now, cfg.ttl) && |LiveLeases(s, n)| <= cfg.capacity(n);
        }
    }
  }

  lemma {:induction false} RunKeepsInvariant(s: State, cfg: Config, ops: seq<Op>)
    requires ValidConfig(cfg) && Inv(s, cfg)
    ensures Inv(Run(s, cfg, ops), cfg)
    decreases |ops|
  {
    if ops != [] {
      ApplyKeepsInvariant(s, cfg, ops[0]);
      RunKeepsInvariant(Apply(s, cfg, ops[0]), cfg, ops[1..]);
    }
  }

  lemma ReachableInvariant(cfg: Config, ops: seq<Op>)
    requires ValidConfig(cfg)
    ensures Inv(Run(INITIAL, cfg, ops), cfg)
  {
    assert forall n :: LiveLeases(INITIAL, n) == {};
    RunKeepsInvariant(INITIAL, cfg, ops);
  }

  // ---- what the registry promises, over every run ----

  /** A session has a live lease in a node's set exactly when its owner key is live and names
      that node, and both run out at the same instant. */
  lemma LeaseExactlyWhenOwned(cfg: Config, ops: seq<Op>, node: NodeId, session: SessionId, expiry: int)
    requires ValidConfig(cfg)
    ensures var s := Run(INITIAL, cfg, ops);
            LeasedUntil(s, node, session, expiry) <==> OwnedUntil(s, node, session, expiry)
  {
    ReachableInvariant(cfg, ops);
  }

  lemma NeverLeasedTwice(cfg: Config, ops: seq<Op>, session: SessionId, a: NodeId, b: NodeId)
    requires ValidConfig(cfg)
    requires session in LiveLeases(Run(INITIAL, cfg, ops), a)
    requires session in LiveLeases(Run(INITIAL, cfg, ops), b)
    ensures a == b
  {
    var s := Run(INITIAL, cfg, ops);
    ReachableInvariant(cfg, ops);
    assert LeasedUntil(s, a, session, Scores(Leases(s, a), s.now)[session]);
    assert LeasedUntil(s, b, session, Scores(Leases(s, b), s.now)[session]);
  }

  lemma CapacityNeverExceeded(cfg: Config, ops: seq<Op>, node: NodeId)
    requires ValidConfig(cfg)
    ensures |LiveLeases(Run(INITIAL, cfg, ops), node)| <= cfg.capacity(node)
  {
    ReachableInvariant(cfg, ops);
  }

  lemma RefreshEffect(s: State, cfg: Config, n: NodeId, session: SessionId, node: NodeId)
    requires ValidConfig(cfg) && Inv(s, cfg)
    ensures LiveLeases(Refresh(s, cfg, n, session).0, node) == LiveLeases(s, node)
  {
    if Refresh(s, cfg, n, session).1 {
      assert LeasedUntil(s, n, session, s.owners[session].expiry);
      TouchEffect(s, cfg, n, session);
    }
  }

  lemma DrainingStep(s: State, cfg: Config, op: Op, node: NodeId)
    requires ValidConfig(cfg) && Inv(s, cfg) && Exists(s.draining, node, s.now)
    ensures LiveLeases(Apply(s, cfg, op), node) <= LiveLeases(s, node)
  {
    hide Inv, Prune, Refresh;
    match op {
      case Tick(elapsed) => LiveMembersShrink(Leases(s, node), s.now, s.now + elapsed);
      case DoAcquire(n, session) => AcquireEffect(s, cfg, n, session);
      case DoRefresh(n, session) => RefreshEffect(s, cfg, n, session, node);
      case DoRelease(n, session) => ReleaseEffect(s, n, session);
      case DoPrune(n, upTo) => if upTo <= s.now { PruneKeepsInvariant(s, cfg, n, upTo); }
      case _ =>
    }
  }

  /** Whatever step comes next, a node whose draining key is live gains no lease. */
  lemma DrainingNodeNeverGains(cfg: Config, ops: seq<Op>, op: Op, node: NodeId)
    requires ValidConfig(cfg)
    requires var s := Run(INITIAL, cfg, ops); Exists(s.draining, node, s.now)
    ensures var s := Run(INITIAL, cfg, ops); LiveLeases(Apply(s, cfg, op), node) <= LiveLeases(s, node)
  {
    hide Run, Inv, Apply;
    ReachableInvariant(cfg, ops);
    DrainingStep(Run(INITIAL, cfg, ops), cfg, op, node);
  }

  /** A session without a live owner is leased nowhere; one with a live owner is leased there, and only there. */
  lemma OwnerSaysWhereLeased(s: State, cfg: Config, session: SessionId, node: NodeId)
    requires Inv(s, cfg)
    ensures session in LiveLeases(s, node) <==> GetOwner(s, session) == Some(node)
  {
    if session in LiveLeases(s, node) {
      assert LeasedUntil(s, node, session, Scores(Leases(s, node), s.now)[session]);
    }
    if GetOwner(s, session) == Some(node) {
      assert OwnedUntil(s, node, session, s.owners[session].expiry);
    }
  }

  /** A node whose leases nobody renews for one ttl has no lease key left, stale members included. */
  lemma SilentKeysVanish(cfg: Config, ops: seq<Op>, node: NodeId, elapsed: nat)
    requires ValidConfig(cfg) && elapsed >= cfg.ttl
    ensures var s := Apply(Run(INITIAL, cfg, ops), cfg, Tick(elapsed)); Scores(Leases(s, node), s.now) == map[]
  {
    hide Run, Coupled;
    ReachableInvariant(cfg, ops);
    var s := Run(INITIAL, cfg, ops);
    assert KeyOutlivesMembers(Leases(s, node), s.now, cfg.ttl);
  }

  /** Exactly when an acquire is granted, in terms of live leases only: stale members and
      expired keys never matter to the answer. */
  lemma AcquireGrantedExactlyWhen(cfg: Config, ops: seq<Op>, node: NodeId, session: SessionId)
    requires ValidConfig(cfg)
    ensures var s := Run(INITIAL, cfg, ops);
            Acquire(s, cfg, node, session).1 == Ok <==>
              && Exists(s.heartbeats, node, s.now)
              && !Exists(s.draining, node, s.now)
              && (session in LiveLeases(s, node)
                  || ((forall n :: session !in LiveLeases(s, n)) && |LiveLeases(s, node)| < cfg.capacity(node)))
  {
    var s := Run(INITIAL, cfg, ops);
    ReachableInvariant(cfg, ops);
    CountIsExact(s, node);
    forall n ensures session in LiveLeases(s, n) <==> GetOwner(s, session) == Some(n) {
      OwnerSaysWhereLeased(s, cfg, session, n);
    }
    var owner := GetOwner(s, session);
    if owner.Some? {
      assert session in LiveLeases(s, owner.value);
    }
  }

  /** Why an acquire is refused, first reason first, again in terms of live leases only. */
  lemma AcquireRefusedFor(cfg: Config, ops: seq<Op>, node: NodeId, session: SessionId)
    requires ValidConfig(cfg)
    ensures var s := Run(INITIAL, cfg, ops);
            var (t, reason) := Acquire(s, cfg, node, session);
            && (reason == Missing <==> !Exists(s.heartbeats, node, s.now))
            && (reason == Draining <==> Exists(s.heartbeats, node, s.now) && Exists(s.draining, node, s.now))
            && (reason == Owned <==>
                  && Exists(s.heartbeats, node, s.now) && !Exists(s.draining, node, s.now)
                  && exists n :: n != node && session in LiveLeases(s, n))
            && (reason != Ok ==> forall n :: LiveLeases(t, n) == LiveLeases(s, n))
  {
    hide Run, LiveLeases, Coupled;
    var s := Run(INITIAL, cfg, ops);
    ReachableInvariant(cfg, ops);
    AcquireEffect(s, cfg, node, session);
    forall n ensures session in LiveLeases(s, n) <==> GetOwner(s, session) == Some(n) {
      OwnerSaysWhereLeased(s, cfg, session, n);
    }
  }

  // ---- a node comes and goes ----

  lemma {:induction false} TwoMore(s: State, cfg: Config, ops: seq<Op>, a: Op, b: Op)
    ensures Run(s, cfg, ops + [a, b]) == Apply(Apply(Run(s, cfg, ops), cfg, a), cfg, b)
    decreases |ops|
  {
    hide Apply;
    if ops == [] {
      assert ops + [a, b] == [a, b] && [a, b][1..] == [b] && [b][1..] == [];
      assert Run(Apply(s, cfg, a), cfg, [b]) == Apply(Apply(s, cfg, a), cfg, b);
    } else {
      assert (ops + [a, b])[1..] == ops[1..] + [a, b];
      TwoMore(Apply(s, cfg, ops[0]), cfg, ops[1..], a, b);
    }
  }

  /** The node has the session already, or none has it and there is room. */
  ghost predicate RoomFor(s: State, cfg: Config, node: NodeId, session: SessionId) {
    || session in LiveLeases(s, node)
    || ((forall n :: session !in LiveLeases(s, n)) && |LiveLeases(s, node)| < cfg.capacity(node))
  }

  lemma UpTakes(cfg: Config, ops: seq<Op>, a: Op, b: Op, node: NodeId, session: SessionId)
    requires ValidConfig(cfg)
    requires var s := Run(INITIAL, cfg, ops);
             var t := Apply(Apply(s, cfg, a), cfg, b);
             && t.leases == s.leases && t.now == s.now
             && Exists(t.heartbeats, node, t.now) && !Exists(t.draining, node, t.now)
    ensures var s := Run(INITIAL, cfg, ops);
            Acquire(Apply(Apply(s, cfg, a), cfg, b), cfg, node, session).1 == Ok <==> RoomFor(s, cfg, node, session)
  {
    hide Run, Apply, Acquire, Exists;
    var s := Run(INITIAL, cfg, ops);
    var t := Apply(Apply(s, cfg, a), cfg, b);
    TwoMore(INITIAL, cfg, ops, a, b);
    AcquireGrantedExactlyWhen(cfg, ops + [a, b], node, session);
    assert forall n :: LiveLeases(t, n) == LiveLeases(s, n);
  }

  /** A removed node takes no session; one that registers anew with a heartbeat is not draining, and takes any
      it has room for; so does one whose draining was called off, and a draining one takes none. */
  lemma NodeComesAndGoes(cfg: Config, ops: seq<Op>, node: NodeId, session: SessionId, expiry: int)
    requires ValidConfig(cfg) && Run(INITIAL, cfg, ops).now < expiry
    ensures var s := Run(INITIAL, cfg, ops);
            var removed, up := Apply(s, cfg, RemoveNode(node)), Apply(s, cfg, Heartbeat(node, expiry));
            var anew := Apply(removed, cfg, Heartbeat(node, expiry));
            var draining, cleared := Apply(up, cfg, MarkDraining(node, expiry)), Apply(up, cfg, ClearDraining(node));
            && Acquire(removed, cfg, node, session).1 == Missing
            && Acquire(draining, cfg, node, session).1 == Draining
            && (Acquire(anew, cfg, node, session).1 == Ok <==> RoomFor(s, cfg, node, session))
            && (Acquire(cleared, cfg, node, session).1 == Ok <==> RoomFor(s, cfg, node, session))
  {
    hide Run, TouchAt, Prune, RoomFor, GetOwner, ZCard;
    UpTakes(cfg, ops, RemoveNode(node), Heartbeat(node, expiry), node, session);
    UpTakes(cfg, ops, Heartbeat(node, expiry), ClearDraining(node), node, session);
  }

  /** A granted acquire leaves the session leased on that node, until one ttl from now. */
  lemma AcquireGrants(cfg: Config, ops: seq<Op>, node: NodeId, session: SessionId)
    requires ValidConfig(cfg)
    requires Acquire(Run(INITIAL, cfg, ops), cfg, node, session).1 == Ok
    ensures var s := Run(INITIAL, cfg, ops);
            LeasedUntil(Acquire(s, cfg, node, session).0, node, session, s.now + cfg.ttl)
  {
    var s := Run(INITIAL, cfg, ops);
    ReachableInvariant(cfg, ops);
    AcquireKeepsInvariant(s, cfg, node, session);
    var t := Acquire(s, cfg, node, session).0;
    assert OwnedUntil(t, node, session, s.now + cfg.ttl);
  }

  /** A refresh is granted exactly to a session that is leased on that node, while the node is up, and then keeps
      it leased until one ttl from now; refused, it changes nothing. */
  lemma RefreshRenewsExactlyWhen(cfg: Config, ops: seq<Op>, node: NodeId, session: SessionId)
    requires ValidConfig(cfg)
    ensures var s := Run(INITIAL, cfg, ops);
            var (t, ok) := Refresh(s, cfg, node, session);
            && (ok <==> Exists(s.heartbeats, node, s.now) && session in LiveLeases(s, node))
            && (ok ==> LeasedUntil(t, node, session, s.now + cfg.ttl))
            && (!ok ==> t == s)
  {
    hide Run;
    var s := Run(INITIAL, cfg, ops);
    ReachableInvariant(cfg, ops);
    OwnerSaysWhereLeased(s, cfg, session, node);
    hide Coupled;
    var t := Refresh(s, cfg, node, session).0;
    if GetOwner(s, session) == Some(node) {
      assert Scores(Touch(s, cfg, node, session).leases[node], s.now)
          == Scores(Leases(s, node), s.now)[session := s.now + cfg.ttl];
    }
  }

  /** Releasing a session that was added to one node, by whatever step, restores what was live before. */
  lemma ReleaseRestores(s: State, added: State, node: NodeId, session: SessionId, expiry: int)
    requires added.now == s.now && added.owners == s.owners[session := Owner(node, expiry)] && s.now < expiry
    requires LiveLeases(added, node) == LiveLeases(s, node) + {session} && session !in LiveLeases(s, node)
    requires forall n :: n != node ==> LiveLeases(added, n) == LiveLeases(s, n)
    requires GetOwner(s, session) == None
    ensures var t := Release(added, node, session);
            && (forall n :: LiveLeases(t, n) == LiveLeases(s, n))
            && (forall x :: GetOwner(t, x) == GetOwner(s, x))
  {
    ReleaseEffect(added, node, session);
  }

  lemma FirstAcquireWrites(s: State, cfg: Config, node: NodeId, session: SessionId)
    requires GetOwner(s, session) == None && Acquire(s, cfg, node, session).1 == Ok
    ensures var t := Acquire(s, cfg, node, session).0;
            t.now == s.now && t.owners == s.owners[session := Owner(node, s.now + cfg.ttl)]
  {
    hide Leases, ZAdd, PExpire, ZRemRangeByScore, ZCard, GetOwner, Exists;
  }

  /** Release undoes a first acquire: every live lease and every live owner is as it was. */
  lemma ReleaseUndoesAcquire(cfg: Config, ops: seq<Op>, node: NodeId, session: SessionId)
    requires ValidConfig(cfg)
    requires var s := Run(INITIAL, cfg, ops);
             GetOwner(s, session) == None && Acquire(s, cfg, node, session).1 == Ok
    ensures var s := Run(INITIAL, cfg, ops);
            var t := Release(Acquire(s, cfg, node, session).0, node, session);
            && (forall n :: LiveLeases(t, n) == LiveLeases(s, n))
            && (forall x :: GetOwner(t, x) == GetOwner(s, x))
  {
    hide Run, Inv, Acquire, LiveLeases, GetOwner, Release;
    var s := Run(INITIAL, cfg, ops);
    ReachableInvariant(cfg, ops);
    var granted := Acquire(s, cfg, node, session).0;
    FirstAcquireWrites(s, cfg, node, session);
    AcquireEffect(s, cfg, node, session);
    OwnerSaysWhereLeased(s, cfg, session, node);
    ReleaseRestores(s, granted, node, session, s.now + cfg.ttl);
  }

  /** A count whose prune runs at its own clock reading reports exactly the live leases. */
  lemma CountIsExact(s: State, node: NodeId)
    ensures ZCard(Leases(Prune(s, node, s.now), node), s.now) == |LiveLeases(s, node)|
  {
    PrunedCardinality(Leases(s, node), s.now);
  }

  // ---- the scripts as they run, command by command ----

  class MediaLeaseStore {
    var now: int
    var heartbeats: map<NodeId, int>
    var draining: map<NodeId, int>
    var leases: map<NodeId, ZKey>
    var owners: map<SessionId, Owner>
    const cfg: Config

    constructor (cfg: Config)
      ensures View() == INITIAL && this.cfg == cfg
    {
      this.cfg := cfg;
      now, heartbeats, draining, leases, owners := 0, map[], map[], map[], map[];
    }

    function View(): State
      reads this
    {
      State(now, heartbeats, draining, leases, owners)
    }

    function Key(node: NodeId): ZKey
      reads this
    {
      if node in leases then leases[node] else ABSENT
    }

    /** ZADD, then PEXPIRE, on the node's lease set. */
    method WriteLease(node: NodeId, session: SessionId, at: int)
      modifies this`leases
      ensures leases == old(leases)[node := PExpire(ZAdd(old(Key(node)), now, session, at + cfg.ttl), now, cfg.ttl)]
    {
      leases := leases[node := ZAdd(Key(node), now, session, at + cfg.ttl)];
      leases := leases[node := PExpire(Key(node), now, cfg.ttl)];
    }

    method AcquireMediaLease(node: NodeId, session: SessionId, at: int) returns (reason: Reason)
      modifies this
      ensures View() == AcquireAt(old(View()), cfg, node, session, at).0
      ensures reason == AcquireAt(old(View()), cfg, node, session, at).1
    {
      hide ZRemRangeByScore, ZAdd, PExpire, ZCard;
      if !Exists(heartbeats, node, now) { return Missing; }
      if Exists(draining, node, now) { return Draining; }
      if session in owners && now < owners[session].expiry {
        if owners[session].node != node { return Owned; }
        WriteLease(node, session, at);
        owners := owners[session := owners[session].(expiry := now + cfg.ttl)];
        return Ok;
      }
      leases := leases[node := ZRemRangeByScore(Key(node), now, at)];
      if ZCard(Key(node), now) >= cfg.capacity(node) { return Capacity; }
      WriteLease(node, session, at);
      owners := owners[session := Owner(node, now + cfg.ttl)];
      return Ok;
    }

    method RefreshMediaLease(node: NodeId, session: SessionId, at: int) returns (ok: bool)
      modifies this
      ensures (View(), ok) == RefreshAt(old(View()), cfg, node, session, at)
    {
      if !Exists(heartbeats, node, now) { return false; }
      if !(session in owners && now < owners[session].expiry) || owners[session].node != node { return false; }
      WriteLease(node, session, at);
      owners := owners[session := owners[session].(expiry := now + cfg.ttl)];
      return true;
    }

    method ReleaseMediaLease(node: NodeId, session: SessionId)
      modifies this
      ensures View() == Release(old(View()), node, session)
    {
      leases := leases[node := ZRem(Key(node), now, session)];
      if session in owners && now < owners[session].expiry && owners[session].node == node {
        owners := owners - {session};
      }
    }

    /** Prune, then count; both commands at one instant. */
    method CountMediaLeases(node: NodeId) returns (count: nat)
      modifies this
      ensures View() == Prune(old(View()), node, now)
      ensures count == |LiveLeases(old(View()), node)|
    {
      CountIsExact(View(), node);
      leases := leases[node := ZRemRangeByScore(Key(node), now, now)];
      count := ZCard(Key(node), now);
    }
  }
}
