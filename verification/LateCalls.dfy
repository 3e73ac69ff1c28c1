/** Call leases whose callers read the clock before their script reaches Redis
    (server/internal/integrations/redis/cache.go:136-137, 190). Acquires count members, lapsed ones
    included, so the limit survives any delay of theirs; only a refresh can break it. */
module LateCalls {
  import opened Basics
  import opened RedisKeys
  import opened FixedWindow
  import opened CallLeases

  /** Any step of the prompt system, or an acquire or a refresh that carries an earlier reading. */
  datatype LateOp = Prompt(op: Op) | AcquireLate(id: string, at: int) | RefreshLate(id: string, at: int)

  function ApplyLate(s: State, cfg: Config, op: LateOp): State {
    match op
    case Prompt(o) => Apply(s, cfg, o)
    case AcquireLate(id, at) => if at <= s.now then AcquireAt(s, cfg, id, at).0 else s
    case RefreshLate(id, at) => if at <= s.now then WriteLeaseAt(s, cfg, id, at) else s
  }

  /** The members of the set: live leases and those not yet pruned. */
  function Members(s: State): set<string> { Scores(s.leases, s.now).Keys }

  /** The lease a step refreshes, whatever its reading. */
  function RefreshOf(s: State, op: LateOp): Option<string> {
    match op
    case RefreshLate(id, at) => if at <= s.now then Some(id) else None
    case Prompt(DoRefresh(id)) => Some(id)
    case _ => None
  }

  /** What a caller would have to check before a refresh: a member already, or fewer than the limit. */
  predicate RefreshFinds(s: State, cfg: Config, op: LateOp) {
    var id := RefreshOf(s, op);
    id.Some? ==> id.value in Members(s) || |Members(s)| < cfg.maxConcurrent
  }

  lemma WriteAddsMember(s: State, cfg: Config, id: string, at: int)
    requires cfg.ttl > 0
    ensures Members(WriteLeaseAt(s, cfg, id, at)) == Members(s) + {id}
  {
    assert Scores(WriteLeaseAt(s, cfg, id, at).leases, s.now) == Scores(s.leases, s.now)[id := at + cfg.ttl];
  }

  lemma AcquireStaysWithin(s: State, cfg: Config, id: string, at: int)
    requires ValidConfig(cfg) && |Members(s)| <= cfg.maxConcurrent
    ensures |Members(AcquireAt(s, cfg, id, at).0)| <= cfg.maxConcurrent
  {
    var pruned := s.(leases := ZRemRangeByScore(s.leases, s.now, at));
    var counted := pruned.(cps := Some(Hit(s.cps, s.now, CPS_WINDOW)));
    SubsetCardinality(Members(pruned), Members(s));
    assert Members(counted) == Members(pruned);
    CardIsMembers(counted);
    WriteAddsMember(pruned, cfg, id, at);
    WriteAddsMember(counted, cfg, id, at);
    assert id in Members(pruned) ==> Members(pruned) + {id} == Members(pruned);
    hide WriteLeaseAt, Members, ZCard;
  }

  lemma CardIsMembers(s: State)
    ensures ZCard(s.leases, s.now) == |Members(s)|
  {
    var scores := Scores(s.leases, s.now);
    assert |scores.Keys| == |scores|;
  }

  lemma WriteWithinExactlyWhen(s: State, cfg: Config, id: string, at: int)
    requires ValidConfig(cfg) && |Members(s)| <= cfg.maxConcurrent
    ensures |Members(WriteLeaseAt(s, cfg, id, at))| <= cfg.maxConcurrent
            <==> id in Members(s) || |Members(s)| < cfg.maxConcurrent
  {
    WriteAddsMember(s, cfg, id, at);
    assert id in Members(s) ==> Members(s) + {id} == Members(s);
  }

  lemma BindStaysWithin(s: State, lease: string, call: string)
    ensures |Members(Bind(s, lease, call).0)| <= |Members(s)|
  {
    if lease in Members(s) {
      var removed := ZRem(s.leases, s.now, lease);
      assert Scores(removed, s.now) == Scores(s.leases, s.now) - {lease};
      assert Members(Bind(s, lease, call).0) == Members(s) - {lease} + {call};
      assert |Members(s) - {lease}| == |Members(s)| - 1;
    }
  }

  lemma OthersStayWithin(s: State, cfg: Config, op: Op)
    requires !op.DoAcquire? && !op.DoRefresh?
    ensures |Members(Apply(s, cfg, op))| <= |Members(s)|
  {
    if op.DoBind? {
      BindStaysWithin(s, op.lease, op.call);
    } else {
      SubsetCardinality(Members(Apply(s, cfg, op)), Members(s));
    }
  }

  /** From a set within the limit, a step stays within it if and only if it is not a refresh of a newcomer to
      a full set. */
  lemma StepWithinExactlyWhen(s: State, cfg: Config, op: LateOp)
    requires ValidConfig(cfg) && |Members(s)| <= cfg.maxConcurrent
    ensures |Members(ApplyLate(s, cfg, op))| <= cfg.maxConcurrent <==> RefreshFinds(s, cfg, op)
  {
    hide Members, AcquireAt, WriteLeaseAt, Bind, Release;
    match op {
      case AcquireLate(id, at) => if at <= s.now { AcquireStaysWithin(s, cfg, id, at); }
      case RefreshLate(id, at) => if at <= s.now { WriteWithinExactlyWhen(s, cfg, id, at); }
      case Prompt(o) =>
        if o.DoAcquire? {
          AcquireStaysWithin(s, cfg, o.id, s.now);
        } else if o.DoRefresh? {
          WriteWithinExactlyWhen(s, cfg, o.id, s.now);
        } else {
          OthersStayWithin(s, cfg, o);
        }
    }
  }

  predicate AllFind(s: State, cfg: Config, ops: seq<LateOp>)
    decreases |ops|
  {
    ops == [] || (RefreshFinds(s, cfg, ops[0]) && AllFind(ApplyLate(s, cfg, ops[0]), cfg, ops[1..]))
  }

  predicate AlwaysWithinLate(s: State, cfg: Config, ops: seq<LateOp>)
    decreases |ops|
  {
    |Members(s)| <= cfg.maxConcurrent && (ops == [] || AlwaysWithinLate(ApplyLate(s, cfg, ops[0]), cfg, ops[1..]))
  }

  lemma {:induction false} FromWithinLate(s: State, cfg: Config, ops: seq<LateOp>)
    requires ValidConfig(cfg) && |Members(s)| <= cfg.maxConcurrent
    ensures AlwaysWithinLate(s, cfg, ops) <==> AllFind(s, cfg, ops)
    decreases |ops|
  {
    hide Members, ApplyLate, RefreshFinds;
    if ops != [] {
      StepWithinExactlyWhen(s, cfg, ops[0]);
      if RefreshFinds(s, cfg, ops[0]) {
        FromWithinLate(ApplyLate(s, cfg, ops[0]), cfg, ops[1..]);
      } else {
        assert !AlwaysWithinLate(ApplyLate(s, cfg, ops[0]), cfg, ops[1..]);
      }
    }
  }

  /** However late the scripts run, the set is within the limit in every state of a run if and only if every
      refresh in it finds its lease there or room for it. No delay of an acquire matters. */
  lemma MembersWithinExactlyWhen(cfg: Config, ops: seq<LateOp>)
    requires ValidConfig(cfg)
    ensures AlwaysWithinLate(INITIAL, cfg, ops) <==> AllFind(INITIAL, cfg, ops)
  {
    hide AlwaysWithinLate, AllFind;
    assert Members(INITIAL) == {};
    FromWithinLate(INITIAL, cfg, ops);
  }

  function RunLate(s: State, cfg: Config, ops: seq<LateOp>): State
    decreases |ops|
  {
    if ops == [] then s else RunLate(ApplyLate(s, cfg, ops[0]), cfg, ops[1..])
  }

  lemma {:induction false} EndWithin(s: State, cfg: Config, ops: seq<LateOp>)
    requires AlwaysWithinLate(s, cfg, ops)
    ensures |Members(RunLate(s, cfg, ops))| <= cfg.maxConcurrent
    decreases |ops|
  {
    hide Members, ApplyLate;
    if ops != [] { EndWithin(ApplyLate(s, cfg, ops[0]), cfg, ops[1..]); }
  }

  /** So live leases stay within the limit in every run of late acquires, binds and releases, and of
      refreshes that find their lease or room. */
  lemma LimitSurvivesLateAcquires(cfg: Config, ops: seq<LateOp>)
    requires ValidConfig(cfg) && AllFind(INITIAL, cfg, ops)
    ensures |Live(RunLate(INITIAL, cfg, ops))| <= cfg.maxConcurrent
  {
    hide AlwaysWithinLate, AllFind, RunLate;
    MembersWithinExactlyWhen(cfg, ops);
    EndWithin(INITIAL, cfg, ops);
    var s := RunLate(INITIAL, cfg, ops);
    SubsetCardinality(Live(s), Members(s));
  }
}
