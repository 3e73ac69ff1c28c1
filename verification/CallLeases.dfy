/** Trunk admission (server/internal/integrations/redis/cache.go): a per-second counter and a capped
    set of call leases per trunk. Each script is one atomic step, and the two commands of a refresh
    run at one instant. */
module CallLeases {
  import opened Basics
  import opened RedisKeys
  import opened FixedWindow

  datatype Config = Config(ttl: int, maxCPS: int, maxConcurrent: int)

  predicate ValidConfig(cfg: Config) {
    cfg.ttl > 0 && cfg.maxCPS > 0 && cfg.maxConcurrent > 0
  }

  const CPS_WINDOW := 1000

  datatype State = State(now: int, cps: Option<Window>, leases: ZKey)

  datatype Reason = Cps | Concurrent | Ok

  const INITIAL := State(0, None, ABSENT)

  function Live(s: State): set<string> {
    LiveMembers(s.leases, s.now)
  }

  // `at` is the clock reading a caller took before its script reached Redis: it sets the score and the bound
  // of the prune, while the counter and the expiries go by Redis's own instant.

  function WriteLeaseAt(s: State, cfg: Config, id: string, at: int): State {
    s.(leases := PExpire(ZAdd(s.leases, s.now, id, at + cfg.ttl), s.now, cfg.ttl))
  }

  function AcquireAt(s: State, cfg: Config, id: string, at: int): (State, Reason) {
    var pruned := s.(leases := ZRemRangeByScore(s.leases, s.now, at));
    if ZScore(pruned.leases, s.now, id).Some? then (WriteLeaseAt(pruned, cfg, id, at), Ok) else
      var counted := pruned.(cps := Some(Hit(s.cps, s.now, CPS_WINDOW)));
      if counted.cps.value.count > cfg.maxCPS then (counted, Cps)
      else if ZCard(counted.leases, s.now) >= cfg.maxConcurrent then (counted, Concurrent)
      else (WriteLeaseAt(counted, cfg, id, at), Ok)
  }

  // The same with a reading of the script's own instant.

  function WriteLease(s: State, cfg: Config, id: string): State { WriteLeaseAt(s, cfg, id, s.now) }

  function Acquire(s: State, cfg: Config, id: string): (State, Reason) { AcquireAt(s, cfg, id, s.now) }

  function Bind(s: State, lease: string, call: string): (State, bool) {
    match ZScore(s.leases, s.now, lease)
    case None => (s, false)
    case Some(score) => (s.(leases := ZAdd(ZRem(s.leases, s.now, lease), s.now, call, score)), true)
  }

  function Release(s: State, id: string): State {
    s.(leases := ZRem(s.leases, s.now, id))
  }

  function Refresh(s: State, cfg: Config, id: string): State {
    WriteLease(s, cfg, id)
  }

  datatype Op =
    | Tick(elapsed: nat)
    | DoAcquire(id: string)
    | DoBind(lease: string, call: string)
    | DoRelease(id: string)
    | DoRefresh(id: string)

  function Apply(s: State, cfg: Config, op: Op): State {
    match op
    case Tick(elapsed) => s.(now := s.now + elapsed)
    case DoAcquire(id) => Acquire(s, cfg, id).0
    case DoBind(lease, call) => Bind(s, lease, call).0
    case DoRelease(id) => Release(s, id)
    case DoRefresh(id) => Refresh(s, cfg, id)
  }

  function Run(s: State, cfg: Config, ops: seq<Op>): State
    decreases |ops|
  {
    if ops == [] then s else Run(Apply(s, cfg, ops[0]), cfg, ops[1..])
  }

  // ---- the set key outlives its members ----

  ghost predicate KeyInv(k: ZKey, now: int, ttl: int) {
    && (forall m :: m in k.score ==> k.score[m] <= now + ttl)
    && (k.expiry.Some? ==> forall m :: m in k.score ==> k.score[m] <= k.expiry.value)
  }

  lemma ApplyKeepsKey(s: State, cfg: Config, op: Op)
    requires ValidConfig(cfg) && KeyInv(s.leases, s.now, cfg.ttl)
    ensures var t := Apply(s, cfg, op); KeyInv(t.leases, t.now, cfg.ttl)
  {
  }

  lemma {:induction false} RunKeepsKey(s: State, cfg: Config, ops: seq<Op>)
    requires ValidConfig(cfg) && KeyInv(s.leases, s.now, cfg.ttl)
    ensures var t := Run(s, cfg, ops); KeyInv(t.leases, t.now, cfg.ttl)
    decreases |ops|
  {
    if ops != [] {
      ApplyKeepsKey(s, cfg, ops[0]);
      RunKeepsKey(Apply(s, cfg, ops[0]), cfg, ops[1..]);
    }
  }

  /** In every run, whatever is refreshed, the key's own expiry is no earlier than any score in it,
      so a lease whose score lies ahead is always still found. */
  lemma KeyExpiryDropsNoLease(cfg: Config, ops: seq<Op>, id: string)
    requires ValidConfig(cfg)
    ensures var k := Run(INITIAL, cfg, ops).leases;
            && (k.expiry.Some? && id in k.score ==> k.score[id] <= k.expiry.value)
            && (id in k.score && k.score[id] > Run(INITIAL, cfg, ops).now ==> id in Live(Run(INITIAL, cfg, ops)))
  {
    RunKeepsKey(INITIAL, cfg, ops);
  }

  // ---- the concurrent-call limit ----

  /** The condition a caller of RefreshCallLease can check: the lease is live, or there is room for it. */
  predicate RefreshFits(s: State, cfg: Config, id: string) {
    id in Live(s) || |Live(s)| < cfg.maxConcurrent
  }

  lemma WriteLeaseEffect(s: State, cfg: Config, id: string)
    requires ValidConfig(cfg)
    ensures Live(WriteLease(s, cfg, id)) == Live(s) + {id}
  {
    assert id in Scores(s.leases, s.now)[id := s.now + cfg.ttl];
    assert Scores(WriteLease(s, cfg, id).leases, s.now) == Scores(s.leases, s.now)[id := s.now + cfg.ttl];
  }

  /** A refresh checks no limit. It stays within the limit exactly when the lease is live already
      or there is room for one more. */
  lemma RefreshKeepsLimitExactlyWhen(s: State, cfg: Config, id: string)
    requires ValidConfig(cfg) && |Live(s)| <= cfg.maxConcurrent
    ensures |Live(Refresh(s, cfg, id))| <= cfg.maxConcurrent <==> RefreshFits(s, cfg, id)
  {
    WriteLeaseEffect(s, cfg, id);
    assert id in Live(s) ==> Live(s) + {id} == Live(s);
  }

  /** A run that does go over: with room for one call, acquire one lease and refresh another. */
  lemma RefreshCanExceedLimit()
    ensures var cfg := Config(10, 1, 1);
            Live(Run(INITIAL, cfg, [DoAcquire("a"), DoRefresh("b")])) == {"a", "b"}
  {
    var cfg := Config(10, 1, 1);
    var acquired := Apply(INITIAL, cfg, DoAcquire("a"));
    AcquireEffect(INITIAL, cfg, "a");
    assert Acquire(INITIAL, cfg, "a").1 == Ok;
    WriteLeaseEffect(acquired, cfg, "b");
    var ops := [DoAcquire("a"), DoRefresh("b")];
    assert ops[1..] == [DoRefresh("b")] && ops[1..][1..] == [];
    assert Live(INITIAL) == {};
  }

  /** The counter has run out, or has not yet counted as many as a window may hold. */
  predicate RateLeft(s: State, cfg: Config) {
    s.cps.None? || s.cps.value.expiry <= s.now || s.cps.value.count < cfg.maxCPS
  }

  /** An acquire is granted exactly when the lease is live, or both limits leave room, and refused for the rate
      first; only a granted acquire changes which leases are live. */
  lemma AcquireEffect(s: State, cfg: Config, id: string)
    requires ValidConfig(cfg)
    ensures var (t, reason) := Acquire(s, cfg, id);
            && Live(t) == (if reason == Ok then Live(s) + {id} else Live(s))
            && reason == if id in Live(s) then Ok
                         else if !RateLeft(s, cfg) then Cps
                         else if |Live(s)| < cfg.maxConcurrent then Ok
                         else Concurrent
  {
    PrunedCardinality(s.leases, s.now);
    var pruned := s.(leases := ZRemRangeByScore(s.leases, s.now, s.now));
    WriteLeaseEffect(pruned, cfg, id);
    WriteLeaseEffect(pruned.(cps := Some(Hit(s.cps, s.now, CPS_WINDOW))), cfg, id);
  }

  /** Binding renames a live lease; it neither frees nor takes capacity, unless the call already
      held a lease of its own, which the bound one then replaces. */
  lemma BindRenames(s: State, lease: string, call: string)
    requires lease in Live(s)
    ensures Bind(s, lease, call).1
    ensures Live(Bind(s, lease, call).0) == Live(s) - {lease} + {call}
  {
    var removed := ZRem(s.leases, s.now, lease);
    assert Scores(removed, s.now) == Scores(s.leases, s.now) - {lease};
  }

  /** Only a lease that is still a member can be bound, and otherwise nothing changes. */
  lemma BindNeverGrows(s: State, lease: string, call: string)
    ensures Bind(s, lease, call).1 <==> lease in Scores(s.leases, s.now)
    ensures !Bind(s, lease, call).1 ==> Bind(s, lease, call).0 == s
    ensures |Live(Bind(s, lease, call).0)| <= |Live(s)|
  {
    if lease in Live(s) {
      BindRenames(s, lease, call);
      assert |Live(s) - {lease}| == |Live(s)| - 1;
    } else {
      var removed := ZRem(s.leases, s.now, lease);
      assert Scores(removed, s.now) == Scores(s.leases, s.now) - {lease};
      SubsetCardinality(Live(Bind(s, lease, call).0), Live(s));
    }
  }

  /** Renaming the only member deletes and recreates the key, which then has no expiry of its own. */
  lemma BindDropsKeyExpiryExactlyWhen(s: State, lease: string, call: string)
    requires Current(s.leases, s.now).expiry.Some? && lease in Scores(s.leases, s.now)
    ensures Bind(s, lease, call).0.leases.expiry.None? <==> Scores(s.leases, s.now).Keys == {lease}
  {
    var scores := Scores(s.leases, s.now);
    assert (scores - {lease}).Keys == scores.Keys - {lease};
    assert scores - {lease} == map[] <==> (scores - {lease}).Keys == {};
  }

  lemma FirstAcquire(cfg: Config)
    requires ValidConfig(cfg)
    ensures Apply(INITIAL, cfg, DoAcquire("a"))
            == State(0, Some(Window(1, CPS_WINDOW)), ZKey(map["a" := cfg.ttl], Some(cfg.ttl)))
  {
  }

  /** It does happen: acquire one lease and bind it. The call is live, and its key has no expiry. */
  lemma BindDropsKeyExpiry(cfg: Config)
    requires ValidConfig(cfg)
    ensures var s := Run(INITIAL, cfg, [DoAcquire("a"), DoBind("a", "b")]);
            Live(s) == {"b"} && s.leases.expiry == None
  {
    hide Acquire, Bind;
    var acquired := Apply(INITIAL, cfg, DoAcquire("a"));
    FirstAcquire(cfg);
    TwoSteps(INITIAL, cfg, DoAcquire("a"), DoBind("a", "b"));
    BindRenames(acquired, "a", "b");
    BindDropsKeyExpiryExactlyWhen(acquired, "a", "b");
  }

  lemma TwoSteps(s: State, cfg: Config, a: Op, b: Op)
    ensures Run(s, cfg, [a, b]) == Apply(Apply(s, cfg, a), cfg, b)
  {
    hide Apply;
    assert [a, b][1..] == [b] && [b][1..] == [];
    assert Run(Apply(s, cfg, a), cfg, [b]) == Apply(Apply(s, cfg, a), cfg, b);
  }

  /** Every refresh in the run fits when it is made. */
  predicate RefreshesFit(s: State, cfg: Config, ops: seq<Op>)
    decreases |ops|
  {
    ops == [] ||
    ((ops[0].DoRefresh? ==> RefreshFits(s, cfg, ops[0].id)) && RefreshesFit(Apply(s, cfg, ops[0]), cfg, ops[1..]))
  }

  lemma ApplyKeepsLimit(s: State, cfg: Config, op: Op)
    requires ValidConfig(cfg) && |Live(s)| <= cfg.maxConcurrent
    requires op.DoRefresh? ==> RefreshFits(s, cfg, op.id)
    ensures |Live(Apply(s, cfg, op))| <= cfg.maxConcurrent
  {
    match op {
      case Tick(elapsed) => LiveMembersShrink(s.leases, s.now, s.now + elapsed);
      case DoAcquire(id) =>
        AcquireEffect(s, cfg, id);
        assert id in Live(s) ==> Live(s) + {id} == Live(s);
      case DoBind(lease, call) => BindNeverGrows(s, lease, call);
      case DoRelease(id) => SubsetCardinality(Live(Release(s, id)), Live(s));
      case DoRefresh(id) => RefreshKeepsLimitExactlyWhen(s, cfg, id);
    }
  }

  lemma {:induction false} RunKeepsLimit(s: State, cfg: Config, ops: seq<Op>)
    requires ValidConfig(cfg) && |Live(s)| <= cfg.maxConcurrent && RefreshesFit(s, cfg, ops)
    ensures |Live(Run(s, cfg, ops))| <= cfg.maxConcurrent
    decreases |ops|
  {
    if ops != [] {
      ApplyKeepsLimit(s, cfg, ops[0]);
      RunKeepsLimit(Apply(s, cfg, ops[0]), cfg, ops[1..]);
    }
  }

  /** Live calls never exceed the limit, in any run whose refreshes are of live leases or fit. */
  lemma ConcurrentLimitHolds(cfg: Config, ops: seq<Op>)
    requires ValidConfig(cfg) && RefreshesFit(INITIAL, cfg, ops)
    ensures |Live(Run(INITIAL, cfg, ops))| <= cfg.maxConcurrent
  {
    assert Live(INITIAL) == {};
    RunKeepsLimit(INITIAL, cfg, ops);
  }

  ghost predicate AlwaysWithin(s: State, cfg: Config, ops: seq<Op>)
    decreases |ops|
  {
    |Live(s)| <= cfg.maxConcurrent && (ops == [] || AlwaysWithin(Apply(s, cfg, ops[0]), cfg, ops[1..]))
  }

  lemma {:induction false} FromWithin(s: State, cfg: Config, ops: seq<Op>)
    requires ValidConfig(cfg) && |Live(s)| <= cfg.maxConcurrent
    ensures AlwaysWithin(s, cfg, ops) <==> RefreshesFit(s, cfg, ops)
    decreases |ops|
  {
    hide Live, Acquire, Bind, Release, WriteLease, RefreshFits;
    if ops != [] {
      if ops[0].DoRefresh? && !RefreshFits(s, cfg, ops[0].id) {
        RefreshKeepsLimitExactlyWhen(s, cfg, ops[0].id);
        assert !AlwaysWithin(Apply(s, cfg, ops[0]), cfg, ops[1..]);
      } else {
        ApplyKeepsLimit(s, cfg, ops[0]);
        FromWithin(Apply(s, cfg, ops[0]), cfg, ops[1..]);
      }
    }
  }

  /** Every state of a run is within the limit if and only if every refresh in it is of a live lease or finds
      room when it is made. */
  lemma ConcurrentLimitExactlyWhen(cfg: Config, ops: seq<Op>)
    requires ValidConfig(cfg)
    ensures AlwaysWithin(INITIAL, cfg, ops) <==> RefreshesFit(INITIAL, cfg, ops)
  {
    assert Live(INITIAL) == {};
    FromWithin(INITIAL, cfg, ops);
  }

  // ---- the per-second limit ----

  predicate AdmitsNew(s: State, cfg: Config, op: Op) {
    op.DoAcquire? && Acquire(s, cfg, op.id).1 == Ok && op.id !in Live(s)
  }

  /** New leases admitted at an instant in [from, from + 1000]. */
  function Admissions(s: State, cfg: Config, ops: seq<Op>, from: int): nat
    decreases |ops|
  {
    if ops == [] then 0 else
      (if AdmitsNew(s, cfg, ops[0]) && from <= s.now <= from + CPS_WINDOW then 1 else 0)
      + Admissions(Apply(s, cfg, ops[0]), cfg, ops[1..], from)
  }

  lemma ApplyKeepsAccount(s: State, cfg: Config, op: Op, from: int, granted: nat)
    requires ValidConfig(cfg) && Accounts(s.cps, s.now, CPS_WINDOW, cfg.maxCPS, from, granted)
    ensures var g := granted + (if AdmitsNew(s, cfg, op) && from <= s.now <= from + CPS_WINDOW then 1 else 0);
            exists h: nat :: g <= h &&
                Accounts(Apply(s, cfg, op).cps, Apply(s, cfg, op).now, CPS_WINDOW, cfg.maxCPS, from, h)
  {
    match op {
      case DoAcquire(id) =>
        PrunedCardinality(s.leases, s.now);
        HitKeepsAccount(s.cps, s.now, s.now, CPS_WINDOW, cfg.maxCPS, from, granted);
        var w := Hit(s.cps, s.now, CPS_WINDOW);
        var h := granted + (if w.count <= cfg.maxCPS && from <= s.now <= from + CPS_WINDOW then 1 else 0);
        var t := Apply(s, cfg, op);
        if id in Live(s) {
          assert Accounts(t.cps, t.now, CPS_WINDOW, cfg.maxCPS, from, granted);
        } else {
          assert Accounts(t.cps, t.now, CPS_WINDOW, cfg.maxCPS, from, h);
        }
      case _ =>
        var t := Apply(s, cfg, op);
        assert Accounts(t.cps, t.now, CPS_WINDOW, cfg.maxCPS, from, granted);
    }
  }

  lemma {:induction false} AdmissionsWithinAccount(s: State, cfg: Config, ops: seq<Op>, from: int, granted: nat)
    requires ValidConfig(cfg) && Accounts(s.cps, s.now, CPS_WINDOW, cfg.maxCPS, from, granted)
    ensures granted + Admissions(s, cfg, ops, from) <= 2 * cfg.maxCPS
    decreases |ops|
  {
    if ops != [] {
      ApplyKeepsAccount(s, cfg, ops[0], from, granted);
      var t := Apply(s, cfg, ops[0]);
      var g := granted + (if AdmitsNew(s, cfg, ops[0]) && from <= s.now <= from + CPS_WINDOW then 1 else 0);
      var h: nat :| g <= h && Accounts(t.cps, t.now, CPS_WINDOW, cfg.maxCPS, from, h);
      AdmissionsWithinAccount(t, cfg, ops[1..], from, h);
    }
  }

  /** In every run, whatever else happens, any 1000 ms admit at most 2 * maxCPS new leases. */
  lemma AdmissionRateBounded(cfg: Config, ops: seq<Op>, from: int)
    requires ValidConfig(cfg)
    ensures Admissions(INITIAL, cfg, ops, from) <= 2 * cfg.maxCPS
  {
    AdmissionsWithinAccount(INITIAL, cfg, ops, from, 0);
  }

  // ---- the commands as they run ----

  class CallLeaseStore {
    var now: int
    var cps: Option<Window>
    var leases: ZKey
    const cfg: Config

    constructor (cfg: Config)
      ensures View() == INITIAL && this.cfg == cfg
    {
      this.cfg := cfg;
      now, cps, leases := 0, None, ABSENT;
    }

    function View(): State
      reads this
    {
      State(now, cps, leases)
    }

    method AcquireCallLease(id: string, at: int) returns (reason: Reason)
      modifies this
      ensures (View(), reason) == AcquireAt(old(View()), cfg, id, at)
    {
      leases := ZRemRangeByScore(leases, now, at);
      if ZScore(leases, now, id).Some? {
        leases := ZAdd(leases, now, id, at + cfg.ttl);
        leases := PExpire(leases, now, cfg.ttl);
        return Ok;
      }
      var current := 1;
      if cps.Some? && now < cps.value.expiry {
        current := cps.value.count + 1;
        cps := Some(Window(current, cps.value.expiry));
      } else {
        cps := Some(Window(1, now + CPS_WINDOW));
      }
      if current > cfg.maxCPS { return Cps; }
      if ZCard(leases, now) >= cfg.maxConcurrent { return Concurrent; }
      leases := ZAdd(leases, now, id, at + cfg.ttl);
      leases := PExpire(leases, now, cfg.ttl);
      return Ok;
    }

    method BindCallLease(lease: string, call: string) returns (bound: bool)
      modifies this
      ensures (View(), bound) == Bind(old(View()), lease, call)
    {
      var score := ZScore(leases, now, lease);
      if score.None? { return false; }
      leases := ZRem(leases, now, lease);
      leases := ZAdd(leases, now, call, score.value);
      return true;
    }

    method ReleaseCallLease(id: string)
      modifies this
      ensures View() == Release(old(View()), id)
    {
      leases := ZRem(leases, now, id);
    }

    method RefreshCallLease(id: string, at: int)
      modifies this
      ensures View() == WriteLeaseAt(old(View()), cfg, id, at)
    {
      leases := ZAdd(leases, now, id, at + cfg.ttl);
      leases := PExpire(leases, now, cfg.ttl);
    }
  }
}
