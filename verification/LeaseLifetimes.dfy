/** How long call leases last (server/internal/integrations/redis/cache.go): what each step means for every later
    instant, and which acquires the per-second counter lets through over whole runs. */
module LeaseLifetimes {
  import opened Basics
  import opened RedisKeys
  import opened FixedWindow
  import opened CallLeases

  /** The leases that are live once that much time has passed. */
  function LiveAfter(s: State, elapsed: nat): set<string> { Live(s.(now := s.now + elapsed)) }

  /** With the key outliving its members, a lease is live until its score is reached. */
  lemma LiveUntilScore(k: ZKey, now: int, later: int)
    requires now <= later && (k.expiry.Some? ==> forall m :: m in k.score ==> k.score[m] <= k.expiry.value)
    ensures LiveMembers(k, later) == set m | m in Scores(k, now) && Scores(k, now)[m] > later
  {
  }

  lemma ReachableKey(cfg: Config, ops: seq<Op>)
    requires ValidConfig(cfg)
    ensures var s := Run(INITIAL, cfg, ops); KeyInv(s.leases, s.now, cfg.ttl)
  {
    RunKeepsKey(INITIAL, cfg, ops);
  }

  lemma WrittenLasts(s: State, cfg: Config, id: string, elapsed: nat)
    requires ValidConfig(cfg) && KeyInv(s.leases, s.now, cfg.ttl)
    ensures LiveAfter(WriteLease(s, cfg, id), elapsed)
            == if elapsed < cfg.ttl then LiveAfter(s, elapsed) + {id} else LiveAfter(s, elapsed) - {id}
  {
    var t := WriteLease(s, cfg, id);
    assert id in Scores(s.leases, s.now)[id := s.now + cfg.ttl];
    assert t.leases == ZKey(Scores(s.leases, s.now)[id := s.now + cfg.ttl], Some(s.now + cfg.ttl));
    LiveUntilScore(s.leases, s.now, s.now + elapsed);
    LiveUntilScore(t.leases, s.now, s.now + elapsed);
  }

  lemma PrunedLasts(s: State, cfg: Config, elapsed: nat)
    requires ValidConfig(cfg) && KeyInv(s.leases, s.now, cfg.ttl)
    ensures var t := s.(leases := ZRemRangeByScore(s.leases, s.now, s.now));
            LiveAfter(t, elapsed) == LiveAfter(s, elapsed) && KeyInv(t.leases, t.now, cfg.ttl)
  {
    var t := s.(leases := ZRemRangeByScore(s.leases, s.now, s.now));
    LiveUntilScore(s.leases, s.now, s.now + elapsed);
    LiveUntilScore(t.leases, s.now, s.now + elapsed);
  }

  /** A granted acquire keeps its lease live for one ttl from now, no longer and no shorter unless it is
      renewed, and leaves every other lease the time it had; a refused one changes nothing. */
  lemma AcquireLasts(cfg: Config, ops: seq<Op>, id: string, elapsed: nat)
    requires ValidConfig(cfg)
    ensures var s := Run(INITIAL, cfg, ops);
            var (t, reason) := Acquire(s, cfg, id);
            LiveAfter(t, elapsed) ==
              if reason != Ok then LiveAfter(s, elapsed)
              else if elapsed < cfg.ttl then LiveAfter(s, elapsed) + {id}
              else LiveAfter(s, elapsed) - {id}
  {
    hide Run, WriteLeaseAt, Live, ZCard, ZScore, KeyInv, LiveAfter;
    ReachableKey(cfg, ops);
    var s := Run(INITIAL, cfg, ops);
    PrunedLasts(s, cfg, elapsed);
    var pruned := s.(leases := ZRemRangeByScore(s.leases, s.now, s.now));
    var counted := pruned.(cps := Some(Hit(s.cps, s.now, CPS_WINDOW)));
    CounterAside(pruned, counted.cps, elapsed);
    WrittenLasts(pruned, cfg, id, elapsed);
    WrittenLasts(counted, cfg, id, elapsed);
  }

  lemma CounterAside(s: State, cps: Option<Window>, elapsed: nat)
    ensures LiveAfter(s.(cps := cps), elapsed) == LiveAfter(s, elapsed)
  {
  }

  /** So does a refresh, of whatever lease. */
  lemma RefreshLasts(cfg: Config, ops: seq<Op>, id: string, elapsed: nat)
    requires ValidConfig(cfg)
    ensures var s := Run(INITIAL, cfg, ops);
            LiveAfter(Refresh(s, cfg, id), elapsed) ==
              if elapsed < cfg.ttl then LiveAfter(s, elapsed) + {id} else LiveAfter(s, elapsed) - {id}
  {
    hide Run;
    ReachableKey(cfg, ops);
    WrittenLasts(Run(INITIAL, cfg, ops), cfg, id, elapsed);
  }

  /** A bound lease lives on under the call's name exactly as long as it would have lived under its own. */
  lemma BindLasts(cfg: Config, ops: seq<Op>, lease: string, call: string, elapsed: nat)
    requires ValidConfig(cfg) && lease in Live(Run(INITIAL, cfg, ops))
    ensures var s := Run(INITIAL, cfg, ops);
            LiveAfter(Bind(s, lease, call).0, elapsed) ==
              LiveAfter(s, elapsed) - {lease, call} + (if lease in LiveAfter(s, elapsed) then {call} else {})
  {
    hide Run;
    ReachableKey(cfg, ops);
    var s := Run(INITIAL, cfg, ops);
    var t := Bind(s, lease, call).0;
    var scores := Scores(s.leases, s.now);
    assert Scores(t.leases, s.now) == (scores - {lease})[call := scores[lease]];
    LiveUntilScore(s.leases, s.now, s.now + elapsed);
    LiveUntilScore(t.leases, s.now, s.now + elapsed);
  }

  /** A release ends its lease at once and leaves the others the time they had. */
  lemma ReleaseEnds(cfg: Config, ops: seq<Op>, id: string, elapsed: nat)
    requires ValidConfig(cfg)
    ensures var s := Run(INITIAL, cfg, ops);
            LiveAfter(Release(s, id), elapsed) == LiveAfter(s, elapsed) - {id}
  {
    hide Run;
    ReachableKey(cfg, ops);
    var s := Run(INITIAL, cfg, ops);
    LiveUntilScore(s.leases, s.now, s.now + elapsed);
    LiveUntilScore(Release(s, id).leases, s.now, s.now + elapsed);
  }

  // ---- the rate, over whole runs ----

  /** When the run's acquires of leases that were not live were made: what the counter counts. */
  function Attempts(s: State, cfg: Config, ops: seq<Op>): seq<int>
    decreases |ops|
  {
    if ops == [] then [] else
      (if ops[0].DoAcquire? && ops[0].id !in Live(s) then [s.now] else [])
      + Attempts(Apply(s, cfg, ops[0]), cfg, ops[1..])
  }

  lemma {:induction false} CounterSplits(k: Option<Window>, a: seq<int>, b: seq<int>, length: int)
    ensures Counter(k, a + b, length) == Counter(Counter(k, a, length), b, length)
    decreases |b|
  {
    if b == [] {
      assert a + b == a;
    } else {
      assert (a + b)[..|a + b| - 1] == a + b[..|b| - 1];
      CounterSplits(k, a, b[..|b| - 1], length);
    }
  }

  lemma StepCounts(s: State, cfg: Config, op: Op)
    ensures Apply(s, cfg, op).cps ==
            if op.DoAcquire? && op.id !in Live(s) then Some(Hit(s.cps, s.now, CPS_WINDOW)) else s.cps
  {
    if op.DoAcquire? { PrunedCardinality(s.leases, s.now); }
  }

  lemma {:induction false} RunCounts(s: State, cfg: Config, ops: seq<Op>)
    ensures Run(s, cfg, ops).cps == Counter(s.cps, Attempts(s, cfg, ops), CPS_WINDOW)
    decreases |ops|
  {
    hide Apply, Live, Hit;
    if ops != [] {
      var first := if ops[0].DoAcquire? && ops[0].id !in Live(s) then [s.now] else [];
      StepCounts(s, cfg, ops[0]);
      assert Counter(s.cps, first, CPS_WINDOW) == Apply(s, cfg, ops[0]).cps by {
        if first != [] { OneCounted(s.cps, s.now); }
      }
      RunCounts(Apply(s, cfg, ops[0]), cfg, ops[1..]);
      CounterSplits(s.cps, first, Attempts(Apply(s, cfg, ops[0]), cfg, ops[1..]), CPS_WINDOW);
    }
  }

  lemma OneCounted(k: Option<Window>, now: int)
    ensures Counter(k, [now], CPS_WINDOW) == Some(Hit(k, now, CPS_WINDOW))
  {
    assert [now][..0] == [];
  }

  lemma {:induction false} AttemptsInOrder(s: State, cfg: Config, ops: seq<Op>)
    ensures Nondecreasing(Attempts(s, cfg, ops)) && s.now <= Run(s, cfg, ops).now
    ensures forall t :: t in Attempts(s, cfg, ops) ==> s.now <= t <= Run(s, cfg, ops).now
    decreases |ops|
  {
    hide Live;
    if ops != [] {
      var t := Apply(s, cfg, ops[0]);
      ClockAdvances(s, cfg, ops[0]);
      AttemptsInOrder(t, cfg, ops[1..]);
      hide Apply;
      var rest := Attempts(t, cfg, ops[1..]);
      forall i | 0 <= i < |rest| ensures s.now <= rest[i] { assert rest[i] in rest; }
    }
  }

  lemma ClockAdvances(s: State, cfg: Config, op: Op)
    ensures s.now <= Apply(s, cfg, op).now
  {
  }

  /** Over every run: an acquire of a lease that is not live is let through by the rate if and only if no more
      than maxCPS such acquires, itself included, have been made since its window began, where a window begins
      with the first of them that comes 1000 ms or more after the beginning of the last. */
  lemma AdmittedExactlyWhen(cfg: Config, ops: seq<Op>, id: string)
    requires ValidConfig(cfg) && id !in Live(Run(INITIAL, cfg, ops))
    ensures var s := Run(INITIAL, cfg, ops);
            var times := Attempts(INITIAL, cfg, ops) + [s.now];
            Acquire(s, cfg, id).1 ==
              if Since(times, Start(times, 1000)) > cfg.maxCPS then Cps
              else if |Live(s)| < cfg.maxConcurrent then Ok
              else Concurrent
  {
    hide Run, Live, Acquire, Hit;
    var s := Run(INITIAL, cfg, ops);
    var attempts := Attempts(INITIAL, cfg, ops);
    var times := attempts + [s.now];
    RunCounts(INITIAL, cfg, ops);
    AttemptsInOrder(INITIAL, cfg, ops);
    assert times[..|times| - 1] == attempts;
    forall i | 0 <= i < |attempts| ensures attempts[i] <= s.now { assert attempts[i] in attempts; }
    AllowedExactlyWhen(None, times, CPS_WINDOW, cfg.maxCPS);
    AcquireEffect(s, cfg, id);
    HitMeans(s, cfg);
  }

  lemma HitMeans(s: State, cfg: Config)
    requires ValidConfig(cfg)
    ensures Hit(s.cps, s.now, CPS_WINDOW).count <= cfg.maxCPS <==> RateLeft(s, cfg)
  {
  }
}
