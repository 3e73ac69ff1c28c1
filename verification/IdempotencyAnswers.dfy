/** What Service.Claim answers (server/internal/platform/idempotency/service.go), over whole runs and in terms of
    what was logged; how an abandoned claim is taken over; and that deleting expired records changes nothing. */
module IdempotencyAnswers {
  import opened Basics
  import opened Idempotency

  // ---- the log determines the records ----

  /** When the record that an event is about runs out. */
  function ExpiryOf(token: int, cfg: Config): int { token - cfg.lockTTL + cfg.recordTTL }

  /** A row is what the last event about its key made it; without a row, that record has run out. */
  ghost predicate RowsFollowLog(s: State, cfg: Config, log: seq<Event>) {
    forall k ::
      var last := Latest(log, k);
      if k in s.rows then
        && last.Some? && s.rows[k].expiresAt == ExpiryOf(last.value.token, cfg)
        && (s.rows[k].status.Processing? <==> last.value.Claimed?)
        && (last.value.Claimed? ==> s.rows[k].lockedUntil == last.value.token)
      else last.Some? ==> ExpiryOf(last.value.token, cfg) <= s.now
  }

  lemma Appended(log: seq<Event>, entry: Event)
    ensures forall k :: Latest(log + [entry], k) == if entry.key == k then Some(entry) else Latest(log, k)
  {
    forall k ensures Latest(log + [entry], k) == if entry.key == k then Some(entry) else Latest(log, k) {
      LatestAppended(log, entry, k);
    }
  }

  lemma StepFollowsLog(s: State, cfg: Config, op: Op, log: seq<Event>)
    requires RowsFollowLog(s, cfg, log)
    ensures RowsFollowLog(Apply(s, cfg, op), cfg, log + Logged(s, cfg, op))
  {
    hide Latest;
    var entry := Logged(s, cfg, op);
    if entry == [] { assert log + entry == log; } else { Appended(log, entry[0]); }
  }

  lemma {:induction false} RunFollowsLog(s: State, cfg: Config, ops: seq<Op>, log: seq<Event>)
    requires RowsFollowLog(s, cfg, log)
    ensures RowsFollowLog(Run(s, cfg, ops), cfg, Log(s, cfg, ops, log))
    decreases |ops|
  {
    hide Apply, Logged, RowsFollowLog;
    if ops != [] {
      StepFollowsLog(s, cfg, ops[0], log);
      RunFollowsLog(Apply(s, cfg, ops[0]), cfg, ops[1..], log + Logged(s, cfg, ops[0]));
    }
  }

  // ---- every answer ----

  /** Service.Claim, when nothing runs between its two statements. */
  function Answered(s: State, cfg: Config, key: Key, request: Request): Answer {
    var (claimed, token) := Claim(s, cfg, key, request);
    if token.Some? then Leased(token.value) else Lookup(claimed, key, request)
  }

  /** The answer in terms of the last event about the key: a lease when there is no event, when that event's
      record has run out, or when it is a claim whose token has been reached and the request is the same;
      a conflict when the request is another one; else the stored response, or in progress. */
  lemma AnswerExactly(cfg: Config, ops: seq<Op>, key: Key, request: Request)
    requires ValidConfig(cfg)
    ensures var s := Run(INITIAL, cfg, ops);
            var last := Latest(Log(INITIAL, cfg, ops, []), key);
            var answer := Answered(s, cfg, key, request);
            if last.None? || ExpiryOf(last.value.token, cfg) <= s.now then answer == Leased(s.now + cfg.lockTTL)
            else
              && key in s.rows
              && if s.rows[key].request != request then answer == KeyConflict
                 else if last.value.CompletedBy?
                 then s.rows[key].status.Completed? && answer == Replay(s.rows[key].status.response)
                 else if last.value.token <= s.now then answer == Leased(s.now + cfg.lockTTL)
                 else answer == InProgress
  {
    hide Run, Log, Latest;
    assert RowsFollowLog(INITIAL, cfg, []) by { NothingLogged(cfg); }
    RunFollowsLog(INITIAL, cfg, ops, []);
  }

  lemma NothingLogged(cfg: Config)
    ensures RowsFollowLog(INITIAL, cfg, [])
  {
  }

  /** A caller that lost its claim reads the row some steps later: while the record it lost against lasts it is
      told of a conflict exactly when it asks for something else, and else of that record's response or that
      its holder is still at it; not found only when the record has run out and was deleted. */
  lemma LostClaimIsTold(cfg: Config, ops: seq<Op>, key: Key, request: Request, more: seq<Op>)
    requires ValidConfig(cfg) && Claim(Run(INITIAL, cfg, ops), cfg, key, request).1.None?
    ensures var s := Run(INITIAL, cfg, ops);
            var t := Run(s, cfg, more);
            var answer := Lookup(t, key, request);
            && key in s.rows && (answer == NotFound <==> key !in t.rows)
            && (key !in t.rows ==> s.rows[key].expiresAt <= t.now)
            && (t.now < s.rows[key].expiresAt ==>
                  && (answer == KeyConflict <==> request != s.rows[key].request)
                  && (s.rows[key].status.Completed? && answer != KeyConflict ==>
                        answer == Replay(s.rows[key].status.response)))
  {
    hide Run;
    Idempotency.RunKeepsInvariant(INITIAL, cfg, ops, []);
    var s := Run(INITIAL, cfg, ops);
    if Run(s, cfg, more).now < s.rows[key].expiresAt { UnexpiredRecordKept(s, cfg, more, key); }
  }

  // ---- taking over ----

  lemma {:induction false} LogSplits(s: State, cfg: Config, a: seq<Op>, b: seq<Op>, log: seq<Event>)
    ensures Log(s, cfg, a + b, log) == Log(Run(s, cfg, a), cfg, b, Log(s, cfg, a, log))
    decreases |a|
  {
    hide Apply, Logged;
    if a == [] {
      assert a + b == b;
    } else {
      assert (a + b)[1..] == a[1..] + b;
      LogSplits(Apply(s, cfg, a[0]), cfg, a[1..], b, log + Logged(s, cfg, a[0]));
    }
  }

  lemma {:induction false} LogGrows(s: State, cfg: Config, ops: seq<Op>, log: seq<Event>)
    ensures log <= Log(s, cfg, ops, log)
    decreases |ops|
  {
    hide Apply, Logged;
    if ops != [] { LogGrows(Apply(s, cfg, ops[0]), cfg, ops[1..], log + Logged(s, cfg, ops[0])); }
  }

  /** Once a claim of a key has been logged, no earlier token of that key is the last event's. */
  lemma LaterClaimLasts(log: seq<Event>, key: Key, at: nat, stale: int)
    requires Fenced(log) && at < |log| && log[at].Claimed? && log[at].key == key && stale < log[at].token
    ensures Latest(log, key) != Some(Claimed(key, stale))
  {
    hide Latest;
    if Latest(log, key) == Some(Claimed(key, stale)) {
      var last := LatestIsLast(log, key);
      assert false;
    }
  }

  lemma StaleNeverStored(cfg: Config, ops: seq<Op>, key: Key, request: Request, token: int, stale: int,
      more: seq<Op>, response: Response)
    requires ValidConfig(cfg) && stale < token
    requires Claim(Run(INITIAL, cfg, ops), cfg, key, request).1 == Some(token)
    ensures Complete(Run(INITIAL, cfg, ops + [DoClaim(key, request)] + more), key, request, stale,
                     response).1 != Stored
  {
    hide Run, Log, Claim, Complete, Latest, Fenced;
    var all := ops + [DoClaim(key, request)] + more;
    var before := Log(INITIAL, cfg, ops, []);
    LogSplits(INITIAL, cfg, ops + [DoClaim(key, request)], more, []);
    LogSplits(INITIAL, cfg, ops, [DoClaim(key, request)], []);
    LogOne(Run(INITIAL, cfg, ops), cfg, DoClaim(key, request), before);
    var claimed := Log(INITIAL, cfg, ops + [DoClaim(key, request)], []);
    assert claimed == before + [Claimed(key, token)];
    LogGrows(Run(INITIAL, cfg, ops + [DoClaim(key, request)]), cfg, more, claimed);
    var log := Log(INITIAL, cfg, all, []);
    assert log[|before|] == claimed[|before|];
    Idempotency.RunKeepsInvariant(INITIAL, cfg, all, []);
    LaterClaimLasts(log, key, |before|, stale);
    CompletionStoredExactlyWhen(cfg, all, key, request, stale, response);
  }

  lemma LogOne(s: State, cfg: Config, op: Op, log: seq<Event>)
    ensures Log(s, cfg, [op], log) == log + Logged(s, cfg, op)
  {
    assert [op][1..] == [];
  }

  /** A claim whose holder is silent until its token is reached, while the record lasts: the same request is
      given a new lease with a later token, which completes it, and the old token stores nothing in any
      continuation. */
  lemma AbandonedClaimIsTakenOver(cfg: Config, ops: seq<Op>, key: Key, request: Request, response: Response,
      more: seq<Op>)
    requires ValidConfig(cfg)
    requires var s := Run(INITIAL, cfg, ops);
             var last := Latest(Log(INITIAL, cfg, ops, []), key);
             && last.Some? && last.value.Claimed? && last.value.token <= s.now
             && key in s.rows && s.rows[key].request == request
    ensures var s := Run(INITIAL, cfg, ops);
            var stale := Latest(Log(INITIAL, cfg, ops, []), key).value.token;
            var (taken, token) := Claim(s, cfg, key, request);
            && token == Some(s.now + cfg.lockTTL) && stale < token.value
            && (100 <= response.status <= 599 ==>
                  Complete(taken, key, request, token.value, response).1 == Stored)
            && Complete(Run(INITIAL, cfg, ops + [DoClaim(key, request)] + more), key, request, stale,
                        response).1 != Stored
  {
    hide Run, Log, Latest;
    assert RowsFollowLog(INITIAL, cfg, []) by { NothingLogged(cfg); }
    RunFollowsLog(INITIAL, cfg, ops, []);
    var s := Run(INITIAL, cfg, ops);
    StaleNeverStored(cfg, ops, key, request, s.now + cfg.lockTTL,
        Latest(Log(INITIAL, cfg, ops, []), key).value.token, more, response);
  }

  // ---- deleting expired records ----

  /** The records that have not run out. */
  function Unexpired(s: State): map<Key, Row> {
    map k | k in s.rows && s.now < s.rows[k].expiresAt :: s.rows[k]
  }

  /** The same clock and the same unexpired records. */
  ghost predicate Alike(s: State, t: State) { s.now == t.now && Unexpired(s) == Unexpired(t) }

  lemma AlikeAt(s: State, t: State, key: Key)
    requires Alike(s, t) && key in s.rows && s.now < s.rows[key].expiresAt
    ensures key in t.rows && t.rows[key] == s.rows[key]
  {
    assert key in Unexpired(s);
    assert key in Unexpired(t) && Unexpired(s)[key] == Unexpired(t)[key];
  }

  lemma AlikeWhen(s: State, t: State)
    requires s.now == t.now
    requires forall k :: k in s.rows && s.now < s.rows[k].expiresAt ==> k in t.rows && t.rows[k] == s.rows[k]
    requires forall k :: k in t.rows && t.now < t.rows[k].expiresAt ==> k in s.rows && t.rows[k] == s.rows[k]
    ensures Alike(s, t)
  {
  }

  lemma AlikeHalf(s: State, t: State, cfg: Config, op: Op, k: Key)
    requires Alike(s, t)
    requires k in Apply(s, cfg, op).rows && Apply(s, cfg, op).now < Apply(s, cfg, op).rows[k].expiresAt
    ensures k in Apply(t, cfg, op).rows && Apply(t, cfg, op).rows[k] == Apply(s, cfg, op).rows[k]
  {
    hide Alike, Unexpired;
    assert s.now == t.now by { SameClock(s, t); }
    AlikeBoth(s, t, k);
    match op {
      case DoClaim(key, request) => AlikeBoth(s, t, key);
      case DoComplete(key, request, lease, response) => AlikeBoth(s, t, key);
      case _ =>
    }
  }

  lemma SameClock(s: State, t: State)
    requires Alike(s, t)
    ensures s.now == t.now
  {
  }

  lemma AlikeBoth(s: State, t: State, key: Key)
    requires Alike(s, t)
    ensures key in s.rows && s.now < s.rows[key].expiresAt ==> key in t.rows && t.rows[key] == s.rows[key]
    ensures key in t.rows && t.now < t.rows[key].expiresAt ==> key in s.rows && s.rows[key] == t.rows[key]
  {
    if key in s.rows && s.now < s.rows[key].expiresAt { AlikeAt(s, t, key); }
    if key in t.rows && t.now < t.rows[key].expiresAt { AlikeAt(t, s, key); }
  }

  lemma StepKeepsAlike(s: State, t: State, cfg: Config, op: Op)
    requires Alike(s, t)
    ensures Alike(Apply(s, cfg, op), Apply(t, cfg, op))
  {
    hide Apply, Alike;
    var a, b := Apply(s, cfg, op), Apply(t, cfg, op);
    SameClock(s, t);
    SameClockAfter(s, t, cfg, op);
    assert Alike(t, s) by { AlikeTurned(s, t); }
    forall k | k in a.rows && a.now < a.rows[k].expiresAt ensures k in b.rows && b.rows[k] == a.rows[k] {
      AlikeHalf(s, t, cfg, op, k);
    }
    forall k | k in b.rows && b.now < b.rows[k].expiresAt ensures k in a.rows && b.rows[k] == a.rows[k] {
      AlikeHalf(t, s, cfg, op, k);
    }
    AlikeWhen(a, b);
  }

  lemma AlikeTurned(s: State, t: State)
    requires Alike(s, t)
    ensures Alike(t, s)
  {
  }

  lemma SameClockAfter(s: State, t: State, cfg: Config, op: Op)
    requires s.now == t.now
    ensures Apply(s, cfg, op).now == Apply(t, cfg, op).now
  {
  }

  /** The run without its deletions. */
  function Unswept(ops: seq<Op>): seq<Op> {
    if ops == [] then [] else (if ops[0].DoSweep? then [] else [ops[0]]) + Unswept(ops[1..])
  }

  lemma SweptAlike(s: State)
    ensures Alike(Sweep(s), s)
  {
  }

  lemma {:induction false} RunsAlike(s: State, t: State, cfg: Config, ops: seq<Op>)
    requires Alike(s, t)
    ensures Alike(Run(s, cfg, ops), Run(t, cfg, Unswept(ops)))
    decreases |ops|
  {
    hide Apply, Alike;
    if ops != [] {
      var rest := Unswept(ops[1..]);
      if ops[0].DoSweep? {
        assert Unswept(ops) == rest;
        SweepStep(s, cfg);
        SweptAlike(s);
        AlikeChain(Sweep(s), s, t);
        RunsAlike(Apply(s, cfg, ops[0]), t, cfg, ops[1..]);
      } else {
        assert Unswept(ops)[1..] == rest && Unswept(ops)[0] == ops[0];
        StepKeepsAlike(s, t, cfg, ops[0]);
        RunsAlike(Apply(s, cfg, ops[0]), Apply(t, cfg, ops[0]), cfg, ops[1..]);
      }
    }
  }

  lemma SweepStep(s: State, cfg: Config)
    ensures Apply(s, cfg, DoSweep) == Sweep(s)
  {
  }

  lemma AlikeChain(s: State, t: State, u: State)
    requires Alike(s, t) && Alike(t, u)
    ensures Alike(s, u)
  {
  }

  /** However often expired records are deleted in a run: its clock, its unexpired records, and so every answer,
      are those of the run without the deletions; and after one, only unexpired records are left. */
  lemma SweepsGoUnnoticed(cfg: Config, ops: seq<Op>, key: Key, request: Request)
    requires ValidConfig(cfg)
    ensures var s, t := Run(INITIAL, cfg, ops), Run(INITIAL, cfg, Unswept(ops));
            && s.now == t.now && Unexpired(s) == Unexpired(t)
            && Answered(s, cfg, key, request) == Answered(t, cfg, key, request)
            && Apply(s, cfg, DoSweep).rows == Unexpired(s)
  {
    hide Run;
    RunsAlike(INITIAL, INITIAL, cfg, ops);
    AlikeBoth(Run(INITIAL, cfg, ops), Run(INITIAL, cfg, Unswept(ops)), key);
  }
}
