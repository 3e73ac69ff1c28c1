/** The idempotency table (server/internal/database/sqlc/idempotency.sql.go) and the service above it
    (server/internal/platform/idempotency/service.go). Each SQL statement is one atomic step; callers
    interleave freely. locked_until is both the lease and the fencing token of a claim. */
module Idempotency {
  import opened Basics

  datatype Key = Key(scope: string, key: string)
  datatype Request = Request(verb: string, path: string, hash: string)
  datatype Response = Response(status: int, body: string, contentType: string, headers: string)

  datatype Status = Processing | Completed(response: Response)
  datatype Row = Row(request: Request, status: Status, lockedUntil: int, expiresAt: int)

  datatype Config = Config(lockTTL: int, recordTTL: int)

  predicate ValidConfig(cfg: Config) { 0 < cfg.lockTTL <= cfg.recordTTL }

  datatype State = State(now: int, rows: map<Key, Row>)

  const INITIAL := State(0, map[])

  // ---- the statements ----

  /** The WHERE clause of the upsert. */
  predicate Claimable(row: Row, now: int, request: Request) {
    row.expiresAt <= now || (row.status.Processing? && row.lockedUntil <= now && row.request == request)
  }

  /** ClaimIdempotencyKey: the row's new locked_until, or no row. */
  function Claim(s: State, cfg: Config, key: Key, request: Request): (State, Option<int>) {
    if key in s.rows && !Claimable(s.rows[key], s.now, request) then (s, None) else
      var row := Row(request, Processing, s.now + cfg.lockTTL, s.now + cfg.recordTTL);
      (s.(rows := s.rows[key := row]), Some(row.lockedUntil))
  }

  datatype Completion = Stored | NoRow | Violation

  /** CompleteIdempotencyKey. The table's checks refuse a status outside 100..599, and a
      locked_until, here the present, that lies after expires_at. */
  function Complete(s: State, key: Key, request: Request, lease: int, response: Response): (State, Completion) {
    if !(key in s.rows && s.rows[key].request == request && s.rows[key].status.Processing?
         && s.rows[key].lockedUntil == lease) then (s, NoRow)
    else if !(100 <= response.status <= 599 && s.now <= s.rows[key].expiresAt) then (s, Violation)
    else
      var row := s.rows[key].(status := Completed(response), lockedUntil := s.now);
      (s.(rows := s.rows[key := row]), Stored)
  }

  function Sweep(s: State): State {
    s.(rows := map k | k in s.rows && s.now < s.rows[k].expiresAt :: s.rows[k])
  }

  // ---- runs and what they log ----

  datatype Op =
    | Tick(elapsed: nat)
    | DoClaim(key: Key, request: Request)
    | DoComplete(key: Key, request: Request, lease: int, response: Response)
    | DoSweep

  function Apply(s: State, cfg: Config, op: Op): State {
    match op
    case Tick(elapsed) => s.(now := s.now + elapsed)
    case DoClaim(key, request) => Claim(s, cfg, key, request).0
    case DoComplete(key, request, lease, response) => Complete(s, key, request, lease, response).0
    case DoSweep => Sweep(s)
  }

  function Run(s: State, cfg: Config, ops: seq<Op>): State
    decreases |ops|
  {
    if ops == [] then s else Run(Apply(s, cfg, ops[0]), cfg, ops[1..])
  }

  /** Successful claims and completions, each with the token it carried. */
  datatype Event = Claimed(key: Key, token: int) | CompletedBy(key: Key, token: int)

  function Logged(s: State, cfg: Config, op: Op): seq<Event> {
    match op
    case DoClaim(key, request) =>
      var token := Claim(s, cfg, key, request).1;
      if token.Some? then [Claimed(key, token.value)] else []
    case DoComplete(key, request, lease, response) =>
      if Complete(s, key, request, lease, response).1.Stored? then [CompletedBy(key, lease)] else []
    case _ => []
  }

  function Log(s: State, cfg: Config, ops: seq<Op>, log: seq<Event>): seq<Event>
    decreases |ops|
  {
    if ops == [] then log else Log(Apply(s, cfg, ops[0]), cfg, ops[1..], log + Logged(s, cfg, ops[0]))
  }

  // ---- the invariant ----

  /** The last event about a key. */
  function Latest(log: seq<Event>, key: Key): Option<Event> {
    if log == [] then None
    else if log[|log| - 1].key == key then Some(log[|log| - 1])
    else Latest(log[..|log| - 1], key)
  }

  ghost predicate Fenced(log: seq<Event>) {
    && (forall i, j :: 0 <= i < j < |log| && log[i].Claimed? && log[j].Claimed? && log[i].key == log[j].key ==>
          log[i].token < log[j].token)
    && (forall j :: 0 <= j < |log| && log[j].CompletedBy? ==>
          Latest(log[..j], log[j].key) == Some(Claimed(log[j].key, log[j].token)))
  }

  function TokenOf(row: Row, cfg: Config): int { row.expiresAt - cfg.recordTTL + cfg.lockTTL }

  ghost predicate Inv(s: State, cfg: Config, log: seq<Event>) {
    && Fenced(log)
    && (forall k :: k in s.rows ==> s.rows[k].expiresAt <= s.now + cfg.recordTTL)
    && (forall k :: k in s.rows && s.rows[k].status.Processing? ==>
          s.rows[k].lockedUntil == TokenOf(s.rows[k], cfg)
          && Latest(log, k) == Some(Claimed(k, s.rows[k].lockedUntil)))
    && (forall k :: k in s.rows && s.rows[k].status.Completed? ==>
          Latest(log, k).Some? && Latest(log, k).value.CompletedBy?)
    && (forall i :: 0 <= i < |log| && log[i].Claimed? ==>
          if log[i].key in s.rows then log[i].token <= TokenOf(s.rows[log[i].key], cfg) else log[i].token <= s.now)
  }

  lemma LatestAppended(log: seq<Event>, entry: Event, key: Key)
    ensures Latest(log + [entry], key) == if entry.key == key then Some(entry) else Latest(log, key)
  {
    assert (log + [entry])[..|log|] == log;
  }

  lemma FencedAppended(log: seq<Event>, entry: Event)
    requires Fenced(log)
    requires entry.Claimed? ==> forall i :: 0 <= i < |log| && log[i].Claimed? && log[i].key == entry.key ==>
        log[i].token < entry.token
    requires entry.CompletedBy? ==> Latest(log, entry.key) == Some(Claimed(entry.key, entry.token))
    ensures Fenced(log + [entry])
  {
    var more := log + [entry];
    assert more[..|log|] == log;
    forall j | 0 <= j < |log| ensures more[..j] == log[..j] {}
  }

  lemma ApplyKeepsInvariant(s: State, cfg: Config, op: Op, log: seq<Event>)
    requires ValidConfig(cfg) && Inv(s, cfg, log)
    ensures Inv(Apply(s, cfg, op), cfg, log + Logged(s, cfg, op))
  {
    hide Fenced, Latest;
    var entry := Logged(s, cfg, op);
    if entry == [] {
      assert log + entry == log;
    } else {
      FencedAppended(log, entry[0]);
      forall k ensures Latest(log + entry, k) == if entry[0].key == k then Some(entry[0]) else Latest(log, k) {
        LatestAppended(log, entry[0], k);
      }
    }
  }

  lemma {:induction false} RunKeepsInvariant(s: State, cfg: Config, ops: seq<Op>, log: seq<Event>)
    requires ValidConfig(cfg) && Inv(s, cfg, log)
    ensures Inv(Run(s, cfg, ops), cfg, Log(s, cfg, ops, log))
    decreases |ops|
  {
    if ops != [] {
      ApplyKeepsInvariant(s, cfg, ops[0], log);
      RunKeepsInvariant(Apply(s, cfg, ops[0]), cfg, ops[1..], log + Logged(s, cfg, ops[0]));
    }
  }

  // ---- fencing, over every run ----

  lemma TokensStrictlyIncrease(cfg: Config, ops: seq<Op>, i: nat, j: nat)
    requires ValidConfig(cfg)
    requires var log := Log(INITIAL, cfg, ops, []);
             i < j < |log| && log[i].Claimed? && log[j].Claimed? && log[i].key == log[j].key
    ensures var log := Log(INITIAL, cfg, ops, []); log[i].token < log[j].token
  {
    RunKeepsInvariant(INITIAL, cfg, ops, []);
  }

  lemma {:induction false} LatestIsLast(log: seq<Event>, key: Key) returns (at: nat)
    requires Latest(log, key).Some?
    ensures at < |log| && log[at] == Latest(log, key).value && log[at].key == key
    ensures forall m :: at < m < |log| ==> log[m].key != key
    decreases |log|
  {
    if log[|log| - 1].key == key {
      at := |log| - 1;
    } else {
      at := LatestIsLast(log[..|log| - 1], key);
    }
  }

  /** Every stored completion carries the token of the latest claim of its key, and nothing about
      that key was logged between the two: no later claim, and no earlier completion by that claim. */
  lemma CompletionFollowsLatestClaim(cfg: Config, ops: seq<Op>, j: nat) returns (i: nat)
    requires ValidConfig(cfg)
    requires var log := Log(INITIAL, cfg, ops, []); j < |log| && log[j].CompletedBy?
    ensures var log := Log(INITIAL, cfg, ops, []);
            && i < j && log[i] == Claimed(log[j].key, log[j].token)
            && forall m :: i < m < j ==> log[m].key != log[j].key
  {
    var log := Log(INITIAL, cfg, ops, []);
    RunKeepsInvariant(INITIAL, cfg, ops, []);
    i := LatestIsLast(log[..j], log[j].key);
    forall m | i < m < j ensures log[m].key != log[j].key {
      assert log[m] == log[..j][m];
    }
  }

  /** No claim is completed twice. */
  lemma CompletedAtMostOnce(cfg: Config, ops: seq<Op>, a: nat, b: nat)
    requires ValidConfig(cfg)
    requires var log := Log(INITIAL, cfg, ops, []);
             a < |log| && b < |log| && log[a].CompletedBy? && log[b].CompletedBy?
             && log[a].key == log[b].key && log[a].token == log[b].token
    ensures a == b
  {
    var first, second := if a < b then a else b, if a < b then b else a;
    if first < second {
      var claim1 := CompletionFollowsLatestClaim(cfg, ops, first);
      var claim2 := CompletionFollowsLatestClaim(cfg, ops, second);
      RunKeepsInvariant(INITIAL, cfg, ops, []);
      assert false;
    }
  }

  /** Exactly when a completion is stored: its caller holds the row's current token for the same
      request, no completion has used it yet, the record has not run out and the status is one the table
      takes. */
  lemma CompletionStoredExactlyWhen(cfg: Config, ops: seq<Op>, key: Key, request: Request, lease: int,
      response: Response)
    requires ValidConfig(cfg)
    ensures var s := Run(INITIAL, cfg, ops);
            Complete(s, key, request, lease, response).1.Stored? <==>
              && 100 <= response.status <= 599
              && key in s.rows && s.rows[key].request == request && s.now <= s.rows[key].expiresAt
              && Latest(Log(INITIAL, cfg, ops, []), key) == Some(Claimed(key, lease))
  {
    RunKeepsInvariant(INITIAL, cfg, ops, []);
  }

  /** The same caller, holding the latest claim, is refused by the table's checks instead, when the record
      has run out or the status is out of range: an error, not a missing row. */
  lemma CompletionViolatesExactlyWhen(
      cfg: Config, ops: seq<Op>, key: Key, request: Request, lease: int, response: Response)
    requires ValidConfig(cfg)
    ensures var s := Run(INITIAL, cfg, ops);
            Complete(s, key, request, lease, response).1.Violation? <==>
              && key in s.rows && s.rows[key].request == request
              && Latest(Log(INITIAL, cfg, ops, []), key) == Some(Claimed(key, lease))
              && (s.rows[key].expiresAt < s.now || !(100 <= response.status <= 599))
  {
    RunKeepsInvariant(INITIAL, cfg, ops, []);
  }

  /** It does happen: both lifetimes 1, a claim, two units of time, then a completion with its token. */
  lemma LateCompletionViolates(key: Key, request: Request, response: Response)
    requires response.status == 200
    ensures var s := Run(INITIAL, Config(1, 1), [DoClaim(key, request), Tick(2)]);
            Complete(s, key, request, 1, response) == (s, Violation)
  {
    var cfg := Config(1, 1);
    var claimed := Apply(INITIAL, cfg, DoClaim(key, request));
    assert [DoClaim(key, request), Tick(2)][1..] == [Tick(2)] && [Tick(2)][1..] == [];
    assert Run(claimed, cfg, [Tick(2)]) == Run(Apply(claimed, cfg, Tick(2)), cfg, []);
  }

  // ---- an unexpired record keeps its identity and its response ----

  predicate SameRecord(before: Row, after: Row) {
    && after.request == before.request
    && before.expiresAt <= after.expiresAt
    && (before.status.Completed? ==> after == before)
  }

  lemma {:induction false} UnexpiredRecordKept(s: State, cfg: Config, ops: seq<Op>, key: Key)
    requires ValidConfig(cfg) && key in s.rows && Run(s, cfg, ops).now < s.rows[key].expiresAt
    requires forall k :: k in s.rows ==> s.rows[k].expiresAt <= s.now + cfg.recordTTL
    ensures var t := Run(s, cfg, ops); key in t.rows && SameRecord(s.rows[key], t.rows[key])
    decreases |ops|
  {
    if ops != [] {
      var t := Apply(s, cfg, ops[0]);
      ClockOnlyAdvances(t, cfg, ops[1..]);
      UnexpiredRecordKept(t, cfg, ops[1..], key);
    }
  }

  lemma {:induction false} ClockOnlyAdvances(s: State, cfg: Config, ops: seq<Op>)
    ensures s.now <= Run(s, cfg, ops).now
    decreases |ops|
  {
    if ops != [] { ClockOnlyAdvances(Apply(s, cfg, ops[0]), cfg, ops[1..]); }
  }

  lemma {:induction false} RunSplits(s: State, cfg: Config, a: seq<Op>, b: seq<Op>)
    ensures Run(s, cfg, a + b) == Run(Run(s, cfg, a), cfg, b)
    decreases |a|
  {
    if a == [] {
      assert a + b == b;
    } else {
      assert (a + b)[1..] == a[1..] + b;
      RunSplits(Apply(s, cfg, a[0]), cfg, a[1..], b);
    }
  }

  // ---- the service ----

  datatype Answer = Leased(token: int) | Replay(response: Response) | KeyConflict | InProgress | NotFound

  /** What Service.Claim answers from the row it reads after losing the upsert. */
  function Lookup(s: State, key: Key, request: Request): Answer {
    if key !in s.rows then NotFound
    else if s.rows[key].request != request then KeyConflict
    else match s.rows[key].status
      case Processing => InProgress
      case Completed(response) => Replay(response)
  }

  /** Once a completion is stored, every later claim of that key, until the record expires and
      whatever else runs, is answered with that response, or with a conflict if it asks for
      something else. */
  lemma StoredResponseIsReplayed(
      cfg: Config, before: seq<Op>, key: Key, request: Request, lease: int, response: Response,
      after: seq<Op>, asked: Request)
    requires ValidConfig(cfg)
    requires Complete(Run(INITIAL, cfg, before), key, request, lease, response).1.Stored?
    requires var s := Run(INITIAL, cfg, before);
             Run(INITIAL, cfg, before + [DoComplete(key, request, lease, response)] + after).now < s.rows[key].expiresAt
    ensures var t := Run(INITIAL, cfg, before + [DoComplete(key, request, lease, response)] + after);
            && Claim(t, cfg, key, asked) == (t, None)
            && Lookup(t, key, asked) == if asked == request then Replay(response) else KeyConflict
  {
    var op := DoComplete(key, request, lease, response);
    RunKeepsInvariant(INITIAL, cfg, before, []);
    RunSplits(INITIAL, cfg, before + [op], after);
    RunSplits(INITIAL, cfg, before, [op]);
    var s := Run(INITIAL, cfg, before);
    var stored := Apply(s, cfg, op);
    assert Run(s, cfg, [op]) == stored;
    UnexpiredRecordKept(stored, cfg, after, key);
  }

  // ---- as it runs ----

  class Table {
    var now: int
    var rows: map<Key, Row>
    const cfg: Config

    constructor (cfg: Config)
      ensures View() == INITIAL && this.cfg == cfg
    {
      this.cfg := cfg;
      now, rows := 0, map[];
    }

    function View(): State
      reads this
    {
      State(now, rows)
    }

    method ClaimKey(key: Key, request: Request) returns (token: Option<int>)
      modifies this
      ensures (View(), token) == Claim(old(View()), cfg, key, request)
    {
      if key in rows {
        var row := rows[key];
        var expired := row.expiresAt <= now;
        var abandoned := row.status.Processing? && row.lockedUntil <= now;
        if !expired && !(abandoned && row.request == request) { return None; }
      }
      rows := rows[key := Row(request, Processing, now + cfg.lockTTL, now + cfg.recordTTL)];
      return Some(now + cfg.lockTTL);
    }

    method CompleteKey(key: Key, request: Request, lease: int, response: Response) returns (r: Completion)
      modifies this
      ensures (View(), r) == Complete(old(View()), key, request, lease, response)
    {
      if key !in rows || rows[key].request != request { return NoRow; }
      if !rows[key].status.Processing? || rows[key].lockedUntil != lease { return NoRow; }
      if response.status < 100 || response.status > 599 || rows[key].expiresAt < now { return Violation; }
      rows := rows[key := rows[key].(status := Completed(response), lockedUntil := now)];
      return Stored;
    }

    method DeleteExpired() returns (deleted: nat)
      modifies this
      ensures View() == Sweep(old(View()))
      ensures deleted == |set k | k in old(rows) && old(rows)[k].expiresAt <= now|
    {
      var expired := set k | k in rows && rows[k].expiresAt <= now;
      rows := rows - expired;
      deleted := |expired|;
    }

    /** Service.Claim, when nothing runs between its two statements. */
    method ServiceClaim(key: Key, request: Request) returns (answer: Answer)
      modifies this
      ensures var (claimed, token) := Claim(old(View()), cfg, key, request);
              && View() == claimed
              && answer == if token.Some? then Leased(token.value) else Lookup(claimed, key, request)
    {
      var token := ClaimKey(key, request);
      if token.Some? { return Leased(token.value); }
      if key !in rows { return NotFound; }
      var row := rows[key];
      if row.request != request { return KeyConflict; }
      if row.status.Processing? { return InProgress; }
      return Replay(row.status.response);
    }
  }
}
