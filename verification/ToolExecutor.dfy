/** Voice agent tool execution (server/internal/ai/tools/executor.go and its SQL): claim a row, run the
    side effect, mark the row; a caller that loses the claim replays the row. Any number of calls
    interleave, one SQL statement or one tool run at a time; any statement may fail, before or after
    it took effect, and any caller may disappear. */
module ToolExecutor {
  type Id = nat
  type CallerId = nat

  datatype Key = Key(organization: Id, session: Id, toolCall: string)
  datatype Request = Request(key: Key, agent: Id, call: Id, tool: Id, args: string)
  datatype Result = Result(status: int, contentType: string, body: string)

  datatype RowState = Processing | Succeeded(result: Result) | Failed(message: string)
  datatype Row = Row(request: Request, state: RowState)

  /** The executions table and the tool runs that really happened. The unique index makes the key name
      a row; the row id a claim returns names that same row, as no statement deletes or re-keys one. */
  datatype Db = Db(rows: map<Key, Row>, effects: multiset<Key>)

  // ---- the statements ----

  /** What the database did and what the caller saw of it. */
  datatype Fault = Fine | LostReply | NoEffect

  /** INSERT ... SELECT ... ON CONFLICT DO NOTHING RETURNING id: whether a row came back. `eligible`
      says whether the session, tool and organization rows it joins are there and active. */
  function ClaimRow(db: Db, request: Request, eligible: bool): (Db, bool) {
    if !eligible || request.key in db.rows then (db, false)
    else (db.(rows := db.rows[request.key := Row(request, Processing)]), true)
  }

  /** The guarded UPDATEs: rows affected. */
  function Mark(db: Db, key: Key, state: RowState): (Db, nat) {
    if key in db.rows && db.rows[key].state.Processing?
    then (db.(rows := db.rows[key := db.rows[key].(state := state)]), 1)
    else (db, 0)
  }

  /** The table refuses a response status outside 100..599. */
  predicate Storable(result: Result) { 100 <= result.status <= 599 }

  /** What Execute returns: a result; no row to read, a row of another execution, an earlier failure, an outcome
      nobody knows; the tool's own error; or an error of a statement. */
  datatype Outcome =
    | Success(result: Result)
    | NotFound | DifferentExecution | FailedEarlier(message: string) | Uncertain
    | ToolError(message: string)
    | Internal

  predicate SameExecution(row: Request, request: Request, same: (string, string) -> bool) {
    row.tool == request.tool && row.agent == request.agent && row.call == request.call && same(row.args, request.args)
  }

  /** replay: what a caller that got no row back makes of the row it reads. `same` is sameJSON. */
  function Replay(db: Db, request: Request, same: (string, string) -> bool): Outcome {
    if request.key !in db.rows then NotFound
    else if !SameExecution(db.rows[request.key].request, request, same) then DifferentExecution
    else
      match db.rows[request.key].state
      case Succeeded(result) => Success(result)
      case Failed(message) => FailedEarlier(message)
      case Processing => Uncertain
  }

  // ---- callers ----

  datatype Pc =
    | Claiming
    | Running
    | Marking(result: Result)
    | MarkingFailed(message: string)
    | Replaying
    | Returned(outcome: Outcome)

  datatype Caller = Caller(request: Request, pc: Pc)

  datatype State = State(db: Db, callers: map<CallerId, Caller>)

  const INITIAL := State(Db(map[], multiset{}), map[])

  /** A tool run ends in a result or an error; `ran` says whether a failed one took effect before it failed. */
  datatype ToolRun = Finished(result: Result) | Broken(message: string, ran: bool)

  datatype Op =
    | Call(caller: CallerId, request: Request)
    | GiveUp(caller: CallerId)
    | DoClaim(caller: CallerId, eligible: bool, fault: Fault)
    | DoRun(caller: CallerId, run: ToolRun)
    | DoMark(caller: CallerId, fault: Fault)
    | DoReplay(caller: CallerId, fault: Fault)

  function Move(s: State, caller: CallerId, db: Db, pc: Pc): State
    requires caller in s.callers
  {
    State(db, s.callers[caller := s.callers[caller].(pc := pc)])
  }

  function StepClaim(s: State, c: CallerId, eligible: bool, fault: Fault): State
    requires c in s.callers
  {
    if fault.NoEffect? then Move(s, c, s.db, Returned(Internal)) else
      var (db, won) := ClaimRow(s.db, s.callers[c].request, eligible);
      Move(s, c, db, if fault.LostReply? then Returned(Internal) else if won then Running else Replaying)
  }

  function StepRun(s: State, c: CallerId, run: ToolRun): State
    requires c in s.callers
  {
    var key := s.callers[c].request.key;
    var db := if run.Finished? || run.ran then s.db.(effects := s.db.effects + multiset{key}) else s.db;
    Move(s, c, db, if run.Finished? then Marking(run.result) else MarkingFailed(run.message))
  }

  function StepMark(s: State, c: CallerId, fault: Fault): State
    requires c in s.callers && (s.callers[c].pc.Marking? || s.callers[c].pc.MarkingFailed?)
  {
    var key, pc := s.callers[c].request.key, s.callers[c].pc;
    var failed := if pc.Marking? then Internal else ToolError(pc.message);
    if fault.NoEffect? || (pc.Marking? && !Storable(pc.result)) then Move(s, c, s.db, Returned(failed)) else
      var (db, rows) := Mark(s.db, key, if pc.Marking? then Succeeded(pc.result) else Failed(pc.message));
      Move(s, c, db, Returned(if pc.Marking? && fault.Fine? && rows == 1 then Success(pc.result) else failed))
  }

  function StepReplay(s: State, c: CallerId, fault: Fault, same: (string, string) -> bool): State
    requires c in s.callers
  {
    Move(s, c, s.db, Returned(if fault.Fine? then Replay(s.db, s.callers[c].request, same) else Internal))
  }

  /** A step that is not enabled leaves the state alone. */
  function Apply(s: State, op: Op, same: (string, string) -> bool): State {
    match op
    case Call(c, request) => if c in s.callers then s else s.(callers := s.callers[c := Caller(request, Claiming)])
    case GiveUp(c) => if c in s.callers && !s.callers[c].pc.Returned? then s.(callers := s.callers - {c}) else s
    case DoClaim(c, eligible, fault) =>
      if c in s.callers && s.callers[c].pc.Claiming? then StepClaim(s, c, eligible, fault) else s
    case DoRun(c, run) =>
      if c in s.callers && s.callers[c].pc.Running? then StepRun(s, c, run) else s
    case DoMark(c, fault) =>
      if c in s.callers && (s.callers[c].pc.Marking? || s.callers[c].pc.MarkingFailed?)
      then StepMark(s, c, fault) else s
    case DoReplay(c, fault) =>
      if c in s.callers && s.callers[c].pc.Replaying? then StepReplay(s, c, fault, same) else s
  }

  function Run(s: State, ops: seq<Op>, same: (string, string) -> bool): State
    decreases |ops|
  {
    if ops == [] then s else Run(Apply(s, ops[0], same), ops[1..], same)
  }

  // ---- the invariant ----

  predicate Holds(caller: Caller, key: Key) {
    (caller.pc.Running? || caller.pc.Marking? || caller.pc.MarkingFailed?) && caller.request.key == key
  }

  /** What one caller's position says about the table. */
  predicate CallerOk(db: Db, caller: Caller, same: (string, string) -> bool) {
    var key := caller.request.key;
    && (Holds(caller, key) ==> key in db.rows && db.rows[key] == Row(caller.request, Processing))
    && (caller.pc.Running? ==> db.effects[key] == 0)
    && (caller.pc.Marking? ==> db.effects[key] == 1)
    && (caller.pc.Returned? && caller.pc.outcome.Success? ==>
          && key in db.rows && db.rows[key].state == Succeeded(caller.pc.outcome.result)
          && (db.rows[key].request == caller.request || SameExecution(db.rows[key].request, caller.request, same)))
  }

  /** Between winning a claim and marking its row, a caller alone holds that row. */
  ghost predicate HoldersAlone(s: State) {
    forall a, b, key :: a in s.callers && b in s.callers && Holds(s.callers[a], key) && Holds(s.callers[b], key) ==>
        a == b
  }

  ghost predicate TableOk(db: Db) {
    && (forall key :: db.effects[key] <= 1)
    && (forall key :: key !in db.rows ==> db.effects[key] == 0)
    && (forall key :: key in db.rows ==> db.rows[key].request.key == key)
    && (forall key :: key in db.rows && db.rows[key].state.Succeeded? ==> db.effects[key] == 1)
  }

  ghost predicate Inv(s: State, same: (string, string) -> bool) {
    && TableOk(s.db) && HoldersAlone(s)
    && forall c :: c in s.callers ==> CallerOk(s.db, s.callers[c], same)
  }

  /** Rows are never removed or rewritten: a settled row stays as it is, a processing one keeps its request. */
  predicate Grows(a: Db, b: Db) {
    forall key :: key in a.rows ==>
      key in b.rows && b.rows[key].request == a.rows[key].request
      && (!a.rows[key].state.Processing? ==> b.rows[key] == a.rows[key])
  }

  /** A step of one caller that leaves every other caller's facts alone keeps the invariant. */
  lemma MoveKeepsInvariant(s: State, c: CallerId, db: Db, pc: Pc, same: (string, string) -> bool)
    requires Inv(s, same) && c in s.callers && TableOk(db)
    requires CallerOk(db, s.callers[c].(pc := pc), same)
    requires var key := s.callers[c].request.key;
             && Holds(s.callers[c].(pc := pc), key) ==> Holds(s.callers[c], key) || key !in s.db.rows
    requires forall d :: d in s.callers && d != c ==> CallerOk(db, s.callers[d], same)
    ensures Inv(Move(s, c, db, pc), same)
  {
  }

  lemma ClaimKeepsInvariant(s: State, c: CallerId, eligible: bool, fault: Fault, same: (string, string) -> bool)
    requires Inv(s, same) && c in s.callers && s.callers[c].pc.Claiming?
    ensures Inv(StepClaim(s, c, eligible, fault), same)
  {
    var t := StepClaim(s, c, eligible, fault);
    MoveKeepsInvariant(s, c, t.db, t.callers[c].pc, same);
  }

  lemma RunStepKeepsInvariant(s: State, c: CallerId, run: ToolRun, same: (string, string) -> bool)
    requires Inv(s, same) && c in s.callers && s.callers[c].pc.Running?
    ensures Inv(StepRun(s, c, run), same)
  {
    var t := StepRun(s, c, run);
    var key := s.callers[c].request.key;
    assert Holds(s.callers[c], key);
    forall d | d in s.callers && d != c ensures CallerOk(t.db, s.callers[d], same) {
      assert CallerOk(s.db, s.callers[d], same);
      assert Holds(s.callers[d], s.callers[d].request.key) ==> s.callers[d].request.key != key;
    }
    MoveKeepsInvariant(s, c, t.db, t.callers[c].pc, same);
  }

  lemma MarkKeepsInvariant(s: State, c: CallerId, fault: Fault, same: (string, string) -> bool)
    requires Inv(s, same) && c in s.callers && (s.callers[c].pc.Marking? || s.callers[c].pc.MarkingFailed?)
    ensures Inv(StepMark(s, c, fault), same)
  {
    var t := StepMark(s, c, fault);
    var key := s.callers[c].request.key;
    assert Holds(s.callers[c], key);
    forall d | d in s.callers && d != c ensures CallerOk(t.db, s.callers[d], same) {
      assert CallerOk(s.db, s.callers[d], same);
      assert Holds(s.callers[d], s.callers[d].request.key) ==> s.callers[d].request.key != key;
    }
    MoveKeepsInvariant(s, c, t.db, t.callers[c].pc, same);
  }

  lemma ApplyKeepsInvariant(s: State, op: Op, same: (string, string) -> bool)
    requires Inv(s, same)
    ensures Inv(Apply(s, op, same), same)
  {
    match op {
      case Call(c, request) =>
      case GiveUp(c) =>
      case DoClaim(c, eligible, fault) =>
        if c in s.callers && s.callers[c].pc.Claiming? { ClaimKeepsInvariant(s, c, eligible, fault, same); }
      case DoRun(c, run) =>
        if c in s.callers && s.callers[c].pc.Running? { RunStepKeepsInvariant(s, c, run, same); }
      case DoMark(c, fault) =>
        if c in s.callers && (s.callers[c].pc.Marking? || s.callers[c].pc.MarkingFailed?) {
          MarkKeepsInvariant(s, c, fault, same);
        }
      case DoReplay(c, fault) =>
        if c in s.callers && s.callers[c].pc.Replaying? {
          MoveKeepsInvariant(s, c, s.db, StepReplay(s, c, fault, same).callers[c].pc, same);
        }
    }
  }

  lemma ApplyOnlyGrows(s: State, op: Op, same: (string, string) -> bool)
    ensures Grows(s.db, Apply(s, op, same).db)
  {
  }

  lemma {:induction false} RunKeepsInvariant(s: State, ops: seq<Op>, same: (string, string) -> bool)
    requires Inv(s, same)
    ensures Inv(Run(s, ops, same), same) && Grows(s.db, Run(s, ops, same).db)
    decreases |ops|
  {
    if ops != [] {
      ApplyKeepsInvariant(s, ops[0], same);
      ApplyOnlyGrows(s, ops[0], same);
      RunKeepsInvariant(Apply(s, ops[0], same), ops[1..], same);
    }
  }

  // ---- what a caller may rely on, over every run ----

  lemma EffectAtMostOnce(ops: seq<Op>, same: (string, string) -> bool, key: Key)
    ensures Run(INITIAL, ops, same).db.effects[key] <= 1
  {
    RunKeepsInvariant(INITIAL, ops, same);
  }

  /** Caller `c` has returned success with that result. */
  predicate Succeeds(s: State, c: CallerId, result: Result) {
    c in s.callers && s.callers[c].pc == Returned(Success(result))
  }

  /** A success means the tool ran exactly once for that key, and every other success for the key
      carries the same status, content type and body, whether it ran the tool or replayed it. */
  lemma SuccessesAgree(ops: seq<Op>, same: (string, string) -> bool, a: CallerId, b: CallerId, ra: Result, rb: Result)
    requires var s := Run(INITIAL, ops, same);
             Succeeds(s, a, ra) && Succeeds(s, b, rb) && s.callers[a].request.key == s.callers[b].request.key
    ensures ra == rb
    ensures var s := Run(INITIAL, ops, same); s.db.effects[s.callers[a].request.key] == 1
  {
    RunKeepsInvariant(INITIAL, ops, same);
    var s := Run(INITIAL, ops, same);
    assert CallerOk(s.db, s.callers[a], same) && CallerOk(s.db, s.callers[b], same);
  }

  /** Once the row of a key has failed, or belongs to a different execution than the one asked for,
      no call with that key, past or future, returns success. */
  lemma FailedOrDifferentNeverSucceeds(
      before: seq<Op>, after: seq<Op>, same: (string, string) -> bool, key: Key, c: CallerId, result: Result)
    requires var s := Run(INITIAL, before, same);
             key in s.db.rows &&
             var t := Run(s, after, same);
             c in t.callers && t.callers[c].request.key == key
             && (s.db.rows[key].state.Failed?
                 || (s.db.rows[key].request != t.callers[c].request
                     && !SameExecution(s.db.rows[key].request, t.callers[c].request, same)))
    ensures !Succeeds(Run(Run(INITIAL, before, same), after, same), c, result)
  {
    var s := Run(INITIAL, before, same);
    RunKeepsInvariant(INITIAL, before, same);
    RunKeepsInvariant(s, after, same);
    assert CallerOk(Run(s, after, same).db, Run(s, after, same).callers[c], same);
  }

  /** A row that was marked succeeded is what every later replay of the same execution returns. */
  lemma SucceededIsReplayedForever(
      before: seq<Op>, after: seq<Op>, same: (string, string) -> bool, request: Request, result: Result)
    requires var db := Run(INITIAL, before, same).db;
             request.key in db.rows && db.rows[request.key].state == Succeeded(result)
             && SameExecution(db.rows[request.key].request, request, same)
    ensures Replay(Run(Run(INITIAL, before, same), after, same).db, request, same) == Success(result)
  {
    RunKeepsInvariant(INITIAL, before, same);
    RunKeepsInvariant(Run(INITIAL, before, same), after, same);
  }

  // ---- one call on its own ----

  /** The environment of one undisturbed call: the rows it joins, its statements and its tool run. */
  datatype Env = Env(eligible: bool, claim: Fault, run: ToolRun, mark: Fault, read: Fault)

  class Executor {
    var rows: map<Key, Row>
    var effects: multiset<Key>
    const same: (string, string) -> bool

    constructor (same: (string, string) -> bool)
      ensures View() == INITIAL.db && this.same == same
    {
      this.same := same;
      rows, effects := map[], multiset{};
    }

    function View(): Db
      reads this
    {
      Db(rows, effects)
    }

    method ClaimExecution(request: Request, eligible: bool) returns (won: bool)
      modifies this
      ensures (View(), won) == ClaimRow(old(View()), request, eligible)
    {
      if !eligible { return false; }
      if request.key in rows { return false; }
      rows := rows[request.key := Row(request, Processing)];
      return true;
    }

    method MarkExecution(key: Key, state: RowState) returns (affected: nat)
      modifies this
      ensures (View(), affected) == Mark(old(View()), key, state)
    {
      if key !in rows || !rows[key].state.Processing? { return 0; }
      rows := rows[key := rows[key].(state := state)];
      return 1;
    }

    /** replay: the row is read and must be the same execution, and settled as a success. */
    method ReplayExecution(request: Request, read: Fault) returns (outcome: Outcome)
      ensures outcome == if read.Fine? then Replay(View(), request, same) else Internal
    {
      if read != Fine { return Internal; }
      if request.key !in rows { return NotFound; }
      var row := rows[request.key];
      if row.request.tool != request.tool || row.request.agent != request.agent || row.request.call != request.call
         || !same(row.request.args, request.args) { return DifferentExecution; }
      match row.state
      case Succeeded(result) => return Success(result);
      case Failed(message) => return FailedEarlier(message);
      case Processing => return Uncertain;
    }

    /** The winner of a claim runs the tool and marks the row. */
    method RunClaimed(c: CallerId, request: Request, run: ToolRun, mark: Fault) returns (outcome: Outcome)
      modifies this
      ensures var claimed := State(old(View()), map[c := Caller(request, Running)]);
              Apply(Apply(claimed, DoRun(c, run), same), DoMark(c, mark), same)
                == State(View(), map[c := Caller(request, Returned(outcome))])
    {
      match run
      case Broken(message, ran) =>
        if ran { effects := effects + multiset{request.key}; }
        if mark.NoEffect? { return ToolError(message); }
        var affected := MarkExecution(request.key, Failed(message));
        return ToolError(message);
      case Finished(result) =>
        effects := effects + multiset{request.key};
        if mark.NoEffect? || !Storable(result) { return Internal; }
        var affected := MarkExecution(request.key, Succeeded(result));
        if mark.LostReply? || affected != 1 { return Internal; }
        return Success(result);
    }

    /** Execute, undisturbed: the same steps a caller takes in the interleaved system. */
    method Execute(c: CallerId, request: Request, env: Env) returns (outcome: Outcome)
      modifies this
      ensures var start := State(old(View()), map[c := Caller(request, Claiming)]);
              Run(start, [DoClaim(c, env.eligible, env.claim), DoRun(c, env.run),
                          DoMark(c, env.mark), DoReplay(c, env.read)], same)
                == State(View(), map[c := Caller(request, Returned(outcome))])
    {
      hide Run, Replay, StepRun, StepMark;
      ghost var start := State(View(), map[c := Caller(request, Claiming)]);
      FourSteps(start, DoClaim(c, env.eligible, env.claim), DoRun(c, env.run), DoMark(c, env.mark),
          DoReplay(c, env.read), same);
      if env.claim.NoEffect? { return Internal; }
      var won := ClaimExecution(request, env.eligible);
      if env.claim.LostReply? { return Internal; }
      ghost var claimed := Apply(start, DoClaim(c, env.eligible, env.claim), same);
      if won {
        assert claimed == State(View(), map[c := Caller(request, Running)]);
        outcome := RunClaimed(c, request, env.run, env.mark);
      } else {
        assert claimed == State(View(), map[c := Caller(request, Replaying)]);
        outcome := ReplayExecution(request, env.read);
      }
    }
  }

  lemma FourSteps(s: State, a: Op, b: Op, c: Op, d: Op, same: (string, string) -> bool)
    ensures Run(s, [a, b, c, d], same) == Apply(Apply(Apply(Apply(s, a, same), b, same), c, same), d, same)
  {
    assert [a, b, c, d][1..] == [b, c, d] && [b, c, d][1..] == [c, d] && [c, d][1..] == [d] && [d][1..] == [];
    var s1 := Apply(s, a, same);
    var s2 := Apply(s1, b, same);
    var s3 := Apply(s2, c, same);
    assert Run(s3, [d], same) == Apply(s3, d, same);
    assert Run(s2, [c, d], same) == Run(s3, [d], same);
    assert Run(s1, [b, c, d], same) == Run(s2, [c, d], same);
  }
}
