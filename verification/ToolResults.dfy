/** Where the result of a successful tool call comes from: over every run, from the one tool run of a call for
    the same execution; and what a call is told when nothing disturbs it. */
module ToolResults {
  import opened ToolExecutor

  // ---- the tool run behind a row ----

  /** Step `i` of the run is a tool run ending like that, by a call with that request which holds the claim. */
  ghost predicate RanAt(ops: seq<Op>, i: nat, request: Request, run: ToolRun, same: (string, string) -> bool) {
    && i < |ops| && ops[i].DoRun? && ops[i].run == run
    && var s := Run(INITIAL, ops[..i], same);
       ops[i].caller in s.callers && s.callers[ops[i].caller] == Caller(request, Running)
  }

  ghost predicate Ran(ops: seq<Op>, request: Request, run: ToolRun, same: (string, string) -> bool) {
    exists i: nat :: RanAt(ops, i, request, run, same)
  }

  /** Finished with that result, or broken with that message. */
  ghost predicate Finishes(ops: seq<Op>, request: Request, result: Result, same: (string, string) -> bool) {
    Ran(ops, request, Finished(result), same)
  }

  ghost predicate Breaks(ops: seq<Op>, request: Request, message: string, same: (string, string) -> bool) {
    exists ran :: Ran(ops, request, Broken(message, ran), same)
  }

  ghost predicate CallerHistory(ops: seq<Op>, caller: Caller, same: (string, string) -> bool) {
    && (caller.pc.Marking? ==> Finishes(ops, caller.request, caller.pc.result, same))
    && (caller.pc.MarkingFailed? ==> Breaks(ops, caller.request, caller.pc.message, same))
  }

  ghost predicate RowHistory(ops: seq<Op>, row: Row, same: (string, string) -> bool) {
    && (row.state.Succeeded? ==> Finishes(ops, row.request, row.state.result, same))
    && (row.state.Failed? ==> Breaks(ops, row.request, row.state.message, same))
  }

  ghost predicate History(ops: seq<Op>, s: State, same: (string, string) -> bool) {
    && (forall c :: c in s.callers ==> CallerHistory(ops, s.callers[c], same))
    && (forall key :: key in s.db.rows ==> RowHistory(ops, s.db.rows[key], same))
  }

  lemma RanStays(ops: seq<Op>, op: Op, request: Request, run: ToolRun, same: (string, string) -> bool)
    requires Ran(ops, request, run, same)
    ensures Ran(ops + [op], request, run, same)
  {
    var i: nat :| RanAt(ops, i, request, run, same);
    assert (ops + [op])[..i] == ops[..i];
    assert RanAt(ops + [op], i, request, run, same);
  }

  lemma HistoryStays(ops: seq<Op>, op: Op, caller: Caller, row: Row, same: (string, string) -> bool)
    ensures CallerHistory(ops, caller, same) ==> CallerHistory(ops + [op], caller, same)
    ensures RowHistory(ops, row, same) ==> RowHistory(ops + [op], row, same)
  {
    hide Ran;
    forall request, run | Ran(ops, request, run, same) ensures Ran(ops + [op], request, run, same) {
      RanStays(ops, op, request, run, same);
    }
  }

  lemma RanNow(ops: seq<Op>, c: CallerId, run: ToolRun, same: (string, string) -> bool)
    requires var s := Run(INITIAL, ops, same); c in s.callers && s.callers[c].pc.Running?
    ensures Ran(ops + [DoRun(c, run)], Run(INITIAL, ops, same).callers[c].request, run, same)
  {
    hide Run;
    var more := ops + [DoRun(c, run)];
    assert more[..|ops|] == ops;
    assert RanAt(more, |ops|, Run(INITIAL, ops, same).callers[c].request, run, same);
  }

  lemma {:induction false} RunOneMore(s: State, ops: seq<Op>, op: Op, same: (string, string) -> bool)
    ensures Run(s, ops + [op], same) == Apply(Run(s, ops, same), op, same)
    decreases |ops|
  {
    hide Apply;
    if ops == [] {
      assert [op][1..] == [] && ops + [op] == [op];
      assert Run(Apply(s, op, same), [], same) == Apply(s, op, same);
    } else {
      assert (ops + [op])[1..] == ops[1..] + [op];
      RunOneMore(Apply(s, ops[0], same), ops[1..], op, same);
    }
  }

  /** What a step leaves of the callers: no one else moves, and what comes to mark a row has just run. */
  lemma CallersMove(s: State, op: Op, d: CallerId, same: (string, string) -> bool)
    requires d in Apply(s, op, same).callers
    ensures var caller := Apply(s, op, same).callers[d];
            (caller.pc.Marking? || caller.pc.MarkingFailed?) ==>
              || (d in s.callers && s.callers[d] == caller)
              || (op.DoRun? && op.caller == d && d in s.callers && s.callers[d] == Caller(caller.request, Running)
                  && caller.pc == if op.run.Finished? then Marking(op.run.result) else MarkingFailed(op.run.message))
  {
  }

  /** And of the rows: a row that is settled was before, or is being marked by the one that holds it. */
  lemma RowsMove(s: State, op: Op, key: Key, same: (string, string) -> bool)
    requires Inv(s, same) && key in Apply(s, op, same).db.rows
    ensures var row := Apply(s, op, same).db.rows[key];
            || (key in s.db.rows && s.db.rows[key] == row)
            || row.state.Processing?
            || (op.DoMark? && op.caller in s.callers && s.callers[op.caller].request == row.request
                && var pc := s.callers[op.caller].pc;
                   || (row.state.Succeeded? && pc == Marking(row.state.result))
                   || (row.state.Failed? && pc == MarkingFailed(row.state.message)))
  {
    if op.DoMark? && op.caller in s.callers { assert CallerOk(s.db, s.callers[op.caller], same); }
  }

  lemma HistoryGrows(ops: seq<Op>, op: Op, same: (string, string) -> bool)
    requires Inv(Run(INITIAL, ops, same), same) && History(ops, Run(INITIAL, ops, same), same)
    ensures History(ops + [op], Apply(Run(INITIAL, ops, same), op, same), same)
  {
    hide Run, Apply, Inv, Ran;
    var s := Run(INITIAL, ops, same);
    var t := Apply(s, op, same);
    forall d | d in t.callers ensures CallerHistory(ops + [op], t.callers[d], same) {
      CallersMove(s, op, d, same);
      HistoryStays(ops, op, t.callers[d], Row(t.callers[d].request, Processing), same);
      if op.DoRun? && op.caller == d && d in s.callers && s.callers[d].pc.Running? { RanNow(ops, d, op.run, same); }
    }
    forall key | key in t.db.rows ensures RowHistory(ops + [op], t.db.rows[key], same) {
      RowsMove(s, op, key, same);
      HistoryStays(ops, op, Caller(t.db.rows[key].request, Claiming), t.db.rows[key], same);
      if op.DoMark? && op.caller in s.callers {
        HistoryStays(ops, op, s.callers[op.caller], t.db.rows[key], same);
        assert CallerHistory(ops, s.callers[op.caller], same);
      }
    }
  }

  lemma {:induction false} RunHasHistory(ops: seq<Op>, same: (string, string) -> bool)
    ensures Inv(Run(INITIAL, ops, same), same) && History(ops, Run(INITIAL, ops, same), same)
    decreases |ops|
  {
    RunKeepsInvariant(INITIAL, ops, same);
    hide Inv, History, Apply;
    if ops == [] {
      NoHistoryYet(same);
    } else {
      var before, op := ops[..|ops| - 1], ops[|ops| - 1];
      RunHasHistory(before, same);
      HistoryGrows(before, op, same);
      RunOneMore(INITIAL, before, op, same);
      assert ops == before + [op];
    }
  }

  lemma NoHistoryYet(same: (string, string) -> bool)
    ensures Run(INITIAL, [], same) == INITIAL && History([], INITIAL, same)
  {
  }

  /** One call asks for the execution another one asked for: the same key, tool, agent and call, and the same
      arguments, up to the way they are written. */
  predicate AskedFor(request: Request, ran: Request, same: (string, string) -> bool) {
    && ran.key == request.key && ran.tool == request.tool && ran.agent == request.agent && ran.call == request.call
    && (ran.args == request.args || same(ran.args, request.args))
  }

  /** Whatever interleaves: the result a call returns is, field by field, the one with which the tool run of a
      call for that very execution ended, a call that held the claim of that key. */
  lemma SuccessComesFromItsRun(ops: seq<Op>, same: (string, string) -> bool, c: CallerId, result: Result)
      returns (i: nat, ran: Request)
    requires Succeeds(Run(INITIAL, ops, same), c, result)
    ensures RanAt(ops, i, ran, Finished(result), same)
    ensures AskedFor(Run(INITIAL, ops, same).callers[c].request, ran, same)
  {
    hide Run, RanAt;
    RunHasHistory(ops, same);
    var s := Run(INITIAL, ops, same);
    assert CallerOk(s.db, s.callers[c], same);
    var row := s.db.rows[s.callers[c].request.key];
    assert RowHistory(ops, row, same) && row.request.key == s.callers[c].request.key;
    ran := row.request;
    i :| RanAt(ops, i, ran, Finished(result), same);
  }

  /** A settled row holds what the tool run of the call that claimed it ended with, success or failure. */
  lemma RowsComeFromTheirRun(ops: seq<Op>, same: (string, string) -> bool, key: Key)
    requires key in Run(INITIAL, ops, same).db.rows
    ensures var row := Run(INITIAL, ops, same).db.rows[key];
            && row.request.key == key
            && (row.state.Succeeded? ==> Ran(ops, row.request, Finished(row.state.result), same))
            && (row.state.Failed? ==> exists ran :: Ran(ops, row.request, Broken(row.state.message, ran), same))
  {
    hide Run, Ran;
    RunHasHistory(ops, same);
    assert RowHistory(ops, Run(INITIAL, ops, same).db.rows[key], same);
  }

  // ---- calls that nothing disturbs ----

  /** The steps of one call, as they follow each other in Execute. */
  function Steps(c: CallerId, request: Request, env: Env): seq<Op> {
    [DoClaim(c, env.eligible, env.claim), DoRun(c, env.run), DoMark(c, env.mark), DoReplay(c, env.read)]
  }

  /** The first call for a key: it succeeds, with its tool run's result, if and only if the rows it joins are
      active, no statement fails, the tool run finishes, and the table takes the status. The row it leaves
      and whether the tool ran follow. */
  lemma FirstCallOutcome(db: Db, c: CallerId, request: Request, env: Env, same: (string, string) -> bool)
    requires request.key !in db.rows
    ensures var t := Run(State(db, map[c := Caller(request, Claiming)]), Steps(c, request, env), same);
            var goes := env.eligible && env.claim.Fine?;
            var stored := env.run.Finished? && 100 <= env.run.result.status <= 599;
            && c in t.callers
            && t.callers[c].pc == Returned(
                 if !env.claim.Fine? then Internal
                 else if !env.eligible then (if env.read.Fine? then NotFound else Internal)
                 else if env.run.Broken? then ToolError(env.run.message)
                 else if stored && env.mark.Fine? then Success(env.run.result)
                 else Internal)
            && (request.key in t.db.rows <==> env.eligible && !env.claim.NoEffect?)
            && (request.key in t.db.rows ==> t.db.rows[request.key] == Row(request,
                  if goes && stored && !env.mark.NoEffect? then Succeeded(env.run.result)
                  else if goes && env.run.Broken? && !env.mark.NoEffect? then Failed(env.run.message)
                  else Processing))
            && t.db.effects[request.key] == db.effects[request.key]
                 + (if goes && (env.run.Finished? || env.run.ran) then 1 else 0)
  {
    hide Run, StepRun, StepMark, StepReplay;
    var s := State(db, map[c := Caller(request, Claiming)]);
    FourSteps(s, DoClaim(c, env.eligible, env.claim), DoRun(c, env.run), DoMark(c, env.mark), DoReplay(c, env.read),
        same);
    var claimed := Apply(s, DoClaim(c, env.eligible, env.claim), same);
    if env.eligible && env.claim.Fine? {
      AfterClaim(claimed, c, request, env, same);
    } else {
      AfterNoClaim(claimed, c, request, env, same);
    }
  }

  lemma AfterClaim(s: State, c: CallerId, request: Request, env: Env, same: (string, string) -> bool)
    requires c in s.callers && s.callers[c] == Caller(request, Running)
    requires request.key in s.db.rows && s.db.rows[request.key] == Row(request, Processing)
    ensures var t := Apply(Apply(Apply(s, DoRun(c, env.run), same), DoMark(c, env.mark), same),
                           DoReplay(c, env.read), same);
            var stored := env.run.Finished? && 100 <= env.run.result.status <= 599;
            && c in t.callers && request.key in t.db.rows
            && t.callers[c].pc ==
                 Returned(if env.run.Broken? then ToolError(env.run.message)
                          else if stored && env.mark.Fine? then Success(env.run.result)
                          else Internal)
            && t.db.rows[request.key] == Row(request,
                 if stored && !env.mark.NoEffect? then Succeeded(env.run.result)
                 else if env.run.Broken? && !env.mark.NoEffect? then Failed(env.run.message)
                 else Processing)
            && t.db.effects[request.key] == s.db.effects[request.key]
                 + (if env.run.Finished? || env.run.ran then 1 else 0)
  {
  }

  lemma AfterNoClaim(s: State, c: CallerId, request: Request, env: Env, same: (string, string) -> bool)
    requires c in s.callers && (s.callers[c] == Caller(request, Replaying) || s.callers[c].pc == Returned(Internal))
    requires s.callers[c].pc.Replaying? ==> request.key !in s.db.rows
    ensures var t := Apply(Apply(Apply(s, DoRun(c, env.run), same), DoMark(c, env.mark), same),
                           DoReplay(c, env.read), same);
            c in t.callers && t.db == s.db &&
            t.callers[c].pc == Returned(if s.callers[c].pc.Replaying? && env.read.Fine? then NotFound else Internal)
  {
  }

  /** A later call with the same key, whose read goes through: told the stored result, the stored failure, that
      the outcome is uncertain, or that the key was used for something else; the tool does not run again. */
  lemma LaterCallOutcome(db: Db, c: CallerId, request: Request, env: Env, same: (string, string) -> bool)
    requires request.key in db.rows && env.claim.Fine? && env.read.Fine?
    ensures var row := db.rows[request.key];
            var other := row.request.tool != request.tool || row.request.agent != request.agent
                         || row.request.call != request.call || !same(row.request.args, request.args);
            Run(State(db, map[c := Caller(request, Claiming)]), Steps(c, request, env), same)
            == State(db, map[c := Caller(request, Returned(
                 if other then DifferentExecution
                 else match row.state
                   case Succeeded(result) => Success(result)
                   case Failed(message) => FailedEarlier(message)
                   case Processing => Uncertain))])
  {
    hide Run;
    var s := State(db, map[c := Caller(request, Claiming)]);
    FourSteps(s, DoClaim(c, env.eligible, env.claim), DoRun(c, env.run), DoMark(c, env.mark), DoReplay(c, env.read),
        same);
    var a := Apply(s, DoClaim(c, env.eligible, env.claim), same);
    assert a == State(db, map[c := Caller(request, Replaying)]);
  }
}
