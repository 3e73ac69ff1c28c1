/** Without the assumption that a connection on which a write or deadline call failed delivers nothing
    more (server/internal/integrations/freeswitch/client.go:187-200 returns the error and keeps the
    connection): whose reply does the next command get? */
module EslLate {
  import opened Basics
  import opened EslClient

  datatype LateOp = Normal(op: Op) | LateRead(conn: ConnId)

  /** The read loop takes the next reply off the wire, whatever became of earlier writes. */
  function TakeReply(s: State, k: ConnId): State {
    if k in s.conns && s.conns[k].loop.Reading? && s.conns[k].read < |s.conns[k].sent|
    then s.(conns := s.conns[k := s.conns[k].(read := s.conns[k].read + 1, loop := Holding(s.conns[k].read))])
    else s
  }

  function ApplyLate(s: State, op: LateOp): State {
    match op
    case Normal(o) => Apply(s, o)
    case LateRead(k) => TakeReply(s, k)
  }

  function RunLate(s: State, ops: seq<LateOp>): State
    decreases |ops|
  {
    if ops == [] then s else RunLate(ApplyLate(s, ops[0]), ops[1..])
  }

  /** Commands the server has received and whose replies no caller has been handed. */
  function Owes(c: Conn): int { |c.sent| - HandedOut(c) }

  predicate InOrder(c: Conn) {
    c.read <= |c.sent| && (c.loop.Holding? ==> c.read > 0 && c.loop.reply == c.read - 1)
  }

  ghost predicate AllInOrder(s: State) { forall k :: k in s.conns ==> InOrder(s.conns[k]) }

  lemma WriteKeepsOrder(s: State, write: Write)
    requires AllInOrder(s) && s.active.Picked? && s.active.conn in s.conns
    ensures AllInOrder(StepWrite(s, write))
  {
  }

  /** What a step other than a write does to one connection. `delivered` says it handed out the held reply. */
  predicate LoopMoves(c: Conn, d: Conn, delivered: bool) {
    && d.sent == c.sent
    && (|| (d.read == c.read && d.loop == c.loop)
        || (c.loop.Reading? && c.read < |c.sent| && d.read == c.read + 1 && d.loop == Holding(c.read))
        || (d.read == c.read && d.loop.Ended?)
        || (d.read == c.read && c.loop.Holding? && d.loop.Reading? && delivered))
  }

  lemma TakeMoves(s: State, k: ConnId, taken: ConnId)
    requires k in s.conns
    ensures k in TakeReply(s, taken).conns && LoopMoves(s.conns[k], TakeReply(s, taken).conns[k], false)
  {
  }

  lemma EndMoves(s: State, op: Op, k: ConnId)
    requires k in s.conns && (op.LoopFails? || op.LoopGivesUp?)
    ensures k in Apply(s, op).conns && LoopMoves(s.conns[k], Apply(s, op).conns[k], false)
  {
  }

  lemma LifeMoves(s: State, op: Op, k: ConnId)
    requires k in s.conns && (op.DoInstall? || op.Finish? || op.Retire?)
    ensures k in Apply(s, op).conns && LoopMoves(s.conns[k], Apply(s, op).conns[k], false)
  {
  }

  lemma ReadMoves(s: State, op: Op, k: ConnId)
    requires k in s.conns && (op.LoopReads? || op.Deliver?)
    ensures var t := Apply(s, op);
            k in t.conns && LoopMoves(s.conns[k], t.conns[k], op.Deliver? && s.active.Waiting? && t.active.Idle?)
  {
  }

  lemma StepMoves(s: State, op: LateOp, k: ConnId)
    requires k in s.conns && (op.LateRead? || !op.op.DoWrite?)
    ensures var t := ApplyLate(s, op);
            && k in t.conns
            && LoopMoves(s.conns[k], t.conns[k], op == Normal(Deliver) && s.active.Waiting? && t.active.Idle?)
  {
    if op.LateRead? {
      TakeMoves(s, k, op.conn);
    } else if op.op.LoopFails? || op.op.LoopGivesUp? {
      EndMoves(s, op.op, k);
    } else if op.op.DoInstall? || op.op.Finish? || op.op.Retire? {
      LifeMoves(s, op.op, k);
    } else if op.op.LoopReads? || op.op.Deliver? {
      ReadMoves(s, op.op, k);
    }
  }

  /** A connection that was not there before is a new one. */
  lemma NewIsEmpty(s: State, op: LateOp, k: ConnId)
    requires k in ApplyLate(s, op).conns && k !in s.conns
    ensures InOrder(ApplyLate(s, op).conns[k])
  {
    hide StepWrite;
    if op.Normal? && op.op.DoWrite? && s.active.Picked? && s.active.conn in s.conns { WriteAddsNone(s, op.op.write); }
  }

  lemma WriteAddsNone(s: State, write: Write)
    requires s.active.Picked? && s.active.conn in s.conns
    ensures StepWrite(s, write).conns.Keys == s.conns.Keys
    ensures forall k :: k in s.conns ==> s.conns[k].sent <= StepWrite(s, write).conns[k].sent
    ensures StepWrite(s, write).returned == s.returned
  {
  }

  lemma ApplyKeepsOrder(s: State, op: LateOp)
    requires AllInOrder(s)
    ensures AllInOrder(ApplyLate(s, op))
  {
    hide StepWrite, Apply;
    if op.Normal? && op.op.DoWrite? {
      WriteOrIdle(s, op.op.write);
      if s.active.Picked? && s.active.conn in s.conns { WriteKeepsOrder(s, op.op.write); }
    } else {
      hide ApplyLate;
      forall k | k in ApplyLate(s, op).conns ensures InOrder(ApplyLate(s, op).conns[k]) {
        if k in s.conns { StepMoves(s, op, k); } else { NewIsEmpty(s, op, k); }
      }
    }
  }

  lemma WriteOrIdle(s: State, write: Write)
    ensures Apply(s, DoWrite(write))
            == if s.active.Picked? && s.active.conn in s.conns then StepWrite(s, write) else s
  {
  }

  lemma {:induction false} RunKeepsOrder(s: State, ops: seq<LateOp>)
    requires AllInOrder(s)
    ensures AllInOrder(RunLate(s, ops))
    decreases |ops|
  {
    hide ApplyLate, AllInOrder;
    if ops != [] {
      ApplyKeepsOrder(s, ops[0]);
      RunKeepsOrder(ApplyLate(s, ops[0]), ops[1..]);
    }
  }

  // ---- commands written to a connection that owes nothing ----

  /** What a written command waits for: the only reply the connection owes is its own. */
  predicate WaitsForOwn(s: State) {
    s.active.Waiting? ==>
      && s.active.conn in s.conns
      && var c := s.conns[s.active.conn];
         && s.active.index + 1 == |c.sent| && c.sent[s.active.index] == s.active.command
         && (!c.loop.Ended? ==> HandedOut(c) == s.active.index)
  }

  predicate Paired(s: State, r: EslClient.Reply) {
    r.conn in s.conns && r.index < |s.conns[r.conn].sent| && s.conns[r.conn].sent[r.index] == r.command
  }

  ghost predicate Pairing(s: State) {
    AllInOrder(s) && WaitsForOwn(s) && forall i :: 0 <= i < |s.returned| ==> Paired(s, s.returned[i])
  }

  /** The step writes a command only to a connection that owes nothing. */
  predicate WritesSettled(s: State, op: LateOp) {
    op == Normal(DoWrite(Written)) && s.active.Picked? && s.active.conn in s.conns ==>
      Owes(s.conns[s.active.conn]) == 0
  }

  predicate AllSettled(s: State, ops: seq<LateOp>)
    decreases |ops|
  {
    ops == [] || (WritesSettled(s, ops[0]) && AllSettled(ApplyLate(s, ops[0]), ops[1..]))
  }

  lemma WriteWaits(s: State, write: Write)
    requires s.active.Picked? && s.active.conn in s.conns && InOrder(s.conns[s.active.conn])
    requires write.Written? ==> Owes(s.conns[s.active.conn]) == 0
    ensures WaitsForOwn(StepWrite(s, write))
  {
  }

  /** Only a write makes a command wait. */
  lemma WaitingStays(s: State, op: LateOp)
    requires op.LateRead? || !op.op.DoWrite?
    ensures var t := ApplyLate(s, op);
            t.active.Waiting? ==> t.active == s.active && !(op == Normal(Deliver) && t.active.Idle?)
  {
  }

  lemma StepWaits(s: State, op: LateOp)
    requires AllInOrder(s) && WaitsForOwn(s) && WritesSettled(s, op)
    ensures WaitsForOwn(ApplyLate(s, op))
  {
    hide StepWrite, Apply;
    if op.Normal? && op.op.DoWrite? {
      WriteOrIdle(s, op.op.write);
      if s.active.Picked? && s.active.conn in s.conns { WriteWaits(s, op.op.write); }
    } else {
      hide ApplyLate;
      WaitingStays(s, op);
      if ApplyLate(s, op).active.Waiting? { StepMoves(s, op, s.active.conn); }
    }
  }

  lemma SentOnlyGrows(s: State, op: LateOp, k: ConnId)
    requires k in s.conns
    ensures k in ApplyLate(s, op).conns && s.conns[k].sent <= ApplyLate(s, op).conns[k].sent
  {
    hide StepWrite, Apply;
    if op.Normal? && op.op.DoWrite? {
      WriteOrIdle(s, op.op.write);
      if s.active.Picked? && s.active.conn in s.conns { WriteAddsNone(s, op.op.write); }
    } else {
      hide ApplyLate;
      StepMoves(s, op, k);
    }
  }

  lemma OthersReturnNothing(s: State, op: LateOp)
    requires op != Normal(Deliver)
    ensures ApplyLate(s, op).returned == s.returned
  {
    hide StepWrite;
    if op.Normal? && op.op.DoWrite? && s.active.Picked? && s.active.conn in s.conns { WriteAddsNone(s, op.op.write); }
  }

  lemma DeliversOwn(s: State)
    requires AllInOrder(s) && WaitsForOwn(s)
    ensures var t := Apply(s, Deliver);
            || t.returned == s.returned
            || (|t.returned| == |s.returned| + 1 && t.returned[..|s.returned|] == s.returned
                && Paired(t, t.returned[|s.returned|]))
  {
    if s.active.Waiting? { assert InOrder(s.conns[s.active.conn]); }
  }

  lemma ApplyKeepsPairing(s: State, op: LateOp)
    requires Pairing(s) && WritesSettled(s, op)
    ensures Pairing(ApplyLate(s, op))
  {
    hide Apply, TakeReply, WaitsForOwn, AllInOrder, WritesSettled;
    var t := ApplyLate(s, op);
    ApplyKeepsOrder(s, op);
    StepWaits(s, op);
    forall i | 0 <= i < |s.returned| ensures Paired(t, s.returned[i]) {
      SentOnlyGrows(s, op, s.returned[i].conn);
    }
    if op == Normal(Deliver) {
      DeliversOwn(s);
      var n := |s.returned|;
      assert forall i :: 0 <= i < n <= |t.returned| && t.returned[..n] == s.returned ==>
          t.returned[i] == t.returned[..n][i];
    } else {
      OthersReturnNothing(s, op);
    }
  }

  lemma {:induction false} RunKeepsPairing(s: State, ops: seq<LateOp>)
    requires Pairing(s) && AllSettled(s, ops)
    ensures Pairing(RunLate(s, ops))
    decreases |ops|
  {
    hide ApplyLate, Pairing;
    if ops != [] {
      ApplyKeepsPairing(s, ops[0]);
      RunKeepsPairing(ApplyLate(s, ops[0]), ops[1..]);
    }
  }

  /** In every run, late replies and all: if each command is written to a connection that owes nothing, every
      frame handed out is the reply to its own command. */
  lemma PairingHoldsWhenSettled(ops: seq<LateOp>, i: nat)
    requires AllSettled(INITIAL, ops) && i < |RunLate(INITIAL, ops).returned|
    ensures var s := RunLate(INITIAL, ops); Paired(s, s.returned[i])
  {
    RunKeepsPairing(INITIAL, ops);
  }

  /** And wherever a run has led: a command that is written now and then handed the next reply is handed the
      oldest one owed, which is its own exactly when nothing was owed before the write. */
  lemma NextReplyIsItsOwnExactlyWhen(ops: seq<LateOp>)
    requires var s := RunLate(INITIAL, ops);
             s.active.Picked? && s.active.conn in s.conns && !s.conns[s.active.conn].loop.Ended?
    ensures var s := RunLate(INITIAL, ops);
            var k, command := s.active.conn, s.active.command;
            var t := Apply(TakeReply(StepWrite(s, Written), k), Deliver);
            && k in t.conns && t.conns[k].sent == s.conns[k].sent + [command]
            && |t.returned| == |s.returned| + 1
            && var r := t.returned[|s.returned|];
               && r.command == command && r.conn == k && r.index == HandedOut(s.conns[k])
               && (r.index == |s.conns[k].sent| <==> Owes(s.conns[k]) == 0)
  {
    hide RunLate;
    RunKeepsOrder(INITIAL, ops);
    var s := RunLate(INITIAL, ops);
    assert InOrder(s.conns[s.active.conn]);
  }

  // ---- every continuation of a write ----

  /** In a state after `w`, in which a command began to wait: what was sent is still there, and while that
      command waits, its connection's next reply is number `next`. */
  predicate StillNext(w: State, next: int, t: State)
    requires w.active.Waiting? && w.active.conn in w.conns
  {
    var k := w.active.conn;
    && k in t.conns && w.conns[k].sent <= t.conns[k].sent
    && (t.active == w.active ==>
          t.conns[k].sent == w.conns[k].sent && (t.conns[k].loop.Ended? || HandedOut(t.conns[k]) == next))
  }

  /** A wait that starts later on that connection is for a later command. */
  lemma WriteStartsLater(w: State, next: int, t: State, write: Write)
    requires w.active.Waiting? && w.active.conn in w.conns && StillNext(w, next, t)
    requires w.active.index < |w.conns[w.active.conn].sent|
    requires t.active.Picked? && t.active.conn in t.conns
    ensures StillNext(w, next, StepWrite(t, write))
  {
  }

  lemma StepKeepsNext(w: State, next: int, t: State, op: LateOp)
    requires w.active.Waiting? && w.active.conn in w.conns && w.active.index < |w.conns[w.active.conn].sent|
    requires AllInOrder(t) && StillNext(w, next, t)
    ensures StillNext(w, next, ApplyLate(t, op))
  {
    hide StepWrite, Apply;
    if op.Normal? && op.op.DoWrite? {
      WriteOrIdle(t, op.op.write);
      if t.active.Picked? && t.active.conn in t.conns { WriteStartsLater(w, next, t, op.op.write); }
    } else {
      hide ApplyLate;
      WaitingStays(t, op);
      StepMoves(t, op, w.active.conn);
    }
  }

  lemma {:induction false} RunKeepsNext(w: State, next: int, t: State, ops: seq<LateOp>)
    requires w.active.Waiting? && w.active.conn in w.conns && w.active.index < |w.conns[w.active.conn].sent|
    requires AllInOrder(t) && StillNext(w, next, t)
    ensures AllInOrder(RunLate(t, ops)) && StillNext(w, next, RunLate(t, ops))
    decreases |ops|
  {
    hide ApplyLate, StillNext, AllInOrder;
    if ops != [] {
      ApplyKeepsOrder(t, ops[0]);
      StepKeepsNext(w, next, t, ops[0]);
      RunKeepsNext(w, next, ApplyLate(t, ops[0]), ops[1..]);
    }
  }

  /** The reply a deliver step hands out, if it hands one out. */
  function Handed(t: State): Option<EslClient.Reply> {
    var u := Apply(t, Deliver);
    if |u.returned| > |t.returned| then Some(u.returned[|t.returned|]) else None
  }

  lemma HandsOutNext(t: State)
    requires AllInOrder(t) && t.active.Waiting? && t.active.conn in t.conns
    ensures var r := Handed(t);
            r.Some? ==>
              && r.value.command == t.active.command && r.value.conn == t.active.conn
              && r.value.index == HandedOut(t.conns[t.active.conn]) && t.conns[t.active.conn].loop.Holding?
  {
    assert InOrder(t.conns[t.active.conn]);
  }

  /** However a run goes on after the command of `w` began to wait: whatever it is handed while it still waits
      is the reply to itself. */
  ghost predicate AlwaysHandedOwn(w: State) {
    forall ops: seq<LateOp> :: w.active.Waiting? && RunLate(w, ops).active == w.active && Handed(RunLate(w, ops)).Some?
      ==> Handed(RunLate(w, ops)).value == Reply(w.active.command, w.active.conn, w.active.index)
  }

  lemma HandedIsNext(w: State, next: int, ops: seq<LateOp>)
    requires w.active.Waiting? && w.active.conn in w.conns && w.active.index < |w.conns[w.active.conn].sent|
    requires AllInOrder(w) && StillNext(w, next, w)
    requires RunLate(w, ops).active == w.active && Handed(RunLate(w, ops)).Some?
    ensures var r := Handed(RunLate(w, ops)).value;
            r.command == w.active.command && r.conn == w.active.conn && r.index == next
  {
    hide RunLate, AllInOrder, Handed;
    RunKeepsNext(w, next, w, ops);
    HandsOutNext(RunLate(w, ops));
  }

  /** Wherever a run has led: a command written now is handed its own reply in every continuation, however
      reads, other connections and disconnects interleave, if and only if its connection owed nothing. */
  lemma OwnInEveryContinuationExactlyWhen(ops: seq<LateOp>)
    requires var s := RunLate(INITIAL, ops);
             s.active.Picked? && s.active.conn in s.conns && !s.conns[s.active.conn].loop.Ended?
    ensures var s := RunLate(INITIAL, ops);
            AlwaysHandedOwn(StepWrite(s, Written)) <==> Owes(s.conns[s.active.conn]) == 0
  {
    RunKeepsOrder(INITIAL, ops);
    OwnFromHere(RunLate(INITIAL, ops));
  }

  lemma OwnFromHere(s: State)
    requires AllInOrder(s)
    requires s.active.Picked? && s.active.conn in s.conns && !s.conns[s.active.conn].loop.Ended?
    ensures AlwaysHandedOwn(StepWrite(s, Written)) <==> Owes(s.conns[s.active.conn]) == 0
  {
    hide RunLate, Handed, Apply, AllInOrder;
    var k := s.active.conn;
    var next := HandedOut(s.conns[k]);
    var w := StepWrite(s, Written);
    WriteKeepsOrder(s, Written);
    if Owes(s.conns[k]) == 0 {
      forall more: seq<LateOp> | RunLate(w, more).active == w.active && Handed(RunLate(w, more)).Some?
        ensures Handed(RunLate(w, more)).value == Reply(w.active.command, w.active.conn, w.active.index)
      {
        HandedIsNext(w, next, more);
      }
    } else {
      OldestComesFirst(s);
    }
  }

  lemma OldestComesFirst(s: State)
    requires AllInOrder(s)
    requires s.active.Picked? && s.active.conn in s.conns && !s.conns[s.active.conn].loop.Ended?
    requires Owes(s.conns[s.active.conn]) != 0
    ensures !AlwaysHandedOwn(StepWrite(s, Written))
  {
    hide RunLate;
    var k := s.active.conn;
    assert InOrder(s.conns[k]);
    var w := StepWrite(s, Written);
    LastStep(w, LateRead(k));
    var t := RunLate(w, [LateRead(k)]);
    assert t == TakeReply(w, k);
    assert Handed(t).Some? && Handed(t).value.index == HandedOut(s.conns[k]);
  }

  // ---- failed writes ----

  /** What a failing call leaves behind on a connection that was in order: it stays the current one, and it
      owes a reply exactly when the server received the command. */
  lemma FailedWriteOwesExactlyWhenReceived(s: State, write: Write)
    requires s.active.Picked? && s.current == Some(s.active.conn) && s.active.conn in s.conns
    requires Owes(s.conns[s.active.conn]) == 0 && !write.Written?
    ensures var t := StepWrite(s, write);
            && t.current == s.current && t.active.Idle?
            && Owes(t.conns[s.active.conn]) == (if write.ClearFailed? || write == WriteFailed(true) then 1 else 0)
  {
  }

  // Clearing the deadline fails after command 7 was written; command 8 is then handed its reply.
  const MISPAIRED: seq<LateOp> := [
    Normal(DoInstall(0)), Normal(Begin(7)), Normal(Pick), Normal(DoWrite(ClearFailed)),
    Normal(Begin(8)), Normal(Pick), Normal(DoWrite(Written)), LateRead(0), Normal(Deliver)]

  lemma TwoThen(s: State, a: LateOp, b: LateOp, rest: seq<LateOp>)
    ensures RunLate(s, [a, b] + rest) == RunLate(ApplyLate(ApplyLate(s, a), b), rest)
  {
    hide ApplyLate;
    var ops := [a, b] + rest;
    assert ops[1..] == [b] + rest && ops[1..][1..] == rest;
    assert RunLate(ApplyLate(s, a), [b] + rest) == RunLate(ApplyLate(ApplyLate(s, a), b), ([b] + rest)[1..]);
  }

  // Command 7 is written and its deadline cannot be cleared.
  const OWING := State(map[0 := Conn([7], 0, Reading, true, false, 0)], Some(0), false, Idle, multiset{}, [])

  lemma WriteFails()
    ensures RunLate(INITIAL, MISPAIRED) == RunLate(OWING, MISPAIRED[4..])
  {
    hide RunLate;
    var a := Apply(Apply(INITIAL, DoInstall(0)), Begin(7));
    var b := Apply(Apply(a, Pick), DoWrite(ClearFailed));
    assert b.conns[0].sent == [] + [7] == [7];
    assert b.conns[0] == OWING.conns[0];
    assert b.conns == OWING.conns;
    assert MISPAIRED == [MISPAIRED[0], MISPAIRED[1]] + MISPAIRED[2..];
    TwoThen(INITIAL, MISPAIRED[0], MISPAIRED[1], MISPAIRED[2..]);
    assert MISPAIRED[2..] == [MISPAIRED[2], MISPAIRED[3]] + MISPAIRED[4..];
    TwoThen(a, MISPAIRED[2], MISPAIRED[3], MISPAIRED[4..]);
  }

  lemma NextIsMispaired()
    ensures var s := RunLate(OWING, MISPAIRED[4..]);
            && s.returned == [Reply(8, 0, 0)] && 0 in s.conns && s.conns[0].sent == [7, 8]
  {
    hide RunLate;
    var c := Apply(Apply(OWING, Begin(8)), Pick);
    var d := TakeReply(Apply(c, DoWrite(Written)), 0);
    assert MISPAIRED[4..] == [MISPAIRED[4], MISPAIRED[5]] + MISPAIRED[6..];
    TwoThen(OWING, MISPAIRED[4], MISPAIRED[5], MISPAIRED[6..]);
    assert MISPAIRED[6..] == [MISPAIRED[6], MISPAIRED[7]] + MISPAIRED[8..];
    TwoThen(c, MISPAIRED[6], MISPAIRED[7], MISPAIRED[8..]);
    assert MISPAIRED[8..] == [MISPAIRED[8]];
    LastStep(d, MISPAIRED[8]);
  }

  lemma LateReplyMispairs()
    ensures var s := RunLate(INITIAL, MISPAIRED);
            && s.returned == [Reply(8, 0, 0)] && 0 in s.conns && s.conns[0].sent == [7, 8]
  {
    hide RunLate;
    WriteFails();
    NextIsMispaired();
  }

  lemma LastStep(s: State, op: LateOp)
    ensures RunLate(s, [op]) == ApplyLate(s, op)
  {
    hide ApplyLate;
    assert [op][1..] == [];
    assert RunLate(ApplyLate(s, op), []) == ApplyLate(s, op);
  }
}
