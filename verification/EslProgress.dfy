/** What the event-socket client can always do and what it never does again: commands are answered one after
    another on one connection, a lost connection ends its waiter and its read loop and can be replaced, and after
    Close none is. */
module EslProgress {
  import opened Basics
  import opened EslClient

  // ---- what holds of every connection ----

  /** The current connection has a running read loop; any other has its done channel closed, or a disconnect
      about to close it; and the read error is offered before that. */
  predicate Standing(c: Conn, current: bool, closing: nat) {
    && (c.loop.Ended? ==> !current)
    && (current || closing + c.doneCloses >= 1)
    && (c.doneCloses > 0 ==> c.readErr)
  }

  ghost predicate AllStanding(s: State) {
    forall k :: k in s.conns ==> Standing(s.conns[k], s.current == Some(k), s.closing[k])
  }

  ghost predicate Sure(s: State) { Inv(s) && AllStanding(s) }

  lemma WriteKeepsStanding(s: State, write: Write)
    requires AllStanding(s) && s.active.Picked? && s.active.conn in s.conns
    ensures AllStanding(StepWrite(s, write))
  {
  }

  lemma LoopKeepsStanding(s: State, op: Op)
    requires AllStanding(s) && (op.LoopReads? || op.LoopFails? || op.LoopGivesUp? || op.Deliver?)
    requires forall k :: k in s.conns && s.conns[k].doneCloses > 0 ==> s.current != Some(k)
    ensures AllStanding(Apply(s, op))
  {
    hide FinishDisconnect;
  }

  lemma OthersKeepStanding(s: State, op: Op)
    requires AllStanding(s) && !op.DoWrite? && !op.LoopReads? && !op.LoopFails? && !op.LoopGivesUp? && !op.Deliver?
    requires s.current.Some? ==> s.current.value in s.conns
    ensures AllStanding(Apply(s, op))
  {
    hide StepWrite, SetLoop;
  }

  lemma DoneIsNotCurrent(s: State)
    requires Inv(s)
    ensures forall k :: k in s.conns && s.conns[k].doneCloses > 0 ==> s.current != Some(k)
  {
    forall k | k in s.conns && s.conns[k].doneCloses > 0 ensures s.current != Some(k) { assert ConnOk(s, k); }
  }

  lemma ApplyKeepsSure(s: State, op: Op)
    requires Sure(s)
    ensures Sure(Apply(s, op))
  {
    ApplyKeepsInvariant(s, op);
    DoneIsNotCurrent(s);
    assert s.current.Some? ==> s.current.value in s.conns by { CurrentIsThere(s); }
    hide Inv, AllStanding, StepWrite;
    if op.DoWrite? {
      if s.active.Picked? && s.active.conn in s.conns { WriteKeepsStanding(s, op.write); }
    } else if op.LoopReads? || op.LoopFails? || op.LoopGivesUp? || op.Deliver? {
      LoopKeepsStanding(s, op);
    } else {
      OthersKeepStanding(s, op);
    }
  }

  lemma {:induction false} RunKeepsSure(s: State, ops: seq<Op>)
    requires Sure(s)
    ensures Sure(Run(s, ops))
    decreases |ops|
  {
    hide Sure, Apply;
    if ops != [] {
      ApplyKeepsSure(s, ops[0]);
      RunKeepsSure(Apply(s, ops[0]), ops[1..]);
    }
  }

  lemma FromStart(ops: seq<Op>)
    ensures Sure(Run(INITIAL, ops))
  {
    RunKeepsSure(INITIAL, ops);
  }

  /** In every run the current connection is one whose read loop runs. */
  lemma CurrentIsAlive(ops: seq<Op>)
    requires Run(INITIAL, ops).current.Some?
    ensures var s := Run(INITIAL, ops); s.current.value in s.conns && !s.conns[s.current.value].loop.Ended?
  {
    FromStart(ops);
    CurrentIsThere(Run(INITIAL, ops));
  }

  // ---- a connection that was let go of ----

  /** Wherever a connection is no longer the current one: closing its done channel, if that is still to be done,
      lets its read loop end and tells a command that waits on it; nothing else has to happen. */
  lemma LettingGoEndsBoth(ops: seq<Op>, k: ConnId)
    requires var s := Run(INITIAL, ops); k in s.conns && s.current != Some(k)
    ensures var t := Run(Run(INITIAL, ops), [Finish(k), LoopFails(k)] + [LoopGivesUp(k), WaitFails]);
            && k in t.conns && t.conns[k].loop.Ended? && t.conns[k].doneCloses == 1 && t.conns[k].readErr
            && !(t.active.Waiting? && t.active.conn == k)
  {
    hide Run;
    FromStart(ops);
    var s := Run(INITIAL, ops);
    assert Standing(s.conns[k], false, s.closing[k]) && ConnOk(s, k);
    hide Sure;
    FourSteps(s, Finish(k), LoopFails(k), LoopGivesUp(k), WaitFails);
    Closed(s, k);
    LoopEnds(Apply(s, Finish(k)), k);
  }

  lemma Closed(s: State, k: ConnId)
    requires k in s.conns && s.current != Some(k)
    requires Standing(s.conns[k], false, s.closing[k]) && s.conns[k].doneCloses + s.closing[k] <= 1
    ensures var t := Apply(s, Finish(k));
            && k in t.conns && t.conns[k].doneCloses == 1 && t.conns[k].readErr && t.current == s.current
            && t.active == s.active
  {
  }

  lemma LoopEnds(s: State, k: ConnId)
    requires k in s.conns && s.current != Some(k) && s.conns[k].doneCloses == 1 && s.conns[k].readErr
    ensures var t := Apply(Apply(Apply(s, LoopFails(k)), LoopGivesUp(k)), WaitFails);
            && k in t.conns && t.conns[k].loop.Ended? && t.conns[k].doneCloses == 1 && t.conns[k].readErr
            && !(t.active.Waiting? && t.active.conn == k)
  {
    var a := Apply(s, LoopFails(k));
    var b := Apply(a, LoopGivesUp(k));
    assert a.conns[k].doneCloses == 1 && a.active == s.active;
    assert b.conns[k].loop.Ended? && b.active == s.active;
  }

  lemma {:induction false} RunSplits(s: State, a: seq<Op>, b: seq<Op>)
    ensures Run(s, a + b) == Run(Run(s, a), b)
    decreases |a|
  {
    hide Apply;
    if a == [] {
      assert a + b == b;
    } else {
      assert (a + b)[1..] == a[1..] + b;
      RunSplits(Apply(s, a[0]), a[1..], b);
    }
  }

  lemma TwoSteps(s: State, a: Op, b: Op)
    ensures Run(s, [a, b]) == Apply(Apply(s, a), b)
  {
    hide Apply;
    assert [a, b][1..] == [b] && [b][1..] == [];
    assert Run(Apply(s, a), [b]) == Apply(Apply(s, a), b);
  }

  lemma FourSteps(s: State, a: Op, b: Op, c: Op, d: Op)
    ensures Run(s, [a, b] + [c, d]) == Apply(Apply(Apply(Apply(s, a), b), c), d)
  {
    hide Apply, Run;
    RunSplits(s, [a, b], [c, d]);
    TwoSteps(s, a, b);
    TwoSteps(Apply(Apply(s, a), b), c, d);
  }

  // ---- commands one after another ----

  /** Ready for a command: idle, with a current connection that owes nothing. */
  predicate ReadyOn(s: State, k: ConnId) {
    && s.active.Idle? && s.current == Some(k) && k in s.conns
    && s.conns[k].loop.Reading? && !s.conns[k].dead && s.conns[k].read == |s.conns[k].sent|
  }

  /** The steps of commands that nothing disturbs. */
  function Exchange(command: Command, k: ConnId): seq<Op> {
    [Begin(command), Pick] + [DoWrite(Written), LoopReads(k)] + [Deliver]
  }

  function Exchanges(commands: seq<Command>, k: ConnId): seq<Op> {
    if commands == [] then [] else Exchange(commands[0], k) + Exchanges(commands[1..], k)
  }

  lemma ExchangeAnswers(s: State, command: Command, k: ConnId)
    requires ReadyOn(s, k)
    ensures var t := Run(s, Exchange(command, k));
            && ReadyOn(t, k) && t.conns[k].sent == s.conns[k].sent + [command]
            && t.returned == s.returned + [Reply(command, k, |s.conns[k].sent|)]
  {
    hide Run, Apply;
    RunSplits(s, [Begin(command), Pick] + [DoWrite(Written), LoopReads(k)], [Deliver]);
    FourSteps(s, Begin(command), Pick, DoWrite(Written), LoopReads(k));
    OneStep(Apply(Apply(Apply(Apply(s, Begin(command)), Pick), DoWrite(Written)), LoopReads(k)), Deliver);
    CommandIsWritten(s, command, k);
    ReplyIsHandedOver(Apply(Apply(Apply(s, Begin(command)), Pick), DoWrite(Written)), k);
  }

  lemma CommandIsWritten(s: State, command: Command, k: ConnId)
    requires ReadyOn(s, k)
    ensures var t := Apply(Apply(Apply(s, Begin(command)), Pick), DoWrite(Written));
            && t.active == Waiting(command, k, |s.conns[k].sent|) && t.current == Some(k) && t.returned == s.returned
            && t.conns == s.conns[k := s.conns[k].(sent := s.conns[k].sent + [command])]
  {
  }

  lemma ReplyIsHandedOver(s: State, k: ConnId)
    requires s.active.Waiting? && s.active.conn == k && s.current == Some(k) && k in s.conns
    requires s.conns[k].loop.Reading? && !s.conns[k].dead && s.conns[k].read + 1 == |s.conns[k].sent|
    ensures var t := Apply(Apply(s, LoopReads(k)), Deliver);
            && ReadyOn(t, k) && t.conns[k].sent == s.conns[k].sent
            && t.returned == s.returned + [Reply(s.active.command, k, s.conns[k].read)]
  {
  }

  lemma OneStep(s: State, op: Op)
    ensures Run(s, [op]) == Apply(s, op)
  {
    hide Apply;
    assert [op][1..] == [];
    assert Run(Apply(s, op), []) == Apply(s, op);
  }

  /** Any number of commands on one connection, undisturbed: each is written and answered in its turn, by its own
      reply, and the connection is ready for the next. */
  lemma {:induction false} ConnectionServesOn(s: State, commands: seq<Command>, k: ConnId)
    requires ReadyOn(s, k)
    ensures var t := Run(s, Exchanges(commands, k));
            && ReadyOn(t, k) && t.conns[k].sent == s.conns[k].sent + commands
            && |t.returned| == |s.returned| + |commands| && s.returned <= t.returned
            && forall i :: 0 <= i < |commands| ==>
                 t.returned[|s.returned| + i] == Reply(commands[i], k, |s.conns[k].sent| + i)
    decreases |commands|
  {
    hide Run, ReadyOn, Exchange;
    if commands == [] {
      Stays(s);
      assert s.conns[k].sent + commands == s.conns[k].sent by { assert k in s.conns by { Known(s, k); } }
    } else {
      Known(s, k);
      var a := Run(s, Exchange(commands[0], k));
      ExchangeAnswers(s, commands[0], k);
      RunSplits(s, Exchange(commands[0], k), Exchanges(commands[1..], k));
      ConnectionServesOn(a, commands[1..], k);
      assert commands == [commands[0]] + commands[1..];
      Known(a, k);
      assert a.conns[k].sent + commands[1..] == s.conns[k].sent + commands;
    }
  }

  lemma Stays(s: State)
    ensures Run(s, []) == s
  {
  }

  lemma Known(s: State, k: ConnId)
    requires ReadyOn(s, k)
    ensures k in s.conns
  {
  }

  /** A command that is refused for a line break leaves everything as it was. */
  lemma LineBreakChangesNothing(ops: seq<Op>, command: Command)
    requires Run(INITIAL, ops).active.Idle?
    ensures var s := Run(INITIAL, ops);
            Run(s, [Begin(command), Pick, DoWrite(LineBreak)]) == s
  {
    FromStart(ops);
    var s := Run(INITIAL, ops);
    CurrentIsThere(s);
    hide Run, Sure;
    ThreeSteps(s, Begin(command), Pick, DoWrite(LineBreak));
  }

  // ---- a way back from everywhere ----

  ghost predicate Reaches(s: State, t: State) { exists ops :: Run(s, ops) == t }

  lemma ReachesItself(s: State)
    ensures Reaches(s, s)
  {
    assert Run(s, []) == s;
  }

  lemma Next(start: State, s: State, op: Op) returns (t: State)
    requires Reaches(start, s) && Sure(s)
    ensures Reaches(start, t) && Sure(t) && t == Apply(s, op)
  {
    hide Apply, Sure;
    var ops :| Run(start, ops) == s;
    RunSplits(start, ops, [op]);
    OneStep(Run(start, ops), op);
    ApplyKeepsSure(s, op);
    t := Apply(s, op);
  }

  lemma TimesOut(start: State, s: State) returns (t: State)
    requires Reaches(start, s) && Sure(s) && (s.active.Waiting? || s.active.TimedOut?)
    ensures Reaches(start, t) && Sure(t) && t.active.Idle? && t.closed == s.closed
    ensures s.current == Some(s.active.conn) ==> t.current.None?
  {
    hide Reaches, Sure;
    t := s;
    if t.active.Waiting? { t := Next(start, t, Timeout); }
    assert t.active == TimedOut(s.active.conn) && t.current == s.current && t.closed == s.closed;
    t := Next(start, t, Retire);
  }

  lemma IsRefused(start: State, s: State) returns (t: State)
    requires Reaches(start, s) && Sure(s) && s.active.Picked?
    ensures Reaches(start, t) && Sure(t) && t.active.Idle? && t.closed == s.closed
  {
    PickedIsThere(s);
    hide Reaches, Sure;
    t := Next(start, s, DoWrite(LineBreak));
  }

  lemma PickedIsThere(s: State)
    requires Inv(s)
    ensures s.active.Picked? ==> s.active.conn in s.conns
  {
  }

  /** Whatever command is under way times out, fails or is refused, and the next can begin. */
  lemma ComeIdle(start: State, s: State) returns (t: State)
    requires Reaches(start, s) && Sure(s)
    ensures Reaches(start, t) && Sure(t) && t.active.Idle? && t.closed == s.closed
  {
    hide Reaches, Sure;
    t := s;
    if t.active.Locked? {
      t := Next(start, t, Pick);
      assert (t.active.Idle? || t.active.Picked?) && t.closed == s.closed;
    }
    if t.active.Picked? {
      t := IsRefused(start, t);
    } else if !t.active.Idle? {
      t := TimesOut(start, t);
    }
  }

  lemma IsWritten(start: State, s: State, k: ConnId) returns (t: State)
    requires Reaches(start, s) && Sure(s) && s.active.Idle? && s.current == Some(k) && k in s.conns
    ensures Reaches(start, t) && Sure(t) && t.active.Waiting? && t.active.conn == k
    ensures t.current == Some(k) && t.closed == s.closed
  {
    hide Reaches, Sure;
    t := Next(start, s, Begin(0));
    assert t == s.(active := Locked(0));
    t := Next(start, t, Pick);
    assert t == s.(active := Picked(0, k));
    t := Next(start, t, DoWrite(Written));
  }

  /** The current connection, if there is one, is retired by a command that times out. */
  lemma LetGo(start: State, s: State) returns (t: State)
    requires Reaches(start, s) && Sure(s) && s.active.Idle?
    ensures Reaches(start, t) && Sure(t) && t.active.Idle? && t.current.None? && t.closed == s.closed
  {
    assert s.current.Some? ==> s.current.value in s.conns by { CurrentIsThere(s); }
    hide Reaches, Sure;
    t := s;
    if s.current.Some? {
      t := IsWritten(start, s, s.current.value);
      t := TimesOut(start, t);
    }
  }

  /** Wherever a run has led, with commands waiting, connections failing or none left: unless the client is
      closed, it can come back to a fresh connection that is ready for commands, on which any of them are then
      answered in turn. */
  lemma CanAlwaysServe(ops: seq<Op>, commands: seq<Command>) returns (more: seq<Op>, k: ConnId)
    requires !Run(INITIAL, ops).closed
    ensures var s := Run(Run(INITIAL, ops), more);
            var t := Run(s, Exchanges(commands, k));
            && k !in Run(INITIAL, ops).conns && k in t.conns && t.conns[k].sent == commands
            && |t.returned| == |s.returned| + |commands|
            && forall i :: 0 <= i < |commands| ==> t.returned[|s.returned| + i] == Reply(commands[i], k, i)
  {
    hide Run, Sure, Reaches;
    FromStart(ops);
    var start := Run(INITIAL, ops);
    ReachesItself(start);
    var a := ComeIdle(start, start);
    var b := LetGo(start, a);
    k := Above(b.conns.Keys + start.conns.Keys);
    var c := Next(start, b, DoInstall(k));
    assert ReadyOn(c, k);
    ConnectionServesOn(c, commands, k);
    assert c.conns[k].sent + commands == commands;
    more := Path(start, c);
  }

  lemma Path(s: State, t: State) returns (ops: seq<Op>)
    requires Reaches(s, t)
    ensures Run(s, ops) == t
  {
    ops :| Run(s, ops) == t;
  }

  // ---- after Close ----

  /** Closed, with no connection that was not there, and at most the one that was current. */
  ghost predicate Shut(s: State, t: State) {
    t.closed && t.conns.Keys == s.conns.Keys && (t.current.Some? ==> t.current == s.current)
  }

  lemma StaysShut(s: State, t: State, op: Op)
    requires Shut(s, t)
    ensures Shut(s, Apply(t, op))
  {
  }

  /** After Close no connection is ever installed again, and once the current one is let go of, there is none. */
  lemma {:induction false} ClosedForGood(s: State, more: seq<Op>)
    ensures Shut(s, Run(Apply(s, Close), more))
    decreases |more|
  {
    hide Apply, Shut;
    var n := |more|;
    if n == 0 {
      ClosesNow(s);
      Stays(Apply(s, Close));
    } else {
      ClosedForGood(s, more[..n - 1]);
      StaysShut(s, Run(Apply(s, Close), more[..n - 1]), more[n - 1]);
      RunSplits(Apply(s, Close), more[..n - 1], [more[n - 1]]);
      OneStep(Run(Apply(s, Close), more[..n - 1]), more[n - 1]);
      assert more == more[..n - 1] + [more[n - 1]];
    }
  }

  lemma ClosesNow(s: State)
    ensures Shut(s, Apply(s, Close))
  {
  }
}
