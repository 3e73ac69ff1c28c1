/** What a call on the manager has achieved by the time it returns, whatever runs beside it, and what each call
    does when nothing runs beside it. */
module ManagerEffects {
  import opened Basics
  import opened ManagedSession
  import opened Manager

  // ---- a goroutine that has returned has done its work ----

  /** The session is not in the map under its identifier. */
  predicate Gone(s: State, ref: Ref) { ref in s.managed && !Listed(s.sessions, ref, s.managed[ref]) }

  /** On its way to finishing that session and taking it out of the map: a Stop, an attach with its
      connection, or a timeout that found nothing attached. */
  predicate TakingOut(pc: Pc, ref: Ref) {
    match pc
    case Pumping(r) => r == ref
    case Finishing(r, next) => r == ref && !next.ToNothing?
    case AtOnce(r, _, next) => r == ref && !next.ToNothing?
    case Marking(r) => r == ref
    case Awaiting(r) => r == ref
    case Removing(r, after) => r == ref && after.Return?
    case _ => false
  }

  /** On its way to finishing that session: a goroutine that a Drain has started. */
  predicate FinishingOnly(pc: Pc, ref: Ref) {
    match pc
    case Finishing(r, next) => r == ref && next.ToNothing?
    case AtOnce(r, _, next) => r == ref && next.ToNothing?
    case _ => false
  }

  ghost predicate WorkDone(s: State, t: Tid, ref: Ref) {
    t in s.threads && ref in s.managed && (TakingOut(s.threads[t], ref) || Gone(s, ref))
  }

  ghost predicate FinishDone(s: State, t: Tid, ref: Ref) {
    t in s.threads && ref in s.managed && (FinishingOnly(s.threads[t], ref) || s.managed[ref].once.Over?)
  }

  ghost predicate DrainDone(s: State, t: Tid) { t in s.threads && (Drains(s.threads[t]) || s.drained) }

  /** No step puts a session back. */
  lemma GoneStaysGone(s: State, op: Op, ref: Ref)
    requires Inv(s) && Gone(s, ref)
    ensures Gone(Apply(s, op), ref)
  {
    hide Inv, BodyStep;
    StepOnwards(s, op);
    SessionsChange(s, op);
  }

  ghost predicate SessionsMove(s: State, op: Op, n: State) {
    || n.sessions == s.sessions
    || (op.StartInserts? && s.lock.Opening? && op.ref !in s.managed && n.sessions == s.sessions[s.lock.id := op.ref])
    || (op.Removes? && op.t in s.threads && s.threads[op.t].Removing? && s.threads[op.t].ref in s.managed
        && Listed(s.sessions, s.threads[op.t].ref, s.managed[s.threads[op.t].ref])
        && n.sessions == s.sessions - {s.managed[s.threads[op.t].ref].id})
  }

  lemma SessionsChange(s: State, op: Op)
    ensures SessionsMove(s, op, Apply(s, op))
  {
    if IsStart(op) || IsRemove(op) {
      hide ApplyAttach, ApplyFinish, ApplyControl, ApplyDrain;
    } else {
      hide ApplyStart, ApplyRemove, SessionsMove, Listed;
      SessionsStay(s, op);
      assert SessionsMove(s, op, Apply(s, op)) by { NoChange(s, op, Apply(s, op)); }
    }
  }

  lemma NoChange(s: State, op: Op, n: State)
    requires n.sessions == s.sessions
    ensures SessionsMove(s, op, n)
  {
  }

  lemma SessionsStay(s: State, op: Op)
    requires !IsStart(op) && !IsRemove(op)
    ensures Apply(s, op).sessions == s.sessions
  {
    hide BodyStep, ApplyStart, ApplyRemove, TryAttach, OpenControl, SetFinishedUnattached;
  }

  /** The step that a goroutine takes itself, if it is one. */
  function ActorOf(op: Op): Option<Tid> {
    match op
    case TimerFinishes(t) => Some(t)
    case AttachLocks(t) => Some(t)
    case PumpEnds(t) => Some(t)
    case ControlLocks(t, _) => Some(t)
    case FinishLocks(t) => Some(t)
    case EntersOnce(t) => Some(t)
    case LeavesOnce(t) => Some(t)
    case MarksComplete(t) => Some(t)
    case StopSeesComplete(t) => Some(t)
    case DrainSpawns(t, _, _) => Some(t)
    case DrainSpawned(t) => Some(t)
    case DrainTakes(t, _) => Some(t)
    case DrainChecks(t) => Some(t)
    case Removes(t) => Some(t)
    case LoadsActive(t) => Some(t)
    case SwapsActive(t) => Some(t)
    case CountsCompleted(t) => Some(t)
    case _ => None
  }

  ghost predicate Left(s: State, op: Op, t: Tid, n: State)
    requires t in s.threads
  {
    t in n.threads && (ActorOf(op) != Some(t) ==> n.threads[t] == s.threads[t])
  }

  lemma OthersLeaveIt(s: State, op: Op, t: Tid)
    requires t in s.threads
    ensures Left(s, op, t, Apply(s, op))
  {
    hide ApplyStart, ApplyAttach, ApplyFinish, ApplyControl, ApplyDrain, ApplyRemove, Left;
    if IsStart(op) || IsFinish(op) || IsControl(op) {
      FinishLeavesIt(s, op, t);
    } else if IsDrain(op) {
      DrainLeavesIt(s, op, t);
    } else if IsRemove(op) {
      RemovalLeavesIt(s, op, t);
    } else {
      AttachLeavesIt(s, op, t);
    }
  }

  lemma FinishLeavesIt(s: State, op: Op, t: Tid)
    requires t in s.threads && (IsStart(op) || IsFinish(op) || IsControl(op))
    ensures Left(s, op, t, Apply(s, op))
  {
    hide BodyStep, OpenControl, ApplyAttach, ApplyDrain, ApplyRemove;
  }

  lemma DrainLeavesIt(s: State, op: Op, t: Tid)
    requires t in s.threads && IsDrain(op)
    ensures Left(s, op, t, Apply(s, op))
  {
    hide ApplyStart, ApplyAttach, ApplyFinish, ApplyControl, ApplyRemove;
  }

  lemma RemovalLeavesIt(s: State, op: Op, t: Tid)
    requires t in s.threads && IsRemove(op)
    ensures Left(s, op, t, Apply(s, op))
  {
    hide ApplyStart, ApplyAttach, ApplyFinish, ApplyControl, ApplyDrain, AfterPc;
  }

  lemma AttachLeavesIt(s: State, op: Op, t: Tid)
    requires t in s.threads && !IsStart(op) && !IsFinish(op) && !IsControl(op) && !IsDrain(op) && !IsRemove(op)
    ensures Left(s, op, t, Apply(s, op))
  {
    hide ApplyStart, ApplyFinish, ApplyControl, ApplyDrain, ApplyRemove, TryAttach, SetFinishedUnattached;
  }

  ghost predicate WorkStep(s: State, t: Tid, ref: Ref, n: State)
    requires ref in s.managed
  {
    t in n.threads && (TakingOut(n.threads[t], ref) || !Listed(n.sessions, ref, s.managed[ref]))
  }

  lemma OwnStepKeepsWork(s: State, op: Op, t: Tid, ref: Ref)
    requires t in s.threads && ref in s.managed && TakingOut(s.threads[t], ref) && ActorOf(op) == Some(t)
    ensures WorkStep(s, t, ref, Apply(s, op))
  {
    hide ApplyStart, ApplyAttach, ApplyFinish, ApplyControl, ApplyDrain, ApplyRemove, WorkStep;
    if IsFinish(op) || IsRemove(op) { OwnRemovalKeepsWork(s, op, t, ref); } else { OwnCallKeepsWork(s, op, t, ref); }
  }

  lemma OwnRemovalKeepsWork(s: State, op: Op, t: Tid, ref: Ref)
    requires t in s.threads && ref in s.managed && TakingOut(s.threads[t], ref) && ActorOf(op) == Some(t)
    requires IsFinish(op) || IsRemove(op)
    ensures WorkStep(s, t, ref, Apply(s, op))
  {
    hide ApplyStart, ApplyAttach, ApplyControl, ApplyDrain;
  }

  lemma OwnCallKeepsWork(s: State, op: Op, t: Tid, ref: Ref)
    requires t in s.threads && ref in s.managed && TakingOut(s.threads[t], ref) && ActorOf(op) == Some(t)
    requires !IsFinish(op) && !IsRemove(op)
    ensures WorkStep(s, t, ref, Apply(s, op))
  {
    hide ApplyStart, ApplyFinish, ApplyRemove, TryAttach, OpenControl, SetFinishedUnattached;
  }

  lemma OwnStepKeepsFinish(s: State, op: Op, t: Tid, ref: Ref)
    requires t in s.threads && ref in s.managed && FinishingOnly(s.threads[t], ref) && ActorOf(op) == Some(t)
    ensures var n := Apply(s, op);
            t in n.threads && (FinishingOnly(n.threads[t], ref) || s.managed[ref].once.Over?)
  {
  }

  lemma OwnStepKeepsDrain(s: State, op: Op, t: Tid)
    requires t in s.threads && Drains(s.threads[t]) && ActorOf(op) == Some(t)
    ensures DrainDone(Apply(s, op), t)
  {
    hide ApplyStart, ApplyAttach, ApplyFinish, ApplyControl, ApplyDrain, ApplyRemove, DrainDone, Drains;
    if IsDrain(op) {
      OwnDrainStep(s, op, t);
    } else if IsRemove(op) {
      OwnDrainRemoval(s, op, t);
    } else {
      OwnOtherStep(s, op, t);
    }
  }

  lemma OwnDrainStep(s: State, op: Op, t: Tid)
    requires t in s.threads && Drains(s.threads[t]) && IsDrain(op) && ActorOf(op) == Some(t)
    ensures DrainDone(Apply(s, op), t)
  {
    hide ApplyStart, ApplyAttach, ApplyFinish, ApplyControl, ApplyRemove;
  }

  lemma OwnDrainRemoval(s: State, op: Op, t: Tid)
    requires t in s.threads && Drains(s.threads[t]) && IsRemove(op) && ActorOf(op) == Some(t)
    ensures DrainDone(Apply(s, op), t)
  {
    hide ApplyStart, ApplyAttach, ApplyFinish, ApplyControl, ApplyDrain;
  }

  lemma OwnOtherStep(s: State, op: Op, t: Tid)
    requires t in s.threads && Drains(s.threads[t]) && !IsDrain(op) && !IsRemove(op) && ActorOf(op) == Some(t)
    ensures DrainDone(Apply(s, op), t)
  {
    hide ApplyStart, ApplyDrain, ApplyRemove, BodyStep, TryAttach, OpenControl, SetFinishedUnattached;
  }

  lemma StepKeepsDone(s: State, op: Op, t: Tid, ref: Ref)
    requires Inv(s)
    ensures WorkDone(s, t, ref) ==> WorkDone(Apply(s, op), t, ref)
    ensures FinishDone(s, t, ref) ==> FinishDone(Apply(s, op), t, ref)
    ensures DrainDone(s, t) ==> DrainDone(Apply(s, op), t)
  {
    hide Inv, Apply, TakingOut, FinishingOnly, Drains;
    StepOnwards(s, op);
    if t in s.threads {
      OthersLeaveIt(s, op, t);
      if Drains(s.threads[t]) && ActorOf(op) == Some(t) { OwnStepKeepsDrain(s, op, t); }
      if ref in s.managed {
        if Gone(s, ref) { GoneStaysGone(s, op, ref); }
        if TakingOut(s.threads[t], ref) && ActorOf(op) == Some(t) { OwnStepKeepsWork(s, op, t, ref); }
        if FinishingOnly(s.threads[t], ref) && ActorOf(op) == Some(t) { OwnStepKeepsFinish(s, op, t, ref); }
      }
    }
  }

  lemma {:induction false} RunKeepsDone(s: State, ops: seq<Op>, t: Tid, ref: Ref)
    requires Inv(s)
    ensures WorkDone(s, t, ref) ==> WorkDone(Run(s, ops), t, ref)
    ensures FinishDone(s, t, ref) ==> FinishDone(Run(s, ops), t, ref)
    ensures DrainDone(s, t) ==> DrainDone(Run(s, ops), t)
    decreases |ops|
  {
    hide Inv, Apply, WorkDone, FinishDone, DrainDone;
    if ops != [] {
      ApplyKeepsInvariant(s, ops[0]);
      StepKeepsDone(s, ops[0], t, ref);
      RunKeepsDone(Apply(s, ops[0]), ops[1..], t, ref);
    }
  }

  lemma GoneIsReleased(s: State, ref: Ref)
    requires Inv(s) && Gone(s, ref)
    ensures Released(s.managed[ref])
  {
    DoneIsReleased(s.managed[ref]);
  }

  /** Wherever a goroutine is on its way to taking a session out: in every continuation in which it has
      returned, the session is out of the map and everything it held is closed. */
  lemma ReturnedMeansGone(capacity: nat, ops: seq<Op>, t: Tid, ref: Ref, more: seq<Op>)
    requires var s := Run(Initial(capacity), ops); t in s.threads && TakingOut(s.threads[t], ref)
    requires var n := Run(Run(Initial(capacity), ops), more); t in n.threads && n.threads[t].Returned?
    ensures var n := Run(Run(Initial(capacity), ops), more); Gone(n, ref) && Released(n.managed[ref])
  {
    hide Run, Inv;
    var s := Run(Initial(capacity), ops);
    Reachable(capacity, ops);
    ThreadAt(s, t);
    RunKeepsDone(s, more, t, ref);
    RunKeepsInvariant(s, more);
    GoneIsReleased(Run(s, more), ref);
  }

  /** A Stop that found its session: whenever it has returned, the session is out of the map and released. */
  lemma StopReturnsWhenGone(capacity: nat, ops: seq<Op>, id: SessionId, t: Tid, more: seq<Op>)
    requires var s := Run(Initial(capacity), ops); s.lock.Free? && t !in s.threads && id in s.sessions
    requires var n := Run(Apply(Run(Initial(capacity), ops), StopLooksUp(id, t)), more);
             t in n.threads && n.threads[t].Returned?
    ensures var s := Run(Initial(capacity), ops);
            var n := Run(Apply(s, StopLooksUp(id, t)), more);
            Gone(n, s.sessions[id]) && Released(n.managed[s.sessions[id]])
  {
    hide Run, Inv;
    var s := Run(Initial(capacity), ops);
    RunOneMore(Initial(capacity), ops, StopLooksUp(id, t));
    ReturnedMeansGone(capacity, ops + [StopLooksUp(id, t)], t, s.sessions[id], more);
  }

  lemma RunOneMore(s: State, ops: seq<Op>, op: Op)
    ensures Run(s, ops + [op]) == Apply(Run(s, ops), op)
  {
    hide Apply;
    RunSplits(s, ops, [op]);
    assert [op][1..] == [];
    assert Run(Apply(Run(s, ops), op), []) == Apply(Run(s, ops), op);
  }

  /** Everything but the completion mark. */
  predicate Closed(m: Managed) {
    && m.finished && m.cancelled && m.once.Over? && m.control.None? && m.controlDoneCloses == 1
    && m.streamCloses == (if m.hasStream then 1 else 0) && m.connectionCloses == (if m.attached then 1 else 0)
  }

  lemma OverIsClosed(s: State, ref: Ref)
    requires Inv(s) && ref in s.managed && s.managed[ref].once.Over?
    ensures Closed(s.managed[ref])
  {
    assert Sound(s.managed[ref]);
  }

  /** A Drain starts a goroutine for each session of its snapshot: whenever that one has returned, the session
      is finished and its stream, connection and control channel are closed. */
  lemma DrainedSessionIsClosed(capacity: nat, ops: seq<Op>, t: Tid, ref: Ref, child: Tid, more: seq<Op>)
    requires var s := Run(Initial(capacity), ops);
             t in s.threads && s.threads[t].DrainSpawning? && ref in s.threads[t].left && child !in s.threads
    requires var n := Run(Apply(Run(Initial(capacity), ops), DrainSpawns(t, ref, child)), more);
             child in n.threads && n.threads[child].Returned?
    ensures var n := Run(Apply(Run(Initial(capacity), ops), DrainSpawns(t, ref, child)), more);
            ref in n.managed && Closed(n.managed[ref])
  {
    hide Run, Inv;
    var s := Run(Initial(capacity), ops);
    Reachable(capacity, ops);
    ThreadAt(s, t);
    var a := Apply(s, DrainSpawns(t, ref, child));
    ApplyKeepsInvariant(s, DrainSpawns(t, ref, child));
    RunKeepsDone(a, more, child, ref);
    RunKeepsInvariant(a, more);
    OverIsClosed(Run(a, more), ref);
  }

  /** A Drain has returned only when the map was empty, and it stays empty. */
  lemma DrainReturnsWhenEmpty(capacity: nat, ops: seq<Op>, t: Tid, more: seq<Op>)
    requires var s := Run(Initial(capacity), ops); t in s.threads && Drains(s.threads[t])
    requires var n := Run(Run(Initial(capacity), ops), more); t in n.threads && n.threads[t].Returned?
    ensures Run(Run(Initial(capacity), ops), more).sessions == map[]
  {
    hide Run, Inv;
    var s := Run(Initial(capacity), ops);
    Reachable(capacity, ops);
    RunKeepsDone(s, more, t, 0);
    RunSplits(Initial(capacity), ops, more);
    DrainedStaysEmpty(capacity, ops + more, []);
    assert Run(Run(s, more), []) == Run(s, more) by { Nothing(Run(s, more)); }
  }

  lemma Nothing(s: State)
    ensures Run(s, []) == s
  {
  }

  // ---- one call with nothing beside it ----

  lemma TwoSteps(s: State, a: Op, b: Op)
    ensures Run(s, [a, b]) == Apply(Apply(s, a), b)
  {
    hide Apply;
    assert [a, b][1..] == [b] && [b][1..] == [];
    assert Run(Apply(s, a), [b]) == Apply(Apply(s, a), b);
  }

  lemma ListedAt(s: State, id: SessionId)
    requires Inv(s) && id in s.sessions
    ensures s.sessions[id] in s.managed && s.managed[s.sessions[id]].id == id
    ensures s.managed[s.sessions[id]].cancelled ==> s.managed[s.sessions[id]].finished
    ensures s.managed[s.sessions[id]].controlOpen <==> s.managed[s.sessions[id]].control.Some?
  {
    assert Sound(s.managed[s.sessions[id]]);
  }

  /** An attach takes hold of exactly a listed session that is neither attached nor finished and has a stream;
      it fails for the first of the reasons otherwise, and then changes no session. */
  lemma UndisturbedAttach(capacity: nat, ops: seq<Op>, id: SessionId, t: Tid)
    requires var s := Run(Initial(capacity), ops); s.lock.Free? && t !in s.threads
    ensures var s := Run(Initial(capacity), ops);
            var n := Run(s, [AttachLooksUp(id, t), AttachLocks(t)]);
            t in n.threads &&
            if id !in s.sessions then n.threads[t] == Returned(NotFound) && n.managed == s.managed else
              var ref := s.sessions[id];
              && ref in s.managed && s.managed[ref].id == id
              && var m := s.managed[ref];
                 if m.attached then n.threads[t] == Returned(AlreadyAttached) && n.managed == s.managed
                 else if m.finished then n.threads[t] == Returned(NotFound) && n.managed == s.managed
                 else if !m.hasStream then n.threads[t] == Returned(NotReady) && n.managed == s.managed
                 else
                   && n.threads[t] == Pumping(ref) && ref in n.managed
                   && n.managed[ref].attached && n.managed[ref].connection == Some(t) && !n.managed[ref].timerArmed
                   && forall r :: r in s.managed && r != ref ==> r in n.managed && n.managed[r] == s.managed[r]
  {
    hide Run, Inv, ApplyStart, ApplyFinish, ApplyControl, ApplyDrain, ApplyRemove;
    Reachable(capacity, ops);
    var s := Run(Initial(capacity), ops);
    if id in s.sessions {
      ListedAt(s, id);
      assert s.managed[s.sessions[id] := s.managed[s.sessions[id]]] == s.managed;
    }
    TwoSteps(s, AttachLooksUp(id, t), AttachLocks(t));
  }

  /** A control channel is opened on exactly a listed session that is not finished and has none open. */
  lemma UndisturbedControl(capacity: nat, ops: seq<Op>, id: SessionId, t: Tid, c: Chan)
    requires var s := Run(Initial(capacity), ops); s.lock.Free? && t !in s.threads && c !in s.channels
    ensures var s := Run(Initial(capacity), ops);
            var n := Run(s, [ControlLooksUp(id, t), ControlLocks(t, c)]);
            t in n.threads &&
            if id !in s.sessions then n.threads[t] == Returned(NotFound) && n.channels == s.channels else
              var ref := s.sessions[id];
              && ref in s.managed
              && if s.managed[ref].finished then n.threads[t] == Returned(NotFound) && n.channels == s.channels
                 else if s.managed[ref].controlOpen
                 then n.threads[t] == Returned(AlreadyAttached) && n.channels == s.channels
                 else
                   && n.threads[t] == Returned(Success) && c in n.channels && n.channels[c].owner == ref
                   && n.channels[c].closes == 0 && ref in n.managed && n.managed[ref].control == Some(c)
  {
    hide Run, Inv, ApplyStart, ApplyAttach, ApplyFinish, ApplyDrain, ApplyRemove;
    Reachable(capacity, ops);
    var s := Run(Initial(capacity), ops);
    if id in s.sessions { ListedAt(s, id); }
    TwoSteps(s, ControlLooksUp(id, t), ControlLocks(t, c));
  }

  /** A Start that is let in enters a new session, unattached, with its timeout armed, and counts it; one that
      is not leaves everything as it was. */
  lemma UndisturbedStart(s: State, id: SessionId, ref: Ref, hasStream: bool)
    requires s.lock.Free? && ref !in s.managed
    ensures var n := Run(s, [StartBegins(id), StartInserts(ref, hasStream)]
                            + [StartCountsStarted, StartCountsActive, StartUnlocks]);
            if s.draining || id in s.sessions || |s.sessions| >= s.capacity then n == s else
              && n.lock.Free? && n.sessions == s.sessions[id := ref]
              && n.started == s.started + 1 && n.active == s.active + 1 && n.completed == s.completed
              && ref in n.managed && n.managed == s.managed[ref := n.managed[ref]]
              && n.managed[ref].id == id && n.managed[ref].hasStream == hasStream && n.managed[ref].timerArmed
              && !n.managed[ref].finished && !n.managed[ref].attached && n.managed[ref].once.NotYet?
              && n.threads == s.threads && n.channels == s.channels && n.draining == s.draining
  {
    hide Apply;
    var a := Apply(Apply(s, StartBegins(id)), StartInserts(ref, hasStream));
    RunSplits(s, [StartBegins(id), StartInserts(ref, hasStream)],
        [StartCountsStarted, StartCountsActive, StartUnlocks]);
    TwoSteps(s, StartBegins(id), StartInserts(ref, hasStream));
    assert [StartCountsStarted, StartCountsActive, StartUnlocks]
        == [StartCountsStarted, StartCountsActive] + [StartUnlocks];
    RunOneMore(a, [StartCountsStarted, StartCountsActive], StartUnlocks);
    TwoSteps(a, StartCountsStarted, StartCountsActive);
    StartEnters(s, id, ref, hasStream);
    StartCounts(a);
  }

  lemma StartEnters(s: State, id: SessionId, ref: Ref, hasStream: bool)
    requires s.lock.Free? && ref !in s.managed
    ensures Apply(Apply(s, StartBegins(id)), StartInserts(ref, hasStream)) ==
            if s.draining || id in s.sessions || |s.sessions| >= s.capacity then s else
              s.(sessions := s.sessions[id := ref], managed := s.managed[ref := NewManaged(id, hasStream)],
                 lock := Inserted(ref))
  {
  }

  lemma StartCounts(s: State)
    ensures var n := Apply(Apply(Apply(s, StartCountsStarted), StartCountsActive), StartUnlocks);
            && (s.lock.Free? ==> n == s)
            && (s.lock.Inserted? && s.lock.ref in s.managed ==>
                  var ref := s.lock.ref;
                  n == s.(started := s.started + 1, active := s.active + 1, lock := Free,
                          managed := s.managed[ref := s.managed[ref].(timerArmed := true)]))
  {
  }
}
