/** What a Drain waits for (server/internal/media/session/manager.go:294-329). Its last loop sleeps on a
    `changed` channel of capacity one, on which another Drain could take its wake-up. It never gets there:
    when a Drain has seen every session of its snapshot complete, the map is empty at its first look. */
module ManagerDrain {
  import opened ManagedSession
  import opened Manager

  /** The sessions a Drain has still to see out of the map, the one it is removing included. */
  function Pending(pc: Pc): set<Ref>
    requires Drains(pc)
  {
    match pc
    case DrainSpawning(left, all) => all
    case DrainWaiting(left) => left
    case Removing(ref, after) => after.left + {ref}
    case LoadingActive(after) => after.left
    case SwappingActive(seen, after) => after.left
    case CountingCompleted(after) => after.left
  }

  predicate CoversFrom(sessions: map<SessionId, Ref>, pc: Pc) {
    Drains(pc) ==> forall id :: id in sessions ==> sessions[id] in Pending(pc)
  }

  /** Every session in the map is still pending in every Drain. */
  ghost predicate Covers(s: State) { forall t :: t in s.threads ==> CoversFrom(s.sessions, s.threads[t]) }

  lemma StartCovers(s: State, op: Op)
    requires Manager.Inv(s) && Covers(s) && IsStart(op)
    ensures Covers(Apply(s, op))
  {
    hide ThreadsOk, SessionsOk, ChannelsOk, ManagedOk, Counted;
    if op.StartInserts? && s.lock.Opening? { assert forall t :: t in s.threads ==> !Drains(s.threads[t]); }
  }

  /** Whoever is in a Drain afterwards was there before, at the same place. */
  ghost predicate NoNewDrain(before: map<Tid, Pc>, after: map<Tid, Pc>) {
    forall t :: t in after && Drains(after[t]) ==> t in before && after[t] == before[t]
  }

  lemma PassersCover(s: State, n: State)
    requires Covers(s) && n.sessions == s.sessions && NoNewDrain(s.threads, n.threads)
    ensures Covers(n)
  {
  }

  lemma OneElsewhere(threads: map<Tid, Pc>, t: Tid, pc: Pc)
    ensures NoNewDrain(threads, threads)
    ensures !Drains(pc) ==> NoNewDrain(threads, threads[t := pc])
  {
  }

  lemma FinishLeavesDrains(s: State, op: Op)
    ensures ApplyFinish(s, op).sessions == s.sessions && NoNewDrain(s.threads, ApplyFinish(s, op).threads)
  {
    hide NoNewDrain, BodyStep, EnterOnce, SetFinished, Closing;
    var n := ApplyFinish(s, op);
    OneElsewhere(s.threads, 0, Returned(Success));
    if n.threads != s.threads {
      if op.FinishLocks? {
        OneElsewhere(s.threads, op.t, n.threads[op.t]);
      } else {
        assert op.LeavesOnce?;
        OneElsewhere(s.threads, op.t, NextPc(s.threads[op.t].ref, s.threads[op.t].next));
      }
    }
  }

  lemma ControlLeavesDrains(s: State, op: Op)
    ensures ApplyControl(s, op).sessions == s.sessions && NoNewDrain(s.threads, ApplyControl(s, op).threads)
  {
    hide NoNewDrain, OpenControl, DropControl, CloseChannel, SendOn;
    OneElsewhere(s.threads, 0, Returned(Success));
    if op.ControlLooksUp? {
      LookUpMoves(s, op);
    } else if op.ControlLocks? && ApplyControl(s, op).threads != s.threads {
      OneElsewhere(s.threads, op.t, ApplyControl(s, op).threads[op.t]);
    }
  }

  lemma LookUpMoves(s: State, op: Op)
    requires op.ControlLooksUp?
    ensures NoNewDrain(s.threads, ApplyControl(s, op).threads)
  {
    hide NoNewDrain;
    OneElsewhere(s.threads, 0, Returned(Success));
    if s.lock.Free? && op.t !in s.threads {
      var pc := if op.id in s.sessions then ControlFound(s.sessions[op.id]) else Returned(NotFound);
      OneElsewhere(s.threads, op.t, pc);
    }
  }

  lemma TimerLeavesDrains(s: State, op: Op)
    requires op.TimerFires? || op.TimerFinishes? || op.AttachLooksUp? || op.StopLooksUp?
    ensures ApplyAttach(s, op).sessions == s.sessions && NoNewDrain(s.threads, ApplyAttach(s, op).threads)
  {
    hide NoNewDrain, SetFinishedUnattached;
    var n := ApplyAttach(s, op);
    OneElsewhere(s.threads, 0, Returned(Success));
    if n.threads != s.threads { OneElsewhere(s.threads, op.t, n.threads[op.t]); }
  }

  lemma AttachLeavesDrains(s: State, op: Op)
    requires op.AttachLocks? || op.PumpEnds? || op.MarksComplete? || op.StopSeesComplete?
    ensures ApplyAttach(s, op).sessions == s.sessions && NoNewDrain(s.threads, ApplyAttach(s, op).threads)
  {
    hide NoNewDrain, TryAttach, MarkComplete;
    var n := ApplyAttach(s, op);
    OneElsewhere(s.threads, 0, Returned(Success));
    if n.threads != s.threads { OneElsewhere(s.threads, op.t, n.threads[op.t]); }
  }

  /** Attach, Stop, timeout, control and finish steps start no drain and leave the map alone. */
  lemma PassersLeaveDrains(s: State, op: Op)
    requires !IsStart(op) && !IsDrain(op) && !IsRemove(op)
    ensures Apply(s, op).sessions == s.sessions && NoNewDrain(s.threads, Apply(s, op).threads)
  {
    hide NoNewDrain, ApplyFinish, ApplyControl, ApplyAttach;
    if IsFinish(op) {
      FinishLeavesDrains(s, op);
    } else if IsControl(op) {
      ControlLeavesDrains(s, op);
    } else if op.TimerFires? || op.TimerFinishes? || op.AttachLooksUp? || op.StopLooksUp? {
      TimerLeavesDrains(s, op);
    } else {
      AttachLeavesDrains(s, op);
    }
  }

  lemma DrainCovers(s: State, op: Op)
    requires Covers(s) && IsDrain(op)
    ensures Covers(Apply(s, op))
  {
  }

  lemma FewerCovers(sessions: map<SessionId, Ref>, pc: Pc, id: SessionId)
    requires CoversFrom(sessions, pc)
    ensures CoversFrom(sessions - {id}, pc)
  {
  }

  /** The Drain that removes a session has, afterwards, the others still pending. */
  lemma RemoverCovers(sessions: map<SessionId, Ref>, managed: map<Ref, Managed>, ref: Ref, after: After)
    requires SessionsOk(sessions, managed) && ref in managed && CoversFrom(sessions, Removing(ref, after))
    ensures Listed(sessions, ref, managed[ref]) ==> CoversFrom(sessions - {managed[ref].id}, LoadingActive(after))
    ensures !Listed(sessions, ref, managed[ref]) ==> CoversFrom(sessions, AfterPc(after))
  {
  }

  lemma RemovesCovers(s: State, t: Tid)
    requires Manager.Inv(s) && Covers(s)
    ensures Covers(Apply(s, Removes(t)))
  {
    hide ThreadsOk, SessionsOk, ChannelsOk, ManagedOk, DrainersOk, Counted, LockOk, CoversFrom;
    if s.lock.Free? && t in s.threads && s.threads[t].Removing? && s.threads[t].ref in s.managed {
      var ref, after := s.threads[t].ref, s.threads[t].after;
      assert CoversFrom(s.sessions, s.threads[t]);
      RemoverCovers(s.sessions, s.managed, ref, after);
      forall u | u in s.threads ensures CoversFrom(s.sessions - {s.managed[ref].id}, s.threads[u]) {
        FewerCovers(s.sessions, s.threads[u], s.managed[ref].id);
      }
    }
  }

  lemma CountingCovers(s: State, op: Op)
    requires Covers(s) && (op.LoadsActive? || op.SwapsActive? || op.CountsCompleted?)
    ensures Covers(Apply(s, op))
  {
  }

  lemma ApplyCovers(s: State, op: Op)
    requires Manager.Inv(s) && Covers(s)
    ensures Covers(Apply(s, op))
  {
    hide Manager.Inv, Covers, Apply;
    if IsStart(op) {
      StartCovers(s, op);
    } else if IsDrain(op) {
      DrainCovers(s, op);
    } else if op.Removes? {
      RemovesCovers(s, op.t);
    } else if IsRemove(op) {
      CountingCovers(s, op);
    } else {
      PassersLeaveDrains(s, op);
      PassersCover(s, Apply(s, op));
    }
  }

  lemma {:induction false} RunCovers(s: State, ops: seq<Op>)
    requires Manager.Inv(s) && Covers(s)
    ensures Covers(Run(s, ops))
    decreases |ops|
  {
    hide Manager.Inv, Covers, Apply;
    if ops != [] {
      ApplyKeepsInvariant(s, ops[0]);
      ApplyCovers(s, ops[0]);
      RunCovers(Apply(s, ops[0]), ops[1..]);
    }
  }

  lemma InitiallyCovers(capacity: nat)
    ensures Manager.Inv(Initial(capacity)) && Covers(Initial(capacity))
  {
    Reachable(capacity, []);
    assert Run(Initial(capacity), []) == Initial(capacity);
  }

  /** In every interleaving, a Drain that has no session left to wait for finds the map empty: it returns at
      its first look, and no wake-up is ever waited for. */
  lemma DrainReturnsAtFirstLook(capacity: nat, ops: seq<Op>, t: Tid)
    requires var s := Run(Initial(capacity), ops); t in s.threads && s.threads[t] == DrainWaiting({})
    ensures Run(Initial(capacity), ops).sessions == map[]
  {
    hide Run, Manager.Inv;
    InitiallyCovers(capacity);
    RunCovers(Initial(capacity), ops);
    var s := Run(Initial(capacity), ops);
    assert CoversFrom(s.sessions, s.threads[t]);
    assert forall id :: id !in s.sessions;
  }
}
