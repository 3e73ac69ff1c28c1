/** No call on the manager can be stuck for good: from every state any interleaving can reach, and for every
    goroutine in Attach, AttachControl, Stop, Drain or a timeout, there is a continuation in which it
    returns. That the scheduler takes it is not claimed. */
module ManagerProgress {
  import opened Basics
  import opened ManagedSession
  import opened Manager

  /** The goroutine that attached a connection is still on its way to marking the session complete. */
  predicate OnItsWay(pc: Pc, r: Ref) {
    || pc == Pumping(r) || pc == Finishing(r, ToComplete) || pc == Marking(r)
    || (pc.AtOnce? && pc.ref == r && pc.next == ToComplete)
  }

  predicate Owner(threads: map<Tid, Pc>, connection: Option<Tid>, r: Ref) {
    connection.Some? && connection.value in threads && OnItsWay(threads[connection.value], r)
  }

  ghost predicate OwnersOk(threads: map<Tid, Pc>, managed: map<Ref, Managed>) {
    forall r :: r in managed && managed[r].attached && managed[r].completeCloses == 0 ==>
        Owner(threads, managed[r].connection, r)
  }

  ghost predicate Whole(s: State) { Manager.Inv(s) && OwnersOk(s.threads, s.managed) }

  // ---- the owner stays on its way ----

  /** One goroutine moves, one session changes. */
  lemma OwnersMove(threads: map<Tid, Pc>, managed: map<Ref, Managed>, t: Tid, pc: Pc, r: Ref, n: Managed)
    requires OwnersOk(threads, managed) && r in managed
    requires forall x: Ref :: t in threads && OnItsWay(threads[t], x) ==>
        OnItsWay(pc, x) || (x == r && n.completeCloses > 0)
    requires n.attached && n.completeCloses == 0 ==>
               || (managed[r].attached && managed[r].completeCloses == 0 && n.connection == managed[r].connection)
               || (n.connection == Some(t) && OnItsWay(pc, r))
    ensures OwnersOk(threads[t := pc], managed[r := n])
  {
  }

  lemma OwnersAlone(threads: map<Tid, Pc>, managed: map<Ref, Managed>, t: Tid, pc: Pc)
    requires OwnersOk(threads, managed)
    requires forall x: Ref :: t in threads && OnItsWay(threads[t], x) ==> OnItsWay(pc, x)
    ensures OwnersOk(threads[t := pc], managed)
  {
  }

  lemma OwnersStay(threads: map<Tid, Pc>, managed: map<Ref, Managed>, r: Ref, n: Managed)
    requires OwnersOk(threads, managed)
    requires n.attached && n.completeCloses == 0 ==>
               r in managed && managed[r].attached && managed[r].completeCloses == 0 &&
                   n.connection == managed[r].connection
    ensures OwnersOk(threads, managed[r := n])
  {
  }

  lemma StartOwners(s: State, op: Op)
    requires OwnersOk(s.threads, s.managed)
    ensures var n := ApplyStart(s, op); OwnersOk(n.threads, n.managed)
  {
    hide OwnersOk;
    if op.StartInserts? && s.lock.Opening? && op.ref !in s.managed {
      OwnersStay(s.threads, s.managed, op.ref, NewManaged(s.lock.id, op.hasStream));
    } else if op.StartUnlocks? && s.lock.Arming? && s.lock.ref in s.managed {
      OwnersStay(s.threads, s.managed, s.lock.ref, s.managed[s.lock.ref].(timerArmed := true));
    }
  }

  lemma TimerOwners(s: State, op: Op)
    requires OwnersOk(s.threads, s.managed) && (op.TimerFires? || op.TimerFinishes?)
    ensures var n := ApplyAttach(s, op); OwnersOk(n.threads, n.managed)
  {
    hide OwnersOk;
    if op.TimerFires? {
      if op.ref in s.managed && s.managed[op.ref].timerArmed && op.t !in s.threads {
        OwnersMove(s.threads, s.managed, op.t, TimerRunning(op.ref), op.ref, s.managed[op.ref].(timerArmed := false));
      }
    } else if op.t in s.threads && s.threads[op.t].TimerRunning? && s.threads[op.t].ref in s.managed {
      var ref := s.threads[op.t].ref;
      var (m, unattached) := SetFinishedUnattached(s.managed[ref]);
      var pc := if unattached then AtOnce(ref, false, ToRemove) else Returned(Success);
      OwnersMove(s.threads, s.managed, op.t, pc, ref, m);
    }
  }

  lemma AttachOwners(s: State, op: Op)
    requires OwnersOk(s.threads, s.managed) && (op.AttachLocks? || op.MarksComplete?)
    ensures var n := ApplyAttach(s, op); OwnersOk(n.threads, n.managed)
  {
    hide OwnersOk;
    if op.t in s.threads && (s.threads[op.t].AttachFound? || s.threads[op.t].Marking?)
       && s.threads[op.t].ref in s.managed
    {
      var t, ref := op.t, s.threads[op.t].ref;
      if op.AttachLocks? && s.threads[t].AttachFound? {
        var (m, outcome) := TryAttach(s.managed[ref], t);
        OwnersMove(s.threads, s.managed, t, if outcome.Success? then Pumping(ref) else Returned(outcome), ref, m);
      } else if op.MarksComplete? && s.threads[t].Marking? {
        OwnersMove(s.threads, s.managed, t, Removing(ref, Return), ref, MarkComplete(s.managed[ref]));
      }
    }
  }

  lemma OtherOwners(s: State, op: Op)
    requires OwnersOk(s.threads, s.managed)
    requires op.AttachLooksUp? || op.PumpEnds? || op.StopLooksUp? || op.StopSeesComplete?
    ensures var n := ApplyAttach(s, op); OwnersOk(n.threads, n.managed)
  {
    hide OwnersOk;
    if op.PumpEnds? {
      if op.t in s.threads && s.threads[op.t].Pumping? {
        OwnersAlone(s.threads, s.managed, op.t, Finishing(s.threads[op.t].ref, ToComplete));
      }
    } else if op.StopSeesComplete? {
      if op.t in s.threads && s.threads[op.t].Awaiting? {
        OwnersAlone(s.threads, s.managed, op.t, Removing(s.threads[op.t].ref, Return));
      }
    } else if s.lock.Free? && op.t !in s.threads {
      OwnersAlone(s.threads, s.managed, op.t, ApplyAttach(s, op).threads[op.t]);
    }
  }

  lemma FinishOwners(s: State, op: Op)
    requires OwnersOk(s.threads, s.managed) && (op.FinishLocks? || op.LeavesOnce?)
    ensures var n := ApplyFinish(s, op); OwnersOk(n.threads, n.managed)
  {
    hide OwnersOk;
    if op.t in s.threads && (s.threads[op.t].Finishing? || s.threads[op.t].AtOnce?)
       && s.threads[op.t].ref in s.managed
    {
      var t, ref := op.t, s.threads[op.t].ref;
      if op.FinishLocks? && s.threads[t].Finishing? {
        var m := s.managed[ref];
        OwnersMove(s.threads, s.managed, t, AtOnce(ref, m.attached, s.threads[t].next), ref, SetFinished(m));
      } else if op.LeavesOnce? && s.threads[t].AtOnce? {
        OwnersAlone(s.threads, s.managed, t, NextPc(ref, s.threads[t].next));
      }
    }
  }

  lemma BodyOwners(s: State, op: Op)
    requires OwnersOk(s.threads, s.managed) && (op.EntersOnce? || op.BodySteps?)
    requires Manager.Inv(s)
    ensures var n := ApplyFinish(s, op); OwnersOk(n.threads, n.managed)
  {
    hide OwnersOk, Manager.Inv, BodyStep, Sound;
    if op.EntersOnce? {
      if op.t in s.threads && s.threads[op.t].AtOnce? && s.threads[op.t].ref in s.managed
         && s.managed[s.threads[op.t].ref].once.NotYet?
      {
        var ref := s.threads[op.t].ref;
        OwnersStay(s.threads, s.managed, ref, EnterOnce(s.managed[ref], s.threads[op.t].attached));
      }
    } else if op.ref in s.managed && s.managed[op.ref].once.Running? {
      SoundAt(s, op.ref);
      BodyStepKeeps(s.managed[op.ref]);
      assert s.managed[op.ref].finished by { RunningIsFinished(s.managed[op.ref]); }
      AttachedHasConnection(s.managed[op.ref]);
      OwnersStay(s.threads, s.managed, op.ref, BodyStep(s.managed[op.ref]));
    }
  }

  lemma RunningIsFinished(m: Managed)
    requires Sound(m) && m.once.Running?
    ensures m.finished
  {
  }

  lemma AttachedHasConnection(m: Managed)
    requires Sound(m)
    ensures m.attached <==> m.connection.Some?
  {
  }

  lemma ControlOwners(s: State, op: Op)
    requires OwnersOk(s.threads, s.managed) && IsControl(op)
    ensures var n := ApplyControl(s, op); OwnersOk(n.threads, n.managed)
  {
    hide OwnersOk;
    if op.ControlLooksUp? {
      if s.lock.Free? && op.t !in s.threads {
        OwnersAlone(s.threads, s.managed, op.t, ApplyControl(s, op).threads[op.t]);
      }
    } else if op.ControlLocks? {
      if op.t in s.threads && s.threads[op.t].ControlFound? && s.threads[op.t].ref in s.managed && op.c !in s.channels {
        var (m, outcome) := OpenControl(s.managed[s.threads[op.t].ref], op.c);
        OwnersMove(s.threads, s.managed, op.t, Returned(outcome), s.threads[op.t].ref, m);
      }
    } else if op.ControlCloses? && op.c in s.channels && s.channels[op.c].owner in s.managed {
      OwnersStay(s.threads, s.managed, s.channels[op.c].owner, DropControl(s.managed[s.channels[op.c].owner]));
    }
  }

  lemma DrainOwners(s: State, op: Op)
    requires OwnersOk(s.threads, s.managed) && IsDrain(op)
    ensures var n := ApplyDrain(s, op); OwnersOk(n.threads, n.managed)
  {
    hide OwnersOk;
    var n := ApplyDrain(s, op);
    if n.threads != s.threads {
      if op.DrainSpawns? {
        var next := DrainSpawning(s.threads[op.t].left - {op.ref}, s.threads[op.t].all);
        OwnersAlone(s.threads, s.managed, op.t, next);
        OwnersAlone(s.threads[op.t := next], s.managed, op.child, Finishing(op.ref, ToNothing));
      } else {
        OwnersAlone(s.threads, s.managed, op.t, n.threads[op.t]);
      }
    }
  }

  lemma RemoveOwners(s: State, op: Op)
    requires OwnersOk(s.threads, s.managed) && IsRemove(op)
    ensures var n := ApplyRemove(s, op); OwnersOk(n.threads, n.managed)
  {
    hide OwnersOk;
    if op.t in s.threads && !(exists x :: OnItsWay(s.threads[op.t], x)) {
      OwnersAlone(s.threads, s.managed, op.t, ApplyRemove(s, op).threads[op.t]);
      assert op.t in ApplyRemove(s, op).threads;
    }
  }

  lemma ApplyKeepsWhole(s: State, op: Op)
    requires Whole(s)
    ensures Whole(Apply(s, op))
  {
    hide Manager.Inv, OwnersOk, ApplyStart, ApplyAttach, ApplyFinish, ApplyControl, ApplyDrain, ApplyRemove;
    ApplyKeepsInvariant(s, op);
    if IsStart(op) {
      StartOwners(s, op);
    } else if IsFinish(op) {
      if op.EntersOnce? || op.BodySteps? { BodyOwners(s, op); } else { FinishOwners(s, op); }
    } else if IsControl(op) {
      ControlOwners(s, op);
    } else if IsDrain(op) {
      DrainOwners(s, op);
    } else if IsRemove(op) {
      RemoveOwners(s, op);
    } else if op.TimerFires? || op.TimerFinishes? {
      TimerOwners(s, op);
    } else if op.AttachLocks? || op.MarksComplete? {
      AttachOwners(s, op);
    } else {
      OtherOwners(s, op);
    }
  }

  lemma {:induction false} RunKeepsWhole(s: State, ops: seq<Op>)
    requires Whole(s)
    ensures Whole(Run(s, ops))
    decreases |ops|
  {
    hide Whole, Apply;
    if ops != [] {
      ApplyKeepsWhole(s, ops[0]);
      RunKeepsWhole(Apply(s, ops[0]), ops[1..]);
    }
  }

  // ---- continuations ----

  ghost predicate Reaches(s: State, t: State) { exists ops :: Run(s, ops) == t }

  ghost predicate At(start: State, s: State) { Reaches(start, s) && Whole(s) }

  lemma Stand(s: State)
    requires Whole(s)
    ensures At(s, s)
  {
    assert Run(s, []) == s;
  }

  lemma RunOne(s: State, op: Op)
    ensures Run(s, [op]) == Apply(s, op)
  {
    hide Apply;
    assert [op][1..] == [] && Run(Apply(s, op), []) == Apply(s, op);
  }

  lemma Go(start: State, s: State, op: Op)
    requires At(start, s)
    ensures At(start, Apply(s, op))
  {
    hide Apply, Whole;
    var ops :| Run(start, ops) == s;
    RunSplits(start, ops, [op]);
    RunOne(s, op);
    ApplyKeepsWhole(s, op);
  }

  lemma FreshTid(threads: map<Tid, Pc>) returns (t: Tid)
    ensures t !in threads
  {
    t := Above(threads.Keys);
  }

  // Single steps, with what they make of the state.

  lemma StopStep(start: State, s: State, id: SessionId, u: Tid) returns (t: State)
    requires At(start, s) && s.lock.Free? && u !in s.threads && id in s.sessions
    ensures At(start, t) && t == s.(threads := s.threads[u := Finishing(s.sessions[id], ToWait)])
  {
    hide At;
    Go(start, s, StopLooksUp(id, u));
    t := Apply(s, StopLooksUp(id, u));
  }

  lemma LockStep(start: State, s: State, u: Tid) returns (t: State)
    requires At(start, s) && u in s.threads && s.threads[u].Finishing? && s.threads[u].ref in s.managed
    ensures var ref := s.threads[u].ref;
            At(start, t) && t == s.(managed := s.managed[ref := SetFinished(s.managed[ref])],
                                    threads := s.threads[u := AtOnce(ref, s.managed[ref].attached, s.threads[u].next)])
  {
    hide At;
    Go(start, s, FinishLocks(u));
    t := Apply(s, FinishLocks(u));
  }

  lemma LeaveStep(start: State, s: State, u: Tid) returns (t: State)
    requires At(start, s) && u in s.threads && s.threads[u].AtOnce? && s.threads[u].ref in s.managed
    requires s.managed[s.threads[u].ref].once.Over?
    ensures At(start, t) && t == s.(threads := s.threads[u := NextPc(s.threads[u].ref, s.threads[u].next)])
  {
    hide At;
    Go(start, s, LeavesOnce(u));
    t := Apply(s, LeavesOnce(u));
  }

  lemma EnterStep(start: State, s: State, u: Tid) returns (t: State)
    requires At(start, s) && u in s.threads && s.threads[u].AtOnce? && s.threads[u].ref in s.managed
    requires s.managed[s.threads[u].ref].once.NotYet?
    ensures var ref := s.threads[u].ref;
            At(start, t) && t == s.(managed := s.managed[ref := EnterOnce(s.managed[ref], s.threads[u].attached)])
  {
    hide At;
    Go(start, s, EntersOnce(u));
    t := Apply(s, EntersOnce(u));
  }

  lemma PumpStep(start: State, s: State, u: Tid) returns (t: State)
    requires At(start, s) && u in s.threads && s.threads[u].Pumping?
    ensures At(start, t) && t == s.(threads := s.threads[u := Finishing(s.threads[u].ref, ToComplete)])
  {
    hide At;
    Go(start, s, PumpEnds(u));
    t := Apply(s, PumpEnds(u));
  }

  lemma MarkStep(start: State, s: State, u: Tid) returns (t: State)
    requires At(start, s) && u in s.threads && s.threads[u].Marking? && s.threads[u].ref in s.managed
    ensures var ref := s.threads[u].ref;
            At(start, t) && t == s.(managed := s.managed[ref := MarkComplete(s.managed[ref])],
                                    threads := s.threads[u := Removing(ref, Return)])
  {
    hide At;
    Go(start, s, MarksComplete(u));
    t := Apply(s, MarksComplete(u));
  }

  lemma SeeStep(start: State, s: State, u: Tid) returns (t: State)
    requires At(start, s) && u in s.threads && s.threads[u].Awaiting? && s.threads[u].ref in s.managed
    requires s.managed[s.threads[u].ref].completeCloses > 0
    ensures At(start, t) && t == s.(threads := s.threads[u := Removing(s.threads[u].ref, Return)])
  {
    hide At;
    Go(start, s, StopSeesComplete(u));
    t := Apply(s, StopSeesComplete(u));
  }

  lemma DeleteStep(start: State, s: State, u: Tid) returns (t: State)
    requires At(start, s) && s.lock.Free? && u in s.threads && s.threads[u].Removing? && s.threads[u].ref in s.managed
    ensures var ref, after := s.threads[u].ref, s.threads[u].after;
            && At(start, t)
            && t == if Listed(s.sessions, ref, s.managed[ref])
                    then s.(sessions := s.sessions - {s.managed[ref].id},
                            threads := s.threads[u := LoadingActive(after)])
                    else s.(threads := s.threads[u := AfterPc(after)])
  {
    hide At;
    Go(start, s, Removes(u));
    t := Apply(s, Removes(u));
  }

  predicate Bystander(pc: Pc) { pc.Awaiting? || Drains(pc) }

  /** A Drain under way, and a Stop that waits for a completion, are where they were. */
  ghost predicate BystandersStay(s: State, t: State) {
    && t.draining == s.draining
    && (forall d :: d in s.threads && Bystander(s.threads[d]) ==> d in t.threads && t.threads[d] == s.threads[d])
  }

  lemma WholeAt(s: State, r: Ref)
    requires Whole(s) && r in s.managed
    ensures Sound(s.managed[r]) &&
        (s.managed[r].attached && s.managed[r].completeCloses == 0 ==> Owner(s.threads, s.managed[r].connection, r))
    ensures Listed(s.sessions, r, s.managed[r]) || Done(s.managed[r])
  {
  }

  lemma WholeThread(s: State, t: Tid)
    requires Whole(s) && t in s.threads
    ensures ThreadOk(t, s.threads[t], s.managed) && (Drains(s.threads[t]) ==> s.draining)
  {
  }

  lemma WholeSession(s: State, id: SessionId)
    requires Whole(s) && id in s.sessions
    ensures s.sessions[id] in s.managed && s.managed[s.sessions[id]].id == id
  {
  }

  lemma WholeLock(s: State)
    requires Whole(s)
    ensures s.lock.Inserted? || s.lock.CountedStarted? || s.lock.Arming? ==> s.lock.ref in s.managed
  {
  }

  function StepsToFree(lock: Lock): nat {
    match lock
    case Free => 0
    case Opening(_) => 1
    case Arming(_) => 1
    case CountedStarted(_) => 2
    case Inserted(_) => 3
  }

  /** A Start in progress gives up or finishes, and the mutex is free. */
  lemma {:induction false} FreeLock(start: State, s: State) returns (t: State)
    requires At(start, s)
    ensures At(start, t) && t.lock.Free? && t.threads == s.threads
    decreases StepsToFree(s.lock)
  {
    hide At, Whole;
    if s.lock.Free? {
      t := s;
    } else {
      AtIsWhole(start, s);
      WholeLock(s);
      var op := if s.lock.Opening? then StartFails else if s.lock.Inserted? then StartCountsStarted
                else if s.lock.CountedStarted? then StartCountsActive else StartUnlocks;
      Go(start, s, op);
      t := FreeLock(start, Apply(s, op));
    }
  }

  lemma {:induction false} DriveBody(start: State, s: State, ref: Ref) returns (t: State)
    requires At(start, s) && ref in s.managed && !s.managed[ref].once.NotYet?
    ensures At(start, t) && ref in t.managed && t.managed[ref].once.Over?
    ensures t.sessions == s.sessions && t.lock == s.lock && t.draining == s.draining && t.threads == s.threads
    decreases 10 - Rank(s.managed[ref].once)
  {
    hide At, BodyStep;
    if s.managed[ref].once.Over? {
      t := s;
    } else {
      RankGrows(s.managed[ref]);
      Go(start, s, BodySteps(ref));
      NotBack(s.managed[ref]);
      t := DriveBody(start, Apply(s, BodySteps(ref)), ref);
    }
  }

  lemma NotBack(m: Managed)
    requires m.once.Running?
    ensures !BodyStep(m).once.NotYet?
  {
  }

  lemma AtIsWhole(start: State, s: State)
    requires At(start, s)
    ensures Whole(s)
  {
  }

  /** The body of finishResources runs to its end. */
  lemma FinishIt(start: State, s: State, id: SessionId) returns (t: State)
    requires At(start, s) && s.lock.Free? && id in s.sessions
    ensures At(start, t) && t.lock.Free? && t.sessions == s.sessions && BystandersStay(s, t)
    ensures s.sessions[id] in t.managed && t.managed[s.sessions[id]].once.Over?
  {
    hide At, Whole;
    AtIsWhole(start, s);
    WholeSession(s, id);
    var ref := s.sessions[id];
    if !s.managed[ref].once.NotYet? {
      t := DriveBody(start, s, ref);
    } else {
      var u := FreshTid(s.threads);
      var a := StopStep(start, s, id, u);
      var b := LockStep(start, a, u);
      var c := EnterStep(start, b, u);
      t := DriveBody(start, c, ref);
    }
  }

  lemma OverAndOpen(m: Managed)
    requires Sound(m) && m.once.Over? && m.completeCloses == 0
    ensures m.attached
  {
  }

  /** What a goroutine does to its own session on the way to marking it complete. */
  ghost predicate Carried(s: State, t: State, ref: Ref) {
    && t.lock == s.lock && t.sessions == s.sessions && BystandersStay(s, t)
    && ref in t.managed && t.managed[ref].once.Over? && t.managed[ref].completeCloses > 0
  }

  lemma FromOnce(start: State, s: State, ref: Ref, u: Tid) returns (t: State)
    requires At(start, s) && ref in s.managed && s.managed[ref].once.Over? && u in s.threads
    requires || s.threads[u] == Marking(ref)
             || (s.threads[u].AtOnce? && s.threads[u].ref == ref && s.threads[u].next == ToComplete)
    ensures At(start, t) && Carried(s, t, ref)
  {
    hide At, Whole, Sound;
    t := s;
    if s.threads[u].AtOnce? { t := LeaveStep(start, s, u); }
    t := MarkStep(start, t, u);
  }

  lemma FromFinish(start: State, s: State, ref: Ref, u: Tid) returns (t: State)
    requires At(start, s) && ref in s.managed && s.managed[ref].once.Over? && u in s.threads
    requires s.threads[u] == Finishing(ref, ToComplete)
    ensures At(start, t) && Carried(s, t, ref)
  {
    hide At, Whole, Sound;
    var a := LockStep(start, s, u);
    t := FromOnce(start, a, ref, u);
  }

  lemma FromPump(start: State, s: State, ref: Ref, u: Tid) returns (t: State)
    requires At(start, s) && ref in s.managed && s.managed[ref].once.Over? && u in s.threads
    requires s.threads[u] == Pumping(ref)
    ensures At(start, t) && Carried(s, t, ref)
  {
    hide At, Whole, Sound;
    var a := PumpStep(start, s, u);
    t := FromFinish(start, a, ref, u);
  }

  /** An unattached session was marked complete by the body; an attached one is by its own goroutine. */
  lemma CompleteIt(start: State, s: State, ref: Ref) returns (t: State)
    requires At(start, s) && ref in s.managed && s.managed[ref].once.Over?
    ensures At(start, t) && Carried(s, t, ref)
  {
    hide At, Whole, Sound;
    if s.managed[ref].completeCloses > 0 {
      t := s;
    } else {
      AtIsWhole(start, s);
      WholeAt(s, ref);
      OverAndOpen(s.managed[ref]);
      var u := s.managed[ref].connection.value;
      if s.threads[u].Pumping? {
        t := FromPump(start, s, ref, u);
      } else if s.threads[u].Finishing? {
        t := FromFinish(start, s, ref, u);
      } else {
        t := FromOnce(start, s, ref, u);
      }
    }
  }

  /** A Stop passes the finished once and the closed channel, and takes the session out of the map. */
  lemma RemoveIt(start: State, s: State, id: SessionId) returns (t: State)
    requires At(start, s) && s.lock.Free? && id in s.sessions && s.sessions[id] in s.managed
    requires s.managed[s.sessions[id]].once.Over? && s.managed[s.sessions[id]].completeCloses > 0
    ensures At(start, t) && t.lock.Free? && t.sessions == s.sessions - {id} && BystandersStay(s, t)
  {
    hide At, Whole;
    AtIsWhole(start, s);
    WholeSession(s, id);
    var u := FreshTid(s.threads);
    var a := StopStep(start, s, id, u);
    var b := LockStep(start, a, u);
    var c := LeaveStep(start, b, u);
    var d := SeeStep(start, c, u);
    t := DeleteStep(start, d, u);
  }

  /** Session by session, the map can be emptied. */
  lemma {:induction false} EmptyMap(start: State, s: State) returns (t: State)
    requires At(start, s) && s.lock.Free?
    ensures At(start, t) && t.lock.Free? && t.sessions == map[] && BystandersStay(s, t)
    decreases |s.sessions|
  {
    hide At;
    if s.sessions == map[] {
      t := s;
    } else {
      var id :| id in s.sessions;
      var a := FinishIt(start, s, id);
      var b := CompleteIt(start, a, s.sessions[id]);
      var c := RemoveIt(start, b, id);
      assert c.sessions.Keys == s.sessions.Keys - {id};
      assert |c.sessions.Keys| == |c.sessions| && |s.sessions.Keys| == |s.sessions|;
      t := EmptyMap(start, c);
    }
  }

  // ---- draining ----

  lemma {:induction false} SpawnAll(start: State, s: State, d: Tid) returns (t: State)
    requires At(start, s) && d in s.threads && s.threads[d].DrainSpawning?
    ensures At(start, t) && t.lock == s.lock && t.sessions == s.sessions && t.draining == s.draining
    ensures d in t.threads && t.threads[d] == DrainWaiting(s.threads[d].all)
    decreases |s.threads[d].left|
  {
    hide At;
    if s.threads[d].left == {} {
      Go(start, s, DrainSpawned(d));
      t := Apply(s, DrainSpawned(d));
    } else {
      var ref :| ref in s.threads[d].left;
      var child := FreshTid(s.threads);
      Go(start, s, DrainSpawns(d, ref, child));
      t := SpawnAll(start, Apply(s, DrainSpawns(d, ref, child)), d);
    }
  }

  /** With the map empty, every session the Drain waits for is complete, and its removal finds nothing. */
  lemma {:induction false} TakeAll(start: State, s: State, d: Tid) returns (t: State)
    requires At(start, s) && s.lock.Free? && s.sessions == map[]
    requires d in s.threads && s.threads[d].DrainWaiting?
    ensures At(start, t) && t.lock.Free? && t.sessions == map[]
    ensures d in t.threads && t.threads[d] == DrainWaiting({})
    decreases |s.threads[d].left|
  {
    hide At, Whole;
    if s.threads[d].left == {} {
      t := s;
    } else {
      var ref :| ref in s.threads[d].left;
      AtIsWhole(start, s);
      WholeThread(s, d);
      WholeAt(s, ref);
      Go(start, s, DrainTakes(d, ref));
      var a := Apply(s, DrainTakes(d, ref));
      assert a == s.(threads := s.threads[d := Removing(ref, BackToDrain(s.threads[d].left - {ref}))]);
      var b := DeleteStep(start, a, d);
      t := TakeAll(start, b, d);
    }
  }

  /** Wherever any interleaving has led, a new Drain can empty the map and return nil. */
  lemma CanAlwaysDrain(capacity: nat, ops: seq<Op>) returns (more: seq<Op>)
    ensures var t := Run(Run(Initial(capacity), ops), more); t.drained && t.sessions == map[]
  {
    hide Run, Apply, Whole;
    var start := Run(Initial(capacity), ops);
    ReachableWhole(capacity, ops);
    Stand(start);
    var s := DrainFrom(start);
    more := Path(start, s);
  }

  lemma Path(start: State, s: State) returns (ops: seq<Op>)
    requires Reaches(start, s)
    ensures Run(start, ops) == s
  {
    ops :| Run(start, ops) == s;
  }

  lemma ReachableWhole(capacity: nat, ops: seq<Op>)
    ensures Whole(Run(Initial(capacity), ops))
  {
    var s := Initial(capacity);
    Reachable(capacity, []);
    assert Run(s, []) == s;
    RunKeepsWhole(s, ops);
  }

  lemma BeginStep(start: State, s: State, d: Tid) returns (t: State)
    requires At(start, s) && s.lock.Free? && d !in s.threads
    ensures At(start, t) &&
        t == s.(draining := true, threads := s.threads[d := DrainSpawning(s.sessions.Values, s.sessions.Values)])
  {
    hide At;
    Go(start, s, DrainBegins(d));
    t := Apply(s, DrainBegins(d));
  }

  lemma CheckStep(start: State, s: State, d: Tid) returns (t: State)
    requires At(start, s) && s.lock.Free? && d in s.threads && s.threads[d] == DrainWaiting({}) && s.sessions == map[]
    ensures Reaches(start, t) && t.drained && t.sessions == map[]
  {
    hide Whole, Reaches;
    Go(start, s, DrainChecks(d));
    t := Apply(s, DrainChecks(d));
  }

  lemma DrainFrom(start: State) returns (t: State)
    requires At(start, start)
    ensures Reaches(start, t) && t.drained && t.sessions == map[]
  {
    hide At, Reaches, Apply;
    var a := FreeLock(start, start);
    var d := FreshTid(a.threads);
    var b := BeginStep(start, a, d);
    var c := SpawnAll(start, b, d);
    var e := EmptyMap(start, c);
    assert Drains(c.threads[d]);
    var f := TakeAll(start, e, d);
    t := CheckStep(start, f, d);
  }

  // ---- every call can return ----

  /** How far a goroutine is from returning, in the stages below. */
  function Distance(pc: Pc): nat {
    match pc
    case Returned(_) => 0
    case DrainWaiting(_) => 1
    case ControlFound(_) => 1
    case DrainSpawning(_, _) => 2
    case CountingCompleted(_) => 2
    case LoadingActive(_) => 3
    case SwappingActive(_, _) => 4
    case Removing(_, _) => 5
    case Awaiting(_) => 6
    case Marking(_) => 6
    case AtOnce(_, _, _) => 7
    case Finishing(_, _) => 8
    case TimerRunning(_) => 8
    case Pumping(_) => 9
    case AttachFound(_) => 10
  }

  ghost predicate Closer(s: State, n: State, t: Tid) {
    t in s.threads && t in n.threads && Distance(n.threads[t]) < Distance(s.threads[t])
  }

  lemma LoadStep(start: State, s: State, t: Tid) returns (n: State)
    requires At(start, s) && t in s.threads && s.threads[t].LoadingActive? && s.active > 0
    ensures At(start, n) && n == s.(threads := s.threads[t := SwappingActive(s.active, s.threads[t].after)])
  {
    hide At;
    Go(start, s, LoadsActive(t));
    n := Apply(s, LoadsActive(t));
  }

  lemma SwapStep(start: State, s: State, t: Tid) returns (n: State)
    requires At(start, s) && t in s.threads && s.threads[t].SwappingActive?
    ensures At(start, n) && t in n.threads
    ensures n.threads[t] == if s.active == s.threads[t].seen && s.active > 0 then CountingCompleted(s.threads[t].after)
                            else LoadingActive(s.threads[t].after)
  {
    hide At;
    Go(start, s, SwapsActive(t));
    n := Apply(s, SwapsActive(t));
  }

  lemma CountCloser(start: State, s: State, t: Tid) returns (n: State)
    requires At(start, s) && t in s.threads && Uncompleted(s.threads[t])
    ensures At(start, n) && Closer(s, n, t)
  {
    hide At, Whole;
    AtIsWhole(start, s);
    if s.threads[t].LoadingActive? {
      WholeActive(s, t);
      var a := LoadStep(start, s, t);
      n := SwapStep(start, a, t);
    } else if s.threads[t].SwappingActive? {
      n := SwapStep(start, s, t);
    } else {
      Go(start, s, CountsCompleted(t));
      n := Apply(s, CountsCompleted(t));
    }
  }

  lemma WholeActive(s: State, t: Tid)
    requires Whole(s) && t in s.threads && Uncounted(s.threads[t])
    ensures s.active > 0
  {
    ActivePositiveInv(s, t);
  }

  lemma RemovalCloser(start: State, s: State, t: Tid) returns (n: State)
    requires At(start, s) && t in s.threads && s.threads[t].Removing?
    ensures At(start, n) && Closer(s, n, t)
  {
    hide At, Whole, Apply;
    var a := FreeLock(start, s);
    AtIsWhole(start, a);
    WholeThread(a, t);
    n := DeleteStep(start, a, t);
  }

  /** The body of finishOnce is run to its end by whoever is in it, and then the waiters pass. */
  lemma OnceCloser(start: State, s: State, t: Tid) returns (n: State)
    requires At(start, s) && t in s.threads && s.threads[t].AtOnce?
    ensures At(start, n) && Closer(s, n, t)
  {
    hide At, Whole, Apply;
    AtIsWhole(start, s);
    WholeThread(s, t);
    var ref := s.threads[t].ref;
    var a := s;
    if s.managed[ref].once.NotYet? { a := EnterStep(start, s, t); }
    var b := DriveBody(start, a, ref);
    n := LeaveStep(start, b, t);
  }

  lemma WaitCloser(start: State, s: State, t: Tid) returns (n: State)
    requires At(start, s) && t in s.threads && (s.threads[t].Awaiting? || s.threads[t].Marking?)
    ensures At(start, n) && Closer(s, n, t)
  {
    hide At, Whole, Apply;
    AtIsWhole(start, s);
    WholeThread(s, t);
    if s.threads[t].Awaiting? {
      var a := CompleteIt(start, s, s.threads[t].ref);
      n := SeeStep(start, a, t);
    } else {
      n := MarkStep(start, s, t);
    }
  }

  lemma FrontCloser(start: State, s: State, t: Tid) returns (n: State)
    requires At(start, s) && t in s.threads
    requires s.threads[t].AttachFound? || s.threads[t].Pumping? || s.threads[t].Finishing? || s.threads[t].TimerRunning?
    ensures At(start, n) && Closer(s, n, t)
  {
    hide At, Whole;
    AtIsWhole(start, s);
    WholeThread(s, t);
    if s.threads[t].Pumping? {
      n := PumpStep(start, s, t);
    } else if s.threads[t].Finishing? {
      n := LockStep(start, s, t);
    } else if s.threads[t].AttachFound? {
      Go(start, s, AttachLocks(t));
      n := Apply(s, AttachLocks(t));
    } else {
      Go(start, s, TimerFinishes(t));
      n := Apply(s, TimerFinishes(t));
    }
  }

  lemma ControlCloser(start: State, s: State, t: Tid) returns (n: State)
    requires At(start, s) && t in s.threads && s.threads[t].ControlFound?
    ensures At(start, n) && Closer(s, n, t)
  {
    hide At, Whole;
    AtIsWhole(start, s);
    WholeThread(s, t);
    var c := Above(s.channels.Keys);
    Go(start, s, ControlLocks(t, c));
    n := Apply(s, ControlLocks(t, c));
  }

  lemma DrainCloser(start: State, s: State, t: Tid) returns (n: State)
    requires At(start, s) && t in s.threads && (s.threads[t].DrainSpawning? || s.threads[t].DrainWaiting?)
    ensures At(start, n) && Closer(s, n, t)
  {
    hide At, Whole;
    if s.threads[t].DrainSpawning? {
      n := SpawnAll(start, s, t);
    } else {
      hide Apply;
      var a := FreeLock(start, s);
      var b := EmptyMap(start, a);
      assert Bystander(a.threads[t]);
      var c := TakeAll(start, b, t);
      n := ReturnStep(start, c, t);
    }
  }

  lemma ReturnStep(start: State, s: State, t: Tid) returns (n: State)
    requires At(start, s) && s.lock.Free? && t in s.threads && s.threads[t] == DrainWaiting({}) && s.sessions == map[]
    ensures At(start, n) && t in n.threads && n.threads[t] == Returned(Success)
  {
    hide At;
    Go(start, s, DrainChecks(t));
    n := Apply(s, DrainChecks(t));
  }

  lemma {:induction false} BringHome(start: State, s: State, t: Tid) returns (n: State)
    requires At(start, s) && t in s.threads
    ensures At(start, n) && t in n.threads && n.threads[t].Returned?
    decreases Distance(s.threads[t])
  {
    hide At, Apply;
    var pc := s.threads[t];
    if pc.Returned? {
      n := s;
    } else {
      var a;
      if Uncompleted(pc) {
        a := CountCloser(start, s, t);
      } else if pc.Removing? {
        a := RemovalCloser(start, s, t);
      } else if pc.AtOnce? {
        a := OnceCloser(start, s, t);
      } else if pc.Awaiting? || pc.Marking? {
        a := WaitCloser(start, s, t);
      } else if pc.ControlFound? {
        a := ControlCloser(start, s, t);
      } else if pc.DrainSpawning? || pc.DrainWaiting? {
        a := DrainCloser(start, s, t);
      } else {
        a := FrontCloser(start, s, t);
      }
      n := BringHome(start, a, t);
    }
  }

  /** Wherever any interleaving has led, with goroutines waiting on a sync.Once, on a completion, on a mutex
      or in the middle of a Start: every call under way has a continuation in which it returns. */
  lemma EveryCallCanReturn(capacity: nat, ops: seq<Op>, t: Tid) returns (more: seq<Op>)
    requires t in Run(Initial(capacity), ops).threads
    ensures var s := Run(Run(Initial(capacity), ops), more); t in s.threads && s.threads[t].Returned?
  {
    hide Run, Apply, Whole, Reaches;
    var start := Run(Initial(capacity), ops);
    ReachableWhole(capacity, ops);
    Stand(start);
    var s := BringHome(start, start, t);
    more := Path(start, s);
  }
}
