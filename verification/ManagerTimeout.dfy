/** The attach timeout: it never fires on a session that is attached or finished, and once it has fired on one
    that is neither, it finishes that session, closes what it holds and takes it out of the map, without
    depending on any other goroutine but a Start that holds the manager's lock. */
module ManagerTimeout {
  import opened ManagedSession
  import opened Manager
  import opened ManagerEffects

  // ---- the timer is off once a session is attached or finished ----

  predicate RefersAfter(after: After, r: Ref) { after.BackToDrain? && r in after.left }

  /** The goroutine knows the session. */
  predicate Refers(pc: Pc, r: Ref) {
    match pc
    case DrainSpawning(left, all) => r in left || r in all
    case DrainWaiting(left) => r in left
    case Removing(ref, after) => ref == r || RefersAfter(after, r)
    case LoadingActive(after) => RefersAfter(after, r)
    case SwappingActive(_, after) => RefersAfter(after, r)
    case CountingCompleted(after) => RefersAfter(after, r)
    case Returned(_) => false
    case AttachFound(ref) => ref == r
    case Pumping(ref) => ref == r
    case ControlFound(ref) => ref == r
    case TimerRunning(ref) => ref == r
    case Finishing(ref, _) => ref == r
    case AtOnce(ref, _, _) => ref == r
    case Marking(ref) => ref == r
    case Awaiting(ref) => ref == r
  }

  ghost predicate Unknown(threads: map<Tid, Pc>, r: Ref) {
    forall t :: t in threads ==> !Refers(threads[t], r)
  }

  predicate Idle(m: Managed) { !m.attached && !m.finished }

  predicate TimerOk(m: Managed) { m.timerArmed ==> Idle(m) }

  predicate FiredOk(pc: Pc, managed: map<Ref, Managed>) {
    pc.TimerRunning? && pc.ref in managed ==> !managed[pc.ref].timerArmed
  }

  ghost predicate TimersOk(threads: map<Tid, Pc>, managed: map<Ref, Managed>) {
    && (forall r :: r in managed ==> TimerOk(managed[r]))
    && (forall t :: t in threads ==> FiredOk(threads[t], managed))
  }

  /** Nobody knows the session, and nothing has happened to it. */
  ghost predicate Untouched(s: State, r: Ref) {
    Unknown(s.threads, r) && r in s.managed && Idle(s.managed[r]) && !s.managed[r].timerArmed
  }

  /** While its Start holds the lock, the new session is untouched. */
  ghost predicate NewUntouched(s: State) {
    s.lock.Inserted? || s.lock.CountedStarted? || s.lock.Arming? ==> Untouched(s, s.lock.ref)
  }

  ghost predicate Timed(s: State) { TimersOk(s.threads, s.managed) && NewUntouched(s) }

  lemma NotYetKnown(s: State, r: Ref)
    requires Inv(s) && r !in s.managed
    ensures Unknown(s.threads, r)
  {
    forall t | t in s.threads ensures !Refers(s.threads[t], r) { assert ThreadOk(t, s.threads[t], s.managed); }
  }

  lemma InsertKeepsTimed(s: State, op: Op)
    requires Timed(s) && op.StartInserts? && Unknown(s.threads, op.ref)
    ensures Timed(ApplyStart(s, op))
  {
    if s.lock.Opening? && op.ref !in s.managed {
      forall t | t in s.threads ensures FiredOk(s.threads[t], ApplyStart(s, op).managed) {
        assert !Refers(s.threads[t], op.ref);
      }
    }
  }

  lemma UnlockKeepsTimed(s: State)
    requires Timed(s)
    ensures Timed(ApplyStart(s, StartUnlocks))
  {
    if s.lock.Arming? && s.lock.ref in s.managed {
      forall t | t in s.threads ensures FiredOk(s.threads[t], ApplyStart(s, StartUnlocks).managed) {
        assert !Refers(s.threads[t], s.lock.ref);
      }
    }
  }

  lemma StartKeepsTimed(s: State, op: Op)
    requires Inv(s) && Timed(s) && IsStart(op)
    ensures Timed(ApplyStart(s, op))
  {
    hide Inv, TimersOk, Unknown;
    if op.StartInserts? {
      if op.ref !in s.managed { NotYetKnown(s, op.ref); InsertKeepsTimed(s, op); }
    } else if op.StartUnlocks? {
      UnlockKeepsTimed(s);
    }
  }

  // What one goroutine's step and one session's change mean.

  /** No timer is armed, and one that stays armed is of a session still idle. */
  predicate Calms(m: Managed, n: Managed) { n.timerArmed ==> m.timerArmed && (Idle(m) ==> Idle(n)) }

  lemma Calm(threads: map<Tid, Pc>, managed: map<Ref, Managed>, r: Ref, n: Managed)
    requires TimersOk(threads, managed) && r in managed && Calms(managed[r], n)
    ensures TimersOk(threads, managed[r := n])
  {
    forall t | t in threads ensures FiredOk(threads[t], managed[r := n]) { assert FiredOk(threads[t], managed); }
  }

  lemma Go(threads: map<Tid, Pc>, managed: map<Ref, Managed>, t: Tid, pc: Pc)
    requires TimersOk(threads, managed) && FiredOk(pc, managed)
    ensures TimersOk(threads[t := pc], managed)
  {
  }

  lemma HasFired(s: State, t: Tid)
    requires TimersOk(s.threads, s.managed) && t in s.threads
    ensures FiredOk(s.threads[t], s.managed)
  {
  }

  lemma AttachKeepsTimers(s: State, op: Op)
    requires TimersOk(s.threads, s.managed)
    ensures var n := ApplyAttach(s, op); TimersOk(n.threads, n.managed)
  {
    hide TimersOk;
    var n := ApplyAttach(s, op);
    if op.TimerFires? {
      if n != s {
        var m := s.managed[op.ref].(timerArmed := false);
        Calm(s.threads, s.managed, op.ref, m);
        Go(s.threads, s.managed[op.ref := m], op.t, TimerRunning(op.ref));
      }
    } else if n.threads != s.threads {
      if op.t in s.threads { HasFired(s, op.t); }
      if op.TimerFinishes? || op.AttachLocks? || op.MarksComplete? {
        var r := s.threads[op.t].ref;
        Calm(s.threads, s.managed, r, n.managed[r]);
      }
      Go(s.threads, n.managed, op.t, n.threads[op.t]);
    }
  }

  lemma BodyKeepsTimers(s: State, op: Op)
    requires TimersOk(s.threads, s.managed) && op.BodySteps?
    ensures var n := ApplyFinish(s, op); TimersOk(n.threads, n.managed)
  {
    hide TimersOk, BodyStep;
    if op.ref in s.managed && s.managed[op.ref].once.Running? {
      BodyKeepsIdle(s.managed[op.ref]);
      Calm(s.threads, s.managed, op.ref, BodyStep(s.managed[op.ref]));
    }
  }

  lemma FinishKeepsTimers(s: State, op: Op)
    requires TimersOk(s.threads, s.managed)
    ensures var n := ApplyFinish(s, op); TimersOk(n.threads, n.managed)
  {
    hide TimersOk;
    if op.BodySteps? {
      BodyKeepsTimers(s, op);
    } else if IsFinish(op) && op.t in s.threads && (s.threads[op.t].Finishing? || s.threads[op.t].AtOnce?)
              && s.threads[op.t].ref in s.managed
    {
      var r, m := s.threads[op.t].ref, s.managed[s.threads[op.t].ref];
      if op.EntersOnce? {
        if m.once.NotYet? && s.threads[op.t].AtOnce? {
          Calm(s.threads, s.managed, r, EnterOnce(m, s.threads[op.t].attached));
        }
      } else if op.FinishLocks? {
        Calm(s.threads, s.managed, r, SetFinished(m));
        if s.threads[op.t].Finishing? {
          Go(s.threads, s.managed[r := SetFinished(m)], op.t, AtOnce(r, m.attached, s.threads[op.t].next));
        }
      } else if s.threads[op.t].AtOnce? {
        Go(s.threads, s.managed, op.t, NextPc(r, s.threads[op.t].next));
      }
    }
  }

  lemma BodyKeepsIdle(m: Managed)
    requires m.once.Running?
    ensures var n := BodyStep(m); n.attached == m.attached && n.finished == m.finished && n.timerArmed == m.timerArmed
  {
    hide NextOnce;
  }

  lemma ControlKeepsTimers(s: State, op: Op)
    requires TimersOk(s.threads, s.managed)
    ensures var n := ApplyControl(s, op); TimersOk(n.threads, n.managed)
  {
    hide TimersOk, CloseChannel, SendOn;
    if op.ControlCloses? {
      if op.c in s.channels && s.channels[op.c].owner in s.managed {
        var r := s.channels[op.c].owner;
        Calm(s.threads, s.managed, r, DropControl(s.managed[r]));
      }
    } else if op.ControlLocks? {
      if op.t in s.threads && s.threads[op.t].ControlFound? && s.threads[op.t].ref in s.managed {
        var r := s.threads[op.t].ref;
        var (m, outcome) := OpenControl(s.managed[r], op.c);
        Calm(s.threads, s.managed, r, m);
        Go(s.threads, s.managed[r := m], op.t, Returned(outcome));
      }
    } else if op.ControlLooksUp? && s.lock.Free? && op.t !in s.threads {
      Go(s.threads, s.managed, op.t, ApplyControl(s, op).threads[op.t]);
    }
  }

  lemma DrainKeepsTimers(s: State, op: Op)
    requires TimersOk(s.threads, s.managed)
    ensures var n := ApplyDrain(s, op); TimersOk(n.threads, n.managed)
  {
    hide TimersOk, TimerOk;
    var n := ApplyDrain(s, op);
    if n.threads != s.threads {
      if op.DrainSpawns? {
        Go(s.threads, s.managed, op.t, n.threads[op.t]);
        Go(s.threads[op.t := n.threads[op.t]], s.managed, op.child, Finishing(op.ref, ToNothing));
      } else {
        Go(s.threads, s.managed, op.t, n.threads[op.t]);
      }
    }
  }

  lemma RemoveKeepsTimers(s: State, op: Op)
    requires TimersOk(s.threads, s.managed)
    ensures var n := ApplyRemove(s, op); TimersOk(n.threads, n.managed)
  {
    hide TimersOk, ApplyRemove;
    if op.Removes? {
      RemovalGoesOn(s, op.t);
    } else if op.LoadsActive? || op.SwapsActive? || op.CountsCompleted? {
      CountingGoesOn(s, op);
    } else {
      NotARemoval(s, op);
    }
  }

  lemma RemovalGoesOn(s: State, t: Tid)
    requires TimersOk(s.threads, s.managed)
    ensures var n := ApplyRemove(s, Removes(t)); TimersOk(n.threads, n.managed)
  {
    hide TimersOk, TimerOk;
    var n := ApplyRemove(s, Removes(t));
    if n.threads != s.threads { Go(s.threads, s.managed, t, n.threads[t]); }
  }

  lemma CountingGoesOn(s: State, op: Op)
    requires TimersOk(s.threads, s.managed) && (op.LoadsActive? || op.SwapsActive? || op.CountsCompleted?)
    ensures var n := ApplyRemove(s, op); TimersOk(n.threads, n.managed)
  {
    hide TimersOk, TimerOk;
    var n := ApplyRemove(s, op);
    if n.threads != s.threads { Go(s.threads, s.managed, op.t, n.threads[op.t]); }
  }

  lemma NotARemoval(s: State, op: Op)
    requires !IsRemove(op)
    ensures ApplyRemove(s, op) == s
  {
  }

  // ---- a new session stays untouched ----

  lemma Unmet(s: State, t: Tid, r: Ref)
    requires Untouched(s, r) && t in s.threads
    ensures !Refers(s.threads[t], r)
  {
  }

  lemma StaysUntouched(s: State, n: State, t: Tid, pc: Pc, r: Ref)
    requires Untouched(s, r) && n.threads == s.threads[t := pc] && !Refers(pc, r)
    requires r in n.managed && Idle(n.managed[r]) && !n.managed[r].timerArmed
    ensures Untouched(n, r)
  {
  }

  lemma IdleAlike(s: State, n: State, r: Ref)
    requires Untouched(s, r) && n.threads == s.threads
    requires r in n.managed && Idle(n.managed[r]) && !n.managed[r].timerArmed
    ensures Untouched(n, r)
  {
  }

  lemma Plain(s: State, r: Ref)
    requires Untouched(s, r)
    ensures r in s.managed && Idle(s.managed[r]) && !s.managed[r].timerArmed
  {
  }

  lemma AttachLeavesNew(s: State, op: Op, r: Ref)
    requires Untouched(s, r) && !s.lock.Free?
    ensures Untouched(ApplyAttach(s, op), r)
  {
    hide Untouched;
    var n := ApplyAttach(s, op);
    Plain(s, r);
    if n != s {
      if op.t in s.threads { Unmet(s, op.t, r); }
      StaysUntouched(s, n, op.t, n.threads[op.t], r);
    }
  }

  lemma FinishLeavesNew(s: State, op: Op, r: Ref)
    requires Untouched(s, r)
    ensures Untouched(ApplyFinish(s, op), r)
  {
    hide Untouched, BodyStep;
    var n := ApplyFinish(s, op);
    Plain(s, r);
    if op.BodySteps? {
      if op.ref in s.managed && s.managed[op.ref].once.Running? { BodyKeepsIdle(s.managed[op.ref]); }
      IdleAlike(s, n, r);
    } else if n != s {
      Unmet(s, op.t, r);
      assert n.threads == s.threads[op.t := n.threads[op.t]];
      StaysUntouched(s, n, op.t, n.threads[op.t], r);
    }
  }

  lemma ControlLeavesNew(s: State, op: Op, r: Ref)
    requires Untouched(s, r) && !s.lock.Free?
    ensures Untouched(ApplyControl(s, op), r)
  {
    hide Untouched;
    var n := ApplyControl(s, op);
    Plain(s, r);
    if op.ControlLocks? && n != s {
      Unmet(s, op.t, r);
      StaysUntouched(s, n, op.t, n.threads[op.t], r);
    } else {
      IdleAlike(s, n, r);
    }
  }

  lemma DrainLeavesNew(s: State, op: Op, r: Ref)
    requires Untouched(s, r) && !s.lock.Free?
    ensures Untouched(ApplyDrain(s, op), r)
  {
    hide Untouched;
    var n := ApplyDrain(s, op);
    Plain(s, r);
    if n != s {
      Unmet(s, op.t, r);
      if op.DrainSpawns? {
        var next := n.threads[op.t];
        var middle := s.(threads := s.threads[op.t := next]);
        StaysUntouched(s, middle, op.t, next, r);
        StaysUntouched(middle, n, op.child, Finishing(op.ref, ToNothing), r);
      } else {
        StaysUntouched(s, n, op.t, n.threads[op.t], r);
      }
    }
  }

  lemma RemoveLeavesNew(s: State, op: Op, r: Ref)
    requires Untouched(s, r)
    ensures Untouched(ApplyRemove(s, op), r)
  {
    hide Untouched, Idle, Refers;
    var n := ApplyRemove(s, op);
    Plain(s, r);
    if n != s {
      Unmet(s, op.t, r);
      RemovalForgets(s, op, r);
      StaysUntouched(s, n, op.t, n.threads[op.t], r);
    }
  }

  lemma RemovalForgets(s: State, op: Op, r: Ref)
    requires IsRemove(op) && op.t in s.threads && !Refers(s.threads[op.t], r)
    ensures op.t in ApplyRemove(s, op).threads && !Refers(ApplyRemove(s, op).threads[op.t], r)
  {
    hide Refers, AfterPc;
    var pc := s.threads[op.t];
    if Uncompleted(pc) || pc.Removing? {
      SameAfter(pc, pc.after, r);
      SameAfter(LoadingActive(pc.after), pc.after, r);
      SameAfter(CountingCompleted(pc.after), pc.after, r);
      SameAfter(SwappingActive(s.active, pc.after), pc.after, r);
    }
  }

  lemma SameAfter(pc: Pc, after: After, r: Ref)
    requires (Uncompleted(pc) || pc.Removing?) && pc.after == after
    ensures Refers(pc, r) <==> (pc.Removing? && pc.ref == r) || RefersAfter(after, r)
    ensures Refers(AfterPc(after), r) <==> RefersAfter(after, r)
  {
  }

  lemma OthersKeepTimed(s: State, op: Op)
    requires Timed(s) && !IsStart(op)
    ensures Timed(Apply(s, op))
  {
    hide TimersOk, Untouched, ApplyStart, ApplyAttach, ApplyFinish, ApplyControl, ApplyDrain, ApplyRemove;
    AttachKeepsTimers(s, op);
    FinishKeepsTimers(s, op);
    ControlKeepsTimers(s, op);
    DrainKeepsTimers(s, op);
    RemoveKeepsTimers(s, op);
    LockStays(s, op);
    if s.lock.Inserted? || s.lock.CountedStarted? || s.lock.Arming? {
      AttachLeavesNew(s, op, s.lock.ref);
      FinishLeavesNew(s, op, s.lock.ref);
      ControlLeavesNew(s, op, s.lock.ref);
      DrainLeavesNew(s, op, s.lock.ref);
      RemoveLeavesNew(s, op, s.lock.ref);
    }
  }

  lemma LockStays(s: State, op: Op)
    requires !IsStart(op)
    ensures Apply(s, op).lock == s.lock
  {
    hide BodyStep, ApplyStart, TryAttach, OpenControl, SetFinishedUnattached;
    if IsDrain(op) || IsRemove(op) {
      hide ApplyAttach, ApplyFinish, ApplyControl;
    } else {
      hide ApplyDrain, ApplyRemove;
    }
  }

  lemma {:induction false} RunKeepsTimed(s: State, ops: seq<Op>)
    requires Inv(s) && Timed(s)
    ensures Timed(Run(s, ops))
    decreases |ops|
  {
    hide Inv, Timed, ApplyStart, ApplyAttach, ApplyFinish, ApplyControl, ApplyDrain, ApplyRemove;
    if ops != [] {
      ApplyKeepsInvariant(s, ops[0]);
      if IsStart(ops[0]) { StartKeepsTimed(s, ops[0]); } else { OthersKeepTimed(s, ops[0]); }
      RunKeepsTimed(Apply(s, ops[0]), ops[1..]);
    }
  }

  lemma ReachableTimed(capacity: nat, ops: seq<Op>)
    ensures Inv(Run(Initial(capacity), ops)) && Timed(Run(Initial(capacity), ops))
  {
    hide Run, Inv;
    Reachable(capacity, ops);
    Reachable(capacity, []);
    Nothing(Initial(capacity));
    RunKeepsTimed(Initial(capacity), ops);
  }

  /** In every run the timer of a session that is attached or finished is off: it never fires late. */
  lemma TimerOffOnceDecided(capacity: nat, ops: seq<Op>, ref: Ref)
    requires ref in Run(Initial(capacity), ops).managed
    ensures var m := Run(Initial(capacity), ops).managed[ref]; m.attached || m.finished ==> !m.timerArmed
  {
    hide Run;
    ReachableTimed(capacity, ops);
    assert TimerOk(Run(Initial(capacity), ops).managed[ref]);
  }

  // ---- a timeout that has fired ----

  /** A timeout that comes to the session's mutex leaves it finished or attached: it finishes exactly a
      session that is neither. */
  lemma TimeoutFinishes(capacity: nat, ops: seq<Op>, t: Tid)
    requires var s := Run(Initial(capacity), ops); t in s.threads && s.threads[t].TimerRunning?
    ensures var s := Run(Initial(capacity), ops);
            var ref, n := s.threads[t].ref, Apply(s, TimerFinishes(t));
            && ref in s.managed && ref in n.managed && t in n.threads
            && (n.managed[ref].finished || n.managed[ref].attached)
            && n.managed[ref].attached == s.managed[ref].attached
            && (Idle(s.managed[ref]) <==> !n.threads[t].Returned?)
  {
    hide Run, Inv;
    Reachable(capacity, ops);
    ThreadAt(Run(Initial(capacity), ops), t);
  }

  /** An armed timer can fire, and then finishes its session. */
  lemma ArmedTimerFinishes(capacity: nat, ops: seq<Op>, ref: Ref, t: Tid)
    requires var s := Run(Initial(capacity), ops); ref in s.managed && s.managed[ref].timerArmed && t !in s.threads
    ensures var s := Run(Initial(capacity), ops);
            var n := Run(s, [TimerFires(ref, t), TimerFinishes(t)]);
            ref in n.managed && n.managed[ref].finished && !n.managed[ref].attached && !n.managed[ref].timerArmed
  {
    hide Run, Inv;
    ReachableTimed(capacity, ops);
    var s := Run(Initial(capacity), ops);
    assert TimerOk(s.managed[ref]);
    hide Timed;
    ManagerEffects.TwoSteps(s, TimerFires(ref, t), TimerFinishes(t));
  }

  /** Whenever such a timeout has returned, its session is out of the map and everything it held is closed. */
  lemma TimeoutReturnsWhenGone(capacity: nat, ops: seq<Op>, t: Tid, more: seq<Op>)
    requires var s := Run(Initial(capacity), ops);
             t in s.threads && s.threads[t].TimerRunning? && s.threads[t].ref in s.managed
             && Idle(s.managed[s.threads[t].ref])
    requires var n := Run(Apply(Run(Initial(capacity), ops), TimerFinishes(t)), more);
             t in n.threads && n.threads[t].Returned?
    ensures var s := Run(Initial(capacity), ops);
            var n := Run(Apply(s, TimerFinishes(t)), more);
            Gone(n, s.threads[t].ref) && Released(n.managed[s.threads[t].ref])
  {
    hide Run, Inv;
    var s := Run(Initial(capacity), ops);
    RunOneMore(Initial(capacity), ops, TimerFinishes(t));
    ReturnedMeansGone(capacity, ops + [TimerFinishes(t)], t, s.threads[t].ref, more);
  }

  // ---- on its own ----

  /** A step of the timeout's goroutine, of the body it runs, or of a Start that holds the lock. */
  predicate OwnStep(op: Op, t: Tid, ref: Ref) {
    || op == TimerFinishes(t) || op == EntersOnce(t) || op == BodySteps(ref) || op == LeavesOnce(t) || op == Removes(t)
    || op.StartFails? || op.StartCountsStarted? || op.StartCountsActive? || op.StartUnlocks?
  }

  /** `ops`, all of them such steps, lead from `start` to `s`. */
  ghost predicate Alone(start: State, ops: seq<Op>, s: State, t: Tid, ref: Ref) {
    Run(start, ops) == s && Inv(s) && forall i :: 0 <= i < |ops| ==> OwnStep(ops[i], t, ref)
  }

  lemma Next(start: State, ops: seq<Op>, s: State, t: Tid, ref: Ref, op: Op)
    requires Alone(start, ops, s, t, ref) && OwnStep(op, t, ref)
    ensures Alone(start, ops + [op], Apply(s, op), t, ref)
  {
    hide Run, Inv, Apply;
    RunOneMore(start, ops, op);
    ApplyKeepsInvariant(s, op);
  }

  lemma {:induction false} BodyAlone(start: State, ops: seq<Op>, s: State, t: Tid, ref: Ref)
      returns (more: seq<Op>, n: State)
    requires Alone(start, ops, s, t, ref) && ref in s.managed && !s.managed[ref].once.NotYet?
    ensures Alone(start, more, n, t, ref) && ref in n.managed && n.managed[ref].once.Over?
    ensures n.threads == s.threads && n.lock == s.lock
    decreases 10 - Rank(s.managed[ref].once)
  {
    hide Alone, BodyStep;
    more, n := ops, s;
    if !s.managed[ref].once.Over? {
      RankGrows(s.managed[ref]);
      Next(start, ops, s, t, ref, BodySteps(ref));
      StillRuns(s.managed[ref]);
      more, n := BodyAlone(start, ops + [BodySteps(ref)], Apply(s, BodySteps(ref)), t, ref);
    }
  }

  lemma StillRuns(m: Managed)
    requires m.once.Running?
    ensures !BodyStep(m).once.NotYet?
  {
  }

  function StepsLeft(lock: Lock): nat {
    match lock
    case Free => 0
    case Opening(_) => 1
    case Arming(_) => 1
    case CountedStarted(_) => 2
    case Inserted(_) => 3
  }

  lemma LockAt(s: State)
    requires Inv(s)
    ensures s.lock.Inserted? || s.lock.CountedStarted? || s.lock.Arming? ==> s.lock.ref in s.managed
  {
  }

  lemma {:induction false} LockAlone(start: State, ops: seq<Op>, s: State, t: Tid, ref: Ref)
      returns (more: seq<Op>, n: State)
    requires Alone(start, ops, s, t, ref) && ref in s.managed && s.managed[ref].once.Over?
    ensures Alone(start, more, n, t, ref) && ref in n.managed && n.managed[ref].once.Over?
    ensures n.threads == s.threads && n.lock.Free?
    decreases StepsLeft(s.lock)
  {
    hide Inv, Run, ApplyAttach, ApplyFinish, ApplyControl, ApplyDrain, ApplyRemove, Alone;
    more, n := ops, s;
    if !s.lock.Free? {
      assert s.lock.Inserted? || s.lock.CountedStarted? || s.lock.Arming? ==> s.lock.ref in s.managed by {
        AloneIsSound(start, ops, s, t, ref);
        LockAt(s);
      }
      var op := if s.lock.Opening? then StartFails else if s.lock.Inserted? then StartCountsStarted
                else if s.lock.CountedStarted? then StartCountsActive else StartUnlocks;
      Next(start, ops, s, t, ref, op);
      more, n := LockAlone(start, ops + [op], Apply(s, op), t, ref);
    }
  }

  lemma AloneIsSound(start: State, ops: seq<Op>, s: State, t: Tid, ref: Ref)
    requires Alone(start, ops, s, t, ref)
    ensures Inv(s)
  {
  }

  lemma NotYetFinished(s: State, ref: Ref)
    requires Inv(s) && ref in s.managed && !s.managed[ref].finished
    ensures s.managed[ref].once.NotYet?
  {
    hide Inv;
    SoundAt(s, ref);
    UnfinishedIsNotRunning(s.managed[ref]);
  }

  lemma UnfinishedIsNotRunning(m: Managed)
    requires Sound(m) && !m.finished
    ensures m.once.NotYet?
  {
  }

  /** From wherever a timeout has fired on a session neither attached nor finished, steps of its goroutine, of
      the body it runs and of a Start that holds the lock suffice to take the session out, released. */
  lemma TimeoutSuffices(capacity: nat, ops: seq<Op>, t: Tid) returns (more: seq<Op>)
    requires var s := Run(Initial(capacity), ops);
             t in s.threads && s.threads[t].TimerRunning? && s.threads[t].ref in s.managed
             && Idle(s.managed[s.threads[t].ref])
    ensures var s := Run(Initial(capacity), ops);
            var ref, n := s.threads[t].ref, Run(s, more);
            && (forall i :: 0 <= i < |more| ==> OwnStep(more[i], t, ref))
            && Gone(n, ref) && Released(n.managed[ref])
  {
    hide Inv, Run;
    var s := Run(Initial(capacity), ops);
    var ref := s.threads[t].ref;
    Reachable(capacity, ops);
    NotYetFinished(s, ref);
    Nothing(s);
    assert Alone(s, [], s, t, ref);
    hide Alone;
    var past, b := EntersAlone(s, t);
    past, b := BodyAlone(s, past, b, t, ref);
    more := LeavesAlone(s, past, b, t, ref);
  }

  lemma EntersAlone(s: State, t: Tid) returns (more: seq<Op>, n: State)
    requires t in s.threads && s.threads[t].TimerRunning? && s.threads[t].ref in s.managed
    requires Alone(s, [], s, t, s.threads[t].ref)
    requires Idle(s.managed[s.threads[t].ref]) && s.managed[s.threads[t].ref].once.NotYet?
    ensures var ref := s.threads[t].ref;
            && Alone(s, more, n, t, ref) && ref in n.managed && n.managed[ref].once.Running?
            && t in n.threads && n.threads[t] == AtOnce(ref, false, ToRemove)
  {
    hide Alone;
    var ref := s.threads[t].ref;
    Next(s, [], s, t, ref, TimerFinishes(t));
    var a := Apply(s, TimerFinishes(t));
    Next(s, [] + [TimerFinishes(t)], a, t, ref, EntersOnce(t));
    more, n := [] + [TimerFinishes(t)] + [EntersOnce(t)], Apply(a, EntersOnce(t));
  }

  lemma LeavesAlone(start: State, ops: seq<Op>, s: State, t: Tid, ref: Ref) returns (more: seq<Op>)
    requires Alone(start, ops, s, t, ref) && ref in s.managed && s.managed[ref].once.Over?
    requires t in s.threads && s.threads[t] == AtOnce(ref, false, ToRemove)
    ensures var n := Run(start, more);
            && (forall i :: 0 <= i < |more| ==> OwnStep(more[i], t, ref))
            && Gone(n, ref) && Released(n.managed[ref])
  {
    hide Alone, Run, Released, ApplyStart, ApplyAttach, ApplyControl, ApplyDrain;
    Next(start, ops, s, t, ref, LeavesOnce(t));
    var past, e := LockAlone(start, ops + [LeavesOnce(t)], Apply(s, LeavesOnce(t)), t, ref);
    Next(start, past, e, t, ref, Removes(t));
    more := past + [Removes(t)];
    Lands(start, more, Apply(e, Removes(t)), t, ref);
  }

  lemma Lands(s: State, ops: seq<Op>, n: State, t: Tid, ref: Ref)
    requires Alone(s, ops, n, t, ref) && Gone(n, ref)
    ensures Run(s, ops) == n && (forall i :: 0 <= i < |ops| ==> OwnStep(ops[i], t, ref)) && Released(n.managed[ref])
  {
    hide Inv, Run;
    GoneIsReleased(n, ref);
  }
}
