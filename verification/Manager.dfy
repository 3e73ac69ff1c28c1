/** The media session manager (server/internal/media/session/manager.go): any number of goroutines in
    Start, Attach, AttachControl, Stop, Drain, control Close, publish and the attach timeout, interleaved
    at every mutex region, channel operation and atomic counter. A goroutine whose context ends, whose
    checks fail or that is never scheduled again takes no further step. */
module Manager {
  import opened Basics
  import opened ManagedSession

  /** What a goroutine does once finish has returned. */
  datatype Next = ToComplete | ToWait | ToRemove | ToNothing

  /** Where a removal returns to. */
  datatype After = Return | BackToDrain(left: set<Ref>)

  datatype Pc =
    | AttachFound(ref: Ref)
    | Pumping(ref: Ref)
    | ControlFound(ref: Ref)
    | TimerRunning(ref: Ref)
    | Finishing(ref: Ref, next: Next)
    | AtOnce(ref: Ref, attached: bool, next: Next)
    | Marking(ref: Ref)
    | Awaiting(ref: Ref)
    | Removing(ref: Ref, after: After)
    | LoadingActive(after: After)
    | SwappingActive(seen: nat, after: After)
    | CountingCompleted(after: After)
    | DrainSpawning(left: set<Ref>, all: set<Ref>)
    | DrainWaiting(left: set<Ref>)
    | Returned(outcome: Outcome)

  /** The manager's mutex: free, or held by a Start at one of its steps. Every other region under it is
      one step. */
  datatype Lock = Free | Opening(id: SessionId) | Inserted(ref: Ref) | CountedStarted(ref: Ref) | Arming(ref: Ref)

  /** A control channel, its attachment's session and sync.Once, and what happened to it. */
  datatype Channel = Channel(owner: Ref, closeCalled: bool, closes: nat, sendsAfterClose: nat)

  datatype State = State(
    capacity: nat, sessions: map<SessionId, Ref>, managed: map<Ref, Managed>, channels: map<Chan, Channel>,
    threads: map<Tid, Pc>, lock: Lock, draining: bool, drained: bool, started: nat, active: nat, completed: nat)

  function Initial(capacity: nat): State {
    State(capacity, map[], map[], map[], map[], Free, false, false, 0, 0, 0)
  }

  /** A new goroutine, session or channel takes a number not used before. */
  datatype Op =
    | StartBegins(id: SessionId) | StartFails | StartInserts(ref: Ref, hasStream: bool)
    | StartCountsStarted | StartCountsActive | StartUnlocks
    | TimerFires(ref: Ref, t: Tid) | TimerFinishes(t: Tid)
    | AttachLooksUp(id: SessionId, t: Tid) | AttachLocks(t: Tid) | PumpEnds(t: Tid)
    | ControlLooksUp(id: SessionId, t: Tid) | ControlLocks(t: Tid, c: Chan) | ControlCloses(c: Chan) | Publish(ref: Ref)
    | FinishLocks(t: Tid) | EntersOnce(t: Tid) | BodySteps(ref: Ref) | LeavesOnce(t: Tid)
    | MarksComplete(t: Tid)
    | StopLooksUp(id: SessionId, t: Tid) | StopSeesComplete(t: Tid)
    | DrainBegins(t: Tid) | DrainSpawns(t: Tid, ref: Ref, child: Tid) | DrainSpawned(t: Tid)
    | DrainTakes(t: Tid, ref: Ref) | DrainChecks(t: Tid)
    | Removes(t: Tid) | LoadsActive(t: Tid) | SwapsActive(t: Tid) | CountsCompleted(t: Tid)

  function AfterPc(after: After): Pc {
    match after
    case Return => Returned(Success)
    case BackToDrain(left) => DrainWaiting(left)
  }

  function NextPc(ref: Ref, next: Next): Pc {
    match next
    case ToComplete => Marking(ref)
    case ToWait => Awaiting(ref)
    case ToRemove => Removing(ref, Return)
    case ToNothing => Returned(Success)
  }

  function CloseChannel(channels: map<Chan, Channel>, c: Chan): map<Chan, Channel> {
    if c in channels then channels[c := channels[c].(closes := channels[c].closes + 1)] else channels
  }

  function SendOn(channels: map<Chan, Channel>, c: Chan): map<Chan, Channel> {
    if c in channels && channels[c].closes > 0
    then channels[c := channels[c].(sendsAfterClose := channels[c].sendsAfterClose + 1)] else channels
  }

  function Closing(channels: map<Chan, Channel>, c: Option<Chan>): map<Chan, Channel> {
    if c.Some? then CloseChannel(channels, c.value) else channels
  }

  function ApplyStart(s: State, op: Op): State {
    match op
    case StartBegins(id) =>
      if s.lock.Free? && !s.draining && id !in s.sessions && |s.sessions| < s.capacity
      then s.(lock := Opening(id)) else s
    case StartFails => if s.lock.Opening? then s.(lock := Free) else s
    case StartInserts(ref, hasStream) =>
      if !(s.lock.Opening? && ref !in s.managed) then s else
        s.(sessions := s.sessions[s.lock.id := ref], managed := s.managed[ref := NewManaged(s.lock.id, hasStream)],
           lock := Inserted(ref))
    case StartCountsStarted =>
      if s.lock.Inserted? then s.(started := s.started + 1, lock := CountedStarted(s.lock.ref)) else s
    case StartCountsActive =>
      if s.lock.CountedStarted? then s.(active := s.active + 1, lock := Arming(s.lock.ref)) else s
    case StartUnlocks =>
      if !(s.lock.Arming? && s.lock.ref in s.managed) then s else
        s.(managed := s.managed[s.lock.ref := s.managed[s.lock.ref].(timerArmed := true)], lock := Free)
    case _ => s
  }

  function ApplyAttach(s: State, op: Op): State {
    match op
    case TimerFires(ref, t) =>
      if !(ref in s.managed && s.managed[ref].timerArmed && t !in s.threads) then s else
        s.(managed := s.managed[ref := s.managed[ref].(timerArmed := false)],
           threads := s.threads[t := TimerRunning(ref)])
    case TimerFinishes(t) =>
      if !(t in s.threads && s.threads[t].TimerRunning? && s.threads[t].ref in s.managed) then s else
        var ref := s.threads[t].ref;
        var (m, unattached) := SetFinishedUnattached(s.managed[ref]);
        s.(managed := s.managed[ref := m],
           threads := s.threads[t := if unattached then AtOnce(ref, false, ToRemove) else Returned(Success)])
    case AttachLooksUp(id, t) =>
      if !(s.lock.Free? && t !in s.threads) then s else
        s.(threads := s.threads[t := if id in s.sessions then AttachFound(s.sessions[id]) else Returned(NotFound)])
    case AttachLocks(t) =>
      if !(t in s.threads && s.threads[t].AttachFound? && s.threads[t].ref in s.managed) then s else
        var ref := s.threads[t].ref;
        var (m, outcome) := TryAttach(s.managed[ref], t);
        s.(managed := s.managed[ref := m],
           threads := s.threads[t := if outcome.Success? then Pumping(ref) else Returned(outcome)])
    case PumpEnds(t) =>
      if !(t in s.threads && s.threads[t].Pumping?) then s else
        s.(threads := s.threads[t := Finishing(s.threads[t].ref, ToComplete)])
    case MarksComplete(t) =>
      if !(t in s.threads && s.threads[t].Marking? && s.threads[t].ref in s.managed) then s else
        var ref := s.threads[t].ref;
        s.(managed := s.managed[ref := MarkComplete(s.managed[ref])], threads := s.threads[t := Removing(ref, Return)])
    case StopLooksUp(id, t) =>
      if !(s.lock.Free? && t !in s.threads) then s else
        s.(threads := s.threads[t :=
             if id in s.sessions then Finishing(s.sessions[id], ToWait) else Returned(NotFound)])
    case StopSeesComplete(t) =>
      if !(t in s.threads && s.threads[t].Awaiting? && s.threads[t].ref in s.managed
           && s.managed[s.threads[t].ref].completeCloses > 0) then s else
        s.(threads := s.threads[t := Removing(s.threads[t].ref, Return)])
    case _ => s
  }

  function ApplyFinish(s: State, op: Op): State {
    match op
    case FinishLocks(t) =>
      if !(t in s.threads && s.threads[t].Finishing? && s.threads[t].ref in s.managed) then s else
        var ref := s.threads[t].ref;
        s.(managed := s.managed[ref := SetFinished(s.managed[ref])],
           threads := s.threads[t := AtOnce(ref, s.managed[ref].attached, s.threads[t].next)])
    case EntersOnce(t) =>
      if !(t in s.threads && s.threads[t].AtOnce? && s.threads[t].ref in s.managed
           && s.managed[s.threads[t].ref].once.NotYet?) then s else
        var ref := s.threads[t].ref;
        s.(managed := s.managed[ref := EnterOnce(s.managed[ref], s.threads[t].attached)])
    case BodySteps(ref) =>
      if !(ref in s.managed && s.managed[ref].once.Running?) then s else
        s.(managed := s.managed[ref := BodyStep(s.managed[ref])],
           channels := Closing(s.channels, Taken(s.managed[ref])))
    case LeavesOnce(t) =>
      if !(t in s.threads && s.threads[t].AtOnce? && s.threads[t].ref in s.managed
           && s.managed[s.threads[t].ref].once.Over?) then s else
        s.(threads := s.threads[t := NextPc(s.threads[t].ref, s.threads[t].next)])
    case _ => s
  }

  function ApplyControl(s: State, op: Op): State {
    match op
    case ControlLooksUp(id, t) =>
      if !(s.lock.Free? && t !in s.threads) then s else
        s.(threads := s.threads[t := if id in s.sessions then ControlFound(s.sessions[id]) else Returned(NotFound)])
    case ControlLocks(t, c) =>
      if !(t in s.threads && s.threads[t].ControlFound? && s.threads[t].ref in s.managed && c !in s.channels)
      then s else
        var ref := s.threads[t].ref;
        var (m, outcome) := OpenControl(s.managed[ref], c);
        s.(managed := s.managed[ref := m], threads := s.threads[t := Returned(outcome)],
           channels := if outcome.Success? then s.channels[c := Channel(ref, false, 0, 0)] else s.channels)
    case ControlCloses(c) =>
      if !(c in s.channels && !s.channels[c].closeCalled && s.channels[c].owner in s.managed) then s else
        var ref := s.channels[c].owner;
        var called := s.channels[c := s.channels[c].(closeCalled := true)];
        if s.managed[ref].controlOpen && s.managed[ref].control.Some? then
          s.(managed := s.managed[ref := DropControl(s.managed[ref])],
             channels := CloseChannel(called, s.managed[ref].control.value))
        else s.(channels := called)
    case Publish(ref) =>
      if !(ref in s.managed && s.managed[ref].controlOpen && s.managed[ref].control.Some?) then s else
        s.(channels := SendOn(s.channels, s.managed[ref].control.value))
    case _ => s
  }

  function ApplyDrain(s: State, op: Op): State {
    match op
    case DrainBegins(t) =>
      if !(s.lock.Free? && t !in s.threads) then s else
        s.(draining := true, threads := s.threads[t := DrainSpawning(s.sessions.Values, s.sessions.Values)])
    case DrainSpawns(t, ref, child) =>
      if !(t in s.threads && s.threads[t].DrainSpawning? && ref in s.threads[t].left && child !in s.threads) then s else
        var next := DrainSpawning(s.threads[t].left - {ref}, s.threads[t].all);
        s.(threads := s.threads[t := next][child := Finishing(ref, ToNothing)])
    case DrainSpawned(t) =>
      if !(t in s.threads && s.threads[t].DrainSpawning? && s.threads[t].left == {}) then s else
        s.(threads := s.threads[t := DrainWaiting(s.threads[t].all)])
    case DrainTakes(t, ref) =>
      if !(t in s.threads && s.threads[t].DrainWaiting? && ref in s.threads[t].left && ref in s.managed
           && s.managed[ref].completeCloses > 0) then s else
        s.(threads := s.threads[t := Removing(ref, BackToDrain(s.threads[t].left - {ref}))])
    case DrainChecks(t) =>
      if !(s.lock.Free? && t in s.threads && s.threads[t].DrainWaiting? && s.threads[t].left == {}
           && s.sessions == map[]) then s else
        s.(drained := true, threads := s.threads[t := Returned(Success)])
    case _ => s
  }

  function ApplyRemove(s: State, op: Op): State {
    match op
    case Removes(t) =>
      if !(s.lock.Free? && t in s.threads && s.threads[t].Removing? && s.threads[t].ref in s.managed) then s else
        var ref, after := s.threads[t].ref, s.threads[t].after;
        var id := s.managed[ref].id;
        if id in s.sessions && s.sessions[id] == ref
        then s.(sessions := s.sessions - {id}, threads := s.threads[t := LoadingActive(after)])
        else s.(threads := s.threads[t := AfterPc(after)])
    case LoadsActive(t) =>
      if !(t in s.threads && s.threads[t].LoadingActive?) then s else
        var after := s.threads[t].after;
        s.(threads := s.threads[t :=
             if s.active == 0 then CountingCompleted(after) else SwappingActive(s.active, after)])
    case SwapsActive(t) =>
      if !(t in s.threads && s.threads[t].SwappingActive?) then s else
        var seen, after := s.threads[t].seen, s.threads[t].after;
        if s.active == seen && seen > 0
        then s.(active := seen - 1, threads := s.threads[t := CountingCompleted(after)])
        else s.(threads := s.threads[t := LoadingActive(after)])
    case CountsCompleted(t) =>
      if !(t in s.threads && s.threads[t].CountingCompleted?) then s else
        s.(completed := s.completed + 1, threads := s.threads[t := AfterPc(s.threads[t].after)])
    case _ => s
  }

  predicate IsStart(op: Op) {
    || op.StartBegins? || op.StartFails? || op.StartInserts?
    || op.StartCountsStarted? || op.StartCountsActive? || op.StartUnlocks?
  }

  predicate IsFinish(op: Op) { op.FinishLocks? || op.EntersOnce? || op.BodySteps? || op.LeavesOnce? }

  predicate IsControl(op: Op) { op.ControlLooksUp? || op.ControlLocks? || op.ControlCloses? || op.Publish? }

  predicate IsDrain(op: Op) {
    op.DrainBegins? || op.DrainSpawns? || op.DrainSpawned? || op.DrainTakes? || op.DrainChecks?
  }

  predicate IsRemove(op: Op) { op.Removes? || op.LoadsActive? || op.SwapsActive? || op.CountsCompleted? }

  /** A step that is not enabled leaves the state alone. */
  function Apply(s: State, op: Op): State {
    if IsStart(op) then ApplyStart(s, op)
    else if IsFinish(op) then ApplyFinish(s, op)
    else if IsControl(op) then ApplyControl(s, op)
    else if IsDrain(op) then ApplyDrain(s, op)
    else if IsRemove(op) then ApplyRemove(s, op)
    else ApplyAttach(s, op)
  }

  function Run(s: State, ops: seq<Op>): State
    decreases |ops|
  {
    if ops == [] then s else Run(Apply(s, ops[0]), ops[1..])
  }

  // ---- what every step keeps ----

  ghost predicate ManagedOk(managed: map<Ref, Managed>) { forall r :: r in managed ==> Sound(managed[r]) }

  predicate Listed(sessions: map<SessionId, Ref>, r: Ref, m: Managed) { m.id in sessions && sessions[m.id] == r }

  ghost predicate SessionsOk(sessions: map<SessionId, Ref>, managed: map<Ref, Managed>) {
    && (forall id :: id in sessions ==> sessions[id] in managed && managed[sessions[id]].id == id)
    && (forall r :: r in managed ==> Listed(sessions, r, managed[r]) || Done(managed[r]))
  }

  predicate ChannelOk(c: Chan, ch: Channel, m: Managed) {
    && ch.closes == (if m.control == Some(c) || Taken(m) == Some(c) then 0 else 1)
    && ch.sendsAfterClose == 0
    && (m.control == Some(c) ==> !ch.closeCalled)
    && (Rank(m.once) < 3 ==> ch.closeCalled || m.control == Some(c))
  }

  predicate Holds(channels: map<Chan, Channel>, r: Ref, c: Option<Chan>) {
    c.Some? ==> c.value in channels && channels[c.value].owner == r
  }

  ghost predicate ChannelsOk(channels: map<Chan, Channel>, managed: map<Ref, Managed>) {
    && (forall c :: c in channels ==>
        channels[c].owner in managed && ChannelOk(c, channels[c], managed[channels[c].owner]))
    && (forall r :: r in managed ==> Holds(channels, r, managed[r].control) && Holds(channels, r, Taken(managed[r])))
  }

  predicate Attaching(t: Tid, ref: Ref, managed: map<Ref, Managed>) {
    ref in managed && managed[ref].connection == Some(t) && managed[ref].completeCloses == 0
  }

  predicate AfterOk(after: After, managed: map<Ref, Managed>) { after.BackToDrain? ==> after.left <= managed.Keys }

  predicate ThreadOk(t: Tid, pc: Pc, managed: map<Ref, Managed>) {
    match pc
    case AttachFound(ref) => ref in managed
    case Pumping(ref) => Attaching(t, ref, managed)
    case ControlFound(ref) => ref in managed
    case TimerRunning(ref) => ref in managed
    case Finishing(ref, next) => ref in managed && !next.ToRemove? && (next.ToComplete? ==> Attaching(t, ref, managed))
    case AtOnce(ref, attached, next) =>
      && ref in managed && managed[ref].finished && managed[ref].attached == attached
      && (next.ToRemove? ==> !attached) && (next.ToComplete? ==> Attaching(t, ref, managed))
    case Marking(ref) => Attaching(t, ref, managed) && managed[ref].once.Over?
    case Awaiting(ref) => ref in managed && managed[ref].once.Over?
    case Removing(ref, after) => ref in managed && Done(managed[ref]) && AfterOk(after, managed)
    case LoadingActive(after) => AfterOk(after, managed)
    case SwappingActive(seen, after) => seen > 0 && AfterOk(after, managed)
    case CountingCompleted(after) => AfterOk(after, managed)
    case DrainSpawning(left, all) => left <= all <= managed.Keys
    case DrainWaiting(left) => left <= managed.Keys
    case Returned(_) => true
  }

  ghost predicate ThreadsOk(threads: map<Tid, Pc>, managed: map<Ref, Managed>) {
    forall t :: t in threads ==> ThreadOk(t, threads[t], managed)
  }

  predicate Drains(pc: Pc) {
    || pc.DrainSpawning? || pc.DrainWaiting?
    || ((pc.Removing? || pc.LoadingActive? || pc.SwappingActive? || pc.CountingCompleted?) && pc.after.BackToDrain?)
  }

  ghost predicate DrainersOk(threads: map<Tid, Pc>, draining: bool) {
    !draining ==> forall t :: t in threads ==> !Drains(threads[t])
  }

  predicate Uncounted(pc: Pc) { pc.LoadingActive? || pc.SwappingActive? }

  predicate Uncompleted(pc: Pc) { Uncounted(pc) || pc.CountingCompleted? }

  /** Goroutines that took a session out of the map and have not yet counted it out of `active`. */
  function UncountedIn(threads: map<Tid, Pc>): set<Tid> { set t | t in threads && Uncounted(threads[t]) }

  function UncompletedIn(threads: map<Tid, Pc>): set<Tid> { set t | t in threads && Uncompleted(threads[t]) }

  /** A session in the map that its Start has not yet counted into `active`. */
  function StartPending(lock: Lock): nat { if lock.Inserted? || lock.CountedStarted? then 1 else 0 }

  predicate Counted(s: State) {
    && s.active + StartPending(s.lock) == |s.sessions| + |UncountedIn(s.threads)|
    && s.started + (if s.lock.Inserted? then 1 else 0) == |s.managed|
    && s.completed + |UncompletedIn(s.threads)| + |s.sessions| == |s.managed|
  }

  predicate LockOk(s: State) {
    && |s.sessions| <= s.capacity
    && (s.draining ==> s.lock.Free?)
    && (s.drained ==> s.draining && s.sessions == map[])
    && (s.lock.Opening? ==> s.lock.id !in s.sessions && |s.sessions| < s.capacity)
    && (s.lock.Inserted? || s.lock.CountedStarted? || s.lock.Arming? ==>
          s.lock.ref in s.managed && Listed(s.sessions, s.lock.ref, s.managed[s.lock.ref]))
  }

  ghost predicate Inv(s: State) {
    && ManagedOk(s.managed)
    && SessionsOk(s.sessions, s.managed)
    && ChannelsOk(s.channels, s.managed)
    && ThreadsOk(s.threads, s.managed)
    && DrainersOk(s.threads, s.draining)
    && Counted(s)
    && LockOk(s)
  }

  // ---- frames ----

  lemma ThreadOkLater(t: Tid, pc: Pc, managed: map<Ref, Managed>, r: Ref, n: Managed, actor: Option<Tid>)
    requires ThreadOk(t, pc, managed) && actor != Some(t)
    requires r in managed && Later(managed[r], n, actor)
    ensures ThreadOk(t, pc, managed[r := n])
  {
    assert managed[r := n].Keys == managed.Keys;
  }

  /** One goroutine moves on and one session changes. */
  lemma ThreadsMove(threads: map<Tid, Pc>, managed: map<Ref, Managed>, t: Tid, pc: Pc, r: Ref, n: Managed)
    requires ThreadsOk(threads, managed) && r in managed && Later(managed[r], n, Some(t))
    requires ThreadOk(t, pc, managed[r := n])
    ensures ThreadsOk(threads[t := pc], managed[r := n])
  {
    hide ThreadOk, Later;
    forall u | u in threads && u != t ensures ThreadOk(u, threads[u], managed[r := n]) {
      ThreadOkLater(u, threads[u], managed, r, n, Some(t));
    }
  }

  /** One session changes, no goroutine of the manager's callers moves. */
  lemma ThreadsStay(threads: map<Tid, Pc>, managed: map<Ref, Managed>, r: Ref, n: Managed)
    requires ThreadsOk(threads, managed) && r in managed && Later(managed[r], n, None)
    ensures ThreadsOk(threads, managed[r := n])
  {
    hide ThreadOk, Later;
    forall u | u in threads ensures ThreadOk(u, threads[u], managed[r := n]) {
      ThreadOkLater(u, threads[u], managed, r, n, None);
    }
  }

  lemma SessionsStay(sessions: map<SessionId, Ref>, managed: map<Ref, Managed>, r: Ref, n: Managed, actor: Option<Tid>)
    requires SessionsOk(sessions, managed) && r in managed && Later(managed[r], n, actor)
    ensures SessionsOk(sessions, managed[r := n])
  {
  }

  lemma ChannelsStay(channels: map<Chan, Channel>, managed: map<Ref, Managed>, r: Ref, n: Managed)
    requires ChannelsOk(channels, managed) && r in managed
    requires n.control == managed[r].control && Taken(n) == Taken(managed[r]) && Rank(managed[r].once) <= Rank(n.once)
    ensures ChannelsOk(channels, managed[r := n])
  {
  }

  lemma CountsMove(threads: map<Tid, Pc>, t: Tid, pc: Pc)
    ensures var before := t in threads && Uncounted(threads[t]);
            |UncountedIn(threads[t := pc])| ==
                |UncountedIn(threads)| + (if Uncounted(pc) then 1 else 0) - (if before then 1 else 0)
    ensures var before := t in threads && Uncompleted(threads[t]);
            |UncompletedIn(threads[t := pc])| ==
                |UncompletedIn(threads)| + (if Uncompleted(pc) then 1 else 0) - (if before then 1 else 0)
  {
    hide Uncounted, Uncompleted;
    MembershipMoves(UncountedIn(threads), UncountedIn(threads[t := pc]), t);
    MembershipMoves(UncompletedIn(threads), UncompletedIn(threads[t := pc]), t);
  }

  lemma MembershipMoves(before: set<Tid>, after: set<Tid>, t: Tid)
    requires forall u: Tid :: u != t ==> (u in before <==> u in after)
    ensures |after| == |before| + (if t in after then 1 else 0) - (if t in before then 1 else 0)
  {
    assert before - {t} == after - {t};
    assert before == if t in before then (before - {t}) + {t} else before - {t};
    assert after == if t in after then (after - {t}) + {t} else after - {t};
  }

  lemma Moved(s: State, t: Tid, pc: Pc, r: Ref, n: Managed)
    requires Inv(s) && r in s.managed && Sound(n) && Later(s.managed[r], n, Some(t))
    requires n.control == s.managed[r].control && Taken(n) == Taken(s.managed[r])
    requires ThreadOk(t, pc, s.managed[r := n]) && !Uncompleted(pc) && (t in s.threads ==> !Uncompleted(s.threads[t]))
    requires Drains(pc) ==> s.draining
    ensures Inv(s.(managed := s.managed[r := n], threads := s.threads[t := pc]))
  {
    hide ThreadsOk, ThreadOk, SessionsOk, ChannelsOk, Sound, UncountedIn, UncompletedIn;
    ThreadsMove(s.threads, s.managed, t, pc, r, n);
    SessionsStay(s.sessions, s.managed, r, n, Some(t));
    ChannelsStay(s.channels, s.managed, r, n);
    CountsMove(s.threads, t, pc);
  }

  lemma ThreadMoved(threads: map<Tid, Pc>, managed: map<Ref, Managed>, t: Tid, pc: Pc)
    requires ThreadsOk(threads, managed) && ThreadOk(t, pc, managed)
    ensures ThreadsOk(threads[t := pc], managed)
  {
    hide ThreadOk;
  }

  lemma MovedAlone(s: State, t: Tid, pc: Pc)
    requires Inv(s) && ThreadOk(t, pc, s.managed)
    requires !Uncompleted(pc) && (t in s.threads ==> !Uncompleted(s.threads[t])) && (Drains(pc) ==> s.draining)
    ensures Inv(s.(threads := s.threads[t := pc]))
  {
    hide ThreadsOk, ThreadOk, SessionsOk, ChannelsOk, ManagedOk, UncountedIn, UncompletedIn;
    ThreadMoved(s.threads, s.managed, t, pc);
    CountsMove(s.threads, t, pc);
  }

  lemma Stayed(s: State, r: Ref, n: Managed)
    requires Inv(s) && r in s.managed && Sound(n) && Later(s.managed[r], n, None)
    requires n.control == s.managed[r].control && Taken(n) == Taken(s.managed[r])
    ensures Inv(s.(managed := s.managed[r := n]))
  {
    hide ThreadsOk, ThreadOk, SessionsOk, ChannelsOk, Sound, UncountedIn, UncompletedIn;
    ThreadsStay(s.threads, s.managed, r, n);
    SessionsStay(s.sessions, s.managed, r, n, None);
    ChannelsStay(s.channels, s.managed, r, n);
  }

  // ---- step by step ----

  lemma ThreadsInsert(threads: map<Tid, Pc>, managed: map<Ref, Managed>, r: Ref, m: Managed)
    requires ThreadsOk(threads, managed) && r !in managed
    ensures ThreadsOk(threads, managed[r := m])
  {
    assert managed[r := m].Keys == managed.Keys + {r};
    forall u | u in threads ensures ThreadOk(u, threads[u], managed[r := m]) {
      assert ThreadOk(u, threads[u], managed);
    }
  }

  lemma SessionsInsert(sessions: map<SessionId, Ref>, managed: map<Ref, Managed>, r: Ref, m: Managed)
    requires SessionsOk(sessions, managed) && r !in managed && m.id !in sessions
    ensures SessionsOk(sessions[m.id := r], managed[r := m])
  {
    hide Done;
  }

  lemma ChannelsInsert(channels: map<Chan, Channel>, managed: map<Ref, Managed>, r: Ref, m: Managed)
    requires ChannelsOk(channels, managed) && r !in managed && m.control.None? && Taken(m).None?
    ensures ChannelsOk(channels, managed[r := m])
  {
    hide ChannelOk;
  }

  lemma ManagedInsert(managed: map<Ref, Managed>, r: Ref, id: SessionId, hasStream: bool)
    requires ManagedOk(managed)
    ensures ManagedOk(managed[r := NewManaged(id, hasStream)])
  {
    assert Sound(NewManaged(id, hasStream));
  }

  lemma InsertKeeps(s: State, ref: Ref, hasStream: bool)
    requires Inv(s) && s.lock.Opening? && ref !in s.managed
    ensures Inv(ApplyStart(s, StartInserts(ref, hasStream)))
  {
    hide ThreadsOk, ThreadOk, SessionsOk, ChannelsOk, ManagedOk, UncountedIn, UncompletedIn, DrainersOk, Done;
    var m := NewManaged(s.lock.id, hasStream);
    ManagedInsert(s.managed, ref, s.lock.id, hasStream);
    ThreadsInsert(s.threads, s.managed, ref, m);
    SessionsInsert(s.sessions, s.managed, ref, m);
    ChannelsInsert(s.channels, s.managed, ref, m);
  }

  lemma StartKeeps(s: State, op: Op)
    requires Inv(s) && IsStart(op)
    ensures Inv(ApplyStart(s, op))
  {
    hide ThreadsOk, SessionsOk, ChannelsOk, ManagedOk, UncountedIn, UncompletedIn;
    if op.StartInserts? {
      if s.lock.Opening? && op.ref !in s.managed { InsertKeeps(s, op.ref, op.hasStream); }
    } else if op.StartUnlocks? && s.lock.Arming? {
      TimerBit(s, s.lock.ref, true);
    }
  }

  lemma TimerBit(s: State, r: Ref, armed: bool)
    requires Inv(s) && r in s.managed
    ensures Inv(s.(managed := s.managed[r := s.managed[r].(timerArmed := armed)]))
    ensures Sound(s.managed[r].(timerArmed := armed)) && Later(s.managed[r], s.managed[r].(timerArmed := armed), None)
  {
    hide Inv;
    assert Sound(s.managed[r]) by { SoundAt(s, r); }
    Stayed(s, r, s.managed[r].(timerArmed := armed));
  }

  lemma SoundAt(s: State, r: Ref)
    requires Inv(s) && r in s.managed
    ensures Sound(s.managed[r])
  {
  }

  lemma ThreadAt(s: State, t: Tid)
    requires Inv(s) && t in s.threads
    ensures ThreadOk(t, s.threads[t], s.managed) && (Drains(s.threads[t]) ==> s.draining)
  {
  }

  lemma SessionAt(s: State, id: SessionId)
    requires Inv(s) && id in s.sessions
    ensures s.sessions[id] in s.managed
  {
  }

  lemma TimerKeeps(s: State, op: Op)
    requires Inv(s) && (op.TimerFires? || op.TimerFinishes?)
    ensures Inv(ApplyAttach(s, op))
  {
    hide Inv, Sound, Later;
    if op.TimerFires? {
      if op.ref in s.managed && s.managed[op.ref].timerArmed && op.t !in s.threads {
        TimerBit(s, op.ref, false);
        MovedAlone(s.(managed := s.managed[op.ref := s.managed[op.ref].(timerArmed := false)]), op.t,
            TimerRunning(op.ref));
      }
    } else if op.t in s.threads && s.threads[op.t].TimerRunning? && s.threads[op.t].ref in s.managed {
      var ref := s.threads[op.t].ref;
      SoundAt(s, ref);
      FinishKeeps(s.managed[ref], op.t);
      var (m, unattached) := SetFinishedUnattached(s.managed[ref]);
      Moved(s, op.t, if unattached then AtOnce(ref, false, ToRemove) else Returned(Success), ref, m);
    }
  }

  lemma LookUpKeeps(s: State, op: Op)
    requires Inv(s) && (op.AttachLooksUp? || op.StopLooksUp?)
    ensures Inv(ApplyAttach(s, op))
  {
    hide Inv;
    if s.lock.Free? && op.t !in s.threads {
      if op.id in s.sessions { SessionAt(s, op.id); }
      MovedAlone(s, op.t, ApplyAttach(s, op).threads[op.t]);
    }
  }

  lemma AttachKeepsInv(s: State, op: Op)
    requires Inv(s) && (op.AttachLocks? || op.PumpEnds? || op.MarksComplete? || op.StopSeesComplete?)
    ensures Inv(ApplyAttach(s, op))
  {
    hide Inv, Sound, Later;
    if op.t in s.threads && (s.threads[op.t].AttachFound? || s.threads[op.t].Pumping?
                             || s.threads[op.t].Marking? || s.threads[op.t].Awaiting?)
    {
      var t, ref := op.t, s.threads[op.t].ref;
      ThreadAt(s, t);
      SoundAt(s, ref);
      var m := s.managed[ref];
      if op.AttachLocks? && s.threads[t].AttachFound? {
        AttachKeeps(m, t);
        var (n, outcome) := TryAttach(m, t);
        Moved(s, t, if outcome.Success? then Pumping(ref) else Returned(outcome), ref, n);
      } else if op.PumpEnds? && s.threads[t].Pumping? {
        MovedAlone(s, t, Finishing(ref, ToComplete));
      } else if op.MarksComplete? && s.threads[t].Marking? {
        MarkCompleteKeeps(m, t);
        Moved(s, t, Removing(ref, Return), ref, MarkComplete(m));
      } else if op.StopSeesComplete? && s.threads[t].Awaiting? && m.completeCloses > 0 {
        CompleteMeansReleased(m);
        MovedAlone(s, t, Removing(ref, Return));
      }
    }
  }

  lemma FinishKeepsInv(s: State, op: Op)
    requires Inv(s) && (op.FinishLocks? || op.EntersOnce? || op.LeavesOnce?)
    ensures Inv(ApplyFinish(s, op))
  {
    hide Inv, Sound, Later;
    if op.t in s.threads && (s.threads[op.t].Finishing? || s.threads[op.t].AtOnce?) {
      var t, ref := op.t, s.threads[op.t].ref;
      ThreadAt(s, t);
      SoundAt(s, ref);
      var m := s.managed[ref];
      if op.FinishLocks? && s.threads[t].Finishing? {
        FinishKeeps(m, t);
        Moved(s, t, AtOnce(ref, m.attached, s.threads[t].next), ref, SetFinished(m));
      } else if op.EntersOnce? && s.threads[t].AtOnce? && m.once.NotYet? {
        EnterOnceKeeps(m, s.threads[t].attached, t);
        var n := EnterOnce(m, s.threads[t].attached);
        Moved(s, t, s.threads[t], ref, n);
        assert s.threads[t := s.threads[t]] == s.threads;
      } else if op.LeavesOnce? && s.threads[t].AtOnce? && m.once.Over? {
        OverMeansDone(m);
        MovedAlone(s, t, NextPc(ref, s.threads[t].next));
      }
    }
  }

  lemma OverMeansDone(m: Managed)
    requires Sound(m) && m.once.Over?
    ensures !m.attached ==> Done(m)
  {
  }

  lemma BodyKeepsInv(s: State, ref: Ref)
    requires Inv(s)
    ensures Inv(ApplyFinish(s, BodySteps(ref)))
  {
    hide Inv, Sound, Later;
    if ref in s.managed && s.managed[ref].once.Running? {
      var m := s.managed[ref];
      SoundAt(s, ref);
      BodyStepKeeps(m);
      if m.once.phase.TakingControl? || m.once.phase.ClosingControl? {
        BodyOnChannels(s, ref);
      } else {
        Stayed(s, ref, BodyStep(m));
      }
    }
  }

  /** The body takes the control channel, then closes it. */
  lemma BodyOnChannels(s: State, ref: Ref)
    requires Inv(s) && ref in s.managed && s.managed[ref].once.Running?
    requires s.managed[ref].once.phase.TakingControl? || s.managed[ref].once.phase.ClosingControl?
    ensures Inv(ApplyFinish(s, BodySteps(ref)))
  {
    hide ThreadsOk, SessionsOk, ChannelsOk, UncountedIn, UncompletedIn, Sound, Closing, BodyStep;
    var m := s.managed[ref];
    var n := BodyStep(m);
    BodyStepKeeps(m);
    ThreadsStay(s.threads, s.managed, ref, n);
    SessionsStay(s.sessions, s.managed, ref, n, None);
    TakenChannel(s.channels, s.managed, ref);
  }

  lemma TakenChannel(channels: map<Chan, Channel>, managed: map<Ref, Managed>, ref: Ref)
    requires ChannelsOk(channels, managed) && ref in managed && Sound(managed[ref]) && managed[ref].once.Running?
    requires managed[ref].once.phase.TakingControl? || managed[ref].once.phase.ClosingControl?
    ensures ChannelsOk(Closing(channels, Taken(managed[ref])), managed[ref := BodyStep(managed[ref])])
  {
    var m, n := managed[ref], BodyStep(managed[ref]);
    if m.once.phase.TakingControl? {
      assert Taken(m).None? && n.control.None? && Taken(n) == m.control && Rank(n.once) == 3;
      Handed(channels, managed, ref, n);
    } else {
      assert m.control.None? && n.control.None? && Taken(n).None? && Rank(n.once) == 4;
      Shut(channels, managed, ref, n);
    }
  }

  lemma Handed(channels: map<Chan, Channel>, managed: map<Ref, Managed>, ref: Ref, n: Managed)
    requires ChannelsOk(channels, managed) && ref in managed
    requires Taken(managed[ref]).None? && n.control.None? && Taken(n) == managed[ref].control && Rank(n.once) == 3
    ensures ChannelsOk(channels, managed[ref := n])
  {
  }

  lemma Shut(channels: map<Chan, Channel>, managed: map<Ref, Managed>, ref: Ref, n: Managed)
    requires ChannelsOk(channels, managed) && ref in managed
    requires managed[ref].control.None? && n.control.None? && Taken(n).None? && Rank(n.once) == 4
    ensures ChannelsOk(Closing(channels, Taken(managed[ref])), managed[ref := n])
  {
    if Taken(managed[ref]).None? {
      ChannelsQuiet(channels, managed, ref, n);
    } else {
      var c := Taken(managed[ref]).value;
      assert Holds(channels, ref, Taken(managed[ref]));
      assert ChannelOk(c, channels[c], managed[ref]);
    }
  }

  lemma ChannelsQuiet(channels: map<Chan, Channel>, managed: map<Ref, Managed>, ref: Ref, n: Managed)
    requires ChannelsOk(channels, managed) && ref in managed && managed[ref].control.None? && Taken(managed[ref]).None?
    requires n.control.None? && Taken(n).None? && Rank(n.once) == 4
    ensures ChannelsOk(channels, managed[ref := n])
  {
  }

  // ---- control channels ----

  lemma ControlOpened(channels: map<Chan, Channel>, managed: map<Ref, Managed>, ref: Ref, c: Chan)
    requires ChannelsOk(channels, managed) && ref in managed && c !in channels
    requires Rank(managed[ref].once) < 3 && managed[ref].control.None?
    ensures ChannelsOk(channels[c := Channel(ref, false, 0, 0)],
                       managed[ref := managed[ref].(control := Some(c), controlOpen := true)])
  {
  }

  lemma ControlClosed(channels: map<Chan, Channel>, managed: map<Ref, Managed>, c: Chan)
    requires ChannelsOk(channels, managed) && c in channels && channels[c].owner in managed && !channels[c].closeCalled
    requires managed[channels[c].owner].control.Some? && Rank(managed[channels[c].owner].once) < 3
    ensures managed[channels[c].owner].control == Some(c)
    ensures ChannelsOk(CloseChannel(channels[c := channels[c].(closeCalled := true)], c),
                       managed[channels[c].owner := DropControl(managed[channels[c].owner])])
  {
    var m := managed[channels[c].owner];
    assert ChannelOk(c, channels[c], m);
  }

  lemma ControlOpens(s: State, t: Tid, c: Chan)
    requires Inv(s)
    ensures Inv(ApplyControl(s, ControlLocks(t, c)))
  {
    hide ThreadsOk, ThreadOk, SessionsOk, ChannelsOk, UncountedIn, UncompletedIn, Sound, Later;
    if t in s.threads && s.threads[t].ControlFound? && s.threads[t].ref in s.managed && c !in s.channels {
      var ref := s.threads[t].ref;
      var m := s.managed[ref];
      OpenControlKeeps(m, c, t);
      var (n, outcome) := OpenControl(m, c);
      assert ThreadOk(t, Returned(outcome), s.managed[ref := n]) by { ReturnedOk(t, outcome, s.managed[ref := n]); }
      ThreadsMove(s.threads, s.managed, t, Returned(outcome), ref, n);
      SessionsStay(s.sessions, s.managed, ref, n, Some(t));
      CountsMove(s.threads, t, Returned(outcome));
      if outcome.Success? {
        ControlOpened(s.channels, s.managed, ref, c);
      } else {
        assert s.managed[ref := n] == s.managed;
      }
      LaterKeepsId(m, n, Some(t));
    }
  }

  lemma ReturnedOk(t: Tid, outcome: Outcome, managed: map<Ref, Managed>)
    ensures ThreadOk(t, Returned(outcome), managed)
  {
  }

  lemma LaterKeepsId(m: Managed, n: Managed, actor: Option<Tid>)
    requires Later(m, n, actor)
    ensures n.id == m.id
  {
  }

  lemma ControlShut(s: State, c: Chan)
    requires Inv(s)
    ensures Inv(ApplyControl(s, ControlCloses(c)))
  {
    hide ThreadsOk, ThreadOk, SessionsOk, ChannelsOk, UncountedIn, UncompletedIn, DrainersOk, Later;
    if c in s.channels && !s.channels[c].closeCalled && s.channels[c].owner in s.managed {
      var ref := s.channels[c].owner;
      var m := s.managed[ref];
      var n := DropControl(m);
      DropControlKeeps(m, None);
      if m.control.Some? {
        ThreadsStay(s.threads, s.managed, ref, n);
        SessionsStay(s.sessions, s.managed, ref, n, None);
        ControlClosed(s.channels, s.managed, c);
        LaterKeepsId(m, n, None);
      } else {
        AlreadyClosed(s.channels, s.managed, c);
      }
    }
  }

  lemma AlreadyClosed(channels: map<Chan, Channel>, managed: map<Ref, Managed>, c: Chan)
    requires ChannelsOk(channels, managed) && c in channels && managed[channels[c].owner].control.None?
    ensures ChannelsOk(channels[c := channels[c].(closeCalled := true)], managed)
  {
  }

  lemma PublishKeeps(s: State, ref: Ref)
    requires Inv(s)
    ensures Inv(ApplyControl(s, Publish(ref))) && ApplyControl(s, Publish(ref)) == s
  {
    if ref in s.managed && s.managed[ref].control.Some? {
      var c := s.managed[ref].control.value;
      assert Holds(s.channels, ref, s.managed[ref].control);
      assert ChannelOk(c, s.channels[c], s.managed[ref]);
    }
  }

  lemma ControlKeepsInv(s: State, op: Op)
    requires Inv(s) && IsControl(op)
    ensures Inv(ApplyControl(s, op))
  {
    hide Inv;
    if op.ControlLocks? {
      ControlOpens(s, op.t, op.c);
    } else if op.ControlCloses? {
      ControlShut(s, op.c);
    } else if op.Publish? {
      PublishKeeps(s, op.ref);
    } else if s.lock.Free? && op.t !in s.threads {
      if op.id in s.sessions { SessionAt(s, op.id); }
      MovedAlone(s, op.t, ApplyControl(s, op).threads[op.t]);
    }
  }

  // ---- draining ----

  lemma DrainBeginsKeeps(s: State, t: Tid)
    requires Inv(s) && s.lock.Free? && t !in s.threads
    ensures Inv(ApplyDrain(s, DrainBegins(t)))
  {
    hide ThreadsOk, SessionsOk, ChannelsOk, ManagedOk, UncountedIn, UncompletedIn, ThreadOk;
    var all := s.sessions.Values;
    assert ThreadOk(t, DrainSpawning(all, all), s.managed) by { ListedAreManaged(s.sessions, s.managed, t); }
    MovedAlone(s.(draining := true), t, DrainSpawning(all, all));
  }

  lemma ListedAreManaged(sessions: map<SessionId, Ref>, managed: map<Ref, Managed>, t: Tid)
    requires SessionsOk(sessions, managed)
    ensures ThreadOk(t, DrainSpawning(sessions.Values, sessions.Values), managed)
  {
    forall r | r in sessions.Values ensures r in managed {
      var id :| id in sessions && sessions[id] == r;
    }
  }

  lemma DrainKeepsInv(s: State, op: Op)
    requires Inv(s) && IsDrain(op)
    ensures Inv(ApplyDrain(s, op))
  {
    hide Inv;
    if op.DrainBegins? {
      if s.lock.Free? && op.t !in s.threads { DrainBeginsKeeps(s, op.t); }
    } else if op.t in s.threads {
      var pc := s.threads[op.t];
      ThreadAt(s, op.t);
      if op.DrainSpawns? && pc.DrainSpawning? && op.ref in pc.left && op.child !in s.threads {
        var next := DrainSpawning(pc.left - {op.ref}, pc.all);
        MovedAlone(s, op.t, next);
        MovedAlone(s.(threads := s.threads[op.t := next]), op.child, Finishing(op.ref, ToNothing));
      } else if op.DrainSpawned? && pc.DrainSpawning? && pc.left == {} {
        MovedAlone(s, op.t, DrainWaiting(pc.all));
      } else if op.DrainTakes? && pc.DrainWaiting? && op.ref in pc.left && op.ref in s.managed
                && s.managed[op.ref].completeCloses > 0
      {
        SoundAt(s, op.ref);
        CompleteMeansReleased(s.managed[op.ref]);
        MovedAlone(s, op.t, Removing(op.ref, BackToDrain(pc.left - {op.ref})));
      } else if op.DrainChecks? && s.lock.Free? && pc.DrainWaiting? && pc.left == {} && s.sessions == map[] {
        DrainReturns(s, op.t);
      }
    }
  }

  lemma DrainReturns(s: State, t: Tid)
    requires Inv(s) && s.lock.Free? && t in s.threads && s.threads[t].DrainWaiting? && s.sessions == map[] && s.draining
    ensures Inv(s.(drained := true, threads := s.threads[t := Returned(Success)]))
  {
    hide ThreadsOk, SessionsOk, ChannelsOk, ManagedOk, UncountedIn, UncompletedIn, ThreadOk;
    ReturnedOk(t, Success, s.managed);
    MovedAlone(s, t, Returned(Success));
  }

  // ---- removal ----

  lemma SessionsRemove(sessions: map<SessionId, Ref>, managed: map<Ref, Managed>, r: Ref)
    requires SessionsOk(sessions, managed) && r in managed && Done(managed[r]) && Listed(sessions, r, managed[r])
    ensures SessionsOk(sessions - {managed[r].id}, managed)
    ensures |sessions - {managed[r].id}| == |sessions| - 1
  {
    var id := managed[r].id;
    assert (sessions - {id}).Keys == sessions.Keys - {id};
    assert |(sessions - {id}).Keys| == |sessions - {id}|;
  }

  lemma DrainersMove(threads: map<Tid, Pc>, draining: bool, t: Tid, pc: Pc)
    requires DrainersOk(threads, draining) && (Drains(pc) ==> draining)
    ensures DrainersOk(threads[t := pc], draining)
  {
    hide Drains;
  }

  lemma Deleted(s: State, t: Tid)
    requires Inv(s) && s.lock.Free? && t in s.threads && s.threads[t].Removing? && s.threads[t].ref in s.managed
    requires Done(s.managed[s.threads[t].ref]) && Listed(s.sessions, s.threads[t].ref, s.managed[s.threads[t].ref])
    requires ThreadOk(t, LoadingActive(s.threads[t].after), s.managed)
    requires Drains(LoadingActive(s.threads[t].after)) ==> s.draining
    ensures Inv(s.(sessions := s.sessions - {s.managed[s.threads[t].ref].id},
                   threads := s.threads[t := LoadingActive(s.threads[t].after)]))
  {
    hide ThreadsOk, ThreadOk, SessionsOk, ChannelsOk, ManagedOk, DrainersOk, Drains, UncountedIn, UncompletedIn, Done;
    var ref, pc := s.threads[t].ref, LoadingActive(s.threads[t].after);
    SessionsRemove(s.sessions, s.managed, ref);
    ThreadMoved(s.threads, s.managed, t, pc);
    DrainersMove(s.threads, s.draining, t, pc);
    CountsMove(s.threads, t, pc);
  }

  lemma RemovesKeeps(s: State, t: Tid)
    requires Inv(s) && s.lock.Free? && t in s.threads && s.threads[t].Removing?
    ensures Inv(ApplyRemove(s, Removes(t)))
  {
    hide Inv;
    ThreadAt(s, t);
    if Listed(s.sessions, s.threads[t].ref, s.managed[s.threads[t].ref]) {
      Deleted(s, t);
    } else {
      MovedAlone(s, t, AfterPc(s.threads[t].after));
    }
  }

  /** With a removal still to be counted, the counter is not zero. */
  lemma ActivePositive(s: State, t: Tid)
    requires Counted(s) && LockOk(s) && t in s.threads && Uncounted(s.threads[t])
    ensures s.active > 0
  {
    assert t in UncountedIn(s.threads);
    if StartPending(s.lock) == 1 { assert s.managed[s.lock.ref].id in s.sessions; }
  }

  lemma ActivePositiveInv(s: State, t: Tid)
    requires Inv(s) && t in s.threads && Uncounted(s.threads[t])
    ensures s.active > 0
  {
    ActivePositive(s, t);
  }

  lemma Recounted(s: State, t: Tid, pc: Pc, active: nat, completed: nat)
    requires Inv(s) && t in s.threads && ThreadOk(t, pc, s.managed) && (Drains(pc) ==> s.draining)
    requires active - s.active == (if Uncounted(pc) then 1 else 0) - (if Uncounted(s.threads[t]) then 1 else 0)
    requires s.completed - completed ==
        (if Uncompleted(pc) then 1 else 0) - (if Uncompleted(s.threads[t]) then 1 else 0)
    ensures Inv(s.(threads := s.threads[t := pc], active := active, completed := completed))
  {
    hide ThreadsOk, ThreadOk, SessionsOk, ChannelsOk, ManagedOk, DrainersOk, Drains, UncountedIn, UncompletedIn, Done;
    ThreadMoved(s.threads, s.managed, t, pc);
    DrainersMove(s.threads, s.draining, t, pc);
    CountsMove(s.threads, t, pc);
  }

  lemma CountingKeeps(s: State, op: Op)
    requires Inv(s) && (op.LoadsActive? || op.SwapsActive? || op.CountsCompleted?)
    ensures Inv(ApplyRemove(s, op))
  {
    hide Inv;
    if op.t in s.threads && Uncompleted(s.threads[op.t]) {
      var t, pc := op.t, s.threads[op.t];
      ThreadAt(s, t);
      if Uncounted(pc) { ActivePositiveInv(s, t); }
      if op.LoadsActive? && pc.LoadingActive? {
        Recounted(s, t, SwappingActive(s.active, pc.after), s.active, s.completed);
      } else if op.SwapsActive? && pc.SwappingActive? {
        if s.active == pc.seen {
          Recounted(s, t, CountingCompleted(pc.after), s.active - 1, s.completed);
        } else {
          Recounted(s, t, LoadingActive(pc.after), s.active, s.completed);
        }
      } else if op.CountsCompleted? && pc.CountingCompleted? {
        Recounted(s, t, AfterPc(pc.after), s.active, s.completed + 1);
      }
    }
  }

  lemma ApplyKeepsInvariant(s: State, op: Op)
    requires Inv(s)
    ensures Inv(Apply(s, op))
  {
    hide Inv, ApplyStart, ApplyAttach, ApplyFinish, ApplyControl, ApplyDrain, ApplyRemove;
    if IsStart(op) {
      StartKeeps(s, op);
    } else if IsFinish(op) {
      if op.BodySteps? { BodyKeepsInv(s, op.ref); } else { FinishKeepsInv(s, op); }
    } else if IsControl(op) {
      ControlKeepsInv(s, op);
    } else if IsDrain(op) {
      DrainKeepsInv(s, op);
    } else if IsRemove(op) {
      RemoveKeepsInv(s, op);
    } else if op.TimerFires? || op.TimerFinishes? {
      TimerKeeps(s, op);
    } else if op.AttachLooksUp? || op.StopLooksUp? {
      LookUpKeeps(s, op);
    } else {
      AttachKeepsInv(s, op);
    }
  }

  lemma RemoveKeepsInv(s: State, op: Op)
    requires Inv(s) && IsRemove(op)
    ensures Inv(ApplyRemove(s, op))
  {
    hide Inv;
    if op.Removes? {
      if s.lock.Free? && op.t in s.threads && s.threads[op.t].Removing? { RemovesKeeps(s, op.t); }
    } else {
      CountingKeeps(s, op);
    }
  }

  lemma {:induction false} RunKeepsInvariant(s: State, ops: seq<Op>)
    requires Inv(s)
    ensures Inv(Run(s, ops))
    decreases |ops|
  {
    hide Inv, Apply;
    if ops != [] {
      ApplyKeepsInvariant(s, ops[0]);
      RunKeepsInvariant(Apply(s, ops[0]), ops[1..]);
    }
  }

  lemma Reachable(capacity: nat, ops: seq<Op>)
    ensures Inv(Run(Initial(capacity), ops))
  {
    var s := Initial(capacity);
    assert UncountedIn(s.threads) == {} && UncompletedIn(s.threads) == {};
    RunKeepsInvariant(s, ops);
  }

  // ---- over every interleaving ----

  /** A session that has left the map, or was replaced in it, has its stream, any connection that was
      ever attached and every control channel it ever had closed, each exactly once. */
  lemma GoneMeansReleased(capacity: nat, ops: seq<Op>)
    ensures var s := Run(Initial(capacity), ops);
            forall r :: r in s.managed && !Listed(s.sessions, r, s.managed[r]) ==>
              && Released(s.managed[r])
              && (forall c :: c in s.channels && s.channels[c].owner == r ==> s.channels[c].closes == 1)
  {
    hide Run;
    Reachable(capacity, ops);
    var s := Run(Initial(capacity), ops);
    forall r | r in s.managed && !Listed(s.sessions, r, s.managed[r])
      ensures Released(s.managed[r])
      ensures forall c :: c in s.channels && s.channels[c].owner == r ==> s.channels[c].closes == 1
    {
      DoneIsReleased(s.managed[r]);
      forall c | c in s.channels && s.channels[c].owner == r ensures s.channels[c].closes == 1 {
        assert ChannelOk(c, s.channels[c], s.managed[r]);
      }
    }
  }

  /** No channel is closed twice and nothing is sent on a closed one; no stream or connection is closed
      twice either. */
  lemma ClosedAtMostOnce(capacity: nat, ops: seq<Op>)
    ensures var s := Run(Initial(capacity), ops);
            && (forall c :: c in s.channels ==> s.channels[c].closes <= 1 && s.channels[c].sendsAfterClose == 0)
            && (forall r :: r in s.managed ==>
                  && s.managed[r].completeCloses <= 1 && s.managed[r].controlDoneCloses <= 1
                  && s.managed[r].streamCloses <= 1 && s.managed[r].connectionCloses <= 1)
  {
    hide Run;
    Reachable(capacity, ops);
    var s := Run(Initial(capacity), ops);
    forall c | c in s.channels ensures s.channels[c].closes <= 1 && s.channels[c].sendsAfterClose == 0 {
      assert ChannelOk(c, s.channels[c], s.managed[s.channels[c].owner]);
    }
  }

  lemma ClosesOwn(s: State, c: Chan)
    requires ManagedOk(s.managed) && ChannelsOk(s.channels, s.managed) && c in s.channels
    ensures s.channels[c].owner in s.managed
    ensures var n := ApplyControl(s, ControlCloses(c));
            && (forall d :: d in s.channels ==> d in n.channels && (d != c ==> n.channels[d] == s.channels[d]))
            && (s.channels[c].closes == 0 ==>
                n.channels[c].closes == 1 || Taken(s.managed[s.channels[c].owner]) == Some(c))
  {
    assert ChannelOk(c, s.channels[c], s.managed[s.channels[c].owner]);
    assert Sound(s.managed[s.channels[c].owner]);
  }

  /** Closing a control attachment closes its own channel if it is still open, and never another one. */
  lemma AttachmentClosesItsOwn(capacity: nat, ops: seq<Op>, c: Chan, d: Chan)
    requires var s := Run(Initial(capacity), ops); c in s.channels && d in s.channels
    ensures var s := Run(Initial(capacity), ops);
            var n := Apply(s, ControlCloses(c));
            && d in n.channels && s.channels[c].owner in s.managed
            && (n.channels[d].closes != s.channels[d].closes ==> d == c)
            && (s.channels[c].closes == 0 ==>
                n.channels[c].closes == 1 || Taken(s.managed[s.channels[c].owner]) == Some(c))
  {
    hide Run;
    Reachable(capacity, ops);
    ClosesOwn(Run(Initial(capacity), ops), c);
  }

  /** What a session may still become: a finished one is finished, and stays attached or unattached, and
      finishOnce does not run again. */
  predicate Settled(m: Managed, n: Managed) {
    && n.id == m.id && (m.finished ==> n.finished && n.attached == m.attached)
    && (m.once.Over? ==> n.once.Over?)
  }

  ghost predicate AllSettled(before: map<Ref, Managed>, after: map<Ref, Managed>) {
    forall r :: r in before ==> r in after && Settled(before[r], after[r])
  }

  /** What no step undoes. */
  ghost predicate Onwards(s: State, n: State) {
    n.capacity == s.capacity && (s.drained ==> n.drained) && AllSettled(s.managed, n.managed)
  }

  lemma NoneChanged(managed: map<Ref, Managed>)
    ensures AllSettled(managed, managed)
  {
  }

  lemma OneChanged(managed: map<Ref, Managed>, r: Ref, n: Managed)
    requires r in managed ==> Settled(managed[r], n)
    ensures AllSettled(managed, managed[r := n])
  {
    hide Settled;
    assert forall m: Managed :: Settled(m, m) by { SettledSelf(); }
  }

  lemma SettledSelf()
    ensures forall m: Managed :: Settled(m, m)
  {
  }

  lemma StartOnwards(s: State, op: Op)
    ensures Onwards(s, ApplyStart(s, op))
  {
    hide AllSettled;
    NoneChanged(s.managed);
    if op.StartInserts? && s.lock.Opening? && op.ref !in s.managed {
      OneChanged(s.managed, op.ref, NewManaged(s.lock.id, op.hasStream));
    } else if op.StartUnlocks? && s.lock.Arming? && s.lock.ref in s.managed {
      OneChanged(s.managed, s.lock.ref, s.managed[s.lock.ref].(timerArmed := true));
    }
  }

  lemma AttachOnwards(s: State, op: Op)
    ensures Onwards(s, ApplyAttach(s, op))
  {
  }

  lemma FinishOnwards(s: State, op: Op)
    ensures Onwards(s, ApplyFinish(s, op))
  {
    hide BodyStep;
    if op.BodySteps? && op.ref in s.managed && s.managed[op.ref].once.Running? { BodyStepFixes(s.managed[op.ref]); }
  }

  lemma ControlOnwards(s: State, op: Op)
    ensures Onwards(s, ApplyControl(s, op))
  {
    hide AllSettled;
    NoneChanged(s.managed);
    if op.ControlLocks? && op.t in s.threads && s.threads[op.t].ControlFound? && s.threads[op.t].ref in s.managed {
      OneChanged(s.managed, s.threads[op.t].ref, OpenControl(s.managed[s.threads[op.t].ref], op.c).0);
    } else if op.ControlCloses? && op.c in s.channels && s.channels[op.c].owner in s.managed {
      OneChanged(s.managed, s.channels[op.c].owner, DropControl(s.managed[s.channels[op.c].owner]));
    }
  }

  lemma DrainOnwards(s: State, op: Op)
    ensures Onwards(s, ApplyDrain(s, op)) && Onwards(s, ApplyRemove(s, op))
  {
    hide AllSettled;
    NoneChanged(s.managed);
  }

  lemma StepOnwards(s: State, op: Op)
    ensures Onwards(s, Apply(s, op))
  {
    hide ApplyStart, ApplyAttach, ApplyFinish, ApplyControl, ApplyDrain, ApplyRemove, Onwards;
    StartOnwards(s, op);
    AttachOnwards(s, op);
    FinishOnwards(s, op);
    ControlOnwards(s, op);
    DrainOnwards(s, op);
  }

  lemma {:induction false} RunOnwards(s: State, ops: seq<Op>)
    ensures Onwards(s, Run(s, ops))
    decreases |ops|
  {
    hide Apply;
    if ops != [] {
      StepOnwards(s, ops[0]);
      RunOnwards(Apply(s, ops[0]), ops[1..]);
    }
  }

  /** Whatever happens after a session finished, it does not become attached. */
  lemma FinishedNeverAttached(s: State, ops: seq<Op>, ref: Ref)
    requires ref in s.managed && s.managed[ref].finished
    ensures ref in Run(s, ops).managed && Run(s, ops).managed[ref].finished
    ensures Run(s, ops).managed[ref].attached == s.managed[ref].attached
  {
    hide Run;
    RunOnwards(s, ops);
  }

  lemma CapacityHolds(capacity: nat, ops: seq<Op>)
    ensures |Run(Initial(capacity), ops).sessions| <= capacity
  {
    hide Run;
    Reachable(capacity, ops);
    RunOnwards(Initial(capacity), ops);
  }

  /** The active counter is the size of the map, plus the removals not yet counted, minus a start not yet
      counted; and it is not zero when a removal loads it, so its clamp never fires. */
  lemma ActiveIsExact(capacity: nat, ops: seq<Op>)
    ensures var s := Run(Initial(capacity), ops);
            && s.active == |s.sessions| + |UncountedIn(s.threads)| - StartPending(s.lock)
            && (forall t :: t in s.threads && s.threads[t].LoadingActive? ==> s.active > 0)
  {
    hide Run;
    Reachable(capacity, ops);
    var s := Run(Initial(capacity), ops);
    forall t | t in s.threads && s.threads[t].LoadingActive? ensures s.active > 0 { ActivePositive(s, t); }
  }

  /** At rest, with nothing still to be counted, started == completed + active, and active is the size of
      the map. */
  lemma CountersBalance(capacity: nat, ops: seq<Op>)
    requires var s := Run(Initial(capacity), ops);
             s.lock.Free? && forall t :: t in s.threads ==> !Uncompleted(s.threads[t])
    ensures var s := Run(Initial(capacity), ops);
            s.started == s.completed + s.active && s.active == |s.sessions| && s.started == |s.managed|
  {
    hide Run;
    Reachable(capacity, ops);
    var s := Run(Initial(capacity), ops);
    assert UncountedIn(s.threads) == {} && UncompletedIn(s.threads) == {};
  }

  lemma {:induction false} RunSplits(s: State, a: seq<Op>, b: seq<Op>)
    ensures Run(s, a + b) == Run(Run(s, a), b)
    decreases |a|
  {
    hide Apply;
    if a == [] {
      assert a + b == b;
    } else {
      assert (a + b)[1..] == a[1..] + b;
      RunSplits(Apply(s, a[0]), a[1..], b);
    }
  }

  /** Once a Drain has returned nil, the map is empty in every later state. */
  lemma DrainedStaysEmpty(capacity: nat, ops: seq<Op>, more: seq<Op>)
    requires Run(Initial(capacity), ops).drained
    ensures Run(Run(Initial(capacity), ops), more).sessions == map[]
  {
    hide Run;
    RunSplits(Initial(capacity), ops, more);
    Reachable(capacity, ops + more);
    RunOnwards(Run(Initial(capacity), ops), more);
  }

  // ---- one caller at a time ----

  /** What became of opening the engine: none of that name, an error, no answer in time, or a stream. */
  datatype EngineStart = NotConfigured | StartFailed | StartTimedOut | Opened

  datatype Refusal =
    | Draining | AlreadyExists | CapacityExceeded
    | EngineNotConfigured | EngineFailed | ProviderStartTimeout

  /** sessionRemoved, uncontended: one down, clamped at zero. */
  function CountedDown(active: nat): nat { if active == 0 then 0 else active - 1 }

  class Registry {
    const capacity: nat
    var sessions: map<SessionId, Ref>
    var draining: bool
    var started: nat
    var active: nat
    var completed: nat

    constructor (capacity: nat)
      ensures Valid() && sessions == map[] && !draining && this.capacity == capacity
    {
      this.capacity := capacity;
      sessions, draining, started, active, completed := map[], false, 0, 0, 0;
    }

    ghost predicate Valid()
      reads this
    {
      |sessions| <= capacity && active == |sessions| && started == completed + active
    }

    /** Refused for the first reason that applies; a refusal changes nothing. */
    method Start(id: SessionId, ref: Ref, engine: EngineStart) returns (refused: Option<Refusal>)
      requires Valid()
      modifies this
      ensures Valid() && draining == old(draining)
      ensures refused == if draining then Some(Draining) else if id in old(sessions) then Some(AlreadyExists)
                         else if |old(sessions)| >= capacity then Some(CapacityExceeded)
                         else match engine
                           case NotConfigured => Some(EngineNotConfigured)
                           case StartFailed => Some(EngineFailed)
                           case StartTimedOut => Some(ProviderStartTimeout)
                           case Opened => None
      ensures sessions == if refused.None? then old(sessions)[id := ref] else old(sessions)
      ensures started == old(started) + (if refused.None? then 1 else 0) && completed == old(completed)
    {
      if draining { return Some(Draining); }
      if id in sessions { return Some(AlreadyExists); }
      if |sessions| >= capacity { return Some(CapacityExceeded); }
      match engine
      case NotConfigured => return Some(EngineNotConfigured);
      case StartFailed => return Some(EngineFailed);
      case StartTimedOut => return Some(ProviderStartTimeout);
      case Opened =>
        sessions := sessions[id := ref];
        started := started + 1;
        active := active + 1;
        return None;
    }

    /** Takes the entry out only if it is still the same session, and counts it once. */
    method Remove(id: SessionId, ref: Ref) returns (removed: bool)
      requires Valid()
      modifies this
      ensures Valid() && draining == old(draining) && started == old(started)
      ensures removed <==> id in old(sessions) && old(sessions)[id] == ref
      ensures sessions == if removed then old(sessions) - {id} else old(sessions)
      ensures completed == old(completed) + (if removed then 1 else 0)
    {
      removed := id in sessions && sessions[id] == ref;
      if removed {
        assert (sessions - {id}).Keys == sessions.Keys - {id};
        assert |(sessions - {id}).Keys| == |sessions - {id}|;
        sessions := sessions - {id};
        active := CountedDown(active);
        completed := completed + 1;
      }
    }

    method BeginDrain() returns (snapshot: map<SessionId, Ref>)
      requires Valid()
      modifies this`draining
      ensures Valid() && draining && snapshot == sessions
    {
      draining := true;
      snapshot := sessions;
    }
  }
}
