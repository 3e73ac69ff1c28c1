/** One managed media session (managedSession in server/internal/media/session/manager.go): its fields,
    the regions its mutex protects, and the body of finishResources, one step at a time.

    The inner sync.Once guards of closeControl and markComplete are left out on purpose: what is proved
    here holds without them. */
module ManagedSession {
  import opened Basics

  type Tid = nat
  type Ref = nat
  type Chan = nat
  type SessionId = nat

  /** Where the body of finishResources is. */
  datatype Phase =
    | Cancelling
    | TakingControl
    | ClosingControl(taken: Option<Chan>)
    | ClosingControlDone
    | Snapshotting
    | ClosingStream(stream: bool, connection: Option<Tid>)
    | ClosingConnection(connection: Option<Tid>)
    | Completing
    | Leaving

  /** finishOnce, with the argument of the call that got there first. */
  datatype Once = NotYet | Running(attached: bool, phase: Phase) | Over

  /** A connection is named after the goroutine that attached it. The counters at the end say how often
      each resource was closed. */
  datatype Managed = Managed(
    id: SessionId, hasStream: bool, finished: bool, attached: bool, connection: Option<Tid>,
    timerArmed: bool, cancelled: bool, control: Option<Chan>, controlOpen: bool, once: Once,
    streamCloses: nat, connectionCloses: nat, controlDoneCloses: nat, completeCloses: nat)

  function NewManaged(id: SessionId, hasStream: bool): Managed {
    Managed(id, hasStream, false, false, None, false, false, None, false, NotYet, 0, 0, 0, 0)
  }

  // ---- regions under the session's mutex ----

  datatype Outcome = Success | NotFound | AlreadyAttached | NotReady

  function TryAttach(m: Managed, t: Tid): (Managed, Outcome) {
    if m.attached then (m, AlreadyAttached)
    else if m.finished || m.cancelled then (m, NotFound)
    else if !m.hasStream then (m, NotReady)
    else (m.(attached := true, timerArmed := false, connection := Some(t)), Success)
  }

  function SetFinished(m: Managed): Managed { m.(finished := true, timerArmed := false) }

  /** Refused once finished or attached. */
  function SetFinishedUnattached(m: Managed): (Managed, bool) {
    if m.finished || m.attached then (m, false) else (m.(finished := true), true)
  }

  function OpenControl(m: Managed, c: Chan): (Managed, Outcome) {
    if m.finished || m.cancelled then (m, NotFound)
    else if m.controlOpen then (m, AlreadyAttached)
    else (m.(control := Some(c), controlOpen := true), Success)
  }

  function DropControl(m: Managed): Managed { m.(control := None, controlOpen := false) }

  function MarkComplete(m: Managed): Managed { m.(completeCloses := m.completeCloses + 1) }

  function EnterOnce(m: Managed, attached: bool): Managed
    requires m.once.NotYet?
  {
    m.(once := Running(attached, Cancelling))
  }

  function NextOnce(m: Managed): Once
    requires m.once.Running?
  {
    var attached := m.once.attached;
    match m.once.phase
    case Cancelling => Running(attached, TakingControl)
    case TakingControl => Running(attached, ClosingControl(m.control))
    case ClosingControl(taken) => Running(attached, ClosingControlDone)
    case ClosingControlDone => Running(attached, Snapshotting)
    case Snapshotting => Running(attached, ClosingStream(m.hasStream, m.connection))
    case ClosingStream(stream, connection) => Running(attached, ClosingConnection(connection))
    case ClosingConnection(connection) => Running(attached, Completing)
    case Completing => Running(attached, Leaving)
    case Leaving => Over
  }

  function Effect(m: Managed): Managed
    requires m.once.Running?
  {
    match m.once.phase
    case Cancelling => m.(cancelled := true)
    case TakingControl => DropControl(m)
    case ClosingControlDone => m.(controlDoneCloses := m.controlDoneCloses + 1)
    case ClosingStream(stream, _) => m.(streamCloses := m.streamCloses + (if stream then 1 else 0))
    case ClosingConnection(connection) =>
      m.(connectionCloses := m.connectionCloses + (if connection.Some? then 1 else 0))
    case Completing => if m.once.attached then m else MarkComplete(m)
    case _ => m
  }

  /** One step of the body; the channel it took is closed beside this. */
  function BodyStep(m: Managed): Managed
    requires m.once.Running?
  {
    Effect(m).(once := NextOnce(m))
  }

  // ---- what every step keeps ----

  function Rank(once: Once): nat {
    match once
    case NotYet => 0
    case Running(_, phase) =>
      (match phase
       case Cancelling => 1
       case TakingControl => 2
       case ClosingControl(_) => 3
       case ClosingControlDone => 4
       case Snapshotting => 5
       case ClosingStream(_, _) => 6
       case ClosingConnection(_) => 7
       case Completing => 8
       case Leaving => 9)
    case Over => 10
  }

  function Taken(m: Managed): Option<Chan> {
    if m.once.Running? && m.once.phase.ClosingControl? then m.once.phase.taken else None
  }

  predicate Sound(m: Managed) {
    var rank := Rank(m.once);
    && (rank > 0 ==> m.finished)
    && (m.attached <==> m.connection.Some?)
    && (m.controlOpen <==> m.control.Some?)
    && (m.cancelled <==> rank >= 2)
    && (rank >= 3 ==> m.control.None?)
    && (m.once.Running? ==>
          && m.once.attached == m.attached
          && (m.once.phase.ClosingStream? ==>
                m.once.phase.stream == m.hasStream && m.once.phase.connection == m.connection)
          && (m.once.phase.ClosingConnection? ==> m.once.phase.connection == m.connection))
    && m.controlDoneCloses == (if rank >= 5 then 1 else 0)
    && m.streamCloses == (if rank >= 7 && m.hasStream then 1 else 0)
    && m.connectionCloses == (if rank >= 8 && m.connection.Some? then 1 else 0)
    && (!m.attached ==> m.completeCloses == (if rank >= 9 then 1 else 0))
    && (m.attached ==> m.completeCloses <= 1 && (m.completeCloses == 1 ==> m.once.Over?))
  }

  /** Everything the session held has been closed, and closed once. */
  predicate Released(m: Managed) {
    && m.finished && m.cancelled
    && m.streamCloses == (if m.hasStream then 1 else 0)
    && m.connectionCloses == (if m.attached then 1 else 0)
    && m.control.None? && Taken(m).None? && m.controlDoneCloses == 1 && m.completeCloses == 1
  }

  predicate Done(m: Managed) { Rank(m.once) >= 9 && m.completeCloses >= 1 }

  /** What a later instant may differ in; `actor` is the goroutine that took the step, if it was one of
      the manager's callers. */
  predicate Later(m: Managed, n: Managed, actor: Option<Tid>) {
    && n.id == m.id && n.hasStream == m.hasStream
    && (m.finished ==> n.finished && n.attached == m.attached)
    && (m.connection.Some? ==> n.connection == m.connection)
    && Rank(m.once) <= Rank(n.once)
    && m.completeCloses <= n.completeCloses
    && (n.completeCloses > m.completeCloses && m.connection.Some? ==> actor == m.connection)
  }

  lemma DoneIsReleased(m: Managed)
    requires Sound(m) && Done(m)
    ensures Released(m)
  {
  }

  /** A waiter that sees `complete` closed may rely on everything else being closed. */
  lemma CompleteMeansReleased(m: Managed)
    requires Sound(m)
    ensures m.completeCloses > 0 ==> Done(m) && Released(m)
  {
  }

  lemma AttachKeeps(m: Managed, t: Tid)
    requires Sound(m)
    ensures var (n, outcome) := TryAttach(m, t);
            && Sound(n) && Later(m, n, Some(t)) && n.control == m.control && n.once == m.once
            && (outcome.Success? ==> n.connection == Some(t) && n.completeCloses == 0)
            && (outcome.Success? <==> !m.attached && !m.finished && m.hasStream)
  {
  }

  lemma FinishKeeps(m: Managed, t: Tid)
    requires Sound(m)
    ensures var n := SetFinished(m); Sound(n) && Later(m, n, Some(t)) && n.control == m.control && n.once == m.once
    ensures var (n, _) := SetFinishedUnattached(m);
            Sound(n) && Later(m, n, Some(t)) && n.control == m.control && n.once == m.once
  {
  }

  lemma OpenControlKeeps(m: Managed, c: Chan, t: Tid)
    requires Sound(m)
    ensures var (n, outcome) := OpenControl(m, c);
            && Sound(n) && Later(m, n, Some(t)) && n.once == m.once
            && (outcome.Success? ==> Rank(m.once) < 3 && m.control.None? && n.control == Some(c))
            && (!outcome.Success? ==> n == m)
  {
  }

  lemma DropControlKeeps(m: Managed, actor: Option<Tid>)
    requires Sound(m)
    ensures Sound(DropControl(m)) && Later(m, DropControl(m), actor) && DropControl(m).once == m.once
  {
  }

  lemma EnterOnceKeeps(m: Managed, attached: bool, t: Tid)
    requires Sound(m) && m.once.NotYet? && m.finished && attached == m.attached
    ensures var n := EnterOnce(m, attached);
            Sound(n) && Later(m, n, Some(t)) && n.control == m.control && Taken(n) == Taken(m)
  {
  }

  lemma BodyStepKeeps(m: Managed)
    requires Sound(m) && m.once.Running?
    ensures var n := BodyStep(m); Sound(n) && Later(m, n, None)
    ensures !m.once.phase.TakingControl? && !m.once.phase.ClosingControl? ==>
              BodyStep(m).control == m.control && Taken(BodyStep(m)) == Taken(m)
  {
  }

  lemma EffectFixes(m: Managed)
    requires m.once.Running?
    ensures var n := Effect(m); n.id == m.id && n.finished == m.finished && n.attached == m.attached
  {
    match m.once.phase
    case Cancelling =>
    case TakingControl =>
    case ClosingControlDone =>
    case ClosingStream(stream, _) =>
    case ClosingConnection(connection) =>
    case Completing =>
    case _ =>
  }

  lemma BodyStepFixes(m: Managed)
    requires m.once.Running?
    ensures var n := BodyStep(m); n.id == m.id && n.finished == m.finished && n.attached == m.attached
  {
    hide NextOnce, Effect;
    EffectFixes(m);
  }

  lemma MarkCompleteKeeps(m: Managed, t: Tid)
    requires Sound(m) && m.connection == Some(t) && m.once.Over? && m.completeCloses == 0
    ensures var n := MarkComplete(m);
            Sound(n) && Later(m, n, Some(t)) && Done(n) && n.control == m.control && n.once == m.once
  {
  }

  // ---- the body as a whole ----

  function RunBody(m: Managed): Managed
    decreases 10 - Rank(m.once)
  {
    if m.once.Running? then RankGrows(m); RunBody(BodyStep(m)) else m
  }

  lemma RankGrows(m: Managed)
    requires m.once.Running?
    ensures Rank(m.once) < Rank(BodyStep(m).once) <= 10
  {
    hide Effect;
  }

  /** Run to its end, the body closes everything; `complete` is left to the attaching goroutine when
      there is one. */
  lemma {:induction false} BodyReleases(m: Managed)
    requires Sound(m) && m.once.Running?
    ensures var n := RunBody(m);
            && Sound(n) && n.once.Over? && n.attached == m.attached && n.completeCloses >= m.completeCloses
            && (if n.attached && n.completeCloses == 0 then Released(MarkComplete(n)) else Released(n))
    decreases 10 - Rank(m.once)
  {
    BodyStepKeeps(m);
    RankGrows(m);
    var n := BodyStep(m);
    if n.once.Running? { BodyReleases(n); } else { assert RunBody(n) == n; }
  }

  // ---- in place ----

  class Session {
    const id: SessionId
    const hasStream: bool
    var finished: bool
    var attached: bool
    var connection: Option<Tid>
    var timerArmed: bool
    var cancelled: bool
    var control: Option<Chan>
    var controlOpen: bool
    var finishRan: bool
    var streamCloses: nat
    var connectionCloses: nat
    var controlDoneCloses: nat
    var completeCloses: nat

    constructor (id: SessionId, hasStream: bool)
      ensures View() == NewManaged(id, hasStream)
    {
      this.id, this.hasStream := id, hasStream;
      finished, attached, connection, timerArmed, cancelled := false, false, None, false, false;
      control, controlOpen, finishRan := None, false, false;
      streamCloses, connectionCloses, controlDoneCloses, completeCloses := 0, 0, 0, 0;
    }

    ghost function View(): Managed
      reads this
    {
      Managed(id, hasStream, finished, attached, connection, timerArmed, cancelled, control, controlOpen,
              if finishRan then Over else NotYet,
              streamCloses, connectionCloses, controlDoneCloses, completeCloses)
    }

    method Attach(t: Tid) returns (outcome: Outcome)
      modifies this
      ensures (View(), outcome) == TryAttach(old(View()), t)
    {
      if attached { return AlreadyAttached; }
      if finished || cancelled { return NotFound; }
      if !hasStream { return NotReady; }
      attached := true;
      timerArmed := false;
      connection := Some(t);
      return Success;
    }

    method AttachControl(c: Chan) returns (outcome: Outcome)
      modifies this
      ensures (View(), outcome) == OpenControl(old(View()), c)
    {
      if finished || cancelled { return NotFound; }
      if controlOpen { return AlreadyAttached; }
      control := Some(c);
      controlOpen := true;
      return Success;
    }

    /** The body of finishResources; `closed` is the control channel it closed, if there was one. */
    method FinishResources(attachedThen: bool) returns (closed: Option<Chan>)
      modifies this
      ensures old(finishRan) ==> View() == old(View()) && closed.None?
      ensures !old(finishRan) ==> View() == RunBody(EnterOnce(old(View()), attachedThen)) && closed == old(control)
    {
      hide BodyStep, RunBody;
      if finishRan { return None; }
      ghost var m := EnterOnce(View(), attachedThen);
      BodyUnrolled(m);
      cancelled := true;
      closed := control;
      controlOpen := false;
      control := None;
      controlDoneCloses := controlDoneCloses + 1;
      streamCloses := if hasStream then streamCloses + 1 else streamCloses;
      connectionCloses := if connection.Some? then connectionCloses + 1 else connectionCloses;
      completeCloses := if attachedThen then completeCloses else completeCloses + 1;
      finishRan := true;
    }

    method Finish() returns (closed: Option<Chan>)
      requires Sound(View())
      modifies this
      ensures Sound(View()) && finished && finishRan && attached == old(attached)
      ensures if attached && completeCloses == 0 then Released(MarkComplete(View())) else Released(View())
      ensures closed == if old(finishRan) then None else old(control)
    {
      ghost var before := View();
      finished := true;
      timerArmed := false;
      FinishKeeps(before, 0);
      if !finishRan {
        EnterOnceKeeps(View(), attached, 0);
        BodyReleases(EnterOnce(View(), attached));
      }
      closed := FinishResources(attached);
    }

    /** The timeout path: it does nothing once the session is finished or attached. */
    method FinishUnattached() returns (ok: bool, closed: Option<Chan>)
      requires Sound(View())
      modifies this
      ensures Sound(View()) && ok == (!old(finished) && !old(attached))
      ensures !ok ==> View() == old(View()) && closed.None?
      ensures ok ==> Released(View()) && closed == old(control)
    {
      closed := None;
      if finished || attached { return false, None; }
      FinishKeeps(View(), 0);
      finished := true;
      EnterOnceKeeps(View(), false, 0);
      BodyReleases(EnterOnce(View(), false));
      closed := FinishResources(false);
      ok := true;
    }
  }

  // What the body amounts to when nothing interferes.

  lemma OneStep(m: Managed)
    requires m.once.Running?
    ensures RunBody(m) == RunBody(BodyStep(m))
    ensures BodyStep(m).once.Over? ==> RunBody(m) == BodyStep(m)
  {
    hide BodyStep;
  }

  lemma BodyFromCompleting(m: Managed)
    requires m.once.Running? && m.once.phase.Completing?
    ensures RunBody(m) == m.(once := Over, completeCloses := m.completeCloses + (if m.once.attached then 0 else 1))
  {
    hide RunBody;
    OneStep(m);
    OneStep(BodyStep(m));
  }

  lemma BodyFromConnection(m: Managed)
    requires m.once.Running? && m.once.phase.ClosingConnection?
    ensures RunBody(m) == m.(
              once := Over,
              connectionCloses := m.connectionCloses + (if m.once.phase.connection.Some? then 1 else 0),
              completeCloses := m.completeCloses + (if m.once.attached then 0 else 1))
  {
    hide RunBody;
    OneStep(m);
    BodyFromCompleting(BodyStep(m));
  }

  lemma BodyFromSnapshot(m: Managed)
    requires m.once.Running? && m.once.phase.Snapshotting?
    ensures RunBody(m) == m.(
              once := Over,
              streamCloses := m.streamCloses + (if m.hasStream then 1 else 0),
              connectionCloses := m.connectionCloses + (if m.connection.Some? then 1 else 0),
              completeCloses := m.completeCloses + (if m.once.attached then 0 else 1))
  {
    hide RunBody;
    OneStep(m);
    OneStep(BodyStep(m));
    BodyFromConnection(BodyStep(BodyStep(m)));
  }

  lemma BodyToSnapshot(m: Managed)
    requires m.once.Running? && m.once.phase.Cancelling?
    ensures RunBody(m) == RunBody(m.(
              cancelled := true, control := None, controlOpen := false,
              controlDoneCloses := m.controlDoneCloses + 1, once := Running(m.once.attached, Snapshotting)))
  {
    hide RunBody;
    var b := BodyStep(m);
    var c := BodyStep(b);
    var d := BodyStep(c);
    OneStep(m);
    OneStep(b);
    OneStep(c);
    OneStep(d);
  }

  lemma BodyUnrolled(m: Managed)
    requires m.once.Running? && m.once.phase.Cancelling?
    ensures RunBody(m) == m.(
              cancelled := true, control := None, controlOpen := false, once := Over,
              controlDoneCloses := m.controlDoneCloses + 1,
              streamCloses := m.streamCloses + (if m.hasStream then 1 else 0),
              connectionCloses := m.connectionCloses + (if m.connection.Some? then 1 else 0),
              completeCloses := m.completeCloses + (if m.once.attached then 0 else 1))
  {
    hide RunBody;
    BodyToSnapshot(m);
    BodyFromSnapshot(m.(
      cancelled := true, control := None, controlOpen := false,
      controlDoneCloses := m.controlDoneCloses + 1, once := Running(m.once.attached, Snapshotting)));
  }
}
