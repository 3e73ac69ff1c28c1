/** Playback and barge-in in the pump of server/internal/media/session/manager.go: the engine-reader,
    playback and event goroutines, interleaved at every channel operation, atomic flag and lock region.
    A goroutine that fails or is cancelled simply takes no further step. */
module Pump {
  import opened Basics
  import opened AudioQueue

  /** Reads an engine frame, checks suppression, pushes (send, then add). */
  datatype Reader = Receiving | Checking(frame: AudioFrame) | Pushing(frame: AudioFrame) | Adding | ReaderStopped

  /** Pops (receive, then subtract), checks suppression, raises playbackActive, sends. */
  datatype Player = Popping | Popped(frame: AudioFrame) | Holding(frame: AudioFrame)
    | Passed(frame: AudioFrame) | Armed(frame: AudioFrame) | PlayerStopped

  /** Between events, or inside the handling of one: after the swap; clearing the queue; about to
      interrupt the engine and the connection; about to raise playbackActive again. */
  datatype Events =
    | Listening | Swapped | Clearing | ClearTook(frame: AudioFrame) | Interrupting | Resuming | EventsStopped

  /** A point in a run at which somebody looked: the frames the engine had delivered by then, the sends
      begun by then, whether the player was past its suppression check, whether frames were queued, and
      whether the reader held one that the queue could take. */
  datatype Mark = Mark(received: nat, sends: nat, past: bool, queued: bool, held: bool)

  /** `bargeIn` marks one barge-in, at the instant suppression took effect; `cleared` says its clearing
      is over. `emptied` marks one instant at which a clear found the queue empty. */
  datatype State = State(
    queue: Queue, suppress: bool, active: bool,
    reader: Reader, player: Player, events: Events,
    received: nat, sent: seq<AudioFrame>, suppressedAt: nat,
    bargeIn: Option<Mark>, cleared: bool, emptied: Option<Mark>)

  function Initial(maxDuration: nat): State {
    State(NewQueue(maxDuration), false, false, Receiving, Popping, Listening, 0, [], 0, None, false, None)
  }

  datatype Op =
    | ReaderReceives(bytes: nat, format: AudioFormat, maxFrame: nat)
    | ReaderChecks
    | ReaderSends
    | ReaderAdds
    | PlayerReceives
    | PlayerSubtracts(i: nat)
    | PlayerChecks
    | PlayerRaises
    | PlayerSends(ok: bool)
    | SpeechStarted
    | Suppress(mark: bool)
    | ClearReceives
    | ClearSubtracts(i: nat)
    | ClearFindsEmpty(mark: bool)
    | InterruptDone(ok: bool)
    | ResponseStarted
    | ResponseResumes
    | ResponseStopped

  predicate PastCheck(s: State) { s.player.Passed? || s.player.Armed? }

  function Here(s: State): Mark {
    Mark(s.received, |s.sent|, PastCheck(s), s.queue.frames != [], InReader(s) != [])
  }

  predicate Subtractable(q: Queue, i: nat, frame: AudioFrame) {
    Unlocked(q) && i < |q.removed| && q.removed[i] == frame
  }

  /** A step that is not enabled leaves the state alone. */
  function Apply(s: State, op: Op): State {
    match op
    case ReaderReceives(bytes, format, maxFrame) =>
      if !s.reader.Receiving? then s else
        var frame := AudioFrame(bytes, format, s.received);
        s.(received := s.received + 1,
           reader := if !ValidFrame(frame) || Duration(frame) > maxFrame then ReaderStopped else Checking(frame))
    case ReaderChecks =>
      if !s.reader.Checking? then s else s.(reader := if s.suppress then Receiving else Pushing(s.reader.frame))
    case ReaderSends =>
      if !(s.reader.Pushing? && Unlocked(s.queue)) then s else
        var (queue, ok) := PushSend(s.queue, s.reader.frame);
        s.(queue := queue, reader := if ok then Adding else ReaderStopped)
    case ReaderAdds =>
      if !(s.reader.Adding? && s.queue.adding.Some?) then s else s.(queue := PushAdd(s.queue), reader := Receiving)
    case PlayerReceives =>
      if !(s.player.Popping? && s.queue.frames != []) then s
      else s.(queue := Take(s.queue), player := Popped(s.queue.frames[0]))
    case PlayerSubtracts(i) =>
      if !(s.player.Popped? && Subtractable(s.queue, i, s.player.frame)) then s
      else s.(queue := Subtract(s.queue, i), player := Holding(s.player.frame))
    case PlayerChecks =>
      if !s.player.Holding? then s else s.(player := if s.suppress then Popping else Passed(s.player.frame))
    case PlayerRaises =>
      if !s.player.Passed? then s else s.(active := true, player := Armed(s.player.frame))
    case PlayerSends(ok) =>
      if !s.player.Armed? then s
      else s.(sent := s.sent + [s.player.frame], player := if ok then Popping else PlayerStopped)
    case SpeechStarted =>
      if !s.events.Listening? then s else if s.active then s.(active := false, events := Swapped) else s
    case Suppress(mark) =>
      if !s.events.Swapped? then s else
        s.(suppress := true, events := Clearing,
           suppressedAt := if s.suppress then s.suppressedAt else |s.sent|,
           bargeIn := if mark && s.bargeIn.None? then Some(Here(s)) else s.bargeIn)
    case ClearReceives =>
      if !(s.events.Clearing? && s.queue.frames != []) then s
      else s.(queue := Take(s.queue), events := ClearTook(s.queue.frames[0]))
    case ClearSubtracts(i) =>
      if !(s.events.ClearTook? && Subtractable(s.queue, i, s.events.frame)) then s
      else s.(queue := Subtract(s.queue, i), events := Clearing)
    case ClearFindsEmpty(mark) =>
      if !(s.events.Clearing? && s.queue.frames == []) then s else
        s.(events := Interrupting, cleared := s.bargeIn.Some?,
           emptied := if mark && s.emptied.None? then Some(Here(s)) else s.emptied)
    case InterruptDone(ok) =>
      if !s.events.Interrupting? then s else s.(events := if ok then Listening else EventsStopped)
    case ResponseStarted =>
      if !s.events.Listening? then s else s.(suppress := false, events := Resuming)
    case ResponseResumes =>
      if !s.events.Resuming? then s else s.(active := true, events := Listening)
    case ResponseStopped =>
      if !s.events.Listening? then s else s.(active := false)
  }

  function Run(s: State, ops: seq<Op>): State
    decreases |ops|
  {
    if ops == [] then s else Run(Apply(s, ops[0]), ops[1..])
  }

  // ---- frames in flight ----

  function InPlayer(s: State): seq<AudioFrame> {
    if s.player.Popping? || s.player.PlayerStopped? then [] else [s.player.frame]
  }

  /** A frame longer than the whole budget is never accepted by the queue. */
  function InReader(s: State): seq<AudioFrame> {
    if (s.reader.Checking? || s.reader.Pushing?) && Duration(s.reader.frame) <= s.queue.maxDuration
    then [s.reader.frame] else []
  }

  /** Everything read from the engine that may still reach the connection, next to play first. */
  function InFlight(s: State): seq<AudioFrame> {
    InPlayer(s) + s.queue.frames + InReader(s)
  }

  /** How many of the frames are among the first `received` the engine delivered. */
  function Early(frames: seq<AudioFrame>, received: nat): nat {
    if frames == [] then 0 else (if frames[0].tag < received then 1 else 0) + Early(frames[1..], received)
  }

  /** Sends, since the mark, of frames that had been read by the mark. */
  function LateSends(s: State, mark: Mark): nat
    requires mark.sends <= |s.sent|
  {
    Early(s.sent[mark.sends..], mark.received)
  }

  lemma {:induction false} EarlyAppend(a: seq<AudioFrame>, b: seq<AudioFrame>, received: nat)
    ensures Early(a + b, received) == Early(a, received) + Early(b, received)
    decreases |a|
  {
    if a == [] {
      assert a + b == b;
    } else {
      assert (a + b)[1..] == a[1..] + b;
      EarlyAppend(a[1..], b, received);
    }
  }

  lemma EarlyOne(frame: AudioFrame, received: nat)
    ensures Early([frame], received) == if frame.tag < received then 1 else 0
  {
    assert [frame][1..] == [];
    assert Early([], received) == 0;
  }

  lemma EarlyInFlight(s: State, received: nat)
    ensures Early(InFlight(s), received) ==
        Early(InPlayer(s), received) + Early(s.queue.frames, received) + Early(InReader(s), received)
    ensures Early(InPlayer(s), received) <= 1 && Early(InReader(s), received) <= 1
  {
    EarlyAppend(InPlayer(s) + s.queue.frames, InReader(s), received);
    EarlyAppend(InPlayer(s), s.queue.frames, received);
    if InPlayer(s) != [] { EarlyOne(InPlayer(s)[0], received); }
    if InReader(s) != [] { EarlyOne(InReader(s)[0], received); }
  }

  predicate ReaderOp(op: Op) { op.ReaderReceives? || op.ReaderChecks? || op.ReaderSends? || op.ReaderAdds? }

  /** What a step does to the frames in flight: it sends the first, drops some, or appends a new one. */
  lemma ReaderOnFlight(s: State, op: Op, received: nat)
    requires received <= s.received && ReaderOp(op) && AudioQueue.Inv(s.queue)
    ensures var t := Apply(s, op);
            && t.sent == s.sent && InPlayer(t) == InPlayer(s)
            && Early(t.queue.frames, received) + Early(InReader(t), received)
                 <= Early(s.queue.frames, received) + Early(InReader(s), received)
            && Early(InReader(t), received) <= Early(InReader(s), received)
  {
    match op {
      case ReaderReceives(bytes, format, maxFrame) => EarlyOne(AudioFrame(bytes, format, s.received), received);
      case ReaderSends => if s.reader.Pushing? { EarlyAppend(s.queue.frames, [s.reader.frame], received); }
      case _ =>
    }
  }

  lemma PlayerOnFlight(s: State, op: Op, received: nat)
    requires !ReaderOp(op)
    ensures var t := Apply(s, op);
            && InReader(t) == InReader(s)
            && (t.sent == s.sent || (s.player.Armed? && !PastCheck(t) && t.sent == s.sent + [s.player.frame]))
            && (t.sent == s.sent ==>
                  Early(InPlayer(t), received) + Early(t.queue.frames, received)
                    <= Early(InPlayer(s), received) + Early(s.queue.frames, received))
            && (t.sent != s.sent ==>
                  InPlayer(s) == [s.player.frame] && InPlayer(t) == [] && t.queue == s.queue)
  {
    var t := Apply(s, op);
    if (op.PlayerReceives? || op.ClearReceives?) && s.queue.frames != [] { EarlyOne(s.queue.frames[0], received); }
    if s.player.Armed? { assert |s.sent + [s.player.frame]| == |s.sent| + 1; }
    assert Early([], received) == 0;
  }

  lemma StepOnFlight(s: State, op: Op, received: nat)
    requires received <= s.received && AudioQueue.Inv(s.queue)
    ensures var t := Apply(s, op);
            && (t.sent == s.sent || (s.player.Armed? && !PastCheck(t) && t.sent == s.sent + [s.player.frame]))
            && Early(InFlight(t), received) + (if t.sent == s.sent then 0 else Early([s.player.frame], received))
                 <= Early(InFlight(s), received)
            && Early(InReader(t), received) <= Early(InReader(s), received)
  {
    hide Apply, InReader, InPlayer;
    EarlyInFlight(s, received);
    EarlyInFlight(Apply(s, op), received);
    assert Early([], received) == 0;
    if ReaderOp(op) { ReaderOnFlight(s, op, received); } else { PlayerOnFlight(s, op, received); }
  }

  // ---- the bounds ----

  /** While playback is suppressed, the one send that can go through is the one already past its check. */
  predicate SuppressionHolds(s: State) {
    && s.suppressedAt <= |s.sent|
    && (s.suppress ==> |s.sent| - s.suppressedAt + (if PastCheck(s) then 1 else 0) <= 1)
    && (s.events.Clearing? || s.events.ClearTook? ==> s.suppress)
  }

  function Past(mark: Mark): nat { if mark.past then 1 else 0 }

  /** Three only if the player was past its check with more frames queued behind it and another in the
      reader's hand; two otherwise. */
  function Limit(mark: Mark): nat { if mark.past && mark.queued && mark.held then 3 else 2 }

  /** Early frames that are neither sent nor past the player's check. */
  function Unchecked(s: State, received: nat): nat {
    (if PastCheck(s) then 0 else Early(InPlayer(s), received))
    + Early(s.queue.frames, received) + Early(InReader(s), received)
  }

  predicate WhileClearing(s: State, mark: Mark)
    requires mark.sends <= |s.sent|
  {
    && (s.events.Clearing? || s.events.ClearTook?)
    && LateSends(s, mark) + (if PastCheck(s) then 1 else 0) <= Past(mark)
    && (!mark.held ==> Early(InReader(s), mark.received) == 0)
    && (mark.past && !mark.queued ==> Unchecked(s, mark.received) <= 1)
  }

  predicate BargeInBounded(s: State) {
    match s.bargeIn
    case None => !s.cleared
    case Some(mark) =>
      && mark.received <= s.received && mark.sends <= |s.sent|
      && (!s.cleared ==> WhileClearing(s, mark))
      && (s.cleared ==> LateSends(s, mark) + Early(InFlight(s), mark.received) <= Limit(mark))
  }

  predicate EmptiedBounded(s: State) {
    s.emptied.Some? ==>
      && s.emptied.value.received <= s.received && s.emptied.value.sends <= |s.sent|
      && LateSends(s, s.emptied.value) + Early(InFlight(s), s.emptied.value.received) <= 2
  }

  ghost predicate Inv(s: State) {
    AudioQueue.Inv(s.queue) && SuppressionHolds(s) && BargeInBounded(s) && EmptiedBounded(s)
  }

  lemma LateSendsStep(s: State, op: Op, mark: Mark)
    requires mark.sends <= |s.sent|
    ensures var t := Apply(s, op);
            && mark.sends <= |t.sent|
            && (t.sent == s.sent ==> LateSends(t, mark) == LateSends(s, mark))
            && (s.player.Armed? && t.sent == s.sent + [s.player.frame] ==>
                  LateSends(t, mark) == LateSends(s, mark) + Early([s.player.frame], mark.received))
  {
    var t := Apply(s, op);
    if s.player.Armed? && t.sent == s.sent + [s.player.frame] {
      assert t.sent[mark.sends..] == s.sent[mark.sends..] + [s.player.frame];
      EarlyAppend(s.sent[mark.sends..], [s.player.frame], mark.received);
    }
  }

  lemma QueueStaysSound(s: State, op: Op)
    requires AudioQueue.Inv(s.queue)
    ensures AudioQueue.Inv(Apply(s, op).queue)
  {
    match op {
      case ReaderSends => if s.reader.Pushing? { AudioQueue.ApplyKeepsInvariant(s.queue, DoPushSend(s.reader.frame)); }
      case ReaderAdds => AudioQueue.ApplyKeepsInvariant(s.queue, DoPushAdd);
      case PlayerReceives => AudioQueue.ApplyKeepsInvariant(s.queue, DoTake);
      case ClearReceives => AudioQueue.ApplyKeepsInvariant(s.queue, DoTake);
      case PlayerSubtracts(i) => AudioQueue.ApplyKeepsInvariant(s.queue, DoSubtract(i));
      case ClearSubtracts(i) => AudioQueue.ApplyKeepsInvariant(s.queue, DoSubtract(i));
      case _ =>
    }
  }

  lemma SuppressionStep(s: State, op: Op)
    requires SuppressionHolds(s)
    ensures SuppressionHolds(Apply(s, op))
  {
  }

  /** When a clear finds the queue empty, at most the player and the reader hold earlier frames. */
  lemma AtMostTwoHeld(s: State, received: nat)
    requires s.queue.frames == []
    ensures Early(InFlight(s), received) <= 2
    ensures Early([], received) == 0
  {
    EarlyInFlight(s, received);
  }

  lemma EmptiedStep(s: State, op: Op)
    requires EmptiedBounded(s) && AudioQueue.Inv(s.queue)
    ensures EmptiedBounded(Apply(s, op))
  {
    var t := Apply(s, op);
    if s.emptied.Some? {
      StepOnFlight(s, op, s.emptied.value.received);
      LateSendsStep(s, op, s.emptied.value);
    } else if t.emptied.Some? {
      AtMostTwoHeld(t, s.received);
      assert t.sent[|s.sent|..] == [];
    }
  }

  lemma ClearingReaderStep(s: State, op: Op, mark: Mark)
    requires AudioQueue.Inv(s.queue) && ReaderOp(op)
    requires mark.received <= s.received && mark.sends <= |s.sent| && WhileClearing(s, mark)
    ensures mark.sends <= |Apply(s, op).sent|
    ensures WhileClearing(Apply(s, op), mark)
  {
    hide InReader, InPlayer, Early;
    LateSendsStep(s, op, mark);
    ReaderOnFlight(s, op, mark.received);
  }

  lemma ClearingStep(s: State, op: Op, mark: Mark)
    requires SuppressionHolds(s)
    requires mark.sends <= |s.sent| && WhileClearing(s, mark)
    requires !ReaderOp(op) && !op.ClearFindsEmpty?
    ensures mark.sends <= |Apply(s, op).sent|
    ensures WhileClearing(Apply(s, op), mark)
  {
    hide InReader;
    var received := mark.received;
    LateSendsStep(s, op, mark);
    assert Early([], received) == 0;
    if s.player.Armed? { EarlyOne(s.player.frame, received); }
    PlayerOnFlight(s, op, received);
    hide Early;
  }

  lemma BargeInStarts(s: State)
    requires s.events.Swapped? && s.bargeIn.None? && !s.cleared
    ensures BargeInBounded(Apply(s, Suppress(true)))
  {
    var t := Apply(s, Suppress(true));
    assert t.sent[|s.sent|..] == [];
    assert Early([], s.received) == 0;
    EarlyInFlight(t, s.received);
  }

  lemma BargeInStep(s: State, op: Op)
    requires BargeInBounded(s) && SuppressionHolds(s) && AudioQueue.Inv(s.queue)
    ensures BargeInBounded(Apply(s, op))
  {
    if s.bargeIn.Some? {
      var mark := s.bargeIn.value;
      if s.cleared {
        StepOnFlight(s, op, mark.received);
        LateSendsStep(s, op, mark);
      } else if op.ClearFindsEmpty? {
        if s.queue.frames == [] { ClearingEnds(s, mark); }
        LateSendsStep(s, op, mark);
      } else if ReaderOp(op) {
        ClearingReaderStep(s, op, mark);
      } else {
        ClearingStep(s, op, mark);
      }
    } else if op == Suppress(true) && s.events.Swapped? {
      BargeInStarts(s);
    }
  }

  lemma ClearingEnds(s: State, mark: Mark)
    requires s.queue.frames == [] && mark.sends <= |s.sent| && WhileClearing(s, mark)
    ensures LateSends(s, mark) + Early(InFlight(s), mark.received) <= Limit(mark)
  {
    EarlyInFlight(s, mark.received);
    assert Early([], mark.received) == 0;
  }

  lemma ApplyKeepsInvariant(s: State, op: Op)
    requires Inv(s)
    ensures Inv(Apply(s, op))
  {
    hide Apply, SuppressionHolds, BargeInBounded, EmptiedBounded;
    QueueStaysSound(s, op);
    SuppressionStep(s, op);
    BargeInStep(s, op);
    EmptiedStep(s, op);
  }

  lemma {:induction false} RunKeepsInvariant(s: State, ops: seq<Op>)
    requires Inv(s)
    ensures Inv(Run(s, ops))
    decreases |ops|
  {
    if ops != [] {
      ApplyKeepsInvariant(s, ops[0]);
      RunKeepsInvariant(Apply(s, ops[0]), ops[1..]);
    }
  }

  // ---- over every interleaving ----

  /** While playback is suppressed, at most one send goes through. */
  lemma OneSendWhileSuppressed(maxDuration: nat, ops: seq<Op>)
    requires Run(Initial(maxDuration), ops).suppress
    ensures var s := Run(Initial(maxDuration), ops); |s.sent| - s.suppressedAt <= 1
  {
    RunKeepsInvariant(Initial(maxDuration), ops);
  }

  /** Of the frames the engine had delivered when suppression took effect, at most two ever reach the
      connection afterwards, unless the player was past its check with frames queued behind it and the
      reader held another: then at most three. */
  lemma BargeInBound(maxDuration: nat, ops: seq<Op>)
    requires Run(Initial(maxDuration), ops).bargeIn.Some?
    ensures var s := Run(Initial(maxDuration), ops);
            s.bargeIn.value.sends <= |s.sent| && LateSends(s, s.bargeIn.value) <= Limit(s.bargeIn.value)
  {
    RunKeepsInvariant(Initial(maxDuration), ops);
  }

  /** Of the frames delivered by the time the clear returned, at most two ever reach the connection. */
  lemma AfterClearBound(maxDuration: nat, ops: seq<Op>)
    requires Run(Initial(maxDuration), ops).emptied.Some?
    ensures var s := Run(Initial(maxDuration), ops);
            s.emptied.value.sends <= |s.sent| && LateSends(s, s.emptied.value) <= 2
  {
    RunKeepsInvariant(Initial(maxDuration), ops);
  }
}
