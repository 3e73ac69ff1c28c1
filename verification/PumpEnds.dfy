/** What ends a goroutine of the pump for good, and when speech interrupts playback. */
module PumpEnds {
  import opened Basics
  import opened Pump
  import opened PumpOrder

  // ---- frames that end the reading ----

  /** PCM16 mono at one of four rates, and not longer than a frame may be. */
  predicate Acceptable(bytes: nat, format: Q.AudioFormat, maxFrame: nat) {
    && bytes > 0 && bytes % 2 == 0 && format.channels == 1
    && (format.sampleRateHz == 8000 || format.sampleRateHz == 16000
        || format.sampleRateHz == 24000 || format.sampleRateHz == 48000)
    && (bytes / 2) * 1_000_000_000 / format.sampleRateHz <= maxFrame
  }

  lemma DurationOf(frame: Q.AudioFrame)
    requires frame.format.channels == 1 && frame.format.sampleRateHz > 0 && frame.bytes > 0
    ensures Q.Duration(frame) == (frame.bytes / 2) * 1_000_000_000 / frame.format.sampleRateHz
  {
    assert Q.Samples(frame) == frame.bytes / 2;
  }

  lemma StaysUnread(s: State, op: Op)
    requires s.reader.ReaderStopped?
    ensures var t := Apply(s, op);
            t.reader.ReaderStopped? && t.received == s.received && t.queue.pushed == s.queue.pushed
  {
    hide Q.Duration, Q.ValidFrame;
  }

  lemma {:induction false} StoppedReaderReadsNothing(s: State, ops: seq<Op>)
    requires s.reader.ReaderStopped?
    ensures var t := Run(s, ops); t.received == s.received && t.queue.pushed == s.queue.pushed
    decreases |ops|
  {
    hide Apply;
    if ops != [] {
      StaysUnread(s, ops[0]);
      StoppedReaderReadsNothing(Apply(s, ops[0]), ops[1..]);
    }
  }

  /** A frame goes on to the suppression check if and only if it is acceptable; after any other nothing is
      read or queued in any continuation. */
  lemma ReadingGoesOnExactlyWhen(s: State, bytes: nat, format: Q.AudioFormat, maxFrame: nat, more: seq<Op>)
    requires s.reader.Receiving?
    ensures var t := Apply(s, ReaderReceives(bytes, format, maxFrame));
            && (t.reader == Checking(Q.AudioFrame(bytes, format, s.received)) <==> Acceptable(bytes, format, maxFrame))
            && (!Acceptable(bytes, format, maxFrame) ==>
                  Run(t, more).received == s.received + 1 && Run(t, more).queue.pushed == s.queue.pushed)
  {
    hide Run, Q.Duration;
    var frame := Q.AudioFrame(bytes, format, s.received);
    if format.channels == 1 && format.sampleRateHz > 0 && bytes > 0 { DurationOf(frame); }
    var t := Apply(s, ReaderReceives(bytes, format, maxFrame));
    if !Acceptable(bytes, format, maxFrame) { StoppedReaderReadsNothing(t, more); }
  }

  /** A push goes through if and only if the frame fits the budget and the 256 places of the channel; after a
      refused one nothing is read or queued in any continuation. */
  lemma PushingGoesOnExactlyWhen(s: State, more: seq<Op>)
    requires s.reader.Pushing? && Q.Unlocked(s.queue)
    ensures var t := Apply(s, ReaderSends);
            var fits := s.queue.queued + Q.Duration(s.reader.frame) <= s.queue.maxDuration && |s.queue.frames| < 256;
            && (fits ==> t.reader.Adding? && t.queue.pushed == s.queue.pushed + [s.reader.frame])
            && (!fits ==> Run(t, more).received == s.received && Run(t, more).queue.pushed == s.queue.pushed)
  {
    hide Run, Q.Duration;
    var t := Apply(s, ReaderSends);
    if t.reader.ReaderStopped? { StoppedReaderReadsNothing(t, more); }
  }

  // ---- failures that end playback and events ----

  lemma StaysSilent(s: State, op: Op)
    requires s.player.PlayerStopped?
    ensures Apply(s, op).player.PlayerStopped? && Apply(s, op).sent == s.sent
  {
    hide Q.Duration, Q.ValidFrame;
  }

  lemma {:induction false} StoppedPlayerSendsNothing(s: State, ops: seq<Op>)
    requires s.player.PlayerStopped?
    ensures Run(s, ops).sent == s.sent
    decreases |ops|
  {
    hide Apply;
    if ops != [] {
      StaysSilent(s, ops[0]);
      StoppedPlayerSendsNothing(Apply(s, ops[0]), ops[1..]);
    }
  }

  /** The frame whose send failed is the last one that is sent. */
  lemma FailedSendIsTheLast(s: State, more: seq<Op>)
    requires s.player.Armed?
    ensures Run(Apply(s, PlayerSends(false)), more).sent == s.sent + [s.player.frame]
  {
    hide Run;
    StoppedPlayerSendsNothing(Apply(s, PlayerSends(false)), more);
  }

  predicate Interrupts(s: State) { s.events.Interrupting? ==> s.suppress }

  lemma StepInterrupts(s: State, op: Op)
    requires SuppressionHolds(s) && Interrupts(s)
    ensures Interrupts(Apply(s, op))
  {
    hide Q.Duration, Q.ValidFrame;
  }

  lemma {:induction false} RunInterrupts(s: State, ops: seq<Op>)
    requires Pump.Inv(s) && Interrupts(s)
    ensures Pump.Inv(Run(s, ops)) && Interrupts(Run(s, ops))
    decreases |ops|
  {
    hide Apply, Interrupts, Q.Inv, BargeInBounded, EmptiedBounded, SuppressionHolds;
    if ops != [] {
      ApplyKeepsInvariant(s, ops[0]);
      StepInterrupts(s, ops[0]);
      RunInterrupts(Apply(s, ops[0]), ops[1..]);
    }
  }

  lemma StaysSuppressed(s: State, op: Op)
    requires s.events.EventsStopped? && s.suppress
    ensures var t := Apply(s, op); t.events.EventsStopped? && t.suppress && t.suppressedAt == s.suppressedAt
  {
    hide Q.Duration, Q.ValidFrame;
  }

  lemma {:induction false} RunStaysSuppressed(s: State, ops: seq<Op>)
    requires s.events.EventsStopped? && s.suppress
    ensures var t := Run(s, ops); t.suppress && t.suppressedAt == s.suppressedAt
    decreases |ops|
  {
    hide Apply;
    if ops != [] {
      StaysSuppressed(s, ops[0]);
      RunStaysSuppressed(Apply(s, ops[0]), ops[1..]);
    }
  }

  /** After an interrupt that failed, playback stays suppressed in every continuation, and at most one frame is
      sent that was not sent when suppression was set. */
  lemma FailedInterruptSuppressesForGood(maxDuration: nat, ops: seq<Op>, more: seq<Op>)
    requires Run(Initial(maxDuration), ops).events.Interrupting?
    ensures var s := Run(Initial(maxDuration), ops);
            var t := Run(Apply(s, InterruptDone(false)), more);
            t.suppress && |t.sent| <= s.suppressedAt + 1
  {
    hide Run;
    RunInterrupts(Initial(maxDuration), ops);
    hide Q.Inv, BargeInBounded, EmptiedBounded;
    var s := Run(Initial(maxDuration), ops);
    ApplyKeepsInvariant(s, InterruptDone(false));
    RunStaysSuppressed(Apply(s, InterruptDone(false)), more);
    RunKeepsInvariant(Apply(s, InterruptDone(false)), more);
  }

  // ---- when speech interrupts ----

  /** What a step says about playback: it starts, it is over, or nothing. */
  function Signal(s: State, op: Op): Option<bool> {
    match op
    case PlayerRaises => if s.player.Passed? then Some(true) else None
    case ResponseResumes => if s.events.Resuming? then Some(true) else None
    case ResponseStopped => if s.events.Listening? then Some(false) else None
    case SpeechStarted => if s.events.Listening? then Some(false) else None
    case _ => None
  }

  /** The last signal of a run. */
  function LastSignal(s: State, ops: seq<Op>, before: bool): bool
    decreases |ops|
  {
    if ops == [] then before else
      LastSignal(Apply(s, ops[0]), ops[1..], if Signal(s, ops[0]).Some? then Signal(s, ops[0]).value else before)
  }

  lemma StepSignals(s: State, op: Op)
    ensures Apply(s, op).active == if Signal(s, op).Some? then Signal(s, op).value else s.active
  {
    hide Q.Duration, Q.ValidFrame;
  }

  lemma {:induction false} RunSignals(s: State, ops: seq<Op>)
    ensures Run(s, ops).active == LastSignal(s, ops, s.active)
    decreases |ops|
  {
    hide Apply, Signal;
    if ops != [] {
      StepSignals(s, ops[0]);
      RunSignals(Apply(s, ops[0]), ops[1..]);
    }
  }

  /** Speech interrupts, and then suppresses and clears, if and only if the last thing that was said about
      playback is that it started: by the player before a send, or by the engine with a response. */
  lemma InterruptsExactlyWhen(maxDuration: nat, ops: seq<Op>)
    requires Run(Initial(maxDuration), ops).events.Listening?
    ensures var s := Run(Initial(maxDuration), ops);
            var t := Run(s, [SpeechStarted, Suppress(false)]);
            && (LastSignal(Initial(maxDuration), ops, false) ==> t.suppress && t.events.Clearing? && !t.active)
            && (!LastSignal(Initial(maxDuration), ops, false) ==> t == s)
  {
    hide Run;
    RunSignals(Initial(maxDuration), ops);
    PumpOrder.TwoSteps(Run(Initial(maxDuration), ops), SpeechStarted, Suppress(false));
  }

  /** Between the swap and the answer of the interrupt. */
  predicate BargingIn(s: State) {
    s.events.Swapped? || s.events.Clearing? || s.events.ClearTook? || s.events.Interrupting?
  }

  lemma StaysBargingIn(s: State, op: Op)
    requires BargingIn(s) && !op.InterruptDone?
    ensures BargingIn(Apply(s, op))
  {
    hide Q.Duration, Q.ValidFrame;
  }

  /** Once speech has interrupted, no event is handled before the engine and the connection were told to stop. */
  lemma {:induction false} InterruptComesFirst(s: State, ops: seq<Op>)
    requires BargingIn(s)
    requires forall i :: 0 <= i < |ops| ==> !ops[i].InterruptDone?
    ensures BargingIn(Run(s, ops))
    decreases |ops|
  {
    hide Apply, BargingIn;
    if ops != [] {
      StaysBargingIn(s, ops[0]);
      InterruptComesFirst(Apply(s, ops[0]), ops[1..]);
    }
  }

  /** Once the engine has begun to answer, playback is let through again and can be interrupted. */
  lemma AnswerCanBeInterrupted(s: State)
    requires s.events.Listening?
    ensures var t := Run(s, [ResponseStarted, ResponseResumes]); !t.suppress && t.active && t.events.Listening?
  {
    PumpOrder.TwoSteps(s, ResponseStarted, ResponseResumes);
  }
}
