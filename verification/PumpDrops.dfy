/** Which frames the pump plays: none that was read while playback was suppressed, each of the others it can,
    and without a barge-in every one, in order; and what a barge-in takes. */
module PumpDrops {
  import opened Basics
  import opened Pump
  import opened PumpOrder
  import opened PumpEnds

  // ---- a frame that will not be played ----

  predicate Lacks(frames: seq<Q.AudioFrame>, tag: nat) {
    forall i :: 0 <= i < |frames| ==> frames[i].tag != tag
  }

  predicate InHand(s: State) { s.reader.Checking? || s.reader.Pushing? }

  /** The queue has never held the frame with that number, nor has the player. */
  predicate NeverQueued(s: State, tag: nat) {
    Lacks(s.queue.pushed, tag) && Lacks(s.queue.frames, tag) && Lacks(InPlayer(s), tag) && Lacks(s.sent, tag)
  }

  /** It was read, never queued, and if the reader still holds it, is too long for the queue. */
  predicate Doomed(s: State, tag: nat) {
    && tag < s.received && NeverQueued(s, tag)
    && (InHand(s) && s.reader.frame.tag == tag ==>
          s.reader.Pushing? && Q.Duration(s.reader.frame) > s.queue.maxDuration)
  }

  lemma ReaderStaysDoomed(s: State, op: Op, tag: nat)
    requires Doomed(s, tag) && Q.Inv(s.queue) && ReaderOp(op)
    ensures Doomed(Apply(s, op), tag)
  {
    hide Q.Duration, Q.ValidFrame, Q.Sum;
  }

  lemma OthersStayDoomed(s: State, op: Op, tag: nat)
    requires Doomed(s, tag) && !ReaderOp(op)
    ensures Doomed(Apply(s, op), tag)
  {
    hide Q.Duration, Q.ValidFrame;
  }

  lemma {:induction false} DoomedStays(s: State, ops: seq<Op>, tag: nat)
    requires Pump.Inv(s) && Doomed(s, tag)
    ensures Doomed(Run(s, ops), tag)
    decreases |ops|
  {
    hide Apply, Doomed;
    if ops != [] {
      ApplyKeepsInvariant(s, ops[0]);
      if ReaderOp(ops[0]) { ReaderStaysDoomed(s, ops[0], tag); } else { OthersStayDoomed(s, ops[0], tag); }
      DoomedStays(Apply(s, ops[0]), ops[1..], tag);
    }
  }

  // ---- numbering ----

  /** The number up to which frames may have been queued. */
  function Bound(s: State): nat { if InHand(s) then s.reader.frame.tag else s.received }

  predicate Behind(s: State) {
    && (InHand(s) ==> s.reader.frame.tag < s.received)
    && Below(s.queue.pushed, Bound(s)) && Below(s.queue.frames, Bound(s))
    && Below(InPlayer(s), Bound(s)) && Below(s.sent, Bound(s))
  }

  lemma ReaderKeepsBehind(s: State, op: Op)
    requires Behind(s) && ReaderOp(op)
    ensures Behind(Apply(s, op))
  {
    hide Q.Duration, Q.ValidFrame;
  }

  lemma OthersKeepBehind(s: State, op: Op)
    requires Behind(s) && !ReaderOp(op)
    ensures Behind(Apply(s, op))
  {
    hide Q.Duration, Q.ValidFrame;
  }

  // What has been received but not yet subtracted is what the player and a clear hold.

  function PlayerHand(s: State): Option<Q.AudioFrame> { if s.player.Popped? then Some(s.player.frame) else None }

  function ClearHand(s: State): Option<Q.AudioFrame> { if s.events.ClearTook? then Some(s.events.frame) else None }

  function One(frame: Option<Q.AudioFrame>): multiset<Q.AudioFrame> {
    if frame.Some? then multiset{frame.value} else multiset{}
  }

  predicate HandsExact(s: State) { multiset(s.queue.removed) == One(PlayerHand(s)) + One(ClearHand(s)) }

  lemma Without(frames: seq<Q.AudioFrame>, i: nat)
    requires i < |frames|
    ensures multiset(frames[..i] + frames[i + 1..]) == multiset(frames) - multiset{frames[i]}
  {
    assert frames == frames[..i] + [frames[i]] + frames[i + 1..];
  }

  predicate Handles(op: Op) {
    op.PlayerReceives? || op.PlayerSubtracts? || op.ClearReceives? || op.ClearSubtracts?
  }

  lemma QuietHands(s: State, op: Op)
    requires !Handles(op)
    ensures var t := Apply(s, op);
            PlayerHand(t) == PlayerHand(s) && ClearHand(t) == ClearHand(s) && t.queue.removed == s.queue.removed
  {
    hide Q.Duration, Q.ValidFrame;
  }

  lemma HandsStayExact(s: State, op: Op)
    requires HandsExact(s)
    ensures HandsExact(Apply(s, op))
  {
    if !Handles(op) {
      hide Apply, PlayerHand, ClearHand, One;
      QuietHands(s, op);
    } else if op.PlayerReceives? || op.ClearReceives? {
      TakeHand(s, op);
    } else if op.i < |s.queue.removed| {
      PutHand(s, op);
    }
  }

  lemma TakeHand(s: State, op: Op)
    requires HandsExact(s) && (op.PlayerReceives? || op.ClearReceives?)
    ensures HandsExact(Apply(s, op))
  {
    hide Q.Duration, One;
    if s.queue.frames != [] { OneOf(s.queue.frames[0]); }
  }

  lemma PutHand(s: State, op: Op)
    requires HandsExact(s) && (op.PlayerSubtracts? || op.ClearSubtracts?) && op.i < |s.queue.removed|
    ensures HandsExact(Apply(s, op))
  {
    hide Q.Duration, One;
    Without(s.queue.removed, op.i);
    HandPut(s, op);
    OneOf(s.queue.removed[op.i]);
  }

  lemma OneOf(frame: Q.AudioFrame)
    ensures One(Some(frame)) == multiset{frame} && One(None) == multiset{}
  {
  }

  lemma HandPut(s: State, op: Op)
    requires (op.PlayerSubtracts? || op.ClearSubtracts?) && op.i < |s.queue.removed|
    ensures var t, i := Apply(s, op), op.i;
            t == s || t.queue.removed == s.queue.removed[..i] + s.queue.removed[i + 1..]
    ensures var t := Apply(s, op);
            t != s && op.PlayerSubtracts? ==>
              && PlayerHand(s) == Some(s.queue.removed[op.i])
              && PlayerHand(t) == None && ClearHand(t) == ClearHand(s)
    ensures var t := Apply(s, op);
            t != s && op.ClearSubtracts? ==>
              && ClearHand(s) == Some(s.queue.removed[op.i])
              && ClearHand(t) == None && PlayerHand(t) == PlayerHand(s)
  {
    hide Q.Duration;
  }

  ghost predicate Kept(s: State) { Whole(s) && Behind(s) && HandsExact(s) }

  lemma {:induction false} RunKeeps(s: State, ops: seq<Op>)
    requires Kept(s)
    ensures Kept(Run(s, ops))
    decreases |ops|
  {
    hide Apply, Whole, Behind, HandsExact;
    if ops != [] {
      ApplyKeepsWhole(s, ops[0]);
      if ReaderOp(ops[0]) { ReaderKeepsBehind(s, ops[0]); } else { OthersKeepBehind(s, ops[0]); }
      HandsStayExact(s, ops[0]);
      RunKeeps(Apply(s, ops[0]), ops[1..]);
    }
  }

  lemma FromStart(maxDuration: nat, ops: seq<Op>)
    ensures Kept(Run(Initial(maxDuration), ops))
  {
    RunKeeps(Initial(maxDuration), ops);
  }

  lemma NotYetQueued(s: State)
    requires Behind(s) && InHand(s)
    ensures NeverQueued(s, s.reader.frame.tag) && s.reader.frame.tag < s.received
  {
  }

  /** A frame that the reader checks while playback is suppressed is dropped: in no continuation is it ever
      queued or sent. */
  lemma SuppressedFrameNeverPlays(maxDuration: nat, ops: seq<Op>, more: seq<Op>)
    requires var s := Run(Initial(maxDuration), ops); s.suppress && s.reader.Checking?
    ensures var s := Run(Initial(maxDuration), ops);
            var t := Run(Apply(s, ReaderChecks), more);
            Lacks(t.queue.pushed, s.reader.frame.tag) && Lacks(t.sent, s.reader.frame.tag)
  {
    hide Run, Q.Inv, SuppressionHolds, BargeInBounded, EmptiedBounded;
    FromStart(maxDuration, ops);
    var s := Run(Initial(maxDuration), ops);
    NotYetQueued(s);
    ApplyKeepsInvariant(s, ReaderChecks);
    DoomedStays(Apply(s, ReaderChecks), more, s.reader.frame.tag);
  }

  // ---- a frame that can still be played ----

  /** Undisturbed, the player sends what it holds and empties the queue. */
  lemma {:induction false} PlayerEmptiesQueue(start: State, s: State) returns (t: State)
    requires Reaches(start, s) && HandsExact(s) && Q.Inv(s.queue)
    requires !s.suppress && !s.player.PlayerStopped? && !s.events.ClearTook? && s.queue.adding.None?
    ensures Reaches(start, t) && Q.Inv(t.queue)
    ensures t.player.Popping? && t.queue.frames == [] && t.queue.removed == [] && t.queue.adding.None?
    ensures !t.suppress && t.reader == s.reader && t.queue.maxDuration == s.queue.maxDuration
    decreases |s.queue.frames|, if s.player.Popping? then 0 else 1
  {
    hide Reaches, Q.Inv, Q.Duration;
    if s.player.Popping? {
      assert |multiset(s.queue.removed)| == 0;
      if s.queue.frames == [] {
        t := s;
      } else {
        HandsStayExact(s, PlayerReceives);
        QueueStaysSound(s, PlayerReceives);
        StepReaches(start, s, PlayerReceives);
        t := PlayerEmptiesQueue(start, Apply(s, PlayerReceives));
      }
    } else {
      var a := PlayerSendsHeld(start, s);
      t := PlayerEmptiesQueue(start, a);
    }
  }

  lemma HeldAt(s: State) returns (i: nat)
    requires HandsExact(s) && s.player.Popped?
    ensures i < |s.queue.removed| && s.queue.removed[i] == s.player.frame
  {
    assert s.player.frame in multiset(s.queue.removed);
    i :| 0 <= i < |s.queue.removed| && s.queue.removed[i] == s.player.frame;
  }

  lemma PlayerSubtractsHeld(start: State, s: State) returns (t: State)
    requires Reaches(start, s) && HandsExact(s) && Q.Inv(s.queue) && s.player.Popped? && s.queue.adding.None?
    ensures Reaches(start, t) && HandsExact(t) && Q.Inv(t.queue)
    ensures t.player == Holding(s.player.frame)
    ensures t == s.(player := t.player, queue := t.queue) && t.queue.frames == s.queue.frames
    ensures t.queue.adding.None? && t.queue.maxDuration == s.queue.maxDuration
  {
    hide Reaches, Q.Inv, Q.Duration, HandsExact;
    var i := HeldAt(s);
    HandsStayExact(s, PlayerSubtracts(i));
    QueueStaysSound(s, PlayerSubtracts(i));
    StepReaches(start, s, PlayerSubtracts(i));
    t := Apply(s, PlayerSubtracts(i));
  }

  lemma PlayerSendsHeld(start: State, s: State) returns (t: State)
    requires Reaches(start, s) && HandsExact(s) && Q.Inv(s.queue)
    requires !s.suppress && InPlayer(s) != [] && !s.events.ClearTook? && s.queue.adding.None?
    ensures Reaches(start, t) && HandsExact(t) && Q.Inv(t.queue)
    ensures t.player.Popping? && t.queue.frames == s.queue.frames && t.queue.adding.None? && t.events == s.events
    ensures !t.suppress && t.reader == s.reader && t.queue.maxDuration == s.queue.maxDuration
  {
    hide Reaches, Q.Inv, HandsExact;
    var a := s;
    if a.player.Popped? { a := PlayerSubtractsHeld(start, s); }
    HandsStayExact(a, PlayerChecks);
    var b := if a.player.Holding? then Apply(a, PlayerChecks) else a;
    StepReaches(start, a, PlayerChecks);
    HandsStayExact(b, PlayerRaises);
    var c := if b.player.Passed? then Apply(b, PlayerRaises) else b;
    StepReaches(start, b, PlayerRaises);
    HandsStayExact(c, PlayerSends(true));
    StepReaches(start, c, PlayerSends(true));
    t := Apply(c, PlayerSends(true));
  }

  lemma CanPlay(start: State, s: State) returns (t: State)
    requires Reaches(start, s) && HandsExact(s) && Q.Inv(s.queue) && SuppressionHolds(s) && HandsFull(s)
    requires s.reader.Pushing? && !s.suppress && !s.player.PlayerStopped?
    requires Q.Duration(s.reader.frame) <= s.queue.maxDuration
    ensures Reaches(start, t) && t.sent != [] && t.sent[|t.sent| - 1] == s.reader.frame
  {
    hide Reaches, Q.Duration;
    var a := PlayerEmptiesQueue(start, s);
    assert Q.Sum([]) == 0;
    var b := Apply(a, ReaderSends); StepReaches(start, a, ReaderSends);
    var c := Apply(b, ReaderAdds); StepReaches(start, b, ReaderAdds);
    t := PlayerPlaysOne(start, c);
  }

  /** Some continuation sends the frame the reader has just checked. */
  ghost predicate CanStillPlay(s: State, frame: Q.AudioFrame) {
    exists t :: Reaches(s, t) && !Lacks(t.sent, frame.tag)
  }

  /** Wherever a run has led, a frame that the reader checks now can still be played if and only if playback is
      not suppressed, the player has not stopped, and the frame fits the queue's whole budget. */
  lemma PlaysExactlyWhen(maxDuration: nat, ops: seq<Op>)
    requires Run(Initial(maxDuration), ops).reader.Checking?
    ensures var s := Run(Initial(maxDuration), ops);
            CanStillPlay(Apply(s, ReaderChecks), s.reader.frame) <==>
              !s.suppress && !s.player.PlayerStopped? && Q.Duration(s.reader.frame) <= s.queue.maxDuration
  {
    hide Run, Q.Inv, SuppressionHolds, BargeInBounded, EmptiedBounded, Q.Duration, Reaches;
    FromStart(maxDuration, ops);
    var s := Run(Initial(maxDuration), ops);
    var start, frame := Apply(s, ReaderChecks), s.reader.frame;
    NotYetQueued(s);
    ApplyKeepsInvariant(s, ReaderChecks);
    if !s.suppress && !s.player.PlayerStopped? && Q.Duration(frame) <= s.queue.maxDuration {
      ReachesItself(start);
      var t := CanPlay(start, start);
    } else {
      forall t | Reaches(start, t) ensures Lacks(t.sent, frame.tag) {
        var more := Path(start, t);
        if s.player.PlayerStopped? {
          StoppedPlayerSendsNothing(start, more);
        } else {
          DoomedStays(start, more, frame.tag);
        }
      }
    }
  }

  lemma Path(s: State, t: State) returns (ops: seq<Op>)
    requires Reaches(s, t)
    ensures Run(s, ops) == t
  {
    ops :| Run(s, ops) == t;
  }

  // ---- without a barge-in ----

  predicate Numbered(frames: seq<Q.AudioFrame>) { forall i :: 0 <= i < |frames| ==> frames[i].tag == i }

  /** Neither suppressed nor clearing: everything taken from the queue is sent or in the player's hand, and
      everything read is queued, but for a frame in the reader's hand or one that it stopped at. */
  predicate AllPlayed(s: State) {
    && !s.suppress && !s.events.Clearing? && !s.events.ClearTook?
    && s.sent + InPlayer(s) == s.queue.taken
    && Numbered(s.queue.pushed)
    && |s.queue.pushed| == s.received - (if InHand(s) || s.reader.ReaderStopped? then 1 else 0)
    && (InHand(s) ==> s.reader.frame.tag == |s.queue.pushed|)
  }

  lemma ReaderKeepsAllPlayed(s: State, op: Op)
    requires AllPlayed(s) && ReaderOp(op)
    ensures AllPlayed(Apply(s, op))
  {
    hide Q.Duration, Q.ValidFrame;
  }

  lemma OthersKeepAllPlayed(s: State, op: Op)
    requires AllPlayed(s) && !ReaderOp(op) && !op.Suppress?
    ensures AllPlayed(Apply(s, op))
  {
    hide Q.Duration, Q.ValidFrame, Numbered;
    if op.PlayerReceives? && s.player.Popping? && s.queue.frames != [] {
      assert s.sent + [] == s.sent;
    }
    if op.PlayerSends? && s.player.Armed? {
      assert (s.sent + [s.player.frame]) + [] == s.sent + [s.player.frame];
    }
  }

  lemma {:induction false} RunPlaysAll(s: State, ops: seq<Op>)
    requires AllPlayed(s) && Q.Inv(s.queue)
    requires forall i :: 0 <= i < |ops| ==> !ops[i].Suppress?
    ensures AllPlayed(Run(s, ops)) && Q.Inv(Run(s, ops).queue)
    decreases |ops|
  {
    hide Apply, AllPlayed, Q.Inv;
    if ops != [] {
      QueueStaysSound(s, ops[0]);
      if ReaderOp(ops[0]) { ReaderKeepsAllPlayed(s, ops[0]); } else { OthersKeepAllPlayed(s, ops[0]); }
      RunPlaysAll(Apply(s, ops[0]), ops[1..]);
    }
  }

  /** In a run in which suppression is never set nothing is dropped: every frame the engine delivered is
      queued under its number, but for one in the reader's hand or one that it stopped at, and every queued
      frame is sent, or on its way, in that order. */
  lemma NothingDroppedWithoutBargeIn(maxDuration: nat, ops: seq<Op>)
    requires forall i :: 0 <= i < |ops| ==> !ops[i].Suppress?
    ensures var s := Run(Initial(maxDuration), ops);
            && s.sent + InPlayer(s) + s.queue.frames == s.queue.pushed
            && Numbered(s.queue.pushed)
            && |s.queue.pushed| == s.received - (if InHand(s) || s.reader.ReaderStopped? then 1 else 0)
  {
    RunPlaysAll(Initial(maxDuration), ops);
  }
}
