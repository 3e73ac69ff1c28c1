/** What else every interleaving of the pump keeps, and why the barge-in bound cannot be lowered. */
module PumpOrder {
  import opened Pump
  import Q = AudioQueue

  // ---- playback in engine order ----

  predicate Increasing(frames: seq<Q.AudioFrame>) {
    forall i, j :: 0 <= i < j < |frames| ==> frames[i].tag < frames[j].tag
  }

  predicate Below(frames: seq<Q.AudioFrame>, received: nat) {
    forall i :: 0 <= i < |frames| ==> frames[i].tag < received
  }

  function Join(sent: seq<Q.AudioFrame>, player: seq<Q.AudioFrame>, queue: seq<Q.AudioFrame>, reader: seq<Q.AudioFrame>)
    : seq<Q.AudioFrame>
  {
    sent + player + queue + reader
  }

  /** Sent frames, then those in flight: the stream as the connection will see it. */
  function Stream(s: State): seq<Q.AudioFrame> { Join(s.sent, InPlayer(s), s.queue.frames, InReader(s)) }

  predicate Ordered(s: State) { Increasing(Stream(s)) && Below(Stream(s), s.received) }

  /** Frames received but not yet subtracted are in the hands of the player or of a clear. */
  predicate HandsFull(s: State) {
    && |s.queue.removed| == (if s.player.Popped? then 1 else 0) + (if s.events.ClearTook? then 1 else 0)
    && (s.queue.adding.Some? ==> s.reader.Adding?)
  }

  ghost predicate Whole(s: State) { Pump.Inv(s) && Ordered(s) && HandsFull(s) }

  /** A step leaves the stream alone, drops one frame from it, or appends a newly read one. */
  ghost predicate Moves(before: seq<Q.AudioFrame>, after: seq<Q.AudioFrame>, received: nat, k: nat) {
    || after == before
    || (k < |before| && after == before[..k] + before[k + 1..])
    || (|after| == |before| + 1 && after[..|before|] == before && after[|before|].tag == received)
  }

  lemma MovesKeepOrder(before: seq<Q.AudioFrame>, after: seq<Q.AudioFrame>, received: nat, k: nat, next: nat)
    requires Increasing(before) && Below(before, received) && Moves(before, after, received, k)
    requires next >= received && (|after| > |before| ==> next > received)
    ensures Increasing(after) && Below(after, next)
  {
    if |after| > |before| {
      forall i | 0 <= i < |before| ensures after[i] == before[i] { assert after[i] == after[..|before|][i]; }
    }
  }

  // How the four parts of the stream exchange frames.

  lemma Appends(a: seq<Q.AudioFrame>, b: seq<Q.AudioFrame>, c: seq<Q.AudioFrame>, f: Q.AudioFrame, received: nat,
      k: nat)
    requires f.tag == received
    ensures Moves(Join(a, b, c, []), Join(a, b, c, [f]), received, k)
  {
    assert Join(a, b, c, [f])[..|Join(a, b, c, [])|] == Join(a, b, c, []);
  }

  lemma DropsLast(a: seq<Q.AudioFrame>, b: seq<Q.AudioFrame>, c: seq<Q.AudioFrame>, f: Q.AudioFrame, received: nat)
    ensures Moves(Join(a, b, c, [f]), Join(a, b, c, []), received, |a + b + c|)
  {
  }

  lemma DropsHead(a: seq<Q.AudioFrame>, b: seq<Q.AudioFrame>, c: seq<Q.AudioFrame>, d: seq<Q.AudioFrame>, received: nat)
    requires c != []
    ensures Moves(Join(a, b, c, d), Join(a, b, c[1..], d), received, |a + b|)
  {
    assert Join(a, b, c[1..], d) == Join(a, b, c, d)[..|a + b|] + Join(a, b, c, d)[|a + b| + 1..];
  }

  lemma DropsPlayed(a: seq<Q.AudioFrame>, f: Q.AudioFrame, c: seq<Q.AudioFrame>, d: seq<Q.AudioFrame>, received: nat)
    ensures Moves(Join(a, [f], c, d), Join(a, [], c, d), received, |a|)
  {
    assert Join(a, [], c, d) == Join(a, [f], c, d)[..|a|] + Join(a, [f], c, d)[|a| + 1..];
  }

  lemma Hands(a: seq<Q.AudioFrame>, b: seq<Q.AudioFrame>, c: seq<Q.AudioFrame>, d: seq<Q.AudioFrame>, f: Q.AudioFrame)
    ensures Join(a, b, c + [f], []) == Join(a, b, c, [f])
    ensures c != [] ==> Join(a, [c[0]], c[1..], d) == Join(a, [], c, d)
    ensures Join(a + [f], [], c, d) == Join(a, [f], c, d)
  {
    if c != [] { assert c == [c[0]] + c[1..]; }
  }

  lemma StreamMoves(s: State, op: Op) returns (k: nat)
    requires Q.Inv(s.queue)
    ensures var t := Apply(s, op);
            Moves(Stream(s), Stream(t), s.received, k) && t.received >= s.received
            && (|Stream(t)| > |Stream(s)| ==> t.received > s.received)
  {
    k := if ReaderOp(op) then ReaderDropsAt(s) else PlayerDropsAt(s, op);
    if ReaderOp(op) { ReaderMoves(s, op); } else if Handles(op) { PlayerMoves(s, op); } else { QuietStep(s, op); }
  }

  function ReaderDropsAt(s: State): nat { |s.sent + InPlayer(s) + s.queue.frames| }

  function PlayerDropsAt(s: State, op: Op): nat { if op.ClearReceives? then |s.sent + InPlayer(s)| else |s.sent| }

  lemma ReaderMoves(s: State, op: Op)
    requires Q.Inv(s.queue) && ReaderOp(op)
    ensures var t := Apply(s, op);
            Moves(Stream(s), Stream(t), s.received, ReaderDropsAt(s)) && t.received >= s.received
            && (|Stream(t)| > |Stream(s)| ==> t.received > s.received)
  {
    var t := Apply(s, op);
    var a, b, c := s.sent, InPlayer(s), s.queue.frames;
    hide Join, Moves;
    NoMove(Stream(s), s.received, ReaderDropsAt(s));
    if op.ReaderReceives? {
      Appends(a, b, c, Q.AudioFrame(op.bytes, op.format, s.received), s.received, ReaderDropsAt(s));
    } else {
      if s.reader.Checking? || s.reader.Pushing? {
        DropsLast(a, b, c, s.reader.frame, s.received);
        Hands(a, b, c, [], s.reader.frame);
      }
      Shorter(a, b, c, InReader(s));
    }
  }

  lemma NoMove(frames: seq<Q.AudioFrame>, received: nat, k: nat)
    ensures Moves(frames, frames, received, k)
  {
  }

  lemma Shorter(a: seq<Q.AudioFrame>, b: seq<Q.AudioFrame>, c: seq<Q.AudioFrame>, d: seq<Q.AudioFrame>)
    ensures |Join(a, b, c, [])| <= |Join(a, b, c, d)|
    ensures |Join(a, [], c, d)| <= |Join(a, b, c, d)|
    ensures c != [] ==> |Join(a, b, c[1..], d)| <= |Join(a, b, c, d)|
  {
  }

  predicate Handles(op: Op) { op.PlayerReceives? || op.PlayerSends? || op.PlayerChecks? || op.ClearReceives? }

  lemma QuietStep(s: State, op: Op)
    requires !ReaderOp(op) && !Handles(op)
    ensures Stream(Apply(s, op)) == Stream(s) && Apply(s, op).received == s.received
  {
    hide Join;
  }

  lemma PlayerMoves(s: State, op: Op)
    requires Handles(op)
    ensures var t := Apply(s, op);
            Moves(Stream(s), Stream(t), s.received, PlayerDropsAt(s, op)) && t.received == s.received
            && |Stream(t)| <= |Stream(s)|
  {
    var t := Apply(s, op);
    var a, b, c, d := s.sent, InPlayer(s), s.queue.frames, InReader(s);
    hide Join, Moves, Q.Duration, Q.PushSend;
    NoMove(Stream(s), s.received, PlayerDropsAt(s, op));
    if op.PlayerReceives? {
      if c != [] { Hands(a, b, c, d, c[0]); }
    } else if op.PlayerSends? {
      if s.player.Armed? { Hands(a, b, c, d, s.player.frame); }
    } else if op.PlayerChecks? {
      if s.player.Holding? { DropsPlayed(a, s.player.frame, c, d, s.received); Shorter(a, b, c, d); }
    } else if c != [] {
      DropsHead(a, b, c, d, s.received);
      Shorter(a, b, c, d);
    }
  }

  lemma HandsStep(s: State, op: Op)
    requires HandsFull(s)
    ensures HandsFull(Apply(s, op))
  {
  }

  lemma ApplyKeepsWhole(s: State, op: Op)
    requires Whole(s)
    ensures Whole(Apply(s, op))
  {
    hide Apply, SuppressionHolds, BargeInBounded, EmptiedBounded, Stream, HandsFull, Moves, Q.Inv;
    ApplyKeepsInvariant(s, op);
    HandsStep(s, op);
    var k := StreamMoves(s, op);
    MovesKeepOrder(Stream(s), Stream(Apply(s, op)), s.received, k, Apply(s, op).received);
  }

  lemma {:induction false} RunKeepsWhole(s: State, ops: seq<Op>)
    requires Whole(s)
    ensures Whole(Run(s, ops))
    decreases |ops|
  {
    if ops != [] {
      ApplyKeepsWhole(s, ops[0]);
      RunKeepsWhole(Apply(s, ops[0]), ops[1..]);
    }
  }

  /** Whatever barge-ins and refusals drop, the connection gets frames in the order the engine delivered
      them, none twice. */
  lemma PlayedInEngineOrder(maxDuration: nat, ops: seq<Op>)
    ensures Increasing(Run(Initial(maxDuration), ops).sent)
  {
    RunKeepsWhole(Initial(maxDuration), ops);
    var s := Run(Initial(maxDuration), ops);
    assert forall i :: 0 <= i < |s.sent| ==> Stream(s)[i] == s.sent[i];
  }

  // ---- the bound of three is reached ----

  ghost predicate Reaches(s: State, t: State) { exists ops :: Run(s, ops) == t }

  lemma {:induction false} RunOneMore(s: State, ops: seq<Op>, op: Op)
    ensures Run(s, ops + [op]) == Apply(Run(s, ops), op)
    decreases |ops|
  {
    if ops == [] {
      assert [op][1..] == [] && Run(Apply(s, op), []) == Apply(s, op);
      assert ops + [op] == [op];
    } else {
      assert (ops + [op])[1..] == ops[1..] + [op];
      RunOneMore(Apply(s, ops[0]), ops[1..], op);
    }
  }

  lemma StepReaches(s: State, t: State, op: Op)
    requires Reaches(s, t)
    ensures Reaches(s, Apply(t, op))
  {
    var ops :| Run(s, ops) == t;
    RunOneMore(s, ops, op);
  }

  lemma ReachesItself(s: State)
    ensures Reaches(s, s)
  {
    assert Run(s, []) == s;
  }

  /** Suppression is set while the player is past its check, frames are queued and the reader holds one. */
  predicate AllHeld(s: State) { PastCheck(s) && s.queue.frames != [] && InReader(s) != [] }

  lemma PlayerSendsOn(s: State) returns (t: State)
    requires s.events.Swapped? && PastCheck(s)
    ensures var start := Apply(s, Suppress(true));
            && Reaches(start, t)
            && t.sent == s.sent + [s.player.frame] && t.player.Popping? && t.events == Clearing
            && t.queue == s.queue && t.reader == s.reader
  {
    hide Reaches;
    var start := Apply(s, Suppress(true));
    ReachesItself(start);
    var a := Apply(start, PlayerRaises); StepReaches(start, start, PlayerRaises);
    t := Apply(a, PlayerSends(true)); StepReaches(start, a, PlayerSends(true));
  }

  /** The player plays on and takes the next frame before the clear does. */
  lemma PlayerGetsAhead(s: State) returns (t: State)
    requires Whole(s) && s.events.Swapped? && AllHeld(s)
    ensures var start := Apply(s, Suppress(true));
            && Reaches(start, t) && Q.Inv(t.queue)
            && t.queue.removed == [] && t.queue.adding.None? && t.queue.maxDuration == s.queue.maxDuration
            && t.queue.frames == s.queue.frames[1..]
            && t.reader == s.reader && t.player == Holding(s.queue.frames[0]) && t.events == Clearing
            && t.sent == s.sent + [s.player.frame]
  {
    hide Reaches, Ordered, BargeInBounded, EmptiedBounded, Q.Sum;
    var start := Apply(s, Suppress(true));
    var b := PlayerSendsOn(s);
    var c := Apply(b, PlayerReceives); StepReaches(start, b, PlayerReceives);
    t := Apply(c, PlayerSubtracts(0)); StepReaches(start, c, PlayerSubtracts(0));
    QueueStaysSound(b, PlayerReceives);
    QueueStaysSound(c, PlayerSubtracts(0));
  }

  /** The clear takes everything else. */
  lemma {:induction false} ClearTakesRest(start: State, s: State) returns (t: State)
    requires Reaches(start, s) && Q.Inv(s.queue)
    requires s.events.Clearing? && s.queue.removed == [] && s.queue.adding.None?
    ensures Reaches(start, t) && Q.Inv(t.queue)
    ensures t.queue.frames == [] && t.queue.removed == [] && t.queue.adding.None? && t.events.Clearing?
    ensures t.reader == s.reader && t.player == s.player && t.sent == s.sent &&
        t.queue.maxDuration == s.queue.maxDuration
    decreases |s.queue.frames|
  {
    if s.queue.frames == [] {
      t := s;
    } else {
      var a := Apply(s, ClearReceives); StepReaches(start, s, ClearReceives);
      var b := Apply(a, ClearSubtracts(0)); StepReaches(start, a, ClearSubtracts(0));
      QueueStaysSound(s, ClearReceives);
      QueueStaysSound(a, ClearSubtracts(0));
      t := ClearTakesRest(start, b);
    }
  }

  /** The engine answers at once: the frame the player holds goes out, the reader queues its own. */
  lemma ResponseLetsBothOut(start: State, s: State) returns (t: State)
    requires Reaches(start, s) && Q.Inv(s.queue)
    requires s.queue.frames == [] && s.queue.removed == [] && s.queue.adding.None? && s.events.Clearing?
    requires s.player.Holding? && InReader(s) != []
    ensures Reaches(start, t)
    ensures t.sent == s.sent + [s.player.frame] + [s.reader.frame]
  {
    hide Reaches, Q.Inv;
    var a := Apply(s, ClearFindsEmpty(false)); StepReaches(start, s, ClearFindsEmpty(false));
    var b := Apply(a, InterruptDone(true)); StepReaches(start, a, InterruptDone(true));
    var c := Apply(b, ResponseStarted); StepReaches(start, b, ResponseStarted);
    var d := Apply(c, PlayerChecks); StepReaches(start, c, PlayerChecks);
    var e := Apply(d, PlayerRaises); StepReaches(start, d, PlayerRaises);
    var f := Apply(e, PlayerSends(true)); StepReaches(start, e, PlayerSends(true));
    t := ReaderFollows(start, f);
  }

  lemma ReaderFollows(start: State, s: State) returns (t: State)
    requires Reaches(start, s) && Q.Inv(s.queue) && !s.suppress
    requires s.queue.frames == [] && s.queue.removed == [] && s.queue.adding.None?
    requires s.player.Popping? && InReader(s) != []
    ensures Reaches(start, t)
    ensures t.sent == s.sent + [s.reader.frame]
  {
    hide Reaches;
    var a := Apply(s, ReaderChecks); StepReaches(start, s, ReaderChecks);
    assert Q.Sum([]) == 0;
    var b := Apply(a, ReaderSends); StepReaches(start, a, ReaderSends);
    var c := Apply(b, ReaderAdds); StepReaches(start, b, ReaderAdds);
    t := PlayerPlaysOne(start, c);
  }

  lemma PlayerPlaysOne(start: State, s: State) returns (t: State)
    requires Reaches(start, s) && !s.suppress
    requires |s.queue.frames| == 1 && s.queue.removed == [] && s.queue.adding.None? && s.player.Popping?
    ensures Reaches(start, t)
    ensures t.sent == s.sent + s.queue.frames
  {
    hide Reaches;
    var d := Apply(s, PlayerReceives); StepReaches(start, s, PlayerReceives);
    var e := Apply(d, PlayerSubtracts(0)); StepReaches(start, d, PlayerSubtracts(0));
    var f := Apply(e, PlayerChecks); StepReaches(start, e, PlayerChecks);
    var g := Apply(f, PlayerRaises); StepReaches(start, f, PlayerRaises);
    t := Apply(g, PlayerSends(true)); StepReaches(start, g, PlayerSends(true));
    assert s.queue.frames == [s.queue.frames[0]];
  }

  lemma ThreeReached(s: State) returns (t: State)
    requires Whole(s) && s.events.Swapped? && AllHeld(s)
    ensures Reaches(Apply(s, Suppress(true)), t)
    ensures |s.sent| <= |t.sent| && LateSends(t, Here(s)) == 3
  {
    var start := Apply(s, Suppress(true));
    var a := PlayerGetsAhead(s);
    var b := ClearTakesRest(start, a);
    t := ResponseLetsBothOut(start, b);
    var x, y, z := s.player.frame, s.queue.frames[0], s.reader.frame;
    assert t.sent[|s.sent|..] == [x] + [y] + [z];
    assert Stream(s) == s.sent + [x] + s.queue.frames + [z];
    assert Stream(s)[|s.sent|] == x && Stream(s)[|s.sent| + 1] == y && Stream(s)[|Stream(s)| - 1] == z;
    EarlyAppend([x] + [y], [z], s.received);
    EarlyAppend([x], [y], s.received);
    EarlyOne(x, s.received); EarlyOne(y, s.received); EarlyOne(z, s.received);
  }

  /** However the run goes on, at most two frames read by then reach the connection after suppression is
      set here. */
  ghost predicate AtMostTwoFrom(s: State) {
    forall t :: Reaches(Apply(s, Suppress(true)), t) ==> |s.sent| <= |t.sent| && LateSends(t, Here(s)) <= 2
  }

  lemma StepKeepsMark(s: State, op: Op)
    requires s.bargeIn.Some?
    ensures Apply(s, op).bargeIn == s.bargeIn
  {
    hide Here, Q.Duration, Q.PushSend;
  }

  lemma {:induction false} MarkStays(s: State, ops: seq<Op>)
    requires s.bargeIn.Some?
    ensures Run(s, ops).bargeIn == s.bargeIn
    decreases |ops|
  {
    hide Apply;
    if ops != [] {
      StepKeepsMark(s, ops[0]);
      MarkStays(Apply(s, ops[0]), ops[1..]);
    }
  }

  lemma TwoOtherwise(s: State, more: seq<Op>)
    requires Pump.Inv(s) && s.events.Swapped? && s.bargeIn.None? && !AllHeld(s)
    ensures var t := Run(Apply(s, Suppress(true)), more); |s.sent| <= |t.sent| && LateSends(t, Here(s)) <= 2
  {
    hide Run, SuppressionHolds, EmptiedBounded, Q.Inv;
    var start := Apply(s, Suppress(true));
    ApplyKeepsInvariant(s, Suppress(true));
    RunKeepsInvariant(start, more);
    MarkStays(start, more);
  }

  /** At the instant a barge-in sets suppression, "at most two" holds of every continuation exactly when
      it is not the case that the player is past its check, frames are queued behind it, and the reader
      holds one more. */
  lemma TwoExactlyWhen(maxDuration: nat, ops: seq<Op>)
    requires var s := Run(Initial(maxDuration), ops); s.events.Swapped? && s.bargeIn.None?
    ensures var s := Run(Initial(maxDuration), ops); AtMostTwoFrom(s) <==> !AllHeld(s)
  {
    RunKeepsWhole(Initial(maxDuration), ops);
    var s := Run(Initial(maxDuration), ops);
    hide Run, AllHeld, Apply, LateSends, BargeInBounded, SuppressionHolds, EmptiedBounded, Ordered, HandsFull;
    if AllHeld(s) {
      var t := ThreeReached(s);
    } else {
      forall t | Reaches(Apply(s, Suppress(true)), t) ensures |s.sent| <= |t.sent| && LateSends(t, Here(s)) <= 2 {
        var more :| Run(Apply(s, Suppress(true)), more) == t;
        TwoOtherwise(s, more);
      }
    }
  }

  // ---- a run of three frames ----

  const TONE := Q.AudioFormat(8000, 1)
  const READ := ReaderReceives(320, TONE, 40_000_000)
  const QUEUE_ONE := [READ, ReaderChecks, ReaderSends, ReaderAdds]
  const PLAYER_ARMS := [PlayerReceives, PlayerSubtracts(0), PlayerChecks, PlayerRaises]

  /** Three frames of 20 ms: the player is about to send the first, the second is queued, the reader holds
      the third, and the caller starts to speak. */
  const THREE_FRAMES := QUEUE_ONE + PLAYER_ARMS + QUEUE_ONE + [READ, SpeechStarted]

  lemma {:induction false} RunSplits(s: State, a: seq<Op>, b: seq<Op>)
    ensures Run(s, a + b) == Run(Run(s, a), b)
    decreases |a|
  {
    hide Apply;
    if a == [] {
      assert a + b == b;
    } else {
      assert (a + b)[1..] == a[1..] + b;
      RunSplits(Apply(s, a[0]), a[1..], b);
    }
  }

  lemma TwoSteps(s: State, a: Op, b: Op)
    ensures Run(s, [a, b]) == Apply(Apply(s, a), b)
  {
    hide Apply;
    assert [a, b][1..] == [b] && [b][1..] == [];
    assert Run(Apply(s, a), [b]) == Apply(Apply(s, a), b);
  }

  lemma FourSteps(s: State, a: Op, b: Op, c: Op, d: Op)
    ensures Run(s, [a, b, c, d]) == Apply(Apply(Apply(Apply(s, a), b), c), d)
  {
    hide Apply;
    assert [a, b, c, d] == [a, b] + [c, d];
    RunSplits(s, [a, b], [c, d]);
    TwoSteps(s, a, b);
    TwoSteps(Apply(Apply(s, a), b), c, d);
  }

  lemma TwentyMilliseconds(tag: nat)
    ensures Q.ValidFrame(Q.AudioFrame(320, TONE, tag)) && Q.Duration(Q.AudioFrame(320, TONE, tag)) == 20_000_000
  {
    assert Q.Samples(Q.AudioFrame(320, TONE, tag)) == 160;
  }

  lemma ReaderQueuesOne(s: State)
    requires !s.suppress && s.reader.Receiving? && s.queue.adding.None?
    requires s.queue.queued <= 50_000_000 && s.queue.maxDuration == 100_000_000 && |s.queue.frames| < 10
    ensures var frame := Q.AudioFrame(320, TONE, s.received);
            Run(s, QUEUE_ONE) == s.(received := s.received + 1, queue := s.queue.(
              frames := s.queue.frames + [frame], pushed := s.queue.pushed + [frame],
              queued := s.queue.queued + 20_000_000))
  {
    hide Q.Duration, Run;
    TwentyMilliseconds(s.received);
    FourSteps(s, READ, ReaderChecks, ReaderSends, ReaderAdds);
  }

  lemma PlayerArms(s: State)
    requires !s.suppress && s.player.Popping? && s.queue.adding.None? && s.queue.removed == []
    requires s.queue.frames == [Q.AudioFrame(320, TONE, 0)] && s.queue.queued == 20_000_000
    ensures var t := Run(s, PLAYER_ARMS);
            && t.player == Armed(s.queue.frames[0]) && t.active && t.queue.frames == [] && t.queue.queued == 0
            && t.queue.removed == [] && t.queue.adding.None? && t.queue.maxDuration == s.queue.maxDuration
            && t.reader == s.reader && t.events == s.events && t.received == s.received && !t.suppress &&
                t.bargeIn == s.bargeIn
  {
    hide Q.Duration, Run;
    TwentyMilliseconds(0);
    FourSteps(s, PlayerReceives, PlayerSubtracts(0), PlayerChecks, PlayerRaises);
  }

  /** The exception does arise, with a budget of 100 ms. */
  lemma AllHeldArises()
    ensures var s := Run(Initial(100_000_000), THREE_FRAMES); s.events.Swapped? && s.bargeIn.None? && AllHeld(s)
  {
    hide Run, Q.Duration;
    var start := Initial(100_000_000);
    RunSplits(start, QUEUE_ONE + PLAYER_ARMS + QUEUE_ONE, [READ, SpeechStarted]);
    RunSplits(start, QUEUE_ONE + PLAYER_ARMS, QUEUE_ONE);
    RunSplits(start, QUEUE_ONE, PLAYER_ARMS);
    var a := Run(start, QUEUE_ONE);
    ReaderQueuesOne(start);
    assert a.queue.frames == [Q.AudioFrame(320, TONE, 0)];
    PlayerArms(a);
    var b := Run(a, PLAYER_ARMS);
    ReaderQueuesOne(b);
    var c := Run(b, QUEUE_ONE);
    TwentyMilliseconds(c.received);
    TwoSteps(c, READ, SpeechStarted);
  }

  /** So "at most two after suppression is set" is not true of every run: it fails after this one. */
  lemma TwoNotAlways()
    ensures var s := Run(Initial(100_000_000), THREE_FRAMES);
            s.events.Swapped? && s.bargeIn.None? && !AtMostTwoFrom(s)
  {
    AllHeldArises();
    TwoExactlyWhen(100_000_000, THREE_FRAMES);
  }
}
