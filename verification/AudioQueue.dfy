/** The duration-budgeted audio queue (server/internal/media/session/queue.go). The counter and the
    channel change at different instants: a push sends first and adds after, still under the lock; a pop
    or a clear receives without the lock and subtracts later under it. */
module AudioQueue {
  import opened Basics

  datatype AudioFormat = AudioFormat(sampleRateHz: int, channels: int)

  /** A PCM16 frame: its length in bytes and, as its identity, its number in the stream it came from. */
  datatype AudioFrame = AudioFrame(bytes: nat, format: AudioFormat, tag: nat)

  const SECOND := 1_000_000_000
  const CHANNEL_CAPACITY := 256

  predicate ValidFormat(f: AudioFormat) {
    f.sampleRateHz in {8000, 16000, 24000, 48000} && f.channels == 1
  }

  predicate ValidFrame(f: AudioFrame) { ValidFormat(f.format) && f.bytes != 0 && f.bytes % 2 == 0 }

  function Samples(f: AudioFrame): nat
    requires f.format.channels > 0
  {
    QuotientOfNats(f.bytes, 2 * f.format.channels);
    f.bytes / (2 * f.format.channels)
  }

  lemma QuotientOfNats(a: nat, b: int)
    requires b > 0
    ensures a / b >= 0 && 0 / b == 0
  {
  }

  /** AudioFrame.Duration, in nanoseconds, rounded down. */
  function Duration(f: AudioFrame): nat {
    if f.format.sampleRateHz <= 0 || f.format.channels <= 0 || f.bytes == 0 then 0 else
      Samples(f) * SECOND / f.format.sampleRateHz
  }

  /** The time the frame really plays for. */
  function Nanos(f: AudioFrame): real {
    if f.format.sampleRateHz <= 0 || f.format.channels <= 0 then 0.0 else
      (Samples(f) * SECOND) as real / f.format.sampleRateHz as real
  }

  function Sum(frames: seq<AudioFrame>): nat {
    if frames == [] then 0 else Duration(frames[0]) + Sum(frames[1..])
  }

  function SumNanos(frames: seq<AudioFrame>): real {
    if frames == [] then 0.0 else Nanos(frames[0]) + SumNanos(frames[1..])
  }

  // ---- the queue and its steps ----

  /** `adding` is the frame a push has sent but not yet added, while it holds the lock; `removed` are the
      frames received but not yet subtracted. `pushed` and `taken` record all sends and receives. */
  datatype Queue = Queue(
    frames: seq<AudioFrame>, queued: int, maxDuration: int,
    adding: Option<AudioFrame>, removed: seq<AudioFrame>,
    pushed: seq<AudioFrame>, taken: seq<AudioFrame>)

  function NewQueue(maxDuration: int): Queue {
    Queue([], 0, maxDuration, None, [], [], [])
  }

  predicate Unlocked(q: Queue) { q.adding.None? }

  /** Push, up to its send: the budget check and the non-blocking send. */
  function PushSend(q: Queue, frame: AudioFrame): (Queue, bool)
    requires Unlocked(q)
  {
    if q.queued + Duration(frame) > q.maxDuration then (q, false)
    else if |q.frames| >= CHANNEL_CAPACITY then (q, false)
    else (q.(frames := q.frames + [frame], adding := Some(frame), pushed := q.pushed + [frame]), true)
  }

  function PushAdd(q: Queue): Queue
    requires q.adding.Some?
  {
    q.(queued := q.queued + Duration(q.adding.value), adding := None)
  }

  /** A receive from the channel, by Pop or by Clear. */
  function Take(q: Queue): Queue
    requires q.frames != []
  {
    q.(frames := q.frames[1..], removed := q.removed + [q.frames[0]], taken := q.taken + [q.frames[0]])
  }

  /** The locked region after a receive, with its clamp at zero. */
  function Subtract(q: Queue, i: nat): Queue
    requires Unlocked(q) && i < |q.removed|
  {
    var left := q.queued - Duration(q.removed[i]);
    q.(queued := if left < 0 then 0 else left, removed := q.removed[..i] + q.removed[i + 1..])
  }

  datatype Op = DoPushSend(frame: AudioFrame) | DoPushAdd | DoTake | DoSubtract(i: nat)

  function Apply(q: Queue, op: Op): Queue {
    match op
    case DoPushSend(frame) => if Unlocked(q) then PushSend(q, frame).0 else q
    case DoPushAdd => if q.adding.Some? then PushAdd(q) else q
    case DoTake => if q.frames != [] then Take(q) else q
    case DoSubtract(i) => if Unlocked(q) && i < |q.removed| then Subtract(q, i) else q
  }

  function Run(q: Queue, ops: seq<Op>): Queue
    decreases |ops|
  {
    if ops == [] then q else Run(Apply(q, ops[0]), ops[1..])
  }

  // ---- conservation ----

  function Adding(q: Queue): nat { if q.adding.Some? then Duration(q.adding.value) else 0 }

  ghost predicate Inv(q: Queue) {
    && q.queued + Adding(q) == Sum(q.frames) + Sum(q.removed)
    && 0 <= q.queued && q.queued + Adding(q) <= q.maxDuration
    && q.taken + q.frames == q.pushed
    && |q.frames| <= CHANNEL_CAPACITY
  }

  lemma {:induction false} SumAppend(a: seq<AudioFrame>, b: seq<AudioFrame>)
    ensures Sum(a + b) == Sum(a) + Sum(b)
    decreases |a|
  {
    if a == [] {
      assert a + b == b;
    } else {
      assert (a + b)[1..] == a[1..] + b;
      SumAppend(a[1..], b);
    }
  }

  lemma SumWithout(a: seq<AudioFrame>, i: nat)
    requires i < |a|
    ensures Sum(a) == Sum(a[..i] + a[i + 1..]) + Duration(a[i])
  {
    assert a == a[..i] + a[i..];
    SumAppend(a[..i], a[i..]);
    SumAppend(a[..i], a[i + 1..]);
  }

  lemma ApplyKeepsInvariant(q: Queue, op: Op)
    requires Inv(q)
    ensures Inv(Apply(q, op)) && Apply(q, op).maxDuration == q.maxDuration
  {
    match op {
      case DoPushSend(frame) =>
        SumAppend(q.frames, [frame]);
        assert Sum([frame]) == Duration(frame);
        assert q.taken + (q.frames + [frame]) == (q.taken + q.frames) + [frame];
      case DoPushAdd =>
      case DoTake =>
        if q.frames != [] {
          SumAppend(q.removed, [q.frames[0]]);
          assert Sum([q.frames[0]]) == Duration(q.frames[0]);
          assert (q.taken + [q.frames[0]]) + q.frames[1..] == q.taken + q.frames;
        }
      case DoSubtract(i) =>
        if Unlocked(q) && i < |q.removed| { SumWithout(q.removed, i); }
    }
  }

  lemma {:induction false} RunKeepsInvariant(q: Queue, ops: seq<Op>)
    requires Inv(q)
    ensures Inv(Run(q, ops)) && Run(q, ops).maxDuration == q.maxDuration
    decreases |ops|
  {
    if ops != [] {
      ApplyKeepsInvariant(q, ops[0]);
      RunKeepsInvariant(Apply(q, ops[0]), ops[1..]);
    }
  }

  // ---- over every interleaving ----

  /** The counter, plus a push not yet added, is the audio in the channel plus the frames received but
      not yet subtracted; it stays within the budget. */
  lemma CounterConserved(maxDuration: nat, ops: seq<Op>)
    ensures var q := Run(NewQueue(maxDuration), ops);
            && q.queued + Adding(q) == Sum(q.frames) + Sum(q.removed)
            && 0 <= q.queued <= q.queued + Adding(q) <= maxDuration
  {
    RunKeepsInvariant(NewQueue(maxDuration), ops);
  }

  /** The clamps at zero never fire: whatever is subtracted is still counted. */
  lemma ClampNeverFires(maxDuration: nat, ops: seq<Op>, i: nat)
    requires var q := Run(NewQueue(maxDuration), ops); Unlocked(q) && i < |q.removed|
    ensures var q := Run(NewQueue(maxDuration), ops);
            q.queued >= Duration(q.removed[i]) && Subtract(q, i).queued == q.queued - Duration(q.removed[i])
  {
    RunKeepsInvariant(NewQueue(maxDuration), ops);
    SumWithout(Run(NewQueue(maxDuration), ops).removed, i);
  }

  /** Frames come out in the order they were pushed, none lost and none twice. */
  lemma FirstInFirstOut(maxDuration: nat, ops: seq<Op>)
    ensures var q := Run(NewQueue(maxDuration), ops); q.taken <= q.pushed && q.pushed == q.taken + q.frames
  {
    RunKeepsInvariant(NewQueue(maxDuration), ops);
  }

  lemma RoundedDownByLessThanOne(f: AudioFrame)
    ensures Duration(f) as real <= Nanos(f) < Duration(f) as real + 1.0
  {
    if f.format.sampleRateHz > 0 && f.format.channels > 0 {
      NoBytesNoSamples(f);
      hide Samples;
      RoundedQuotient(Samples(f), f.format.sampleRateHz);
    }
  }

  lemma NoBytesNoSamples(f: AudioFrame)
    requires f.format.channels > 0
    ensures f.bytes == 0 ==> Samples(f) == 0
  {
    QuotientOfNats(f.bytes, 2 * f.format.channels);
  }

  lemma RoundedQuotient(samples: nat, rate: int)
    requires rate > 0
    ensures (samples * SECOND / rate) as real <= (samples * SECOND) as real / rate as real
              < (samples * SECOND / rate) as real + 1.0
  {
    FloorOfQuotient(samples * SECOND, rate, samples * SECOND / rate);
  }

  lemma FloorOfQuotient(a: int, b: int, q: int)
    requires b > 0 && q * b <= a < q * b + b
    ensures q as real <= a as real / b as real < q as real + 1.0
  {
    var r, x, y := a as real / b as real, b as real, q as real;
    assert r * x == a as real;
    CastProduct(q, b);
    assert (y + 1.0) * x == y * x + x;
    if r < y { TimesPositive(r, y, x); }
    if y + 1.0 <= r {
      TimesPositive(y, y + 1.0, x);
      if y + 1.0 < r { TimesPositive(y + 1.0, r, x); }
    }
  }

  lemma CastProduct(q: int, b: int)
    ensures (q * b) as real == q as real * b as real
  {
  }

  lemma TimesPositive(a: real, b: real, x: real)
    requires a < b && x > 0.0
    ensures a * x < b * x
  {
  }

  lemma {:induction false} SumRounding(frames: seq<AudioFrame>)
    ensures Sum(frames) as real <= SumNanos(frames) <= (Sum(frames) + |frames|) as real
    ensures frames != [] ==> SumNanos(frames) < (Sum(frames) + |frames|) as real
    decreases |frames|
  {
    if frames != [] {
      RoundedDownByLessThanOne(frames[0]);
      SumRounding(frames[1..]);
    }
  }

  /** The audio really waiting in the channel exceeds the budget by less than a nanosecond a frame. */
  lemma TrueAudioWithinBudget(maxDuration: nat, ops: seq<Op>)
    ensures var q := Run(NewQueue(maxDuration), ops);
            && SumNanos(q.frames) <= (maxDuration + |q.frames|) as real
            && (q.frames != [] ==> SumNanos(q.frames) < (maxDuration + |q.frames|) as real)
  {
    RunKeepsInvariant(NewQueue(maxDuration), ops);
    SumRounding(Run(NewQueue(maxDuration), ops).frames);
  }

  /** Undisturbed, a push is accepted exactly when the frame fits the budget and the channel. */
  lemma UndisturbedPush(q: Queue, frame: AudioFrame)
    requires Inv(q) && Unlocked(q) && q.removed == []
    ensures var t := Run(q, [DoPushSend(frame), DoPushAdd]);
            if Sum(q.frames + [frame]) <= q.maxDuration && |q.frames| < CHANNEL_CAPACITY
            then t.frames == q.frames + [frame] && t.queued == Sum(t.frames) && Unlocked(t) && t.removed == []
            else t == q
  {
    TwoSteps(q, DoPushSend(frame), DoPushAdd);
    SumAppend(q.frames, [frame]);
    assert Sum([frame]) == Duration(frame);
  }

  /** Undisturbed, a pop takes the oldest frame and leaves the rest counted. */
  lemma UndisturbedPop(q: Queue)
    requires Inv(q) && Unlocked(q) && q.removed == [] && q.frames != []
    ensures var t := Run(q, [DoTake, DoSubtract(0)]);
            t.frames == q.frames[1..] && t.queued == Sum(t.frames) && t.removed == [] &&
                t.taken == q.taken + [q.frames[0]]
  {
    TwoSteps(q, DoTake, DoSubtract(0));
  }

  lemma TwoSteps(q: Queue, a: Op, b: Op)
    ensures Run(q, [a, b]) == Apply(Apply(q, a), b)
  {
    hide Apply;
    assert [a, b][1..] == [b] && [b][1..] == [];
    assert Run(Apply(q, a), [b]) == Apply(Apply(q, a), b);
  }

  // ---- on its own ----

  class Fifo {
    var frames: seq<AudioFrame>
    var queued: int
    const maxDuration: nat

    constructor (maxDuration: nat)
      ensures Valid() && frames == [] && this.maxDuration == maxDuration
    {
      this.maxDuration := maxDuration;
      frames, queued := [], 0;
    }

    ghost predicate Valid()
      reads this
    {
      queued == Sum(frames) <= maxDuration && |frames| <= CHANNEL_CAPACITY
    }

    /** Refused exactly when the frame would overrun the budget or the channel is full. */
    method Push(frame: AudioFrame) returns (ok: bool)
      requires Valid()
      modifies this
      ensures Valid()
      ensures ok <==> Sum(old(frames) + [frame]) <= maxDuration && |old(frames)| < CHANNEL_CAPACITY
      ensures frames == if ok then old(frames) + [frame] else old(frames)
    {
      SumAppend(frames, [frame]);
      assert Sum([frame]) == Duration(frame);
      var duration := Duration(frame);
      if queued + duration > maxDuration { return false; }
      if |frames| >= CHANNEL_CAPACITY { return false; }
      frames := frames + [frame];
      queued := queued + duration;
      return true;
    }

    /** The select takes a frame, or the closed done channel: the only case ready on an empty queue. */
    method Pop(stopped: bool) returns (frame: Option<AudioFrame>)
      requires Valid()
      modifies this
      ensures Valid()
      ensures stopped || old(frames) == [] ==> frame == None && frames == old(frames)
      ensures !stopped && old(frames) != [] ==> frame.Some? && old(frames) == [frame.value] + frames
    {
      if stopped || frames == [] { return None; }
      var first := frames[0];
      frames := frames[1..];
      queued := queued - Duration(first);
      queued := if queued < 0 then 0 else queued;
      return Some(first);
    }

    method Clear()
      requires Valid()
      modifies this
      ensures Valid() && frames == [] && queued == 0
    {
      while frames != []
        invariant Valid()
        decreases |frames|
      {
        var frame := frames[0];
        frames := frames[1..];
        queued := queued - Duration(frame);
        queued := if queued < 0 then 0 else queued;
      }
    }
  }
}
