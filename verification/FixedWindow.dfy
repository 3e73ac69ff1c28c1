/** The fixed-window counter of server/internal/integrations/redis/cache.go: INCR, an expiry set by
    the first hit only, and a limit on the count. The call-lease script uses the same counter. */
module FixedWindow {
  import opened Basics

  /** The counter key as last written; it no longer exists once its expiry is reached. */
  datatype Window = Window(count: nat, expiry: int)

  /** INCR, and PEXPIRE when the result is 1. */
  function Hit(k: Option<Window>, now: int, length: int): Window {
    if k.Some? && now < k.value.expiry then Window(k.value.count + 1, k.value.expiry) else Window(1, now + length)
  }

  predicate Nondecreasing(times: seq<int>) {
    forall i, j :: 0 <= i <= j < |times| ==> times[i] <= times[j]
  }

  /** How many of the requests made at `times` are allowed at an instant between `from` and `to`. */
  function Allowed(k: Option<Window>, times: seq<int>, length: int, limit: int, from: int, to: int): nat
    decreases |times|
  {
    if times == [] then 0 else
      var w := Hit(k, times[0], length);
      (if w.count <= limit && from <= times[0] <= to then 1 else 0)
      + Allowed(Some(w), times[1..], length, limit, from, to)
  }

  /** What the counter says about the requests granted so far in [from, from + length]: at most two
      windows meet that interval, and each grants at most `limit`. */
  ghost predicate Accounts(k: Option<Window>, now: int, length: int, limit: int, from: int, granted: int) {
    match k
    case None => granted == 0
    case Some(w) =>
      var start := w.expiry - length;
      && start <= now && w.count >= 1
      && (w.expiry <= from ==> granted == 0)
      && (start <= from ==> granted <= Min(w.count, limit))
      && (from < start <= from + length ==> granted <= limit + Min(w.count, limit))
      && (from + length < start ==> granted <= 2 * limit)
  }

  lemma HitKeepsAccount(k: Option<Window>, last: int, now: int, length: int, limit: int, from: int, granted: nat)
    requires Accounts(k, last, length, limit, from, granted) && last <= now && length >= 1 && limit >= 1
    ensures var w := Hit(k, now, length);
            var g := granted + (if w.count <= limit && from <= now <= from + length then 1 else 0);
            Accounts(Some(w), now, length, limit, from, g)
  {
    if k.Some? && now < k.value.expiry {
      assert Hit(k, now, length).expiry == k.value.expiry;
    }
  }

  lemma {:induction false} AllowedWithinAccount(
      k: Option<Window>, last: int, times: seq<int>, length: int, limit: int, from: int, granted: nat)
    requires Accounts(k, last, length, limit, from, granted) && length >= 1 && limit >= 1
    requires Nondecreasing(times) && (times != [] ==> last <= times[0])
    ensures granted + Allowed(k, times, length, limit, from, from + length) <= 2 * limit
    decreases |times|
  {
    if times != [] {
      HitKeepsAccount(k, last, times[0], length, limit, from, granted);
      var w := Hit(k, times[0], length);
      var g := granted + (if w.count <= limit && from <= times[0] <= from + length then 1 else 0);
      AllowedWithinAccount(Some(w), times[0], times[1..], length, limit, from, g);
    }
  }

  /** In any interval one window long, both ends included, at most twice the limit is allowed. */
  lemma AtMostTwiceTheLimit(times: seq<int>, length: int, limit: int, from: int)
    requires Nondecreasing(times) && length >= 1 && limit >= 1
    ensures Allowed(None, times, length, limit, from, from + length) <= 2 * limit
  {
    if times != [] {
      AllowedWithinAccount(None, times[0], times, length, limit, from, 0);
    }
  }

  /** Inside one window the first `limit` requests are allowed, no fewer and no more. */
  lemma {:induction false} WithinOneWindow(w: Window, times: seq<int>, length: int, limit: int)
    requires Nondecreasing(times) && length >= 1 && limit >= 1
    requires forall t :: t in times ==> w.expiry - length <= t < w.expiry
    ensures Allowed(Some(w), times, length, limit, w.expiry - length, w.expiry)
         == Min(w.count + |times|, limit) - Min(w.count, limit)
    decreases |times|
  {
    if times != [] {
      assert times[0] in times && forall t :: t in times[1..] ==> t in times;
      WithinOneWindow(Hit(Some(w), times[0], length), times[1..], length, limit);
    }
  }

  /** From no counter, or one whose expiry has been reached, a window grants its limit, no fewer and no more. */
  lemma FirstWindowGrantsTheLimit(k: Option<Window>, times: seq<int>, length: int, limit: int)
    requires Nondecreasing(times) && length >= 1 && limit >= 1 && times != []
    requires k.Some? ==> k.value.expiry <= times[0]
    requires forall t :: t in times ==> t < times[0] + length
    ensures Allowed(k, times, length, limit, times[0], times[0] + length) == Min(|times|, limit)
  {
    forall t | t in times[1..] ensures times[0] <= t < times[0] + length {
      assert t in times;
    }
    WithinOneWindow(Window(1, times[0] + length), times[1..], length, limit);
  }

  // ---- which requests are allowed ----

  /** When the window of the last request began: with the first request that no earlier window covers. */
  function Start(times: seq<int>, length: int): int
    requires times != []
  {
    var last := times[|times| - 1];
    if |times| == 1 then last else
      var before := Start(times[..|times| - 1], length);
      if last < before + length then before else last
  }

  /** How many of the requests were made at that instant or later. */
  function Since(times: seq<int>, from: int): nat {
    if times == [] then 0
    else Since(times[..|times| - 1], from) + (if times[|times| - 1] >= from then 1 else 0)
  }

  /** The counter after those requests. */
  function Counter(k: Option<Window>, times: seq<int>, length: int): Option<Window> {
    if times == [] then k
    else Some(Hit(Counter(k, times[..|times| - 1], length), times[|times| - 1], length))
  }

  lemma {:induction false} NoneSince(times: seq<int>, from: int)
    requires forall t :: t in times ==> t < from
    ensures Since(times, from) == 0
  {
    if times != [] {
      var rest := times[..|times| - 1];
      assert times[|times| - 1] in times && forall t :: t in rest ==> t in times;
      NoneSince(rest, from);
    }
  }

  lemma {:induction false} CounterCounts(k: Option<Window>, times: seq<int>, length: int)
    requires Nondecreasing(times) && length >= 1 && times != [] && (k.Some? ==> k.value.expiry <= times[0])
    ensures Start(times, length) <= times[|times| - 1] < Start(times, length) + length
    ensures Counter(k, times, length) == Some(Window(Since(times, Start(times, length)), Start(times, length) + length))
    decreases |times|
  {
    var rest, last := times[..|times| - 1], times[|times| - 1];
    if rest == [] {
      assert Since([], last) == 0;
    } else {
      CounterCounts(k, rest, length);
      assert rest[0] == times[0] && rest[|rest| - 1] <= last;
      var before := Start(rest, length);
      if last >= before + length {
        forall t | t in rest ensures t < last {
          var i :| 0 <= i < |rest| && rest[i] == t;
          assert times[i] <= times[|rest| - 1];
        }
        NoneSince(rest, last);
      }
    }
  }

  /** A request is allowed if and only if no more than `limit` requests, itself included, have been made since
      its window began; the counter then runs out one length after that. */
  lemma AllowedExactlyWhen(k: Option<Window>, times: seq<int>, length: int, limit: int)
    requires Nondecreasing(times) && length >= 1 && times != [] && (k.Some? ==> k.value.expiry <= times[0])
    ensures var w := Hit(Counter(k, times[..|times| - 1], length), times[|times| - 1], length);
            && (w.count <= limit <==> Since(times, Start(times, length)) <= limit)
            && w.expiry == Start(times, length) + length
  {
    CounterCounts(k, times, length);
  }

  datatype Verdict = Allow | Deny | Invalid

  class Limiter {
    var now: int
    var counter: Option<Window>

    constructor ()
      ensures now == 0 && counter == None
    {
      now, counter := 0, None;
    }

    method AllowFixedWindow(limit: int, length: int) returns (verdict: Verdict)
      modifies this`counter
      ensures limit <= 0 || length <= 0 ==> verdict == Invalid && counter == old(counter)
      ensures limit > 0 && length > 0 ==>
                && counter == Some(Hit(old(counter), now, length))
                && verdict == if counter.value.count <= limit then Allow else Deny
    {
      if limit <= 0 { return Invalid; }
      if length <= 0 { return Invalid; }
      var current := 1;
      var expiry := now + length;
      if counter.Some? && now < counter.value.expiry {
        current := counter.value.count + 1;
        expiry := counter.value.expiry;
      }
      counter := Some(Window(current, expiry));
      verdict := if current <= limit then Allow else Deny;
    }
  }
}
