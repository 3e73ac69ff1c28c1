/** The Redis commands that the lease scripts use, for one sorted-set key at a time.
    Every command sees the key as it is at the instant `now` (milliseconds): a key whose
    expiry has been reached no longer exists, and a sorted set that loses its last member
    loses its key, and with it its expiry. */
module RedisKeys {
  import opened Basics

  /** A sorted-set key: its members with their scores, and the key's own expiry, if it has one.
      A key that does not exist is one without members. */
  datatype ZKey = ZKey(score: map<string, int>, expiry: Option<int>)

  const ABSENT := ZKey(map[], None)

  function Current(k: ZKey, now: int): ZKey {
    if k.expiry.Some? && k.expiry.value <= now then ABSENT else k
  }

  /** The members a command running at `now` finds. */
  function Scores(k: ZKey, now: int): map<string, int> {
    Current(k, now).score
  }

  function Kept(k: ZKey): ZKey {
    if k.score == map[] then ABSENT else k
  }

  function ZAdd(k: ZKey, now: int, member: string, score: int): ZKey {
    ZKey(Scores(k, now)[member := score], Current(k, now).expiry)
  }

  function PExpire(k: ZKey, now: int, ttl: int): ZKey {
    if Scores(k, now) == map[] then ABSENT else Current(k, now).(expiry := Some(now + ttl))
  }

  function ZRem(k: ZKey, now: int, member: string): ZKey {
    Kept(Current(k, now).(score := Scores(k, now) - {member}))
  }

  /** ZREMRANGEBYSCORE key -inf upTo. */
  function ZRemRangeByScore(k: ZKey, now: int, upTo: int): ZKey {
    Kept(Current(k, now).(score := map m | m in Scores(k, now) && Scores(k, now)[m] > upTo :: Scores(k, now)[m]))
  }

  function ZScore(k: ZKey, now: int, member: string): Option<int> {
    var scores := Scores(k, now);
    if member in scores then Some(scores[member]) else None
  }

  function ZCard(k: ZKey, now: int): nat {
    |Scores(k, now)|
  }

  /** The members whose score has not been reached: the leases that still count. */
  function LiveMembers(k: ZKey, now: int): set<string> {
    var scores := Scores(k, now);
    set m | m in scores && scores[m] > now
  }

  /** After pruning everything up to the present, the cardinality counts exactly the live members. */
  lemma PrunedCardinality(k: ZKey, now: int)
    ensures ZCard(ZRemRangeByScore(k, now, now), now) == |LiveMembers(k, now)|
    ensures LiveMembers(ZRemRangeByScore(k, now, now), now) == LiveMembers(k, now)
    ensures Scores(ZRemRangeByScore(k, now, now), now).Keys == LiveMembers(k, now)
  {
    var pruned := Scores(ZRemRangeByScore(k, now, now), now);
    assert pruned.Keys == LiveMembers(k, now);
    assert |pruned| == |pruned.Keys|;
  }

  /** Letting time pass can only take live members away. */
  lemma LiveMembersShrink(k: ZKey, now: int, later: int)
    requires now <= later
    ensures LiveMembers(k, later) <= LiveMembers(k, now)
    ensures |LiveMembers(k, later)| <= |LiveMembers(k, now)|
  {
    assert LiveMembers(k, later) <= LiveMembers(k, now);
    SubsetCardinality(LiveMembers(k, later), LiveMembers(k, now));
  }
}
