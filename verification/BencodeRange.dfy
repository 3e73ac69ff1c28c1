/** When decoding stops at a slice expression that is out of range: exactly when the decoder comes to a
    string whose end does not fit an int64. */
module BencodeRange {
  import opened Decimal
  import opened Bencode
  import opened BencodeProofs

  // ---- the offsets the decoder comes to ----

  /** Decoding the value at `from` comes to read a value at `at`. */
  predicate Comes(data: Bytes, from: nat, at: nat)
    decreases |data| - from, 0
  {
    || at == from
    || (from < |data| && data[from] == CHAR_D && ComesInEntries(data, from + 1, at))
    || (from < |data| && data[from] == CHAR_L && ComesInItems(data, from + 1, at))
  }

  /** The list loop reads one value after another until it finds its end. */
  predicate ComesInItems(data: Bytes, from: nat, at: nat)
    decreases |data| - from, 1
  {
    && from < |data| && data[from] != CHAR_E
    && (|| Comes(data, from, at)
        || (DecodeValue(data, from).Done? && ComesInItems(data, DecodeValue(data, from).next, at)))
  }

  /** The dictionary loop reads a key, which must be a string, then its value. */
  predicate ComesInEntries(data: Bytes, from: nat, at: nat)
    decreases |data| - from, 1
  {
    && from < |data| && data[from] != CHAR_E
    && (|| Comes(data, from, at)
        || (var key := DecodeValue(data, from);
            && key.Done? && key.value.Str?
            && (|| Comes(data, key.next, at)
                || (DecodeValue(data, key.next).Done? && ComesInEntries(data, DecodeValue(data, key.next).next, at)))))
  }

  /** A string stands there, and its length takes its end past the largest int64. */
  ghost predicate TooLong(data: Bytes, at: nat) {
    && at < |data| && data[at] !in [CHAR_D, CHAR_L, CHAR_I]
    && exists start: nat, length: nat :: TextHeader(data, at, start, length) && length > MAX_INT64 - start
  }

  lemma StringStops(data: GoBytes, at: nat)
    requires TooLong(data, at)
    ensures DecodeValue(data, at).OutOfRange?
  {
    Dispatch(data, at);
    OutOfRangeExactlyWhen(data, at);
  }

  // ---- a string that is too long stops everything around it ----

  lemma {:induction false} StopFollows(data: GoBytes, from: nat, at: nat)
    requires Comes(data, from, at) && TooLong(data, at)
    ensures DecodeValue(data, from).OutOfRange?
    decreases |data| - from, 0
  {
    hide TooLong, DecodeValue, DecodeItems, DecodeEntries, ComesInItems, ComesInEntries;
    if at == from {
      StringStops(data, at);
    } else {
      Dispatch(data, from);
      if data[from] == CHAR_D {
        StopFollowsInEntries(data, from + 1, at, map[]);
      } else {
        StopFollowsInItems(data, from + 1, at, []);
      }
    }
  }

  lemma {:induction false} StopFollowsInItems(data: GoBytes, from: nat, at: nat, result: seq<Decoded>)
    requires ComesInItems(data, from, at) && TooLong(data, at)
    ensures DecodeItems(data, from, result).OutOfRange?
    decreases |data| - from, 1
  {
    hide TooLong, DecodeValue, DecodeEntries, Comes;
    if Comes(data, from, at) {
      StopFollows(data, from, at);
    } else {
      var item := DecodeValue(data, from);
      StopFollowsInItems(data, item.next, at, result + [item.value]);
    }
  }

  lemma {:induction false} StopFollowsInEntries(data: GoBytes, from: nat, at: nat, result: map<GoBytes, Decoded>)
    requires ComesInEntries(data, from, at) && TooLong(data, at)
    ensures DecodeEntries(data, from, result).OutOfRange?
    decreases |data| - from, 1
  {
    hide TooLong, DecodeValue, DecodeItems, Comes;
    if Comes(data, from, at) {
      StopFollows(data, from, at);
    } else {
      var key := DecodeValue(data, from);
      if Comes(data, key.next, at) {
        StopFollows(data, key.next, at);
      } else {
        var value := DecodeValue(data, key.next);
        StopFollowsInEntries(data, value.next, at, result[key.value.s := value.value]);
      }
    }
  }

  // ---- and nothing else does ----

  lemma {:induction false} StopFound(data: GoBytes, from: nat) returns (at: nat)
    requires DecodeValue(data, from).OutOfRange?
    ensures Comes(data, from, at) && TooLong(data, at)
    decreases |data| - from, 0
  {
    hide TooLong, DecodeItems, DecodeEntries, DecodeText, DecodeInt, ComesInItems, ComesInEntries;
    Dispatch(data, from);
    if data[from] == CHAR_D {
      at := StopFoundInEntries(data, from + 1, map[]);
    } else if data[from] == CHAR_L {
      at := StopFoundInItems(data, from + 1, []);
    } else if data[from] == CHAR_I {
      IntNeverStops(data, from);
    } else {
      at := from;
      TextStops(data, from);
    }
  }

  lemma IntNeverStops(data: Bytes, from: nat)
    requires from < |data|
    ensures !DecodeInt(data, from).OutOfRange?
  {
  }

  lemma TextStops(data: GoBytes, from: nat)
    requires from < |data| && data[from] !in [CHAR_D, CHAR_L, CHAR_I] && DecodeText(data, from).OutOfRange?
    ensures TooLong(data, from)
  {
    OutOfRangeExactlyWhen(data, from);
  }

  lemma {:induction false} StopFoundInItems(data: GoBytes, from: nat, result: seq<Decoded>) returns (at: nat)
    requires DecodeItems(data, from, result).OutOfRange?
    ensures ComesInItems(data, from, at) && TooLong(data, at)
    decreases |data| - from, 1
  {
    hide TooLong, DecodeValue, DecodeEntries, Comes;
    var item := DecodeValue(data, from);
    if item.OutOfRange? {
      at := StopFound(data, from);
    } else {
      at := StopFoundInItems(data, item.next, result + [item.value]);
    }
  }

  lemma {:induction false} StopFoundInEntries(data: GoBytes, from: nat, result: map<GoBytes, Decoded>) returns (at: nat)
    requires DecodeEntries(data, from, result).OutOfRange?
    ensures ComesInEntries(data, from, at) && TooLong(data, at)
    decreases |data| - from, 1
  {
    hide TooLong, DecodeValue, DecodeItems, Comes;
    var key := DecodeValue(data, from);
    if key.OutOfRange? {
      at := StopFound(data, from);
    } else {
      var value := DecodeValue(data, key.next);
      if value.OutOfRange? {
        at := StopFound(data, key.next);
      } else {
        at := StopFoundInEntries(data, value.next, result[key.value.s := value.value]);
      }
    }
  }

  /** decodeValue stops at a slice expression exactly when it comes to a string that is too long, however
      deep, whatever stands around it. */
  lemma DecodingStopsExactlyWhen(data: GoBytes, from: nat)
    ensures DecodeValue(data, from).OutOfRange? <==> exists at: nat :: Comes(data, from, at) && TooLong(data, at)
  {
    hide DecodeValue, Comes, TooLong;
    if DecodeValue(data, from).OutOfRange? {
      var at := StopFound(data, from);
    }
    if at: nat :| Comes(data, from, at) && TooLong(data, at) {
      StopFollows(data, from, at);
    }
  }
}
