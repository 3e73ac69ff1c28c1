/** What the codec promises: the nested round trip at any place in any buffer, and that the decoder
    looks at nothing but the bytes it consumes. */
module BencodeProofs {
  import opened Basics
  import opened Decimal
  import opened Bencode

  ghost predicate HoldsAt(data: Bytes, offset: nat, part: Bytes) {
    offset + |part| <= |data| && data[offset..offset + |part|] == part
  }

  lemma HoldsByte(data: Bytes, offset: nat, part: Bytes, i: nat)
    requires HoldsAt(data, offset, part) && i < |part|
    ensures data[offset + i] == part[i]
  {
    assert data[offset..offset + |part|][i] == part[i];
  }

  lemma HoldsSplit(data: Bytes, offset: nat, a: Bytes, b: Bytes)
    requires HoldsAt(data, offset, a + b)
    ensures HoldsAt(data, offset, a) && HoldsAt(data, offset + |a|, b)
  {
    var whole := data[offset..offset + |a + b|];
    assert whole[..|a|] == a && whole[|a|..] == b;
    assert data[offset..offset + |a|] == whole[..|a|];
    assert data[offset + |a|..offset + |a| + |b|] == whole[|a|..];
  }

  lemma IndexByteIs(data: Bytes, offset: nat, b: Byte, at: nat)
    requires offset <= at < |data| && data[at] == b
    requires forall i :: offset <= i < at ==> data[i] != b
    ensures IndexByte(data, offset, b) == Some(at)
  {
  }

  // ---- round trip ----

  /** Which loop of the decoder the first byte selects. */
  lemma Dispatch(data: Bytes, offset: nat)
    requires offset < |data|
    ensures data[offset] == CHAR_D ==> DecodeValue(data, offset) == DecodeEntries(data, offset + 1, map[])
    ensures data[offset] == CHAR_L ==> DecodeValue(data, offset) == DecodeItems(data, offset + 1, [])
    ensures data[offset] == CHAR_I ==> DecodeValue(data, offset) == DecodeInt(data, offset)
    ensures data[offset] !in [CHAR_D, CHAR_L, CHAR_I] ==> DecodeValue(data, offset) == DecodeText(data, offset)
  {
  }

  lemma ItemsStep(data: Bytes, offset: nat, result: seq<Decoded>, value: Decoded, next: nat)
    requires offset < |data| && data[offset] != CHAR_E
    requires DecodeValue(data, offset) == Done(value, next)
    ensures DecodeItems(data, offset, result) == DecodeItems(data, next, result + [value])
  {
  }

  lemma EntriesStep(data: Bytes, offset: nat, result: map<GoBytes, Decoded>, key: GoBytes, afterKey: nat,
      value: Decoded, next: nat)
    requires offset < |data| && data[offset] != CHAR_E
    requires DecodeValue(data, offset) == Done(Str(key), afterKey)
    requires DecodeValue(data, afterKey) == Done(value, next)
    ensures DecodeEntries(data, offset, result) == DecodeEntries(data, next, result[key := value])
  {
  }

  predicate NumberByte(b: Byte) { IsDigit(b) || b == MINUS }

  lemma DecodeTextIs(length: Bytes, s: GoBytes, data: Bytes, offset: nat)
    requires length != [] && (forall i :: 0 <= i < |length| ==> NumberByte(length[i])) && ParseInt(length) == Some(|s|)
    requires HoldsAt(data, offset, length + [CHAR_COLON]) && HoldsAt(data, offset + |length| + 1, s)
    ensures DecodeText(data, offset) == Done(Str(s), offset + |length| + 1 + |s|)
    ensures NumberByte(data[offset])
  {
    var colon := offset + |length|;
    HoldsSplit(data, offset, length, [CHAR_COLON]);
    HoldsByte(data, colon, [CHAR_COLON], 0);
    forall i | offset <= i < colon ensures data[i] == length[i - offset] {
      HoldsByte(data, offset, length, i - offset);
    }
    IndexByteIs(data, offset, CHAR_COLON, colon);
  }

  lemma TextAt(s: GoBytes, data: Bytes, offset: nat)
    requires HoldsAt(data, offset, EncodeText(s))
    ensures DecodeValue(data, offset) == Done(Str(s), offset + |EncodeText(s)|)
    ensures data[offset] != CHAR_E
  {
    ParsePrint(|s|);
    HoldsSplit(data, offset, Print(|s|) + [CHAR_COLON], s);
    DecodeTextIs(Print(|s|), s, data, offset);
    Dispatch(data, offset);
  }

  lemma DecodeIntIs(digits: Bytes, n: Int64, data: Bytes, offset: nat)
    requires (forall i :: 0 <= i < |digits| ==> NumberByte(digits[i])) && ParseInt(digits) == Some(n)
    requires HoldsAt(data, offset, [CHAR_I]) && HoldsAt(data, offset + 1, digits)
    requires HoldsAt(data, offset + 1 + |digits|, [CHAR_E])
    ensures data[offset] == CHAR_I && DecodeInt(data, offset) == Done(Integer(n), offset + |digits| + 2)
  {
    hide ParseInt, NumberByte;
    IntEnds(digits, data, offset);
  }

  lemma IntEnds(digits: Bytes, data: Bytes, offset: nat)
    requires forall i :: 0 <= i < |digits| ==> NumberByte(digits[i])
    requires HoldsAt(data, offset, [CHAR_I]) && HoldsAt(data, offset + 1, digits)
    requires HoldsAt(data, offset + 1 + |digits|, [CHAR_E])
    ensures data[offset] == CHAR_I && data[offset + 1..offset + 1 + |digits|] == digits
    ensures IndexByte(data, offset + 1, CHAR_E) == Some(offset + 1 + |digits|)
  {
    hide HoldsAt, IndexByte;
    var end := offset + 1 + |digits|;
    HoldsSlice(data, offset, [CHAR_I]);
    HoldsSlice(data, offset + 1, digits);
    HoldsSlice(data, end, [CHAR_E]);
    HoldsByte(data, offset, [CHAR_I], 0);
    HoldsByte(data, end, [CHAR_E], 0);
    forall i | offset + 1 <= i < end ensures data[i] == digits[i - offset - 1] {
      HoldsByte(data, offset + 1, digits, i - offset - 1);
    }
    IndexByteIs(data, offset + 1, CHAR_E, end);
  }

  lemma HoldsSlice(data: Bytes, offset: nat, part: Bytes)
    requires HoldsAt(data, offset, part)
    ensures offset + |part| <= |data| && data[offset..offset + |part|] == part
  {
  }

  lemma IntAt(n: Int64, data: Bytes, offset: nat)
    requires HoldsAt(data, offset, EncodeInt(n))
    ensures DecodeValue(data, offset) == Done(Integer(n), offset + |EncodeInt(n)|)
    ensures data[offset] != CHAR_E
  {
    hide DecodeValue, DecodeInt, ParseInt, Print;
    ParsePrint(n);
    HoldsSplit(data, offset, [CHAR_I] + Print(n), [CHAR_E]);
    HoldsSplit(data, offset, [CHAR_I], Print(n));
    DecodeIntIs(Print(n), n, data, offset);
    Dispatch(data, offset);
  }

  lemma {:induction false} TextsAt(texts: seq<GoBytes>, data: Bytes, offset: nat, result: seq<Decoded>)
    requires HoldsAt(data, offset, EncodeTexts(texts) + [CHAR_E])
    ensures DecodeItems(data, offset, result) ==
      Done(Items(result + NormalTexts(texts)), offset + |EncodeTexts(texts)| + 1)
    decreases |texts|
  {
    hide DecodeValue, DecodeEntries, EncodeText;
    if texts == [] {
      HoldsSplit(data, offset, [], [CHAR_E]);
      HoldsByte(data, offset, [CHAR_E], 0);
      assert result + [] == result;
    } else {
      var head, rest := EncodeText(texts[0]), EncodeTexts(texts[1..]) + [CHAR_E];
      assert EncodeTexts(texts) + [CHAR_E] == head + rest;
      HoldsSplit(data, offset, head, rest);
      TextAt(texts[0], data, offset);
      TextsAt(texts[1..], data, offset + |head|, result + [Str(texts[0])]);
      assert result + [Str(texts[0])] + NormalTexts(texts[1..]) == result + NormalTexts(texts);
    }
  }

  lemma {:induction false} ValueAt(v: Value, data: Bytes, offset: nat)
    requires Encodable(v) && HoldsAt(data, offset, Encode(v))
    ensures DecodeValue(data, offset) == Done(Normal(v), offset + |Encode(v)|)
    ensures data[offset] != CHAR_E
    decreases v, 1
  {
    hide DecodeValue, DecodeItems, DecodeEntries, Overlay, EncodeItems, EncodeEntries, EncodeTexts;
    match v {
      case Text(text) => TextAt(text, data, offset);
      case Raw(raw) => TextAt(raw, data, offset);
      case Int(n) => IntAt(n, data, offset);
      case Bool(flag) => IntAt(if flag then 1 else 0, data, offset);
      case Texts(texts) =>
        BracketAt(CHAR_L, EncodeTexts(texts), data, offset);
        TextsAt(texts, data, offset + 1, []);
        assert [] + NormalTexts(texts) == NormalTexts(texts);
        Dispatch(data, offset);
      case List(items) =>
        BracketAt(CHAR_L, EncodeItems(items), data, offset);
        ItemsAt(items, data, offset + 1, []);
        assert [] + NormalItems(items) == NormalItems(items);
        Dispatch(data, offset);
      case Dict(entries) => DictAt(v, data, offset);
    }
  }

  lemma {:induction false} DictAt(v: Value, data: Bytes, offset: nat)
    requires v.Dict? && Encodable(v) && HoldsAt(data, offset, Encode(v))
    ensures DecodeValue(data, offset) == Done(Normal(v), offset + |Encode(v)|)
    ensures data[offset] == CHAR_D
    decreases v, 1, 0
  {
    hide DecodeValue, DecodeItems, DecodeEntries, Overlay, EncodeEntries;
    var keys := SortedKeys(v.entries.Keys);
    BracketAt(CHAR_D, EncodeEntries(keys, v), data, offset);
    EntriesAt(keys, v, data, offset + 1, map[]);
    OverlayIsNormal(keys, v);
    Dispatch(data, offset);
  }

  lemma BracketAt(open: Byte, body: Bytes, data: Bytes, offset: nat)
    requires HoldsAt(data, offset, [open] + body + [CHAR_E])
    ensures data[offset] == open && HoldsAt(data, offset + 1, body + [CHAR_E])
  {
    assert [open] + body + [CHAR_E] == [open] + (body + [CHAR_E]);
    HoldsSplit(data, offset, [open], body + [CHAR_E]);
    HoldsByte(data, offset, [open], 0);
  }

  lemma {:induction false} ItemsAt(items: seq<Value>, data: Bytes, offset: nat, result: seq<Decoded>)
    requires forall i :: 0 <= i < |items| ==> Encodable(items[i])
    requires HoldsAt(data, offset, EncodeItems(items) + [CHAR_E])
    ensures DecodeItems(data, offset, result) ==
      Done(Items(result + NormalItems(items)), offset + |EncodeItems(items)| + 1)
    decreases items, 0
  {
    hide DecodeValue, DecodeEntries, Encode, Normal;
    if items == [] {
      HoldsSplit(data, offset, [], [CHAR_E]);
      HoldsByte(data, offset, [CHAR_E], 0);
      assert result + [] == result;
    } else {
      var head, rest := Encode(items[0]), EncodeItems(items[1..]) + [CHAR_E];
      assert EncodeItems(items) + [CHAR_E] == head + rest;
      HoldsSplit(data, offset, head, rest);
      ValueAt(items[0], data, offset);
      ItemsAt(items[1..], data, offset + |head|, result + [Normal(items[0])]);
      assert result + [Normal(items[0])] + NormalItems(items[1..]) == result + NormalItems(items);
    }
  }

  /** The fields a dictionary read in this key order leaves on top of `result`. */
  function Overlay(result: map<GoBytes, Decoded>, keys: seq<GoBytes>, v: Value): map<GoBytes, Decoded>
    requires v.Dict? && Encodable(v) && forall k :: k in keys ==> k in v.entries
    decreases |keys|
  {
    if keys == [] then result else Overlay(result[keys[0] := Normal(v.entries[keys[0]])], keys[1..], v)
  }

  lemma {:induction false} OverlayContents(result: map<GoBytes, Decoded>, keys: seq<GoBytes>, v: Value)
    requires v.Dict? && Encodable(v) && forall k :: k in keys ==> k in v.entries
    ensures var o := Overlay(result, keys, v);
            && (forall k :: k in o <==> k in result || k in keys)
            && (forall k :: k in keys ==> o[k] == Normal(v.entries[k]))
            && (forall k :: k in result && k !in keys ==> o[k] == result[k])
    decreases |keys|
  {
    if keys != [] {
      OverlayContents(result[keys[0] := Normal(v.entries[keys[0]])], keys[1..], v);
      assert forall k :: k in keys <==> k == keys[0] || k in keys[1..];
    }
  }

  lemma OverlayIsNormal(keys: seq<GoBytes>, v: Value)
    requires v.Dict? && Encodable(v) && forall k :: k in keys <==> k in v.entries
    ensures Table(Overlay(map[], keys, v)) == Normal(v)
  {
    OverlayContents(map[], keys, v);
  }

  lemma {:induction false} EntriesAt(
      keys: seq<GoBytes>, v: Value, data: Bytes, offset: nat, result: map<GoBytes, Decoded>)
    requires v.Dict? && Encodable(v) && forall k :: k in keys ==> k in v.entries
    requires HoldsAt(data, offset, EncodeEntries(keys, v) + [CHAR_E])
    ensures DecodeEntries(data, offset, result) ==
      Done(Table(Overlay(result, keys, v)), offset + |EncodeEntries(keys, v)| + 1)
    decreases v, 0, |keys|, 1
  {
    hide DecodeValue, Normal, Encode;
    if keys == [] {
      HoldsSplit(data, offset, [], [CHAR_E]);
      HoldsByte(data, offset, [CHAR_E], 0);
    } else {
      EntryAt(keys, v, data, offset, result);
      var next := offset + |EncodeText(keys[0])| + |Encode(v.entries[keys[0]])|;
      EntriesAt(keys[1..], v, data, next, result[keys[0] := Normal(v.entries[keys[0]])]);
    }
  }

  /** Reading the first key and its value brings the loop to the rest of the dictionary. */
  lemma {:induction false} EntryAt(
      keys: seq<GoBytes>, v: Value, data: Bytes, offset: nat, result: map<GoBytes, Decoded>)
    requires v.Dict? && Encodable(v) && keys != [] && forall k :: k in keys ==> k in v.entries
    requires HoldsAt(data, offset, EncodeEntries(keys, v) + [CHAR_E])
    ensures var next := offset + |EncodeText(keys[0])| + |Encode(v.entries[keys[0]])|;
            && HoldsAt(data, next, EncodeEntries(keys[1..], v) + [CHAR_E])
            && DecodeEntries(data, offset, result)
                 == DecodeEntries(data, next, result[keys[0] := Normal(v.entries[keys[0]])])
    decreases v, 0, |keys|, 0
  {
    hide DecodeValue, DecodeItems, Encode, Normal;
    var key, value := EncodeText(keys[0]), Encode(v.entries[keys[0]]);
    SplitThree(data, offset, key, value, EncodeEntries(keys[1..], v), [CHAR_E]);
    TextAt(keys[0], data, offset);
    ValueAt(v.entries[keys[0]], data, offset + |key|);
    EntriesStep(data, offset, result, keys[0], offset + |key|, Normal(v.entries[keys[0]]), offset + |key| + |value|);
  }

  lemma SplitThree(data: Bytes, offset: nat, a: Bytes, b: Bytes, c: Bytes, d: Bytes)
    requires HoldsAt(data, offset, a + b + c + d)
    ensures HoldsAt(data, offset, a) && HoldsAt(data, offset + |a|, b) && HoldsAt(data, offset + |a| + |b|, c + d)
  {
    assert a + b + c + d == a + (b + (c + d));
    HoldsSplit(data, offset, a, b + (c + d));
    HoldsSplit(data, offset + |a|, b, c + d);
  }

  /** Decoding an encoding, wherever it stands in whatever buffer, returns the normalised value and
      the exact end. */
  lemma RoundTrip(v: Value, before: Bytes, after: Bytes)
    requires Encodable(v)
    ensures DecodeValue(before + Encode(v) + after, |before|) == Done(Normal(v), |before| + |Encode(v)|)
  {
    ValueAt(v, before + Encode(v) + after, |before|);
  }

  /** Two values with one encoding are indistinguishable to the reader. */
  lemma EncodingDeterminesValue(a: Value, b: Value)
    requires Encodable(a) && Encodable(b) && Encode(a) == Encode(b)
    ensures Normal(a) == Normal(b)
  {
    ValueAt(a, Encode(a), 0);
    ValueAt(b, Encode(b), 0);
  }

  // ---- the end of a string, in Go's arithmetic ----

  /** The colon and the length in front of a string, when the decoder gets that far. */
  predicate TextHeader(data: Bytes, offset: nat, start: nat, length: nat)
    requires offset < |data|
  {
    var colon := IndexByte(data, offset, CHAR_COLON);
    colon.Some? && colon.value > offset && start == colon.value + 1 &&
        ParseInt(data[offset..colon.value]) == Some(length)
  }

  /** With the sum computed as Go computes it, wrapping around: an end beyond the data is an error, an end
      before the start stops at the slice expression, anything else is the string. */
  lemma TextEndsAsInGo(data: GoBytes, offset: nat, start: nat, length: nat)
    requires offset < |data| && TextHeader(data, offset, start, length)
    ensures start <= |data| && length <= MAX_INT64
    ensures var end := WrappedSum(start, length);
            DecodeText(data, offset) ==
              if end > |data| then Fail else if end < start then OutOfRange else Done(Str(data[start..end]), end)
  {
  }

  /** A string is read exactly when there is a length and a colon in front of it, the length is no less than
      zero, and that many bytes follow. */
  lemma TextReadExactlyWhen(data: GoBytes, offset: nat, s: GoBytes, next: nat)
    requires offset < |data|
    ensures DecodeText(data, offset) == Done(Str(s), next) <==>
              exists start: nat, length: nat ::
                TextHeader(data, offset, start, length) && start + length == next && next <= |data|
                && s == data[start..next]
  {
    var colon := IndexByte(data, offset, CHAR_COLON);
    if DecodeText(data, offset) == Done(Str(s), next) {
      var start := colon.value + 1;
      assert TextHeader(data, offset, start, next - start);
    }
  }

  /** The decoder leaves its error path exactly when the length exceeds the largest int64 less the start. */
  lemma OutOfRangeExactlyWhen(data: GoBytes, offset: nat)
    requires offset < |data|
    ensures DecodeText(data, offset).OutOfRange? <==>
              exists start: nat, length: nat :: TextHeader(data, offset, start, length) && length > MAX_INT64 - start
  {
    if DecodeText(data, offset).OutOfRange? {
      var colon := IndexByte(data, offset, CHAR_COLON).value;
      assert TextHeader(data, offset, colon + 1, ParseInt(data[offset..colon]).value);
    }
  }

  // ---- decoded values are encodable again ----

  /** A decoded value as the Go value to encode it from. */
  function Revalue(d: Decoded): Value
    decreases d, 1
  {
    match d
    case Integer(n) => Int(n)
    case Str(s) => Text(s)
    case Items(elements) => List(RevalueItems(elements))
    case Table(fields) => Dict(map k | k in fields :: Revalue(fields[k]))
  }

  function RevalueItems(elements: seq<Decoded>): (items: seq<Value>)
    ensures |items| == |elements|
    decreases elements, 0
  {
    if elements == [] then [] else [Revalue(elements[0])] + RevalueItems(elements[1..])
  }

  /** Every decoded value is the normal form of something encodable, so it survives a further round trip. */
  lemma {:induction false} RevalueNormal(d: Decoded)
    ensures Encodable(Revalue(d)) && Normal(Revalue(d)) == d
    decreases d, 1
  {
    match d {
      case Integer(n) =>
      case Str(s) =>
      case Items(elements) => RevalueItemsNormal(elements);
      case Table(fields) =>
        forall k | k in fields ensures Encodable(Revalue(fields[k])) && Normal(Revalue(fields[k])) == fields[k] {
          RevalueNormal(fields[k]);
        }
        assert Normal(Revalue(d)).fields == fields;
    }
  }

  lemma {:induction false} RevalueItemsNormal(elements: seq<Decoded>)
    ensures var items := RevalueItems(elements);
            (forall i :: 0 <= i < |items| ==> Encodable(items[i])) && NormalItems(items) == elements
    decreases elements, 0
  {
    if elements != [] {
      RevalueNormal(elements[0]);
      RevalueItemsNormal(elements[1..]);
      assert RevalueItems(elements)[1..] == RevalueItems(elements[1..]);
    }
  }

  /** Encoding what a reader decoded from an encoding gives back the very bytes the encoder wrote. */
  lemma {:induction false} ReencodeGivesSameBytes(v: Value)
    requires Encodable(v)
    ensures Encodable(Revalue(Normal(v))) && Encode(Revalue(Normal(v))) == Encode(v)
    decreases v, 1
  {
    RevalueNormal(Normal(v));
    match v {
      case Texts(texts) => ReencodeTexts(texts);
      case List(items) => ReencodeItems(items);
      case Dict(entries) =>
        var again := Revalue(Normal(v));
        assert again.entries.Keys == entries.Keys;
        ReencodeEntries(SortedKeys(entries.Keys), v, again);
      case _ =>
    }
  }

  lemma {:induction false} ReencodeTexts(texts: seq<GoBytes>)
    ensures var items := RevalueItems(NormalTexts(texts));
            (forall i :: 0 <= i < |items| ==> Encodable(items[i])) && EncodeItems(items) == EncodeTexts(texts)
    decreases |texts|
  {
    RevalueItemsNormal(NormalTexts(texts));
    if texts != [] {
      ReencodeTexts(texts[1..]);
      assert NormalTexts(texts)[1..] == NormalTexts(texts[1..]);
      assert RevalueItems(NormalTexts(texts))[1..] == RevalueItems(NormalTexts(texts[1..]));
    }
  }

  lemma {:induction false} ReencodeItems(items: seq<Value>)
    requires forall i :: 0 <= i < |items| ==> Encodable(items[i])
    ensures var again := RevalueItems(NormalItems(items));
            (forall i :: 0 <= i < |again| ==> Encodable(again[i])) && EncodeItems(again) == EncodeItems(items)
    decreases items, 0
  {
    RevalueItemsNormal(NormalItems(items));
    if items != [] {
      ReencodeGivesSameBytes(items[0]);
      ReencodeItems(items[1..]);
      assert NormalItems(items)[1..] == NormalItems(items[1..]);
      assert RevalueItems(NormalItems(items))[1..] == RevalueItems(NormalItems(items[1..]));
    }
  }

  lemma {:induction false} ReencodeEntries(keys: seq<GoBytes>, v: Value, again: Value)
    requires v.Dict? && Encodable(v) && again == Revalue(Normal(v)) && Encodable(again)
    requires forall k :: k in keys ==> k in v.entries
    ensures (forall k :: k in keys ==> k in again.entries) && EncodeEntries(keys, again) == EncodeEntries(keys, v)
    decreases v, 0, |keys|
  {
    if keys != [] {
      ReencodeGivesSameBytes(v.entries[keys[0]]);
      ReencodeEntries(keys[1..], v, again);
    }
  }

  // ---- locality ----

  /** The bytes from `o1` up to `next` in one buffer stand at `o2` in the other. */
  ghost predicate SameBytes(d1: Bytes, o1: nat, next: nat, d2: Bytes, o2: nat) {
    o1 <= next <= |d1| && o2 + (next - o1) <= |d2| && d1[o1..next] == d2[o2..o2 + (next - o1)]
  }

  lemma SameByte(d1: Bytes, o1: nat, next: nat, d2: Bytes, o2: nat, i: nat)
    requires SameBytes(d1, o1, next, d2, o2) && o1 <= i < next
    ensures d1[i] == d2[i - o1 + o2]
  {
    assert d1[o1..next][i - o1] == d2[o2..o2 + (next - o1)][i - o1];
  }

  lemma SameBytesPart(d1: Bytes, o1: nat, next: nat, d2: Bytes, o2: nat, from: nat, to: nat)
    requires SameBytes(d1, o1, next, d2, o2) && o1 <= from <= to <= next
    ensures SameBytes(d1, from, to, d2, from - o1 + o2)
    ensures d1[from..to] == d2[from - o1 + o2..to - o1 + o2]
  {
    forall i | from <= i < to ensures d1[i] == d2[i - o1 + o2] {
      SameByte(d1, o1, next, d2, o2, i);
    }
  }

  lemma IndexByteLocal(d1: Bytes, o1: nat, next: nat, d2: Bytes, o2: nat, from: nat, b: Byte)
    requires SameBytes(d1, o1, next, d2, o2) && o1 <= from
    requires var at := IndexByte(d1, from, b); at.Some? && at.value < next
    ensures IndexByte(d2, from - o1 + o2, b) == Some(IndexByte(d1, from, b).value - o1 + o2)
  {
    var at := IndexByte(d1, from, b).value;
    SameByte(d1, o1, next, d2, o2, at);
    forall i | from - o1 + o2 <= i < at - o1 + o2 ensures d2[i] != b {
      SameByte(d1, o1, next, d2, o2, i - o2 + o1);
    }
    IndexByteIs(d2, from - o1 + o2, b, at - o1 + o2);
  }

  function Shift(r: Parse, from: nat, to: nat): Parse
    requires r.Done? && from <= r.next
  {
    Done(r.value, r.next - from + to)
  }

  lemma DecodeIntAt(data: Bytes, offset: nat, end: nat)
    requires offset < end < |data| && IndexByte(data, offset + 1, CHAR_E) == Some(end)
    ensures var n := ParseInt(data[offset + 1..end]);
            DecodeInt(data, offset) == if n.None? then Fail else Done(Integer(n.value), end + 1)
  {
  }

  lemma IntLocal(d1: Bytes, o1: nat, d2: Bytes, o2: nat)
    requires o1 < |d1|
    requires var r := DecodeInt(d1, o1); r.Done? && SameBytes(d1, o1, r.next, d2, o2)
    ensures DecodeInt(d2, o2) == Shift(DecodeInt(d1, o1), o1, o2)
  {
    hide ParseInt;
    var end := IndexByte(d1, o1 + 1, CHAR_E).value;
    IndexByteLocal(d1, o1, end + 1, d2, o2, o1 + 1, CHAR_E);
    SameBytesPart(d1, o1, end + 1, d2, o2, o1 + 1, end);
    DecodeIntAt(d1, o1, end);
    DecodeIntAt(d2, o2, end - o1 + o2);
  }

  lemma TextLocal(d1: Bytes, o1: nat, d2: Bytes, o2: nat)
    requires o1 < |d1|
    requires var r := DecodeText(d1, o1); r.Done? && SameBytes(d1, o1, r.next, d2, o2)
    ensures DecodeText(d2, o2) == Shift(DecodeText(d1, o1), o1, o2)
  {
    hide ParseInt;
    var next := DecodeText(d1, o1).next;
    IndexByteLocal(d1, o1, next, d2, o2, o1, CHAR_COLON);
    var colon := IndexByte(d1, o1, CHAR_COLON).value;
    SameBytesPart(d1, o1, next, d2, o2, o1, colon);
    SameBytesPart(d1, o1, next, d2, o2, colon + 1, next);
  }

  /** A successful decodeValue depends only on the bytes it consumed. */
  lemma {:induction false} ValueLocal(d1: Bytes, o1: nat, d2: Bytes, o2: nat)
    requires var r := DecodeValue(d1, o1); r.Done? && SameBytes(d1, o1, r.next, d2, o2)
    ensures DecodeValue(d2, o2) == Shift(DecodeValue(d1, o1), o1, o2)
    decreases |d1| - o1, 0
  {
    var next := DecodeValue(d1, o1).next;
    SameByte(d1, o1, next, d2, o2, o1);
    Dispatch(d1, o1);
    Dispatch(d2, o2);
    SameBytesPart(d1, o1, next, d2, o2, o1 + 1, next);
    if d1[o1] == CHAR_D {
      EntriesLocal(d1, o1 + 1, d2, o2 + 1, map[]);
    } else if d1[o1] == CHAR_L {
      ItemsLocal(d1, o1 + 1, d2, o2 + 1, []);
    } else if d1[o1] == CHAR_I {
      IntLocal(d1, o1, d2, o2);
    } else {
      TextLocal(d1, o1, d2, o2);
    }
  }

  lemma {:induction false} ItemsLocal(d1: Bytes, o1: nat, d2: Bytes, o2: nat, result: seq<Decoded>)
    requires var r := DecodeItems(d1, o1, result); r.Done? && SameBytes(d1, o1, r.next, d2, o2)
    ensures DecodeItems(d2, o2, result) == Shift(DecodeItems(d1, o1, result), o1, o2)
    decreases |d1| - o1, 1
  {
    hide DecodeValue, DecodeEntries;
    var end := DecodeItems(d1, o1, result).next;
    SameByte(d1, o1, end, d2, o2, o1);
    if d1[o1] != CHAR_E {
      var item := DecodeValue(d1, o1);
      SameBytesPart(d1, o1, end, d2, o2, o1, item.next);
      SameBytesPart(d1, o1, end, d2, o2, item.next, end);
      ValueLocal(d1, o1, d2, o2);
      ItemsLocal(d1, item.next, d2, item.next - o1 + o2, result + [item.value]);
      ItemsStep(d1, o1, result, item.value, item.next);
      ItemsStep(d2, o2, result, item.value, item.next - o1 + o2);
    }
  }

  lemma {:induction false} EntriesLocal(d1: Bytes, o1: nat, d2: Bytes, o2: nat, result: map<GoBytes, Decoded>)
    requires var r := DecodeEntries(d1, o1, result); r.Done? && SameBytes(d1, o1, r.next, d2, o2)
    ensures DecodeEntries(d2, o2, result) == Shift(DecodeEntries(d1, o1, result), o1, o2)
    decreases |d1| - o1, 1
  {
    hide DecodeValue, DecodeItems;
    var end := DecodeEntries(d1, o1, result).next;
    SameByte(d1, o1, end, d2, o2, o1);
    if d1[o1] != CHAR_E {
      var key := DecodeValue(d1, o1);
      var value := DecodeValue(d1, key.next);
      SameBytesPart(d1, o1, end, d2, o2, o1, key.next);
      SameBytesPart(d1, o1, end, d2, o2, key.next, value.next);
      SameBytesPart(d1, o1, end, d2, o2, value.next, end);
      var k2, n2 := key.next - o1 + o2, value.next - o1 + o2;
      ValueLocal(d1, o1, d2, o2);
      ValueLocal(d1, key.next, d2, k2);
      EntriesLocal(d1, value.next, d2, n2, result[key.value.s := value.value]);
      EntriesStep(d1, o1, result, key.value.s, key.next, value.value, value.next);
      EntriesStep(d2, o2, result, key.value.s, k2, value.value, n2);
    }
  }

  /** No accepted encoding, canonical or not, is a proper prefix of another. */
  lemma PrefixFree(a: Bytes, b: Bytes)
    requires DecodeValue(a, 0).Done? && DecodeValue(a, 0).next == |a|
    requires DecodeValue(b, 0).Done? && DecodeValue(b, 0).next == |b|
    requires a <= b
    ensures a == b
  {
    assert a[0..|a|] == a;
    ValueLocal(a, 0, b, 0);
  }
}
