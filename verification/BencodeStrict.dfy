/** Where the decoder is lenient. BEP 3, section "bencoding", has one encoding for each value: numbers in
    their shortest form and dictionary keys in increasing order. The decoder accepts more, and what it
    accepts can be encoded back to the same bytes exactly when it is in that form. */
module BencodeStrict {
  import opened Basics
  import opened Decimal
  import opened Bencode
  import opened BencodeProofs

  predicate StrictInt(data: Bytes, offset: nat)
    requires offset < |data|
  {
    var end := IndexByte(data, offset + 1, CHAR_E);
    && end.Some?
    && var n := ParseInt(data[offset + 1..end.value]);
       n.Some? && data[offset + 1..end.value] == Print(n.value)
  }

  predicate StrictText(data: Bytes, offset: nat)
    requires offset < |data|
  {
    var colon := IndexByte(data, offset, CHAR_COLON);
    && colon.Some?
    && var length := ParseInt(data[offset..colon.value]);
       length.Some? && data[offset..colon.value] == Print(length.value)
  }

  /** The value at the offset is written as BEP 3 has it. */
  predicate Strict(data: Bytes, offset: nat)
    decreases |data| - offset, 0
  {
    && offset < |data|
    && if data[offset] == CHAR_D then StrictEntries(data, offset + 1, None)
       else if data[offset] == CHAR_L then StrictItems(data, offset + 1)
       else if data[offset] == CHAR_I then StrictInt(data, offset)
       else StrictText(data, offset)
  }

  predicate StrictItems(data: Bytes, offset: nat)
    decreases |data| - offset, 1
  {
    && offset < |data|
    && (data[offset] == CHAR_E
        || (&& DecodeValue(data, offset).Done? && Strict(data, offset)
            && StrictItems(data, DecodeValue(data, offset).next)))
  }

  /** Each key comes after the one before it. */
  predicate StrictEntries(data: Bytes, offset: nat, last: Option<GoBytes>)
    decreases |data| - offset, 1
  {
    && offset < |data|
    && (data[offset] == CHAR_E
        || (var key := DecodeValue(data, offset);
            && key.Done? && key.value.Str? && Strict(data, offset)
            && (last.Some? ==> Less(last.value, key.value.s))
            && var value := DecodeValue(data, key.next);
               value.Done? && Strict(data, key.next) && StrictEntries(data, value.next, Some(key.value.s))))
  }

  // ---- strict text is the encoding of what it decodes to ----

  lemma StrictIntEncodes(data: Bytes, offset: nat)
    requires offset < |data| && data[offset] == CHAR_I && StrictInt(data, offset) && DecodeInt(data, offset).Done?
    ensures var r := DecodeInt(data, offset); r.value.Integer? && data[offset..r.next] == EncodeInt(r.value.n)
  {
    hide ParseInt, Print;
    var end := IndexByte(data, offset + 1, CHAR_E).value;
    assert data[offset..end + 1] == [CHAR_I] + data[offset + 1..end] + [CHAR_E];
  }

  lemma StrictTextEncodes(data: Bytes, offset: nat)
    requires offset < |data| && StrictText(data, offset) && DecodeText(data, offset).Done?
    ensures var r := DecodeText(data, offset); r.value.Str? && data[offset..r.next] == EncodeText(r.value.s)
  {
    hide ParseInt, Print;
    var colon := IndexByte(data, offset, CHAR_COLON).value;
    var next := DecodeText(data, offset).next;
    assert data[offset..next] == data[offset..colon] + [CHAR_COLON] + data[colon + 1..next];
  }

  lemma {:induction false} StrictEncodes(data: Bytes, offset: nat)
    requires Strict(data, offset) && DecodeValue(data, offset).Done?
    ensures var r := DecodeValue(data, offset);
            Encodable(Revalue(r.value)) && data[offset..r.next] == Encode(Revalue(r.value))
    decreases |data| - offset, 0
  {
    hide DecodeValue, DecodeItems, DecodeEntries, DecodeText, DecodeInt, StrictItems, StrictEntries, EncodeText,
        EncodeInt;
    var r := DecodeValue(data, offset);
    RevalueNormal(r.value);
    Dispatch(data, offset);
    if data[offset] == CHAR_D {
      var keys := StrictEntriesEncode(data, offset + 1, map[], None);
      var v := Revalue(r.value);
      SortedUnique(keys, SortedKeys(v.entries.Keys));
      Bracketed(data, offset, r.next, EncodeEntries(keys, v));
    } else if data[offset] == CHAR_L {
      var elements := StrictItemsEncode(data, offset + 1, []);
      assert [] + elements == elements;
      Bracketed(data, offset, r.next, EncodeItems(RevalueItems(elements)));
    } else if data[offset] == CHAR_I {
      StrictIntEncodes(data, offset);
    } else {
      StrictTextEncodes(data, offset);
    }
  }

  lemma Bracketed(data: Bytes, offset: nat, next: nat, body: Bytes)
    requires offset < next <= |data| && data[offset + 1..next] == body + [CHAR_E]
    ensures data[offset..next] == [data[offset]] + body + [CHAR_E]
  {
    assert data[offset..next] == [data[offset]] + data[offset + 1..next];
  }

  lemma {:induction false} StrictItemsEncode(data: Bytes, offset: nat, result: seq<Decoded>)
    returns (elements: seq<Decoded>)
    requires StrictItems(data, offset) && DecodeItems(data, offset, result).Done?
    ensures var r := DecodeItems(data, offset, result);
            && r.value == Items(result + elements)
            && (forall i :: 0 <= i < |RevalueItems(elements)| ==> Encodable(RevalueItems(elements)[i]))
            && data[offset..r.next] == EncodeItems(RevalueItems(elements)) + [CHAR_E]
    decreases |data| - offset, 1
  {
    hide DecodeValue, DecodeEntries, Strict, Encode;
    var end := DecodeItems(data, offset, result).next;
    if data[offset] == CHAR_E {
      elements := [];
      assert result + [] == result && data[offset..end] == [CHAR_E];
    } else {
      var item := DecodeValue(data, offset);
      StrictEncodes(data, offset);
      var rest := StrictItemsEncode(data, item.next, result + [item.value]);
      elements := [item.value] + rest;
      assert result + [item.value] + rest == result + elements;
      assert elements[1..] == rest && RevalueItems(elements)[1..] == RevalueItems(rest);
      RevalueItemsNormal(elements);
      Joined(data, offset, item.next, end, Encode(Revalue(item.value)), EncodeItems(RevalueItems(rest)));
    }
  }

  lemma Joined(data: Bytes, offset: nat, middle: nat, next: nat, head: Bytes, rest: Bytes)
    requires offset <= middle <= next <= |data|
    requires data[offset..middle] == head && data[middle..next] == rest + [CHAR_E]
    ensures data[offset..next] == head + rest + [CHAR_E]
  {
    assert data[offset..next] == data[offset..middle] + data[middle..next];
    assert head + (rest + [CHAR_E]) == head + rest + [CHAR_E];
  }

  /** What the keys read so far have to do with the last of them. */
  ghost predicate UpTo(result: map<GoBytes, Decoded>, last: Option<GoBytes>) {
    forall k :: k in result ==> last.Some? && (k == last.value || Less(k, last.value))
  }

  ghost predicate Above(keys: seq<GoBytes>, last: Option<GoBytes>) {
    last.Some? ==> forall k :: k in keys ==> Less(last.value, k)
  }

  lemma Extend(result: map<GoBytes, Decoded>, last: Option<GoBytes>, key: GoBytes, value: Decoded, rest: seq<GoBytes>)
    requires UpTo(result, last) && (last.Some? ==> Less(last.value, key))
    requires Sorted(rest) && Above(rest, Some(key))
    ensures UpTo(result[key := value], Some(key)) && key !in result
    ensures Sorted([key] + rest) && Above([key] + rest, last)
  {
    forall k | k in result ensures k == key || Less(k, key) {
      if last.Some? && k != last.value { LessTransitive(k, last.value, key); }
    }
    if key in result { LessTotal(key, last.value); }
    if last.Some? {
      forall k | k in [key] + rest ensures Less(last.value, k) {
        if k != key { LessTransitive(last.value, key, k); }
      }
    }
  }

  lemma {:induction false} StrictEntriesEncode(
      data: Bytes, offset: nat, result: map<GoBytes, Decoded>, last: Option<GoBytes>)
    returns (keys: seq<GoBytes>)
    requires StrictEntries(data, offset, last) && UpTo(result, last) && DecodeEntries(data, offset, result).Done?
    ensures var r := DecodeEntries(data, offset, result);
            && Sorted(keys) && Above(keys, last)
            && r.value.Table?
            && (forall k :: k in r.value.fields <==> k in result || k in keys)
            && (forall k :: k in result ==> r.value.fields[k] == result[k])
            && Encodable(Revalue(r.value))
            && data[offset..r.next] == EncodeEntries(keys, Revalue(r.value)) + [CHAR_E]
    decreases |data| - offset, 2
  {
    hide DecodeValue, DecodeItems, Strict, Encode;
    var r := DecodeEntries(data, offset, result);
    RevalueNormal(r.value);
    if data[offset] == CHAR_E {
      keys := [];
      assert data[offset..r.next] == [CHAR_E];
    } else {
      keys := StrictEntryEncodes(data, offset, result, last);
    }
  }

  lemma {:induction false} StrictEntryEncodes(
      data: Bytes, offset: nat, result: map<GoBytes, Decoded>, last: Option<GoBytes>)
    returns (keys: seq<GoBytes>)
    requires StrictEntries(data, offset, last) && UpTo(result, last) && DecodeEntries(data, offset, result).Done?
    requires data[offset] != CHAR_E
    ensures var r := DecodeEntries(data, offset, result);
            && Sorted(keys) && Above(keys, last)
            && r.value.Table?
            && (forall k :: k in r.value.fields <==> k in result || k in keys)
            && (forall k :: k in result ==> r.value.fields[k] == result[k])
            && Encodable(Revalue(r.value))
            && data[offset..r.next] == EncodeEntries(keys, Revalue(r.value)) + [CHAR_E]
    decreases |data| - offset, 1
  {
    hide DecodeValue, DecodeItems, Strict, StrictItems, Encode, EncodeText, Sorted, Above, UpTo;
    var key := DecodeValue(data, offset);
    var value := DecodeValue(data, key.next);
    var k := key.value.s;
    assert UpTo(result[k := value.value], Some(k)) && k !in result by {
      Extend(result, last, k, value.value, []) by { NothingAbove(k); }
    }
    EntriesStep(data, offset, result, k, key.next, value.value, value.next);
    var rest := StrictEntriesEncode(data, value.next, result[k := value.value], Some(k));
    Extend(result, last, k, value.value, rest);
    keys := [k] + rest;
    var r := DecodeEntries(data, offset, result);
    assert keys[1..] == rest;
    StrictEncodes(data, offset);
    StrictEncodes(data, key.next);
    TextEncodes(k);
    var v := Revalue(r.value);
    Joined(data, key.next, value.next, r.next, Encode(v.entries[k]), EncodeEntries(rest, v));
    Joined(data, offset, key.next, r.next, EncodeText(k), Encode(v.entries[k]) + EncodeEntries(rest, v));
    assert EncodeText(k) + (Encode(v.entries[k]) + EncodeEntries(rest, v))
        == EncodeText(k) + Encode(v.entries[k]) + EncodeEntries(rest, v);
  }

  lemma TextEncodes(s: GoBytes)
    ensures Encode(Revalue(Str(s))) == EncodeText(s)
  {
  }

  lemma NothingAbove(k: GoBytes)
    ensures Sorted([]) && Above([], Some(k))
  {
  }

  // ---- every encoding is strict ----

  lemma IntIsStrict(n: Int64, data: Bytes, offset: nat)
    requires HoldsAt(data, offset, EncodeInt(n))
    ensures Strict(data, offset)
  {
    hide Print, ParseInt;
    ParsePrint(n);
    HoldsSplit(data, offset, [CHAR_I] + Print(n), [CHAR_E]);
    HoldsSplit(data, offset, [CHAR_I], Print(n));
    DecodeIntIs(Print(n), n, data, offset);
    var end := offset + 1 + |Print(n)|;
    forall i | offset + 1 <= i < end ensures data[i] == Print(n)[i - offset - 1] {
      HoldsByte(data, offset + 1, Print(n), i - offset - 1);
    }
    HoldsByte(data, end, [CHAR_E], 0);
    IndexByteIs(data, offset + 1, CHAR_E, end);
  }

  lemma TextIsStrict(s: GoBytes, data: Bytes, offset: nat)
    requires HoldsAt(data, offset, EncodeText(s))
    ensures Strict(data, offset)
  {
    hide Print, ParseInt;
    ParsePrint(|s|);
    var length := Print(|s|);
    HoldsSplit(data, offset, length + [CHAR_COLON], s);
    DecodeTextIs(length, s, data, offset);
    HoldsSplit(data, offset, length, [CHAR_COLON]);
    var colon := offset + |length|;
    forall i | offset <= i < colon ensures data[i] == length[i - offset] {
      HoldsByte(data, offset, length, i - offset);
    }
    HoldsByte(data, colon, [CHAR_COLON], 0);
    IndexByteIs(data, offset, CHAR_COLON, colon);
  }

  lemma {:induction false} EncodingIsStrict(v: Value, data: Bytes, offset: nat)
    requires Encodable(v) && HoldsAt(data, offset, Encode(v))
    ensures Strict(data, offset)
    decreases v, 1
  {
    hide StrictItems, StrictEntries, EncodeText, EncodeInt, EncodeItems, EncodeTexts, EncodeEntries;
    match v {
      case Text(text) => TextIsStrict(text, data, offset);
      case Raw(raw) => TextIsStrict(raw, data, offset);
      case Int(n) => IntIsStrict(n, data, offset);
      case Bool(flag) => IntIsStrict(if flag then 1 else 0, data, offset);
      case Texts(texts) =>
        BracketAt(CHAR_L, EncodeTexts(texts), data, offset);
        TextsAreStrict(texts, data, offset + 1);
      case List(items) =>
        BracketAt(CHAR_L, EncodeItems(items), data, offset);
        ItemsAreStrict(items, data, offset + 1);
      case Dict(entries) =>
        var keys := SortedKeys(entries.Keys);
        BracketAt(CHAR_D, EncodeEntries(keys, v), data, offset);
        EntriesAreStrict(keys, v, data, offset + 1, None);
    }
  }

  lemma {:induction false} TextsAreStrict(texts: seq<GoBytes>, data: Bytes, offset: nat)
    requires HoldsAt(data, offset, EncodeTexts(texts) + [CHAR_E])
    ensures StrictItems(data, offset)
    decreases |texts|
  {
    hide Strict, DecodeValue, EncodeText;
    if texts == [] {
      HoldsByte(data, offset, [] + [CHAR_E], 0);
    } else {
      var head, rest := EncodeText(texts[0]), EncodeTexts(texts[1..]) + [CHAR_E];
      assert EncodeTexts(texts) + [CHAR_E] == head + rest;
      HoldsSplit(data, offset, head, rest);
      TextAt(texts[0], data, offset);
      TextIsStrict(texts[0], data, offset);
      TextsAreStrict(texts[1..], data, offset + |head|);
    }
  }

  lemma {:induction false} ItemsAreStrict(items: seq<Value>, data: Bytes, offset: nat)
    requires forall i :: 0 <= i < |items| ==> Encodable(items[i])
    requires HoldsAt(data, offset, EncodeItems(items) + [CHAR_E])
    ensures StrictItems(data, offset)
    decreases items, 0
  {
    hide Strict, DecodeValue, Encode;
    if items == [] {
      HoldsByte(data, offset, [] + [CHAR_E], 0);
    } else {
      var head, rest := Encode(items[0]), EncodeItems(items[1..]) + [CHAR_E];
      assert EncodeItems(items) + [CHAR_E] == head + rest;
      HoldsSplit(data, offset, head, rest);
      ValueAt(items[0], data, offset);
      EncodingIsStrict(items[0], data, offset);
      ItemsAreStrict(items[1..], data, offset + |head|);
    }
  }

  lemma {:induction false} EntriesAreStrict(
      keys: seq<GoBytes>, v: Value, data: Bytes, offset: nat, last: Option<GoBytes>)
    requires v.Dict? && Encodable(v) && forall k :: k in keys ==> k in v.entries
    requires Sorted(keys) && Above(keys, last)
    requires HoldsAt(data, offset, EncodeEntries(keys, v) + [CHAR_E])
    ensures StrictEntries(data, offset, last)
    decreases v, 0, |keys|
  {
    hide Strict, DecodeValue, Encode, EncodeText;
    if keys == [] {
      HoldsByte(data, offset, [] + [CHAR_E], 0);
    } else {
      var key, value := EncodeText(keys[0]), Encode(v.entries[keys[0]]);
      SplitThree(data, offset, key, value, EncodeEntries(keys[1..], v), [CHAR_E]);
      TextAt(keys[0], data, offset);
      TextIsStrict(keys[0], data, offset);
      ValueAt(v.entries[keys[0]], data, offset + |key|);
      EncodingIsStrict(v.entries[keys[0]], data, offset + |key|);
      EntriesAreStrict(keys[1..], v, data, offset + |key| + |value|, Some(keys[0]));
    }
  }

  // ---- exactly ----

  /** Wherever a value was accepted, encoding it again gives the bytes it was read from exactly when they
      are in BEP 3's form. */
  lemma ReencodesExactlyWhenStrict(data: Bytes, offset: nat)
    requires DecodeValue(data, offset).Done?
    ensures var r := DecodeValue(data, offset);
            && Encodable(Revalue(r.value))
            && (Encode(Revalue(r.value)) == data[offset..r.next] <==> Strict(data, offset))
  {
    hide Strict, DecodeValue, Encode, Revalue;
    var r := DecodeValue(data, offset);
    RevalueNormal(r.value);
    if Strict(data, offset) {
      StrictEncodes(data, offset);
    } else if Encode(Revalue(r.value)) == data[offset..r.next] {
      EncodingIsStrict(Revalue(r.value), data, offset);
    }
  }

  /** So two accepted inputs in that form are equal when their values are: the form is one per value. */
  lemma StrictIsUnique(a: Bytes, b: Bytes)
    requires DecodeValue(a, 0).Done? && DecodeValue(a, 0).next == |a| && Strict(a, 0)
    requires DecodeValue(b, 0).Done? && DecodeValue(b, 0).next == |b| && Strict(b, 0)
    ensures DecodeValue(a, 0).value == DecodeValue(b, 0).value <==> a == b
  {
    hide Strict, DecodeValue, Encode, Revalue;
    ReencodesExactlyWhenStrict(a, 0);
    ReencodesExactlyWhenStrict(b, 0);
    assert a[0..|a|] == a && b[0..|b|] == b;
  }

  /** The leniency is real: a number with leading zeros is accepted, and is not in that form. */
  lemma LeadingZerosAccepted()
    ensures var data: Bytes := [CHAR_I, ZERO, ZERO, ZERO + 7, CHAR_E];
            DecodeValue(data, 0) == Done(Integer(7), 5) && !Strict(data, 0)
  {
    var data: Bytes := [CHAR_I, ZERO, ZERO, ZERO + 7, CHAR_E];
    var digits: Bytes := [ZERO, ZERO, ZERO + 7];
    IndexByteIs(data, 1, CHAR_E, 4);
    assert data[1..4] == digits;
    var two: Bytes := [ZERO, ZERO];
    var one: Bytes := [ZERO];
    assert digits[..2] == two && two[..1] == one && one[..0] == [];
    assert NatValue(one) == 0;
    assert NatValue(two) == 10 * NatValue(one);
    assert NatValue(digits) == 10 * NatValue(two) + 7;
    assert ParseInt(digits) == Some(7);
    assert Print(7) == [ZERO + 7];
  }
}
