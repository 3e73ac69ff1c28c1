/** encodeValue and decodeValue as they run: writing into a buffer, looping over lists, sorted
    dictionary keys and the bytes of a packet. Both are proved against the functions of Bencode. */
module BencodeCodec {
  import opened Decimal
  import opened Bencode

  class Buffer {
    var contents: Bytes

    constructor ()
      ensures contents == []
    {
      contents := [];
    }

    method Write(part: Bytes)
      modifies this
      ensures contents == old(contents) + part
    {
      contents := contents + part;
    }
  }

  /** sort.Strings on distinct keys: the result does not depend on the order they came in. */
  method SortStrings(keys: seq<GoBytes>) returns (sorted: seq<GoBytes>)
    requires forall i, j :: 0 <= i < j < |keys| ==> keys[i] != keys[j]
    ensures sorted == SortedKeys(set k: GoBytes | k in keys)
  {
    sorted := [];
    for n := 0 to |keys|
      invariant Sorted(sorted)
      invariant forall k :: k in sorted <==> k in keys[..n]
    {
      var at := 0;
      while at < |sorted| && Less(sorted[at], keys[n])
        invariant 0 <= at <= |sorted|
        invariant forall i :: 0 <= i < at ==> Less(sorted[i], keys[n])
      {
        at := at + 1;
      }
      assert keys[n] !in keys[..n];
      InsertSorted(sorted, at, keys[n]);
      assert keys[..n + 1] == keys[..n] + [keys[n]];
      sorted := sorted[..at] + [keys[n]] + sorted[at..];
    }
    assert keys[..|keys|] == keys;
    SortedUnique(sorted, SortedKeys(set k: GoBytes | k in keys));
  }

  lemma InsertSorted(sorted: seq<GoBytes>, at: nat, key: GoBytes)
    requires Sorted(sorted) && at <= |sorted| && key !in sorted
    requires forall i :: 0 <= i < at ==> Less(sorted[i], key)
    requires at < |sorted| ==> !Less(sorted[at], key)
    ensures var r := sorted[..at] + [key] + sorted[at..];
            Sorted(r) && forall k :: k in r <==> k in sorted || k == key
  {
    hide Less;
    var r := sorted[..at] + [key] + sorted[at..];
    forall i | at <= i < |sorted| ensures Less(key, sorted[i]) {
      LessTotal(key, sorted[at]);
      if at < i { LessTransitive(key, sorted[at], sorted[i]); }
    }
    SplicedMembers(sorted, at, key);
  }

  lemma SplicedMembers(keys: seq<GoBytes>, at: nat, key: GoBytes)
    requires at <= |keys|
    ensures forall k :: k in keys[..at] + [key] + keys[at..] <==> k in keys || k == key
  {
    assert keys == keys[..at] + keys[at..];
    forall k ensures k in keys[..at] + [key] + keys[at..] <==> k in keys || k == key {
      if k in keys { assert k in keys[..at] || k in keys[at..]; }
    }
  }

  /** encodeValue. On an unsupported value it stops, leaving what it wrote so far. */
  method EncodeValue(buf: Buffer, v: Value) returns (ok: bool)
    modifies buf
    ensures ok <==> Encodable(v)
    ensures ok ==> buf.contents == old(buf.contents) + Encode(v)
    ensures !ok ==> old(buf.contents) <= buf.contents
    decreases v, 1
  {
    match v
    case Text(text) => buf.Write(EncodeText(text)); return true;
    case Raw(raw) => buf.Write(Print(|raw|) + [CHAR_COLON]); buf.Write(raw); return true;
    case Int(n) => buf.Write(EncodeInt(n)); return true;
    case Bool(flag) =>
      if flag { buf.Write([CHAR_I, ZERO + 1, CHAR_E]); } else { buf.Write([CHAR_I, ZERO, CHAR_E]); }
      return true;
    case Texts(texts) => EncodeTextsLoop(buf, texts); return true;
    case List(items) => ok := EncodeListLoop(buf, v);
    case Dict(entries) => ok := EncodeDictLoop(buf, v);
    case Unsupported => return false;
  }

  /** Moving the next part from what is to be written to what is written. */
  lemma Advance(written: Bytes, part: Bytes, rest: Bytes, whole: Bytes)
    requires written + (part + rest) == whole
    ensures (written + part) + rest == whole
  {
  }

  lemma Close(before: Bytes, open: Bytes, body: Bytes)
    ensures (before + open + body) + [CHAR_E] == before + (open + body + [CHAR_E])
  {
  }

  method EncodeTextsLoop(buf: Buffer, texts: seq<GoBytes>)
    modifies buf
    ensures buf.contents == old(buf.contents) + ([CHAR_L] + EncodeTexts(texts) + [CHAR_E])
  {
    buf.Write([CHAR_L]);
    ghost var whole := buf.contents + EncodeTexts(texts);
    for i := 0 to |texts|
      invariant buf.contents + EncodeTexts(texts[i..]) == whole
    {
      assert texts[i..][1..] == texts[i + 1..];
      Advance(buf.contents, EncodeText(texts[i]), EncodeTexts(texts[i + 1..]), whole);
      buf.Write(EncodeText(texts[i]));
    }
    assert buf.contents + [] == buf.contents;
    Close(old(buf.contents), [CHAR_L], EncodeTexts(texts));
    buf.Write([CHAR_E]);
  }

  lemma ItemsFrom(items: seq<Value>, i: nat)
    requires i < |items| && forall j :: 0 <= j < |items| ==> Encodable(items[j])
    ensures EncodeItems(items[i..]) == Encode(items[i]) + EncodeItems(items[i + 1..])
  {
    assert items[i..][1..] == items[i + 1..];
  }

  method EncodeListLoop(buf: Buffer, v: Value) returns (ok: bool)
    requires v.List?
    modifies buf
    ensures ok <==> Encodable(v)
    ensures ok ==> buf.contents == old(buf.contents) + Encode(v)
    ensures !ok ==> old(buf.contents) <= buf.contents
    decreases v, 0
  {
    var items := v.items;
    buf.Write([CHAR_L]);
    ghost var whole := if Encodable(v) then buf.contents + EncodeItems(items) else [];
    for i := 0 to |items|
      invariant old(buf.contents) <= buf.contents
      invariant forall j :: 0 <= j < i ==> Encodable(items[j])
      invariant Encodable(v) ==> buf.contents + EncodeItems(items[i..]) == whole
    {
      if Encodable(v) {
        ItemsFrom(items, i);
        Advance(buf.contents, Encode(items[i]), EncodeItems(items[i + 1..]), whole);
      }
      var done := EncodeValue(buf, items[i]);
      if !done { return false; }
    }
    assert buf.contents + [] == buf.contents;
    Close(old(buf.contents), [CHAR_L], EncodeItems(items));
    buf.Write([CHAR_E]);
    return true;
  }

  lemma EntriesFrom(keys: seq<GoBytes>, v: Value, i: nat)
    requires v.Dict? && Encodable(v) && i < |keys| && forall k :: k in keys ==> k in v.entries
    ensures EncodeEntries(keys[i..], v)
         == EncodeText(keys[i]) + (Encode(v.entries[keys[i]]) + EncodeEntries(keys[i + 1..], v))
  {
    assert keys[i..][0] == keys[i] && keys[i..][1..] == keys[i + 1..];
  }

  method EncodeDictLoop(buf: Buffer, v: Value) returns (ok: bool)
    requires v.Dict?
    modifies buf
    ensures ok <==> Encodable(v)
    ensures ok ==> buf.contents == old(buf.contents) + Encode(v)
    ensures !ok ==> old(buf.contents) <= buf.contents
    decreases v, 0
  {
    buf.Write([CHAR_D]);
    var keys := CollectKeys(v.entries);
    keys := SortStrings(keys);
    ok := EncodeEntriesLoop(buf, v, keys);
    if !ok { return; }
    Close(old(buf.contents), [CHAR_D], EncodeEntries(keys, v));
    buf.Write([CHAR_E]);
  }

  method EncodeEntriesLoop(buf: Buffer, v: Value, keys: seq<GoBytes>) returns (ok: bool)
    requires v.Dict? && forall k :: k in keys <==> k in v.entries
    modifies buf
    ensures ok <==> Encodable(v)
    ensures ok ==> buf.contents == old(buf.contents) + EncodeEntries(keys, v)
    ensures !ok ==> old(buf.contents) <= buf.contents
    decreases v, 0, 0
  {
    hide Encode, EncodeText;
    ghost var whole := if Encodable(v) then buf.contents + EncodeEntries(keys, v) else [];
    for i := 0 to |keys|
      invariant old(buf.contents) <= buf.contents
      invariant forall j :: 0 <= j < i ==> Encodable(v.entries[keys[j]])
      invariant Encodable(v) ==> buf.contents + EncodeEntries(keys[i..], v) == whole
    {
      ghost var key := EncodeText(keys[i]);
      if Encodable(v) {
        EntriesFrom(keys, v, i);
        ghost var value, rest := Encode(v.entries[keys[i]]), EncodeEntries(keys[i + 1..], v);
        Advance(buf.contents, key, value + rest, whole);
        Advance(buf.contents + key, value, rest, whole);
      }
      buf.Write(EncodeText(keys[i]));
      var done := EncodeValue(buf, v.entries[keys[i]]);
      if !done { return false; }
    }
    assert forall k :: k in v.entries ==> k in keys;
    assert buf.contents + [] == buf.contents;
    return true;
  }

  /** Ranging over the map, in whatever order it yields its keys. */
  method CollectKeys(entries: map<GoBytes, Value>) returns (keys: seq<GoBytes>)
    ensures forall i, j :: 0 <= i < j < |keys| ==> keys[i] != keys[j]
    ensures (set k: GoBytes | k in keys) == entries.Keys
  {
    keys := [];
    var rest := entries.Keys;
    while rest != {}
      invariant forall i, j :: 0 <= i < j < |keys| ==> keys[i] != keys[j]
      invariant forall k :: k in entries.Keys <==> k in keys || k in rest
      invariant forall k :: k in keys ==> k !in rest
      decreases rest
    {
      var k :| k in rest;
      keys := keys + [k];
      rest := rest - {k};
    }
  }

  /** decodeValue. */
  method ReadValue(data: Bytes, start: nat) returns (r: Parse)
    ensures r == DecodeValue(data, start)
    decreases |data| - start
  {
    hide DecodeInt, DecodeText;
    if start >= |data| { return Fail; }
    var offset := start;
    if data[start] == CHAR_D {
      offset := offset + 1;
      var result: map<GoBytes, Decoded> := map[];
      while offset < |data| && data[offset] != CHAR_E
        invariant start < offset && DecodeValue(data, start) == DecodeEntries(data, offset, result)
        decreases |data| - offset
      {
        var key := ReadValue(data, offset);
        if !key.Done? { return key; }
        if !key.value.Str? { return Fail; }
        var value := ReadValue(data, key.next);
        if !value.Done? { return value; }
        result := result[key.value.s := value.value];
        offset := value.next;
      }
      if offset >= |data| { return Fail; }
      return Done(Table(result), offset + 1);
    } else if data[start] == CHAR_L {
      offset := offset + 1;
      var result: seq<Decoded> := [];
      while offset < |data| && data[offset] != CHAR_E
        invariant start < offset && DecodeValue(data, start) == DecodeItems(data, offset, result)
        decreases |data| - offset
      {
        var value := ReadValue(data, offset);
        if !value.Done? { return value; }
        result := result + [value.value];
        offset := value.next;
      }
      if offset >= |data| { return Fail; }
      return Done(Items(result), offset + 1);
    } else if data[start] == CHAR_I {
      r := ReadInt(data, start);
    } else {
      r := ReadText(data, start);
    }
  }

  method ReadInt(data: Bytes, start: nat) returns (r: Parse)
    requires start < |data|
    ensures r == DecodeInt(data, start)
  {
    hide ParseInt;
    var end := IndexByte(data, start + 1, CHAR_E);
    if end.None? { return Fail; }
    var n := ParseInt(data[start + 1..end.value]);
    if n.None? { return Fail; }
    return Done(Integer(n.value), end.value + 1);
  }

  method ReadText(data: Bytes, start: nat) returns (r: Parse)
    requires start < |data|
    ensures r == DecodeText(data, start)
  {
    hide ParseInt;
    var colon := IndexByte(data, start, CHAR_COLON);
    if colon.None? || colon.value == start { return Fail; }
    var length := ParseInt(data[start..colon.value]);
    if length.None? || length.value < 0 { return Fail; }
    var end := colon.value + 1 + length.value;
    if end > |data| { return if end > MAX_INT64 then OutOfRange else Fail; }
    return Done(Str(data[colon.value + 1..end]), end);
  }
}
