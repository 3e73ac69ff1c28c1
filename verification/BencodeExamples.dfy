/** Bencoding tied down from outside: literal encodings, the byte order of keys, and dictionaries whose keys come
    in any order or more than once. */
module BencodeExamples {
  import opened Decimal
  import opened Bencode
  import opened BencodeProofs

  /** The bytes of a string of ASCII characters. */
  function Ascii(text: string): (bytes: Bytes)
    ensures |bytes| == |text|
  {
    seq(|text|, i requires 0 <= i < |text| => text[i] as int % 256)
  }

  const COW: GoBytes := Ascii("cow")
  const MOO: GoBytes := Ascii("moo")
  const SPAM: GoBytes := Ascii("spam")
  const EGGS: GoBytes := Ascii("eggs")

  // ---- literal encodings ----

  lemma OneDigit(n: int)
    requires 0 <= n < 10
    ensures Print(n) == [ZERO + n] && (n > 0 ==> Print(-n) == [MINUS, ZERO + n])
  {
  }

  /** The examples of BEP 3, section "bencoding": two strings, two integers, a list and two dictionaries. */
  lemma TextExamples()
    ensures EncodeText(SPAM) == Ascii("4:spam") && EncodeText(EGGS) == Ascii("4:eggs")
    ensures EncodeText(COW) == Ascii("3:cow") && EncodeText(MOO) == Ascii("3:moo")
    ensures EncodeInt(3) == Ascii("i3e") && EncodeInt(-3) == Ascii("i-3e")
    ensures EncodeInt(1) == Ascii("i1e") && EncodeInt(0) == Ascii("i0e")
  {
    OneDigit(0);
    OneDigit(1);
    OneDigit(3);
    OneDigit(4);
  }

  lemma TwoKeys(a: GoBytes, b: GoBytes)
    requires Less(a, b)
    ensures SortedKeys({a, b}) == [a, b]
  {
    LessTotal(a, b);
    SortedUnique([a, b], SortedKeys({a, b}));
  }

  lemma OneKey(a: GoBytes)
    ensures SortedKeys({a}) == [a]
  {
    SortedUnique([a], SortedKeys({a}));
  }

  lemma TwoEntries(a: GoBytes, x: Value, b: GoBytes, y: Value)
    requires Less(a, b) && Encodable(x) && Encodable(y)
    ensures Encodable(Dict(map[a := x, b := y]))
    ensures Encode(Dict(map[a := x, b := y]))
            == [CHAR_D] + (EncodeText(a) + Encode(x) + (EncodeText(b) + Encode(y))) + [CHAR_E]
  {
    LessTotal(a, b);
    var v := Dict(map[a := x, b := y]);
    TwoKeys(a, b);
    assert v.entries.Keys == {a, b};
    hide Encode;
    assert [a, b][1..] == [b] && [b][1..] == [];
    assert EncodeEntries([b], v) == EncodeText(b) + Encode(y);
    assert EncodeEntries([a, b], v) == EncodeText(a) + Encode(x) + EncodeEntries([b], v);
    DictIs(v);
  }

  lemma OneEntry(a: GoBytes, x: Value)
    requires Encodable(x)
    ensures Encode(Dict(map[a := x])) == [CHAR_D] + (EncodeText(a) + Encode(x)) + [CHAR_E]
  {
    var v := Dict(map[a := x]);
    OneKey(a);
    assert v.entries.Keys == {a};
    hide Encode;
    assert [a][1..] == [];
    assert EncodeEntries([a], v) == EncodeText(a) + Encode(x);
    DictIs(v);
  }

  lemma DictIs(v: Value)
    requires v.Dict? && Encodable(v)
    ensures Encode(v) == [CHAR_D] + EncodeEntries(SortedKeys(v.entries.Keys), v) + [CHAR_E]
  {
  }

  lemma ListExamples()
    ensures Encode(Texts([SPAM, EGGS])) == Ascii("l4:spam4:eggse")
    ensures Encode(List([Text(SPAM), Bool(true)])) == Ascii("l4:spami1ee")
    ensures Encode(List([Bool(false)])) == Ascii("li0ee")
  {
    hide EncodeText, EncodeInt;
    TextExamples();
    TwoTexts(SPAM, EGGS);
    var items := [Text(SPAM), Bool(true)];
    assert items[1..] == [Bool(true)] && [Bool(true)][1..] == [];
    assert EncodeItems([Bool(true)]) == EncodeInt(1) + [];
    assert EncodeItems(items) == EncodeText(SPAM) + EncodeInt(1);
    assert EncodeItems([Bool(false)]) == EncodeInt(0) + [] by { assert [Bool(false)][1..] == []; }
  }

  lemma TwoTexts(a: GoBytes, b: GoBytes)
    ensures Encode(Texts([a, b])) == [CHAR_L] + (EncodeText(a) + EncodeText(b)) + [CHAR_E]
  {
    hide EncodeText;
    assert [a, b][1..] == [b] && [b][1..] == [];
    assert EncodeTexts([b]) == EncodeText(b) + [];
  }

  lemma CowBeforeSpam()
    ensures Less(COW, SPAM)
  {
    assert COW[0] == 99 && SPAM[0] == 115;
  }

  lemma DictExample()
    ensures Encode(Dict(map[COW := Text(MOO), SPAM := Raw(EGGS)])) == Ascii("d3:cow3:moo4:spam4:eggse")
  {
    hide EncodeText, Encode, Less;
    CowBeforeSpam();
    TextIs(MOO);
    TextIs(EGGS);
    TwoEntries(COW, Text(MOO), SPAM, Raw(EGGS));
    TextExamples();
  }

  lemma NestedExample()
    ensures Encode(Dict(map[SPAM := Texts([SPAM, EGGS])])) == Ascii("d4:spaml4:spam4:eggsee")
  {
    hide EncodeText, Encode;
    OneEntry(SPAM, Texts([SPAM, EGGS]));
    ListExamples();
    TextExamples();
  }

  lemma TextIs(s: GoBytes)
    ensures Encode(Text(s)) == EncodeText(s) && Encode(Raw(s)) == EncodeText(s)
  {
  }

  // ---- the order of keys ----

  /** One key comes before another if and only if it is a proper prefix of it, or has the smaller byte at the
      first place where they differ. */
  lemma {:induction false} LessExactlyWhen(a: Bytes, b: Bytes)
    ensures Less(a, b) <==>
              || (|a| < |b| && b[..|a|] == a)
              || exists i :: 0 <= i < |a| && i < |b| && a[..i] == b[..i] && a[i] < b[i]
    decreases |a|
  {
    if a != [] && b != [] {
      LessExactlyWhen(a[1..], b[1..]);
      if a[0] == b[0] {
        Shifted(a, b);
      } else {
        Apart(a, b);
      }
    }
  }

  lemma Apart(a: Bytes, b: Bytes)
    requires a != [] && b != [] && a[0] != b[0]
    ensures (|a| < |b| && b[..|a|] == a) || (exists i :: 0 <= i < |a| && i < |b| && a[..i] == b[..i] && a[i] < b[i])
        <==> a[0] < b[0]
  {
    assert a[..0] == b[..0];
    forall i | 0 < i <= |a| && i <= |b| ensures a[..i] != b[..i] { assert a[..i][0] == a[0] && b[..i][0] == b[0]; }
    assert a[..|a|] == a;
  }

  lemma Shifted(a: Bytes, b: Bytes)
    requires a != [] && b != [] && a[0] == b[0]
    ensures (|a| < |b| && b[..|a|] == a) <==> (|a[1..]| < |b[1..]| && b[1..][..|a| - 1] == a[1..])
    ensures (exists i :: 0 <= i < |a| && i < |b| && a[..i] == b[..i] && a[i] < b[i])
        <==> (exists i :: 0 <= i < |a[1..]| && i < |b[1..]| && a[1..][..i] == b[1..][..i] && a[1..][i] < b[1..][i])
  {
    var x, y := a[1..], b[1..];
    assert a == [a[0]] + x && b == [a[0]] + y;
    if |a| <= |b| { assert b[..|a|] == [a[0]] + y[..|a| - 1]; }
    forall i | 0 < i <= |a| && i <= |b| ensures a[..i] == [a[0]] + x[..i - 1] && b[..i] == [a[0]] + y[..i - 1] {}
    if i :| 0 <= i < |a| && i < |b| && a[..i] == b[..i] && a[i] < b[i] {
      assert x[..i - 1] == a[..i][1..] && y[..i - 1] == b[..i][1..];
      assert x[i - 1] < y[i - 1];
    }
    if i :| 0 <= i < |x| && i < |y| && x[..i] == y[..i] && x[i] < y[i] {
      assert a[..i + 1] == b[..i + 1];
      assert a[i + 1] < b[i + 1];
    }
  }

  // ---- dictionaries in any order ----

  /** Keys with their values as they stand in a dictionary, in whatever order and however often. */
  type Listing = seq<(GoBytes, Value)>

  predicate Writable(listing: Listing) { forall i :: 0 <= i < |listing| ==> Encodable(listing[i].1) }

  ghost function Write(listing: Listing): Bytes
    requires Writable(listing)
  {
    if listing == [] then [] else
      EncodeText(listing[0].0) + Encode(listing[0].1) + Write(listing[1..])
  }

  /** The fields it leaves on top of others. */
  function Filled(result: map<GoBytes, Decoded>, listing: Listing): map<GoBytes, Decoded>
    requires Writable(listing)
    decreases |listing|
  {
    if listing == [] then result else Filled(result[listing[0].0 := Normal(listing[0].1)], listing[1..])
  }

  lemma {:induction false} ListingAt(listing: Listing, data: Bytes, offset: nat, result: map<GoBytes, Decoded>)
    requires Writable(listing) && HoldsAt(data, offset, Write(listing) + [CHAR_E])
    ensures DecodeEntries(data, offset, result)
            == Done(Table(Filled(result, listing)), offset + |Write(listing)| + 1)
    decreases |listing|
  {
    hide DecodeValue, Normal, Encode, EncodeText;
    if listing == [] {
      HoldsSplit(data, offset, [], [CHAR_E]);
      HoldsByte(data, offset, [CHAR_E], 0);
    } else {
      var key, value := EncodeText(listing[0].0), Encode(listing[0].1);
      SplitThree(data, offset, key, value, Write(listing[1..]), [CHAR_E]);
      TextAt(listing[0].0, data, offset);
      ValueAt(listing[0].1, data, offset + |key|);
      var next := offset + |key| + |value|;
      EntriesStep(data, offset, result, listing[0].0, offset + |key|, Normal(listing[0].1), next);
      ListingAt(listing[1..], data, next, result[listing[0].0 := Normal(listing[0].1)]);
    }
  }

  /** Entry `i` is the last one with its key. */
  predicate LastOfKey(listing: Listing, i: nat) {
    i < |listing| && forall j :: i < j < |listing| ==> listing[j].0 != listing[i].0
  }

  lemma {:induction false} FilledHolds(result: map<GoBytes, Decoded>, listing: Listing)
    requires Writable(listing)
    ensures forall k :: k in Filled(result, listing) <==>
              k in result || exists i :: 0 <= i < |listing| && listing[i].0 == k
    ensures forall k :: k in result && (forall i :: 0 <= i < |listing| ==> listing[i].0 != k) ==>
              Filled(result, listing)[k] == result[k]
    ensures forall i: nat :: LastOfKey(listing, i) ==> Filled(result, listing)[listing[i].0] == Normal(listing[i].1)
    decreases |listing|
  {
    hide Normal;
    if listing != [] {
      var rest := listing[1..];
      var more := result[listing[0].0 := Normal(listing[0].1)];
      FilledHolds(more, rest);
      forall k ensures k in Filled(result, listing) <==>
          k in result || exists i :: 0 <= i < |listing| && listing[i].0 == k
      {
        if i :| 0 <= i < |listing| && listing[i].0 == k { if i > 0 { assert rest[i - 1].0 == k; } }
        if i :| 0 <= i < |rest| && rest[i].0 == k { assert listing[i + 1].0 == k; }
      }
      forall i: nat | LastOfKey(listing, i)
        ensures listing[i].0 in Filled(result, listing)
        ensures Filled(result, listing)[listing[i].0] == Normal(listing[i].1)
      {
        if i > 0 {
          assert LastOfKey(rest, i - 1);
        } else {
          assert forall j :: 0 <= j < |rest| ==> rest[j] == listing[j + 1];
        }
      }
    }
  }

  /** A dictionary is read whatever the order of its keys, and when a key comes more than once its last value
      stands. */
  lemma AnyOrderLastStands(listing: Listing, before: Bytes, after: Bytes)
    requires Writable(listing)
    ensures var body := [CHAR_D] + Write(listing) + [CHAR_E];
            var r := DecodeValue(before + body + after, |before|);
            && r.Done? && r.next == |before| + |body| && r.value.Table?
            && (forall k :: k in r.value.fields <==> exists i :: 0 <= i < |listing| && listing[i].0 == k)
            && (forall i: nat :: LastOfKey(listing, i) ==>
                  listing[i].0 in r.value.fields && r.value.fields[listing[i].0] == Normal(listing[i].1))
  {
    hide DecodeValue, DecodeEntries, Normal, Write;
    var body := [CHAR_D] + Write(listing) + [CHAR_E];
    var data := before + body + after;
    assert HoldsAt(data, |before|, body);
    BracketAt(CHAR_D, Write(listing), data, |before|);
    Dispatch(data, |before|);
    ListingAt(listing, data, |before| + 1, map[]);
    FilledHolds(map[], listing);
    forall i: nat | LastOfKey(listing, i) ensures listing[i].0 in Filled(map[], listing) {}
  }
}
