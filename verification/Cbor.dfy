/** Canonical CBOR (section 4.2.1 of RFC 8949) restricted to the value set records need: the
    encoder that sorts map keys, the decoder that accepts only canonical form, and the two round
    trips between them. */
module Cbor {
  import opened Wrappers
  import opened Bytes

  datatype Entry = Entry(key: Value, value: Value)

  datatype Value =
    | Uint(n: nat)
    | Bool(b: bool)
    | Bytes(bytes: seq<byte>)
    | Text(text: seq<byte>)
    | Array(items: seq<Value>)
    | Map(entries: seq<Entry>)

  const MAX_DEPTH: nat := 64

  // ---------- Heads ----------

  /** The low five bits of the initial byte of a head that does not hold its value itself. */
  function ArgumentInfo(v: nat): (info: nat)
    ensures 24 <= info <= 27
  {
    if v < 0x100 then 24 else if v < 0x1_0000 then 25 else if v < 0x1_0000_0000 then 26 else 27
  }

  /** The width of the argument that follows. */
  function ArgumentWidth(info: nat): nat {
    if info == 24 then 1 else if info == 25 then 2 else if info == 26 then 4 else 8
  }

  /** The least value a head of that width may carry. */
  function ArgumentMinimum(info: nat): nat {
    if info == 24 then 24 else if info == 25 then 0x100 else if info == 26 then 0x1_0000 else 0x1_0000_0000
  }

  function EncodeHead(major: nat, v: nat): (s: seq<byte>)
    requires major < 8
    ensures |s| > 0
  {
    if v < 24 then [32 * major + v]
    else [32 * major + ArgumentInfo(v)] + BigEndian(v, ArgumentWidth(ArgumentInfo(v)))
  }

  datatype Head = Head(major: nat, value: nat, rest: seq<byte>)

  function DecodeHead(d: seq<byte>): (r: Option<Head>)
    ensures r.Some? ==> |r.value.rest| < |d| && r.value.major < 8
  {
    if d == [] then None
    else
      var major, info := d[0] / 32, d[0] % 32;
      if info < 24 then Some(Head(major, info, d[1..]))
      else if info > 27 then None
      else
        var w := ArgumentWidth(info);
        if |d| < 1 + w then None
        else
          var v := FromBigEndian(d[1..1 + w]);
          if v < ArgumentMinimum(info) then None else Some(Head(major, v, d[1 + w..]))
  }

  lemma DecodeLongHead(major: nat, info: nat, a: seq<byte>, rest: seq<byte>)
    requires major < 8 && 24 <= info <= 27 && |a| == ArgumentWidth(info) && FromBigEndian(a) >= ArgumentMinimum(info)
    ensures DecodeHead([32 * major + info] + a + rest) == Some(Head(major, FromBigEndian(a), rest))
  {
    var d := [32 * major + info] + a + rest;
    assert d[0] / 32 == major && d[0] % 32 == info;
    assert d[1..1 + |a|] == a && d[1 + |a|..] == rest;
  }

  lemma HeadRoundTrip(major: nat, v: nat, rest: seq<byte>)
    requires major < 8 && v < U64
    ensures DecodeHead(EncodeHead(major, v) + rest) == Some(Head(major, v, rest))
  {
    if v < 24 {
      assert (EncodeHead(major, v) + rest)[1..] == rest;
    } else {
      var info := ArgumentInfo(v);
      PowersOf256();
      BigEndianRoundTrip(v, ArgumentWidth(info));
      DecodeLongHead(major, info, BigEndian(v, ArgumentWidth(info)), rest);
    }
  }

  lemma HeadIsCanonical(d: seq<byte>)
    requires DecodeHead(d).Some?
    ensures var h := DecodeHead(d).value; h.value < U64 && d == EncodeHead(h.major, h.value) + h.rest
  {
    var h := DecodeHead(d).value;
    var info := d[0] % 32;
    if info < 24 {
      assert d == [d[0]] + d[1..];
    } else {
      PowersOf256();
      var w := ArgumentWidth(info);
      FromBigEndianRoundTrip(d[1..1 + w]);
      assert ArgumentInfo(h.value) == info;
      assert d == [d[0]] + d[1..1 + w] + d[1 + w..];
    }
  }

  // ---------- Encoding ----------

  /** A map entry with its key already encoded, as the encoder sorts it. */
  datatype Decorated = Decorated(key: seq<byte>, value: seq<byte>)

  function Encode(v: Value): seq<byte> {
    match v
    case Uint(n) => EncodeHead(0, n)
    case Bool(b) => [if b then 0xf5 else 0xf4]
    case Bytes(b) => EncodeHead(2, |b|) + b
    case Text(t) => EncodeHead(3, |t|) + t
    case Array(items) => EncodeHead(4, |items|) + EncodeItems(items)
    case Map(entries) => EncodeHead(5, |entries|) + Join(Sort(Decorate(entries)))
  }

  function EncodeItems(items: seq<Value>): seq<byte> {
    if items == [] then [] else Encode(items[0]) + EncodeItems(items[1..])
  }

  function Decorate(entries: seq<Entry>): (r: seq<Decorated>)
    ensures |r| == |entries|
  {
    if entries == [] then []
    else [DecorateEntry(entries[0])] + Decorate(entries[1..])
  }

  function DecorateEntry(e: Entry): Decorated {
    Decorated(Encode(e.key), Encode(e.value))
  }

  lemma {:induction false} DecorateAt(entries: seq<Entry>, i: nat)
    requires i < |entries|
    ensures Decorate(entries)[i] == DecorateEntry(entries[i])
  {
    if i > 0 {
      DecorateAt(entries[1..], i - 1);
    }
  }

  function Join(ds: seq<Decorated>): seq<byte> {
    if ds == [] then [] else ds[0].key + ds[0].value + Join(ds[1..])
  }

  /** The stable sort by encoded key. */
  function Sort(ds: seq<Decorated>): seq<Decorated> {
    if ds == [] then [] else Insert(ds[0], Sort(ds[1..]))
  }

  function Insert(d: Decorated, ds: seq<Decorated>): seq<Decorated> {
    if ds == [] then [d]
    else if !Less(ds[0].key, d.key) then [d] + ds
    else [ds[0]] + Insert(d, ds[1..])
  }

  /** Encoded keys strictly increase. */
  predicate Increasing(ds: seq<Decorated>) {
    |ds| < 2 || (Less(ds[0].key, ds[1].key) && Increasing(ds[1..]))
  }

  // ---------- Canonical values ----------

  /** Numbers and lengths are u64, text is UTF-8, map keys increase in encoded order, and the
      value nests at most `levels` deep. */
  predicate Canonical(v: Value, levels: nat) {
    && levels > 0
    && match v
       case Uint(n) => n < U64
       case Bool(_) => true
       case Bytes(b) => |b| < U64
       case Text(t) => |t| < U64 && ValidUtf8(t)
       case Array(items) => |items| < U64 && CanonicalItems(items, levels - 1)
       case Map(entries) => |entries| < U64 && CanonicalEntries(entries, levels - 1) && Increasing(Decorate(entries))
  }

  predicate CanonicalItems(items: seq<Value>, levels: nat) {
    items == [] || (Canonical(items[0], levels) && CanonicalItems(items[1..], levels))
  }

  predicate CanonicalEntries(entries: seq<Entry>, levels: nat) {
    entries == [] || (CanonicalEntry(entries[0], levels) && CanonicalEntries(entries[1..], levels))
  }

  predicate CanonicalEntry(e: Entry, levels: nat) {
    Canonical(e.key, levels) && Canonical(e.value, levels)
  }

  // ---------- Decoding ----------

  /** A decoded value and the input after it. */
  datatype Parsed<+T> = Parsed(value: T, rest: seq<byte>)

  /** Decodes one value nesting at most `levels` deep from the front of `d`. */
  function DecodeValue(d: seq<byte>, levels: nat): (r: Option<Parsed<Value>>)
    ensures r.Some? ==> |r.value.rest| < |d|
    decreases |d|, 0, 0
  {
    if levels == 0 then None
    else
      match DecodeHead(d)
      case None => None
      case Some(h) => DecodeBody(h, levels - 1)
  }

  /** The value a head announces. */
  function DecodeBody(h: Head, levels: nat): (r: Option<Parsed<Value>>)
    ensures r.Some? ==> |r.value.rest| <= |h.rest|
    decreases |h.rest|, 2, 0
  {
    var Head(major, n, rest) := h;
    if major == 0 then Some(Parsed(Uint(n), rest))
    else if major == 2 then
      if n > |rest| then None else Some(Parsed(Bytes(rest[..n]), rest[n..]))
    else if major == 3 then
      if n > |rest| || !ValidUtf8(rest[..n]) then None else Some(Parsed(Text(rest[..n]), rest[n..]))
    else if major == 4 then
      match DecodeItems(rest, n, levels)
      case None => None
      case Some(p) => Some(Parsed(Array(p.value), p.rest))
    else if major == 5 then
      match DecodeEntries(rest, n, levels)
      case None => None
      case Some(p) => if Increasing(Decorate(p.value)) then Some(Parsed(Map(p.value), p.rest)) else None
    else if major == 7 && n == 20 then Some(Parsed(Bool(false), rest))
    else if major == 7 && n == 21 then Some(Parsed(Bool(true), rest))
    else None
  }

  function DecodeItems(d: seq<byte>, n: nat, levels: nat): (r: Option<Parsed<seq<Value>>>)
    ensures r.Some? ==> |r.value.value| == n && |r.value.rest| <= |d|
    decreases |d|, 1, n
  {
    if n == 0 then Some(Parsed([], d))
    else
      match DecodeValue(d, levels)
      case None => None
      case Some(v) =>
        match DecodeItems(v.rest, n - 1, levels)
        case None => None
        case Some(vs) => Some(Parsed([v.value] + vs.value, vs.rest))
  }

  function DecodeEntries(d: seq<byte>, n: nat, levels: nat): (r: Option<Parsed<seq<Entry>>>)
    ensures r.Some? ==> |r.value.value| == n && |r.value.rest| <= |d|
    decreases |d|, 1, n
  {
    if n == 0 then Some(Parsed([], d))
    else
      match DecodeValue(d, levels)
      case None => None
      case Some(k) =>
        match DecodeValue(k.rest, levels)
        case None => None
        case Some(v) =>
          match DecodeEntries(v.rest, n - 1, levels)
          case None => None
          case Some(es) => Some(Parsed([Entry(k.value, v.value)] + es.value, es.rest))
  }

  function Whole(p: Option<Parsed<Value>>): Option<Value> {
    if p.Some? && p.value.rest == [] then Some(p.value.value) else None
  }

  /** Decodes exactly one canonical value covering the whole input. */
  function Decode(d: seq<byte>): Option<Value> {
    Whole(DecodeValue(d, MAX_DEPTH))
  }

  // ---------- Decoding inverts encoding ----------

  lemma TakeSplits(p: seq<byte>, rest: seq<byte>)
    ensures (p + rest)[..|p|] == p && (p + rest)[|p|..] == rest
  {}

  lemma Regroup(a: seq<byte>, b: seq<byte>, c: seq<byte>)
    ensures a + (b + c) == a + b + c
  {}

  lemma {:induction false} SortKeepsIncreasing(ds: seq<Decorated>)
    requires Increasing(ds)
    ensures Sort(ds) == ds
  {
    if ds != [] {
      SortKeepsIncreasing(ds[1..]);
      if |ds| > 1 {
        LessAsymmetric(ds[0].key, ds[1].key);
      }
      assert ds == [ds[0]] + ds[1..];
    }
  }

  lemma DecodeAfterHead(major: nat, n: nat, rest: seq<byte>, levels: nat)
    requires major < 8 && n < U64 && levels > 0
    ensures DecodeValue(EncodeHead(major, n) + rest, levels) == DecodeBody(Head(major, n, rest), levels - 1)
  {
    HeadRoundTrip(major, n, rest);
  }

  lemma StringInverts(major: nat, b: seq<byte>, rest: seq<byte>, levels: nat)
    requires (major == 2 || (major == 3 && ValidUtf8(b))) && |b| < U64 && levels > 0
    ensures DecodeValue(EncodeHead(major, |b|) + b + rest, levels)
         == Some(Parsed(if major == 2 then Bytes(b) else Text(b), rest))
  {
    DecodeAfterHead(major, |b|, b + rest, levels);
    Regroup(EncodeHead(major, |b|), b, rest);
    TakeSplits(b, rest);
  }

  lemma {:induction false} ArrayInverts(items: seq<Value>, rest: seq<byte>, levels: nat)
    requires Canonical(Array(items), levels)
    ensures DecodeValue(Encode(Array(items)) + rest, levels) == Some(Parsed(Array(items), rest))
    decreases items, 1
  {
    ItemsInvert(items, rest, levels - 1);
    DecodeAfterHead(4, |items|, EncodeItems(items) + rest, levels);
    Regroup(EncodeHead(4, |items|), EncodeItems(items), rest);
  }

  lemma EncodeSortedMap(entries: seq<Entry>)
    requires Increasing(Decorate(entries))
    ensures Encode(Map(entries)) == EncodeHead(5, |entries|) + Join(Decorate(entries))
  {
    SortKeepsIncreasing(Decorate(entries));
  }

  lemma {:induction false} MapInverts(entries: seq<Entry>, rest: seq<byte>, levels: nat)
    requires Canonical(Map(entries), levels)
    ensures DecodeValue(Encode(Map(entries)) + rest, levels) == Some(Parsed(Map(entries), rest))
    decreases entries, 1
  {
    var joined := Join(Decorate(entries));
    EntriesInvert(entries, rest, levels - 1);
    DecodeAfterHead(5, |entries|, joined + rest, levels);
    Regroup(EncodeHead(5, |entries|), joined, rest);
    EncodeSortedMap(entries);
  }

  /** Whatever follows it, the encoding of a canonical value decodes to that value. */
  lemma {:induction false} DecodeInvertsEncode(v: Value, rest: seq<byte>, levels: nat)
    requires Canonical(v, levels)
    ensures DecodeValue(Encode(v) + rest, levels) == Some(Parsed(v, rest))
    decreases v
  {
    match v
    case Uint(n) => DecodeAfterHead(0, n, rest, levels);
    case Bool(b) => DecodeAfterHead(7, if b then 21 else 20, rest, levels);
    case Bytes(b) => StringInverts(2, b, rest, levels);
    case Text(t) => StringInverts(3, t, rest, levels);
    case Array(items) => ArrayInverts(items, rest, levels);
    case Map(entries) => MapInverts(entries, rest, levels);
  }

  lemma {:induction false} ItemsInvert(items: seq<Value>, rest: seq<byte>, levels: nat)
    requires CanonicalItems(items, levels)
    ensures DecodeItems(EncodeItems(items) + rest, |items|, levels) == Some(Parsed(items, rest))
    decreases items, 0
  {
    if items == [] {
      assert EncodeItems(items) + rest == rest;
    } else {
      var tail := EncodeItems(items[1..]) + rest;
      assert EncodeItems(items) + rest == Encode(items[0]) + tail;
      DecodeInvertsEncode(items[0], tail, levels);
      ItemsInvert(items[1..], rest, levels);
      assert items == [items[0]] + items[1..];
    }
  }

  lemma {:induction false} EntryInverts(e: Entry, rest: seq<byte>, levels: nat)
    requires CanonicalEntry(e, levels)
    ensures DecodeValue(Encode(e.key) + (Encode(e.value) + rest), levels) == Some(Parsed(e.key, Encode(e.value) + rest))
    ensures DecodeValue(Encode(e.value) + rest, levels) == Some(Parsed(e.value, rest))
    decreases e, 0
  {
    DecodeInvertsEncode(e.key, Encode(e.value) + rest, levels);
    DecodeInvertsEncode(e.value, rest, levels);
  }

  lemma JoinFirst(entries: seq<Entry>)
    requires entries != []
    ensures Join(Decorate(entries)) == Encode(entries[0].key) + Encode(entries[0].value) + Join(Decorate(entries[1..]))
  {
    assert Decorate(entries)[1..] == Decorate(entries[1..]);
  }

  lemma {:induction false} EntriesInvert(entries: seq<Entry>, rest: seq<byte>, levels: nat)
    requires CanonicalEntries(entries, levels)
    ensures DecodeEntries(Join(Decorate(entries)) + rest, |entries|, levels) == Some(Parsed(entries, rest))
    decreases entries, 0
  {
    if entries == [] {
      assert Join(Decorate(entries)) + rest == rest;
    } else {
      var e, tail := entries[0], Join(Decorate(entries[1..])) + rest;
      JoinFirst(entries);
      assert Join(Decorate(entries)) + rest == Encode(e.key) + (Encode(e.value) + tail);
      EntryInverts(e, tail, levels);
      EntriesInvert(entries[1..], rest, levels);
      assert entries == [e] + entries[1..];
    }
  }

  // ---------- The decoder accepts only what the encoder writes ----------

  /** Any accepted input is the encoding of the canonical value it decodes to. */
  lemma {:induction false} EncodeInvertsDecode(d: seq<byte>, levels: nat)
    requires DecodeValue(d, levels).Some?
    ensures var p := DecodeValue(d, levels).value; d == Encode(p.value) + p.rest && Canonical(p.value, levels)
    decreases |d|, 0, 0
  {
    HeadIsCanonical(d);
    BodyIsEncoded(DecodeHead(d).value, levels - 1);
  }

  lemma {:induction false} BodyIsEncoded(h: Head, levels: nat)
    requires h.major < 8 && h.value < U64 && DecodeBody(h, levels).Some?
    ensures var p := DecodeBody(h, levels).value;
            EncodeHead(h.major, h.value) + h.rest == Encode(p.value) + p.rest && Canonical(p.value, levels + 1)
    decreases |h.rest|, 2, 0
  {
    var Head(major, n, rest) := h;
    var head := EncodeHead(major, n);
    if major == 2 || major == 3 {
      assert rest == rest[..n] + rest[n..];
      Regroup(head, rest[..n], rest[n..]);
    } else if major == 4 {
      ItemsAreEncoded(rest, n, levels);
      var p := DecodeItems(rest, n, levels).value;
      Regroup(head, EncodeItems(p.value), p.rest);
    } else if major == 5 {
      EntriesAreEncoded(rest, n, levels);
      var p := DecodeEntries(rest, n, levels).value;
      EncodeSortedMap(p.value);
      Regroup(head, Join(Decorate(p.value)), p.rest);
    }
  }

  lemma {:induction false} ItemsAreEncoded(d: seq<byte>, n: nat, levels: nat)
    requires DecodeItems(d, n, levels).Some?
    ensures var p := DecodeItems(d, n, levels).value;
            d == EncodeItems(p.value) + p.rest && CanonicalItems(p.value, levels)
    decreases |d|, 1, n
  {
    if n > 0 {
      EncodeInvertsDecode(d, levels);
      var v := DecodeValue(d, levels).value;
      ItemsAreEncoded(v.rest, n - 1, levels);
      var vs := DecodeItems(v.rest, n - 1, levels).value;
      assert ([v.value] + vs.value)[1..] == vs.value;
      Regroup(Encode(v.value), EncodeItems(vs.value), vs.rest);
    }
  }

  lemma {:induction false} EntriesAreEncoded(d: seq<byte>, n: nat, levels: nat)
    requires DecodeEntries(d, n, levels).Some?
    ensures var p := DecodeEntries(d, n, levels).value;
            d == Join(Decorate(p.value)) + p.rest && CanonicalEntries(p.value, levels)
    decreases |d|, 1, n
  {
    if n > 0 {
      var k := DecodeValue(d, levels).value;
      var v := DecodeValue(k.rest, levels).value;
      var es := DecodeEntries(v.rest, n - 1, levels).value;
      EncodeInvertsDecode(d, levels);
      EncodeInvertsDecode(k.rest, levels);
      EntriesAreEncoded(v.rest, n - 1, levels);
      EntryIsEncoded(Entry(k.value, v.value), es.value, es.rest, levels);
    }
  }

  lemma EntryIsEncoded(e: Entry, es: seq<Entry>, rest: seq<byte>, levels: nat)
    requires CanonicalEntry(e, levels) && CanonicalEntries(es, levels)
    ensures Encode(e.key) + (Encode(e.value) + (Join(Decorate(es)) + rest)) == Join(Decorate([e] + es)) + rest
    ensures CanonicalEntries([e] + es, levels)
  {
    assert ([e] + es)[1..] == es;
    JoinFirst([e] + es);
    Regroup(Encode(e.key), Encode(e.value), Join(Decorate(es)) + rest);
    Regroup(Encode(e.key) + Encode(e.value), Join(Decorate(es)), rest);
  }

  // ---------- The two round trips over whole inputs ----------

  /** Every canonical value nesting at most 64 levels decodes from its encoding to itself. */
  lemma RoundTrip(v: Value)
    requires Canonical(v, MAX_DEPTH)
    ensures Decode(Encode(v)) == Some(v)
  {
    DecodeInvertsEncode(v, [], MAX_DEPTH);
    assert Encode(v) + [] == Encode(v);
  }

  /** Any input the decoder accepts is reproduced byte for byte by the encoder. */
  lemma Canonicality(d: seq<byte>)
    requires Decode(d).Some?
    ensures Encode(Decode(d).value) == d && Canonical(Decode(d).value, MAX_DEPTH)
  {
    EncodeInvertsDecode(d, MAX_DEPTH);
    var v := Decode(d).value;
    assert Encode(v) + [] == Encode(v);
  }

  /** No encoding is a prefix of another. */
  lemma PrefixFree(v: Value, w: Value, x: seq<byte>, y: seq<byte>)
    requires Canonical(v, MAX_DEPTH) && Canonical(w, MAX_DEPTH)
    requires Encode(v) + x == Encode(w) + y
    ensures v == w && x == y
  {
    DecodeInvertsEncode(v, x, MAX_DEPTH);
    DecodeInvertsEncode(w, y, MAX_DEPTH);
  }
}
