/** The record codec over whole byte strings: exact round trips for every record and every
    accepted input, and the direct decoder's equality with the reference decoder. */
module RecordTheorems {
  import opened Wrappers
  import opened Bytes
  import opened Cbor
  import opened FieldReader
  import opened Records
  import opened RecordCodec
  import opened RecordLaws

  // ---------- Envelopes ----------

  lemma {:induction false} EncodeItemsSnoc(items: seq<Value>, v: Value)
    ensures EncodeItems(items + [v]) == EncodeItems(items) + Encode(v)
  {
    if items == [] {
      assert [v][1..] == [] && EncodeItems([]) == [];
      assert items + [v] == [v];
    } else {
      assert (items + [v])[1..] == items[1..] + [v];
      EncodeItemsSnoc(items[1..], v);
      Regroup(Encode(items[0]), EncodeItems(items[1..]), Encode(v));
    }
  }

  lemma EnvelopeEncodes(t: nat, v: Value, w: Value, q: Bytes16, tag: Bytes8)
    requires Encode(v) == Encode(w)
    ensures Encode(Envelope(t, v, q, tag)) == Encode(Envelope(t, w, q, tag))
  {
    EncodeItemsSnoc(Preamble(t, q, tag), v);
    EncodeItemsSnoc(Preamble(t, q, tag), w);
  }

  lemma {:induction false} CanonicalSnoc(items: seq<Value>, v: Value, levels: nat)
    ensures CanonicalItems(items + [v], levels) <==> CanonicalItems(items, levels) && Canonical(v, levels)
  {
    if items != [] {
      assert (items + [v])[1..] == items[1..] + [v];
      CanonicalSnoc(items[1..], v, levels);
    }
  }

  lemma EnvelopeCanonical(t: nat, v: Value, q: Bytes16, tag: Bytes8, levels: nat)
    requires 1 <= t <= 8 && levels > 1 && Canonical(v, levels - 1)
    ensures Canonical(Envelope(t, v, q, tag), levels)
  {
    var items := Preamble(t, q, tag);
    AllCanonical(items, levels - 1);
    CanonicalSnoc(items, v, levels - 1);
  }

  lemma {:induction false} AllCanonical(items: seq<Value>, levels: nat)
    requires forall i :: 0 <= i < |items| ==> Canonical(items[i], levels)
    ensures CanonicalItems(items, levels)
  {
    if items != [] {
      AllCanonical(items[1..], levels);
    }
  }

  lemma SealSplits(body: seq<byte>, digest: Bytes32)
    ensures SplitSeal(body + [0x58, 32] + digest) == Some((body, digest))
  {
    var data := body + [0x58, 32] + digest;
    assert data[..|body|] == body && data[|body| + 2..] == digest;
  }

  // ---------- Round trips of the reference codec ----------

  lemma SlotsDecideForm(r: Record, r': Record)
    requires TypeNumber(r) == TypeNumber(r') && Slots(r) == Slots(r')
    ensures WellFormed(r) == WellFormed(r')
  {
    if r.FormatRecord? {
      assert Slots(r)[0] == Slots(r')[0];
    } else if r.JobRecord? {
      assert Slots(r)[1] == Slots(r')[1] && Slots(r)[5] == Slots(r')[5];
    } else if r.ClaimRecord? {
      assert Slots(r)[0] == Slots(r')[0] && Slots(r)[5] == Slots(r')[5] && Slots(r)[6] == Slots(r')[6];
    }
  }

  /** A record is read back from its entries exactly when it is well formed. */
  lemma OrderedReadsExactly(r: Record, levels: nat)
    requires levels > 2
    ensures FromFields(TypeNumber(r), Ordered(r)) == if WellFormed(r) then Some(r) else None
  {
    hide Table, Slots, Sorted, HasKind, Assemble, Collect;
    var t, back := TypeNumber(r), FromFields(TypeNumber(r), Ordered(r));
    if WellFormed(r) {
      OrderedReads(r);
    } else if back.Some? {
      OrderedCanonical(r, levels + 1);
      FieldsReencode(t, Ordered(r), levels);
      TableIsSorted(t);
      LookupsOfCollect(Table(t), Slots(r));
      LookupsOfCollect(Table(t), Slots(back.value));
      SlotsDecideForm(r, back.value);
    }
  }

  /** For every record, queue and key tag: what the encoder writes decodes to the record itself,
      and is rejected exactly when the record is not well formed. */
  lemma RecordRoundTrip(sha: Hash, r: Record, q: Bytes16, tag: Bytes8)
    ensures ValueDecode(sha, ValueEncode(sha, r, q, tag), q, tag) == if WellFormed(r) then Some(r) else None
  {
    hide Decode, Encode, Canonical, FromFields, Ordered, Fields, WellFormed, Ascii;
    var t := TypeNumber(r);
    var wire := Envelope(t, Map(Ordered(r)), q, tag);
    FieldsEncode(r);
    EnvelopeEncodes(t, Map(Fields(r)), Map(Ordered(r)), q, tag);
    OrderedCanonical(r, MAX_DEPTH - 1);
    EnvelopeCanonical(t, Map(Ordered(r)), q, tag, MAX_DEPTH);
    RoundTrip(wire);
    SealSplits(Encode(wire), RecordDigest(sha, t, Encode(wire)));
    OrderedReadsExactly(r, MAX_DEPTH - 2);
    assert wire.items[..6] == Preamble(t, q, tag);
  }

  /** An envelope bound to its queue and key is the preamble followed by the fields. */
  lemma BoundItems(sha: Hash, items: seq<Value>, body: seq<byte>, digest: seq<byte>, q: Bytes16, tag: Bytes8)
    requires |items| == 7 && Bound(sha, items, body, digest, q, tag)
    ensures items == Preamble(items[5].n, q, tag) + [items[6]]
  {}

  /** Every accepted byte string is what the encoder writes for the record it decodes to. */
  lemma RecordReencodes(sha: Hash, data: seq<byte>, q: Bytes16, tag: Bytes8)
    requires ValueDecode(sha, data, q, tag).Some?
    ensures var r := ValueDecode(sha, data, q, tag).value; WellFormed(r) && ValueEncode(sha, r, q, tag) == data
  {
    hide Decode, Encode, FromFields, Ordered, Fields, WellFormed, Ascii;
    var (body, digest) := SplitSeal(data).value;
    var v := Decode(body).value;
    var t, es := v.items[5].n, v.items[6].entries;
    Canonicality(body);
    BoundItems(sha, v.items, body, digest, q, tag);
    CanonicalSnoc(Preamble(t, q, tag), v.items[6], MAX_DEPTH - 1);
    FieldsReencode(t, es, MAX_DEPTH - 2);
    var r := FromFields(t, es).value;
    FieldsEncode(r);
    EnvelopeEncodes(t, Map(Fields(r)), Map(es), q, tag);
  }

  // ---------- The direct decoder ----------

  function EnvelopeKinds(): (kinds: seq<Kind>)
    ensures |kinds| == 6
  {
    [WORD, WORD, WORD, BytesK, BytesK, WORD]
  }

  /** The direct path after the envelope's head: typed reads in order, no value tree of the whole. */
  function ReadEnvelope(sha: Hash, d: seq<byte>, body: seq<byte>, digest: seq<byte>, q: Bytes16,
                        tag: Bytes8): Option<Record> {
    match ReadEach(EnvelopeKinds(), d)
    case None => None
    case Some(p) =>
      if !Bound(sha, p.value, body, digest, q, tag) then None
      else
        match ReadKind(MapK(Table(p.value[5].n)), p.rest)
        case None => None
        case Some(m) =>
          if m.rest != [] || !m.value.Map? then None
          else Assemble(p.value[5].n, Lookups(m.value.entries, Table(p.value[5].n)))
  }

  function ReadRecord(sha: Hash, body: seq<byte>, digest: seq<byte>, q: Bytes16, tag: Bytes8): Option<Record> {
    match DecodeHead(body)
    case None => None
    case Some(h) => if h.major == 4 && h.value == 7 then ReadEnvelope(sha, h.rest, body, digest, q, tag) else None
  }

  function DirectDecode(sha: Hash, data: seq<byte>, q: Bytes16, tag: Bytes8): Option<Record> {
    match SplitSeal(data)
    case None => None
    case Some((body, digest)) => ReadRecord(sha, body, digest, q, tag)
  }

  lemma {:induction false} DecodeItemsSnoc(d: seq<byte>, n: nat, levels: nat)
    ensures DecodeItems(d, n + 1, levels) ==
            match DecodeItems(d, n, levels)
            case None => None
            case Some(p) =>
              match DecodeValue(p.rest, levels)
              case None => None
              case Some(v) => Some(Parsed(p.value + [v.value], v.rest))
    decreases n
  {
    hide DecodeValue;
    if n > 0 {
      var v := DecodeValue(d, levels);
      if v.Some? {
        DecodeItemsSnoc(v.value.rest, n - 1, levels);
        var p := DecodeItems(v.value.rest, n - 1, levels);
        if p.Some? {
          var w := DecodeValue(p.value.rest, levels);
          if w.Some? {
            assert [v.value.value] + (p.value.value + [w.value.value])
                   == [v.value.value] + p.value.value + [w.value.value];
          }
        }
      }
    } else {
      var v := DecodeValue(d, levels);
      if v.Some? {
        assert [v.value.value] + [] == [] + [v.value.value];
      }
    }
  }

  /** Decoding seven items is reading six of the envelope's kinds and then one more value. */
  lemma EnvelopeReads(d: seq<byte>, levels: nat)
    requires levels > 0
    ensures match ReadEach(EnvelopeKinds(), d)
            case None => DecodeItems(d, 7, levels).Some? ==>
              var items := DecodeItems(d, 7, levels).value.value;
              !(items[0].Uint? && items[1].Uint? && items[2].Uint? && items[3].Bytes? && items[4].Bytes?
                && items[5].Uint?)
            case Some(p) =>
              match DecodeValue(p.rest, levels)
              case None => DecodeItems(d, 7, levels).None?
              case Some(v) => DecodeItems(d, 7, levels) == Some(Parsed(p.value + [v.value], v.rest))
  {
    hide DecodeValue, ReadEach, DecodeItems;
    var kinds := EnvelopeKinds();
    EachRefines(kinds, d, levels);
    DecodeItemsSnoc(d, 6, levels);
    var p := DecodeItems(d, 6, levels);
    if p.Some? {
      ItemsBounded(d, 6, levels);
      var items := p.value.value;
      if items[0].Uint? && items[1].Uint? && items[2].Uint? && items[3].Bytes? && items[4].Bytes? && items[5].Uint? {
        forall i | 0 <= i < 6 ensures HasKind(items[i], kinds[i]) {
          assert Canonical(items[i], levels);
        }
      }
    }
  }

  lemma {:induction false} CanonicalAt(items: seq<Value>, i: nat, levels: nat)
    requires CanonicalItems(items, levels) && i < |items|
    ensures Canonical(items[i], levels)
  {
    if i > 0 {
      CanonicalAt(items[1..], i - 1, levels);
    }
  }

  lemma ItemsBounded(d: seq<byte>, n: nat, levels: nat)
    requires DecodeItems(d, n, levels).Some?
    ensures forall i :: 0 <= i < n ==> Canonical(DecodeItems(d, n, levels).value.value[i], levels)
  {
    ItemsAreEncoded(d, n, levels);
    forall i | 0 <= i < n ensures Canonical(DecodeItems(d, n, levels).value.value[i], levels) {
      CanonicalAt(DecodeItems(d, n, levels).value.value, i, levels);
    }
  }

  /** The part of the reference path after the body's head, one nesting level down. */
  lemma BodyAgrees(sha: Hash, d: seq<byte>, body: seq<byte>, digest: seq<byte>, q: Bytes16, tag: Bytes8, levels: nat)
    requires levels >= 3
    ensures var items := DecodeItems(d, 7, levels);
            ReadEnvelope(sha, d, body, digest, q, tag)
            == if items.Some? && items.value.rest == []
               then FromEnvelope(sha, Array(items.value.value), body, digest, q, tag)
               else None
  {
    hide DecodeValue, ReadEach, DecodeItems, ReadKind, Assemble, Table, HasKind, Ascii;
    EnvelopeReads(d, levels);
    var p := ReadEach(EnvelopeKinds(), d);
    if p.Some? {
      var v := DecodeValue(p.value.rest, levels);
      if v.Some? {
        BoundSnoc(sha, p.value.value, v.value.value, body, digest, q, tag);
      }
      if Bound(sha, p.value.value, body, digest, q, tag) {
        var t := p.value.value[5].n;
        TableIsSound(t, levels);
        ReadRefinesDecode(MapK(Table(t)), p.value.rest, levels);
        if v.Some? {
          MapOnly(v.value.value, Table(t));
        }
      }
    }
  }

  lemma BoundSnoc(sha: Hash, items: seq<Value>, v: Value, body: seq<byte>, digest: seq<byte>, q: Bytes16, tag: Bytes8)
    requires |items| == 6
    ensures Bound(sha, items + [v], body, digest, q, tag) <==> Bound(sha, items, body, digest, q, tag)
    ensures (items + [v])[5] == items[5] && (items + [v])[6] == v
  {}

  lemma MapOnly(v: Value, fields: seq<Field>)
    ensures HasKind(v, MapK(fields)) ==> v.Map? && HasKind(Map(v.entries), MapK(fields))
    ensures v.Map? && HasKind(Map(v.entries), MapK(fields)) ==> HasKind(v, MapK(fields))
  {}

  /** For every byte string, queue and key tag, the direct decoder returns a record exactly when
      the reference decoder returns that record. */
  lemma DirectIsReference(sha: Hash, data: seq<byte>, q: Bytes16, tag: Bytes8)
    ensures DirectDecode(sha, data, q, tag) == ValueDecode(sha, data, q, tag)
  {
    hide DecodeItems, DecodeEntries, ReadEach, ReadKind, Bound, FromFields, Assemble;
    var s := SplitSeal(data);
    if s.Some? {
      ReadIsReference(sha, s.value.0, s.value.1, q, tag, MAX_DEPTH);
    }
  }

  lemma ReadIsReference(sha: Hash, body: seq<byte>, digest: seq<byte>, q: Bytes16, tag: Bytes8, levels: nat)
    requires levels > 3
    ensures var v := Whole(DecodeValue(body, levels));
            ReadRecord(sha, body, digest, q, tag)
            == if v.Some? then FromEnvelope(sha, v.value, body, digest, q, tag) else None
  {
    hide DecodeItems, DecodeEntries, ReadEnvelope, Bound, FromFields;
    var h := DecodeHead(body);
    if h.Some? {
      if h.value.major == 4 && h.value.value == 7 {
        BodyAgrees(sha, h.value.rest, body, digest, q, tag, levels - 1);
      }
    }
  }

  // ---------- The bytes on disk ----------

  lemma SmallHead(major: nat, n: nat)
    requires major < 8 && n < 24
    ensures EncodeHead(major, n) == [32 * major + n]
  {}

  lemma OneMoreByte(n: nat, w: nat, b: byte)
    ensures BigEndian(256 * n + b, w + 1) == BigEndian(n, w) + [b]
  {}

  lemma FourMoreBytes(n: nat, w: nat, a: byte, b: byte, c: byte, d: byte)
    ensures BigEndian(256 * (256 * (256 * (256 * n + a) + b) + c) + d, w + 4) == BigEndian(n, w) + [a, b, c, d]
  {
    hide BigEndian;
    OneMoreByte(n, w, a);
    OneMoreByte(256 * n + a, w + 1, b);
    OneMoreByte(256 * (256 * n + a) + b, w + 2, c);
    OneMoreByte(256 * (256 * (256 * n + a) + b) + c, w + 3, d);
    assert BigEndian(n, w) + [a] + [b] + [c] + [d] == BigEndian(n, w) + [a, b, c, d];
  }

  lemma MagicDigits()
    ensures BigEndian(MAGIC, 8) == [0x53, 0x54, 0x4f, 0x57, 0x51, 0x31, 0x2d, 0x00]
  {
    assert BigEndian(0, 0) == [];
    hide BigEndian;
    FourMoreBytes(0, 0, 0x53, 0x54, 0x4f, 0x57);
    FourMoreBytes(0x5354_4f57, 4, 0x51, 0x31, 0x2d, 0x00);
  }

  lemma MagicBytes()
    ensures Encode(Uint(MAGIC)) == [0x1b, 0x53, 0x54, 0x4f, 0x57, 0x51, 0x31, 0x2d, 0x00]
  {
    hide BigEndian;
    MagicDigits();
    assert EncodeHead(0, MAGIC) == [0x1b] + BigEndian(MAGIC, 8);
  }

  lemma Leading(head: seq<byte>, next: seq<byte>, rest: seq<byte>)
    ensures head + next <= head + (next + rest)
  {
    assert head + (next + rest) == (head + next) + rest;
  }

  lemma ItemsBegin(items: seq<Value>)
    requires |items| == 7
    ensures [0x87] + Encode(items[0]) <= Encode(Array(items))
  {
    SmallHead(4, 7);
    Leading([0x87], Encode(items[0]), EncodeItems(items[1..]));
  }

  /** Every record begins with an array of seven and the format's magic. */
  lemma RecordsBegin(t: nat, fields: Value, q: Bytes16, tag: Bytes8)
    ensures [0x87, 0x1b, 0x53, 0x54, 0x4f, 0x57, 0x51, 0x31, 0x2d, 0x00] <= Encode(Envelope(t, fields, q, tag))
  {
    hide Encode;
    ItemsBegin(Preamble(t, q, tag) + [fields]);
    MagicBytes();
    assert [0x87] + [0x1b, 0x53, 0x54, 0x4f, 0x57, 0x51, 0x31, 0x2d, 0x00]
        == [0x87, 0x1b, 0x53, 0x54, 0x4f, 0x57, 0x51, 0x31, 0x2d, 0x00];
  }
}
