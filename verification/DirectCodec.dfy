/** The direct record decoder and writer, step by step: the decoder drives the CBOR cursor and
    fills one slot per table field; the writer appends each field in table order. */
module DirectCodec {
  import opened Wrappers
  import opened Bytes
  import opened Cbor
  import opened CborReader
  import opened FieldReader
  import opened Records
  import opened RecordCodec
  import opened RecordLaws
  import opened RecordTheorems

  // ---------- Reading ----------

  lemma EachStep(done: seq<Value>, kinds: seq<Kind>, d: seq<byte>)
    requires kinds != []
    ensures match ReadKind(kinds[0], d)
            case None => ReadEach(kinds, d).None?
            case Some(v) => After(done, ReadEach(kinds, d)) == After(done + [v.value], ReadEach(kinds[1..], v.rest))
  {
    var v := ReadKind(kinds[0], d);
    if v.Some? && ReadEach(kinds[1..], v.value.rest).Some? {
      var vs := ReadEach(kinds[1..], v.value.rest).value.value;
      assert done + ([v.value.value] + vs) == done + [v.value.value] + vs;
    }
  }

  lemma NoMoreKinds(done: seq<Value>, d: seq<byte>)
    ensures After(done, ReadEach([], d)) == Some(Parsed(done, d))
  {
    assert done + [] == done;
  }

  lemma TextIsText(d: seq<byte>)
    requires ReadKind(TextK, d).Some?
    ensures ReadKind(TextK, d).value.value.Text?
  {
    var h := DecodeHead(d).value;
    assert ReadKind(TextK, d) == ReadAfterHead(TextK, h);
  }

  lemma FieldStep(done: seq<Entry>, fields: seq<Field>, from: nat, d: seq<byte>, n: nat)
    requires n > 0
    ensures match ReadKind(TextK, d)
            case None => ReadFields(fields, from, d, n).None?
            case Some(k) =>
              && k.value.Text?
              && var i := Position(fields, k.value.text);
              if i < from || i == |fields| then ReadFields(fields, from, d, n).None?
              else
                match ReadKind(fields[i].kind, k.rest)
                case None => ReadFields(fields, from, d, n).None?
                case Some(v) =>
                  After(done, ReadFields(fields, from, d, n))
                  == After(done + [Entry(k.value, v.value)], ReadFields(fields, i + 1, v.rest, n - 1))
  {
    var k := ReadKind(TextK, d);
    if k.Some? {
      TextIsText(d);
      var i := Position(fields, k.value.value.text);
      if from <= i < |fields| && ReadKind(fields[i].kind, k.value.rest).Some? {
        var v := ReadKind(fields[i].kind, k.value.rest).value;
        var e, more := Entry(k.value.value, v.value), ReadFields(fields, i + 1, v.rest, n - 1);
        if more.Some? {
          assert done + ([e] + more.value.value) == done + [e] + more.value.value;
        }
      }
    }
  }

  lemma NoMoreFields(done: seq<Entry>, fields: seq<Field>, from: nat, d: seq<byte>)
    ensures After(done, ReadFields(fields, from, d, 0)) == Some(Parsed(done, d))
  {
    assert done + [] == done;
  }

  lemma {:induction false} FindSnoc(es: seq<Entry>, e: Entry, name: seq<byte>)
    ensures Find(es + [e], name) ==
            if Find(es, name).Some? then Find(es, name) else if e.key == Text(name) then Some(e.value) else None
  {
    if es == [] {
      assert es + [e] == [e] && [e][1..] == [];
    } else {
      assert (es + [e])[1..] == es[1..] + [e];
      FindSnoc(es[1..], e, name);
    }
  }

  /** The slots hold what lookups in the entries read so far would find. */
  ghost predicate Filled(slots: seq<Option<Value>>, fields: seq<Field>, done: seq<Entry>, from: nat) {
    && slots == Lookups(done, fields)
    && forall i :: from <= i < |fields| ==> slots[i].None?
  }

  lemma FillSlot(slots: seq<Option<Value>>, fields: seq<Field>, done: seq<Entry>, from: nat, i: nat, v: Value)
    requires Sorted(fields) && Filled(slots, fields, done, from) && from <= i < |fields|
    ensures Filled(slots[i := Some(v)], fields, done + [Entry(Text(fields[i].name), v)], i + 1)
  {
    var e := Entry(Text(fields[i].name), v);
    forall j | 0 <= j < |fields|
      ensures Lookups(done + [e], fields)[j] == slots[i := Some(v)][j]
    {
      FindSnoc(done, e, fields[j].name);
      assert slots[j] == Find(done, fields[j].name);
      SamePosition(fields, i);
      SamePosition(fields, j);
    }
  }

  method ReadTyped(r: Reader, k: Kind, ghost levels: nat) returns (o: Option<Value>)
    requires r.Valid() && Sound(k, levels)
    modifies r`pos
    ensures r.Valid()
    ensures match ReadKind(k, old(r.Rest()))
            case None => o.None?
            case Some(p) => o == Some(p.value) && r.Rest() == p.rest
    decreases |r.data| - r.pos, 0
  {
    var h := r.ReadHead();
    if h.None? {
      return None;
    }
    o := ReadAfter(r, k, h.value.0, h.value.1, levels);
  }

  /** A value of the given shape, its head already read. */
  method ReadAfter(r: Reader, k: Kind, major: nat, n: nat, ghost levels: nat) returns (o: Option<Value>)
    requires r.Valid() && Sound(k, levels)
    modifies r`pos
    ensures r.Valid()
    ensures match ReadAfterHead(k, Head(major, n, old(r.Rest())))
            case None => o.None?
            case Some(p) => o == Some(p.value) && r.Rest() == p.rest
    decreases |r.data| - r.pos, 2
  {
    hide ReadEach, ReadFields, Sorted, Collect;
    match k {
      case UintK(limit) => o := if major == 0 && n <= limit then Some(Uint(n)) else None;
      case BoolK => o := if major == 7 && (n == 20 || n == 21) then Some(Bool(n == 21)) else None;
      case FixedK(width) =>
        if major != 2 {
          return None;
        }
        var b := r.Take(n);
        o := if b.Some? && n == width then Some(Bytes(b.value)) else None;
      case BytesK =>
        if major != 2 {
          return None;
        }
        var b := r.Take(n);
        o := if b.Some? then Some(Bytes(b.value)) else None;
      case TextK =>
        if major != 3 {
          return None;
        }
        var b := r.Take(n);
        o := if b.Some? && ValidUtf8(b.value) then Some(Text(b.value)) else None;
      case ListK(item) =>
        if major != 4 || n == 0 {
          return None;
        }
        var items := ReadAll(r, seq(n, _ => item), levels - 1);
        o := if items.Some? then Some(Array(items.value)) else None;
      case MapK(fields) =>
        if major != 5 {
          return None;
        }
        var slots := ReadTable(r, k, n, levels);
        o := if slots.Some? then Some(Map(Collect(fields, slots.value, 0))) else None;
    }
  }

  method ReadAll(r: Reader, kinds: seq<Kind>, ghost levels: nat) returns (o: Option<seq<Value>>)
    requires r.Valid() && forall i :: 0 <= i < |kinds| ==> Sound(kinds[i], levels)
    modifies r`pos
    ensures r.Valid()
    ensures match ReadEach(kinds, old(r.Rest()))
            case None => o.None?
            case Some(p) => o == Some(p.value) && r.Rest() == p.rest
    decreases |r.data| - r.pos, 1
  {
    hide ReadEach, ReadKind, Sound;
    ghost var whole := ReadEach(kinds, r.Rest());
    AfterNothing(whole);
    assert kinds[0..] == kinds;
    var items: seq<Value> := [];
    for i := 0 to |kinds|
      invariant r.Valid() && old(r.pos) <= r.pos
      invariant whole == After(items, ReadEach(kinds[i..], r.Rest()))
    {
      EachStep(items, kinds[i..], r.Rest());
      assert kinds[i..][1..] == kinds[i + 1..];
      var v := ReadTyped(r, kinds[i], levels);
      if v.None? {
        return None;
      }
      items := items + [v.value];
    }
    NoMoreKinds(items, r.Rest());
    return Some(items);
  }

  /** Reads the entries of a map into one slot per table field, keys checked by position alone. */
  method ReadTable(r: Reader, k: Kind, n: nat, ghost levels: nat) returns (o: Option<seq<Option<Value>>>)
    requires r.Valid() && k.MapK? && Sound(k, levels)
    modifies r`pos
    ensures r.Valid()
    ensures match ReadAfterHead(k, Head(5, n, old(r.Rest())))
            case None => o.None?
            case Some(p) =>
              && p.value.Map? && r.Rest() == p.rest
              && o == Some(Lookups(p.value.entries, k.fields))
              && p.value.entries == Collect(k.fields, o.value, 0)
    decreases |r.data| - r.pos, 1
  {
    hide ReadFields, ReadKind, Sorted, Collect, Find, Conforms, DecodeEntries;
    var fields := k.fields;
    ghost var start := r.Rest();
    ghost var whole := ReadFields(fields, 0, start, n);
    ghost var done: seq<Entry> := [];
    AfterNothing(whole);
    var slots := seq(|fields|, _ => None);
    NothingFilled(slots, fields);
    var from := 0;
    for j := 0 to n
      invariant r.Valid() && old(r.pos) <= r.pos
      invariant whole == After(done, ReadFields(fields, from, r.Rest(), n - j))
      invariant |slots| == |fields| && Filled(slots, fields, done, from)
    {
      FieldStep(done, fields, from, r.Rest(), n - j);
      var key := ReadTyped(r, TextK, 1);
      if key.None? {
        return None;
      }
      var i := Position(fields, key.value.text);
      if i < from || i == |fields| {
        return None;
      }
      var v := ReadTyped(r, fields[i].kind, levels - 1);
      if v.None? {
        return None;
      }
      FillSlot(slots, fields, done, from, i, v.value);
      slots := slots[i := Some(v.value)];
      done := done + [Entry(key.value, v.value)];
      from := i + 1;
    }
    NoMoreFields(done, fields, from, r.Rest());
    FieldsRefine(k, 0, start, n, levels - 1);
    ConformsCollects(done, done, fields, 0);
    for i := 0 to |fields|
      invariant forall j :: 0 <= j < i && fields[j].required ==> slots[j].Some?
    {
      if fields[i].required && slots[i].None? {
        assert Find(done, fields[i].name).None?;
        return None;
      }
    }
    assert Complete(done, fields) by {
      forall i | 0 <= i < |fields| && fields[i].required ensures Find(done, fields[i].name).Some? {
        assert slots[i] == Find(done, fields[i].name);
      }
    }
    return Some(slots);
  }

  lemma NothingFilled(slots: seq<Option<Value>>, fields: seq<Field>)
    requires |slots| == |fields| && forall i :: 0 <= i < |slots| ==> slots[i].None?
    ensures Filled(slots, fields, [], 0)
  {
    assert slots == Lookups([], fields);
  }

  /** Decodes and fully verifies a record without building a value tree. */
  method DecodeRecord(sha: Hash, data: seq<byte>, q: Bytes16, tag: Bytes8) returns (o: Option<Record>)
    ensures o == ValueDecode(sha, data, q, tag)
  {
    hide ValueDecode, ReadRecord;
    DirectIsReference(sha, data, q, tag);
    var s := SplitSeal(data);
    if s.None? {
      return None;
    }
    var r := new Reader(s.value.0);
    o := DecodeBodyOf(sha, r, s.value.0, s.value.1, q, tag);
  }

  method DecodeBodyOf(sha: Hash, r: Reader, body: seq<byte>, digest: seq<byte>, q: Bytes16, tag: Bytes8)
    returns (o: Option<Record>)
    requires r.Valid() && r.Rest() == body
    modifies r`pos
    ensures o == ReadRecord(sha, body, digest, q, tag)
  {
    hide ReadEnvelope, DecodeHead;
    var h := r.ReadHead();
    if h.None? || h.value.0 != 4 || h.value.1 != 7 {
      return None;
    }
    o := DecodeEnvelope(sha, r, body, digest, q, tag, 62);
  }

  method DecodeEnvelope(sha: Hash, r: Reader, body: seq<byte>, digest: seq<byte>, q: Bytes16, tag: Bytes8,
                        ghost levels: nat)
    returns (o: Option<Record>)
    requires r.Valid() && levels >= 3
    modifies r`pos
    ensures o == ReadEnvelope(sha, old(r.Rest()), body, digest, q, tag)
  {
    hide ReadEach, ReadKind, Bound, Assemble, Table, Collect;
    EnvelopeKindsAreSound(levels);
    var items := ReadAll(r, EnvelopeKinds(), levels);
    if items.None? {
      return None;
    }
    if !Bound(sha, items.value, body, digest, q, tag) {
      return None;
    }
    var t := TypeOf(sha, items.value, body, digest, q, tag);
    var slots := ReadRecordFields(r, t, levels);
    if slots.None? {
      return None;
    }
    var done := r.Done();
    if !done {
      return None;
    }
    o := Assemble(t, slots.value);
  }

  /** The fields map of a record of type `t`. */
  method ReadRecordFields(r: Reader, t: nat, ghost levels: nat) returns (o: Option<seq<Option<Value>>>)
    requires r.Valid() && 1 <= t <= 8 && levels >= 3
    modifies r`pos
    ensures r.Valid()
    ensures match ReadKind(MapK(Table(t)), old(r.Rest()))
            case None => o.None?
            case Some(p) => p.value.Map? && r.Rest() == p.rest && o == Some(Lookups(p.value.entries, Table(t)))
  {
    hide Table, Collect, ReadFields, DecodeHead;
    TableIsSound(t, levels);
    var h := r.ReadHead();
    if h.None? || h.value.0 != 5 {
      return None;
    }
    o := ReadTable(r, MapK(Table(t)), h.value.1, levels);
  }

  lemma EnvelopeKindsAreSound(levels: nat)
    requires levels > 0
    ensures forall i :: 0 <= i < |EnvelopeKinds()| ==> Sound(EnvelopeKinds()[i], levels)
  {}

  function TypeOf(sha: Hash, items: seq<Value>, body: seq<byte>, digest: seq<byte>, q: Bytes16, tag: Bytes8): (t: nat)
    requires |items| == 6 && Bound(sha, items, body, digest, q, tag)
    ensures 1 <= t <= 8 && items[5] == Uint(t)
  {
    items[5].n
  }

  // ---------- Writing ----------

  /** What remains to be written after the first `i` slots brings `out` to the whole map. */
  ghost predicate Wrote(r: Record, start: seq<byte>, out: seq<byte>, i: nat) {
    out + Join(Decorate(Collect(Table(TypeNumber(r)), Slots(r), i))) == start + Join(Decorate(Ordered(r)))
  }

  lemma SlotWritten(r: Record, start: seq<byte>, out: seq<byte>, i: nat)
    requires i < Width(TypeNumber(r)) && Wrote(r, start, out, i)
    ensures match Slots(r)[i]
            case None => Wrote(r, start, out, i + 1)
            case Some(v) => Wrote(r, start, out + Encode(Text(Table(TypeNumber(r))[i].name)) + Encode(v), i + 1)
  {
    hide Encode, Table, Slots, Collect;
    var f, s := Table(TypeNumber(r)), Slots(r);
    CollectStep(f, s, i);
    if s[i].Some? {
      var d, rest := Decorated(Encode(Text(f[i].name)), Encode(s[i].value)), Decorate(Collect(f, s, i + 1));
      assert ([d] + rest)[1..] == rest;
      assert out + (d.key + d.value + Join(rest)) == out + d.key + d.value + Join(rest);
    }
  }

  lemma AllWritten(r: Record, start: seq<byte>, out: seq<byte>)
    requires Wrote(r, start, out, Width(TypeNumber(r)))
    ensures out == start + Join(Decorate(Ordered(r)))
  {
    NothingLeft(Table(TypeNumber(r)), Slots(r), Width(TypeNumber(r)));
    assert out + [] == out;
  }

  /** The slot `i` of the record is this field with this value. */
  ghost predicate Writes(r: Record, i: nat, key: string, v: Option<Value>) {
    i < Width(TypeNumber(r)) && Table(TypeNumber(r))[i].name == Ascii(key) && Slots(r)[i] == v
  }

  method PutText(out: seq<byte>, t: seq<byte>) returns (o: seq<byte>)
    ensures o == out + Encode(Text(t))
  {
    o := out + EncodeHead(3, |t|);
    o := o + t;
  }

  method PutKey(out: seq<byte>, key: string, v: u64, ghost r: Record, ghost start: seq<byte>, ghost i: nat)
    returns (o: seq<byte>)
    requires Wrote(r, start, out, i) && Writes(r, i, key, Some(Uint(v)))
    ensures Wrote(r, start, o, i + 1)
  {
    hide Wrote, Table, Slots;
    SlotWritten(r, start, out, i);
    o := PutText(out, Ascii(key));
    o := o + EncodeHead(0, v);
  }

  method PutKeyBytes(out: seq<byte>, key: string, b: Blob, ghost r: Record, ghost start: seq<byte>, ghost i: nat)
    returns (o: seq<byte>)
    requires Wrote(r, start, out, i) && Writes(r, i, key, Some(Bytes(b)))
    ensures Wrote(r, start, o, i + 1)
  {
    hide Wrote, Table, Slots;
    SlotWritten(r, start, out, i);
    o := PutText(out, Ascii(key));
    ghost var before := o;
    o := o + EncodeHead(2, |b|);
    o := o + b;
    Regroup(before, EncodeHead(2, |b|), b);
  }

  method PutKeyText(out: seq<byte>, key: string, t: Utf8, ghost r: Record, ghost start: seq<byte>, ghost i: nat)
    returns (o: seq<byte>)
    requires Wrote(r, start, out, i) && Writes(r, i, key, Some(Text(t)))
    ensures Wrote(r, start, o, i + 1)
  {
    hide Wrote, Table, Slots;
    SlotWritten(r, start, out, i);
    o := PutText(out, Ascii(key));
    o := PutText(o, t);
  }

  method PutKeyBool(out: seq<byte>, key: string, b: bool, ghost r: Record, ghost start: seq<byte>, ghost i: nat)
    returns (o: seq<byte>)
    requires Wrote(r, start, out, i) && Writes(r, i, key, Some(Bool(b)))
    ensures Wrote(r, start, o, i + 1)
  {
    hide Wrote, Table, Slots;
    SlotWritten(r, start, out, i);
    o := PutText(out, Ascii(key));
    o := o + [if b then 0xf5 else 0xf4];
  }

  // The basis: a nested map of three numbers, in encoded key order.

  lemma BasisBytes(b: Basis)
    ensures Encode(SortedBasis(Some(b)).value)
         == EncodeHead(5, 3)
            + Encode(Text(Ascii("prev_duration_ns"))) + Encode(Uint(b.prevDuration))
            + Encode(Text(Ascii("prev_store_time_ns"))) + Encode(Uint(b.prevStoreTime))
            + Encode(Text(Ascii("observed_watermark_ns"))) + Encode(Uint(b.observedWatermark))
  {
    hide Ascii, Encode, Increasing, HasKind;
    var es := SortedBasis(Some(b)).value.entries;
    BasisFits(b);
    EncodeSortedMap(es);
    JoinThree(es, EncodeHead(5, 3));
  }

  lemma JoinThree(es: seq<Entry>, head: seq<byte>)
    requires |es| == 3
    ensures head + Join(Decorate(es))
            == head + Encode(es[0].key) + Encode(es[0].value) + Encode(es[1].key) + Encode(es[1].value)
                                         + Encode(es[2].key) + Encode(es[2].value)
  {
    hide Encode, Join;
    var a := head + Encode(es[0].key) + Encode(es[0].value);
    var b := a + Encode(es[1].key) + Encode(es[1].value);
    var c := b + Encode(es[2].key) + Encode(es[2].value);
    JoinStep(es, head);
    JoinStep(es[1..], a);
    JoinStep(es[1..][1..], b);
    assert Join(Decorate(es[1..][1..][1..])) == [] by { JoinNothing(); }
    assert c + [] == c;
  }

  lemma JoinNothing()
    ensures Join(Decorate([])) == []
  {}

  lemma JoinStep(es: seq<Entry>, head: seq<byte>)
    requires es != []
    ensures head + Join(Decorate(es)) == head + Encode(es[0].key) + Encode(es[0].value) + Join(Decorate(es[1..]))
  {
    hide Encode, Join;
    var a, b, c := Encode(es[0].key), Encode(es[0].value), Join(Decorate(es[1..]));
    JoinFirst(es);
    assert head + (a + b + c) == head + a + b + c;
  }

  method PutBasis(out: seq<byte>, b: Basis) returns (o: seq<byte>)
    ensures o == out + Encode(SortedBasis(Some(b)).value)
  {
    hide Encode, Ascii, SortedBasis;
    BasisBytes(b);
    var piece := EncodeHead(5, 3);
    piece := PutText(piece, Ascii("prev_duration_ns"));
    piece := PutUint(piece, b.prevDuration);
    piece := PutText(piece, Ascii("prev_store_time_ns"));
    piece := PutUint(piece, b.prevStoreTime);
    piece := PutText(piece, Ascii("observed_watermark_ns"));
    piece := PutUint(piece, b.observedWatermark);
    o := out + piece;
  }

  method PutUint(out: seq<byte>, n: u64) returns (o: seq<byte>)
    ensures o == out + Encode(Uint(n))
  {
    o := out + EncodeHead(0, n);
  }

  method PutKeyBasis(out: seq<byte>, b: Basis, ghost r: Record, ghost start: seq<byte>, ghost i: nat)
    returns (o: seq<byte>)
    requires Wrote(r, start, out, i) && Writes(r, i, "basis", SortedBasis(Some(b)))
    ensures Wrote(r, start, o, i + 1)
  {
    hide Wrote, Table, Slots, Encode;
    SlotWritten(r, start, out, i);
    o := PutText(out, Ascii("basis"));
    o := PutBasis(o, b);
  }

  method PutDigests(out: seq<byte>, ds: Digests) returns (o: seq<byte>)
    requires ds != []
    ensures o == out + Encode(DigestsOf(ds).value)
  {
    var items := DigestsOf(ds).value.items;
    o := out + EncodeHead(4, |ds|);
    ghost var start := o;
    for i := 0 to |ds|
      invariant o + EncodeItems(items[i..]) == start + EncodeItems(items)
    {
      ghost var before := o;
      o := o + EncodeHead(2, 32);
      o := o + ds[i];
      assert items[i..][1..] == items[i + 1..];
      assert Encode(items[i]) == EncodeHead(2, 32) + ds[i];
      Regroup(before, EncodeHead(2, 32), ds[i]);
      Regroup(before, Encode(items[i]), EncodeItems(items[i + 1..]));
    }
    assert EncodeItems(items[|ds|..]) == [] && o + [] == o;
    Regroup(out, EncodeHead(4, |ds|), EncodeItems(items));
  }

  method PutKeyDigests(out: seq<byte>, ds: Digests, ghost r: Record, ghost start: seq<byte>, ghost i: nat)
    returns (o: seq<byte>)
    requires ds != [] && Wrote(r, start, out, i) && Writes(r, i, "output_digests", DigestsOf(ds))
    ensures Wrote(r, start, o, i + 1)
  {
    hide Wrote, Table, Slots, Encode;
    SlotWritten(r, start, out, i);
    o := PutText(out, Ascii("output_digests"));
    o := PutDigests(o, ds);
  }

  // One writer per record type, each field in its table position.

  function One(b: bool): nat {
    if b then 1 else 0
  }

  /** The number of entries announced in the map's head. */
  function FieldCount(r: Record): nat {
    match r
    case FormatRecord(_, _, _, _, _, _) => 6
    case JobRecord(_, _, _, _, _, _, _, _, _) =>
      6 + One(r.notBefore.Some?) + One(r.payloadInline.Some?) + One(r.payloadKey.Some?)
    case ClaimRecord(_, _, _, _, _, _, _, _, _) => 7 + One(r.basis.Some?) + One(r.prevToken.Some?)
    case FailRecord(_, _, _, _, _) => 5
    case ReceiptRecord(_, _, _, _, _, _, _) => 6 + One(r.outputDigests != [])
    case DeadRecord(_, _, _, _) => 4
    case WatermarkRecord(_, _) => 2
    case QuarantineRecord(_, _, _, _, _) => 4 + One(r.detail.Some?)
  }

  function Count(slots: seq<Option<Value>>, i: nat): nat
    decreases |slots| - i
  {
    if i >= |slots| then 0 else One(slots[i].Some?) + Count(slots, i + 1)
  }

  lemma {:induction false} CollectCounts(fields: seq<Field>, slots: seq<Option<Value>>, i: nat)
    requires |slots| == |fields|
    ensures |Collect(fields, slots, i)| == Count(slots, i)
    decreases |slots| - i
  {
    if i < |slots| {
      CollectCounts(fields, slots, i + 1);
    }
  }

  lemma SlotsCount(r: Record)
    ensures Count(Slots(r), 0) == FieldCount(r)
  {
    hide Ascii;
    var s := Slots(r);
    var n := |s|;
    assert Count(s, n) == 0 && Count(s, n - 1) == One(s[n - 1].Some?);
    if n > 2 {
      assert Count(s, n - 2) == One(s[n - 2].Some?) + Count(s, n - 1);
      assert Count(s, n - 3) == One(s[n - 3].Some?) + Count(s, n - 2);
      assert Count(s, n - 4) == One(s[n - 4].Some?) + Count(s, n - 3);
      if n > 4 {
        assert Count(s, n - 5) == One(s[n - 5].Some?) + Count(s, n - 4);
      }
      if n > 6 {
        assert Count(s, n - 6) == One(s[n - 6].Some?) + Count(s, n - 5);
        assert Count(s, n - 7) == One(s[n - 7].Some?) + Count(s, n - 6);
      }
      if n > 8 {
        assert Count(s, n - 8) == One(s[n - 8].Some?) + Count(s, n - 7);
      }
    }
  }

  method WriteFormat(out: seq<byte>, r: Record) returns (o: seq<byte>)
    requires r.FormatRecord?
    ensures Wrote(r, out, o, 6)
  {
    hide Wrote, Ascii, Plain;
    hide JobFields, ClaimFields, FailFields, ReceiptFields, DeadFields, WatermarkFields, QuarantineFields;
    o := out;
    NothingWritten(r, out);
    o := PutKey(o, "shard_count", r.shardCount, r, out, 0);
    o := PutKey(o, "inline_limit", r.inlineLimit, r, out, 1);
    o := PutKey(o, "lease_bucket_width_ns", r.leaseWidth, r, out, 2);
    o := PutKey(o, "required_feature_bits", r.features, r, out, 3);
    o := PutKey(o, "delayed_bucket_width_ns", r.delayedWidth, r, out, 4);
    o := PutKey(o, "terminal_bucket_width_ns", r.terminalWidth, r, out, 5);
  }

  method WriteJob(out: seq<byte>, r: Record) returns (o: seq<byte>)
    requires r.JobRecord?
    ensures Wrote(r, out, o, 9)
  {
    hide Wrote, Ascii, Plain;
    hide FormatFields, ClaimFields, FailFields, ReceiptFields, DeadFields, WatermarkFields, QuarantineFields;
    o := out;
    NothingWritten(r, out);
    o := PutKeyBytes(o, "job_id", r.jobId, r, out, 0);
    if r.payloadKey.Some? {
      o := PutKeyText(o, "payload_key", r.payloadKey.value, r, out, 1);
    } else {
      SlotWritten(r, out, o, 1);
    }
    o := PutKeyText(o, "content_type", r.contentType, r, out, 2);
    if r.notBefore.Some? {
      o := PutKey(o, "not_before_ns", r.notBefore.value, r, out, 3);
    } else {
      SlotWritten(r, out, o, 3);
    }
    o := PutKeyBytes(o, "payload_digest", r.payloadDigest, r, out, 4);
    if r.payloadInline.Some? {
      o := PutKeyBytes(o, "payload_inline", r.payloadInline.value, r, out, 5);
    } else {
      SlotWritten(r, out, o, 5);
    }
    o := PutKey(o, "payload_length", r.payloadLength, r, out, 6);
    o := PutKey(o, "maximum_attempts", r.maximumAttempts, r, out, 7);
    o := PutKey(o, "created_store_time_ns", r.createdTime, r, out, 8);
  }

  method WriteClaim(out: seq<byte>, r: Record) returns (o: seq<byte>)
    requires r.ClaimRecord?
    ensures Wrote(r, out, o, 9)
  {
    hide Wrote, Ascii, Plain;
    hide FormatFields, JobFields, FailFields, ReceiptFields, DeadFields, WatermarkFields, QuarantineFields, BasisFields;
    o := out;
    NothingWritten(r, out);
    if r.basis.Some? {
      o := PutKeyBasis(o, r.basis.value, r, out, 0);
    } else {
      SlotWritten(r, out, o, 0);
    }
    o := PutKeyBytes(o, "job_id", r.jobId, r, out, 1);
    o := PutKey(o, "attempt", r.attempt, r, out, 2);
    o := PutKeyText(o, "worker_id", r.workerId, r, out, 3);
    o := PutKey(o, "generation", r.generation, r, out, 4);
    o := WriteCustody(out, o, r);
  }

  /** The claim fields from the predecessor's token on. */
  method WriteCustody(ghost start: seq<byte>, out: seq<byte>, r: Record) returns (o: seq<byte>)
    requires r.ClaimRecord? && Wrote(r, start, out, 5)
    ensures Wrote(r, start, o, 9)
  {
    hide Wrote, Ascii, Plain, SortedBasis;
    hide FormatFields, JobFields, FailFields, ReceiptFields, DeadFields, WatermarkFields, QuarantineFields, BasisFields;
    o := out;
    if r.prevToken.Some? {
      o := PutKeyBytes(o, "prev_token", r.prevToken.value, r, start, 5);
    } else {
      SlotWritten(r, start, o, 5);
    }
    o := PutKeyBool(o, "continuation", r.continuation, r, start, 6);
    o := PutKeyBytes(o, "worker_token", r.workerToken, r, start, 7);
    o := PutKey(o, "lease_duration_ns", r.leaseDuration, r, start, 8);
  }

  method WriteFail(out: seq<byte>, r: Record) returns (o: seq<byte>)
    requires r.FailRecord?
    ensures Wrote(r, out, o, 5)
  {
    hide Wrote, Ascii, Plain;
    hide FormatFields, JobFields, ClaimFields, ReceiptFields, DeadFields, WatermarkFields, QuarantineFields;
    o := out;
    NothingWritten(r, out);
    o := PutKeyBytes(o, "job_id", r.jobId, r, out, 0);
    o := PutKey(o, "reason", r.reason, r, out, 1);
    o := PutKey(o, "attempt", r.attempt, r, out, 2);
    o := PutKey(o, "generation", r.generation, r, out, 3);
    o := PutKey(o, "retry_not_before_ns", r.retryNotBefore, r, out, 4);
  }

  method WriteReceipt(out: seq<byte>, r: Record) returns (o: seq<byte>)
    requires r.ReceiptRecord?
    ensures Wrote(r, out, o, 7)
  {
    hide Wrote, Ascii, Plain;
    hide FormatFields, JobFields, ClaimFields, FailFields, DeadFields, WatermarkFields, QuarantineFields;
    o := out;
    NothingWritten(r, out);
    o := PutKeyBytes(o, "job_id", r.jobId, r, out, 0);
    o := PutKey(o, "attempt", r.attempt, r, out, 1);
    o := PutKeyText(o, "worker_id", r.workerId, r, out, 2);
    o := PutKey(o, "generation", r.generation, r, out, 3);
    o := PutKeyBytes(o, "worker_token", r.workerToken, r, out, 4);
    if r.outputDigests != [] {
      o := PutKeyDigests(o, r.outputDigests, r, out, 5);
    } else {
      SlotWritten(r, out, o, 5);
    }
    o := PutKeyBytes(o, "payload_digest", r.payloadDigest, r, out, 6);
  }

  method WriteDead(out: seq<byte>, r: Record) returns (o: seq<byte>)
    requires r.DeadRecord?
    ensures Wrote(r, out, o, 4)
  {
    hide Wrote, Ascii, Plain;
    hide FormatFields, JobFields, ClaimFields, FailFields, ReceiptFields, WatermarkFields, QuarantineFields;
    o := out;
    NothingWritten(r, out);
    o := PutKeyBytes(o, "job_id", r.jobId, r, out, 0);
    o := PutKey(o, "reason", r.reason, r, out, 1);
    o := PutKey(o, "attempt", r.attempt, r, out, 2);
    o := PutKey(o, "generation", r.generation, r, out, 3);
  }

  method WriteWatermark(out: seq<byte>, r: Record) returns (o: seq<byte>)
    requires r.WatermarkRecord?
    ensures Wrote(r, out, o, 2)
  {
    hide Wrote, Ascii, Plain;
    hide FormatFields, JobFields, ClaimFields, FailFields, ReceiptFields, DeadFields, QuarantineFields;
    o := out;
    NothingWritten(r, out);
    o := PutKey(o, "sequence", r.sequence, r, out, 0);
    o := PutKey(o, "highest_observed_wall_bucket", r.highestBucket, r, out, 1);
  }

  method WriteQuarantine(out: seq<byte>, r: Record) returns (o: seq<byte>)
    requires r.QuarantineRecord?
    ensures Wrote(r, out, o, 5)
  {
    hide Wrote, Ascii, Plain;
    hide FormatFields, JobFields, ClaimFields, FailFields, ReceiptFields, DeadFields, WatermarkFields;
    o := out;
    NothingWritten(r, out);
    o := PutKeyBytes(o, "qid", r.qid, r, out, 0);
    if r.detail.Some? {
      o := PutKey(o, "detail", r.detail.value, r, out, 1);
    } else {
      SlotWritten(r, out, o, 1);
    }
    o := PutKey(o, "reason", r.reason, r, out, 2);
    o := PutKeyText(o, "source_key", r.sourceKey, r, out, 3);
    o := PutKey(o, "observed_store_ns", r.observedTime, r, out, 4);
  }

  lemma NothingWritten(r: Record, out: seq<byte>)
    ensures Wrote(r, out, out, 0)
  {}

  /** Appends the fields map: its head and then each field in canonical key order. */
  method WriteFields(out: seq<byte>, r: Record) returns (o: seq<byte>)
    ensures o == out + Encode(Map(Fields(r)))
  {
    hide Wrote, Encode, Fields, Ordered, FieldCount, Slots, Table, Count;
    SlotsCount(r);
    CollectCounts(Table(TypeNumber(r)), Slots(r), 0);
    FieldsEncode(r);
    var start := out + EncodeHead(5, FieldCount(r));
    match r {
      case FormatRecord(_, _, _, _, _, _) => o := WriteFormat(start, r);
      case JobRecord(_, _, _, _, _, _, _, _, _) => o := WriteJob(start, r);
      case ClaimRecord(_, _, _, _, _, _, _, _, _) => o := WriteClaim(start, r);
      case FailRecord(_, _, _, _, _) => o := WriteFail(start, r);
      case ReceiptRecord(_, _, _, _, _, _, _) => o := WriteReceipt(start, r);
      case DeadRecord(_, _, _, _) => o := WriteDead(start, r);
      case WatermarkRecord(_, _) => o := WriteWatermark(start, r);
      case QuarantineRecord(_, _, _, _, _) => o := WriteQuarantine(start, r);
    }
    AllWritten(r, start, o);
    CountOrdered(r);
    Regroup(out, EncodeHead(5, FieldCount(r)), Join(Decorate(Ordered(r))));
  }

  lemma CountOrdered(r: Record)
    ensures |Ordered(r)| == FieldCount(r)
  {
    hide Slots, Table, FieldCount;
    SlotsCount(r);
    CollectCounts(Table(TypeNumber(r)), Slots(r), 0);
  }

  method PutBytes(out: seq<byte>, b: Blob) returns (o: seq<byte>)
    ensures o == out + Encode(Bytes(b))
  {
    o := out + EncodeHead(2, |b|);
    o := o + b;
  }

  /** Writes a record directly: for every record, exactly the bytes of the sorting encoder. */
  method EncodeRecord(sha: Hash, r: Record, q: Bytes16, tag: Bytes8) returns (o: seq<byte>)
    ensures o == ValueEncode(sha, r, q, tag)
  {
    hide Encode, Fields, Ascii;
    var t := TypeNumber(r);
    var body := EncodeHead(4, 7);
    body := PutUint(body, MAGIC);
    body := PutUint(body, MAJOR);
    body := PutUint(body, MINOR);
    body := PutBytes(body, q);
    body := PutBytes(body, tag);
    body := PutUint(body, t);
    body := WriteFields(body, r);
    EnvelopeBytes(t, Map(Fields(r)), q, tag);
    o := body + [0x58];
    o := o + [32];
    o := o + RecordDigest(sha, t, body);
    assert body + [0x58] + [32] == body + [0x58, 32];
  }

  lemma EnvelopeBytes(t: nat, fields: Value, q: Bytes16, tag: Bytes8)
    ensures Encode(Envelope(t, fields, q, tag))
         == EncodeHead(4, 7) + Encode(Uint(MAGIC)) + Encode(Uint(MAJOR)) + Encode(Uint(MINOR)) + Encode(Bytes(q))
            + Encode(Bytes(tag)) + Encode(Uint(t)) + Encode(fields)
  {
    hide Encode;
    var items := Preamble(t, q, tag);
    EnvelopeItems(items + [fields]);
    EncodeItemsSnoc(items, fields);
    EncodeItemsSnoc(items[..5], items[5]);
    EncodeItemsSnoc(items[..4], items[4]);
    EncodeItemsSnoc(items[..3], items[3]);
    EncodeItemsSnoc(items[..2], items[2]);
    EncodeItemsSnoc(items[..1], items[1]);
    EncodeItemsSnoc(items[..0], items[0]);
    assert items == items[..5] + [items[5]] && items[..5] == items[..4] + [items[4]]
           && items[..4] == items[..3] + [items[3]];
    assert items[..3] == items[..2] + [items[2]] && items[..2] == items[..1] + [items[1]]
           && items[..1] == items[..0] + [items[0]];
    assert EncodeItems(items[..0]) == [];
    var h := EncodeHead(4, 7);
    var a, b, c, d, e, f, g := Encode(items[0]), Encode(items[1]), Encode(items[2]), Encode(items[3]), Encode(items[4]),
                               Encode(items[5]), Encode(fields);
    assert h + ([] + a + b + c + d + e + f + g) == h + a + b + c + d + e + f + g;
  }

  lemma EnvelopeItems(items: seq<Value>)
    requires |items| == 7
    ensures Encode(Array(items)) == EncodeHead(4, 7) + EncodeItems(items)
  {}
}
