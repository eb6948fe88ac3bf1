/** Round trips of the record codec over whole byte strings, and the direct decoder's agreement
    with the reference decoder. */
module RecordLaws {
  import opened Wrappers
  import opened Bytes
  import opened Cbor
  import opened FieldReader
  import opened Records
  import opened RecordCodec

  // ---------- A record's fields in table order ----------

  /** The basis with its keys in encoded order, as it stands on the wire. */
  function SortedBasis(b: Option<Basis>): Option<Value> {
    if b.None? then None
    else Some(Map([E("prev_duration_ns", Uint(b.value.prevDuration)),
                   E("prev_store_time_ns", Uint(b.value.prevStoreTime)),
                   E("observed_watermark_ns", Uint(b.value.observedWatermark))]))
  }

  function Slots(r: Record): (s: seq<Option<Value>>)
    ensures |s| == Width(TypeNumber(r))
  {
    match r
    case FormatRecord(shards, lease, delayed, terminal, limit, features) =>
      [Some(Uint(shards)), Some(Uint(limit)), Some(Uint(lease)), Some(Uint(features)), Some(Uint(delayed)),
       Some(Uint(terminal))]
    case JobRecord(id, attempts, content, created, notBefore, digest, length, inline, key) =>
      [Some(Bytes(id)), TextOf(key), Some(Text(content)), UintOf(notBefore), Some(Bytes(digest)), BytesOf(inline),
       Some(Uint(length)), Some(Uint(attempts)), Some(Uint(created))]
    case ClaimRecord(id, generation, attempt, worker, token, lease, continuation, basis, prevToken) =>
      [SortedBasis(basis), Some(Bytes(id)), Some(Uint(attempt)), Some(Text(worker)), Some(Uint(generation)),
       BytesOf(prevToken),
       Some(Bool(continuation)), Some(Bytes(token)), Some(Uint(lease))]
    case FailRecord(id, generation, reason, attempt, retry) =>
      [Some(Bytes(id)), Some(Uint(reason)), Some(Uint(attempt)), Some(Uint(generation)), Some(Uint(retry))]
    case ReceiptRecord(id, generation, attempt, worker, token, digest, outputs) =>
      [Some(Bytes(id)), Some(Uint(attempt)), Some(Text(worker)), Some(Uint(generation)), Some(Bytes(token)),
       DigestsOf(outputs), Some(Bytes(digest))]
    case DeadRecord(id, generation, attempt, reason) =>
      [Some(Bytes(id)), Some(Uint(reason)), Some(Uint(attempt)), Some(Uint(generation))]
    case WatermarkRecord(bucket, sequence) => [Some(Uint(sequence)), Some(Uint(bucket))]
    case QuarantineRecord(qid, source, reason, observed, detail) =>
      [Some(Bytes(qid)), UintOf(detail), Some(Uint(reason)), Some(Text(source)), Some(Uint(observed))]
  }

  /** The entries the wire holds. */
  function Ordered(r: Record): seq<Entry> {
    Collect(Table(TypeNumber(r)), Slots(r), 0)
  }

  // ---------- The basis map ----------

  function BasisSlots(b: Basis): seq<Option<Value>> {
    [Some(Uint(b.prevDuration)), Some(Uint(b.prevStoreTime)), Some(Uint(b.observedWatermark))]
  }

  lemma BasisCollects(b: Basis)
    ensures SortedBasis(Some(b)) == Some(Map(Collect(BasisFields(), BasisSlots(b), 0)))
  {
    var f, s := BasisFields(), BasisSlots(b);
    assert Collect(f, s, 3) == [];
    assert Collect(f, s, 2) == [E("observed_watermark_ns", Uint(b.observedWatermark))];
    assert Collect(f, s, 1) == [E("prev_store_time_ns", Uint(b.prevStoreTime))] + Collect(f, s, 2);
    assert Collect(f, s, 0) == [E("prev_duration_ns", Uint(b.prevDuration))] + Collect(f, s, 1);
    assert Collect(f, s, 0) == SortedBasis(Some(b)).value.entries;
  }

  lemma BasisFits(b: Basis)
    ensures HasKind(SortedBasis(Some(b)).value, MapK(BasisFields()))
    ensures Increasing(Decorate(SortedBasis(Some(b)).value.entries))
    ensures AsBasis(SortedBasis(Some(b))) == Some(b)
  {
    var f, s := BasisFields(), BasisSlots(b);
    ClaimTableIsSorted();
    BasisCollects(b);
    CollectHasKind(f, s);
    LookupsOfCollect(f, s);
    var es := Collect(f, s, 0);
    assert Find(es, f[0].name) == Lookups(es, f)[0] && Find(es, f[1].name) == Lookups(es, f)[1]
           && Find(es, f[2].name) == Lookups(es, f)[2];
  }

  /** The reference path lists the basis in another order; the encoder's sort puts it right. */
  lemma BasisEncodings(b: Basis)
    ensures Encode(BasisOf(Some(b)).value) == Encode(SortedBasis(Some(b)).value)
  {
    hide Encode, Ascii, HasKind, Find, Collect, Gather, Less, Sorted, SortedBasis;
    BasisCollects(b);
    ClaimTableIsSorted();
    var p, f, s, o := BasisPairs(b), BasisFields(), BasisSlots(b), [1, 0, 2];
    assert Holds(p[0], f[o[0]], s[o[0]]) && Holds(p[1], f[o[1]], s[o[1]]) && Holds(p[2], f[o[2]], s[o[2]]);
    ArrangedEncodes(p, f, s, o);
  }

  lemma BasisReads(v: Value)
    requires HasKind(v, MapK(BasisFields())) && Increasing(Decorate(v.entries))
    ensures AsBasis(Some(v)).Some? && SortedBasis(AsBasis(Some(v))) == Some(v)
  {
    hide Ascii, Plain, Less, Encode, Sorted, Conforms;
    var f, es := BasisFields(), v.entries;
    ClaimTableIsSorted();
    MapShape(es, f);
    ConformsCollects(es, es, f, 0);
    assert f[0].required && f[1].required && f[2].required;
    assert HasKind(Find(es, f[0].name).value, f[0].kind) && HasKind(Find(es, f[1].name).value, f[1].kind)
        && HasKind(Find(es, f[2].name).value, f[2].kind);
    var b := AsBasis(Some(v)).value;
    assert Lookups(es, f) == BasisSlots(b);
    BasisCollects(b);
  }

  // ---------- Slots of well-formed records ----------

  lemma DigestsFit(ds: Digests)
    requires ds != []
    ensures HasKind(DigestsOf(ds).value, ListK(FixedK(32))) && AsDigests(DigestsOf(ds)) == ds
  {
    var items := DigestsOf(ds).value.items;
    assert AllDigests(items);
    assert AsDigests(DigestsOf(ds)) == ds;
  }

  lemma DigestsRead(v: Value)
    requires HasKind(v, ListK(FixedK(32))) && |v.items| < U64
    ensures DigestsOf(AsDigests(Some(v))) == Some(v)
  {
    forall i | 0 <= i < |v.items| ensures v.items[i].Bytes? && |v.items[i].bytes| == 32 {
      assert HasKind(v.items[i], FixedK(32));
    }
    var ds := AsDigests(Some(v));
    assert DigestsOf(ds).value.items == v.items;
  }

  /** A value of a field's simple shape fits it. */
  lemma ScalarFits(f: Field, s: Option<Value>)
    requires s.None? ==> !f.required
    requires s.Some? ==>
               match f.kind
               case UintK(limit) => s.value.Uint? && s.value.n <= limit
               case BoolK => s.value.Bool?
               case FixedK(width) => s.value.Bytes? && |s.value.bytes| == width
               case BytesK => s.value.Bytes?
               case TextK => s.value.Text?
               case _ => false
    ensures Fits(f, s)
  {}

  lemma JobSlotsFit(r: Record)
    requires r.JobRecord?
    ensures SlotsFit(JobFields(), Slots(r))
  {
    hide Ascii, Plain, Fits;
    var f, s := JobFields(), Slots(r);
    ScalarFits(f[0], s[0]);
    ScalarFits(f[1], s[1]);
    ScalarFits(f[2], s[2]);
    ScalarFits(f[3], s[3]);
    ScalarFits(f[4], s[4]);
    ScalarFits(f[5], s[5]);
    ScalarFits(f[6], s[6]);
    ScalarFits(f[7], s[7]);
    ScalarFits(f[8], s[8]);
  }

  lemma ClaimSlotsFit(r: Record)
    requires r.ClaimRecord?
    ensures SlotsFit(ClaimFields(), Slots(r))
  {
    hide Ascii, Plain, Fits, SortedBasis, BasisFields;
    var f, s := ClaimFields(), Slots(r);
    BasisSlotFits(r.basis);
    ScalarFits(f[1], s[1]);
    ScalarFits(f[2], s[2]);
    ScalarFits(f[3], s[3]);
    ScalarFits(f[4], s[4]);
    ScalarFits(f[5], s[5]);
    ScalarFits(f[6], s[6]);
    ScalarFits(f[7], s[7]);
    ScalarFits(f[8], s[8]);
  }

  lemma BasisSlotFits(b: Option<Basis>)
    ensures Fits(Optional("basis", MapK(BasisFields())), SortedBasis(b))
  {
    hide Ascii, Plain, ExpectKeys, Complete, Find, BasisFields;
    if b.Some? {
      BasisFits(b.value);
    }
  }

  lemma JobAndClaimAssemble(r: Record)
    requires (r.JobRecord? || r.ClaimRecord?) && WellFormed(r)
    ensures Assemble(TypeNumber(r), Slots(r)) == Some(r)
  {
    hide Ascii, Plain, Find, AsBasis, SortedBasis;
    if r.ClaimRecord? && r.basis.Some? {
      BasisFits(r.basis.value);
    } else {
      NoBasis();
    }
  }

  lemma NoBasis()
    ensures SortedBasis(None) == None && AsBasis(None) == None
  {}

  lemma ReceiptSlotsFit(r: Record)
    requires r.ReceiptRecord?
    ensures SlotsFit(ReceiptFields(), Slots(r))
  {
    hide Ascii, Plain, Fits, DigestsOf;
    var f, s := ReceiptFields(), Slots(r);
    DigestsSlotFits(r.outputDigests);
    ScalarFits(f[0], s[0]);
    ScalarFits(f[1], s[1]);
    ScalarFits(f[2], s[2]);
    ScalarFits(f[3], s[3]);
    ScalarFits(f[4], s[4]);
    ScalarFits(f[6], s[6]);
  }

  lemma DigestsSlotFits(ds: Digests)
    ensures Fits(Optional("output_digests", ListK(FixedK(32))), DigestsOf(ds)) && AsDigests(DigestsOf(ds)) == ds
  {
    hide Ascii, Plain;
    if ds != [] {
      DigestsFit(ds);
    }
  }

  lemma OtherSlotsFit(r: Record)
    requires !r.JobRecord? && !r.ClaimRecord? && !r.ReceiptRecord? && WellFormed(r)
    ensures SlotsFit(Table(TypeNumber(r)), Slots(r))
  {
    hide Ascii, Plain, Fits, JobFields, ClaimFields, ReceiptFields;
    var f, s := Table(TypeNumber(r)), Slots(r);
    ScalarFits(f[0], s[0]);
    ScalarFits(f[1], s[1]);
    if |f| > 2 {
      ScalarFits(f[2], s[2]);
      ScalarFits(f[3], s[3]);
    }
    if |f| > 4 {
      ScalarFits(f[4], s[4]);
    }
    if |f| > 5 {
      ScalarFits(f[5], s[5]);
    }
  }

  lemma OthersAssemble(r: Record)
    requires !r.JobRecord? && !r.ClaimRecord? && WellFormed(r)
    ensures Assemble(TypeNumber(r), Slots(r)) == Some(r)
  {
    hide Ascii, Plain, Find, DigestsOf, AsDigests;
    if r.ReceiptRecord? {
      DigestsSlotFits(r.outputDigests);
    }
  }

  lemma SlotsOfRecord(r: Record)
    requires WellFormed(r)
    ensures SlotsFit(Table(TypeNumber(r)), Slots(r)) && Assemble(TypeNumber(r), Slots(r)) == Some(r)
  {
    hide SlotsFit, Slots, Assemble;
    if r.JobRecord? {
      JobSlotsFit(r);
      JobAndClaimAssemble(r);
    } else if r.ClaimRecord? {
      ClaimSlotsFit(r);
      JobAndClaimAssemble(r);
    } else if r.ReceiptRecord? {
      ReceiptSlotsFit(r);
      OthersAssemble(r);
    } else {
      OtherSlotsFit(r);
      OthersAssemble(r);
    }
  }

  // ---------- The reference encoder writes the entries in table order ----------

  /** Where the table lists each field of the reference order. */
  function Order(t: nat): seq<nat>
    requires 1 <= t <= 8
  {
    if t == 1 then [0, 2, 4, 5, 1, 3]
    else if t == 2 then [0, 7, 2, 8, 3, 4, 6, 5, 1]
    else if t == 3 then [1, 4, 2, 3, 7, 8, 6, 0, 5]
    else if t == 4 then [0, 3, 1, 2, 4]
    else if t == 5 then [0, 3, 1, 2, 4, 6, 5]
    else if t == 6 then [0, 3, 2, 1]
    else if t == 7 then [1, 0]
    else [0, 3, 2, 4, 1]
  }

  lemma OrderCovers(t: nat)
    requires 1 <= t <= 8
    ensures forall i :: 0 <= i < |Table(t)| ==> i in Order(t)
    ensures forall j, k :: 0 <= j < k < |Order(t)| ==> Order(t)[j] != Order(t)[k]
  {
    hide Ascii, Plain;
    var o := Order(t);
    if t == 2 || t == 3 {
      assert o[0] < 9 && o[1] < 9 && o[2] < 9 && o[3] < 9 && o[4] < 9 && o[5] < 9 && o[6] < 9 && o[7] < 9 && o[8] < 9;
    } else if t == 1 {
      assert o[0] < 6 && o[1] < 6 && o[2] < 6 && o[3] < 6 && o[4] < 6 && o[5] < 6;
    } else if t == 5 {
      assert o[0] < 7 && o[1] < 7 && o[2] < 7 && o[3] < 7 && o[4] < 7 && o[5] < 7 && o[6] < 7;
    } else if t == 4 || t == 8 {
      assert o[0] < 5 && o[1] < 5 && o[2] < 5 && o[3] < 5 && o[4] < 5;
    } else if t == 6 {
      assert o[0] < 4 && o[1] < 4 && o[2] < 4 && o[3] < 4;
    } else {
      assert o[0] < 2 && o[1] < 2;
    }
  }

  lemma FormatPairsArranged(r: Record)
    requires r.FormatRecord?
    ensures Arranged(Pairs(r), Table(1), Slots(r), Order(1))
  {
    hide Ascii, Plain, Encode;
    OrderCovers(1);
    var p, f, s := Pairs(r), Table(1), Slots(r);
    assert Holds(p[0], f[0], s[0]) && Holds(p[1], f[2], s[2]) && Holds(p[2], f[4], s[4]);
    assert Holds(p[3], f[5], s[5]) && Holds(p[4], f[1], s[1]) && Holds(p[5], f[3], s[3]);
  }

  lemma JobPairsArranged(r: Record)
    requires r.JobRecord?
    ensures Arranged(Pairs(r), Table(2), Slots(r), Order(2))
  {
    hide Ascii, Plain, Encode;
    OrderCovers(2);
    var p, f, s := Pairs(r), Table(2), Slots(r);
    assert Holds(p[0], f[0], s[0]) && Holds(p[1], f[7], s[7]) && Holds(p[2], f[2], s[2]);
    assert Holds(p[3], f[8], s[8]) && Holds(p[4], f[3], s[3]) && Holds(p[5], f[4], s[4]);
    assert Holds(p[6], f[6], s[6]) && Holds(p[7], f[5], s[5]) && Holds(p[8], f[1], s[1]);
  }

  lemma ClaimPairsArranged(r: Record)
    requires r.ClaimRecord?
    ensures Arranged(Pairs(r), Table(3), Slots(r), Order(3))
  {
    hide Ascii, Plain, Encode;
    OrderCovers(3);
    if r.basis.Some? {
      BasisEncodings(r.basis.value);
    }
    var p, f, s := Pairs(r), Table(3), Slots(r);
    assert Holds(p[0], f[1], s[1]) && Holds(p[1], f[4], s[4]) && Holds(p[2], f[2], s[2]);
    assert Holds(p[3], f[3], s[3]) && Holds(p[4], f[7], s[7]) && Holds(p[5], f[8], s[8]);
    assert Holds(p[6], f[6], s[6]) && Holds(p[7], f[0], s[0]) && Holds(p[8], f[5], s[5]);
  }

  lemma FailPairsArranged(r: Record)
    requires r.FailRecord?
    ensures Arranged(Pairs(r), Table(4), Slots(r), Order(4))
  {
    hide Ascii, Plain, Encode;
    OrderCovers(4);
    var p, f, s := Pairs(r), Table(4), Slots(r);
    assert Holds(p[0], f[0], s[0]) && Holds(p[1], f[3], s[3]) && Holds(p[2], f[1], s[1]);
    assert Holds(p[3], f[2], s[2]) && Holds(p[4], f[4], s[4]);
  }

  lemma ReceiptPairsArranged(r: Record)
    requires r.ReceiptRecord?
    ensures Arranged(Pairs(r), Table(5), Slots(r), Order(5))
  {
    hide Ascii, Plain, Encode;
    OrderCovers(5);
    var p, f, s := Pairs(r), Table(5), Slots(r);
    assert Holds(p[0], f[0], s[0]) && Holds(p[1], f[3], s[3]) && Holds(p[2], f[1], s[1]);
    assert Holds(p[3], f[2], s[2]) && Holds(p[4], f[4], s[4]) && Holds(p[5], f[6], s[6]);
    assert Holds(p[6], f[5], s[5]);
  }

  lemma DeadPairsArranged(r: Record)
    requires r.DeadRecord? || r.WatermarkRecord?
    ensures Arranged(Pairs(r), Table(TypeNumber(r)), Slots(r), Order(TypeNumber(r)))
  {
    hide Ascii, Plain, Encode;
    OrderCovers(TypeNumber(r));
    var p, f, s := Pairs(r), Table(TypeNumber(r)), Slots(r);
    if r.WatermarkRecord? {
      assert Holds(p[0], f[1], s[1]) && Holds(p[1], f[0], s[0]);
    } else {
      assert Holds(p[0], f[0], s[0]) && Holds(p[1], f[3], s[3]) && Holds(p[2], f[2], s[2]) && Holds(p[3], f[1], s[1]);
    }
  }

  lemma QuarantinePairsArranged(r: Record)
    requires r.QuarantineRecord?
    ensures Arranged(Pairs(r), Table(8), Slots(r), Order(8))
  {
    hide Ascii, Plain, Encode;
    OrderCovers(8);
    var p, f, s := Pairs(r), Table(8), Slots(r);
    assert Holds(p[0], f[0], s[0]) && Holds(p[1], f[3], s[3]) && Holds(p[2], f[2], s[2]);
    assert Holds(p[3], f[4], s[4]) && Holds(p[4], f[1], s[1]);
  }

  lemma PairsArranged(r: Record)
    ensures Arranged(Pairs(r), Table(TypeNumber(r)), Slots(r), Order(TypeNumber(r)))
  {
    hide Arranged, Pairs, Slots, Order, Table;
    match r
    case FormatRecord(_, _, _, _, _, _) => FormatPairsArranged(r);
    case JobRecord(_, _, _, _, _, _, _, _, _) => JobPairsArranged(r);
    case ClaimRecord(_, _, _, _, _, _, _, _, _) => ClaimPairsArranged(r);
    case FailRecord(_, _, _, _, _) => FailPairsArranged(r);
    case ReceiptRecord(_, _, _, _, _, _, _) => ReceiptPairsArranged(r);
    case QuarantineRecord(_, _, _, _, _) => QuarantinePairsArranged(r);
    case _ => DeadPairsArranged(r);
  }

  /** For every record, the sorting encoder writes the fields in table order. */
  lemma FieldsEncode(r: Record)
    ensures Encode(Map(Fields(r))) == EncodeHead(5, |Ordered(r)|) + Join(Decorate(Ordered(r)))
    ensures Encode(Map(Fields(r))) == Encode(Map(Ordered(r)))
  {
    hide Arranged, Pairs, Slots, Order, Table, Encode, Gather, Collect, Sorted, Less;
    var t := TypeNumber(r);
    PairsArranged(r);
    OrderCovers(t);
    TableIsSorted(t);
    ArrangedEncodes(Pairs(r), Table(t), Slots(r), Order(t));
  }

  // ---------- Ordered entries are canonical ----------

  lemma {:induction false} DigestsCanonical(items: seq<Value>, levels: nat)
    requires levels > 0 && forall i :: 0 <= i < |items| ==> HasKind(items[i], FixedK(32))
    ensures CanonicalItems(items, levels)
  {
    if items != [] {
      assert HasKind(items[0], FixedK(32));
      DigestsCanonical(items[1..], levels);
    }
  }

  lemma {:induction false} CollectCanonical(fields: seq<Field>, slots: seq<Option<Value>>, k: nat, levels: nat)
    requires |slots| == |fields|
    requires forall i :: 0 <= i < |fields| ==> Canonical(Text(fields[i].name), levels)
    requires forall i :: 0 <= i < |fields| && slots[i].Some? ==> Canonical(slots[i].value, levels)
    ensures CanonicalEntries(Collect(fields, slots, k), levels)
    decreases |fields| - k
  {
    hide Canonical;
    if k < |fields| {
      CollectCanonical(fields, slots, k + 1, levels);
      CollectStep(fields, slots, k);
      if slots[k].Some? {
        assert Collect(fields, slots, k)[1..] == Collect(fields, slots, k + 1);
      }
    }
  }

  lemma NamesCanonical(t: nat, i: nat, levels: nat)
    requires 1 <= t <= 8 && i < |Table(t)| && levels > 0
    ensures Canonical(Text(Table(t)[i].name), levels)
  {
    PlainNames(t);
    NameCanonical(Table(t)[i], levels);
  }

  lemma PlainNames(t: nat)
    requires 1 <= t <= 8
    ensures forall i :: 0 <= i < |Table(t)| ==> Plain(Table(t)[i])
  {
    hide Ascii, Plain;
  }

  lemma NameCanonical(f: Field, levels: nat)
    requires Plain(f) && levels > 0
    ensures Canonical(Text(f.name), levels)
  {
    AsciiIsUtf8(f.name);
  }

  lemma BasisCanonical(b: Basis, levels: nat)
    requires levels > 1
    ensures Canonical(SortedBasis(Some(b)).value, levels)
  {
    hide Ascii, Plain, ValidUtf8, Less, Encode, HasKind, Find, Collect, AsBasis;
    var f, s := BasisFields(), BasisSlots(b);
    BasisCollects(b);
    forall i | 0 <= i < |f| ensures Canonical(Text(f[i].name), levels - 1) {
      NameCanonical(f[i], levels - 1);
    }
    BasisFits(b);
    CollectCanonical(f, s, 0, levels - 1);
  }

  lemma SlotsCanonical(r: Record, i: nat, levels: nat)
    requires i < |Slots(r)| && Slots(r)[i].Some? && levels > 1
    ensures Canonical(Slots(r)[i].value, levels)
  {
    hide Ascii, Plain;
    if r.ClaimRecord? && i == 0 {
      BasisCanonical(r.basis.value, levels);
    } else if r.ReceiptRecord? && i == 5 {
      DigestsFit(r.outputDigests);
      DigestsCanonical(DigestsOf(r.outputDigests).value.items, levels - 1);
    }
  }

  /** The fields map as it stands on the wire is canonical. */
  lemma OrderedCanonical(r: Record, levels: nat)
    requires levels > 2
    ensures Canonical(Map(Ordered(r)), levels)
  {
    hide Table, Slots, Sorted, Less;
    var t := TypeNumber(r);
    TableIsSorted(t);
    forall i | 0 <= i < |Table(t)| ensures Canonical(Text(Table(t)[i].name), levels - 1) {
      NamesCanonical(t, i, levels - 1);
    }
    forall i | 0 <= i < |Table(t)| && Slots(r)[i].Some? ensures Canonical(Slots(r)[i].value, levels - 1) {
      SlotsCanonical(r, i, levels - 1);
    }
    CollectCanonical(Table(t), Slots(r), 0, levels - 1);
    CollectIncreases(Table(t), Slots(r), 0);
    CollectLength(Table(t), Slots(r), 0);
    TableIsSmall(t);
  }

  lemma TableIsSmall(t: nat)
    requires 1 <= t <= 8
    ensures |Table(t)| <= 9
  {}

  // ---------- Reading back a record's own entries ----------

  /** A well-formed record is read back from its entries. */
  lemma OrderedReads(r: Record)
    requires WellFormed(r)
    ensures FromFields(TypeNumber(r), Ordered(r)) == Some(r)
  {
    hide Table, Slots, Sorted, Less, HasKind, Assemble, Collect;
    var t := TypeNumber(r);
    TableIsSorted(t);
    SlotsOfRecord(r);
    CollectHasKind(Table(t), Slots(r));
    LookupsOfCollect(Table(t), Slots(r));
  }

  // ---------- Reading accepts only a record's own entries ----------

  predicate SlotsHold(slots: seq<Option<Value>>, levels: nat) {
    forall i :: 0 <= i < |slots| && slots[i].Some? ==> Canonical(slots[i].value, levels)
  }

  /** The slot is one the record could have written. */
  lemma UintReads(f: Field, s: Option<Value>)
    requires Fits(f, s) && f.kind.UintK? && f.kind.limit < U64
    ensures UintOf(AsUint(s)) == s && (f.required ==> AsUint(s).Some?) && (s.Some? ==> AsUint(s).value <= f.kind.limit)
  {}

  lemma StringReads(f: Field, s: Option<Value>, levels: nat)
    requires Fits(f, s) && (s.Some? ==> Canonical(s.value, levels))
    ensures f.kind == FixedK(16) ==> BytesOf(AsId(s)) == s && (f.required ==> AsId(s).Some?)
    ensures f.kind == FixedK(32) ==> BytesOf(AsDigest(s)) == s && (f.required ==> AsDigest(s).Some?)
    ensures f.kind == BytesK ==> BytesOf(AsBlob(s)) == s
    ensures f.kind == TextK ==> TextOf(AsText(s)) == s && (f.required ==> AsText(s).Some?)
  {}

  lemma FormatReads(s: seq<Option<Value>>)
    requires |s| == 6 && SlotsFit(FormatFields(), s)
    ensures Assemble(1, s).Some? && Slots(Assemble(1, s).value) == s
    ensures Assemble(1, s).value.FormatRecord? && WellFormed(Assemble(1, s).value)
  {
    hide Ascii, Plain, Fits;
    var f := FormatFields();
    UintReads(f[0], s[0]);
    UintReads(f[1], s[1]);
    UintReads(f[2], s[2]);
    UintReads(f[3], s[3]);
    UintReads(f[4], s[4]);
    UintReads(f[5], s[5]);
  }

  lemma JobReads(s: seq<Option<Value>>, levels: nat)
    requires |s| == 9 && SlotsFit(JobFields(), s) && SlotsHold(s, levels) && Assemble(2, s).Some?
    ensures Assemble(2, s).value.JobRecord? && WellFormed(Assemble(2, s).value) && Slots(Assemble(2, s).value) == s
  {
    hide Ascii, Plain, Fits, Canonical;
    var f := JobFields();
    StringReads(f[0], s[0], levels);
    StringReads(f[1], s[1], levels);
    StringReads(f[2], s[2], levels);
    UintReads(f[3], s[3]);
    StringReads(f[4], s[4], levels);
    StringReads(f[5], s[5], levels);
    UintReads(f[6], s[6]);
    UintReads(f[7], s[7]);
    UintReads(f[8], s[8]);
  }

  lemma BasisSlotReads(s: Option<Value>, levels: nat)
    requires Fits(Optional("basis", MapK(BasisFields())), s) && (s.Some? ==> Canonical(s.value, levels))
    ensures SortedBasis(AsBasis(s)) == s
  {
    hide Ascii, Plain;
    if s.Some? {
      BasisReads(s.value);
    }
  }

  lemma BoolReads(f: Field, s: Option<Value>)
    requires Fits(f, s) && f.kind.BoolK? && f.required
    ensures AsBool(s).Some? && Some(Bool(AsBool(s).value)) == s
  {}

  lemma ClaimReads(s: seq<Option<Value>>, levels: nat)
    requires |s| == 9 && SlotsFit(ClaimFields(), s) && SlotsHold(s, levels) && Assemble(3, s).Some?
    ensures Assemble(3, s).value.ClaimRecord? && WellFormed(Assemble(3, s).value) && Slots(Assemble(3, s).value) == s
  {
    hide Ascii, Plain, Fits, Canonical, BasisFields, AsBasis, SortedBasis;
    var f := ClaimFields();
    BasisSlotReads(s[0], levels);
    StringReads(f[1], s[1], levels);
    UintReads(f[2], s[2]);
    StringReads(f[3], s[3], levels);
    UintReads(f[4], s[4]);
    StringReads(f[5], s[5], levels);
    BoolReads(f[6], s[6]);
    StringReads(f[7], s[7], levels);
    UintReads(f[8], s[8]);
  }

  lemma FailReads(s: seq<Option<Value>>, levels: nat)
    requires |s| == 5 && SlotsFit(FailFields(), s) && SlotsHold(s, levels)
    ensures Assemble(4, s).Some? && Assemble(4, s).value.FailRecord? && Slots(Assemble(4, s).value) == s
  {
    hide Ascii, Plain, Fits, Canonical;
    var f := FailFields();
    StringReads(f[0], s[0], levels);
    UintReads(f[1], s[1]);
    UintReads(f[2], s[2]);
    UintReads(f[3], s[3]);
    UintReads(f[4], s[4]);
  }

  lemma DigestsSlotReads(s: Option<Value>, levels: nat)
    requires Fits(Optional("output_digests", ListK(FixedK(32))), s) && (s.Some? ==> Canonical(s.value, levels))
    ensures DigestsOf(AsDigests(s)) == s
  {
    if s.Some? {
      DigestsRead(s.value);
    }
  }

  lemma ReceiptReads(s: seq<Option<Value>>, levels: nat)
    requires |s| == 7 && SlotsFit(ReceiptFields(), s) && SlotsHold(s, levels)
    ensures Assemble(5, s).Some? && Assemble(5, s).value.ReceiptRecord? && Slots(Assemble(5, s).value) == s
  {
    hide Ascii, Plain, Fits, Canonical, AsDigests, DigestsOf;
    var f := ReceiptFields();
    StringReads(f[0], s[0], levels);
    UintReads(f[1], s[1]);
    StringReads(f[2], s[2], levels);
    UintReads(f[3], s[3]);
    StringReads(f[4], s[4], levels);
    DigestsSlotReads(s[5], levels);
    StringReads(f[6], s[6], levels);
  }

  lemma DeadReads(s: seq<Option<Value>>, levels: nat)
    requires |s| == 4 && SlotsFit(DeadFields(), s) && SlotsHold(s, levels)
    ensures Assemble(6, s).Some? && Assemble(6, s).value.DeadRecord? && Slots(Assemble(6, s).value) == s
  {
    hide Ascii, Plain, Fits, Canonical;
    var f := DeadFields();
    StringReads(f[0], s[0], levels);
    UintReads(f[1], s[1]);
    UintReads(f[2], s[2]);
    UintReads(f[3], s[3]);
  }

  lemma WatermarkReads(s: seq<Option<Value>>)
    requires |s| == 2 && SlotsFit(WatermarkFields(), s)
    ensures Assemble(7, s).Some? && Assemble(7, s).value.WatermarkRecord? && Slots(Assemble(7, s).value) == s
  {
    hide Ascii, Plain, Fits;
    var f := WatermarkFields();
    UintReads(f[0], s[0]);
    UintReads(f[1], s[1]);
  }

  lemma QuarantineReads(s: seq<Option<Value>>, levels: nat)
    requires |s| == 5 && SlotsFit(QuarantineFields(), s) && SlotsHold(s, levels)
    ensures Assemble(8, s).Some? && Assemble(8, s).value.QuarantineRecord? && Slots(Assemble(8, s).value) == s
  {
    hide Ascii, Plain, Fits, Canonical;
    var f := QuarantineFields();
    StringReads(f[0], s[0], levels);
    UintReads(f[1], s[1]);
    UintReads(f[2], s[2]);
    StringReads(f[3], s[3], levels);
    UintReads(f[4], s[4]);
  }

  /** Assembling inverts taking slots. */
  lemma AssembleReads(t: nat, s: seq<Option<Value>>, levels: nat)
    requires 1 <= t <= 8 && |s| == Width(t) && SlotsFit(Table(t), s) && SlotsHold(s, levels) && Assemble(t, s).Some?
    ensures var r := Assemble(t, s).value; TypeNumber(r) == t && WellFormed(r) && Slots(r) == s
  {
    hide Assemble, Slots, SlotsFit, SlotsHold;
    if t == 1 {
      FormatReads(s);
    } else if t == 2 {
      JobReads(s, levels);
    } else if t == 3 {
      ClaimReads(s, levels);
    } else if t == 4 {
      FailReads(s, levels);
    } else if t == 5 {
      ReceiptReads(s, levels);
    } else if t == 6 {
      DeadReads(s, levels);
    } else if t == 7 {
      WatermarkReads(s);
    } else {
      QuarantineReads(s, levels);
    }
  }

  lemma {:induction false} FoundIsCanonical(es: seq<Entry>, name: seq<byte>, levels: nat)
    requires CanonicalEntries(es, levels) && Find(es, name).Some?
    ensures Canonical(Find(es, name).value, levels)
  {
    if es[0].key != Text(name) {
      FoundIsCanonical(es[1..], name, levels);
    }
  }

  /** An accepted fields map holds exactly the entries its record writes, and the record is well formed. */
  lemma FieldsReencode(t: nat, es: seq<Entry>, levels: nat)
    requires 1 <= t <= 8 && Canonical(Map(es), levels + 1) && FromFields(t, es).Some?
    ensures var r := FromFields(t, es).value; TypeNumber(r) == t && WellFormed(r) && Ordered(r) == es
  {
    hide Assemble, Slots, Table, Find, Less, Encode, Sorted;
    var f, s := Table(t), Lookups(es, Table(t));
    TableIsSorted(t);
    MapShape(es, f);
    ConformsCollects(es, es, f, 0);
    forall i | 0 <= i < |s| ensures Fits(f[i], s[i]) && (s[i].Some? ==> Canonical(s[i].value, levels)) {
      assert s[i] == Find(es, f[i].name);
      if s[i].Some? {
        FoundIsCanonical(es, f[i].name, levels);
      }
    }
    AssembleReads(t, s, levels);
  }
}
