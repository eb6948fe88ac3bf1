/** The record codec's laws: the key tables are in encoded order, well-formed records decode to
    themselves, and every accepted byte string re-encodes to itself. */
module RecordCodec {
  import opened Wrappers
  import opened Bytes
  import opened Cbor
  import opened FieldReader
  import opened Records

  // ---------- The key tables are in encoded order ----------

  predicate Before(a: Field, b: Field) {
    Less(Encode(Text(a.name)), Encode(Text(b.name)))
  }

  predicate Chained(fields: seq<Field>) {
    forall i :: 0 <= i < |fields| - 1 ==> Before(fields[i], fields[i + 1])
  }

  lemma {:induction false} ChainedReaches(fields: seq<Field>, i: nat, j: nat)
    requires Chained(fields) && i < j < |fields|
    ensures Before(fields[i], fields[j])
  {
    if i + 1 < j {
      ChainedReaches(fields, i, j - 1);
      assert Before(fields[j - 1], fields[j - 1 + 1]);
      LessTransitive(Encode(Text(fields[i].name)), Encode(Text(fields[j - 1].name)), Encode(Text(fields[j].name)));
    }
  }

  lemma ChainedIsSorted(fields: seq<Field>)
    requires Chained(fields)
    ensures Sorted(fields)
  {
    forall i, j | 0 <= i < j < |fields|
      ensures Less(Encode(Text(fields[i].name)), Encode(Text(fields[j].name)))
    {
      ChainedReaches(fields, i, j);
    }
  }

  lemma ByLength(a: string, b: string)
    requires |a| < |b| < 256
    ensures Less(Encode(Text(Ascii(a))), Encode(Text(Ascii(b))))
  {
    ShorterFirst(Ascii(a), Ascii(b));
  }

  lemma ByLetter(a: string, b: string, k: nat)
    requires k < |a| == |b| && a[..k] == b[..k] && (a[k] as int) < (b[k] as int) < 128
    ensures Less(Encode(Text(Ascii(a))), Encode(Text(Ascii(b))))
  {
    var x, y := Ascii(a), Ascii(b);
    forall i | 0 <= i < k ensures x[i] == y[i] {
      assert a[i] == a[..k][i] == b[..k][i] == b[i];
    }
    assert x[..k] == y[..k];
    LessAt(x, y, k);
    SameLengthOrder(x, y);
  }

  lemma FormatTableIsSorted()
    ensures Sorted(FormatFields())
  {
    hide Encode, Less, Ascii;
    ByLength("shard_count", "inline_limit");
    ByLength("inline_limit", "lease_bucket_width_ns");
    ByLetter("lease_bucket_width_ns", "required_feature_bits", 0);
    ByLength("required_feature_bits", "delayed_bucket_width_ns");
    ByLength("delayed_bucket_width_ns", "terminal_bucket_width_ns");
    ChainedIsSorted(FormatFields());
  }

  lemma JobTableIsSorted()
    ensures Sorted(JobFields())
  {
    hide Encode, Less, Ascii;
    ByLength("job_id", "payload_key");
    ByLength("payload_key", "content_type");
    ByLength("content_type", "not_before_ns");
    ByLength("not_before_ns", "payload_digest");
    ByLetter("payload_digest", "payload_inline", 8);
    ByLetter("payload_inline", "payload_length", 8);
    ByLength("payload_length", "maximum_attempts");
    ByLength("maximum_attempts", "created_store_time_ns");
    ChainedIsSorted(JobFields());
  }

  lemma ClaimTableIsSorted()
    ensures Sorted(ClaimFields()) && Sorted(BasisFields())
  {
    hide Encode, Less, Ascii;
    ByLength("basis", "job_id");
    ByLength("job_id", "attempt");
    ByLength("attempt", "worker_id");
    ByLength("worker_id", "generation");
    ByLetter("generation", "prev_token", 0);
    ByLength("prev_token", "continuation");
    ByLetter("continuation", "worker_token", 0);
    ByLength("worker_token", "lease_duration_ns");
    ChainedIsSorted(ClaimFields());
    ByLength("prev_duration_ns", "prev_store_time_ns");
    ByLength("prev_store_time_ns", "observed_watermark_ns");
    ChainedIsSorted(BasisFields());
  }

  lemma ReceiptTableIsSorted()
    ensures Sorted(ReceiptFields())
  {
    hide Encode, Less, Ascii;
    ByLength("job_id", "attempt");
    ByLength("attempt", "worker_id");
    ByLength("worker_id", "generation");
    ByLength("generation", "worker_token");
    ByLength("worker_token", "output_digests");
    ByLetter("output_digests", "payload_digest", 0);
    ChainedIsSorted(ReceiptFields());
  }

  lemma SmallTablesAreSorted()
    ensures Sorted(FailFields()) && Sorted(DeadFields()) && Sorted(WatermarkFields())
  {
    hide Encode, Less, Ascii;
    ByLetter("job_id", "reason", 0);
    ByLength("reason", "attempt");
    ByLength("attempt", "generation");
    ByLength("generation", "retry_not_before_ns");
    ByLength("sequence", "highest_observed_wall_bucket");
    ChainedIsSorted(FailFields());
    ChainedIsSorted(DeadFields());
    ChainedIsSorted(WatermarkFields());
  }

  lemma QuarantineTableIsSorted()
    ensures Sorted(QuarantineFields())
  {
    hide Encode, Less, Ascii;
    ByLength("qid", "detail");
    ByLetter("detail", "reason", 0);
    ByLength("reason", "source_key");
    ByLength("source_key", "observed_store_ns");
    ChainedIsSorted(QuarantineFields());
  }

  lemma TableIsSorted(t: nat)
    requires 1 <= t <= 8
    ensures Sorted(Table(t))
  {
    if t == 1 {
      FormatTableIsSorted();
    } else if t == 2 {
      JobTableIsSorted();
    } else if t == 3 {
      ClaimTableIsSorted();
    } else if t == 5 {
      ReceiptTableIsSorted();
    } else if t == 8 {
      QuarantineTableIsSorted();
    } else {
      SmallTablesAreSorted();
    }
  }

  /** Every static key table is the bytewise order of its encoded keys. */
  lemma TableIsSound(t: nat, levels: nat)
    requires 1 <= t <= 8 && levels >= 3
    ensures Sound(MapK(Table(t)), levels)
  {
    hide Ascii, Plain, Less, Encode, Sorted;
    TableIsSorted(t);
    ClaimTableIsSorted();
    assert Sound(MapK(BasisFields()), levels - 1);
    assert Sound(ListK(FixedK(32)), levels - 1);
    var fields := Table(t);
    forall i | 0 <= i < |fields| ensures Sound(fields[i].kind, levels - 1) {
      if fields[i].kind.MapK? {
        assert fields[i].kind == MapK(BasisFields());
      } else if fields[i].kind.ListK? {
        assert fields[i].kind == ListK(FixedK(32));
      }
    }
  }

  // ---------- Entries from table slots ----------

  /** The entries of the filled slots from the `i`-th on, in table order. */
  function Collect(fields: seq<Field>, slots: seq<Option<Value>>, i: nat): seq<Entry>
    requires |slots| == |fields|
    decreases |fields| - i
  {
    if i >= |fields| then [] else Maybe(fields[i].name, slots[i]) + Collect(fields, slots, i + 1)
  }

  predicate Fits(f: Field, slot: Option<Value>) {
    if slot.Some? then HasKind(slot.value, f.kind) else !f.required
  }

  predicate SlotsFit(fields: seq<Field>, slots: seq<Option<Value>>)
    requires |slots| == |fields|
  {
    forall i :: 0 <= i < |fields| ==> Fits(fields[i], slots[i])
  }

  lemma {:induction false} CollectFinds(fields: seq<Field>, slots: seq<Option<Value>>, k: nat, i: nat)
    requires |slots| == |fields| && Sorted(fields) && i < |fields|
    ensures Find(Collect(fields, slots, k), fields[i].name) == if k <= i then slots[i] else None
    decreases |fields| - k
  {
    hide Sorted, Position;
    if k < |fields| {
      CollectFinds(fields, slots, k + 1, i);
      if k != i {
        SamePosition(fields, i);
        SamePosition(fields, k);
      }
      var rest := Collect(fields, slots, k + 1);
      if slots[k].Some? {
        assert (Maybe(fields[k].name, slots[k]) + rest)[1..] == rest;
      } else {
        assert Maybe(fields[k].name, slots[k]) + rest == rest;
      }
    }
  }

  lemma {:induction false} ConformsEarlier(es: seq<Entry>, fields: seq<Field>, from: nat, to: nat)
    requires Conforms(es, fields, to) && from <= to
    ensures Conforms(es, fields, from)
  {}

  lemma {:induction false} CollectConforms(fields: seq<Field>, slots: seq<Option<Value>>, k: nat)
    requires |slots| == |fields| && Sorted(fields) && SlotsFit(fields, slots)
    ensures Conforms(Collect(fields, slots, k), fields, k)
    decreases |fields| - k
  {
    hide HasKind, Sorted;
    if k < |fields| {
      CollectConforms(fields, slots, k + 1);
      var rest := Collect(fields, slots, k + 1);
      if slots[k].Some? {
        SamePosition(fields, k);
        assert (Maybe(fields[k].name, slots[k]) + rest)[1..] == rest;
      } else {
        assert Maybe(fields[k].name, slots[k]) + rest == rest;
        ConformsEarlier(rest, fields, k, k + 1);
      }
    }
  }

  lemma LookupsOfCollect(fields: seq<Field>, slots: seq<Option<Value>>)
    requires |slots| == |fields| && Sorted(fields)
    ensures Lookups(Collect(fields, slots, 0), fields) == slots
  {
    var s := Lookups(Collect(fields, slots, 0), fields);
    forall i | 0 <= i < |fields| ensures s[i] == slots[i] {
      CollectFinds(fields, slots, 0, i);
    }
  }

  /** Fitting slots give a map of the table's shape with sorted keys. */
  lemma CollectHasKind(fields: seq<Field>, slots: seq<Option<Value>>)
    requires |slots| == |fields| && Sorted(fields) && SlotsFit(fields, slots)
    ensures HasKind(Map(Collect(fields, slots, 0)), MapK(fields))
    ensures Increasing(Decorate(Collect(fields, slots, 0)))
  {
    CollectConforms(fields, slots, 0);
    LookupsOfCollect(fields, slots);
    var es := Collect(fields, slots, 0);
    forall i | 0 <= i < |fields| && fields[i].required ensures Find(es, fields[i].name).Some? {
      assert Lookups(es, fields)[i] == slots[i];
    }
    MapShape(es, fields);
  }

  lemma {:induction false} CollectLength(fields: seq<Field>, slots: seq<Option<Value>>, k: nat)
    requires |slots| == |fields|
    ensures |Collect(fields, slots, k)| <= if k < |fields| then |fields| - k else 0
    decreases |fields| - k
  {
    if k < |fields| {
      CollectLength(fields, slots, k + 1);
    }
  }

  /** A conforming map is collected from its own lookups. */
  lemma {:induction false} ConformsCollects(es: seq<Entry>, all: seq<Entry>, fields: seq<Field>, k: nat)
    requires Sorted(fields) && Conforms(es, fields, k)
    requires forall i :: k <= i < |fields| ==> Find(all, fields[i].name) == Find(es, fields[i].name)
    ensures es == Collect(fields, Lookups(all, fields), k)
    decreases |fields| - k
  {
    hide HasKind, Sorted, Position;
    var slots := Lookups(all, fields);
    if k < |fields| {
      assert slots[k] == Find(es, fields[k].name);
      SamePosition(fields, k);
      if es != [] && es[0].key == Text(fields[k].name) {
        var rest := es[1..];
        forall i | k + 1 <= i < |fields| ensures Find(all, fields[i].name) == Find(rest, fields[i].name) {
          SamePosition(fields, i);
        }
        ConformsCollects(rest, all, fields, k + 1);
        assert es == [es[0]] + rest;
      } else {
        if slots[k].Some? && es != [] {
          ConformingValue(es[1..], fields, Position(fields, es[0].key.text) + 1, k);
        }
        assert slots[k].None?;
        assert Maybe(fields[k].name, slots[k]) + Collect(fields, slots, k + 1) == Collect(fields, slots, k + 1);
        ConformsCollects(es, all, fields, k + 1);
      }
    }
  }

  // ---------- Sorting gathered fields puts them in table order ----------

  /** The pair names the field and holds the slot's value, up to encoding. */
  predicate Holds(p: Pair, f: Field, slot: Option<Value>) {
    p.0 == f.name && p.1.Some? == slot.Some? && (slot.Some? ==> Encode(p.1.value) == Encode(slot.value))
  }

  /** The pairs are the table's slots, up to encoding, taken in the given order. */
  predicate Arranged(ps: seq<Pair>, fields: seq<Field>, slots: seq<Option<Value>>, order: seq<nat>)
    requires |slots| == |fields|
  {
    && |ps| == |order|
    && (forall k :: 0 <= k < |order| ==>
          order[k] < |fields| && Holds(ps[k], fields[order[k]], slots[order[k]]))
    && (forall j, k :: 0 <= j < k < |order| ==> order[j] != order[k])
  }

  /** Only the slots at the given positions. */
  function Mask(slots: seq<Option<Value>>, order: seq<nat>): (m: seq<Option<Value>>)
    ensures |m| == |slots|
  {
    seq(|slots|, i requires 0 <= i < |slots| => if i in order then slots[i] else None)
  }

  lemma {:induction false} CollectFirst(fields: seq<Field>, slots: seq<Option<Value>>, k: nat) returns (j: nat)
    requires |slots| == |fields| && Collect(fields, slots, k) != []
    ensures k <= j < |fields| && Collect(fields, slots, k)[0].key == Text(fields[j].name)
    decreases |fields| - k
  {
    if slots[k].Some? {
      j := k;
    } else {
      assert Maybe(fields[k].name, slots[k]) + Collect(fields, slots, k + 1) == Collect(fields, slots, k + 1);
      j := CollectFirst(fields, slots, k + 1);
    }
  }

  lemma CollectStep(fields: seq<Field>, slots: seq<Option<Value>>, k: nat)
    requires |slots| == |fields| && k < |fields|
    ensures slots[k].None? ==> Collect(fields, slots, k) == Collect(fields, slots, k + 1)
    ensures slots[k].Some? ==>
      && Collect(fields, slots, k) == [Entry(Text(fields[k].name), slots[k].value)] + Collect(fields, slots, k + 1)
      && Decorate(Collect(fields, slots, k))
         == [Decorated(Encode(Text(fields[k].name)), Encode(slots[k].value))] + Decorate(Collect(fields, slots, k + 1))
  {
    var rest := Collect(fields, slots, k + 1);
    if slots[k].Some? {
      assert ([Entry(Text(fields[k].name), slots[k].value)] + rest)[1..] == rest;
    }
  }

  lemma {:induction false} CollectIgnores(fields: seq<Field>, slots: seq<Option<Value>>, more: seq<Option<Value>>,
                                          k: nat)
    requires |slots| == |more| == |fields| && forall i :: k <= i < |fields| ==> slots[i] == more[i]
    ensures Collect(fields, slots, k) == Collect(fields, more, k)
    decreases |fields| - k
  {
    if k < |fields| {
      CollectIgnores(fields, slots, more, k + 1);
    }
  }

  /** Inserting a field's entry among the others fills its slot. */
  lemma {:induction false} InsertFills(fields: seq<Field>, slots: seq<Option<Value>>, i: nat, v: Value, k: nat)
    requires |slots| == |fields| && Sorted(fields) && k <= i < |fields| && slots[i].None?
    ensures Insert(Decorated(Encode(Text(fields[i].name)), Encode(v)), Decorate(Collect(fields, slots, k)))
         == Decorate(Collect(fields, slots[i := Some(v)], k))
    decreases i - k
  {
    hide Encode, Less, Collect;
    var d, more := Decorated(Encode(Text(fields[i].name)), Encode(v)), slots[i := Some(v)];
    CollectStep(fields, slots, k);
    CollectStep(fields, more, k);
    var rest := Decorate(Collect(fields, slots, k + 1));
    if k == i {
      CollectIgnores(fields, slots, more, k + 1);
      if rest != [] {
        var j := CollectFirst(fields, slots, k + 1);
        DecorateAt(Collect(fields, slots, k + 1), 0);
        LessAsymmetric(d.key, Encode(Text(fields[j].name)));
      }
    } else {
      InsertFills(fields, slots, i, v, k + 1);
      if slots[k].Some? {
        var e := Decorated(Encode(Text(fields[k].name)), Encode(slots[k].value));
        assert Less(e.key, d.key);
        assert ([e] + rest)[1..] == rest;
      }
    }
  }

  lemma MaskStep(slots: seq<Option<Value>>, order: seq<nat>)
    requires order != [] && order[0] < |slots| && order[0] !in order[1..]
    ensures Mask(slots, order[1..])[order[0]] == None
    ensures Mask(slots, order) == Mask(slots, order[1..])[order[0] := slots[order[0]]]
  {
    var m := Mask(slots, order[1..])[order[0] := slots[order[0]]];
    forall i | 0 <= i < |slots| ensures Mask(slots, order)[i] == m[i] {
      assert i in order <==> i == order[0] || i in order[1..];
    }
  }

  lemma GatherStep(ps: seq<Pair>)
    requires ps != []
    ensures ps[0].1.None? ==> Gather(ps) == Gather(ps[1..])
    ensures ps[0].1.Some? ==>
      Decorate(Gather(ps)) == [Decorated(Encode(Text(ps[0].0)), Encode(ps[0].1.value))] + Decorate(Gather(ps[1..]))
  {
    if ps[0].1.Some? {
      assert Gather(ps)[1..] == Gather(ps[1..]);
    }
  }

  /** The encoder's sort takes pairs in any order to the entries in table order. */
  lemma {:induction false} SortGathered(ps: seq<Pair>, fields: seq<Field>, slots: seq<Option<Value>>, order: seq<nat>)
    requires |slots| == |fields| && Sorted(fields) && Arranged(ps, fields, slots, order)
    ensures Sort(Decorate(Gather(ps))) == Decorate(Collect(fields, Mask(slots, order), 0))
    decreases |ps|
  {
    hide Encode, Less, Collect, Gather, Mask, Sorted;
    if ps == [] {
      NothingGathered(fields, slots);
      assert order == [];
    } else {
      var i, m := order[0], Mask(slots, order[1..]);
      SortGathered(ps[1..], fields, slots, order[1..]);
      MaskStep(slots, order);
      GatherStep(ps);
      if slots[i].Some? {
        InsertFills(fields, m, i, slots[i].value, 0);
        var d, rest := Decorated(Encode(Text(ps[0].0)), Encode(ps[0].1.value)), Decorate(Gather(ps[1..]));
        assert ([d] + rest)[1..] == rest;
      } else {
        assert m[i := None] == m;
      }
    }
  }

  lemma {:induction false} NothingCollected(fields: seq<Field>, slots: seq<Option<Value>>, k: nat)
    requires |slots| == |fields| && forall i :: 0 <= i < |slots| ==> slots[i].None?
    ensures Collect(fields, slots, k) == []
    decreases |fields| - k
  {
    if k < |fields| {
      NothingCollected(fields, slots, k + 1);
    }
  }

  lemma NothingGathered(fields: seq<Field>, slots: seq<Option<Value>>)
    requires |slots| == |fields|
    ensures Gather([]) == [] && Collect(fields, Mask(slots, []), 0) == []
  {
    NothingCollected(fields, Mask(slots, []), 0);
  }

  lemma {:induction false} CollectIncreases(fields: seq<Field>, slots: seq<Option<Value>>, k: nat)
    requires |slots| == |fields| && Sorted(fields)
    ensures Increasing(Decorate(Collect(fields, slots, k)))
    decreases |fields| - k
  {
    hide Encode, Less, Collect;
    if k < |fields| {
      CollectIncreases(fields, slots, k + 1);
      CollectStep(fields, slots, k);
      var rest := Collect(fields, slots, k + 1);
      if slots[k].Some? && rest != [] {
        var j := CollectFirst(fields, slots, k + 1);
        DecorateAt(rest, 0);
        assert Decorate(Collect(fields, slots, k))[1..] == Decorate(rest);
      }
    } else {
      NothingLeft(fields, slots, k);
    }
  }

  lemma NothingLeft(fields: seq<Field>, slots: seq<Option<Value>>, k: nat)
    requires |slots| == |fields| <= k
    ensures Collect(fields, slots, k) == []
  {}

  /** So a map of all the fields, listed in any order, encodes as the map in table order. */
  lemma ArrangedEncodes(ps: seq<Pair>, fields: seq<Field>, slots: seq<Option<Value>>, order: seq<nat>)
    requires |slots| == |fields| && Sorted(fields)
    requires Arranged(ps, fields, slots, order) && forall i :: 0 <= i < |fields| ==> i in order
    ensures Encode(Map(Gather(ps)))
            == EncodeHead(5, |Collect(fields, slots, 0)|) + Join(Decorate(Collect(fields, slots, 0)))
    ensures Encode(Map(Collect(fields, slots, 0))) == Encode(Map(Gather(ps)))
  {
    hide Collect, Gather, Less, Sorted, Arranged, HasKind;
    SortGathered(ps, fields, slots, order);
    assert Mask(slots, order) == slots;
    CollectIncreases(fields, slots, 0);
    SortKeepsIncreasing(Decorate(Collect(fields, slots, 0)));
    SortLength(Decorate(Gather(ps)));
  }

  lemma {:induction false} SortLength(ds: seq<Decorated>)
    ensures |Sort(ds)| == |ds|
  {
    if ds != [] {
      SortLength(ds[1..]);
      InsertLength(ds[0], Sort(ds[1..]));
    }
  }

  lemma {:induction false} InsertLength(d: Decorated, ds: seq<Decorated>)
    ensures |Insert(d, ds)| == |ds| + 1
  {
    if ds != [] {
      InsertLength(d, ds[1..]);
    }
  }
}
