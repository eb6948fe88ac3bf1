/** The codec's two entry points: decoding a whole input with the cursor, and the writer that
    appends an encoding piece by piece. */
module CborCodec {
  import opened Wrappers
  import opened Bytes
  import opened Cbor
  import opened CborReader

  /** Decodes exactly one canonical value covering the whole input. */
  method DecodeAll(data: seq<byte>) returns (r: Option<Value>)
    ensures r == Whole(DecodeValue(data, MAX_DEPTH))
  {
    hide Whole, DecodeValue;
    var reader := new Reader(data);
    r := reader.ReadOnly(MAX_DEPTH);
  }

  // ---------- The encoder ----------

  /** Appends the encoding of a value. */
  method EncodeInto(v: Value, out: seq<byte>) returns (r: seq<byte>)
    ensures r == out + Encode(v)
    decreases v, 2
  {
    match v
    case Uint(n) => r := out + EncodeHead(0, n);
    case Bool(b) => r := out + [if b then 0xf5 else 0xf4];
    case Bytes(b) => r := out + EncodeHead(2, |b|) + b;
    case Text(t) => r := out + EncodeHead(3, |t|) + t;
    case Array(items) =>
      r := EncodeEach(items, out + EncodeHead(4, |items|));
    case Map(entries) =>
      var decorated := Sort(Decorate(entries));
      r := AppendAll(decorated, out + EncodeHead(5, |entries|));
  }

  method EncodeEach(items: seq<Value>, out: seq<byte>) returns (r: seq<byte>)
    ensures r == out + EncodeItems(items)
    decreases items, 1
  {
    r := out;
    for i := 0 to |items|
      invariant r + EncodeItems(items[i..]) == out + EncodeItems(items)
    {
      ghost var before := r;
      r := EncodeInto(items[i], r);
      assert items[i..][1..] == items[i + 1..];
      Regroup(before, Encode(items[i]), EncodeItems(items[i + 1..]));
    }
    assert EncodeItems(items[|items|..]) == [];
  }

  method AppendAll(ds: seq<Decorated>, out: seq<byte>) returns (r: seq<byte>)
    ensures r == out + Join(ds)
  {
    r := out;
    for i := 0 to |ds|
      invariant r + Join(ds[i..]) == out + Join(ds)
    {
      ghost var before := r;
      r := r + ds[i].key + ds[i].value;
      assert ds[i..][1..] == ds[i + 1..];
      Regroup(before, ds[i].key + ds[i].value, Join(ds[i + 1..]));
    }
  }
}
