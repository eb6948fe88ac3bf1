/** The direct decoder's typed readers: each reads one item of a known shape straight off the
    input, checking map keys only by their position in a fixed table. The main result is that a
    typed read accepts exactly the inputs the general decoder accepts with a value of that shape,
    provided every table lists its keys in encoded order. */
module FieldReader {
  import opened Wrappers
  import opened Bytes
  import opened Cbor

  /** The shapes a record field may have; a `MapK` lists its fields in canonical order. */
  datatype Kind =
    | UintK(limit: nat)
    | BoolK
    | FixedK(width: nat)
    | BytesK
    | TextK
    | ListK(item: Kind)
    | MapK(fields: seq<Field>)

  datatype Field = Field(name: seq<byte>, kind: Kind, required: bool)

  // ---------- Shapes of decoded values ----------

  /** The value under a text key: the first entry with that key. */
  function Find(es: seq<Entry>, name: seq<byte>): Option<Value> {
    if es == [] then None
    else if es[0].key == Text(name) then Some(es[0].value)
    else Find(es[1..], name)
  }

  /** Where the table lists a name, or the table's length. */
  function Position(fields: seq<Field>, name: seq<byte>): (i: nat)
    ensures i <= |fields|
    ensures i < |fields| ==> fields[i].name == name
  {
    if fields == [] || fields[0].name == name then 0 else 1 + Position(fields[1..], name)
  }

  predicate ExpectKeys(es: seq<Entry>, fields: seq<Field>) {
    forall e :: e in es ==> e.key.Text? && Position(fields, e.key.text) < |fields|
  }

  predicate Complete(es: seq<Entry>, fields: seq<Field>) {
    forall i :: 0 <= i < |fields| && fields[i].required ==> Find(es, fields[i].name).Some?
  }

  /** The getters' view of a value: every field looked up by name has its shape. */
  predicate HasKind(v: Value, k: Kind)
    decreases k
  {
    match k
    case UintK(limit) => v.Uint? && v.n <= limit
    case BoolK => v.Bool?
    case FixedK(width) => v.Bytes? && |v.bytes| == width
    case BytesK => v.Bytes?
    case TextK => v.Text?
    case ListK(item) => v.Array? && v.items != [] && forall i :: 0 <= i < |v.items| ==> HasKind(v.items[i], item)
    case MapK(fields) =>
      && v.Map?
      && ExpectKeys(v.entries, fields)
      && Complete(v.entries, fields)
      && forall i :: 0 <= i < |fields| && Find(v.entries, fields[i].name).Some?
           ==> HasKind(Find(v.entries, fields[i].name).value, fields[i].kind)
  }

  // ---------- Typed readers ----------

  /** Reads one value of the given shape from the front of `d`. */
  function ReadKind(k: Kind, d: seq<byte>): (r: Option<Parsed<Value>>)
    ensures r.Some? ==> |r.value.rest| < |d|
    decreases |d|, 0, 0
  {
    match DecodeHead(d)
    case None => None
    case Some(h) => ReadAfterHead(k, h)
  }

  function ReadAfterHead(k: Kind, h: Head): (r: Option<Parsed<Value>>)
    ensures r.Some? ==> |r.value.rest| <= |h.rest|
    decreases |h.rest|, 2, 0
  {
    var Head(major, n, rest) := h;
    match k
    case UintK(limit) => if major == 0 && n <= limit then Some(Parsed(Uint(n), rest)) else None
    case BoolK => if major == 7 && (n == 20 || n == 21) then Some(Parsed(Bool(n == 21), rest)) else None
    case FixedK(width) =>
      if major == 2 && n <= |rest| && n == width then Some(Parsed(Bytes(rest[..n]), rest[n..])) else None
    case BytesK =>
      if major == 2 && n <= |rest| then Some(Parsed(Bytes(rest[..n]), rest[n..])) else None
    case TextK =>
      if major == 3 && n <= |rest| && ValidUtf8(rest[..n]) then Some(Parsed(Text(rest[..n]), rest[n..])) else None
    case ListK(item) =>
      if major != 4 || n == 0 then None
      else
        (match ReadEach(seq(n, _ => item), rest)
        case None => None
        case Some(p) => Some(Parsed(Array(p.value), p.rest)))
    case MapK(fields) =>
      if major != 5 then None
      else
        match ReadFields(fields, 0, rest, n)
        case None => None
        case Some(p) => if Complete(p.value, fields) then Some(Parsed(Map(p.value), p.rest)) else None
  }

  /** Reads values of the given shapes one after the other. */
  function ReadEach(kinds: seq<Kind>, d: seq<byte>): (r: Option<Parsed<seq<Value>>>)
    ensures r.Some? ==> |r.value.rest| <= |d| && |r.value.value| == |kinds|
    decreases |d|, 1, |kinds|
  {
    if kinds == [] then Some(Parsed([], d))
    else
      match ReadKind(kinds[0], d)
      case None => None
      case Some(v) =>
        match ReadEach(kinds[1..], v.rest)
        case None => None
        case Some(vs) => Some(Parsed([v.value] + vs.value, vs.rest))
  }

  /** Reads `n` entries whose keys stand in the table at increasing positions from `from` on. */
  function ReadFields(fields: seq<Field>, from: nat, d: seq<byte>, n: nat): (r: Option<Parsed<seq<Entry>>>)
    ensures r.Some? ==> |r.value.rest| <= |d|
    decreases |d|, 1, n
  {
    if n == 0 then Some(Parsed([], d))
    else
      match ReadKind(TextK, d)
      case None => None
      case Some(k) =>
        if !k.value.Text? then None
        else
          var i := Position(fields, k.value.text);
          if i < from || i == |fields| then None
          else
            match ReadKind(fields[i].kind, k.rest)
            case None => None
            case Some(v) =>
              match ReadFields(fields, i + 1, v.rest, n - 1)
              case None => None
              case Some(es) => Some(Parsed([Entry(k.value, v.value)] + es.value, es.rest))
  }

  // ---------- Tables in encoded order ----------

  /** The table lists its keys in the order of their encodings. */
  predicate Sorted(fields: seq<Field>) {
    forall i, j :: 0 <= i < j < |fields| ==> Less(Encode(Text(fields[i].name)), Encode(Text(fields[j].name)))
  }

  /** Every table inside is sorted, and the shape nests at most `levels` deep. */
  ghost predicate Sound(k: Kind, levels: nat)
    decreases k
  {
    && levels > 0
    && (k.ListK? ==> Sound(k.item, levels - 1))
    && (k.MapK? ==>
          && levels > 1
          && Sorted(k.fields)
          && forall i :: 0 <= i < |k.fields| ==> Sound(k.fields[i].kind, levels - 1))
  }

  /** The readers' view of a map: keys at increasing positions, each value of its field's shape. */
  predicate Conforms(es: seq<Entry>, fields: seq<Field>, from: nat)
    decreases |es|
  {
    es == [] || (
      && es[0].key.Text?
      && var i := Position(fields, es[0].key.text);
      && from <= i < |fields|
      && HasKind(es[0].value, fields[i].kind)
      && Conforms(es[1..], fields, i + 1))
  }

  // The order of encoded text keys: shorter first, then bytewise.

  lemma ShorterFirst(a: seq<byte>, b: seq<byte>)
    requires |a| < |b| < 256
    ensures Less(Encode(Text(a)), Encode(Text(b)))
  {
    var x, y := Encode(Text(a)), Encode(Text(b));
    if |a| < 24 {
      LessAt(x, y, 0);
    } else {
      assert BigEndian(|a|, 1) == [|a|] && BigEndian(|b|, 1) == [|b|];
      LessAt(x, y, 1);
    }
  }

  lemma SameLengthOrder(a: seq<byte>, b: seq<byte>)
    requires |a| == |b|
    ensures Less(Encode(Text(a)), Encode(Text(b))) <==> Less(a, b)
  {
    LessAfterPrefix(EncodeHead(3, |a|), a, b);
  }

  // ---------- Conforming maps are exactly the sorted maps of the right shape ----------

  lemma {:induction false} SamePosition(fields: seq<Field>, i: nat)
    requires Sorted(fields) && i < |fields|
    ensures Position(fields, fields[i].name) == i
  {
    var p := Position(fields, fields[i].name);
    FirstPosition(fields, fields[i].name, i);
    if p < i {
      LessIrreflexive(Encode(Text(fields[i].name)));
    }
  }

  lemma {:induction false} FirstPosition(fields: seq<Field>, name: seq<byte>, i: nat)
    requires i < |fields| && fields[i].name == name
    ensures Position(fields, name) <= i
  {
    if fields[0].name != name {
      FirstPosition(fields[1..], name, i - 1);
    }
  }

  lemma OrderedPositions(fields: seq<Field>, i: nat, j: nat)
    requires Sorted(fields) && i < |fields| && j < |fields|
    requires Less(Encode(Text(fields[i].name)), Encode(Text(fields[j].name)))
    ensures i < j
  {
    LessAsymmetric(Encode(Text(fields[i].name)), Encode(Text(fields[j].name)));
  }

  lemma {:induction false} ConformingIsIncreasing(es: seq<Entry>, fields: seq<Field>, from: nat)
    requires Sorted(fields) && Conforms(es, fields, from)
    ensures Increasing(Decorate(es))
  {
    if |es| > 1 {
      ConformingIsIncreasing(es[1..], fields, Position(fields, es[0].key.text) + 1);
      assert Decorate(es)[1..] == Decorate(es[1..]);
      DecorateAt(es, 0);
      DecorateAt(es, 1);
      var i, j := Position(fields, es[0].key.text), Position(fields, es[1].key.text);
      assert es[1] == es[1..][0];
      assert es[0].key == Text(fields[i].name) && es[1].key == Text(fields[j].name);
    }
  }

  lemma {:induction false} ConformingKeys(es: seq<Entry>, fields: seq<Field>, from: nat)
    requires Conforms(es, fields, from)
    ensures ExpectKeys(es, fields)
  {
    if es != [] {
      ConformingKeys(es[1..], fields, Position(fields, es[0].key.text) + 1);
      assert forall e :: e in es ==> e == es[0] || e in es[1..];
    }
  }

  lemma {:induction false} ConformingValue(es: seq<Entry>, fields: seq<Field>, from: nat, i: nat)
    requires Sorted(fields) && Conforms(es, fields, from) && i < |fields| && Find(es, fields[i].name).Some?
    ensures from <= i && HasKind(Find(es, fields[i].name).value, fields[i].kind)
  {
    if es[0].key == Text(fields[i].name) {
      SamePosition(fields, i);
    } else {
      ConformingValue(es[1..], fields, Position(fields, es[0].key.text) + 1, i);
    }
  }

  /** Distinct keys: the first entry with a key is the only one. */
  lemma {:induction false} FindAt(es: seq<Entry>, j: nat)
    requires Increasing(Decorate(es)) && j < |es| && es[j].key.Text?
    ensures Find(es, es[j].key.text) == Some(es[j].value)
  {
    if j > 0 {
      IncreasingKeys(es, j);
      assert Decorate(es)[1..] == Decorate(es[1..]);
      FindAt(es[1..], j - 1);
    }
  }

  lemma {:induction false} IncreasingKeys(es: seq<Entry>, j: nat)
    requires Increasing(Decorate(es)) && 0 < j < |es|
    ensures Less(Encode(es[0].key), Encode(es[j].key)) && es[0].key != es[j].key
  {
    DecorateAt(es, 0);
    DecorateAt(es, 1);
    if j > 1 {
      assert Decorate(es)[1..] == Decorate(es[1..]);
      IncreasingKeys(es[1..], j - 1);
      assert es[1..][0] == es[1] && es[1..][j - 1] == es[j];
      LessTransitive(Encode(es[0].key), Encode(es[1].key), Encode(es[j].key));
    }
    LessIrreflexive(Encode(es[0].key));
  }

  lemma {:induction false} IncreasingConforms(es: seq<Entry>, fields: seq<Field>, from: nat)
    requires Sorted(fields) && Increasing(Decorate(es)) && ExpectKeys(es, fields)
    requires forall e :: e in es ==> HasKind(e.value, fields[Position(fields, e.key.text)].kind)
    requires es != [] ==> from <= Position(fields, es[0].key.text)
    ensures Conforms(es, fields, from)
  {
    if es != [] {
      assert Decorate(es)[1..] == Decorate(es[1..]);
      if |es| > 1 {
        var i, j := Position(fields, es[0].key.text), Position(fields, es[1].key.text);
        IncreasingKeys(es, 1);
        OrderedPositions(fields, i, j);
      }
      IncreasingConforms(es[1..], fields, Position(fields, es[0].key.text) + 1);
    }
  }

  /** A map has the shape in the getters' sense and sorted keys exactly when it conforms to the
      table and misses nothing required. */
  lemma MapShape(es: seq<Entry>, fields: seq<Field>)
    requires Sorted(fields)
    ensures Increasing(Decorate(es)) && HasKind(Map(es), MapK(fields))
       <==> Conforms(es, fields, 0) && Complete(es, fields)
  {
    if Conforms(es, fields, 0) && Complete(es, fields) {
      ConformingIsIncreasing(es, fields, 0);
      ConformingKeys(es, fields, 0);
      forall i | 0 <= i < |fields| && Find(es, fields[i].name).Some?
        ensures HasKind(Find(es, fields[i].name).value, fields[i].kind)
      {
        ConformingValue(es, fields, 0, i);
      }
    }
    if Increasing(Decorate(es)) && HasKind(Map(es), MapK(fields)) {
      forall e | e in es
        ensures HasKind(e.value, fields[Position(fields, e.key.text)].kind)
      {
        var j :| 0 <= j < |es| && es[j] == e;
        FindAt(es, j);
      }
      IncreasingConforms(es, fields, 0);
    }
  }

  // ---------- Typed reading refines general decoding ----------

  function OfKind(r: Option<Parsed<Value>>, k: Kind): Option<Parsed<Value>> {
    if r.Some? && HasKind(r.value.value, k) then r else None
  }

  predicate EachKind(vs: seq<Value>, kinds: seq<Kind>)
    requires |vs| == |kinds|
  {
    forall i :: 0 <= i < |vs| ==> HasKind(vs[i], kinds[i])
  }

  /** For every input, the typed reader returns a value exactly when the general decoder returns
      that value and it has the shape. */
  lemma {:induction false} ReadRefinesDecode(k: Kind, d: seq<byte>, levels: nat)
    requires Sound(k, levels)
    ensures ReadKind(k, d) == OfKind(DecodeValue(d, levels), k)
    decreases |d|, 0, 0
  {
    var h := DecodeHead(d);
    if h.Some? {
      if k.ListK? && h.value.major == 4 {
        ListRefines(k, h.value, levels - 1);
      } else if k.MapK? && h.value.major == 5 {
        MapRefines(k, h.value, levels - 1);
      } else {
        ScalarRefines(k, h.value, levels - 1);
      }
    }
  }

  lemma ScalarRefines(k: Kind, h: Head, levels: nat)
    requires k.ListK? ==> h.major != 4
    requires k.MapK? ==> h.major != 5
    ensures ReadAfterHead(k, h) == OfKind(DecodeBody(h, levels), k)
  {
    hide DecodeItems, DecodeEntries, ReadEach, ReadFields;
  }

  lemma {:induction false} ListRefines(k: Kind, h: Head, levels: nat)
    requires k.ListK? && h.major == 4 && Sound(k.item, levels)
    ensures ReadAfterHead(k, h) == OfKind(DecodeBody(h, levels), k)
    decreases |h.rest|, 2, 0
  {
    hide DecodeItems, ReadEach;
    if h.value > 0 {
      EachRefines(seq(h.value, _ => k.item), h.rest, levels);
    } else {
      assert DecodeItems(h.rest, 0, levels) == Some(Parsed([], h.rest)) by { NoItems(h.rest, levels); }
    }
  }

  lemma NoItems(d: seq<byte>, levels: nat)
    ensures DecodeItems(d, 0, levels) == Some(Parsed([], d))
  {}

  lemma {:induction false} MapRefines(k: Kind, h: Head, levels: nat)
    requires k.MapK? && h.major == 5 && Sound(k, levels + 1)
    ensures ReadAfterHead(k, h) == OfKind(DecodeBody(h, levels), k)
    decreases |h.rest|, 2, 0
  {
    hide DecodeEntries, ReadFields;
    FieldsRefine(k, 0, h.rest, h.value, levels);
    var p := DecodeEntries(h.rest, h.value, levels);
    if p.Some? {
      MapShape(p.value.value, k.fields);
    }
  }

  lemma {:induction false} EachRefines(kinds: seq<Kind>, d: seq<byte>, levels: nat)
    requires forall i :: 0 <= i < |kinds| ==> Sound(kinds[i], levels)
    ensures var p := DecodeItems(d, |kinds|, levels);
            ReadEach(kinds, d) == if p.Some? && EachKind(p.value.value, kinds) then p else None
    decreases |d|, 1, |kinds|
  {
    if kinds != [] {
      ReadRefinesDecode(kinds[0], d, levels);
      var v := DecodeValue(d, levels);
      if v.Some? {
        EachRefines(kinds[1..], v.value.rest, levels);
        var vs := DecodeItems(v.value.rest, |kinds| - 1, levels);
        if vs.Some? {
          EachKindStep(v.value.value, vs.value.value, kinds);
        }
      }
    }
  }

  lemma EachKindStep(v: Value, vs: seq<Value>, kinds: seq<Kind>)
    requires |kinds| == |vs| + 1
    ensures EachKind([v] + vs, kinds) <==> HasKind(v, kinds[0]) && EachKind(vs, kinds[1..])
  {
    var all := [v] + vs;
    if EachKind(all, kinds) {
      assert HasKind(all[0], kinds[0]);
      forall i | 0 <= i < |vs| ensures HasKind(vs[i], kinds[1..][i]) {
        assert all[i + 1] == vs[i];
      }
    }
    if HasKind(v, kinds[0]) && EachKind(vs, kinds[1..]) {
      forall i | 0 <= i < |all| ensures HasKind(all[i], kinds[i]) {
        if i > 0 {
          assert all[i] == vs[i - 1] && kinds[i] == kinds[1..][i - 1];
        }
      }
    }
  }

  lemma {:induction false} FieldsRefine(k: Kind, from: nat, d: seq<byte>, n: nat, levels: nat)
    requires k.MapK? && Sound(k, levels + 1)
    ensures var p := DecodeEntries(d, n, levels);
            ReadFields(k.fields, from, d, n) == if p.Some? && Conforms(p.value.value, k.fields, from) then p else None
    decreases |d|, 1, n
  {
    if n > 0 {
      ReadRefinesDecode(TextK, d, levels);
      var key := DecodeValue(d, levels);
      if key.Some? && key.value.value.Text? {
        var i := Position(k.fields, key.value.value.text);
        if i < |k.fields| {
          FieldRefines(k, i, from, key.value, n, levels);
        }
      }
    }
  }

  lemma {:induction false} FieldRefines(k: Kind, i: nat, from: nat, key: Parsed<Value>, n: nat, levels: nat)
    requires k.MapK? && Sound(k, levels + 1) && n > 0
    requires key.value.Text? && i == Position(k.fields, key.value.text) < |k.fields|
    ensures ReadKind(k.fields[i].kind, key.rest) == OfKind(DecodeValue(key.rest, levels), k.fields[i].kind)
    ensures var v := DecodeValue(key.rest, levels);
            v.Some? ==> var es := DecodeEntries(v.value.rest, n - 1, levels);
              && ReadFields(k.fields, i + 1, v.value.rest, n - 1)
                 == (if es.Some? && Conforms(es.value.value, k.fields, i + 1) then es else None)
              && (es.Some? ==>
                   (Conforms([Entry(key.value, v.value.value)] + es.value.value, k.fields, from)
                    <==> && from <= i && HasKind(v.value.value, k.fields[i].kind)
                         && Conforms(es.value.value, k.fields, i + 1)))
    decreases |key.rest|, 3, n
  {
    hide HasKind, DecodeValue, ReadKind, DecodeEntries, ReadFields, Position;
    ReadRefinesDecode(k.fields[i].kind, key.rest, levels);
    var v := DecodeValue(key.rest, levels);
    if v.Some? {
      FieldsRefine(k, i + 1, v.value.rest, n - 1, levels);
      var es := DecodeEntries(v.value.rest, n - 1, levels);
      if es.Some? {
        assert ([Entry(key.value, v.value.value)] + es.value.value)[1..] == es.value.value;
      }
    }
  }
}
