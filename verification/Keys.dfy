/** Canonical keys: fixed-width lowercase hex fields between slashes. Printing and strict parsing
    are inverse in both directions, and string order on a job's claim keys is generation order. */
module Keys {
  import opened Wrappers
  import opened Bytes

  datatype TermKind = TermReceipt | TermDead

  datatype Key =
    | Job(shard: u16, jobId: Bytes16)
    | Payload(jobId: Bytes16, digest: Bytes32)
    | Claim(shard: u16, jobId: Bytes16, generation: u32)
    | Fail(shard: u16, jobId: Bytes16, generation: u32)
    | LeaseIndex(bucket: u64, shard: u16, jobId: Bytes16, generation: u32)
    | DelayIndex(bucket: u64, shard: u16, jobId: Bytes16)
    | Receipt(shard: u16, jobId: Bytes16)
    | Dead(shard: u16, jobId: Bytes16)
    | TermIndex(bucket: u64, kind: TermKind, shard: u16, jobId: Bytes16)
    | Quarantine(bucket: u64, qid: Bytes16)
    | Tail(shard: u16, jobId: Bytes16)
    | Beacon(nonce: Bytes16)
    | Format
    | Watermark

  // ---------- Hex ----------

  function Digit(n: nat): (c: byte)
    requires n < 16
    ensures c != SLASH && c != DOT
  {
    if n < 10 then 48 + n else 87 + n
  }

  function FromDigit(c: byte): (d: Option<nat>)
    ensures d.Some? ==> d.value < 16
  {
    if 48 <= c <= 57 then Some(c - 48) else if 97 <= c <= 102 then Some(c - 87) else None
  }

  function Hex(b: seq<byte>): (s: seq<byte>)
    ensures |s| == 2 * |b|
  {
    if b == [] then [] else [Digit(b[0] / 16), Digit(b[0] % 16)] + Hex(b[1..])
  }

  function FromHex(s: seq<byte>): (r: Option<seq<byte>>)
    ensures r.Some? ==> 2 * |r.value| == |s|
  {
    if s == [] then Some([])
    else if |s| == 1 then None
    else
      match (FromDigit(s[0]), FromDigit(s[1]), FromHex(s[2..]))
      case (Some(hi), Some(lo), Some(rest)) => Some([16 * hi + lo] + rest)
      case _ => None
  }

  lemma {:induction false} HexRoundTrip(b: seq<byte>)
    ensures FromHex(Hex(b)) == Some(b)
  {
    if b != [] {
      HexRoundTrip(b[1..]);
      assert Hex(b)[2..] == Hex(b[1..]);
      assert b == [b[0]] + b[1..];
    }
  }

  lemma {:induction false} FromHexRoundTrip(s: seq<byte>)
    requires FromHex(s).Some?
    ensures Hex(FromHex(s).value) == s
  {
    if s != [] {
      FromHexRoundTrip(s[2..]);
      var b := FromHex(s).value;
      assert b[1..] == FromHex(s[2..]).value;
      assert s == [s[0], s[1]] + s[2..];
    }
  }

  /** Hex keeps the bytewise order of equally long strings. */
  lemma {:induction false} HexOrder(a: seq<byte>, b: seq<byte>)
    requires |a| == |b| && Less(a, b)
    ensures Less(Hex(a), Hex(b))
  {
    if a[0] == b[0] {
      HexOrder(a[1..], b[1..]);
      LessAfterPrefix([Digit(a[0] / 16), Digit(a[0] % 16)], Hex(a[1..]), Hex(b[1..]));
    } else {
      if a[0] / 16 == b[0] / 16 {
        LessAt(Hex(a), Hex(b), 1);
      } else {
        LessAt(Hex(a), Hex(b), 0);
      }
    }
  }

  /** A fixed-width number in hex. */
  function HexWord(n: nat, w: nat): (s: seq<byte>)
    ensures |s| == 2 * w
  {
    Hex(BigEndian(n, w))
  }

  function FromHexWord(s: seq<byte>, w: nat): Option<nat> {
    if |s| != 2 * w then None
    else
      match FromHex(s)
      case None => None
      case Some(b) => Some(FromBigEndian(b))
  }

  function FromHexBytes(s: seq<byte>, w: nat): Option<seq<byte>> {
    if |s| != 2 * w then None else FromHex(s)
  }

  lemma HexWordRoundTrip(n: nat, w: nat)
    requires n < Pow256(w)
    ensures FromHexWord(HexWord(n, w), w) == Some(n)
  {
    HexRoundTrip(BigEndian(n, w));
    BigEndianRoundTrip(n, w);
  }

  lemma FromHexWordRoundTrip(s: seq<byte>, w: nat)
    requires FromHexWord(s, w).Some?
    ensures FromHexWord(s, w).value < Pow256(w) && HexWord(FromHexWord(s, w).value, w) == s
  {
    FromHexRoundTrip(s);
    FromBigEndianRoundTrip(FromHex(s).value);
  }

  // ---------- Segments ----------

  const SLASH: byte := 47
  const DOT: byte := 46

  predicate Without(s: seq<byte>, c: byte) {
    forall i :: 0 <= i < |s| ==> s[i] != c
  }

  lemma {:induction false} HexIsPlain(b: seq<byte>)
    ensures Without(Hex(b), SLASH) && Without(Hex(b), DOT)
  {
    if b != [] {
      HexIsPlain(b[1..]);
    }
  }

  /** The pieces between separators. */
  function Split(s: seq<byte>, c: byte): (parts: seq<seq<byte>>)
    ensures parts != []
  {
    if s == [] then [[]]
    else
      var rest := Split(s[1..], c);
      if s[0] == c then [[]] + rest else [[s[0]] + rest[0]] + rest[1..]
  }

  function Join(parts: seq<seq<byte>>, c: byte): seq<byte>
    requires parts != []
  {
    if |parts| == 1 then parts[0] else parts[0] + [c] + Join(parts[1..], c)
  }

  lemma {:induction false} SplitPlain(s: seq<byte>, c: byte)
    requires Without(s, c)
    ensures Split(s, c) == [s]
  {
    if s != [] {
      SplitPlain(s[1..], c);
      assert s == [s[0]] + s[1..];
    }
  }

  lemma {:induction false} SplitFirst(s: seq<byte>, rest: seq<byte>, c: byte)
    requires Without(s, c)
    ensures Split(s + [c] + rest, c) == [s] + Split(rest, c)
  {
    var whole := s + [c] + rest;
    if s == [] {
      assert whole[1..] == rest;
    } else {
      assert whole[1..] == s[1..] + [c] + rest;
      SplitFirst(s[1..], rest, c);
      assert s == [s[0]] + s[1..];
    }
  }

  lemma {:induction false} SplitInvertsJoin(parts: seq<seq<byte>>, c: byte)
    requires parts != [] && forall i :: 0 <= i < |parts| ==> Without(parts[i], c)
    ensures Split(Join(parts, c), c) == parts
  {
    if |parts| == 1 {
      SplitPlain(parts[0], c);
    } else {
      SplitInvertsJoin(parts[1..], c);
      SplitFirst(parts[0], Join(parts[1..], c), c);
    }
    assert parts == [parts[0]] + parts[1..];
  }

  lemma {:induction false} JoinInvertsSplit(s: seq<byte>, c: byte)
    ensures Join(Split(s, c), c) == s
  {
    if s != [] {
      JoinInvertsSplit(s[1..], c);
      var rest := Split(s[1..], c);
      assert s == [s[0]] + s[1..];
      if s[0] == c {
        assert ([[]] + rest)[1..] == rest;
      } else {
        var parts := [[s[0]] + rest[0]] + rest[1..];
        if |rest| > 1 {
          assert parts[1..] == rest[1..];
          assert [s[0]] + (rest[0] + [c] + Join(rest[1..], c)) == [s[0]] + rest[0] + [c] + Join(rest[1..], c);
        }
      }
    }
  }

  // ---------- Printing ----------

  function Kind(k: TermKind): seq<byte> {
    if k.TermReceipt? then ['r' as nat] else ['d' as nat]
  }

  function Segments(k: Key): (parts: seq<seq<byte>>)
    ensures parts != []
  {
    match k
    case Job(shard, id) => [Ascii("jobs"), HexWord(shard, 2), Hex(id)]
    case Payload(id, digest) => [Ascii("payloads"), Hex(id), Hex(digest)]
    case Claim(shard, id, g) => [Ascii("claims"), HexWord(shard, 2), Hex(id), HexWord(g, 4)]
    case Fail(shard, id, g) => [Ascii("fails"), HexWord(shard, 2), Hex(id), HexWord(g, 4)]
    case LeaseIndex(bucket, shard, id, g) =>
      [Ascii("leases"), HexWord(bucket, 8), HexWord(shard, 2), Hex(id) + [DOT] + HexWord(g, 4)]
    case DelayIndex(bucket, shard, id) => [Ascii("delayed"), HexWord(bucket, 8), HexWord(shard, 2), Hex(id)]
    case Receipt(shard, id) => [Ascii("receipts"), HexWord(shard, 2), Hex(id)]
    case Dead(shard, id) => [Ascii("dead"), HexWord(shard, 2), Hex(id)]
    case TermIndex(bucket, kind, shard, id) =>
      [Ascii("termidx"), HexWord(bucket, 8), Kind(kind), HexWord(shard, 2), Hex(id)]
    case Quarantine(bucket, qid) => [Ascii("quarantine"), HexWord(bucket, 8), Hex(qid)]
    case Tail(shard, id) => [Ascii("tails"), HexWord(shard, 2), Hex(id)]
    case Beacon(nonce) => [Ascii("meta"), Ascii("clock"), Hex(nonce)]
    case Format => [Ascii("meta"), Ascii("FORMAT")]
    case Watermark => [Ascii("meta"), Ascii("watermark")]
  }

  function Print(k: Key): seq<byte> {
    Join(Segments(k), SLASH)
  }

  // ---------- Parsing ----------

  function AsShard(s: seq<byte>): (r: Option<u16>) {
    var n := FromHexWord(s, 2);
    if n.Some? && n.value < 0x1_0000 then Some(n.value) else None
  }

  function AsGeneration(s: seq<byte>): (r: Option<u32>) {
    var n := FromHexWord(s, 4);
    if n.Some? && n.value < 0x1_0000_0000 then Some(n.value) else None
  }

  function AsBucket(s: seq<byte>): (r: Option<u64>) {
    var n := FromHexWord(s, 8);
    if n.Some? && n.value < U64 then Some(n.value) else None
  }

  function AsId(s: seq<byte>): (r: Option<Bytes16>) {
    FromHexBytes(s, 16)
  }

  function AsDigest(s: seq<byte>): (r: Option<Bytes32>) {
    FromHexBytes(s, 32)
  }

  function AsKind(s: seq<byte>): Option<TermKind> {
    if s == ['r' as nat] then Some(TermReceipt) else if s == ['d' as nat] then Some(TermDead) else None
  }

  function ShardAndId(p: seq<seq<byte>>, i: nat): Option<(u16, Bytes16)>
    requires i + 1 < |p|
  {
    match (AsShard(p[i]), AsId(p[i + 1]))
    case (Some(s), Some(id)) => Some((s, id))
    case _ => None
  }

  function FromLease(p: seq<seq<byte>>): Option<Key>
    requires |p| == 4
  {
    var last := Split(p[3], DOT);
    if |last| < 2 then None
    else
      match (AsBucket(p[1]), AsShard(p[2]), AsId(last[0]), AsGeneration(Join(last[1..], DOT)))
      case (Some(b), Some(s), Some(id), Some(g)) => Some(LeaseIndex(b, s, id, g))
      case _ => None
  }

  function FromChain(p: seq<seq<byte>>): Option<Key>
    requires |p| == 4
  {
    match (ShardAndId(p, 1), AsGeneration(p[3]))
    case (Some((s, id)), Some(g)) => Some(if p[0] == Ascii("claims") then Claim(s, id, g) else Fail(s, id, g))
    case _ => None
  }

  function FromIndex(p: seq<seq<byte>>): Option<Key>
    requires |p| >= 4
  {
    if p[0] == Ascii("delayed") then
      if |p| != 4 then None
      else
        match (AsBucket(p[1]), ShardAndId(p, 2))
        case (Some(b), Some((s, id))) => Some(DelayIndex(b, s, id))
        case _ => None
    else if |p| != 5 then None
    else
      match (AsBucket(p[1]), AsKind(p[2]), ShardAndId(p, 3))
      case (Some(b), Some(kind), Some((s, id))) => Some(TermIndex(b, kind, s, id))
      case _ => None
  }

  function FromThree(p: seq<seq<byte>>): Option<Key>
    requires |p| == 3
  {
    if p[0] == Ascii("payloads") then
      match (AsId(p[1]), AsDigest(p[2]))
      case (Some(id), Some(d)) => Some(Payload(id, d))
      case _ => None
    else if p[0] == Ascii("quarantine") then
      match (AsBucket(p[1]), AsId(p[2]))
      case (Some(b), Some(qid)) => Some(Quarantine(b, qid))
      case _ => None
    else if p[0] == Ascii("meta") then
      if p[1] != Ascii("clock") then None
      else
        match AsId(p[2])
        case Some(nonce) => Some(Beacon(nonce))
        case None => None
    else
      match ShardAndId(p, 1)
      case None => None
      case Some((s, id)) =>
        if p[0] == Ascii("jobs") then Some(Job(s, id))
        else if p[0] == Ascii("receipts") then Some(Receipt(s, id))
        else if p[0] == Ascii("dead") then Some(Dead(s, id))
        else if p[0] == Ascii("tails") then Some(Tail(s, id))
        else None
  }

  /** Exact segment counts and widths, lowercase digits only. */
  function FromSegments(p: seq<seq<byte>>): Option<Key> {
    if |p| < 2 then None
    else if |p| == 2 then
      if p == [Ascii("meta"), Ascii("FORMAT")] then Some(Format)
      else if p == [Ascii("meta"), Ascii("watermark")] then Some(Watermark)
      else None
    else if |p| == 3 then FromThree(p)
    else if p[0] == Ascii("claims") || p[0] == Ascii("fails") then
      if |p| == 4 then FromChain(p) else None
    else if p[0] == Ascii("leases") then
      if |p| == 4 then FromLease(p) else None
    else if p[0] == Ascii("delayed") || p[0] == Ascii("termidx") then FromIndex(p)
    else None
  }

  function Parse(s: seq<byte>): Option<Key> {
    FromSegments(Split(s, SLASH))
  }

  // ---------- Parsing inverts printing ----------

  lemma FieldsParse(shard: u16, id: Bytes16, g: u32, bucket: u64)
    ensures AsShard(HexWord(shard, 2)) == Some(shard) && AsId(Hex(id)) == Some(id)
    ensures AsGeneration(HexWord(g, 4)) == Some(g) && AsBucket(HexWord(bucket, 8)) == Some(bucket)
  {
    PowersOf256();
    HexWordRoundTrip(shard, 2);
    HexWordRoundTrip(g, 4);
    HexWordRoundTrip(bucket, 8);
    HexRoundTrip(id);
  }

  lemma FieldsPrint(s: seq<byte>)
    ensures AsShard(s).Some? ==> HexWord(AsShard(s).value, 2) == s
    ensures AsGeneration(s).Some? ==> HexWord(AsGeneration(s).value, 4) == s
    ensures AsBucket(s).Some? ==> HexWord(AsBucket(s).value, 8) == s
    ensures AsId(s).Some? ==> Hex(AsId(s).value) == s
    ensures AsDigest(s).Some? ==> Hex(AsDigest(s).value) == s
    ensures AsKind(s).Some? ==> Kind(AsKind(s).value) == s
  {
    if FromHexWord(s, 2).Some? {
      FromHexWordRoundTrip(s, 2);
    }
    if FromHexWord(s, 4).Some? {
      FromHexWordRoundTrip(s, 4);
    }
    if FromHexWord(s, 8).Some? {
      FromHexWordRoundTrip(s, 8);
    }
    if FromHex(s).Some? {
      FromHexRoundTrip(s);
    }
  }

  lemma WordIsPlain(n: nat, w: nat)
    ensures Without(HexWord(n, w), SLASH) && Without(HexWord(n, w), DOT)
  {
    HexIsPlain(BigEndian(n, w));
  }

  lemma LeaseSuffix(id: Bytes16, g: u32)
    ensures Split(Hex(id) + [DOT] + HexWord(g, 4), DOT) == [Hex(id), HexWord(g, 4)]
    ensures Without(Hex(id) + [DOT] + HexWord(g, 4), SLASH)
  {
    HexIsPlain(id);
    WordIsPlain(g, 4);
    SplitFirst(Hex(id), HexWord(g, 4), DOT);
    SplitPlain(HexWord(g, 4), DOT);
  }

  lemma LeasePrints(s: seq<byte>)
    requires |Split(s, DOT)| >= 2
    ensures var last := Split(s, DOT); last[0] + [DOT] + Join(last[1..], DOT) == s
  {
    JoinInvertsSplit(s, DOT);
  }

  /** The prefixes differ in length or in their first letter. */
  lemma Prefixes()
    ensures Ascii("jobs")[0] == 106 && Ascii("dead")[0] == 100 && Ascii("meta")[0] == 109
    ensures Ascii("payloads")[0] == 112 && Ascii("receipts")[0] == 114
    ensures Ascii("claims")[0] == 99 && Ascii("leases")[0] == 108
    ensures Ascii("fails")[0] == 102 && Ascii("tails")[0] == 116
    ensures Ascii("delayed")[0] == 100 && Ascii("termidx")[0] == 116
    ensures Ascii("FORMAT") != Ascii("watermark") && Ascii("clock") != Ascii("FORMAT")
            && Ascii("clock") != Ascii("watermark")
  {}

  lemma SegmentsParse(k: Key)
    ensures FromSegments(Segments(k)) == Some(k)
  {
    hide Ascii, HexWord, Hex, AsShard, AsId, AsGeneration, AsBucket, AsDigest, Split;
    Prefixes();
    match k
    case Job(shard, id) => FieldsParse(shard, id, 0, 0);
    case Payload(id, digest) =>
      FieldsParse(0, id, 0, 0);
      DigestParses(digest);
    case Claim(shard, id, g) => FieldsParse(shard, id, g, 0);
    case Fail(shard, id, g) => FieldsParse(shard, id, g, 0);
    case LeaseIndex(bucket, shard, id, g) =>
      FieldsParse(shard, id, g, bucket);
      LeaseSuffix(id, g);
    case DelayIndex(bucket, shard, id) => FieldsParse(shard, id, 0, bucket);
    case Receipt(shard, id) => FieldsParse(shard, id, 0, 0);
    case Dead(shard, id) => FieldsParse(shard, id, 0, 0);
    case TermIndex(bucket, kind, shard, id) => FieldsParse(shard, id, 0, bucket);
    case Quarantine(bucket, qid) => FieldsParse(0, qid, 0, bucket);
    case Tail(shard, id) => FieldsParse(shard, id, 0, 0);
    case Beacon(nonce) => FieldsParse(0, nonce, 0, 0);
    case Format =>
    case Watermark =>
  }

  lemma DigestParses(d: Bytes32)
    ensures AsDigest(Hex(d)) == Some(d)
  {
    HexRoundTrip(d);
  }

  lemma AsciiIsPlain(s: string)
    requires forall i :: 0 <= i < |s| ==> (s[i] as int) != 47 && (s[i] as int) < 128
    ensures Without(Ascii(s), SLASH)
  {}

  lemma SegmentsArePlain(k: Key)
    ensures forall i :: 0 <= i < |Segments(k)| ==> Without(Segments(k)[i], SLASH)
  {
    hide Ascii, HexWord, Hex, Without;
    var parts := Segments(k);
    PrefixesArePlain();
    forall i | 0 <= i < |parts| ensures Without(parts[i], SLASH) {
      SegmentIsPlain(k, i);
    }
  }

  lemma PrefixesArePlain()
    ensures Without(Ascii("jobs"), SLASH) && Without(Ascii("payloads"), SLASH) && Without(Ascii("claims"), SLASH)
    ensures Without(Ascii("fails"), SLASH) && Without(Ascii("leases"), SLASH) && Without(Ascii("delayed"), SLASH)
    ensures Without(Ascii("receipts"), SLASH) && Without(Ascii("dead"), SLASH) && Without(Ascii("termidx"), SLASH)
    ensures Without(Ascii("quarantine"), SLASH) && Without(Ascii("tails"), SLASH) && Without(Ascii("meta"), SLASH)
    ensures Without(Ascii("clock"), SLASH) && Without(Ascii("FORMAT"), SLASH) && Without(Ascii("watermark"), SLASH)
  {
    AsciiIsPlain("jobs");
    AsciiIsPlain("payloads");
    AsciiIsPlain("claims");
    AsciiIsPlain("fails");
    AsciiIsPlain("leases");
    AsciiIsPlain("delayed");
    AsciiIsPlain("receipts");
    AsciiIsPlain("dead");
    AsciiIsPlain("termidx");
    AsciiIsPlain("quarantine");
    AsciiIsPlain("tails");
    AsciiIsPlain("meta");
    AsciiIsPlain("clock");
    AsciiIsPlain("FORMAT");
    AsciiIsPlain("watermark");
  }

  lemma SegmentIsPlain(k: Key, i: nat)
    requires i < |Segments(k)|
    ensures Without(Segments(k)[i], SLASH)
  {
    hide Ascii, HexWord, Hex, Without;
    PrefixesArePlain();
    KindIsPlain();
    match k
    case Job(shard, id) => FieldsArePlain(shard, id, 0, 0);
    case Payload(id, digest) =>
      FieldsArePlain(0, id, 0, 0);
      HexIsPlain(digest);
    case Claim(shard, id, g) => FieldsArePlain(shard, id, g, 0);
    case Fail(shard, id, g) => FieldsArePlain(shard, id, g, 0);
    case LeaseIndex(bucket, shard, id, g) =>
      FieldsArePlain(shard, id, g, bucket);
      LeaseSuffix(id, g);
    case DelayIndex(bucket, shard, id) => FieldsArePlain(shard, id, 0, bucket);
    case Receipt(shard, id) => FieldsArePlain(shard, id, 0, 0);
    case Dead(shard, id) => FieldsArePlain(shard, id, 0, 0);
    case TermIndex(bucket, kind, shard, id) => FieldsArePlain(shard, id, 0, bucket);
    case Quarantine(bucket, qid) => FieldsArePlain(0, qid, 0, bucket);
    case Tail(shard, id) => FieldsArePlain(shard, id, 0, 0);
    case Beacon(nonce) => FieldsArePlain(0, nonce, 0, 0);
    case Format =>
    case Watermark =>
  }

  lemma KindIsPlain()
    ensures Without(Kind(TermReceipt), SLASH) && Without(Kind(TermDead), SLASH)
  {}

  lemma FieldsArePlain(shard: u16, id: Bytes16, g: u32, bucket: u64)
    ensures Without(HexWord(shard, 2), SLASH) && Without(Hex(id), SLASH)
    ensures Without(HexWord(g, 4), SLASH) && Without(HexWord(bucket, 8), SLASH)
  {
    WordIsPlain(shard, 2);
    HexIsPlain(id);
    WordIsPlain(g, 4);
    WordIsPlain(bucket, 8);
  }

  /** Every key parses from its own text. */
  lemma ParseInvertsPrint(k: Key)
    ensures Parse(Print(k)) == Some(k)
  {
    SegmentsArePlain(k);
    SplitInvertsJoin(Segments(k), SLASH);
    SegmentsParse(k);
  }

  lemma ThreePrints(p: seq<seq<byte>>)
    requires |p| == 3 && FromThree(p).Some?
    ensures Segments(FromThree(p).value) == p
  {
    hide Ascii, HexWord, Hex, AsShard, AsId, AsBucket, AsDigest;
    FieldsPrint(p[1]);
    FieldsPrint(p[2]);
  }

  lemma ChainPrints(p: seq<seq<byte>>)
    requires |p| == 4 && FromChain(p).Some? && (p[0] == Ascii("claims") || p[0] == Ascii("fails"))
    ensures Segments(FromChain(p).value) == p
  {
    hide Ascii, HexWord, Hex, AsShard, AsId, AsGeneration;
    FieldsPrint(p[1]);
    FieldsPrint(p[2]);
    FieldsPrint(p[3]);
  }

  lemma LeaseKeyPrints(p: seq<seq<byte>>)
    requires |p| == 4 && FromLease(p).Some? && p[0] == Ascii("leases")
    ensures Segments(FromLease(p).value) == p
  {
    hide Ascii, HexWord, Hex, AsShard, AsId, AsGeneration, AsBucket, Split;
    FieldsPrint(p[1]);
    FieldsPrint(p[2]);
    var last := Split(p[3], DOT);
    LeasePrints(p[3]);
    FieldsPrint(last[0]);
    FieldsPrint(Join(last[1..], DOT));
  }

  lemma IndexPrints(p: seq<seq<byte>>)
    requires |p| >= 4 && FromIndex(p).Some? && (p[0] == Ascii("delayed") || p[0] == Ascii("termidx"))
    ensures Segments(FromIndex(p).value) == p
  {
    hide Ascii, HexWord, Hex, AsShard, AsId, AsBucket, AsKind, Kind;
    FieldsPrint(p[1]);
    FieldsPrint(p[2]);
    FieldsPrint(p[3]);
    if |p| > 4 {
      FieldsPrint(p[4]);
    }
  }

  lemma SegmentsPrint(p: seq<seq<byte>>)
    requires FromSegments(p).Some?
    ensures Segments(FromSegments(p).value) == p
  {
    hide Ascii, Segments, FromThree, FromChain, FromLease, FromIndex;
    if |p| == 2 {
      MetaPrints();
    } else if |p| == 3 {
      ThreePrints(p);
    } else if p[0] == Ascii("claims") || p[0] == Ascii("fails") {
      ChainPrints(p);
    } else if p[0] == Ascii("leases") {
      LeaseKeyPrints(p);
    } else {
      IndexPrints(p);
    }
  }

  lemma MetaPrints()
    ensures Segments(Format) == [Ascii("meta"), Ascii("FORMAT")]
            && Segments(Watermark) == [Ascii("meta"), Ascii("watermark")]
  {}

  /** Every accepted text is the print of the key it parses to. */
  lemma PrintInvertsParse(s: seq<byte>)
    requires Parse(s).Some?
    ensures Print(Parse(s).value) == s
  {
    SegmentsPrint(Split(s, SLASH));
    JoinInvertsSplit(s, SLASH);
  }

  // ---------- Claim keys sort by generation ----------

  /** The prefix under which a job's claims are listed. */
  function ClaimsPrefix(shard: u16, id: Bytes16): seq<byte> {
    Join([Ascii("claims"), HexWord(shard, 2), Hex(id)], SLASH) + [SLASH]
  }

  lemma ClaimKeyUnderPrefix(shard: u16, id: Bytes16, g: u32)
    ensures Print(Claim(shard, id, g)) == ClaimsPrefix(shard, id) + HexWord(g, 4)
  {
    hide Ascii, HexWord, Hex;
    var a, b, c, d := Ascii("claims"), HexWord(shard, 2), Hex(id), HexWord(g, 4);
    assert [a, b, c, d][1..] == [b, c, d] && [b, c, d][1..] == [c, d] && [c, d][1..] == [d];
    assert Join([c, d], SLASH) == c + [SLASH] + d;
    assert Join([b, c, d], SLASH) == b + [SLASH] + (c + [SLASH] + d);
    assert [a, b, c][1..] == [b, c] && [b, c][1..] == [c];
    assert Join([b, c], SLASH) == b + [SLASH] + c;
    assert a + [SLASH] + (b + [SLASH] + (c + [SLASH] + d)) == a + [SLASH] + (b + [SLASH] + c) + [SLASH] + d;
  }

  lemma HexWordOrder(g: nat, h: nat, w: nat)
    requires g < Pow256(w) && h < Pow256(w)
    ensures Less(HexWord(g, w), HexWord(h, w)) <==> g < h
  {
    if g < h {
      BigEndianOrder(g, h, w);
      HexOrder(BigEndian(g, w), BigEndian(h, w));
    } else if h < g {
      BigEndianOrder(h, g, w);
      HexOrder(BigEndian(h, w), BigEndian(g, w));
      LessAsymmetric(HexWord(h, w), HexWord(g, w));
    } else {
      LessIrreflexive(HexWord(g, w));
    }
  }

  /** String order on a job's claim keys is generation order. */
  lemma ClaimOrder(shard: u16, id: Bytes16, g: u32, h: u32)
    ensures Less(Print(Claim(shard, id, g)), Print(Claim(shard, id, h))) <==> g < h
  {
    ClaimKeyUnderPrefix(shard, id, g);
    ClaimKeyUnderPrefix(shard, id, h);
    LessAfterPrefix(ClaimsPrefix(shard, id), HexWord(g, 4), HexWord(h, 4));
    PowersOf256();
    HexWordOrder(g, h, 4);
  }

  // ---------- The loops that print and read hex ----------

  method PushHex(out: seq<byte>, bytes: seq<byte>) returns (o: seq<byte>)
    ensures o == out + Hex(bytes)
  {
    o := out;
    for i := 0 to |bytes|
      invariant o + Hex(bytes[i..]) == out + Hex(bytes)
    {
      ghost var before := o;
      o := o + [Digit(bytes[i] / 16)];
      o := o + [Digit(bytes[i] % 16)];
      assert bytes[i..][1..] == bytes[i + 1..];
      assert before + ([Digit(bytes[i] / 16), Digit(bytes[i] % 16)] + Hex(bytes[i + 1..])) == o + Hex(bytes[i + 1..]);
    }
    assert o + [] == o;
  }

  /** Fills a fixed-width buffer from lowercase hex. */
  method HexDecodeFixed(s: seq<byte>, n: nat) returns (r: Option<seq<byte>>)
    ensures r == FromHexBytes(s, n)
  {
    if |s| != 2 * n {
      return None;
    }
    hide FromHex;
    var out := new byte[n](_ => 0);
    NoDigitsYet(s);
    for i := 0 to n
      invariant DecodedTo(s, i, out[..i])
    {
      HexStep(s, i, out[..i]);
      var hi, lo := FromDigit(s[2 * i]), FromDigit(s[2 * i + 1]);
      if hi.None? || lo.None? {
        return None;
      }
      ghost var done := out[..i];
      out[i] := 16 * hi.value + lo.value;
      assert out[..i + 1] == done + [16 * hi.value + lo.value];
    }
    AllDigits(s, n, out[..n]);
    return Some(out[..n]);
  }

  /** What the whole decodes to once its first pairs gave `done`. */
  function Prepended(done: seq<byte>, rest: Option<seq<byte>>): Option<seq<byte>> {
    if rest.Some? then Some(done + rest.value) else None
  }

  /** The first `i` byte pairs have been decoded to `done`. */
  ghost predicate DecodedTo(s: seq<byte>, i: nat, done: seq<byte>) {
    2 * i <= |s| && FromHex(s) == Prepended(done, FromHex(s[2 * i..]))
  }

  lemma NoDigitsYet(s: seq<byte>)
    ensures DecodedTo(s, 0, [])
  {
    assert s[0..] == s;
    if FromHex(s).Some? {
      assert [] + FromHex(s).value == FromHex(s).value;
    }
  }

  lemma FirstPair(t: seq<byte>, done: seq<byte>)
    requires |t| >= 2
    ensures Prepended(done, FromHex(t)) ==
            match (FromDigit(t[0]), FromDigit(t[1]))
            case (Some(hi), Some(lo)) => Prepended(done + [16 * hi + lo], FromHex(t[2..]))
            case _ => None
  {
    var hi, lo, rest := FromDigit(t[0]), FromDigit(t[1]), FromHex(t[2..]);
    if hi.Some? && lo.Some? && rest.Some? {
      assert done + ([16 * hi.value + lo.value] + rest.value) == done + [16 * hi.value + lo.value] + rest.value;
    }
  }

  lemma HexStep(s: seq<byte>, i: nat, done: seq<byte>)
    requires DecodedTo(s, i, done) && 2 * i + 1 < |s|
    ensures match (FromDigit(s[2 * i]), FromDigit(s[2 * i + 1]))
            case (Some(hi), Some(lo)) => DecodedTo(s, i + 1, done + [16 * hi + lo])
            case _ => FromHex(s).None?
  {
    hide FromHex, FromDigit, Prepended;
    assert s[2 * i..][2..] == s[2 * (i + 1)..];
    FirstPair(s[2 * i..], done);
  }

  lemma AllDigits(s: seq<byte>, n: nat, done: seq<byte>)
    requires |s| == 2 * n && DecodedTo(s, n, done)
    ensures FromHex(s) == Some(done)
  {
    assert s[2 * n..] == [] && done + [] == done;
  }
}
