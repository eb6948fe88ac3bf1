/** Record types, their canonical key tables, and the reference codec over CBOR value trees. */
module Records {
  import opened Wrappers
  import opened Bytes
  import opened Cbor
  import opened FieldReader

  type Blob = s: seq<byte> | |s| < U64
  type Utf8 = s: seq<byte> | |s| < U64 && ValidUtf8(s) witness []
  type Digests = s: seq<Bytes32> | |s| < U64
  type Hash = seq<byte> -> Bytes32

  datatype Basis = Basis(prevStoreTime: u64, prevDuration: u64, observedWatermark: u64)

  datatype Record =
    | FormatRecord(shardCount: u32, leaseWidth: u64, delayedWidth: u64, terminalWidth: u64, inlineLimit: u64,
                   features: u64)
    | JobRecord(jobId: Bytes16, maximumAttempts: u64, contentType: Utf8, createdTime: u64, notBefore: Option<u64>,
                payloadDigest: Bytes32, payloadLength: u64, payloadInline: Option<Blob>, payloadKey: Option<Utf8>)
    | ClaimRecord(jobId: Bytes16, generation: u64, attempt: u64, workerId: Utf8, workerToken: Bytes16,
                  leaseDuration: u64, continuation: bool, basis: Option<Basis>, prevToken: Option<Bytes16>)
    | FailRecord(jobId: Bytes16, generation: u64, reason: u64, attempt: u64, retryNotBefore: u64)
    | ReceiptRecord(jobId: Bytes16, generation: u64, attempt: u64, workerId: Utf8, workerToken: Bytes16,
                    payloadDigest: Bytes32, outputDigests: Digests)
    | DeadRecord(jobId: Bytes16, generation: u64, attempt: u64, reason: u64)
    | WatermarkRecord(highestBucket: u64, sequence: u64)
    | QuarantineRecord(qid: Bytes16, sourceKey: Utf8, reason: u64, observedTime: u64, detail: Option<u64>)

  const MAGIC: u64 := 0x5354_4f57_5131_2d00
  const MAJOR: u64 := 1
  const MINOR: u64 := 0

  function TypeNumber(r: Record): (t: nat)
    ensures 1 <= t <= 8
  {
    match r
    case FormatRecord(_, _, _, _, _, _) => 1
    case JobRecord(_, _, _, _, _, _, _, _, _) => 2
    case ClaimRecord(_, _, _, _, _, _, _, _, _) => 3
    case FailRecord(_, _, _, _, _) => 4
    case ReceiptRecord(_, _, _, _, _, _, _) => 5
    case DeadRecord(_, _, _, _) => 6
    case WatermarkRecord(_, _) => 7
    case QuarantineRecord(_, _, _, _, _) => 8
  }

  function TypeName(t: nat): string
    requires 1 <= t <= 8
  {
    if t == 1 then "format" else if t == 2 then "job" else if t == 3 then "claim" else if t == 4 then "fail"
    else if t == 5 then "receipt" else if t == 6 then "dead" else if t == 7 then "watermark" else "quarantine"
  }

  /** The digest of a body under its type's domain separator. */
  function RecordDigest(sha: Hash, t: nat, body: seq<byte>): Bytes32
    requires 1 <= t <= 8
  {
    sha(Ascii("StowQ-1-") + Ascii(TypeName(t)) + [0] + body)
  }

  // ---------- Key tables ----------

  /** A short ASCII name. */
  predicate Plain(f: Field) {
    |f.name| < 256 && forall i :: 0 <= i < |f.name| ==> f.name[i] < 128
  }

  function Required(name: string, kind: Kind): (f: Field)
    requires |name| < 256
    ensures Plain(f)
  {
    Field(Ascii(name), kind, true)
  }

  function Optional(name: string, kind: Kind): (f: Field)
    requires |name| < 256
    ensures Plain(f)
  {
    Field(Ascii(name), kind, false)
  }

  const WORD := UintK(U64 - 1)

  function FormatFields(): seq<Field> {
    [Required("shard_count", UintK(65536)), Required("inline_limit", WORD), Required("lease_bucket_width_ns", WORD),
     Required("required_feature_bits", WORD), Required("delayed_bucket_width_ns", WORD),
     Required("terminal_bucket_width_ns", WORD)]
  }

  function JobFields(): seq<Field> {
    [Required("job_id", FixedK(16)), Optional("payload_key", TextK), Required("content_type", TextK),
     Optional("not_before_ns", WORD), Required("payload_digest", FixedK(32)), Optional("payload_inline", BytesK),
     Required("payload_length", WORD), Required("maximum_attempts", WORD), Required("created_store_time_ns", WORD)]
  }

  function BasisFields(): seq<Field> {
    [Required("prev_duration_ns", WORD), Required("prev_store_time_ns", WORD), Required("observed_watermark_ns", WORD)]
  }

  function ClaimFields(): seq<Field> {
    [Optional("basis", MapK(BasisFields())), Required("job_id", FixedK(16)), Required("attempt", WORD),
     Required("worker_id", TextK), Required("generation", WORD), Optional("prev_token", FixedK(16)),
     Required("continuation", BoolK), Required("worker_token", FixedK(16)), Required("lease_duration_ns", WORD)]
  }

  function FailFields(): seq<Field> {
    [Required("job_id", FixedK(16)), Required("reason", WORD), Required("attempt", WORD), Required("generation", WORD),
     Required("retry_not_before_ns", WORD)]
  }

  function ReceiptFields(): seq<Field> {
    [Required("job_id", FixedK(16)), Required("attempt", WORD), Required("worker_id", TextK),
     Required("generation", WORD),
     Required("worker_token", FixedK(16)), Optional("output_digests", ListK(FixedK(32))),
     Required("payload_digest", FixedK(32))]
  }

  function DeadFields(): seq<Field> {
    [Required("job_id", FixedK(16)), Required("reason", WORD), Required("attempt", WORD), Required("generation", WORD)]
  }

  function WatermarkFields(): seq<Field> {
    [Required("sequence", WORD), Required("highest_observed_wall_bucket", WORD)]
  }

  function QuarantineFields(): seq<Field> {
    [Required("qid", FixedK(16)), Optional("detail", WORD), Required("reason", WORD), Required("source_key", TextK),
     Required("observed_store_ns", WORD)]
  }

  function Width(t: nat): nat {
    if t == 1 then 6 else if t == 2 || t == 3 then 9 else if t == 4 || t == 8 then 5 else if t == 5 then 7
    else if t == 6 then 4 else 2
  }

  function Table(t: nat): (fields: seq<Field>)
    requires 1 <= t <= 8
    ensures |fields| == Width(t)
  {
    if t == 1 then FormatFields() else if t == 2 then JobFields() else if t == 3 then ClaimFields()
    else if t == 4 then FailFields() else if t == 5 then ReceiptFields() else if t == 6 then DeadFields()
    else if t == 7 then WatermarkFields() else QuarantineFields()
  }

  // ---------- The reference path ----------

  function E(name: string, v: Value): Entry {
    Entry(Text(Ascii(name)), v)
  }

  /** An entry when the value is present. */
  function Maybe(name: seq<byte>, v: Option<Value>): seq<Entry> {
    if v.Some? then [Entry(Text(name), v.value)] else []
  }

  function UintOf(n: Option<u64>): Option<Value> {
    if n.Some? then Some(Uint(n.value)) else None
  }

  function BytesOf(b: Option<seq<byte>>): Option<Value> {
    if b.Some? then Some(Bytes(b.value)) else None
  }

  function TextOf(t: Option<seq<byte>>): Option<Value> {
    if t.Some? then Some(Text(t.value)) else None
  }

  function DigestsOf(ds: seq<Bytes32>): Option<Value> {
    if ds == [] then None else Some(Array(seq(|ds|, i requires 0 <= i < |ds| => Bytes(ds[i]))))
  }

  /** A field's name and its value, when it has one. */
  type Pair = (seq<byte>, Option<Value>)

  /** The entries of the pairs that have a value. */
  function Gather(ps: seq<Pair>): seq<Entry> {
    if ps == [] then [] else Maybe(ps[0].0, ps[0].1) + Gather(ps[1..])
  }

  function P(name: string, v: Value): Pair {
    (Ascii(name), Some(v))
  }

  function BasisOf(b: Option<Basis>): Option<Value> {
    if b.Some? then Some(Map(Gather(BasisPairs(b.value)))) else None
  }

  function BasisPairs(b: Basis): seq<Pair> {
    [P("prev_store_time_ns", Uint(b.prevStoreTime)), P("prev_duration_ns", Uint(b.prevDuration)),
     P("observed_watermark_ns", Uint(b.observedWatermark))]
  }

  /** A record's fields, in the order the reference path lists them. */
  function Pairs(r: Record): seq<Pair> {
    match r
    case FormatRecord(shards, lease, delayed, terminal, limit, features) =>
      [P("shard_count", Uint(shards)), P("lease_bucket_width_ns", Uint(lease)),
       P("delayed_bucket_width_ns", Uint(delayed)),
       P("terminal_bucket_width_ns", Uint(terminal)), P("inline_limit", Uint(limit)),
       P("required_feature_bits", Uint(features))]
    case JobRecord(id, attempts, content, created, notBefore, digest, length, inline, key) =>
      [P("job_id", Bytes(id)), P("maximum_attempts", Uint(attempts)), P("content_type", Text(content)),
       P("created_store_time_ns", Uint(created)), (Ascii("not_before_ns"), UintOf(notBefore)),
       P("payload_digest", Bytes(digest)), P("payload_length", Uint(length)),
       (Ascii("payload_inline"), BytesOf(inline)),
       (Ascii("payload_key"), TextOf(key))]
    case ClaimRecord(id, generation, attempt, worker, token, lease, continuation, basis, prevToken) =>
      [P("job_id", Bytes(id)), P("generation", Uint(generation)), P("attempt", Uint(attempt)),
       P("worker_id", Text(worker)),
       P("worker_token", Bytes(token)), P("lease_duration_ns", Uint(lease)), P("continuation", Bool(continuation)),
       (Ascii("basis"), BasisOf(basis)), (Ascii("prev_token"), BytesOf(prevToken))]
    case FailRecord(id, generation, reason, attempt, retry) =>
      [P("job_id", Bytes(id)), P("generation", Uint(generation)), P("reason", Uint(reason)),
       P("attempt", Uint(attempt)),
       P("retry_not_before_ns", Uint(retry))]
    case ReceiptRecord(id, generation, attempt, worker, token, digest, outputs) =>
      [P("job_id", Bytes(id)), P("generation", Uint(generation)), P("attempt", Uint(attempt)),
       P("worker_id", Text(worker)),
       P("worker_token", Bytes(token)), P("payload_digest", Bytes(digest)),
       (Ascii("output_digests"), DigestsOf(outputs))]
    case DeadRecord(id, generation, attempt, reason) =>
      [P("job_id", Bytes(id)), P("generation", Uint(generation)), P("attempt", Uint(attempt)),
       P("reason", Uint(reason))]
    case WatermarkRecord(bucket, sequence) =>
      [P("highest_observed_wall_bucket", Uint(bucket)), P("sequence", Uint(sequence))]
    case QuarantineRecord(qid, source, reason, observed, detail) =>
      [P("qid", Bytes(qid)), P("source_key", Text(source)), P("reason", Uint(reason)),
       P("observed_store_ns", Uint(observed)),
       (Ascii("detail"), UintOf(detail))]
  }

  function Fields(r: Record): seq<Entry> {
    Gather(Pairs(r))
  }

  /** The envelope's items before the fields. */
  function Preamble(t: nat, q: Bytes16, tag: Bytes8): (items: seq<Value>)
    ensures |items| == 6
  {
    [Uint(MAGIC), Uint(MAJOR), Uint(MINOR), Bytes(q), Bytes(tag), Uint(t)]
  }

  function Envelope(t: nat, fields: Value, q: Bytes16, tag: Bytes8): Value {
    Array(Preamble(t, q, tag) + [fields])
  }

  /** A body followed by its digest as a byte string. */
  function Sealed(sha: Hash, t: nat, body: seq<byte>): seq<byte>
    requires 1 <= t <= 8
  {
    body + [0x58, 32] + RecordDigest(sha, t, body)
  }

  /** The reference encoder: the value tree, sorted as it is encoded, sealed by its digest. */
  function ValueEncode(sha: Hash, r: Record, q: Bytes16, tag: Bytes8): seq<byte> {
    Sealed(sha, TypeNumber(r), Encode(Envelope(TypeNumber(r), Map(Fields(r)), q, tag)))
  }

  // ---------- Reading fields back ----------

  /** Views of a looked-up field; a field of the wrong shape reads as absent. */
  function AsUint(v: Option<Value>): Option<u64> {
    if v.Some? && v.value.Uint? && v.value.n < U64 then Some(v.value.n) else None
  }

  function AsBool(v: Option<Value>): Option<bool> {
    if v.Some? && v.value.Bool? then Some(v.value.b) else None
  }

  function AsId(v: Option<Value>): Option<Bytes16> {
    if v.Some? && v.value.Bytes? && |v.value.bytes| == 16 then Some(v.value.bytes) else None
  }

  function AsDigest(v: Option<Value>): Option<Bytes32> {
    if v.Some? && v.value.Bytes? && |v.value.bytes| == 32 then Some(v.value.bytes) else None
  }

  function AsBlob(v: Option<Value>): Option<Blob> {
    if v.Some? && v.value.Bytes? && |v.value.bytes| < U64 then Some(v.value.bytes) else None
  }

  function AsText(v: Option<Value>): Option<Utf8> {
    if v.Some? && v.value.Text? && |v.value.text| < U64 && ValidUtf8(v.value.text) then Some(v.value.text) else None
  }

  predicate AllDigests(items: seq<Value>) {
    forall i :: 0 <= i < |items| ==> items[i].Bytes? && |items[i].bytes| == 32
  }

  function AsDigests(v: Option<Value>): Digests {
    if v.Some? && v.value.Array? && |v.value.items| < U64 && AllDigests(v.value.items)
    then seq(|v.value.items|, i requires 0 <= i < |v.value.items| => v.value.items[i].bytes)
    else []
  }

  function AsBasis(v: Option<Value>): Option<Basis> {
    if v.Some? && v.value.Map? then
      var m := v.value.entries;
      var time, duration, watermark := AsUint(Find(m, Ascii("prev_store_time_ns"))),
                                       AsUint(Find(m, Ascii("prev_duration_ns"))),
                                       AsUint(Find(m, Ascii("observed_watermark_ns")));
      if time.Some? && duration.Some? && watermark.Some?
      then Some(Basis(time.value, duration.value, watermark.value)) else None
    else None
  }

  function Job(id: Option<Bytes16>, attempts: Option<u64>, content: Option<Utf8>, created: Option<u64>,
               notBefore: Option<u64>, digest: Option<Bytes32>, length: Option<u64>,
               inline: Option<Blob>, key: Option<Utf8>): Option<Record>
  {
    if inline.Some? == key.Some? then None
    else if id.Some? && attempts.Some? && content.Some? && created.Some? && digest.Some? && length.Some? then
      Some(JobRecord(id.value, attempts.value, content.value, created.value, notBefore, digest.value, length.value,
                     inline, key))
    else None
  }

  function Claim(id: Option<Bytes16>, generation: Option<u64>, attempt: Option<u64>, worker: Option<Utf8>,
                 token: Option<Bytes16>, lease: Option<u64>, continuation: Option<bool>,
                 basis: Option<Basis>, prevToken: Option<Bytes16>): Option<Record>
  {
    if continuation.None? then None
    else if continuation.value == basis.Some? || continuation.value != prevToken.Some?
            || basis.Some? == prevToken.Some?
    then None
    else if id.Some? && generation.Some? && attempt.Some? && worker.Some? && token.Some? && lease.Some? then
      Some(ClaimRecord(id.value, generation.value, attempt.value, worker.value, token.value, lease.value,
                       continuation.value, basis, prevToken))
    else None
  }

  /** Builds the record from the looked-up fields, given in table order. */
  function Assemble(t: nat, s: seq<Option<Value>>): Option<Record>
    requires 1 <= t <= 8 && |s| == Width(t)
  {
    if t == 1 then
      var shards, limit, lease, features, delayed, terminal :=
        AsUint(s[0]), AsUint(s[1]), AsUint(s[2]), AsUint(s[3]), AsUint(s[4]), AsUint(s[5]);
      if shards.Some? && shards.value <= 65536 && limit.Some? && lease.Some? && features.Some? && delayed.Some?
         && terminal.Some?
      then Some(FormatRecord(shards.value, lease.value, delayed.value, terminal.value, limit.value, features.value))
      else None
    else if t == 2 then
      Job(AsId(s[0]), AsUint(s[7]), AsText(s[2]), AsUint(s[8]), AsUint(s[3]), AsDigest(s[4]), AsUint(s[6]),
          AsBlob(s[5]), AsText(s[1]))
    else if t == 3 then
      Claim(AsId(s[1]), AsUint(s[4]), AsUint(s[2]), AsText(s[3]), AsId(s[7]), AsUint(s[8]), AsBool(s[6]),
            AsBasis(s[0]), AsId(s[5]))
    else if t == 4 then
      var id, reason, attempt, generation, retry := AsId(s[0]), AsUint(s[1]), AsUint(s[2]), AsUint(s[3]), AsUint(s[4]);
      if id.Some? && reason.Some? && attempt.Some? && generation.Some? && retry.Some?
      then Some(FailRecord(id.value, generation.value, reason.value, attempt.value, retry.value))
      else None
    else if t == 5 then
      var id, attempt, worker, generation, token, outputs, digest :=
        AsId(s[0]), AsUint(s[1]), AsText(s[2]), AsUint(s[3]), AsId(s[4]), AsDigests(s[5]), AsDigest(s[6]);
      if id.Some? && attempt.Some? && worker.Some? && generation.Some? && token.Some? && digest.Some?
      then Some(ReceiptRecord(id.value, generation.value, attempt.value, worker.value, token.value, digest.value,
                              outputs))
      else None
    else if t == 6 then
      var id, reason, attempt, generation := AsId(s[0]), AsUint(s[1]), AsUint(s[2]), AsUint(s[3]);
      if id.Some? && reason.Some? && attempt.Some? && generation.Some?
      then Some(DeadRecord(id.value, generation.value, attempt.value, reason.value))
      else None
    else if t == 7 then
      var sequence, bucket := AsUint(s[0]), AsUint(s[1]);
      if sequence.Some? && bucket.Some? then Some(WatermarkRecord(bucket.value, sequence.value)) else None
    else
      var qid, detail, reason, source, observed := AsId(s[0]), AsUint(s[1]), AsUint(s[2]), AsText(s[3]), AsUint(s[4]);
      if qid.Some? && reason.Some? && source.Some? && observed.Some?
      then Some(QuarantineRecord(qid.value, source.value, reason.value, observed.value, detail))
      else None
  }

  /** Each table field looked up by name. */
  function Lookups(es: seq<Entry>, fields: seq<Field>): (s: seq<Option<Value>>)
    ensures |s| == |fields|
    ensures forall i :: 0 <= i < |fields| ==> s[i] == Find(es, fields[i].name)
  {
    seq(|fields|, i requires 0 <= i < |fields| => Find(es, fields[i].name))
  }

  /** The reference path from a decoded fields map to a record: only known keys, every field of
      its shape, then the record's own cross-field rules. */
  function FromFields(t: nat, es: seq<Entry>): Option<Record>
    requires 1 <= t <= 8
  {
    if HasKind(Map(es), MapK(Table(t))) then Assemble(t, Lookups(es, Table(t))) else None
  }

  /** The envelope's first items are the ones a record of this type, queue and key carries, and
      the digest is the body's. */
  predicate Bound(sha: Hash, items: seq<Value>, body: seq<byte>, digest: seq<byte>, q: Bytes16, tag: Bytes8)
    requires |items| >= 6
  {
    && items[0].Uint? && items[1].Uint? && items[2].Uint? && items[3].Bytes? && items[4].Bytes? && items[5].Uint?
    && items[0].n == MAGIC && items[1].n == MAJOR && items[2].n == MINOR
    && 1 <= items[5].n <= 8
    && RecordDigest(sha, items[5].n, body) == digest
    && items[3].bytes == q && items[4].bytes == tag
  }

  /** The envelope checks after the body has been decoded, and then the fields. */
  function FromEnvelope(sha: Hash, v: Value, body: seq<byte>, digest: seq<byte>, q: Bytes16,
                        tag: Bytes8): Option<Record> {
    if v.Array? && |v.items| == 7 && v.items[6].Map? && Bound(sha, v.items, body, digest, q, tag)
    then FromFields(v.items[5].n, v.items[6].entries)
    else None
  }

  /** Splits the trailing digest off, when there is one. */
  function SplitSeal(data: seq<byte>): (r: Option<(seq<byte>, seq<byte>)>)
    ensures r.Some? ==> |r.value.1| == 32 && data == r.value.0 + [0x58, 32] + r.value.1
  {
    if |data| < 34 then None
    else
      var n := |data| - 34;
      if data[n] != 0x58 || data[n + 1] != 32 then None
      else
        assert data == data[..n] + [data[n], data[n + 1]] + data[n + 2..];
        Some((data[..n], data[n + 2..]))
  }

  /** The reference decoder: the whole body as one value tree, then the record from it. */
  function ValueDecode(sha: Hash, data: seq<byte>, q: Bytes16, tag: Bytes8): Option<Record> {
    match SplitSeal(data)
    case None => None
    case Some((body, digest)) =>
      match Decode(body)
      case None => None
      case Some(v) => FromEnvelope(sha, v, body, digest, q, tag)
  }

  /** What a record must satisfy to be readable again: the payload is inline or detached but not
      both, a takeover carries its basis and a renewal its predecessor's token, and the shard
      count fits its key field. */
  predicate WellFormed(r: Record) {
    && (r.FormatRecord? ==> r.shardCount <= 65536)
    && (r.JobRecord? ==> r.payloadInline.Some? != r.payloadKey.Some?)
    && (r.ClaimRecord? ==> r.continuation == r.prevToken.Some? == r.basis.None?)
  }
}
