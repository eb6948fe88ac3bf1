/** What one claim probe asks of the store and what the replies show. Every reply is arbitrary; the
    predicates here say what a sequence of exchanges proves about the chain's tail, the gates of a
    claim and the reasons to refuse one. */
module ProbeTrace {
  import opened Wrappers
  import opened Bytes
  import opened Arithmetic
  import opened Backoff
  import opened Keys
  import opened Listing
  import opened TailDiscovery
  import opened Records
  import Resolver

  /** The handle's options and identity. The floor cache holds a floor or is stale, and tokens and
      nonces are drawn in order. */
  datatype Setup = Setup(
    sha: Hash, queueId: Bytes16, tag: Key -> Bytes8, workerId: Utf8, tokens: nat -> Bytes16, nonces: nat -> Bytes16,
    skew: u64, hints: bool, floor: u64, lease: u64, cached: Option<u64>,
    leaseWidth: u64, delayedWidth: u64, terminalWidth: u64)

  datatype Request =
    | HeadOf(key: Key)
    | GetOf(key: Key)
    | ListOf(prefix: Name)
    | Write(key: Key, body: seq<byte>)

  /** What the store does with one call. A listing is answered by a whole store state; a put to a
      contested key meets other writers and faults. */
  datatype Reply =
    | Failed
    | Missing
    | Found(time: u64, body: seq<byte>)
    | Stored(keys: seq<Name>, times: Name -> u64)
    | Contested(held: Option<seq<byte>>, turns: seq<Resolver.Turn>)

  /** One call and its reply, or one resolved write of a record and its outcome, none for an error. */
  datatype Event =
    | Asked(request: Request, reply: Reply)
    | Wrote(key: Key, record: Record, outcome: Option<Resolver.Resolved>)

  datatype Error = BudgetExhausted | Broken
  datatype Result<+T> = Ok(value: T) | Err(error: Error)

  /** A generation at the end of a chain and its store time; generation 0 for no claim. */
  datatype ChainEnd = ChainEnd(generation: u32, time: u64)
  /** What an expiry rests on: the tail with its record's attempt and lease. */
  datatype Evidence = Evidence(tail: ChainEnd, attempt: u64, lease: u64)

  datatype PayloadRef = Inline(body: seq<byte>) | Detached(key: Utf8, digest: Bytes32, length: u64)
  /** What a probe hands out: the claim it committed, its store time and the job's payload. */
  datatype Handle = Handle(claim: Record, time: u64, payload: PayloadRef)

  const U32_MAX: u64 := 0xffff_ffff
  const ATTEMPTS_EXHAUSTED: u64 := 4
  const NO_CLAIM := ChainEnd(0, 0)

  function Saturate(n: nat): u64 {
    Min(n, MAX)
  }

  /** The end of the tail's lease with the skew guard. */
  function ExpiryGuard(s: Setup, e: Evidence): u64 {
    Saturate(Saturate(e.tail.time + e.lease) + s.skew)
  }

  function PayloadOf(job: Record): Option<PayloadRef>
    requires job.JobRecord?
  {
    if job.payloadInline.Some? then Some(Inline(job.payloadInline.value))
    else if job.payloadKey.Some? then Some(Detached(job.payloadKey.value, job.payloadDigest, job.payloadLength))
    else None
  }

  // ---------- The tail ----------

  /** The body holds the claim that the evidence is of. */
  predicate Shows(s: Setup, shard: u16, id: Bytes16, body: seq<byte>, e: Evidence) {
    var found := ValueDecode(s.sha, body, s.queueId, s.tag(Claim(shard, id, e.tail.generation)));
    found.Some? && found.value.ClaimRecord? && found.value.attempt == e.attempt && found.value.leaseDuration == e.lease
  }

  /** The generation's own record was read. */
  ghost predicate ShownBy(s: Setup, shard: u16, id: Bytes16, ev: Event, e: Evidence) {
    && ev.Asked? && ev.request == GetOf(Claim(shard, id, e.tail.generation)) && ev.reply.Found?
    && Shows(s, shard, id, ev.reply.body, e)
  }

  /** A listing of the prefix was answered. */
  ghost predicate Answered(ev: Event, prefix: Name) {
    ev.Asked? && ev.request == ListOf(prefix) && ev.reply.Stored? && Ascending(ev.reply.keys)
  }

  /** The keys of the store states that answered a listing. */
  ghost function KeysOf(heard: seq<Event>): seq<seq<Name>> {
    seq(|heard|, i requires 0 <= i < |heard| =>
      if heard[i].Asked? && heard[i].reply.Stored? then heard[i].reply.keys else [])
  }

  /** The key kept is stored in a state that answered, and the end has its generation and its time
      there; no key, no claim. */
  ghost predicate Kept(heard: seq<Event>, key: Option<Name>, end: ChainEnd) {
    && end.generation == GenerationRead(key)
    && match key
       case None => end == NO_CLAIM
       case Some(k) => exists i :: 0 <= i < |heard| && HoldsAt(heard[i], k, end.time)
  }

  ghost predicate HoldsAt(ev: Event, k: Name, time: u64) {
    ev.Asked? && ev.reply.Stored? && k in ev.reply.keys && time == ev.reply.times(k)
  }

  /** These exchanges are a listing that found this end, as tail discovery finds it. */
  ghost predicate ListsTail(prefix: Name, heard: seq<Event>, end: ChainEnd) {
    && (forall i :: 0 <= i < |heard| ==> Answered(heard[i], prefix))
    && var tail := TailOver(KeysOf(heard), prefix, None, None);
    tail.Some? && Kept(heard, tail.value, end)
  }

  /** They are a listing and, unless it found nothing, the record of the end it found. */
  ghost predicate ListedBy(s: Setup, shard: u16, id: Bytes16, heard: seq<Event>, e: Evidence) {
    if e.tail.generation == 0
    then ListsTail(ClaimsPrefix(shard, id), heard, e.tail) && e.attempt == e.lease == 0
    else && |heard| > 0 && ListsTail(ClaimsPrefix(shard, id), heard[..|heard| - 1], e.tail)
         && ShownBy(s, shard, id, heard[|heard| - 1], e)
  }

  /** They are a hint and the record of the generation it names. */
  ghost predicate HintedBy(s: Setup, shard: u16, id: Bytes16, heard: seq<Event>, e: Evidence) {
    && |heard| == 2 && heard[0].Asked? && heard[0].request == GetOf(Tail(shard, id)) && heard[0].reply.Found?
    && |heard[0].reply.body| == 8 && FromBigEndian(heard[0].reply.body) == e.tail.generation >= 1
    && ShownBy(s, shard, id, heard[1], e) && heard[1].reply.time == e.tail.time
  }

  /** Exchanges from `from` on include a listing that shows this evidence. */
  ghost predicate Listed(s: Setup, shard: u16, id: Bytes16, trace: seq<Event>, from: nat, e: Evidence) {
    exists lo, hi :: from <= lo <= hi <= |trace| && ListedBy(s, shard, id, trace[lo..hi], e)
  }

  /** They show this evidence, by a hint or by a listing. */
  ghost predicate Grounded(s: Setup, shard: u16, id: Bytes16, trace: seq<Event>, from: nat, e: Evidence) {
    || Listed(s, shard, id, trace, from, e)
    || exists lo, hi :: from <= lo <= hi <= |trace| && HintedBy(s, shard, id, trace[lo..hi], e)
  }

  lemma ListedStays(s: Setup, shard: u16, id: Bytes16, trace: seq<Event>, more: seq<Event>, from: nat, e: Evidence)
    requires trace <= more && Listed(s, shard, id, trace, from, e)
    ensures Listed(s, shard, id, more, from, e)
  {
    hide ListedBy;
    var lo, hi :| from <= lo <= hi <= |trace| && ListedBy(s, shard, id, trace[lo..hi], e);
    assert more[lo..hi] == trace[lo..hi];
  }

  lemma ListedSince(s: Setup, shard: u16, id: Bytes16, trace: seq<Event>, from: nat, later: nat, e: Evidence)
    requires from <= later && Listed(s, shard, id, trace, later, e)
    ensures Listed(s, shard, id, trace, from, e)
  {
    hide ListedBy;
  }

  lemma GroundedStays(s: Setup, shard: u16, id: Bytes16, trace: seq<Event>, more: seq<Event>, from: nat, e: Evidence)
    requires trace <= more && Grounded(s, shard, id, trace, from, e)
    ensures Grounded(s, shard, id, more, from, e)
  {
    hide ListedBy, HintedBy, Listed;
    if Listed(s, shard, id, trace, from, e) {
      ListedStays(s, shard, id, trace, more, from, e);
    } else {
      var lo, hi :| from <= lo <= hi <= |trace| && HintedBy(s, shard, id, trace[lo..hi], e);
      assert more[lo..hi] == trace[lo..hi];
    }
  }

  /** One page later: what the page parses last is kept, or what was. */
  lemma KeptOn(heard: seq<Event>, ev: Event, items: seq<Name>, held: ChainEnd, tail: Option<Name>, end: ChainEnd)
    requires Kept(heard, tail, held) && ev.Asked? && ev.reply.Stored? && forall k :: k in items ==> k in ev.reply.keys
    requires match LastParsing(items, None)
             case None => end == held && LastParsing(items, tail) == tail
             case Some(k) =>
               && k in items && LastParsing(items, tail) == Some(k)
               && end == ChainEnd(GenerationRead(Some(k)), ev.reply.times(k))
    ensures Kept(heard + [ev], LastParsing(items, tail), end)
  {
    hide GenerationRead, LastParsing;
    var more := heard + [ev];
    match LastParsing(items, None)
    case None =>
      if tail.Some? {
        var i :| 0 <= i < |heard| && HoldsAt(heard[i], tail.value, held.time);
        assert HoldsAt(more[i], tail.value, held.time);
      }
    case Some(k) => assert HoldsAt(more[|heard|], k, end.time);
  }

  /** A listing followed by the record of the end it found. */
  lemma RecordListed(s: Setup, shard: u16, id: Bytes16, heard: seq<Event>, trace: seq<Event>, from: nat, e: Evidence)
    requires from <= |heard| && ListsTail(ClaimsPrefix(shard, id), heard[from..], e.tail)
    requires e.tail.generation == 0 ==> trace == heard && e.attempt == e.lease == 0
    requires e.tail.generation > 0 ==>
               |trace| == |heard| + 1 && heard == trace[..|heard|] && ShownBy(s, shard, id, trace[|heard|], e)
    ensures Listed(s, shard, id, trace, from, e)
  {
    hide ListsTail, ShownBy;
    if e.tail.generation > 0 {
      assert trace[from..|trace|][..|heard| - from] == heard[from..];
    }
    assert trace[from..|trace|] == trace[from..];
    assert ListedBy(s, shard, id, trace[from..|trace|], e);
  }

  lemma NothingKept()
    ensures Kept([], None, NO_CLAIM)
  {}

  lemma ItemsAreKeys(keys: seq<Name>, prefix: Name, after: Option<Name>, limit: nat)
    ensures forall k :: k in PageOf(keys, prefix, after, limit).items ==> k in keys
  {
    forall k | k in PageOf(keys, prefix, after, limit).items ensures k in keys {
      MatchingHolds(keys, prefix, after, k);
    }
  }

  lemma GenerationFits(k: Name)
    requires Parses(k)
    ensures ParseGeneration(k).value <= U32_MAX
  {
    ParsedDigits(k);
    assert [] + Digits(k) == Digits(k);
    RadixSplits([], Digits(k));
    assert Pow16(4) == 0x1_0000 && Pow16(8) == 0x1_0000_0000;
  }

  /** The generation a tail key stands for, 0 for none. */
  function GenerationRead(tail: Option<Name>): u32 {
    if tail.None? || !Parses(tail.value) then 0
    else
      GenerationFits(tail.value);
      GenerationOf(tail).value
  }

  // ---------- The gates of a claim ----------

  /** The read of this key found this record. */
  ghost predicate Reads(s: Setup, ev: Event, key: Key, r: Record) {
    && ev.Asked? && ev.request == GetOf(key) && ev.reply.Found?
    && ValueDecode(s.sha, ev.reply.body, s.queueId, s.tag(key)) == Some(r)
  }

  /** Neither terminal record was there. */
  ghost predicate Unfinished(shard: u16, id: Bytes16, heard: seq<Event>) {
    |heard| >= 2 && heard[..2] == [Asked(HeadOf(Receipt(shard, id)), Missing), Asked(HeadOf(Dead(shard, id)), Missing)]
  }

  /** The probe's first two exchanges ask for the terminal records, and one of them was there. */
  ghost predicate Finished(shard: u16, id: Bytes16, heard: seq<Event>) {
    && |heard| >= 2 && heard[0].Asked? && heard[1].Asked?
    && heard[0].request == HeadOf(Receipt(shard, id)) && heard[1].request == HeadOf(Dead(shard, id))
    && (heard[0].reply.Found? || heard[1].reply.Found?)
  }

  ghost predicate FailRead(s: Setup, shard: u16, id: Bytes16, heard: seq<Event>, g: u32, fail: Record) {
    fail.FailRecord? && exists ev :: ev in heard && Reads(s, ev, Fail(shard, id, g), fail)
  }

  ghost predicate JobRead(s: Setup, shard: u16, id: Bytes16, heard: seq<Event>, job: Record) {
    job.JobRecord? && exists ev :: ev in heard && Reads(s, ev, Job(shard, id), job)
  }

  /** The generation's fail record is absent, or its deadline is reached. */
  ghost predicate BackoffPassed(s: Setup, shard: u16, id: Bytes16, heard: seq<Event>, g: u32) {
    || Asked(GetOf(Fail(shard, id, g)), Missing) in heard
    || exists fail :: FailRead(s, shard, id, heard, g, fail) && fail.retryNotBefore <= s.floor
  }

  /** The tail's lease is over, and so is its backoff. */
  ghost predicate Rested(s: Setup, shard: u16, id: Bytes16, heard: seq<Event>, e: Evidence) {
    e.tail.generation > 0 ==>
      s.floor >= ExpiryGuard(s, e) && BackoffPassed(s, shard, id, heard, e.tail.generation)
  }

  predicate Ready(s: Setup, job: Record)
    requires job.JobRecord?
  {
    job.notBefore.None? || job.notBefore.value <= s.floor
  }

  /** Every gate but the attempts is passed. */
  ghost predicate Passes(s: Setup, shard: u16, id: Bytes16, heard: seq<Event>, e: Evidence, job: Record) {
    Rested(s, shard, id, heard, e) && JobRead(s, shard, id, heard, job) && Ready(s, job)
  }

  /** A takeover of what `e` shows. */
  predicate TakesOver(s: Setup, id: Bytes16, e: Evidence, r: Record) {
    && r.ClaimRecord? && r.jobId == id && r.workerId == s.workerId && r.leaseDuration == s.lease
    && (r.workerToken == s.tokens(0) || r.workerToken == s.tokens(1))
    && r.generation == e.tail.generation + 1 && r.attempt == e.attempt + 1
    && !r.continuation && r.prevToken.None?
    && r.basis == Some(Basis(e.tail.time, e.lease, s.floor))
  }

  /** The one record a probe may commit on `e`: a takeover within the job's attempts, or the dead
      record of a job whose attempts are used up. */
  ghost predicate Warranted(s: Setup, shard: u16, id: Bytes16, heard: seq<Event>, e: Evidence, job: Record, key: Key,
                            r: Record) {
    && Passes(s, shard, id, heard, e, job)
    && if e.attempt < job.maximumAttempts
       then && e.tail.generation < U32_MAX && key == Claim(shard, id, e.tail.generation + 1) && TakesOver(s, id, e, r)
       else && key == Dead(shard, id) && r == DeadRecord(id, e.tail.generation, e.attempt, ATTEMPTS_EXHAUSTED)
  }

  /** The handle of a takeover: read back, with the job's payload. */
  ghost predicate Granted(s: Setup, shard: u16, id: Bytes16, heard: seq<Event>, e: Evidence, job: Record, h: Handle) {
    && e.tail.generation < U32_MAX
    && Warranted(s, shard, id, heard, e, job, Claim(shard, id, e.tail.generation + 1), h.claim)
    && PayloadOf(job) == Some(h.payload)
    && exists ev :: ev in heard && ReadBack(shard, id, ev, e.tail.generation + 1, h.time)
  }

  ghost predicate ReadBack(shard: u16, id: Bytes16, ev: Event, g: u32, time: u64) {
    ev.Asked? && ev.request == HeadOf(Claim(shard, id, g)) && ev.reply.Found? && ev.reply.time == time
  }

  // ---------- Floors ----------

  /** A read of this key gave this body, none for a missing key. */
  ghost predicate Answers(ev: Event, key: Key, body: Option<seq<byte>>) {
    && ev.Asked? && ev.request == GetOf(key)
    && match body
       case None => ev.reply.Missing?
       case Some(b) => ev.reply.Found? && ev.reply.body == b
  }

  /** A beacon of this handle was stored and read back with this time. */
  ghost predicate BeaconRead(s: Setup, put: Event, head: Event, time: u64) {
    && put.Asked? && put.request.Write? && put.request.key.Beacon? && put.reply.Found?
    && head.Asked? && head.request == HeadOf(put.request.key) && head.reply.Found? && head.reply.time == time
  }

  /** The floor of a beacon's time and a watermark body: the greater of the two, at most the skew guard
      above the beacon. */
  ghost predicate FloorFrom(s: Setup, raw: u64, body: Option<seq<byte>>, floor: u64) {
    match body
    case None => floor == raw > 0
    case Some(b) =>
      && var w := ValueDecode(s.sha, b, s.queueId, s.tag(Watermark));
      && w.Some? && w.value.WatermarkRecord?
      && var mark := w.value.highestBucket * s.delayedWidth;
      0 < raw <= floor <= raw + s.skew && mark <= floor && (floor == raw || floor == mark)
  }

  /** The exchanges are a beacon stored and read back and, last, a read of the watermark that give
      this floor. */
  ghost predicate FloorShown(s: Setup, heard: seq<Event>, floor: u64) {
    exists i, raw, body ::
      && 0 < i < |heard| - 1 && BeaconRead(s, heard[i - 1], heard[i], raw)
      && Answers(heard[|heard| - 1], Watermark, body) && FloorFrom(s, raw, body, floor)
  }

  /** The payload of a well-formed job: its inline bytes, or its key with the job's digest and length. */
  lemma PayloadExactly(job: Record)
    requires job.JobRecord? && WellFormed(job)
    ensures match PayloadOf(job)
            case Some(Inline(body)) => job.payloadInline == Some(body) && job.payloadKey.None?
            case Some(Detached(key, digest, length)) =>
              && job.payloadKey == Some(key) && job.payloadInline.None?
              && digest == job.payloadDigest && length == job.payloadLength
            case None => false
  {}

  /** A claim granted over a predecessor comes at a floor past the end of that lease and the skew
      guard, or at the greatest store time there is; within the job's attempts and not before its
      time. */
  lemma GrantedIsLate(s: Setup, shard: u16, id: Bytes16, heard: seq<Event>, e: Evidence, job: Record, h: Handle)
    requires Granted(s, shard, id, heard, e, job, h)
    ensures e.tail.generation > 0 ==> e.tail.time + e.lease + s.skew <= s.floor || s.floor == U64 - 1
    ensures job.JobRecord? && h.claim.ClaimRecord? && h.claim.attempt <= job.maximumAttempts
    ensures job.notBefore.Some? ==> job.notBefore.value <= s.floor
  {}

  /** The last exchange writes the index entry of the dead record, in the bucket of the cached floor or
      of the one the exchanges before it show. */
  ghost predicate TermIndexed(s: Setup, shard: u16, id: Bytes16, heard: seq<Event>, floor: u64) {
    && var bucket := BucketNumber(floor, s.terminalWidth);
    && bucket.Some? && |heard| > 0 && heard[|heard| - 1].Asked?
    && heard[|heard| - 1].request == Write(TermIndex(bucket.value, TermDead, shard, id), [])
    && (s.cached == Some(floor) || FloorShown(s, heard[..|heard| - 1], floor))
  }

  // ---------- Reasons to end without a claim ----------

  ghost predicate Outcome(ev: Event, key: Key, r: Record, o: Resolver.Resolved) {
    ev == Wrote(key, r, Some(o))
  }

  /** The attempts are used up and the dead record was written or lost to another. */
  ghost predicate Exhausted(s: Setup, shard: u16, id: Bytes16, heard: seq<Event>, e: Evidence, job: Record) {
    && Passes(s, shard, id, heard, e, job) && e.attempt >= job.maximumAttempts
    && exists o, ev :: ev in heard
         && Outcome(ev, Dead(shard, id), DeadRecord(id, e.tail.generation, e.attempt, ATTEMPTS_EXHAUSTED), o)
  }

  /** Another writer holds the generation. */
  ghost predicate Overtaken(s: Setup, shard: u16, id: Bytes16, heard: seq<Event>, e: Evidence) {
    && e.tail.generation < U32_MAX
    && exists r, ev :: ev in heard && TakesOver(s, id, e, r)
                       && Outcome(ev, Claim(shard, id, e.tail.generation + 1), r, Resolver.Lost)
  }

  /** A gate is closed: the lease, the backoff, the job record gone or not ready. */
  ghost predicate Declined(s: Setup, shard: u16, id: Bytes16, heard: seq<Event>, e: Evidence) {
    || (e.tail.generation > 0 && s.floor < ExpiryGuard(s, e))
    || (exists fail :: FailRead(s, shard, id, heard, e.tail.generation, fail) && s.floor < fail.retryNotBefore)
    || Asked(GetOf(Job(shard, id)), Missing) in heard
    || (exists job :: JobRead(s, shard, id, heard, job) && !Ready(s, job))
  }

  /** Why a pass on this evidence ends with no claim. */
  ghost predicate Refused(s: Setup, shard: u16, id: Bytes16, heard: seq<Event>, e: Evidence) {
    || Declined(s, shard, id, heard, e)
    || (exists job :: Exhausted(s, shard, id, heard, e, job))
    || Overtaken(s, shard, id, heard, e)
  }

  /** A reply that is no answer to its call. */
  ghost predicate Unanswered(ev: Event) {
    && ev.Asked?
    && match ev.request
       case HeadOf(_) => !ev.reply.Missing? && !ev.reply.Found?
       case GetOf(_) => !ev.reply.Missing? && !ev.reply.Found?
       case ListOf(_) => !ev.reply.Stored?
       case Write(_, _) => false
  }

  /** An exchange that breaks a probe: no answer, a failed write, a listed or committed claim that is
      gone, or a body that does not decode to its key's kind of record. */
  ghost predicate Trouble(s: Setup, ev: Event) {
    || Unanswered(ev)
    || (ev.Wrote? && ev.outcome.None?)
    || (ev.Asked? && ev.reply.Missing? && (ev.request.HeadOf? || ev.request.GetOf?) && ev.request.key.Claim?)
    || (ev.Asked? && ev.reply.Found? && ev.request.GetOf?
        && var r := ValueDecode(s.sha, ev.reply.body, s.queueId, s.tag(ev.request.key));
        && (ev.request.key.Claim? ==> r.None? || !r.value.ClaimRecord?)
        && (ev.request.key.Fail? ==> r.None? || !r.value.FailRecord?)
        && (ev.request.key.Job? ==> r.None? || !r.value.JobRecord?)
        && (ev.request.key.Claim? || ev.request.key.Fail? || ev.request.key.Job?))
  }

  ghost predicate Troubled(s: Setup, heard: seq<Event>) {
    exists ev :: ev in heard && Trouble(s, ev)
  }

  lemma UnansweredTroubles(s: Setup, heard: seq<Event>)
    requires exists ev :: ev in heard && Unanswered(ev)
    ensures Troubled(s, heard)
  {
    var ev :| ev in heard && Unanswered(ev);
    assert Trouble(s, ev);
  }

  /** Why a probe breaks: a troubled exchange, a full generation space, or a job without payload. */
  ghost predicate Stuck(s: Setup, shard: u16, id: Bytes16, heard: seq<Event>, e: Evidence, job: Record) {
    || Troubled(s, heard)
    || e.tail.generation == U32_MAX
    || (JobRead(s, shard, id, heard, job) && PayloadOf(job).None?)
  }

  // ---------- More exchanges show no less ----------

  ghost predicate Includes(more: seq<Event>, heard: seq<Event>) {
    forall ev :: ev in heard ==> ev in more
  }

  lemma SuffixIncludes(trace: seq<Event>, from: nat, later: nat)
    requires from <= later <= |trace|
    ensures Includes(trace[from..], trace[later..])
  {
    SliceIncludes(trace, trace, from, later, |trace|);
    assert trace[from..|trace|] == trace[from..];
  }

  lemma SliceIncludes(trace: seq<Event>, more: seq<Event>, from: nat, later: nat, end: nat)
    requires trace <= more && from <= later <= |trace| <= end <= |more|
    ensures Includes(more[from..end], trace[later..])
  {
    forall ev | ev in trace[later..] ensures ev in more[from..end] {
      var i :| later <= i < |trace| && trace[i] == ev;
      assert more[from..end][i - from] == ev;
    }
  }

  lemma BackoffStays(s: Setup, shard: u16, id: Bytes16, heard: seq<Event>, more: seq<Event>, g: u32)
    requires Includes(more, heard) && BackoffPassed(s, shard, id, heard, g)
    ensures BackoffPassed(s, shard, id, more, g)
  {
    hide Reads;
    if Asked(GetOf(Fail(shard, id, g)), Missing) !in heard {
      var fail :| FailRead(s, shard, id, heard, g, fail) && fail.retryNotBefore <= s.floor;
      assert FailRead(s, shard, id, more, g, fail);
    }
  }

  lemma PassesStays(s: Setup, shard: u16, id: Bytes16, heard: seq<Event>, more: seq<Event>, e: Evidence, job: Record)
    requires Includes(more, heard) && Passes(s, shard, id, heard, e, job)
    ensures Passes(s, shard, id, more, e, job)
  {
    hide Reads, BackoffPassed;
    if e.tail.generation > 0 {
      BackoffStays(s, shard, id, heard, more, e.tail.generation);
    }
  }

  lemma GrantedStays(s: Setup, shard: u16, id: Bytes16, heard: seq<Event>, more: seq<Event>, e: Evidence, job: Record,
                     h: Handle)
    requires Includes(more, heard) && Granted(s, shard, id, heard, e, job, h)
    ensures Granted(s, shard, id, more, e, job, h)
  {
    hide Passes;
    PassesStays(s, shard, id, heard, more, e, job);
  }

  lemma WarrantedStays(s: Setup, shard: u16, id: Bytes16, heard: seq<Event>, more: seq<Event>, e: Evidence, job: Record,
                       key: Key, r: Record)
    requires Includes(more, heard) && Warranted(s, shard, id, heard, e, job, key, r)
    ensures Warranted(s, shard, id, more, e, job, key, r)
  {
    hide Passes;
    PassesStays(s, shard, id, heard, more, e, job);
  }

  lemma DeclinedStays(s: Setup, shard: u16, id: Bytes16, heard: seq<Event>, more: seq<Event>, e: Evidence)
    requires Includes(more, heard) && Declined(s, shard, id, heard, e)
    ensures Declined(s, shard, id, more, e)
  {
    hide Reads;
    if fail :| FailRead(s, shard, id, heard, e.tail.generation, fail) && s.floor < fail.retryNotBefore {
      assert FailRead(s, shard, id, more, e.tail.generation, fail);
    } else if job :| JobRead(s, shard, id, heard, job) && !Ready(s, job) {
      assert JobRead(s, shard, id, more, job);
    }
  }

  lemma RefusedStays(s: Setup, shard: u16, id: Bytes16, heard: seq<Event>, more: seq<Event>, e: Evidence)
    requires Includes(more, heard) && Refused(s, shard, id, heard, e)
    ensures Refused(s, shard, id, more, e)
  {
    hide Declined, Passes, TakesOver, Outcome;
    if Declined(s, shard, id, heard, e) {
      DeclinedStays(s, shard, id, heard, more, e);
    } else if job :| Exhausted(s, shard, id, heard, e, job) {
      PassesStays(s, shard, id, heard, more, e, job);
      assert Exhausted(s, shard, id, more, e, job);
    }
  }

  lemma StuckStays(s: Setup, shard: u16, id: Bytes16, heard: seq<Event>, more: seq<Event>, e: Evidence, job: Record)
    requires Includes(more, heard) && Stuck(s, shard, id, heard, e, job)
    ensures Stuck(s, shard, id, more, e, job)
  {
    hide Reads, Trouble;
  }

  lemma TroubledBy(s: Setup, trace: seq<Event>, from: nat, i: nat)
    requires from <= i < |trace| && Trouble(s, trace[i])
    ensures Troubled(s, trace[from..])
  {
    assert trace[from..][i - from] == trace[i];
  }

  /** A resolved write of the dead record warrants itself and the refusal. */
  lemma ExhaustedBy(s: Setup, shard: u16, id: Bytes16, before: seq<Event>, trace: seq<Event>, from: nat, e: Evidence,
                    job: Record, o: Resolver.Resolved)
    requires before < trace && from <= |before| && Passes(s, shard, id, before[from..], e, job)
    requires e.attempt >= job.maximumAttempts
    requires trace[|before|]
          == Wrote(Dead(shard, id), DeadRecord(id, e.tail.generation, e.attempt, ATTEMPTS_EXHAUSTED), Some(o))
    ensures var dead := DeadRecord(id, e.tail.generation, e.attempt, ATTEMPTS_EXHAUSTED);
            Warranted(s, shard, id, trace[from..], e, job, Dead(shard, id), dead)
    ensures Refused(s, shard, id, trace[from..], e)
  {
    hide Passes;
    var ev := trace[|before|];
    assert ev == trace[from..][|before| - from];
    var dead := DeadRecord(id, e.tail.generation, e.attempt, ATTEMPTS_EXHAUSTED);
    assert Outcome(ev, Dead(shard, id), dead, o);
    SliceIncludes(before, trace, from, from, |trace|);
    assert trace[from..|trace|] == trace[from..];
    PassesStays(s, shard, id, before[from..], trace[from..], e, job);
    assert Exhausted(s, shard, id, trace[from..], e, job);
  }

  lemma LostClaimTroubles(s: Setup, shard: u16, id: Bytes16, g: u32, trace: seq<Event>, i: nat)
    requires i < |trace| && trace[i].Asked? && trace[i].request == HeadOf(Claim(shard, id, g)) && !trace[i].reply.Found?
    ensures Troubled(s, trace[i..])
  {
    TroubledBy(s, trace, i, i);
  }

  lemma JobIsRead(s: Setup, shard: u16, id: Bytes16, heard: seq<Event>, job: Record)
    requires JobRead(s, shard, id, heard, job)
    ensures job.JobRecord?
  {}

  lemma StuckAtTheEnd(s: Setup, shard: u16, id: Bytes16, heard: seq<Event>, e: Evidence, job: Record)
    requires e.tail.generation == U32_MAX
    ensures Stuck(s, shard, id, heard, e, job)
  {}

  lemma StuckAfterRead(s: Setup, shard: u16, id: Bytes16, heard: seq<Event>, more: seq<Event>, e: Evidence, job: Record)
    requires Includes(more, heard) && JobRead(s, shard, id, heard, job)
    requires Troubled(s, more) || PayloadOf(job).None?
    ensures Stuck(s, shard, id, more, e, job)
  {
    hide Reads, Trouble;
  }

  lemma TroubledStays(s: Setup, heard: seq<Event>, more: seq<Event>)
    requires Includes(more, heard)
    ensures Troubled(s, heard) ==> Troubled(s, more)
  {
    hide Trouble;
  }

  lemma StuckByTrouble(s: Setup, shard: u16, id: Bytes16, heard: seq<Event>, more: seq<Event>, e: Evidence, job: Record)
    requires Includes(more, heard)
    ensures Troubled(s, heard) ==> Stuck(s, shard, id, more, e, job)
  {
    hide Trouble;
  }

  /** Everything said of a part holds of the whole. */
  lemma Lift(s: Setup, shard: u16, id: Bytes16, heard: seq<Event>, more: seq<Event>, e: Evidence, job: Record)
    requires Includes(more, heard)
    ensures forall h :: Granted(s, shard, id, heard, e, job, h) ==> Granted(s, shard, id, more, e, job, h)
    ensures forall key, r ::
              Warranted(s, shard, id, heard, e, job, key, r) ==> Warranted(s, shard, id, more, e, job, key, r)
    ensures Refused(s, shard, id, heard, e) ==> Refused(s, shard, id, more, e)
    ensures Declined(s, shard, id, heard, e) ==> Declined(s, shard, id, more, e)
    ensures Stuck(s, shard, id, heard, e, job) ==> Stuck(s, shard, id, more, e, job)
  {
    hide Granted, Warranted, Refused, Declined, Stuck;
    forall h | Granted(s, shard, id, heard, e, job, h) ensures Granted(s, shard, id, more, e, job, h) {
      GrantedStays(s, shard, id, heard, more, e, job, h);
    }
    forall key, r | Warranted(s, shard, id, heard, e, job, key, r)
      ensures Warranted(s, shard, id, more, e, job, key, r)
    {
      WarrantedStays(s, shard, id, heard, more, e, job, key, r);
    }
    if Refused(s, shard, id, heard, e) {
      RefusedStays(s, shard, id, heard, more, e);
    }
    if Declined(s, shard, id, heard, e) {
      DeclinedStays(s, shard, id, heard, more, e);
    }
    if Stuck(s, shard, id, heard, e, job) {
      StuckStays(s, shard, id, heard, more, e, job);
    }
  }

  /** The probe's first two exchanges stay its first. */
  lemma GatherLasts(shard: u16, id: Bytes16, heard: seq<Event>, trace: seq<Event>, from: nat)
    requires heard <= trace && from <= |heard|
    ensures Unfinished(shard, id, heard[from..]) ==> Unfinished(shard, id, trace[from..])
    ensures Unfinished(shard, id, trace[from..]) ==> !Finished(shard, id, trace[from..])
  {
    if |heard[from..]| >= 2 {
      assert trace[from..][..2] == heard[from..][..2];
    }
    if Unfinished(shard, id, trace[from..]) {
      assert trace[from..][0] == trace[from..][..2][0] && trace[from..][1] == trace[from..][..2][1];
    }
  }
}
