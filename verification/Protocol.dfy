/** The claim, renew and terminal protocol as a state machine over one object store.

    Workers are programs: `Pending` says which store call a program counter may issue and
    `Resume` is the code between two calls. The store answers any pending call of any worker at
    any time, under the three fault kinds of the injector. A worker may stop at any point
    (crash, exhausted budget, dropped future), and the advisory tail hints may change to
    anything at any time. No object is deleted in this module. */
module Protocol {
  import opened Wrappers

  const U64_MAX: nat := 0xFFFF_FFFF_FFFF_FFFF
  const U32_MAX: nat := 0xFFFF_FFFF
  const PAGE_LIMIT: nat := 64
  const ATTEMPTS_EXHAUSTED: nat := 4

  type JobId = nat
  type Token = nat
  type Digest = nat
  type Body = nat
  type Pid = nat

  function Saturate(n: nat): nat {
    if n <= U64_MAX then n else U64_MAX
  }

  /** `skew` is the profile's skew guard, `hints` feature bit 2, `width` the delayed bucket width
      and `sha` the digest of an output body. */
  datatype Config = Config(skew: nat, hints: bool, width: nat, sha: Body -> Digest)

  // ---------- Records and objects ----------

  datatype Basis = Basis(prevTime: nat, prevDuration: nat, floor: nat)

  datatype ClaimRecord = ClaimRecord(
    job: JobId, generation: nat, attempt: nat, workerId: nat, token: Token, lease: nat,
    continuation: bool, basis: Option<Basis>, prevToken: Option<Token>)

  datatype Record =
    | Job(job: JobId, maximumAttempts: nat, notBefore: Option<nat>, payload: Digest)
    | Claim(claim: ClaimRecord)
    | Fail(job: JobId, generation: nat, attempt: nat, reason: nat, retryNotBefore: nat)
    | Receipt(job: JobId, generation: nat, attempt: nat, workerId: nat, token: Token,
              payload: Digest, outputs: seq<Digest>)
    | Dead(job: JobId, generation: nat, attempt: nat, reason: nat)
    | Output(body: Body)
    | Hint(hinted: Option<nat>)  // None: the body is not eight bytes wide
    | Beacon

  datatype Key =
    | JobKey(job: JobId)
    | ClaimKey(job: JobId, generation: nat)
    | FailKey(job: JobId, generation: nat)
    | ReceiptKey(job: JobId)
    | DeadKey(job: JobId)
    | OutputKey(job: JobId, name: nat)
    | TailKey(job: JobId)
    | BeaconKey(nonce: nat)

  datatype Object = Object(record: Record, time: nat)

  type Store = map<Key, Object>

  // ---------- Store calls ----------

  datatype Call =
    | Head(key: Key)
    | Get(key: Key)
    | PutIfAbsent(key: Key, record: Record)
    | ListClaims(job: JobId, after: nat)
    | ReadWatermark

  datatype Reply =
    | NotFound
    | Meta(time: nat)
    | Found(item: Object)
    | Committed
    | Rejected
    | Page(generations: seq<nat>, times: seq<nat>, more: bool)
    | Watermark(bucket: Option<nat>)
    | Transport
    | Unknown

  /** One page of the listing of a job's claims: the first `PAGE_LIMIT` generations above
      `after`, in order, with their store times. */
  ghost predicate IsPage(store: Store, job: JobId, after: nat, page: Reply) {
    && page.Page?
    && |page.generations| == |page.times| <= PAGE_LIMIT
    && (forall i :: 0 <= i < |page.generations| ==>
          && page.generations[i] > after
          && ClaimKey(job, page.generations[i]) in store
          && store[ClaimKey(job, page.generations[i])].time == page.times[i])
    && (forall i, k :: 0 <= i < k < |page.generations| ==> page.generations[i] < page.generations[k])
    && (forall g :: g > after && ClaimKey(job, g) in store ==>
          g in page.generations
          || (page.more && |page.generations| > 0 && g > page.generations[|page.generations| - 1]))
    && (page.more ==> |page.generations| == PAGE_LIMIT)
  }

  /** What a store that applies `call` may answer. A watermark read may answer anything. */
  ghost predicate Answers(store: Store, call: Call, reply: Reply) {
    match call
    case Head(k) => reply == if k in store then Meta(store[k].time) else NotFound
    case Get(k) => reply == if k in store then Found(store[k]) else NotFound
    case PutIfAbsent(k, _) => reply == if k in store then Rejected else Committed
    case ListClaims(j, after) => IsPage(store, j, after, reply)
    case ReadWatermark => reply.Watermark?
  }

  function Applied(store: Store, call: Call, time: nat): Store {
    match call
    case PutIfAbsent(k, r) => if k in store then store else store[k := Object(r, time)]
    case _ => store
  }

  function Delivered(fault: Fault, reply: Reply): Reply {
    match fault
    case Pass => reply
    case PreTransmit => Transport
    case _ => Unknown
  }

  // ---------- Workers ----------

  /** Custody of one job at one generation, as returned by a claim or a renewal. */
  datatype Handle = Handle(job: JobId, generation: nat, attempt: nat, token: Token, lease: nat,
                           time: nat, payload: Digest)

  datatype CommittedOutput = CommittedOutput(job: JobId, name: nat, digest: Digest)

  /** The tail a claim decides on. `seen` is the store clock at which it was observed. */
  datatype Evidence = Evidence(generation: nat, time: nat, attempt: nat, lease: nat, seen: nat)

  datatype Probe = Absent | Present | Failed

  /** Tail discovery: the hint, the hinted generation, or the pages of the listing. */
  datatype Tail =
    | ReadHint
    | ReadHinted(generation: nat)
    | Listing(after: nat, found: nat, time: nat)
    | Listed(generation: nat, time: nat, seen: nat)
    | Hinted(generation: nat, time: nat, seen: nat, record: ClaimRecord)
    | TailError

  /** `guard` is the step at which the receipt probe answered. */
  datatype Scan = Scan(job: JobId, floor: nat, lease: nat, guard: nat)

  datatype Purpose =
    | ForEnqueue
    | ForClaim(scan: Scan, hintUsed: bool, payload: Digest)
    | ForRenewal(handle: Handle)
    | ForExhaustion(seen: nat)
    | ForReceipt(handle: Handle, outputs: seq<CommittedOutput>)
    | ForFail
    | ForBurial(handle: Handle)

  /** The outcome-unknown resolver: put, head, read. */
  datatype Stage = Putting | Heading | Reading

  datatype Pc =
    | Idle
    | EnqueueCompare(key: Key, record: Record)
    | FloorPut
    | FloorHead(nonce: nat)
    | FloorGate(raw: nat)
    | Gather(scan: Scan, receipt: Option<Probe>, dead: Option<Probe>, tail: Tail)
    | TailRecord(scan: Scan, generation: nat, time: nat, seen: nat)
    | ReadFail(scan: Scan, evidence: Evidence, hintUsed: bool)
    | ReadJob(scan: Scan, evidence: Evidence, hintUsed: bool)
    | Relist(scan: Scan, tail: Tail)
    | RenewReceipt(handle: Handle)
    | RenewDead(handle: Handle)
    | CommitPut(handle: Handle, name: nat, body: Body)
    | CommitRead(handle: Handle, name: nat, body: Body)
    | AckDead(handle: Handle, outputs: seq<CommittedOutput>)
    | AckOutput(handle: Handle, outputs: seq<CommittedOutput>, verified: nat, guard: nat)
    | AckCompare(handle: Handle, outputs: seq<CommittedOutput>)
    | AckEquivalent(handle: Handle, outputs: seq<CommittedOutput>)
    | BuryReceipt(handle: Handle, reason: nat)
    | BuryCompare(handle: Handle)
    | Put(key: Key, record: Record, purpose: Purpose, guard: nat, stage: Stage)
    | ReadBack(claim: ClaimRecord, payload: Digest)

  datatype Worker = Worker(id: nat, floors: set<nat>, handles: set<Handle>, pc: Pc)

  datatype Delivery = Delivery(job: JobId, outputs: seq<Digest>)

  datatype Stamp = Stamp(guard: nat, put: nat, seen: nat)

  /** `owner` maps each worker token to the worker that drew it. `now`, `stamps` and `delivered`
      are history: the step count, when each terminal record was guarded and written, and every
      delivery reported. */
  datatype State = State(
    store: Store, clock: nat, owner: map<Token, Pid>, workers: map<Pid, Worker>,
    now: nat, stamps: map<Key, Stamp>, delivered: set<Delivery>)

  function Digests(outputs: seq<CommittedOutput>): (r: seq<Digest>)
  {
    seq(|outputs|, i requires 0 <= i < |outputs| => outputs[i].digest)
  }

  // ---------- The code between two store calls ----------

  /** The calls a program counter may issue next; a gathering claim has up to three in flight. */
  predicate Pending(pc: Pc, call: Call) {
    match pc
    case Idle => false
    case EnqueueCompare(k, _) => call == Get(k)
    case FloorPut => call.PutIfAbsent? && call.key.BeaconKey? && call.record == Beacon
    case FloorHead(n) => call == Head(BeaconKey(n))
    case FloorGate(_) => call == ReadWatermark
    case Gather(s, r, d, t) =>
      || (r.None? && call == Head(ReceiptKey(s.job)))
      || (d.None? && call == Head(DeadKey(s.job)))
      || TailPending(s.job, t, call)
    case TailRecord(s, g, _, _) => call == Get(ClaimKey(s.job, g))
    case ReadFail(s, e, _) => call == Get(FailKey(s.job, e.generation))
    case ReadJob(s, _, _) => call == Get(JobKey(s.job))
    case Relist(s, t) => TailPending(s.job, t, call)
    case RenewReceipt(h) => call == Head(ReceiptKey(h.job))
    case RenewDead(h) => call == Head(DeadKey(h.job))
    case CommitPut(h, n, b) => call == PutIfAbsent(OutputKey(h.job, n), Output(b))
    case CommitRead(h, n, _) => call == Get(OutputKey(h.job, n))
    case AckDead(h, _) => call == Head(DeadKey(h.job))
    case AckOutput(h, o, i, _) => i < |o| && call == Get(OutputKey(o[i].job, o[i].name))
    case AckCompare(h, _) => call == Get(ReceiptKey(h.job))
    case AckEquivalent(h, _) => call == Get(ReceiptKey(h.job))
    case BuryReceipt(h, _) => call == Head(ReceiptKey(h.job))
    case BuryCompare(h) => call == Get(DeadKey(h.job))
    case Put(k, r, _, _, stage) =>
      (match stage
       case Putting => call == PutIfAbsent(k, r)
       case Heading => call == Head(k)
       case Reading => call == Get(k))
    case ReadBack(c, _) => call == Head(ClaimKey(c.job, c.generation))
  }

  predicate TailPending(job: JobId, t: Tail, call: Call) {
    match t
    case ReadHint => call == Get(TailKey(job))
    case ReadHinted(g) => call == Get(ClaimKey(job, g))
    case Listing(after, _, _) => call == ListClaims(job, after)
    case _ => false
  }

  const FROM_START := Listing(0, 0, 0)

  /** A hint is followed only when it is eight bytes wide and names a u32 generation. */
  function AfterHint(reply: Reply): Tail {
    match reply
    case Found(o) =>
      if o.record.Hint? && o.record.hinted.Some? && 1 <= o.record.hinted.value <= U32_MAX
      then ReadHinted(o.record.hinted.value)
      else FROM_START
    case NotFound => FROM_START
    case _ => TailError
  }

  function AfterHinted(g: nat, reply: Reply, clock: nat): Tail {
    match reply
    case Found(o) =>
      if o.record.Claim? then Hinted(g, o.time, clock, o.record.claim) else FROM_START
    case NotFound => FROM_START
    case _ => TailError
  }

  function AfterPage(t: Tail, reply: Reply, clock: nat): Tail
    requires t.Listing?
  {
    match reply
    case Page(gens, times, more) =>
      var n := |gens|;
      var found := if n > 0 && |times| == n then gens[n - 1] else t.found;
      var time := if n > 0 && |times| == n then times[n - 1] else t.time;
      if more then Listing(found, found, time) else Listed(found, time, clock)
    case _ => TailError
  }

  function AfterTail(t: Tail, reply: Reply, clock: nat): Tail {
    match t
    case ReadHint => AfterHint(reply)
    case ReadHinted(g) => AfterHinted(g, reply, clock)
    case Listing(_, _, _) => AfterPage(t, reply, clock)
    case _ => t
  }

  function ProbeOf(reply: Reply): Probe {
    match reply
    case NotFound => Absent
    case Meta(_) => Present
    case _ => Failed
  }

  /** Leaves the gather once its three branches have answered. */
  function Gathered(pc: Pc): Pc
    requires pc.Gather?
  {
    if pc.receipt.None? || pc.dead.None? || pc.tail.ReadHint? || pc.tail.ReadHinted? || pc.tail.Listing?
    then pc
    else if pc.receipt != Some(Absent) || pc.dead != Some(Absent) then Idle
    else match pc.tail
      case Listed(g, t, seen) => FromListing(pc.scan, g, t, seen)
      case Hinted(g, t, seen, c) => Decide(pc.scan, Evidence(g, t, c.attempt, c.lease, seen), true)
      case _ => Idle
  }

  function FromListing(scan: Scan, g: nat, time: nat, seen: nat): Pc {
    if g == 0 then ReadJob(scan, Evidence(0, 0, 0, 0, seen), false) else TailRecord(scan, g, time, seen)
  }

  /** The head of the decision loop: generation 0 has no fail record to consult. */
  function Decide(scan: Scan, e: Evidence, hintUsed: bool): Pc {
    if e.generation == 0 then ReadJob(scan, e, hintUsed) else ReadFail(scan, e, hintUsed)
  }

  predicate Expired(cfg: Config, floor: nat, e: Evidence) {
    e.generation == 0 || floor >= Saturate(Saturate(e.time + e.lease) + cfg.skew)
  }

  function AfterFail(cfg: Config, pc: Pc, reply: Reply): Pc
    requires pc.ReadFail?
  {
    match reply
    case Found(o) =>
      if !o.record.Fail? || pc.scan.floor < o.record.retryNotBefore || !Expired(cfg, pc.scan.floor, pc.evidence)
      then Idle
      else ReadJob(pc.scan, pc.evidence, pc.hintUsed)
    case NotFound =>
      if !Expired(cfg, pc.scan.floor, pc.evidence) then Idle
      else ReadJob(pc.scan, pc.evidence, pc.hintUsed)
    case _ => Idle
  }

  function TakeoverRecord(id: nat, scan: Scan, e: Evidence, token: Token): ClaimRecord {
    ClaimRecord(scan.job, e.generation + 1, e.attempt + 1, id, token, scan.lease, false,
                Some(Basis(e.time, e.lease, scan.floor)), None)
  }

  function AfterJob(id: nat, pc: Pc, reply: Reply, token: Token): Pc
    requires pc.ReadJob?
  {
    var s, e := pc.scan, pc.evidence;
    match reply
    case Found(o) =>
      if !o.record.Job? then Idle
      else if o.record.notBefore.Some? && s.floor < o.record.notBefore.value then Idle
      else if e.attempt + 1 > o.record.maximumAttempts then
        if pc.hintUsed then Relist(s, FROM_START)
        else Put(DeadKey(s.job), Dead(s.job, e.generation, e.attempt, ATTEMPTS_EXHAUSTED),
                 ForExhaustion(e.seen), s.guard, Putting)
      else if e.generation >= U32_MAX then Idle
      else Put(ClaimKey(s.job, e.generation + 1), Claim(TakeoverRecord(id, s, e, token)),
               ForClaim(s, pc.hintUsed, o.record.payload), s.guard, Putting)
    case _ => Idle
  }

  function RenewalRecord(id: nat, h: Handle): ClaimRecord {
    ClaimRecord(h.job, h.generation + 1, h.attempt, id, h.token, h.lease, true, None, Some(h.token))
  }

  /** Moves on to the next output to verify, or to the receipt once all are. */
  function NextOutput(id: nat, h: Handle, outputs: seq<CommittedOutput>, i: nat, guard: nat): Pc {
    if i < |outputs| then
      if outputs[i].job == h.job then AckOutput(h, outputs, i, guard) else Idle
    else
      Put(ReceiptKey(h.job),
          Receipt(h.job, h.generation, h.attempt, id, h.token, h.payload, Digests(outputs)),
          ForReceipt(h, outputs), guard, Putting)
  }

  function AfterOutput(cfg: Config, id: nat, pc: Pc, reply: Reply): Pc
    requires pc.AckOutput?
  {
    match reply
    case Transport => pc
    case Unknown => pc
    case Found(o) =>
      if pc.verified < |pc.outputs| && o.record.Output? && cfg.sha(o.record.body) == pc.outputs[pc.verified].digest
      then NextOutput(id, pc.handle, pc.outputs, pc.verified + 1, pc.guard)
      else Idle
    case _ => Idle
  }

  /** What a write path does once its conditional write is resolved as its own. */
  function OnCommitted(pc: Pc): Pc
    requires pc.Put?
  {
    match pc.purpose
    case ForClaim(_, _, payload) => if pc.record.Claim? then ReadBack(pc.record.claim, payload) else Idle
    case ForRenewal(h) => if pc.record.Claim? then ReadBack(pc.record.claim, h.payload) else Idle
    case _ => Idle
  }

  /** What it does once another writer's record holds the key. */
  function OnLost(pc: Pc): Pc
    requires pc.Put?
  {
    match pc.purpose
    case ForEnqueue => EnqueueCompare(pc.key, pc.record)
    case ForClaim(s, hintUsed, _) => if hintUsed then Relist(s, FROM_START) else Idle
    case ForReceipt(h, o) => AckCompare(h, o)
    case ForBurial(h) => BuryCompare(h)
    case _ => Idle
  }

  function AfterPut(pc: Pc, reply: Reply): Pc
    requires pc.Put?
  {
    match pc.stage
    case Putting =>
      (match reply
       case Committed => OnCommitted(pc)
       case Rejected => OnLost(pc)
       case Transport => pc
       case Unknown => pc.(stage := Heading)
       case _ => Idle)
    case Heading =>
      (match reply
       case Meta(_) => pc.(stage := Reading)
       case NotFound => pc.(stage := Putting)
       case Transport => pc
       case Unknown => pc
       case _ => Idle)
    case Reading =>
      (match reply
       case Found(o) => if o.record == pc.record then OnCommitted(pc) else OnLost(pc)
       case Transport => pc
       case Unknown => pc
       case _ => Idle)
  }

  /** The raw beacon gates the watermark before the watermark raises it. */
  function Raised(cfg: Config, raw: nat, bucket: Option<nat>): Option<nat> {
    match bucket
    case None => Some(raw)
    case Some(b) =>
      if Saturate(raw + cfg.skew) < Saturate(b * cfg.width) then None
      else if cfg.width == 0 || b * cfg.width > U64_MAX then None
      else Some(if raw < b * cfg.width then b * cfg.width else raw)
  }

  predicate SameReceipt(r: Record, h: Handle, outputs: seq<CommittedOutput>) {
    r.Receipt? && r.job == h.job && r.generation == h.generation && r.attempt == h.attempt
    && r.payload == h.payload && r.outputs == Digests(outputs)
  }

  predicate EquivalentReceipt(r: Record, h: Handle, outputs: seq<CommittedOutput>) {
    r.Receipt? && r.payload == h.payload && r.outputs == Digests(outputs)
  }

  /** One reply: the worker's next program counter, floors and handles. `now` is the step and
      `clock` the store clock at which the call was served; `token` is drawn fresh. */
  function Resume(cfg: Config, w: Worker, call: Call, reply: Reply, now: nat, clock: nat, token: Token): Worker
    requires Pending(w.pc, call)
  {
    match w.pc
    case Idle => w
    case EnqueueCompare(_, _) => w.(pc := if reply == Transport || reply == Unknown then w.pc else Idle)
    case FloorPut => w.(pc := if reply == Committed then FloorHead(call.key.nonce) else FloorPut)
    case FloorHead(_) => w.(pc := if reply.Meta? then FloorGate(reply.time) else Idle)
    case FloorGate(raw) =>
      if reply == Transport || reply == Unknown then w
      else if reply.Watermark? && Raised(cfg, raw, reply.bucket).Some?
      then w.(pc := Idle, floors := w.floors + {Raised(cfg, raw, reply.bucket).value})
      else w.(pc := Idle)
    case Gather(s, r, d, t) =>
      var pc' :=
        if r.None? && call == Head(ReceiptKey(s.job)) then Gather(s.(guard := now), Some(ProbeOf(reply)), d, t)
        else if d.None? && call == Head(DeadKey(s.job)) then Gather(s, r, Some(ProbeOf(reply)), t)
        else Gather(s, r, d, AfterTail(t, reply, clock));
      w.(pc := Gathered(pc'))
    case TailRecord(s, g, time, seen) =>
      w.(pc := if reply.Found? && reply.item.record.Claim?
               then Decide(s, Evidence(g, time, reply.item.record.claim.attempt, reply.item.record.claim.lease, seen),
                           false)
               else Idle)
    case ReadFail(_, _, _) => w.(pc := AfterFail(cfg, w.pc, reply))
    case ReadJob(_, _, _) => w.(pc := AfterJob(w.id, w.pc, reply, token))
    case Relist(s, t) =>
      var t' := AfterTail(t, reply, clock);
      w.(pc := match t'
               case Listing(_, _, _) => Relist(s, t')
               case Listed(g, time, seen) => FromListing(s, g, time, seen)
               case _ => Idle)
    case RenewReceipt(h) => w.(pc := if reply == NotFound then RenewDead(h) else Idle)
    case RenewDead(h) =>
      w.(pc := if reply == NotFound
               then Put(ClaimKey(h.job, h.generation + 1), Claim(RenewalRecord(w.id, h)), ForRenewal(h), now, Putting)
               else Idle)
    case CommitPut(h, n, b) =>
      w.(pc := match reply
               case Rejected => CommitRead(h, n, b)
               case Unknown => CommitRead(h, n, b)
               case Transport => w.pc
               case _ => Idle)
    case CommitRead(h, n, b) =>
      w.(pc := match reply
               case NotFound => CommitPut(h, n, b)
               case Unknown => w.pc
               case Transport => w.pc
               case _ => Idle)
    case AckDead(h, o) => w.(pc := if reply == NotFound then NextOutput(w.id, h, o, 0, now) else Idle)
    case AckOutput(_, _, _, _) => w.(pc := AfterOutput(cfg, w.id, w.pc, reply))
    case AckCompare(h, o) =>
      w.(pc := match reply
               case Transport => w.pc
               case Unknown => w.pc
               case Found(x) => if SameReceipt(x.record, h, o) || !x.record.Receipt? then Idle else AckEquivalent(h, o)
               case _ => Idle)
    case AckEquivalent(h, o) => w.(pc := if reply == Transport || reply == Unknown then w.pc else Idle)
    case BuryReceipt(h, reason) =>
      w.(pc := if reply == NotFound
               then Put(DeadKey(h.job), Dead(h.job, h.generation, h.attempt, reason), ForBurial(h), now, Putting)
               else Idle)
    case BuryCompare(_) => w.(pc := if reply == Transport || reply == Unknown then w.pc else Idle)
    case Put(_, _, _, _, _) => w.(pc := AfterPut(w.pc, reply))
    case ReadBack(c, payload) =>
      if reply.Meta?
      then
        var h := Handle(c.job, c.generation, c.attempt, c.token, c.lease, reply.time, payload);
        w.(pc := Idle, handles := w.handles + {h})
      else w.(pc := Idle)
  }

  /** The delivery a reply completes, if any: an acknowledgment that wrote the receipt, found its
      own evidence in it, or found the same completed state. */
  function Completes(pc: Pc, reply: Reply): Option<Delivery> {
    match pc
    case Put(_, r, ForReceipt(h, o), _, stage) =>
      if (stage.Putting? && reply == Committed) || (stage.Reading? && reply.Found? && reply.item.record == r)
      then Some(Delivery(h.job, Digests(o)))
      else None
    case AckCompare(h, o) =>
      if reply.Found? && SameReceipt(reply.item.record, h, o) then Some(Delivery(h.job, Digests(o))) else None
    case AckEquivalent(h, o) =>
      if reply.Found? && EquivalentReceipt(reply.item.record, h, o) then Some(Delivery(h.job, Digests(o))) else None
    case _ => None
  }

  /** What an enqueue, an output commit, a nack or a burial returns on a reply that ends it: whether it
      succeeded. A job record already there must be the same, an output already there have the same
      digest, a dead record already there the claim's own generation and attempt. */
  function Reports(cfg: Config, pc: Pc, reply: Reply): Option<bool> {
    match pc
    case CommitPut(_, _, _) => if reply == Committed then Some(true) else None
    case CommitRead(_, _, b) =>
      if reply.Found? && reply.item.record.Output? then Some(cfg.sha(reply.item.record.body) == cfg.sha(b)) else None
    case BuryReceipt(_, _) => if reply.Meta? then Some(false) else None
    case BuryCompare(h) =>
      if !reply.Found? then None
      else
        var r := reply.item.record;
        Some(r.Dead? && r.generation == h.generation && r.attempt == h.attempt)
    case EnqueueCompare(_, r) => if reply.Found? then Some(reply.item.record == r) else None
    case Put(_, r, ForEnqueue, _, stage) =>
      if (stage.Putting? && reply == Committed) || (stage.Reading? && reply.Found? && reply.item.record == r)
      then Some(true) else None
    case Put(_, r, ForFail, _, stage) =>
      if (stage.Putting? && (reply == Committed || reply == Rejected)) || (stage.Reading? && reply.Found?)
      then Some(true) else None
    case Put(_, r, ForBurial(_), _, stage) =>
      if (stage.Putting? && reply == Committed) || (stage.Reading? && reply.Found? && reply.item.record == r)
      then Some(true) else None
    case _ => None
  }

  // ---------- Operations and steps ----------

  datatype Operation =
    | EstablishFloor
    | Enqueue(job: JobId, maximumAttempts: nat, notBefore: Option<nat>, payload: Digest)
    | TryClaim(job: JobId, floor: nat, lease: nat)
    | Renew(handle: Handle)
    | CommitOutput(handle: Handle, name: nat, body: Body)
    | Acknowledge(handle: Handle, outputs: seq<CommittedOutput>)
    | Nack(handle: Handle, reason: nat, retryNotBefore: nat)
    | Bury(handle: Handle, reason: nat)

  /** What a worker may start: claims use one of its own floors, the rest one of its handles. */
  predicate Startable(w: Worker, op: Operation) {
    && w.pc == Idle
    && match op
       case EstablishFloor => true
       case Enqueue(_, max, _, _) => max > 0
       case TryClaim(_, floor, _) => floor in w.floors
       case Renew(h) => h in w.handles && h.generation < U32_MAX
       case CommitOutput(h, _, _) => h in w.handles
       case Acknowledge(h, _) => h in w.handles
       case Nack(h, _, _) => h in w.handles
       case Bury(h, _) => h in w.handles
  }

  function Started(cfg: Config, op: Operation): Pc {
    match op
    case EstablishFloor => FloorPut
    case Enqueue(j, max, nb, p) => Put(JobKey(j), Job(j, max, nb, p), ForEnqueue, 0, Putting)
    case TryClaim(j, floor, lease) =>
      Gather(Scan(j, floor, lease, 0), None, None, if cfg.hints then ReadHint else FROM_START)
    case Renew(h) => RenewReceipt(h)
    case CommitOutput(h, n, b) => CommitPut(h, n, b)
    case Acknowledge(h, o) => AckDead(h, o)
    case Nack(h, reason, nb) =>
      Put(FailKey(h.job, h.generation), Fail(h.job, h.generation, h.attempt, reason, nb), ForFail, 0, Putting)
    case Bury(h, reason) => BuryReceipt(h, reason)
  }

  datatype Action =
    | Tick(clock: nat)
    | SetHint(job: JobId, hint: Option<Object>)
    | Join(pid: Pid, id: nat)
    | Stop(pid: Pid)
    | Start(pid: Pid, op: Operation)
    | Serve(pid: Pid, call: Call, fault: Fault, reply: Reply, time: nat, token: Token)

  predicate Init(s: State) {
    s == State(map[], 0, map[], map[], 0, map[], {})
  }

  function SeenBy(pc: Pc): nat {
    if pc.Put? && pc.purpose.ForExhaustion? then pc.purpose.seen else 0
  }

  /** Serving one call of one worker. A write takes a store time above the clock. */
  ghost predicate Serves(cfg: Config, s: State, a: Action, s': State)
    requires a.Serve?
  {
    && a.pid in s.workers
    && var w := s.workers[a.pid];
    && Pending(w.pc, a.call)
    && Answers(s.store, a.call, a.reply)
    && a.token !in s.owner
    && s.clock < a.time <= U64_MAX
    && var applied := a.fault == Pass || a.fault == PostTransmitAfter;
    && var reply := Delivered(a.fault, a.reply);
    && var wrote := applied && a.call.PutIfAbsent? && a.call.key !in s.store;
    && s' == s.(
         store := if applied then Applied(s.store, a.call, a.time) else s.store,
         clock := if wrote then a.time else s.clock,
         owner := s.owner[a.token := a.pid],
         workers := s.workers[a.pid := Resume(cfg, w, a.call, reply, s.now, s.clock, a.token)],
         now := s.now + 1,
         stamps := if wrote && w.pc.Put? then s.stamps[a.call.key := Stamp(w.pc.guard, s.now, SeenBy(w.pc))]
                   else s.stamps,
         delivered := match Completes(w.pc, reply) case Some(d) => s.delivered + {d} case None => s.delivered)
  }

  ghost predicate Step(cfg: Config, s: State, a: Action, s': State) {
    match a
    case Tick(c) => s.clock <= c <= U64_MAX && s' == s.(clock := c)
    case SetHint(j, h) =>
      s' == s.(store := if h.Some? then s.store[TailKey(j) := h.value] else s.store - {TailKey(j)})
    case Join(p, id) => p !in s.workers && s' == s.(workers := s.workers[p := Worker(id, {}, {}, Idle)])
    case Stop(p) => p in s.workers && s' == s.(workers := s.workers[p := s.workers[p].(pc := Idle)])
    case Start(p, op) =>
      && p in s.workers && Startable(s.workers[p], op)
      && s' == s.(workers := s.workers[p := s.workers[p].(pc := Started(cfg, op))])
    case Serve(_, _, _, _, _, _) => Serves(cfg, s, a, s')
  }

  ghost predicate Next(cfg: Config, s: State, s': State) {
    exists a :: Step(cfg, s, a, s')
  }

  /** A finite run, from the empty store. */
  ghost predicate Run(cfg: Config, states: seq<State>) {
    && |states| > 0
    && Init(states[0])
    && forall i :: 0 <= i < |states| - 1 ==> Next(cfg, states[i], states[i + 1])
  }
}
