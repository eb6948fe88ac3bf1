/** What every step of the protocol keeps. `Inv` says what is true of the store, of every worker
    at its program counter, of the reported deliveries and of the terminal stamps; `StepKeepsInv`
    carries it over every action, and `RunKeepsInv` over every run. */
module ProtocolInvariant {
  import opened Wrappers
  import opened Protocol

  // ---------- The store ----------

  predicate ClaimAt(store: Store, j: JobId, g: nat) {
    ClaimKey(j, g) in store && store[ClaimKey(j, g)].record.Claim?
  }

  function ClaimOf(store: Store, j: JobId, g: nat): ClaimRecord
    requires ClaimAt(store, j, g)
  {
    store[ClaimKey(j, g)].record.claim
  }

  function TimeOf(store: Store, j: JobId, g: nat): nat
    requires ClaimAt(store, j, g)
  {
    store[ClaimKey(j, g)].time
  }

  /** The floor a takeover of `g` must have reached. */
  function ExpiryGuard(cfg: Config, store: Store, j: JobId, g: nat): nat
    requires ClaimAt(store, j, g)
  {
    Saturate(Saturate(TimeOf(store, j, g) + ClaimOf(store, j, g).lease) + cfg.skew)
  }

  /** A takeover names its predecessor's own store time and lease, and its floor passed the
      predecessor's guard. */
  predicate TakesOver(cfg: Config, store: Store, c: ClaimRecord, j: JobId, g: nat)
    requires ClaimAt(store, j, g)
  {
    && !c.continuation && c.prevToken.None? && c.basis.Some?
    && c.basis.value.prevTime == TimeOf(store, j, g)
    && c.basis.value.prevDuration == ClaimOf(store, j, g).lease
    && c.basis.value.floor >= ExpiryGuard(cfg, store, j, g)
    && c.attempt == ClaimOf(store, j, g).attempt + 1
  }

  /** A continuation carries its predecessor's worker, token, lease and attempt. */
  predicate Continues(store: Store, c: ClaimRecord, j: JobId, g: nat)
    requires ClaimAt(store, j, g)
  {
    var p := ClaimOf(store, j, g);
    && c.continuation && c.basis.None? && c.prevToken == Some(p.token)
    && c.workerId == p.workerId && c.token == p.token && c.lease == p.lease && c.attempt == p.attempt
  }

  predicate FirstClaim(c: ClaimRecord) {
    !c.continuation && c.prevToken.None? && c.basis.Some? && c.attempt == 1
  }

  predicate Linked(cfg: Config, store: Store, j: JobId, g: nat)
    requires g > 1 && ClaimAt(store, j, g) && ClaimAt(store, j, g - 1)
  {
    var c := ClaimOf(store, j, g);
    && TimeOf(store, j, g - 1) < TimeOf(store, j, g)
    && (Continues(store, c, j, g - 1)
        || (TakesOver(cfg, store, c, j, g - 1) && c.basis.value.floor < TimeOf(store, j, g) + cfg.skew))
  }

  predicate WithinAttempts(store: Store, j: JobId, attempt: nat) {
    && JobKey(j) in store && store[JobKey(j)].record.Job?
    && 1 <= attempt <= store[JobKey(j)].record.maximumAttempts
  }

  predicate OwnedBy(s: State, c: ClaimRecord, p: Pid) {
    c.token in s.owner && s.owner[c.token] == p && p in s.workers && s.workers[p].id == c.workerId
  }

  predicate Owned(s: State, c: ClaimRecord) {
    c.token in s.owner && OwnedBy(s, c, s.owner[c.token])
  }

  predicate GoodClaim(cfg: Config, s: State, j: JobId, g: nat) {
    && ClaimAt(s.store, j, g)
    && var c := ClaimOf(s.store, j, g);
    && c.job == j && c.generation == g && g >= 1
    && Owned(s, c)
    && WithinAttempts(s.store, j, c.attempt)
    && (g == 1 ==> FirstClaim(c))
    && (g > 1 ==> ClaimAt(s.store, j, g - 1) && Linked(cfg, s.store, j, g))
  }

  ghost predicate HasOutput(cfg: Config, store: Store, j: JobId, d: Digest) {
    exists n :: OutputKey(j, n) in store && store[OutputKey(j, n)].record.Output?
                && cfg.sha(store[OutputKey(j, n)].record.body) == d
  }

  /** The claim a terminal record speaks for. */
  predicate Evidenced(store: Store, j: JobId, g: nat, attempt: nat) {
    ClaimAt(store, j, g) && ClaimOf(store, j, g).attempt == attempt
  }

  ghost predicate GoodReceipt(cfg: Config, store: Store, r: Record, j: JobId) {
    && r.Receipt? && r.job == j
    && Evidenced(store, j, r.generation, r.attempt)
    && (forall i :: 0 <= i < |r.outputs| ==> HasOutput(cfg, store, j, r.outputs[i]))
  }

  /** Generation `g` was the tail of the chain when the store clock read `clock`. */
  predicate TailWhen(store: Store, j: JobId, g: nat, clock: nat) {
    && (g > 0 ==> ClaimKey(j, g) in store && store[ClaimKey(j, g)].time <= clock)
    && (ClaimKey(j, g + 1) in store ==> clock < store[ClaimKey(j, g + 1)].time)
  }

  /** An exhaustion: the tail at `seen` had used every attempt. */
  predicate Exhausted(store: Store, r: Record, j: JobId, seen: nat) {
    && r.Dead? && r.job == j && r.reason == ATTEMPTS_EXHAUSTED
    && Evidenced(store, j, r.generation, r.attempt)
    && TailWhen(store, j, r.generation, seen)
    && JobKey(j) in store && store[JobKey(j)].record.Job?
    && r.attempt >= store[JobKey(j)].record.maximumAttempts
  }

  /** A dead record is a burial by a holder or an exhaustion on listed evidence. */
  predicate GoodDead(s: State, r: Record, j: JobId, seen: nat) {
    && r.Dead? && r.job == j && seen <= s.clock
    && Evidenced(s.store, j, r.generation, r.attempt)
    && (seen > 0 ==> Exhausted(s.store, r, j, seen))
  }

  ghost predicate ChainsOk(cfg: Config, s: State) {
    forall j, g {:trigger GoodClaim(cfg, s, j, g)} :: ClaimKey(j, g) in s.store ==> GoodClaim(cfg, s, j, g)
  }

  ghost predicate ReceiptsOk(cfg: Config, s: State) {
    forall j :: ReceiptKey(j) in s.store ==> GoodReceipt(cfg, s.store, s.store[ReceiptKey(j)].record, j)
  }

  ghost predicate DeadOk(s: State) {
    forall j :: DeadKey(j) in s.store ==>
      DeadKey(j) in s.stamps && GoodDead(s, s.store[DeadKey(j)].record, j, s.stamps[DeadKey(j)].seen)
  }

  ghost predicate StoreOk(cfg: Config, s: State) {
    && (forall k :: k in s.store && !k.TailKey? ==> 0 < s.store[k].time <= s.clock)
    && ChainsOk(cfg, s)
    && (forall j :: JobKey(j) in s.store ==>
        s.store[JobKey(j)].record.Job? && s.store[JobKey(j)].record.maximumAttempts > 0)
    && ReceiptsOk(cfg, s)
    && DeadOk(s)
  }

  // ---------- Terminal stamps ----------

  predicate Stamped(s: State, k: Key) {
    k in s.store ==> k in s.stamps && s.stamps[k].guard < s.stamps[k].put < s.now
  }

  /** Two terminal records of one job: each guard read came before the other's put. */
  predicate Crossed(s: State, j: JobId) {
    ReceiptKey(j) in s.store && DeadKey(j) in s.store ==>
      && ReceiptKey(j) in s.stamps && DeadKey(j) in s.stamps
      && s.stamps[ReceiptKey(j)].guard < s.stamps[DeadKey(j)].put
      && s.stamps[DeadKey(j)].guard < s.stamps[ReceiptKey(j)].put
  }

  ghost predicate StampsOk(s: State) {
    forall j: JobId {:trigger Crossed(s, j)} ::
      Stamped(s, ReceiptKey(j)) && Stamped(s, DeadKey(j)) && Crossed(s, j)
  }

  /** The key was absent at step `guard`. */
  predicate Guarded(s: State, k: Key, guard: nat) {
    guard < s.now && (k in s.store ==> k in s.stamps && guard < s.stamps[k].put)
  }

  // ---------- Workers ----------

  predicate HandleOk(s: State, p: Pid, h: Handle) {
    && ClaimAt(s.store, h.job, h.generation)
    && TimeOf(s.store, h.job, h.generation) == h.time
    && var c := ClaimOf(s.store, h.job, h.generation);
    && c.attempt == h.attempt && c.token == h.token && c.lease == h.lease
    && OwnedBy(s, c, p)
  }

  predicate FoundOk(s: State, j: JobId, g: nat, time: nat) {
    g > 0 ==> ClaimKey(j, g) in s.store && s.store[ClaimKey(j, g)].time == time
  }

  predicate TailOk(s: State, j: JobId, t: Tail) {
    match t
    case Listing(after, g, time) => after == g && FoundOk(s, j, g, time)
    case Listed(g, time, seen) => FoundOk(s, j, g, time) && seen <= s.clock && TailWhen(s.store, j, g, seen)
    case Hinted(g, time, seen, c) =>
      g > 0 && seen <= s.clock && FoundOk(s, j, g, time) && s.store[ClaimKey(j, g)].record == Claim(c)
    case _ => true
  }

  predicate EvidenceOk(s: State, j: JobId, e: Evidence, listed: bool) {
    && e.seen <= s.clock
    && (if e.generation == 0 then e.time == e.attempt == e.lease == 0
        else && ClaimAt(s.store, j, e.generation)
             && TimeOf(s.store, j, e.generation) == e.time
             && ClaimOf(s.store, j, e.generation).attempt == e.attempt
             && ClaimOf(s.store, j, e.generation).lease == e.lease)
    && (listed ==> TailWhen(s.store, j, e.generation, e.seen))
  }

  predicate ScanOk(cfg: Config, s: State, sc: Scan) {
    sc.floor <= s.clock + cfg.skew && Guarded(s, ReceiptKey(sc.job), sc.guard)
  }

  ghost predicate Verified(cfg: Config, s: State, h: Handle, outputs: seq<CommittedOutput>, n: nat) {
    forall i :: 0 <= i < n <= |outputs| ==> HasOutput(cfg, s.store, h.job, outputs[i].digest)
  }

  /** A claim record about to be written on this evidence. */
  predicate Admissible(cfg: Config, s: State, p: Pid, c: ClaimRecord) {
    && OwnedBy(s, c, p)
    && WithinAttempts(s.store, c.job, c.attempt)
    && !c.continuation && c.basis.Some? && c.basis.value.floor <= s.clock + cfg.skew
    && c.generation >= 1
    && (c.generation == 1 ==> FirstClaim(c))
    && (c.generation > 1 ==> ClaimAt(s.store, c.job, c.generation - 1)
                             && TakesOver(cfg, s.store, c, c.job, c.generation - 1))
  }

  ghost predicate PutOk(cfg: Config, s: State, p: Pid, pc: Pc)
    requires pc.Put?
  {
    var k, r, guard := pc.key, pc.record, pc.guard;
    match pc.purpose
    case ForEnqueue => r.Job? && k == JobKey(r.job) && r.maximumAttempts > 0
    case ForClaim(sc, _, _) =>
      r.Claim? && k == ClaimKey(r.claim.job, r.claim.generation) && Admissible(cfg, s, p, r.claim) && ScanOk(cfg, s, sc)
    case ForRenewal(h) =>
      HandleOk(s, p, h) && r == Claim(RenewalRecord(s.workers[p].id, h)) && k == ClaimKey(h.job, h.generation + 1)
    case ForExhaustion(seen) =>
      && k.DeadKey? && seen <= s.clock && seen > 0 && Exhausted(s.store, r, k.job, seen)
      && ExpiryGuard(cfg, s.store, k.job, r.generation) <= s.clock + cfg.skew
      && Guarded(s, ReceiptKey(k.job), guard)
    case ForReceipt(h, outputs) =>
      && HandleOk(s, p, h) && k == ReceiptKey(h.job)
      && r == Receipt(h.job, h.generation, h.attempt, s.workers[p].id, h.token, h.payload, Digests(outputs))
      && Verified(cfg, s, h, outputs, |outputs|) && Guarded(s, DeadKey(h.job), guard)
    case ForFail => k.FailKey? && r.Fail?
    case ForBurial(_) =>
      && k.DeadKey? && r.Dead? && r.job == k.job && Evidenced(s.store, k.job, r.generation, r.attempt)
      && Guarded(s, ReceiptKey(k.job), guard)
  }

  ghost predicate PcOk(cfg: Config, s: State, p: Pid, pc: Pc)
    requires p in s.workers
  {
    match pc
    case FloorGate(raw) => raw <= s.clock
    case Gather(sc, r, _, t) =>
      && sc.floor <= s.clock + cfg.skew
      && (r == Some(Absent) ==> Guarded(s, ReceiptKey(sc.job), sc.guard))
      && TailOk(s, sc.job, t)
    case TailRecord(sc, g, time, seen) => ScanOk(cfg, s, sc) && g > 0 && TailOk(s, sc.job, Listed(g, time, seen))
    case ReadFail(sc, e, hinted) => ScanOk(cfg, s, sc) && e.generation > 0 && EvidenceOk(s, sc.job, e, !hinted)
    case ReadJob(sc, e, hinted) => ScanOk(cfg, s, sc) && EvidenceOk(s, sc.job, e, !hinted) && Expired(cfg, sc.floor, e)
    case Relist(sc, t) => ScanOk(cfg, s, sc) && TailOk(s, sc.job, t) && t.Listing?
    case RenewReceipt(h) => HandleOk(s, p, h)
    case RenewDead(h) => HandleOk(s, p, h)
    case AckDead(h, _) => HandleOk(s, p, h)
    case AckOutput(h, o, i, guard) =>
      && HandleOk(s, p, h) && i < |o| && o[i].job == h.job && Verified(cfg, s, h, o, i)
      && Guarded(s, DeadKey(h.job), guard)
    case BuryReceipt(h, _) => HandleOk(s, p, h)
    case Put(_, _, _, _, _) => PutOk(cfg, s, p, pc)
    case ReadBack(c, _) =>
      && ClaimKey(c.job, c.generation) in s.store && s.store[ClaimKey(c.job, c.generation)].record == Claim(c)
      && OwnedBy(s, c, p)
    case _ => true
  }

  ghost predicate WorkerOk(cfg: Config, s: State, p: Pid, w: Worker)
    requires p in s.workers
  {
    && (forall f :: f in w.floors ==> f <= s.clock + cfg.skew)
    && (forall h :: h in w.handles ==> HandleOk(s, p, h))
    && PcOk(cfg, s, p, w.pc)
  }

  ghost predicate DeliveredOk(s: State) {
    forall d :: d in s.delivered ==>
      && ReceiptKey(d.job) in s.store && s.store[ReceiptKey(d.job)].record.Receipt?
      && s.store[ReceiptKey(d.job)].record.outputs == d.outputs
  }

  ghost predicate Inv(cfg: Config, s: State) {
    && StoreOk(cfg, s)
    && StampsOk(s)
    && DeliveredOk(s)
    && (forall p :: p in s.workers ==> WorkerOk(cfg, s, p, s.workers[p]))
  }

  // ---------- What growth leaves true ----------

  /** From `s` to `s'` objects other than hints are only added, each with a store time above the
      old clock, and terminal records with a stamp not before the old step. */
  ghost predicate Grows(s: State, s': State) {
    && (forall k :: k in s.store && !k.TailKey? ==> k in s'.store && s'.store[k] == s.store[k])
    && (forall k :: k in s'.store && k !in s.store && !k.TailKey? ==> s.clock < s'.store[k].time <= s'.clock)
    && (forall k :: k in s'.store && k !in s.store && (k.ReceiptKey? || k.DeadKey?) ==>
          k in s'.stamps && s.now <= s'.stamps[k].put)
    && (forall k :: k in s.store && k in s.stamps ==> k in s'.stamps && s'.stamps[k] == s.stamps[k])
    && (forall t :: t in s.owner ==> t in s'.owner && s'.owner[t] == s.owner[t])
    && (forall p :: p in s.workers ==> p in s'.workers && s'.workers[p].id == s.workers[p].id)
    && s.clock <= s'.clock && s.now <= s'.now
  }

  lemma OutputsStay(cfg: Config, s: State, s': State, j: JobId, d: Digest)
    requires Grows(s, s') && HasOutput(cfg, s.store, j, d)
    ensures HasOutput(cfg, s'.store, j, d)
  {
    var n :| OutputKey(j, n) in s.store && s.store[OutputKey(j, n)].record.Output?
             && cfg.sha(s.store[OutputKey(j, n)].record.body) == d;
    assert OutputKey(j, n) in s'.store;
  }

  lemma VerifiedStays(cfg: Config, s: State, s': State, h: Handle, o: seq<CommittedOutput>, n: nat)
    requires Grows(s, s') && Verified(cfg, s, h, o, n)
    ensures Verified(cfg, s', h, o, n)
  {
    forall i | 0 <= i < n <= |o|
      ensures HasOutput(cfg, s'.store, h.job, o[i].digest)
    {
      OutputsStay(cfg, s, s', h.job, o[i].digest);
    }
  }

  lemma HandleStays(s: State, s': State, p: Pid, h: Handle)
    requires Grows(s, s') && HandleOk(s, p, h)
    ensures HandleOk(s', p, h)
  {}

  lemma TailOkStays(s: State, s': State, j: JobId, t: Tail)
    requires Grows(s, s') && TailOk(s, j, t)
    ensures TailOk(s', j, t)
  {}

  lemma EvidenceStays(s: State, s': State, j: JobId, e: Evidence, listed: bool)
    requires Grows(s, s') && EvidenceOk(s, j, e, listed)
    ensures EvidenceOk(s', j, e, listed)
  {}

  lemma AdmissibleStays(cfg: Config, s: State, s': State, p: Pid, c: ClaimRecord)
    requires Grows(s, s') && Admissible(cfg, s, p, c)
    ensures Admissible(cfg, s', p, c)
  {}

  lemma ExhaustedStays(s: State, s': State, r: Record, j: JobId, seen: nat)
    requires Grows(s, s') && Exhausted(s.store, r, j, seen) && seen <= s.clock
    ensures Exhausted(s'.store, r, j, seen)
  {}

  lemma PutStays(cfg: Config, s: State, s': State, p: Pid, pc: Pc)
    requires Grows(s, s') && p in s.workers && pc.Put? && PutOk(cfg, s, p, pc)
    ensures PutOk(cfg, s', p, pc)
  {
    match pc.purpose
    case ForClaim(sc, _, _) => AdmissibleStays(cfg, s, s', p, pc.record.claim);
    case ForRenewal(h) => HandleStays(s, s', p, h);
    case ForExhaustion(seen) => ExhaustedStays(s, s', pc.record, pc.key.job, seen);
    case ForReceipt(h, o) =>
      HandleStays(s, s', p, h);
      VerifiedStays(cfg, s, s', h, o, |o|);
    case _ =>
  }

  lemma HolderStays(cfg: Config, s: State, s': State, p: Pid, pc: Pc)
    requires Grows(s, s') && p in s.workers && PcOk(cfg, s, p, pc)
    requires pc.RenewReceipt? || pc.RenewDead? || pc.AckDead? || pc.AckOutput? || pc.BuryReceipt?
    ensures PcOk(cfg, s', p, pc)
  {
    HandleStays(s, s', p, pc.handle);
    if pc.AckOutput? {
      VerifiedStays(cfg, s, s', pc.handle, pc.outputs, pc.verified);
    }
  }

  lemma ScanStays(cfg: Config, s: State, s': State, p: Pid, pc: Pc)
    requires Grows(s, s') && p in s.workers && PcOk(cfg, s, p, pc)
    requires pc.Gather? || pc.TailRecord? || pc.ReadFail? || pc.ReadJob? || pc.Relist?
    ensures PcOk(cfg, s', p, pc)
  {
    if pc.Gather? || pc.Relist? {
      TailOkStays(s, s', pc.scan.job, pc.tail);
    } else if pc.TailRecord? {
      TailOkStays(s, s', pc.scan.job, Listed(pc.generation, pc.time, pc.seen));
    } else {
      EvidenceStays(s, s', pc.scan.job, pc.evidence, !pc.hintUsed);
    }
  }

  lemma PcStays(cfg: Config, s: State, s': State, p: Pid, pc: Pc)
    requires Grows(s, s') && p in s.workers && PcOk(cfg, s, p, pc)
    ensures PcOk(cfg, s', p, pc)
  {
    if pc.Gather? || pc.TailRecord? || pc.ReadFail? || pc.ReadJob? || pc.Relist? {
      ScanStays(cfg, s, s', p, pc);
    } else if pc.RenewReceipt? || pc.RenewDead? || pc.AckDead? || pc.AckOutput? || pc.BuryReceipt? {
      HolderStays(cfg, s, s', p, pc);
    } else if pc.Put? {
      PutStays(cfg, s, s', p, pc);
    }
  }

  lemma WorkerStays(cfg: Config, s: State, s': State, p: Pid, w: Worker)
    requires Grows(s, s') && p in s.workers && WorkerOk(cfg, s, p, w)
    ensures WorkerOk(cfg, s', p, w)
  {
    PcStays(cfg, s, s', p, w.pc);
  }
}
