/** A claim run to completion without faults or interference is the atomic claim of
    `OracleRefinement`: the same objects and the same handle or refusal, whatever the tail hint,
    with one exception that is stated exactly. */
module ProtocolAtomic {
  import opened Wrappers
  import opened Protocol
  import opened ProtocolInvariant
  import opened ProtocolPreservation
  import opened ProtocolTheorems
  import opened JobObjects
  import A = OracleRefinement

  // ---------- What a claim should do ----------

  /** What a claim starts from: the store, the job's tail, the claim's own terms and the worker's
      handles and id. */
  datatype Terms = Terms(store: Store, clock: nat, job: JobId, n: nat, floor: nat, lease: nat, handles: set<Handle>,
                         id: nat)

  ghost predicate TermsOk(c: Terms) {
    Chain(c.store, c.job, c.n)
  }

  ghost function Target(cfg: Config, c: Terms): A.Objects
    requires TermsOk(c)
  {
    ObjectsOf(cfg, c.store, c.job, c.n)
  }

  /** The generation the tail hint leads to, when it leads to a claim. */
  ghost function HintedGeneration(cfg: Config, c: Terms): Option<nat> {
    if cfg.hints && TailKey(c.job) in c.store && AfterHint(Found(c.store[TailKey(c.job)])).ReadHinted?
       && AfterHint(Found(c.store[TailKey(c.job)])).generation <= c.n
    then Some(AfterHint(Found(c.store[TailKey(c.job)])).generation)
    else None
  }

  ghost predicate NoTerminal(c: Terms) {
    ReceiptKey(c.job) !in c.store && DeadKey(c.job) !in c.store
  }

  ghost predicate BackedOff(c: Terms, g: nat)
    requires TermsOk(c)
  {
    FailKey(c.job, g) in c.store && c.floor < c.store[FailKey(c.job, g)].record.retryNotBefore
  }

  /** The hint leads to a generation whose fail record is not over. */
  ghost predicate HintRefuses(cfg: Config, c: Terms)
    requires TermsOk(c)
  {
    NoTerminal(c) && HintedGeneration(cfg, c).Some? && BackedOff(c, HintedGeneration(cfg, c).value)
  }

  ghost function Atomic(cfg: Config, c: Terms, t: nat): (A.Objects, Option<(nat, nat)>)
    requires TermsOk(c)
  {
    A.TryClaim(Target(cfg, c), c.floor, cfg.skew, c.lease, t)
  }

  /** The atomic claim, but refused where the hint refuses. */
  ghost function Expected(cfg: Config, c: Terms, t: nat): (A.Objects, Option<(nat, nat)>)
    requires TermsOk(c)
  {
    if HintRefuses(cfg, c) then (Target(cfg, c), None) else Atomic(cfg, c, t)
  }

  /** Whatever store time a write would get, the claim is refused and changes nothing. */
  ghost predicate Refused(cfg: Config, c: Terms)
    requires TermsOk(c)
  {
    forall t :: Expected(cfg, c, t) == (Target(cfg, c), None)
  }

  /** The tail's store time, attempt and lease; zeros for an empty chain. */
  ghost function TailClaim(c: Terms): A.StoredClaim
    requires TermsOk(c)
  {
    if c.n == 0 then A.StoredClaim(0, 0, 0) else StoredAt(c.store, c.job, c.n)
  }

  /** The whole record of a claim that takes over the tail. */
  ghost function Granted(c: Terms, attempt: nat, token: Token): ClaimRecord
    requires TermsOk(c)
  {
    var tail := TailClaim(c);
    ClaimRecord(c.job, c.n + 1, attempt, c.id, token, c.lease, false, Some(Basis(tail.time, tail.lease, c.floor)), None)
  }

  /** The claim leaves the store and the worker's handles so: granted, its record and a handle of it
      with the job's payload; refused, no handle, and at most the dead record of the tail. */
  ghost predicate Leaves(c: Terms, r: Option<(nat, nat)>, t: nat, store: Store, handles: set<Handle>)
    requires TermsOk(c)
  {
    match r
    case None =>
      && handles == c.handles
      && (store == c.store
          || store == c.store[DeadKey(c.job) := Object(Dead(c.job, c.n, TailClaim(c).attempt, ATTEMPTS_EXHAUSTED), t)])
    case Some((g, a)) =>
      exists token ::
        && store == c.store[ClaimKey(c.job, g) := Object(Claim(Granted(c, a, token)), t)]
        && handles == c.handles + {Handle(c.job, g, a, token, c.lease, t, c.store[JobKey(c.job)].record.payload)}
  }

  /** The store and the worker's handles are as expected, at some store time. */
  ghost predicate Ended(cfg: Config, c: Terms, store: Store, handles: set<Handle>)
    requires TermsOk(c)
  {
    exists t, m :: Chain(store, c.job, m) && ObjectsOf(cfg, store, c.job, m) == Expected(cfg, c, t).0
                   && Leaves(c, Expected(cfg, c, t).1, t, store, handles)
  }

  lemma EndedBy(cfg: Config, c: Terms, store: Store, handles: set<Handle>, t: nat, m: nat)
    requires TermsOk(c) && Chain(store, c.job, m) && ObjectsOf(cfg, store, c.job, m) == Expected(cfg, c, t).0
    requires Leaves(c, Expected(cfg, c, t).1, t, store, handles)
    ensures Ended(cfg, c, store, handles)
  {}

  // ---------- Where a claim can stand before it writes ----------

  ghost predicate Scans(sc: Scan, c: Terms) {
    sc.job == c.job && sc.floor == c.floor && sc.lease == c.lease
  }

  ghost predicate ProbeIs(probe: Option<Probe>, store: Store, k: Key) {
    probe.Some? ==> probe.value == if k in store then Present else Absent
  }

  /** The evidence is generation `g`'s own; 0 for an empty chain. */
  ghost predicate EvidenceAt(e: Evidence, c: Terms, g: nat)
    requires TermsOk(c)
  {
    && e.generation == g <= c.n
    && (if g == 0 then c.n == 0 && e.time == e.attempt == e.lease == 0
        else A.StoredClaim(e.time, e.attempt, e.lease) == StoredAt(c.store, c.job, g))
  }

  ghost predicate ListingOk(t: Tail) {
    t.Listing? && (t.found == 0 ==> t.time == 0)
  }

  ghost predicate ListedOk(c: Terms, t: Tail)
    requires TermsOk(c)
  {
    && t.Listed? && t.generation == c.n && t.seen == c.clock
    && t.time == if c.n == 0 then 0 else TimeOf(c.store, c.job, c.n)
  }

  ghost predicate TailFound(cfg: Config, c: Terms, t: Tail)
    requires TermsOk(c)
  {
    match t
    case ReadHint => cfg.hints
    case ReadHinted(g) => cfg.hints && TailKey(c.job) in c.store && AfterHint(Found(c.store[TailKey(c.job)])) == t
    case Hinted(g, time, _, r) =>
      && HintedGeneration(cfg, c) == Some(g) && g > 0
      && time == TimeOf(c.store, c.job, g) && r == ClaimOf(c.store, c.job, g)
    case Listing(_, _, _) => HintedGeneration(cfg, c).None? && ListingOk(t)
    case Listed(_, _, _) => HintedGeneration(cfg, c).None? && ListedOk(c, t)
    case TailError => false
  }

  /** Which generation a pass rests on: the hinted one, or the tail once the hint is out of play. */
  ghost predicate RestsOn(cfg: Config, c: Terms, e: Evidence, hintUsed: bool)
    requires TermsOk(c)
  {
    && EvidenceAt(e, c, e.generation)
    && if hintUsed then HintedGeneration(cfg, c) == Some(e.generation) && e.generation > 0
       else e.generation == c.n && !HintRefuses(cfg, c)
  }

  ghost predicate Writes(cfg: Config, c: Terms, k: Key, r: Record, purpose: Purpose)
    requires TermsOk(c)
  {
    match purpose
    case ForExhaustion(_) =>
      && k == DeadKey(c.job) && r == Dead(c.job, c.n, TailClaim(c).attempt, ATTEMPTS_EXHAUSTED)
      && var o := Target(cfg, c).(dead := Some(A.Death(r.generation, r.attempt, r.reason)));
      forall t :: Atomic(cfg, c, t) == (o, None)
    case ForClaim(sc, hintUsed, payload) =>
      && Scans(sc, c) && r.Claim? && k.ClaimKey? && k.job == c.job
      && (if k.generation <= c.n then hintUsed && k.generation >= 1
          else && k.generation == c.n + 1 <= U32_MAX && payload == c.store[JobKey(c.job)].record.payload
               && r.claim == Granted(c, r.claim.attempt, r.claim.token)
               && forall t :: Atomic(cfg, c, t) == (Extended(cfg, c, r.claim, t), Some((c.n + 1, r.claim.attempt))))
    case _ => false
  }

  ghost function Extended(cfg: Config, c: Terms, r: ClaimRecord, t: nat): A.Objects
    requires TermsOk(c)
  {
    var o := Target(cfg, c);
    o.(claims := o.claims + [A.StoredClaim(t, r.attempt, c.lease)])
  }

  ghost predicate Deciding(cfg: Config, c: Terms, pc: Pc)
    requires TermsOk(c)
  {
    match pc
    case Gather(sc, r, d, t) =>
      && Scans(sc, c) && ProbeIs(r, c.store, ReceiptKey(c.job)) && ProbeIs(d, c.store, DeadKey(c.job))
      && TailFound(cfg, c, t)
    case TailRecord(sc, g, time, _) =>
      Scans(sc, c) && NoTerminal(c) && !HintRefuses(cfg, c) && g == c.n > 0 && time == TimeOf(c.store, c.job, c.n)
    case ReadFail(sc, e, h) => Scans(sc, c) && NoTerminal(c) && RestsOn(cfg, c, e, h) && e.generation > 0
    case ReadJob(sc, e, h) =>
      && Scans(sc, c) && NoTerminal(c) && RestsOn(cfg, c, e, h) && Expired(cfg, c.floor, e)
      && !HintRefuses(cfg, c) && !BackedOff(c, e.generation)
    case Relist(sc, t) => Scans(sc, c) && NoTerminal(c) && !HintRefuses(cfg, c) && ListingOk(t)
    case Put(k, r, purpose, _, stage) =>
      stage == Putting && NoTerminal(c) && !HintRefuses(cfg, c) && Writes(cfg, c, k, r, purpose)
    case Idle => Refused(cfg, c)
    case _ => false
  }

  // ---------- Refusals ----------

  lemma RefusedTerminal(cfg: Config, c: Terms)
    requires TermsOk(c) && !NoTerminal(c)
    ensures Refused(cfg, c)
  {
    hide ObjectsOf;
    ObjectsAre(cfg, c.store, c.job, c.n);
  }

  /** The lease of any generation that is not over means the tail's is not. */
  lemma RefusedLease(cfg: Config, s: State, c: Terms, g: nat)
    requires TermsOk(c) && s.store == c.store && Inv(cfg, s) && 1 <= g <= c.n
    requires c.floor < ExpiryGuard(cfg, c.store, c.job, g)
    ensures Refused(cfg, c)
  {
    hide ObjectsOf, Inv;
    InvChains(cfg, s);
    assert ClaimAt(c.store, c.job, c.n);
    GuardsNeverFall(cfg, s, c.job, g, c.n);
    ObjectsAre(cfg, c.store, c.job, c.n);
  }

  lemma InvChains(cfg: Config, s: State)
    requires Inv(cfg, s)
    ensures ChainsOk(cfg, s)
  {}

  /** The tail's fail record is not over. */
  lemma RefusedBackoff(cfg: Config, c: Terms)
    requires TermsOk(c) && BackedOff(c, c.n)
    ensures Refused(cfg, c)
  {
    hide ObjectsOf;
    ObjectsAre(cfg, c.store, c.job, c.n);
  }

  lemma RefusedDelay(cfg: Config, c: Terms)
    requires TermsOk(c)
    requires var nb := c.store[JobKey(c.job)].record.notBefore; nb.Some? && c.floor < nb.value
    ensures Refused(cfg, c)
  {
    hide ObjectsOf;
    ObjectsAre(cfg, c.store, c.job, c.n);
  }

  // ---------- One step before the write ----------

  lemma GatheredDecides(cfg: Config, c: Terms, pc: Pc)
    requires TermsOk(c) && pc.Gather? && Deciding(cfg, c, pc)
    ensures Deciding(cfg, c, Gathered(pc))
  {
    hide ObjectsOf;
    if pc.receipt.Some? && pc.dead.Some? && !NoTerminal(c) {
      RefusedTerminal(cfg, c);
    }
  }

  lemma ReadFailDecides(cfg: Config, s: State, c: Terms, pc: Pc, reply: Reply)
    requires TermsOk(c) && s.store == c.store && Inv(cfg, s) && pc.ReadFail? && Deciding(cfg, c, pc)
    requires Answers(c.store, Get(FailKey(c.job, pc.evidence.generation)), reply)
    ensures Deciding(cfg, c, AfterFail(cfg, pc, reply))
  {
    hide ObjectsOf, Inv;
    var e := pc.evidence;
    if BackedOff(c, e.generation) {
      if !HintRefuses(cfg, c) {
        RefusedBackoff(cfg, c);
      }
    } else if !Expired(cfg, c.floor, e) {
      RefusedLease(cfg, s, c, e.generation);
    }
  }

  lemma ReadJobDecides(cfg: Config, c: Terms, id: nat, pc: Pc, reply: Reply, token: Token)
    requires TermsOk(c) && pc.ReadJob? && Deciding(cfg, c, pc) && Answers(c.store, Get(JobKey(c.job)), reply)
    requires id == c.id
    ensures Deciding(cfg, c, AfterJob(id, pc, reply, token))
  {
    hide ObjectsOf, Chain;
    JobTyped(c);
    var e, job := pc.evidence, c.store[JobKey(c.job)].record;
    if job.notBefore.Some? && c.floor < job.notBefore.value {
      RefusedDelay(cfg, c);
    } else if e.generation == c.n {
      TailDecides(cfg, c, e);
    }
  }

  lemma JobTyped(c: Terms)
    requires TermsOk(c)
    ensures JobKey(c.job) in c.store && c.store[JobKey(c.job)].record.Job? && c.n <= U32_MAX
  {}

  /** On the tail's evidence, past every gate, the atomic claim writes what the code writes. */
  lemma TailDecides(cfg: Config, c: Terms, e: Evidence)
    requires TermsOk(c) && NoTerminal(c) && EvidenceAt(e, c, c.n) && Expired(cfg, c.floor, e) && !BackedOff(c, c.n)
    requires var nb := c.store[JobKey(c.job)].record.notBefore; nb.Some? ==> c.floor >= nb.value
    ensures e.attempt + 1 > c.store[JobKey(c.job)].record.maximumAttempts ==>
              var o := Target(cfg, c).(dead := Some(A.Death(c.n, e.attempt, ATTEMPTS_EXHAUSTED)));
              forall t :: Atomic(cfg, c, t) == (o, None)
    ensures e.attempt + 1 <= c.store[JobKey(c.job)].record.maximumAttempts && c.n < U32_MAX ==>
              var o := Target(cfg, c);
              forall t :: Atomic(cfg, c, t)
                          == (o.(claims := o.claims + [A.StoredClaim(t, e.attempt + 1, c.lease)]),
                              Some((c.n + 1, e.attempt + 1)))
    ensures e.attempt + 1 <= c.store[JobKey(c.job)].record.maximumAttempts && c.n >= U32_MAX ==>
              forall t :: Atomic(cfg, c, t) == (Target(cfg, c), None)
  {
    hide ObjectsOf;
    ObjectsAre(cfg, c.store, c.job, c.n);
  }

  /** A listing finished over an unchanged store has found the true tail. */
  lemma ListedIsTail(s: State, c: Terms, g: nat, time: nat)
    requires TermsOk(c) && s.store == c.store && s.clock == c.clock && TailOk(s, c.job, Listed(g, time, c.clock))
    requires forall k :: k in s.store && !k.TailKey? ==> s.store[k].time <= s.clock
    ensures g == c.n && (c.n > 0 ==> time == TimeOf(c.store, c.job, c.n))
  {
    assert g < c.n ==> ClaimAt(c.store, c.job, g + 1);
  }

  /** One page later the listing is still fresh, or has found the tail. */
  lemma PageFinds(cfg: Config, s: State, c: Terms, t: Tail, reply: Reply)
    requires TermsOk(c) && s.store == c.store && s.clock == c.clock && Inv(cfg, s)
    requires ListingOk(t) && TailOk(s, c.job, t) && IsPage(s.store, c.job, t.after, reply)
    ensures var t' := AfterPage(t, reply, s.clock); ListingOk(t') || ListedOk(c, t')
  {
    hide IsPage, Inv;
    InvTimes(cfg, s);
    PageShape(s.store, c.job, t.after, reply);
    PageTail(s, c.job, t, reply);
    var t' := AfterPage(t, reply, s.clock);
    if t'.Listed? {
      ListedIsTail(s, c, t'.generation, t'.time);
    }
  }

  lemma PageShape(store: Store, j: JobId, after: nat, page: Reply)
    requires IsPage(store, j, after, page)
    ensures page.Page? && |page.generations| == |page.times|
    ensures forall i :: 0 <= i < |page.generations| ==> page.generations[i] > 0
  {}

  lemma InvTimes(cfg: Config, s: State)
    requires Inv(cfg, s)
    ensures forall k :: k in s.store && !k.TailKey? ==> s.store[k].time <= s.clock
    ensures forall j, g :: ClaimKey(j, g) in s.store ==> s.store[ClaimKey(j, g)].time <= s.clock
  {}

  lemma InvTail(cfg: Config, s: State, p: Pid)
    requires Inv(cfg, s) && p in s.workers && (s.workers[p].pc.Gather? || s.workers[p].pc.Relist?)
    ensures TailOk(s, s.workers[p].pc.scan.job, s.workers[p].pc.tail)
  {
    assert WorkerOk(cfg, s, p, s.workers[p]);
  }

  /** The tail branch of the gather. */
  lemma TailBranch(cfg: Config, s: State, p: Pid, c: Terms, t: Tail, call: Call, reply: Reply)
    requires TermsOk(c) && s.store == c.store && s.clock == c.clock && Inv(cfg, s)
    requires TailFound(cfg, c, t) && TailOk(s, c.job, t) && TailPending(c.job, t, call) && Answers(s.store, call, reply)
    ensures TailFound(cfg, c, AfterTail(t, reply, s.clock))
  {
    hide Inv, IsPage;
    if t.Listing? {
      PageFinds(cfg, s, c, t, reply);
    } else if t.ReadHinted? && t.generation <= c.n {
      assert ClaimAt(c.store, c.job, t.generation);
    }
  }

  lemma GatherDecides(cfg: Config, s: State, p: Pid, c: Terms, call: Call, reply: Reply, token: Token)
    requires TermsOk(c) && s.store == c.store && s.clock == c.clock && Inv(cfg, s) && p in s.workers
    requires var pc := s.workers[p].pc; pc.Gather? && Deciding(cfg, c, pc) && Pending(pc, call)
    requires Answers(s.store, call, reply)
    ensures Deciding(cfg, c, Resume(cfg, s.workers[p], call, reply, s.now, s.clock, token).pc)
  {
    hide Inv, IsPage, TermsOk, TailFound;
    var pc := s.workers[p].pc;
    var next :=
      if pc.receipt.None? && call == Head(ReceiptKey(c.job))
      then Gather(pc.scan.(guard := s.now), Some(ProbeOf(reply)), pc.dead, pc.tail)
      else if pc.dead.None? && call == Head(DeadKey(c.job))
      then Gather(pc.scan, pc.receipt, Some(ProbeOf(reply)), pc.tail)
      else Gather(pc.scan, pc.receipt, pc.dead, AfterTail(pc.tail, reply, s.clock));
    if TailPending(c.job, pc.tail, call) {
      InvTail(cfg, s, p);
      TailBranch(cfg, s, p, c, pc.tail, call, reply);
    }
    assert Deciding(cfg, c, next);
    GatheredDecides(cfg, c, next);
    assert Resume(cfg, s.workers[p], call, reply, s.now, s.clock, token).pc == Gathered(next);
  }

  lemma RelistDecides(cfg: Config, s: State, p: Pid, c: Terms, call: Call, reply: Reply, token: Token)
    requires TermsOk(c) && s.store == c.store && s.clock == c.clock && Inv(cfg, s) && p in s.workers
    requires var pc := s.workers[p].pc; pc.Relist? && Deciding(cfg, c, pc) && Pending(pc, call)
    requires Answers(s.store, call, reply)
    ensures Deciding(cfg, c, Resume(cfg, s.workers[p], call, reply, s.now, s.clock, token).pc)
  {
    hide Inv, IsPage, ObjectsOf;
    InvTail(cfg, s, p);
    PageFinds(cfg, s, c, s.workers[p].pc.tail, reply);
  }

  lemma TailRecordDecides(cfg: Config, c: Terms, w: Worker, call: Call, reply: Reply, now: nat, clock: nat,
                          token: Token)
    requires TermsOk(c) && w.pc.TailRecord? && Deciding(cfg, c, w.pc) && Pending(w.pc, call)
             && Answers(c.store, call, reply)
    ensures Deciding(cfg, c, Resume(cfg, w, call, reply, now, clock, token).pc)
  {
    hide ObjectsOf;
    assert ClaimAt(c.store, c.job, c.n);
  }

  /** A put on a stale hint finds its key taken and falls back to the listing. */
  lemma StalePutDecides(cfg: Config, c: Terms, w: Worker, call: Call, reply: Reply, now: nat, clock: nat, token: Token)
    requires TermsOk(c) && w.pc.Put? && Deciding(cfg, c, w.pc) && w.pc.key in c.store
    requires Pending(w.pc, call) && Answers(c.store, call, reply)
    ensures Deciding(cfg, c, Resume(cfg, w, call, reply, now, clock, token).pc)
  {
    hide ObjectsOf;
    assert ClaimKey(c.job, c.n + 1) !in c.store;
  }

  /** Resuming touches the handles only at a read-back. */
  lemma HandlesStay(cfg: Config, w: Worker, call: Call, reply: Reply, now: nat, clock: nat, token: Token)
    requires Pending(w.pc, call) && !w.pc.ReadBack?
    ensures Resume(cfg, w, call, reply, now, clock, token).handles == w.handles
    ensures Resume(cfg, w, call, reply, now, clock, token).id == w.id
  {
    hide Raised, SameReceipt, EquivalentReceipt, AfterJob, AfterPut, AfterFail, AfterOutput, Gathered, AfterTail,
         NextOutput;
  }

  /** Until it writes, a claim running alone keeps deciding what is expected of it. */
  lemma ClaimDecides(cfg: Config, s: State, p: Pid, c: Terms, s': State)
    requires TermsOk(c) && s.store == c.store && s.clock == c.clock && Inv(cfg, s) && Solo(cfg, s, p, s')
    requires p in s.workers && Deciding(cfg, c, s.workers[p].pc) && s.workers[p].id == c.id
             && (s.workers[p].pc.Put? ==> s.workers[p].pc.key in s.store)
    ensures s'.store == c.store && s'.clock == c.clock && p in s'.workers && Deciding(cfg, c, s'.workers[p].pc)
    ensures s'.workers[p].handles == s.workers[p].handles && s'.workers[p].id == c.id
  {
    hide Inv, IsPage, Solo, TermsOk, Resume, Refused;
    var call, reply, time, token := SoloStep(cfg, s, p, s');
    var w := s.workers[p];
    HandlesStay(cfg, w, call, reply, s.now, s.clock, token);
    match w.pc
    case Gather(_, _, _, _) => GatherDecides(cfg, s, p, c, call, reply, token);
    case ReadFail(_, _, _) =>
      ReadFailDecides(cfg, s, c, w.pc, reply);
      ResumedReads(cfg, w, call, reply, s.now, s.clock, token);
    case ReadJob(_, _, _) =>
      ReadJobDecides(cfg, c, w.id, w.pc, reply, token);
      ResumedReads(cfg, w, call, reply, s.now, s.clock, token);
    case TailRecord(_, _, _, _) => TailRecordDecides(cfg, c, w, call, reply, s.now, s.clock, token);
    case Relist(_, _) => RelistDecides(cfg, s, p, c, call, reply, token);
    case Put(_, _, _, _, _) => StalePutDecides(cfg, c, w, call, reply, s.now, s.clock, token);
    case _ =>
  }

  lemma ResumedReads(cfg: Config, w: Worker, call: Call, reply: Reply, now: nat, clock: nat, token: Token)
    requires Pending(w.pc, call)
    ensures w.pc.ReadFail? ==> Resume(cfg, w, call, reply, now, clock, token).pc == AfterFail(cfg, w.pc, reply)
    ensures w.pc.ReadJob? ==> Resume(cfg, w, call, reply, now, clock, token).pc == AfterJob(w.id, w.pc, reply, token)
  {}

  // ---------- The write and the read-back ----------

  /** The claim is written and its store time is still to be read. */
  ghost predicate ReadingBack(cfg: Config, c: Terms, s: State, pc: Pc, t: nat)
    requires TermsOk(c)
  {
    && pc.ReadBack? && pc.claim == Granted(c, pc.claim.attempt, pc.claim.token) && c.n + 1 <= U32_MAX
    && pc.payload == c.store[JobKey(c.job)].record.payload
    && s.store == c.store[ClaimKey(c.job, c.n + 1) := Object(Claim(pc.claim), t)]
    && Expected(cfg, c, t) == (Extended(cfg, c, pc.claim, t), Some((c.n + 1, pc.claim.attempt)))
  }

  lemma ClaimWrites(cfg: Config, s: State, p: Pid, c: Terms, s': State)
    requires TermsOk(c) && s.store == c.store && Solo(cfg, s, p, s') && p in s.workers
             && s.workers[p].handles == c.handles
    requires Deciding(cfg, c, s.workers[p].pc) && s.workers[p].pc.Put? && s.workers[p].pc.key !in s.store
    ensures p in s'.workers && s'.workers[p].handles == c.handles
    ensures (exists t :: ReadingBack(cfg, c, s', s'.workers[p].pc, t))
         || (s'.workers[p].pc.Idle? && Ended(cfg, c, s'.store, s'.workers[p].handles))
  {
    hide Solo, ObjectsOf;
    var call, reply, time, token := SoloStep(cfg, s, p, s');
    var pc := s.workers[p].pc;
    assert call == PutIfAbsent(pc.key, pc.record) && reply == Committed;
    if pc.purpose.ForClaim? {
      assert pc.key.generation > c.n by {
        assert 1 <= pc.key.generation <= c.n ==> ClaimAt(c.store, c.job, pc.key.generation);
      }
      assert ReadingBack(cfg, c, s', s'.workers[p].pc, time);
    } else {
      DeadAdded(cfg, c.store, c.job, c.n, pc.record, time);
      EndedBy(cfg, c, s'.store, c.handles, time, c.n);
    }
  }

  lemma ClaimReadsBack(cfg: Config, s: State, p: Pid, c: Terms, s': State, t: nat)
    requires TermsOk(c) && Solo(cfg, s, p, s') && p in s.workers && s.workers[p].handles == c.handles
    requires ReadingBack(cfg, c, s, s.workers[p].pc, t)
    ensures p in s'.workers && s'.workers[p].pc.Idle? && Ended(cfg, c, s'.store, s'.workers[p].handles)
  {
    hide Solo, ObjectsOf;
    var call, reply, time, token := SoloStep(cfg, s, p, s');
    var pc := s.workers[p].pc;
    var r := pc.claim;
    assert reply == Meta(t);
    var h := Handle(r.job, r.generation, r.attempt, r.token, r.lease, t, pc.payload);
    assert s'.workers[p].handles == c.handles + {h};
    ClaimAdded(cfg, c.store, c.job, c.n, r, t);
    EndedBy(cfg, c, s'.store, s'.workers[p].handles, t, c.n + 1);
  }

  /** Where a claim running alone can stand. */
  ghost predicate Progress(cfg: Config, c: Terms, s: State, p: Pid)
    requires TermsOk(c)
  {
    && p in s.workers
    && ((s.store == c.store && s.clock == c.clock && s.workers[p].handles == c.handles && s.workers[p].id == c.id
         && Deciding(cfg, c, s.workers[p].pc))
        || (s.workers[p].handles == c.handles && exists t :: ReadingBack(cfg, c, s, s.workers[p].pc, t))
        || (s.workers[p].pc.Idle? && Ended(cfg, c, s.store, s.workers[p].handles)))
  }

  lemma ClaimProgresses1(cfg: Config, s: State, p: Pid, c: Terms, s': State)
    requires TermsOk(c) && Inv(cfg, s) && Progress(cfg, c, s, p) && Solo(cfg, s, p, s')
    ensures Progress(cfg, c, s', p)
  {
    hide Inv, Solo, Ended, Deciding, TermsOk, ReadingBack;
    if s.workers[p].pc.Idle? {
      IdleIsDone(cfg, s, p, s');
    } else if t :| s.workers[p].handles == c.handles && ReadingBack(cfg, c, s, s.workers[p].pc, t) {
      ClaimReadsBack(cfg, s, p, c, s', t);
    } else if s.workers[p].pc.Put? && s.workers[p].pc.key !in s.store {
      ClaimWrites(cfg, s, p, c, s');
    } else {
      ClaimDecides(cfg, s, p, c, s');
    }
  }

  lemma IdleIsDone(cfg: Config, s: State, p: Pid, s': State)
    requires Solo(cfg, s, p, s') && p in s.workers
    ensures !s.workers[p].pc.Idle?
  {
    hide Solo;
    var call, reply, time, token := SoloStep(cfg, s, p, s');
  }

  lemma {:induction false} ClaimProgresses(cfg: Config, states: seq<State>, p: Pid, c: Terms, i: nat)
    requires TermsOk(c) && SoloRun(cfg, states, p) && Inv(cfg, states[0]) && Progress(cfg, c, states[0], p)
             && i < |states|
    ensures Inv(cfg, states[i]) && Progress(cfg, c, states[i], p)
  {
    hide Inv, Solo, Progress, TermsOk;
    if i > 0 {
      ClaimProgresses(cfg, states, p, c, i - 1);
      assert Solo(cfg, states[i - 1], p, states[i - 1 + 1]);
      SoloKeepsInv(cfg, states[i - 1], p, states[i]);
      ClaimProgresses1(cfg, states[i - 1], p, c, states[i]);
    }
  }

  lemma StartDecides(cfg: Config, c: Terms)
    requires TermsOk(c)
    ensures Deciding(cfg, c, Started(cfg, TryClaim(c.job, c.floor, c.lease)))
  {}

  /** A claim of an enqueued job that runs alone and without faults, whatever the tail hint, ends
      with the job's objects as the atomic claim leaves them and with the handle it grants, at the
      store time of its write; only a hint to a generation whose fail record is not over refuses it. */
  lemma ClaimIsAtomic(cfg: Config, states: seq<State>, p: Pid, j: JobId, n: nat, floor: nat, lease: nat)
    requires SoloRun(cfg, states, p) && Inv(cfg, states[0]) && Chain(states[0].store, j, n)
    requires p in states[0].workers && states[0].workers[p].pc == Started(cfg, TryClaim(j, floor, lease))
    requires var last := states[|states| - 1]; p in last.workers && last.workers[p].pc == Idle
    ensures var last := states[|states| - 1];
            var c := Terms(states[0].store, states[0].clock, j, n, floor, lease, states[0].workers[p].handles,
                           states[0].workers[p].id);
            Ended(cfg, c, last.store, last.workers[p].handles)
  {
    hide Inv;
    var c := Terms(states[0].store, states[0].clock, j, n, floor, lease, states[0].workers[p].handles,
                           states[0].workers[p].id);
    StartDecides(cfg, c);
    ClaimProgresses(cfg, states, p, c, |states| - 1);
    var last := states[|states| - 1];
    if last.store == c.store && last.workers[p].handles == c.handles && Deciding(cfg, c, last.workers[p].pc) {
      assert Expected(cfg, c, 0) == (Target(cfg, c), None);
      EndedBy(cfg, c, last.store, c.handles, 0, n);
    }
  }
}
