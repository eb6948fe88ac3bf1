/** Where everything in the store comes from. In every run, under every interleaving and fault, each
    stored object is exactly the one that some worker was asked to write, every handle carries the
    payload its job was enqueued with, and every receipt speaks for its claim and its job. */
module ProtocolOrigins {
  import opened Wrappers
  import opened Protocol
  import opened ProtocolInvariant
  import opened ProtocolPreservation
  import opened ProtocolRuns

  // ---------- What an operation may write ----------

  /** The object that operation `op` of a worker with this id may write, in all its fields. A claim's
      generation, attempt and evidence come from the chain, the rest from the request. */
  ghost predicate From(op: Operation, id: nat, k: Key, r: Record) {
    match op
    case EstablishFloor => k.BeaconKey? && r == Beacon
    case Enqueue(j, max, nb, payload) => k == JobKey(j) && r == Job(j, max, nb, payload)
    case TryClaim(j, floor, lease) =>
      || (k == DeadKey(j) && r.Dead? && r == Dead(j, r.generation, r.attempt, ATTEMPTS_EXHAUSTED))
      || (k.ClaimKey? && r.Claim? && r.claim.basis.Some?
          && var c, b := r.claim, r.claim.basis.value;
          && k == ClaimKey(j, c.generation)
          && c == ClaimRecord(j, c.generation, c.attempt, id, c.token, lease, false,
                              Some(Basis(b.prevTime, b.prevDuration, floor)), None))
    case Renew(h) =>
      && k == ClaimKey(h.job, h.generation + 1)
      && r == Claim(ClaimRecord(h.job, h.generation + 1, h.attempt, id, h.token, h.lease, true, None, Some(h.token)))
    case CommitOutput(h, name, body) => k == OutputKey(h.job, name) && r == Output(body)
    case Acknowledge(h, o) =>
      k == ReceiptKey(h.job) && r == Receipt(h.job, h.generation, h.attempt, id, h.token, h.payload, Digests(o))
    case Nack(h, reason, until) =>
      k == FailKey(h.job, h.generation) && r == Fail(h.job, h.generation, h.attempt, reason, until)
    case Bury(h, reason) => k == DeadKey(h.job) && r == Dead(h.job, h.generation, h.attempt, reason)
  }

  ghost predicate PurposeFrom(op: Operation, purpose: Purpose) {
    match purpose
    case ForEnqueue => op.Enqueue?
    case ForClaim(sc, _, _) => op == TryClaim(sc.job, sc.floor, sc.lease)
    case ForRenewal(h) => op == Renew(h)
    case ForExhaustion(_) => op.TryClaim?
    case ForReceipt(h, o) => op == Acknowledge(h, o)
    case ForFail => op.Nack?
    case ForBurial(h) => op.Bury? && op.handle == h
  }

  /** The program counter is at work on this operation. */
  ghost predicate PcFrom(op: Operation, id: nat, pc: Pc) {
    match pc
    case Idle => true
    case EnqueueCompare(k, r) => op.Enqueue? && From(op, id, k, r)
    case FloorPut => op.EstablishFloor?
    case FloorHead(_) => op.EstablishFloor?
    case FloorGate(_) => op.EstablishFloor?
    case Gather(sc, _, _, _) => op == TryClaim(sc.job, sc.floor, sc.lease)
    case TailRecord(sc, _, _, _) => op == TryClaim(sc.job, sc.floor, sc.lease)
    case ReadFail(sc, _, _) => op == TryClaim(sc.job, sc.floor, sc.lease)
    case ReadJob(sc, _, _) => op == TryClaim(sc.job, sc.floor, sc.lease)
    case Relist(sc, _) => op == TryClaim(sc.job, sc.floor, sc.lease)
    case RenewReceipt(h) => op == Renew(h)
    case RenewDead(h) => op == Renew(h)
    case CommitPut(h, n, b) => op == CommitOutput(h, n, b)
    case CommitRead(h, n, b) => op == CommitOutput(h, n, b)
    case AckDead(h, o) => op == Acknowledge(h, o)
    case AckOutput(h, o, _, _) => op == Acknowledge(h, o)
    case AckCompare(h, o) => op == Acknowledge(h, o)
    case AckEquivalent(h, o) => op == Acknowledge(h, o)
    case BuryReceipt(h, reason) => op == Bury(h, reason)
    case BuryCompare(h) => op.Bury? && op.handle == h
    case Put(k, r, purpose, _, _) => From(op, id, k, r) && PurposeFrom(op, purpose)
    case ReadBack(c, _) => From(op, id, ClaimKey(c.job, c.generation), Claim(c))
  }

  // ---------- One step ----------

  lemma StartIsFrom(cfg: Config, id: nat, op: Operation)
    ensures PcFrom(op, id, Started(cfg, op))
  {}

  lemma GatheredIsFrom(op: Operation, id: nat, pc: Pc)
    requires pc.Gather? && PcFrom(op, id, pc)
    ensures PcFrom(op, id, Gathered(pc))
  {}

  lemma PutIsFrom(op: Operation, id: nat, pc: Pc, reply: Reply)
    requires pc.Put? && PcFrom(op, id, pc)
    ensures PcFrom(op, id, AfterPut(pc, reply))
  {}

  lemma JobIsFrom(op: Operation, id: nat, pc: Pc, reply: Reply, token: Token)
    requires pc.ReadJob? && PcFrom(op, id, pc)
    ensures PcFrom(op, id, AfterJob(id, pc, reply, token))
  {}

  /** Claims. */
  lemma ScanIsFrom(cfg: Config, op: Operation, w: Worker, call: Call, reply: Reply, now: nat, clock: nat, token: Token)
    requires Pending(w.pc, call) && PcFrom(op, w.id, w.pc)
    requires w.pc.Gather? || w.pc.TailRecord? || w.pc.ReadFail? || w.pc.ReadJob? || w.pc.Relist?
    ensures PcFrom(op, w.id, Resume(cfg, w, call, reply, now, clock, token).pc)
  {
    hide From, AfterJob, Gathered, AfterTail, Expired;
    match w.pc
    case Gather(sc, r, d, t) =>
      GatheredIsFrom(op, w.id, Gather(sc.(guard := now), Some(ProbeOf(reply)), d, t));
      GatheredIsFrom(op, w.id, Gather(sc, r, Some(ProbeOf(reply)), t));
      GatheredIsFrom(op, w.id, Gather(sc, r, d, AfterTail(t, reply, clock)));
    case ReadJob(_, _, _) => JobIsFrom(op, w.id, w.pc, reply, token);
    case _ =>
  }

  /** Renewals, acknowledgments and burials up to their write. */
  lemma GuardIsFrom(cfg: Config, op: Operation, w: Worker, call: Call, reply: Reply, now: nat, clock: nat, token: Token)
    requires Pending(w.pc, call) && PcFrom(op, w.id, w.pc)
    requires w.pc.RenewReceipt? || w.pc.RenewDead? || w.pc.AckDead? || w.pc.AckOutput? || w.pc.BuryReceipt?
    ensures PcFrom(op, w.id, Resume(cfg, w, call, reply, now, clock, token).pc)
  {}

  lemma PlainIsFrom(cfg: Config, op: Operation, w: Worker, call: Call, reply: Reply, now: nat, clock: nat, token: Token)
    requires Pending(w.pc, call) && PcFrom(op, w.id, w.pc)
    requires || w.pc.FloorPut? || w.pc.FloorHead? || w.pc.FloorGate? || w.pc.CommitPut? || w.pc.CommitRead?
             || w.pc.AckCompare? || w.pc.AckEquivalent? || w.pc.BuryCompare? || w.pc.EnqueueCompare? || w.pc.ReadBack?
    ensures PcFrom(op, w.id, Resume(cfg, w, call, reply, now, clock, token).pc)
  {
    hide From, Raised, SameReceipt;
  }

  /** A reply keeps the worker at work on its operation. */
  lemma ResumeIsFrom(cfg: Config, op: Operation, w: Worker, call: Call, reply: Reply, now: nat, clock: nat,
                     token: Token)
    requires Pending(w.pc, call) && PcFrom(op, w.id, w.pc)
    ensures PcFrom(op, w.id, Resume(cfg, w, call, reply, now, clock, token).pc)
  {
    hide PcFrom, Pending;
    if w.pc.Gather? || w.pc.TailRecord? || w.pc.ReadFail? || w.pc.ReadJob? || w.pc.Relist? {
      ScanIsFrom(cfg, op, w, call, reply, now, clock, token);
    } else if w.pc.RenewReceipt? || w.pc.RenewDead? || w.pc.AckDead? || w.pc.AckOutput? || w.pc.BuryReceipt? {
      GuardIsFrom(cfg, op, w, call, reply, now, clock, token);
    } else if w.pc.Put? {
      PutIsFrom(op, w.id, w.pc, reply);
    } else if !w.pc.Idle? {
      PlainIsFrom(cfg, op, w, call, reply, now, clock, token);
    }
  }

  /** What it writes is of its operation. */
  lemma WriteIsFrom(op: Operation, id: nat, pc: Pc, k: Key, r: Record)
    requires Pending(pc, PutIfAbsent(k, r)) && PcFrom(op, id, pc)
    ensures From(op, id, k, r)
  {}

  // ---------- Whole runs ----------

  /** At step `i` worker `p` was asked for `op`: it was idle, and held the handle or the floor. */
  ghost predicate AskedAt(cfg: Config, states: seq<State>, i: nat, p: Pid, op: Operation) {
    && i + 1 < |states| && p in states[i].workers && Startable(states[i].workers[p], op)
    && Step(cfg, states[i], Start(p, op), states[i + 1])
  }

  ghost predicate Asked(cfg: Config, states: seq<State>, k: nat, p: Pid, op: Operation) {
    exists i :: 0 <= i < k && AskedAt(cfg, states, i, p, op)
  }

  ghost predicate PcAsked(cfg: Config, states: seq<State>, k: nat, p: Pid, w: Worker) {
    w.pc.Idle? || exists op :: Asked(cfg, states, k, p, op) && PcFrom(op, w.id, w.pc)
  }

  ghost predicate ObjectAsked(cfg: Config, states: seq<State>, k: nat, key: Key, r: Record)
    requires k < |states|
  {
    exists p, op :: Asked(cfg, states, k, p, op) && p in states[k].workers && From(op, states[k].workers[p].id, key, r)
  }

  ghost predicate AllAsked(cfg: Config, states: seq<State>, k: nat)
    requires k < |states|
  {
    && (forall p :: p in states[k].workers ==> PcAsked(cfg, states, k, p, states[k].workers[p]))
    && (forall key :: key in states[k].store && !key.TailKey? ==>
          ObjectAsked(cfg, states, k, key, states[k].store[key].record))
  }

  lemma AskedStays(cfg: Config, states: seq<State>, k: nat, p: Pid, op: Operation)
    requires Asked(cfg, states, k, p, op)
    ensures Asked(cfg, states, k + 1, p, op)
  {
    hide AskedAt;
  }

  lemma ObjectStays(cfg: Config, states: seq<State>, k: nat, key: Key, r: Record)
    requires k + 1 < |states| && ObjectAsked(cfg, states, k, key, r) && Grows(states[k], states[k + 1])
    ensures ObjectAsked(cfg, states, k + 1, key, r)
  {
    hide Asked, From;
    var p, op :| Asked(cfg, states, k, p, op) && p in states[k].workers && From(op, states[k].workers[p].id, key, r);
    AskedStays(cfg, states, k, p, op);
  }

  lemma PcStaysAsked(cfg: Config, states: seq<State>, k: nat, p: Pid, w: Worker)
    requires PcAsked(cfg, states, k, p, w)
    ensures PcAsked(cfg, states, k + 1, p, w)
  {
    hide Asked, PcFrom;
    if !w.pc.Idle? {
      var op :| Asked(cfg, states, k, p, op) && PcFrom(op, w.id, w.pc);
      AskedStays(cfg, states, k, p, op);
    }
  }

  /** Serving a call: the acting worker stays with its operation, and a write is of it. */
  lemma ServeAsks(cfg: Config, states: seq<State>, k: nat, a: Action)
    requires k + 1 < |states| && AllAsked(cfg, states, k) && Grows(states[k], states[k + 1])
    requires a.Serve? && Serves(cfg, states[k], a, states[k + 1])
    ensures AllAsked(cfg, states, k + 1)
  {
    hide Asked, PcFrom, From, Pending, Resume, Completes, Answers, ObjectAsked;
    var s, s' := states[k], states[k + 1];
    var w, reply := s.workers[a.pid], Delivered(a.fault, a.reply);
    assert PcAsked(cfg, states, k, a.pid, w);
    PendingIsBusy(w.pc, a.call);
    var op :| Asked(cfg, states, k, a.pid, op) && PcFrom(op, w.id, w.pc);
    AskedStays(cfg, states, k, a.pid, op);
    ResumeIsFrom(cfg, op, w, a.call, reply, s.now, s.clock, a.token);
    ResumedId(cfg, w, a.call, reply, s.now, s.clock, a.token);
    forall p | p in s'.workers ensures PcAsked(cfg, states, k + 1, p, s'.workers[p]) {
      if p != a.pid {
        PcStaysAsked(cfg, states, k, p, s.workers[p]);
      }
    }
    forall key | key in s'.store && !key.TailKey?
      ensures ObjectAsked(cfg, states, k + 1, key, s'.store[key].record)
    {
      if key in s.store {
        ObjectStays(cfg, states, k, key, s.store[key].record);
      } else {
        WriteIsFrom(op, w.id, w.pc, a.call.key, a.call.record);
        WroteAsked(cfg, states, k + 1, a.pid, op, key, s'.store[key].record);
      }
    }
  }

  lemma WroteAsked(cfg: Config, states: seq<State>, k: nat, p: Pid, op: Operation, key: Key, r: Record)
    requires k < |states| && Asked(cfg, states, k, p, op)
    requires p in states[k].workers && From(op, states[k].workers[p].id, key, r)
    ensures ObjectAsked(cfg, states, k, key, r)
  {}

  lemma PendingIsBusy(pc: Pc, call: Call)
    requires Pending(pc, call)
    ensures !pc.Idle?
  {}

  lemma ResumedId(cfg: Config, w: Worker, call: Call, reply: Reply, now: nat, clock: nat, token: Token)
    requires Pending(w.pc, call)
    ensures Resume(cfg, w, call, reply, now, clock, token).id == w.id
  {
    hide Raised, SameReceipt, AfterJob, AfterPut, AfterFail, AfterOutput, Gathered, AfterTail, NextOutput;
  }

  lemma QuietAsks(cfg: Config, states: seq<State>, k: nat, a: Action)
    requires k + 1 < |states| && AllAsked(cfg, states, k) && Grows(states[k], states[k + 1])
    requires !a.Serve? && Step(cfg, states[k], a, states[k + 1])
    ensures AllAsked(cfg, states, k + 1)
  {
    hide PcFrom, From, ObjectAsked, Started;
    var s, s' := states[k], states[k + 1];
    forall p | p in s'.workers ensures PcAsked(cfg, states, k + 1, p, s'.workers[p]) {
      if a.Start? && a.pid == p {
        StartIsFrom(cfg, s.workers[p].id, a.op);
        assert AskedAt(cfg, states, k, p, a.op);
      } else if p in s.workers {
        PcStaysAsked(cfg, states, k, p, s.workers[p]);
      }
    }
    forall key | key in s'.store && !key.TailKey?
      ensures ObjectAsked(cfg, states, k + 1, key, s'.store[key].record)
    {
      ObjectStays(cfg, states, k, key, s.store[key].record);
    }
  }

  lemma {:induction false} RunAsks(cfg: Config, states: seq<State>, k: nat)
    requires Run(cfg, states) && k < |states|
    ensures Inv(cfg, states[k]) && AllAsked(cfg, states, k)
  {
    hide Inv, Step, AllAsked;
    RunKeepsInv(cfg, states, k);
    if k == 0 {
      NothingAsked(cfg, states);
    } else {
      RunAsks(cfg, states, k - 1);
      assert Next(cfg, states[k - 1], states[k - 1 + 1]);
      var a :| Step(cfg, states[k - 1], a, states[k]);
      StepAsks(cfg, states, k - 1, a);
    }
  }

  lemma StepAsks(cfg: Config, states: seq<State>, k: nat, a: Action)
    requires k + 1 < |states| && Inv(cfg, states[k]) && AllAsked(cfg, states, k)
    requires Step(cfg, states[k], a, states[k + 1])
    ensures AllAsked(cfg, states, k + 1)
  {
    hide AllAsked, Serves;
    if a.Serve? {
      ServeGrows(cfg, states[k], a, states[k + 1]);
      ServeAsks(cfg, states, k, a);
    } else {
      QuietGrows(cfg, states[k], a, states[k + 1]);
      QuietAsks(cfg, states, k, a);
    }
  }

  lemma NothingAsked(cfg: Config, states: seq<State>)
    requires states != [] && Init(states[0])
    ensures AllAsked(cfg, states, 0)
  {}

  /** In every run, every stored object other than a hint is, in all its fields, what some worker was
      asked to write before. */
  lemma ObjectsWereAskedFor(cfg: Config, states: seq<State>, k: nat, key: Key) returns (i: nat, p: Pid, op: Operation)
    requires Run(cfg, states) && k < |states| && key in states[k].store && !key.TailKey?
    ensures i < k && AskedAt(cfg, states, i, p, op)
    ensures p in states[k].workers && From(op, states[k].workers[p].id, key, states[k].store[key].record)
  {
    hide Inv, From, AskedAt;
    RunAsks(cfg, states, k);
    assert ObjectAsked(cfg, states, k, key, states[k].store[key].record);
    p, op :| Asked(cfg, states, k, p, op) && p in states[k].workers
             && From(op, states[k].workers[p].id, key, states[k].store[key].record);
    i :| 0 <= i < k && AskedAt(cfg, states, i, p, op);
  }

  // ---------- Payloads ----------

  predicate PayloadIs(store: Store, j: JobId, payload: Digest) {
    JobKey(j) in store && store[JobKey(j)].record.Job? && store[JobKey(j)].record.payload == payload
  }

  /** The payload on its way into a handle is the job's. */
  predicate PcPays(store: Store, pc: Pc) {
    match pc
    case RenewReceipt(h) => PayloadIs(store, h.job, h.payload)
    case RenewDead(h) => PayloadIs(store, h.job, h.payload)
    case Put(_, r, ForClaim(_, _, payload), _, _) => r.Claim? && PayloadIs(store, r.claim.job, payload)
    case Put(_, r, ForRenewal(h), _, _) => r.Claim? && r.claim.job == h.job && PayloadIs(store, h.job, h.payload)
    case ReadBack(c, payload) => PayloadIs(store, c.job, payload)
    case _ => true
  }

  ghost predicate WorkerPays(store: Store, w: Worker) {
    PcPays(store, w.pc) && forall h :: h in w.handles ==> PayloadIs(store, h.job, h.payload)
  }

  ghost predicate Pays(s: State) {
    forall p :: p in s.workers ==> WorkerPays(s.store, s.workers[p])
  }

  lemma WorkerKeepsPaying(s: State, s': State, w: Worker)
    requires Grows(s, s') && WorkerPays(s.store, w)
    ensures WorkerPays(s'.store, w)
  {}

  lemma GatheredPays(store: Store, pc: Pc)
    requires pc.Gather?
    ensures PcPays(store, Gathered(pc))
  {}

  lemma ResumePays(cfg: Config, s: State, w: Worker, call: Call, reply: Reply, now: nat, clock: nat, token: Token)
    requires Pending(w.pc, call) && Truthful(s, call, reply) && WorkerPays(s.store, w)
    ensures WorkerPays(s.store, Resume(cfg, w, call, reply, now, clock, token))
  {
    hide Raised, SameReceipt, AfterTail, AfterFail, AfterOutput, NextOutput, Gathered, AfterPut, AfterJob;
    match w.pc
    case Gather(sc, r, d, t) =>
      GatheredPays(s.store, Gather(sc.(guard := now), Some(ProbeOf(reply)), d, t));
      GatheredPays(s.store, Gather(sc, r, Some(ProbeOf(reply)), t));
      GatheredPays(s.store, Gather(sc, r, d, AfterTail(t, reply, clock)));
    case ReadFail(_, _, _) => FailPays(cfg, s.store, w.pc, reply);
    case ReadJob(_, _, _) => JobPays(s, w.id, w.pc, reply, token);
    case Put(_, _, _, _, _) => PutPays(s.store, w.pc, reply);
    case AckDead(h, o) => OutputPays(s.store, w.id, h, o, 0, now);
    case AckOutput(h, o, i, guard) => AfterOutputPays(cfg, s.store, w, reply);
    case _ =>
  }

  lemma JobPays(s: State, id: nat, pc: Pc, reply: Reply, token: Token)
    requires pc.ReadJob? && Truthful(s, Get(JobKey(pc.scan.job)), reply)
    ensures PcPays(s.store, AfterJob(id, pc, reply, token))
  {}

  lemma PutPays(store: Store, pc: Pc, reply: Reply)
    requires pc.Put? && PcPays(store, pc)
    ensures PcPays(store, AfterPut(pc, reply))
  {}

  lemma FailPays(cfg: Config, store: Store, pc: Pc, reply: Reply)
    requires pc.ReadFail?
    ensures PcPays(store, AfterFail(cfg, pc, reply))
  {}

  lemma OutputPays(store: Store, id: nat, h: Handle, o: seq<CommittedOutput>, i: nat, guard: nat)
    ensures PcPays(store, NextOutput(id, h, o, i, guard))
  {}

  lemma AfterOutputPays(cfg: Config, store: Store, w: Worker, reply: Reply)
    requires w.pc.AckOutput?
    ensures PcPays(store, AfterOutput(cfg, w.id, w.pc, reply))
  {}

  lemma StepPays(cfg: Config, s: State, a: Action, s': State)
    requires Step(cfg, s, a, s') && Grows(s, s') && Pays(s)
    ensures Pays(s')
  {
    hide Pending, Resume, Completes, Answers, WorkerPays, Truthful;
    forall p | p in s'.workers ensures WorkerPays(s'.store, s'.workers[p]) {
      if p in s.workers {
        WorkerKeepsPaying(s, s', s.workers[p]);
        if a.Serve? && p == a.pid {
          ServeIsTruthful(cfg, s, a, s');
          ResumePays(cfg, s', s.workers[p], a.call, Delivered(a.fault, a.reply), s.now, s.clock, a.token);
        } else if s'.workers[p] != s.workers[p] {
          QuietPays(cfg, s'.store, s.workers[p], a, s'.workers[p]);
        }
      } else {
        NewcomerPays(s'.store, s'.workers[p]);
      }
    }
  }

  lemma QuietPays(cfg: Config, store: Store, w: Worker, a: Action, w': Worker)
    requires WorkerPays(store, w)
    requires w' == w.(pc := Idle) || (a.Start? && Startable(w, a.op) && w' == w.(pc := Started(cfg, a.op)))
    ensures WorkerPays(store, w')
  {}

  lemma NewcomerPays(store: Store, w: Worker)
    requires w.pc.Idle? && w.handles == {}
    ensures WorkerPays(store, w)
  {}

  lemma {:induction false} RunPays(cfg: Config, states: seq<State>, k: nat)
    requires Run(cfg, states) && k < |states|
    ensures Pays(states[k])
  {
    hide Inv, Step, WorkerPays;
    if k > 0 {
      RunPays(cfg, states, k - 1);
      var a := StepGrows(cfg, states, k - 1);
      StepPays(cfg, states[k - 1], a, states[k]);
    }
  }

  lemma StepGrows(cfg: Config, states: seq<State>, k: nat) returns (a: Action)
    requires Run(cfg, states) && k + 1 < |states|
    ensures Step(cfg, states[k], a, states[k + 1]) && Grows(states[k], states[k + 1])
  {
    RunKeepsInv(cfg, states, k);
    assert Next(cfg, states[k], states[k + 1]);
    a :| Step(cfg, states[k], a, states[k + 1]);
    if a.Serve? {
      ServeGrows(cfg, states[k], a, states[k + 1]);
    } else {
      QuietGrows(cfg, states[k], a, states[k + 1]);
    }
  }

  /** In every run every handle carries the payload its job was enqueued with. */
  lemma HandlesCarryThePayload(cfg: Config, states: seq<State>, k: nat, p: Pid, h: Handle)
    requires Run(cfg, states) && k < |states| && p in states[k].workers && h in states[k].workers[p].handles
    ensures PayloadIs(states[k].store, h.job, h.payload)
  {
    RunPays(cfg, states, k);
    assert WorkerPays(states[k].store, states[k].workers[p]);
  }

  // ---------- Receipts ----------

  /** Objects and worker ids last. */
  lemma {:induction false} RunLasts(cfg: Config, states: seq<State>, i: nat, k: nat)
    requires Run(cfg, states) && i <= k < |states|
    ensures forall key :: key in states[i].store && !key.TailKey? ==>
              key in states[k].store && states[k].store[key] == states[i].store[key]
    ensures forall p :: p in states[i].workers ==>
              p in states[k].workers && states[k].workers[p].id == states[i].workers[p].id
    decreases k
  {
    if i < k {
      RunLasts(cfg, states, i, k - 1);
      var _ := StepGrows(cfg, states, k - 1);
    }
  }

  /** In every run a receipt names a stored claim with its attempt, worker and token, and the payload
      its job was enqueued with. */
  lemma ReceiptsSpeakForTheirClaim(cfg: Config, states: seq<State>, k: nat, j: JobId)
    requires Run(cfg, states) && k < |states| && ReceiptKey(j) in states[k].store
    ensures var store := states[k].store;
            var r := store[ReceiptKey(j)].record;
            && r.Receipt? && r.job == j && PayloadIs(store, j, r.payload) && ClaimAt(store, j, r.generation)
            && var c := ClaimOf(store, j, r.generation);
            c.attempt == r.attempt && c.workerId == r.workerId && c.token == r.token
  {
    hide Inv, Step;
    var i, p, op := ObjectsWereAskedFor(cfg, states, k, ReceiptKey(j));
    var h := op.handle;
    HandlesCarryThePayload(cfg, states, i, p, h);
    HeldIsOk(cfg, states, i, p, h);
    RunLasts(cfg, states, i, k);
  }

  lemma HeldIsOk(cfg: Config, states: seq<State>, i: nat, p: Pid, h: Handle)
    requires Run(cfg, states) && i < |states| && p in states[i].workers && h in states[i].workers[p].handles
    ensures HandleOk(states[i], p, h)
  {
    RunKeepsInv(cfg, states, i);
    assert WorkerOk(cfg, states[i], p, states[i].workers[p]);
  }
}
