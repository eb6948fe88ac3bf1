/** A holder's renewal, output commit, acknowledgment, nack or burial run to completion without
    faults or interference is the atomic operation of `OracleRefinement`: the same objects, the same
    renewed handle, the same delivery and the same outcome. The holder may be of any generation. */
module ProtocolHolders {
  import opened Wrappers
  import opened Protocol
  import opened ProtocolInvariant
  import opened JobObjects
  import A = OracleRefinement

  // ---------- What the operation should do ----------

  /** What a holder starts from: the store with tail `n`, its handle and operation, what it holds and
      was told delivered so far, and its id. */
  datatype Holding = Holding(store: Store, n: nat, h: Handle, op: Operation, handles: set<Handle>,
                             delivered: set<Delivery>, id: nat)

  ghost predicate HoldingOk(c: Holding) {
    && Chain(c.store, c.h.job, c.n) && 1 <= c.h.generation <= c.n
    && StoredAt(c.store, c.h.job, c.h.generation).attempt == c.h.attempt
    && StoredAt(c.store, c.h.job, c.h.generation).lease == c.h.lease
    && (c.op.Renew? || c.op.CommitOutput? || c.op.Acknowledge? || c.op.Nack? || c.op.Bury?) && c.op.handle == c.h
    && (c.op.Renew? ==> c.h.generation < U32_MAX)
  }

  ghost function Held(cfg: Config, c: Holding): A.Objects
    requires HoldingOk(c)
  {
    ObjectsOf(cfg, c.store, c.h.job, c.n)
  }

  lemma HeldIs(cfg: Config, c: Holding)
    requires HoldingOk(c)
    ensures var o := Held(cfg, c);
            && |o.claims| == c.n && A.Issued(o, c.h.generation)
            && o.claims[c.h.generation - 1] == StoredAt(c.store, c.h.job, c.h.generation)
            && (c.h.generation in o.fails <==> FailKey(c.h.job, c.h.generation) in c.store)
            && (A.Terminated(o) <==> ReceiptKey(c.h.job) in c.store || DeadKey(c.h.job) in c.store)
            && (o.receipt.Some? <==> ReceiptKey(c.h.job) in c.store) && (o.dead.Some? <==> DeadKey(c.h.job) in c.store)
            && (forall name :: name in o.outputs <==> OutputKey(c.h.job, name) in c.store)
            && (forall name :: name in o.outputs ==>
                  o.outputs[name] == cfg.sha(c.store[OutputKey(c.h.job, name)].record.body))
  {
    ObjectsAre(cfg, c.store, c.h.job, c.n);
  }

  /** The atomic operation, had its write got store time `t`. */
  ghost function Expected(cfg: Config, c: Holding, t: nat): (A.Objects, bool)
    requires HoldingOk(c)
  {
    var o := Held(cfg, c);
    HeldIs(cfg, c);
    match c.op
    case Renew(h) => A.Renewing(o, h.generation, t)
    case CommitOutput(_, name, body) => A.Committing(o, name, cfg.sha(body))
    case Acknowledge(h, outputs) => A.Acking(o, h.job, h.generation, h.payload, outputs)
    case Nack(h, _, until) => A.Nacking(o, h.generation, until)
    case Bury(h, reason) => A.Burying(o, h.generation, reason)
    case _ => (o, false)
  }

  /** An acknowledgment reports the delivery when it wrote the receipt or the receipt there is of the
      same completed state. */
  ghost predicate Delivers(cfg: Config, c: Holding)
    requires HoldingOk(c) && c.op.Acknowledge?
  {
    var o := Held(cfg, c);
    && o.dead.None? && A.Backed(o, c.h.job, c.op.outputs)
    && (o.receipt.Some? ==> o.receipt.value.payload == c.h.payload && o.receipt.value.outputs == Digests(c.op.outputs))
  }

  ghost predicate Told(cfg: Config, c: Holding, t: nat, handles: set<Handle>, delivered: set<Delivery>)
    requires HoldingOk(c)
  {
    && handles == (if c.op.Renew? && Expected(cfg, c, t).1
                   then c.handles + {c.h.(generation := c.h.generation + 1, time := t)} else c.handles)
    && delivered == (if c.op.Acknowledge? && Delivers(cfg, c)
                     then c.delivered + {Delivery(c.h.job, Digests(c.op.outputs))} else c.delivered)
  }

  /** The one object the operation may write: its key and its whole record. */
  ghost function Intended(c: Holding): (Key, Record)
    requires HoldingOk(c)
  {
    var j, g, h := c.h.job, c.h.generation, c.h;
    match c.op
    case Renew(_) =>
      (ClaimKey(j, g + 1), Claim(ClaimRecord(j, g + 1, h.attempt, c.id, h.token, h.lease, true, None, Some(h.token))))
    case CommitOutput(_, name, body) => (OutputKey(j, name), Output(body))
    case Acknowledge(_, o) =>
      (ReceiptKey(j), Receipt(j, g, h.attempt, c.id, h.token, h.payload, Digests(o)))
    case Nack(_, reason, until) => (FailKey(j, g), Fail(j, g, h.attempt, reason, until))
    case Bury(_, reason) => (DeadKey(j), Dead(j, g, h.attempt, reason))
    case _ => (JobKey(j), Beacon)
  }

  /** The store is as it was, or has that object more. */
  ghost predicate Wrote(c: Holding, t: nat, store: Store)
    requires HoldingOk(c)
  {
    store == c.store || (Intended(c).0 !in c.store && store == c.store[Intended(c).0 := Object(Intended(c).1, t)])
  }

  /** The operation changes nothing and tells nothing. */
  ghost predicate Quits(cfg: Config, c: Holding)
    requires HoldingOk(c)
  {
    forall t :: Expected(cfg, c, t).0 == Held(cfg, c) && Told(cfg, c, t, c.handles, c.delivered)
  }

  /** The store, the worker's handles and the deliveries are as expected, at some store time. */
  ghost predicate Finished(cfg: Config, c: Holding, store: Store, handles: set<Handle>, delivered: set<Delivery>)
    requires HoldingOk(c)
  {
    exists t, m :: Chain(store, c.h.job, m) && ObjectsOf(cfg, store, c.h.job, m) == Expected(cfg, c, t).0
                   && Wrote(c, t, store) && Told(cfg, c, t, handles, delivered)
  }

  lemma FinishedBy(cfg: Config, c: Holding, store: Store, handles: set<Handle>, delivered: set<Delivery>, t: nat,
                   m: nat)
    requires HoldingOk(c) && Chain(store, c.h.job, m) && ObjectsOf(cfg, store, c.h.job, m) == Expected(cfg, c, t).0
    requires Wrote(c, t, store) && Told(cfg, c, t, handles, delivered)
    ensures Finished(cfg, c, store, handles, delivered)
  {}

  // ---------- Where it can stand before its write ----------

  /** The first `i` outputs presented are stored with their digests. */
  ghost predicate BackedUpto(cfg: Config, c: Holding, i: nat)
    requires HoldingOk(c) && c.op.Acknowledge?
  {
    i <= |c.op.outputs| && A.Backed(Held(cfg, c), c.h.job, c.op.outputs[..i])
  }

  ghost predicate Acknowledging(cfg: Config, c: Holding, h: Handle, o: seq<CommittedOutput>)
    requires HoldingOk(c)
  {
    c.op.Acknowledge? && h == c.h && o == c.op.outputs && DeadKey(c.h.job) !in c.store && BackedUpto(cfg, c, |o|)
  }

  ghost predicate Putting(cfg: Config, c: Holding, k: Key, r: Record, purpose: Purpose)
    requires HoldingOk(c)
  {
    var j := c.h.job;
    && (k, r) == Intended(c)
    && match c.op
       case Renew(_) => purpose == ForRenewal(c.h) && ReceiptKey(j) !in c.store && DeadKey(j) !in c.store
       case Acknowledge(_, o) => purpose == ForReceipt(c.h, o) && Acknowledging(cfg, c, c.h, o)
       case Nack(_, _, _) => purpose.ForFail?
       case Bury(_, _) => purpose == ForBurial(c.h) && ReceiptKey(j) !in c.store
       case _ => false
  }

  ghost predicate Pursuing(cfg: Config, c: Holding, pc: Pc)
    requires HoldingOk(c)
  {
    var j := c.h.job;
    match pc
    case RenewReceipt(h) => c.op.Renew? && h == c.h
    case RenewDead(h) => c.op.Renew? && h == c.h && ReceiptKey(j) !in c.store
    case CommitPut(h, n, b) => c.op == CommitOutput(h, n, b)
    case CommitRead(h, n, b) => c.op == CommitOutput(h, n, b) && OutputKey(j, n) in c.store
    case AckDead(h, o) => c.op == Acknowledge(h, o)
    case AckOutput(h, o, i, _) =>
      && c.op == Acknowledge(h, o) && i < |o| && o[i].job == j && DeadKey(j) !in c.store && BackedUpto(cfg, c, i)
    case AckCompare(h, o) => Acknowledging(cfg, c, h, o) && ReceiptKey(j) in c.store
    case AckEquivalent(h, o) => Acknowledging(cfg, c, h, o) && ReceiptKey(j) in c.store
    case BuryReceipt(h, reason) => c.op == Bury(h, reason)
    case BuryCompare(h) => c.op.Bury? && h == c.h && ReceiptKey(j) !in c.store && DeadKey(j) in c.store
    case Put(k, r, purpose, _, stage) => stage == Stage.Putting && Putting(cfg, c, k, r, purpose)
    case Idle => Quits(cfg, c)
    case _ => false
  }

  lemma PursuitStarts(cfg: Config, c: Holding)
    requires HoldingOk(c)
    ensures Pursuing(cfg, c, Started(cfg, c.op))
  {}

  // ---------- Giving up ----------

  lemma QuitsTerminated(cfg: Config, c: Holding)
    requires HoldingOk(c) && (ReceiptKey(c.h.job) in c.store || DeadKey(c.h.job) in c.store) && c.op.Renew?
    ensures Quits(cfg, c)
  {
    hide ObjectsOf, Chain;
    HeldIs(cfg, c);
  }

  lemma QuitsTaken(cfg: Config, c: Holding)
    requires HoldingOk(c)
    requires match c.op
             case Renew(h) => h.generation < c.n
             case CommitOutput(_, name, _) => OutputKey(c.h.job, name) in c.store
             case Nack(h, _, _) => FailKey(h.job, h.generation) in c.store
             case Bury(h, _) => ReceiptKey(h.job) in c.store || DeadKey(h.job) in c.store
             case _ => DeadKey(c.h.job) in c.store
    ensures Quits(cfg, c)
  {
    hide ObjectsOf, Chain;
    HeldIs(cfg, c);
  }

  /** One output that is not this job's, not stored or stored with another digest. */
  lemma QuitsUnbacked(cfg: Config, c: Holding, i: nat)
    requires HoldingOk(c) && c.op.Acknowledge? && i < |c.op.outputs|
    requires var x := c.op.outputs[i];
             x.job != c.h.job || OutputKey(c.h.job, x.name) !in c.store
             || cfg.sha(c.store[OutputKey(c.h.job, x.name)].record.body) != x.digest
    ensures Quits(cfg, c)
  {
    hide ObjectsOf, Chain;
    HeldIs(cfg, c);
    assert !A.Backed(Held(cfg, c), c.h.job, c.op.outputs);
  }

  /** A receipt already there: nothing is written, and the delivery is told exactly when it is of the
      same completed state. */
  lemma ReceiptThere(cfg: Config, c: Holding)
    requires HoldingOk(c) && c.op.Acknowledge? && Acknowledging(cfg, c, c.h, c.op.outputs)
             && ReceiptKey(c.h.job) in c.store
    ensures forall t :: Expected(cfg, c, t).0 == Held(cfg, c)
    ensures Delivers(cfg, c) <==> EquivalentReceipt(c.store[ReceiptKey(c.h.job)].record, c.h, c.op.outputs)
  {
    HeldIs(cfg, c);
    assert c.op.outputs[..|c.op.outputs|] == c.op.outputs;
  }

  // ---------- One step ----------

  lemma OutputBacked(cfg: Config, c: Holding, i: nat)
    requires HoldingOk(c) && c.op.Acknowledge? && BackedUpto(cfg, c, i) && i < |c.op.outputs|
    requires var x := c.op.outputs[i];
             && x.job == c.h.job && OutputKey(c.h.job, x.name) in c.store
             && cfg.sha(c.store[OutputKey(c.h.job, x.name)].record.body) == x.digest
    ensures BackedUpto(cfg, c, i + 1)
  {
    hide ObjectsOf, Chain;
    HeldIs(cfg, c);
    var o, longer := c.op.outputs[..i], c.op.outputs[..i + 1];
    forall k | 0 <= k < i + 1
      ensures longer[k].job == c.h.job && longer[k].name in Held(cfg, c).outputs
              && Held(cfg, c).outputs[longer[k].name] == longer[k].digest
    {
      assert k < i ==> longer[k] == o[k];
    }
  }

  /** Moving on to the next output keeps the pursuit, or gives up at a foreign one. */
  lemma NextOutputPursues(cfg: Config, c: Holding, i: nat, guard: nat)
    requires HoldingOk(c) && c.op.Acknowledge? && BackedUpto(cfg, c, i) && DeadKey(c.h.job) !in c.store
    ensures Pursuing(cfg, c, NextOutput(c.id, c.h, c.op.outputs, i, guard))
  {
    hide ObjectsOf, Chain, Quits;
    if i < |c.op.outputs| && c.op.outputs[i].job != c.h.job {
      QuitsUnbacked(cfg, c, i);
    }
  }

  /** Reading on keeps the pursuit. */
  lemma PursuitReads(cfg: Config, c: Holding, w: Worker, call: Call, reply: Reply, now: nat, clock: nat, token: Token)
    requires HoldingOk(c) && Pursuing(cfg, c, w.pc) && Pending(w.pc, call) && Answers(c.store, call, reply)
    requires !w.pc.Put? && !w.pc.AckCompare? && !w.pc.AckEquivalent? && (w.pc.CommitPut? ==> call.key in c.store)
    requires w.id == c.id
    ensures Pursuing(cfg, c, Resume(cfg, w, call, reply, now, clock, token).pc)
  {
    hide ObjectsOf, Quits, BackedUpto, Expected, Told;
    match w.pc
    case RenewReceipt(h) =>
      if ReceiptKey(h.job) in c.store {
        QuitsTerminated(cfg, c);
      }
    case RenewDead(h) =>
      if DeadKey(h.job) in c.store {
        QuitsTerminated(cfg, c);
      }
    case CommitPut(_, _, _) =>
    case CommitRead(_, _, _) => QuitsTaken(cfg, c);
    case AckDead(h, o) =>
      if DeadKey(h.job) in c.store {
        QuitsTaken(cfg, c);
      } else {
        NothingBacked(cfg, c);
        NextOutputPursues(cfg, c, 0, now);
      }
    case AckOutput(h, o, i, guard) =>
      OutputsTyped(c, o[i].name);
      if OutputKey(h.job, o[i].name) in c.store
         && cfg.sha(c.store[OutputKey(h.job, o[i].name)].record.body) == o[i].digest {
        OutputBacked(cfg, c, i);
        NextOutputPursues(cfg, c, i + 1, guard);
      } else {
        QuitsUnbacked(cfg, c, i);
      }
    case BuryReceipt(h, _) =>
      if ReceiptKey(h.job) in c.store {
        QuitsTaken(cfg, c);
      }
    case BuryCompare(_) => QuitsTaken(cfg, c);
    case _ =>
  }

  lemma NothingBacked(cfg: Config, c: Holding)
    requires HoldingOk(c) && c.op.Acknowledge?
    ensures BackedUpto(cfg, c, 0)
  {}

  lemma OutputsTyped(c: Holding, name: nat)
    requires HoldingOk(c)
    ensures OutputKey(c.h.job, name) in c.store ==> c.store[OutputKey(c.h.job, name)].record.Output?
  {}

  /** A write that finds its key taken changes nothing, as the atomic operation does not. */
  lemma PursuitLoses(cfg: Config, c: Holding, w: Worker, call: Call, reply: Reply, now: nat, clock: nat, token: Token)
    requires HoldingOk(c) && Pursuing(cfg, c, w.pc) && Pending(w.pc, call) && Answers(c.store, call, reply)
    requires w.pc.Put? && w.pc.key in c.store
    ensures Pursuing(cfg, c, Resume(cfg, w, call, reply, now, clock, token).pc)
  {
    hide ObjectsOf, Quits, BackedUpto, Expected, Told;
    assert ClaimKey(c.h.job, c.n + 1) !in c.store;
    if !c.op.Acknowledge? && !c.op.Bury? {
      QuitsTaken(cfg, c);
    }
  }

  /** The store after the write that the pursuit was for. */
  lemma WrittenObjects(cfg: Config, c: Holding, pc: Pc, t: nat) returns (m: nat)
    requires HoldingOk(c) && pc.Put? && Pursuing(cfg, c, pc) && pc.key !in c.store
    ensures Chain(c.store[pc.key := Object(pc.record, t)], c.h.job, m)
    ensures ObjectsOf(cfg, c.store[pc.key := Object(pc.record, t)], c.h.job, m) == Expected(cfg, c, t).0
    ensures c.op.Renew? ==> Expected(cfg, c, t).1
    ensures c.op.Acknowledge? ==> Delivers(cfg, c)
  {
    hide ObjectsOf;
    var j, g := c.h.job, c.h.generation;
    HeldIs(cfg, c);
    m := c.n;
    match c.op
    case Renew(_) =>
      assert g == c.n by {
        assert g < c.n ==> ClaimAt(c.store, j, g + 1);
      }
      m := c.n + 1;
      ClaimAdded(cfg, c.store, j, c.n, pc.record.claim, t);
    case Acknowledge(_, o) =>
      assert o[..|o|] == o;
      ReceiptAdded(cfg, c.store, j, c.n, pc.record, t);
    case Nack(_, _, _) => FailAdded(cfg, c.store, j, c.n, g, pc.record, t);
    case Bury(_, _) => DeadAdded(cfg, c.store, j, c.n, pc.record, t);
  }

  // ---------- The machine's steps ----------

  /** A renewal is written and its store time is still to be read. */
  ghost predicate ReadingBack(cfg: Config, c: Holding, s: State, pc: Pc, t: nat)
    requires HoldingOk(c)
  {
    && c.op.Renew? && Expected(cfg, c, t).1
    && pc.ReadBack? && pc.payload == c.h.payload
    && ClaimKey(pc.claim.job, pc.claim.generation) in s.store
    && s.store[ClaimKey(pc.claim.job, pc.claim.generation)].time == t
    && pc.claim.job == c.h.job && pc.claim.generation == c.h.generation + 1 && pc.claim.attempt == c.h.attempt
    && pc.claim.token == c.h.token && pc.claim.lease == c.h.lease
    && Wrote(c, t, s.store)
    && exists m :: Chain(s.store, c.h.job, m) && ObjectsOf(cfg, s.store, c.h.job, m) == Expected(cfg, c, t).0
  }

  /** Where a holder's operation running alone can stand. */
  ghost predicate Advancing(cfg: Config, c: Holding, s: State, p: Pid)
    requires HoldingOk(c)
  {
    && p in s.workers
    && var w := s.workers[p];
    || (s.store == c.store && w.handles == c.handles && s.delivered == c.delivered && w.id == c.id
        && Pursuing(cfg, c, w.pc))
    || (w.handles == c.handles && s.delivered == c.delivered && exists t :: ReadingBack(cfg, c, s, w.pc, t))
    || (w.pc.Idle? && Finished(cfg, c, s.store, w.handles, s.delivered))
  }

  /** The pursuit's write takes effect. */
  lemma PursuitWrites(cfg: Config, s: State, p: Pid, c: Holding, s': State)
    requires HoldingOk(c) && s.store == c.store && s.delivered == c.delivered && Solo(cfg, s, p, s') && p in s.workers
    requires s.workers[p].handles == c.handles && s.workers[p].id == c.id && Pursuing(cfg, c, s.workers[p].pc)
    requires s.workers[p].pc.Put? && s.workers[p].pc.key !in c.store
    ensures Advancing(cfg, c, s', p)
  {
    hide Solo, ObjectsOf, Expected, Delivers, BackedUpto, Chain;
    var call, reply, time, token := SoloStep(cfg, s, p, s');
    var pc := s.workers[p].pc;
    assert call == PutIfAbsent(pc.key, pc.record) && reply == Committed;
    var m := WrittenObjects(cfg, c, pc, time);
    if c.op.Renew? {
      assert ReadingBack(cfg, c, s', s'.workers[p].pc, time);
    } else {
      FinishedBy(cfg, c, s'.store, s'.workers[p].handles, s'.delivered, time, m);
    }
  }

  /** An output's first bytes are stored. */
  lemma CommitWrites(cfg: Config, s: State, p: Pid, c: Holding, s': State)
    requires HoldingOk(c) && s.store == c.store && s.delivered == c.delivered && Solo(cfg, s, p, s') && p in s.workers
    requires s.workers[p].handles == c.handles && s.workers[p].id == c.id && Pursuing(cfg, c, s.workers[p].pc)
    requires s.workers[p].pc.CommitPut? && OutputKey(c.h.job, s.workers[p].pc.name) !in c.store
    ensures Advancing(cfg, c, s', p)
  {
    hide Solo, ObjectsOf, Chain;
    var call, reply, time, token := SoloStep(cfg, s, p, s');
    HeldIs(cfg, c);
    OutputAdded(cfg, c.store, c.h.job, c.n, c.op.name, Output(c.op.body), time);
    FinishedBy(cfg, c, s'.store, s'.workers[p].handles, s'.delivered, time, c.n);
  }

  /** The receipt there is compared. */
  lemma PursuitCompares(cfg: Config, s: State, p: Pid, c: Holding, s': State)
    requires HoldingOk(c) && s.store == c.store && s.delivered == c.delivered && Solo(cfg, s, p, s') && p in s.workers
    requires s.workers[p].handles == c.handles && s.workers[p].id == c.id && Pursuing(cfg, c, s.workers[p].pc)
    requires s.workers[p].pc.AckCompare? || s.workers[p].pc.AckEquivalent?
    ensures Advancing(cfg, c, s', p)
  {
    hide Solo, ObjectsOf, Expected, Delivers, BackedUpto;
    var call, reply, time, token := SoloStep(cfg, s, p, s');
    ReceiptThere(cfg, c);
    if s'.workers[p].pc.Idle? {
      FinishedBy(cfg, c, s'.store, s'.workers[p].handles, s'.delivered, 0, c.n);
    }
  }

  lemma RenewalReadsBack(cfg: Config, s: State, p: Pid, c: Holding, s': State, t: nat)
    requires HoldingOk(c) && s.delivered == c.delivered && Solo(cfg, s, p, s') && p in s.workers
    requires s.workers[p].handles == c.handles && ReadingBack(cfg, c, s, s.workers[p].pc, t)
    ensures Advancing(cfg, c, s', p)
  {
    hide Solo, ObjectsOf, Expected, Chain;
    var call, reply, time, token := SoloStep(cfg, s, p, s');
    var m :| Chain(s.store, c.h.job, m) && ObjectsOf(cfg, s.store, c.h.job, m) == Expected(cfg, c, t).0;
    assert reply == Meta(t);
    assert s'.workers[p].handles == c.handles + {c.h.(generation := c.h.generation + 1, time := t)};
    FinishedBy(cfg, c, s'.store, s'.workers[p].handles, s'.delivered, t, m);
  }

  lemma ReadingStays(cfg: Config, s: State, p: Pid, c: Holding, s': State)
    requires HoldingOk(c) && s.store == c.store && s.delivered == c.delivered && Solo(cfg, s, p, s') && p in s.workers
    requires s.workers[p].handles == c.handles && s.workers[p].id == c.id && Pursuing(cfg, c, s.workers[p].pc)
    requires !s.workers[p].pc.AckCompare? && !s.workers[p].pc.AckEquivalent?
    requires s.workers[p].pc.Put? ==> s.workers[p].pc.key in c.store
    requires s.workers[p].pc.CommitPut? ==> OutputKey(c.h.job, s.workers[p].pc.name) in c.store
    ensures Advancing(cfg, c, s', p)
  {
    hide Solo, ObjectsOf, Expected, Chain, Quits, BackedUpto, Resume;
    var call, reply, time, token := SoloStep(cfg, s, p, s');
    var w := s.workers[p];
    QuietResume(cfg, w, call, reply, s.now, s.clock, token);
    if w.pc.Put? {
      PursuitLoses(cfg, c, w, call, reply, s.now, s.clock, token);
    } else {
      PursuitReads(cfg, c, w, call, reply, s.now, s.clock, token);
    }
  }

  /** Such steps grant no handle and report no delivery. */
  lemma QuietResume(cfg: Config, w: Worker, call: Call, reply: Reply, now: nat, clock: nat, token: Token)
    requires Pending(w.pc, call) && !w.pc.ReadBack? && !w.pc.AckCompare? && !w.pc.AckEquivalent?
    ensures Resume(cfg, w, call, reply, now, clock, token).handles == w.handles
    ensures Resume(cfg, w, call, reply, now, clock, token).id == w.id
    ensures w.pc.Put? && w.pc.stage == Stage.Putting && reply == Rejected ==> Completes(w.pc, reply) == None
    ensures !w.pc.Put? ==> Completes(w.pc, reply) == None
  {
    hide Raised, SameReceipt, EquivalentReceipt, AfterJob, AfterPut, AfterFail, AfterOutput, Gathered, AfterTail,
         NextOutput;
  }

  lemma HolderAdvances1(cfg: Config, s: State, p: Pid, c: Holding, s': State)
    requires HoldingOk(c) && Advancing(cfg, c, s, p) && Solo(cfg, s, p, s')
    ensures Advancing(cfg, c, s', p)
  {
    hide Solo, Finished, Pursuing, HoldingOk, ReadingBack;
    var w := s.workers[p];
    NotIdle(cfg, s, p, s');
    if t :| w.handles == c.handles && s.delivered == c.delivered && ReadingBack(cfg, c, s, w.pc, t) {
      RenewalReadsBack(cfg, s, p, c, s', t);
    } else if w.pc.AckCompare? || w.pc.AckEquivalent? {
      PursuitCompares(cfg, s, p, c, s');
    } else if w.pc.Put? && w.pc.key !in c.store {
      PursuitWrites(cfg, s, p, c, s');
    } else if w.pc.CommitPut? && OutputKey(c.h.job, w.pc.name) !in c.store {
      CommitWrites(cfg, s, p, c, s');
    } else {
      ReadingStays(cfg, s, p, c, s');
    }
  }

  lemma NotIdle(cfg: Config, s: State, p: Pid, s': State)
    requires Solo(cfg, s, p, s') && p in s.workers
    ensures !s.workers[p].pc.Idle?
  {
    hide Solo;
    var call, reply, time, token := SoloStep(cfg, s, p, s');
  }

  lemma {:induction false} HolderAdvances(cfg: Config, states: seq<State>, p: Pid, c: Holding, i: nat)
    requires HoldingOk(c) && SoloRun(cfg, states, p) && Advancing(cfg, c, states[0], p) && i < |states|
    ensures Advancing(cfg, c, states[i], p)
  {
    hide Solo, Advancing, HoldingOk;
    if i > 0 {
      HolderAdvances(cfg, states, p, c, i - 1);
      assert Solo(cfg, states[i - 1], p, states[i - 1 + 1]);
      HolderAdvances1(cfg, states[i - 1], p, c, states[i]);
    }
  }

  // ---------- The outcome reported ----------

  /** The step that ends an output commit, a nack or a burial reports the atomic outcome. */
  lemma EndReports(cfg: Config, s: State, p: Pid, c: Holding, s': State, t: nat)
    requires HoldingOk(c) && (c.op.CommitOutput? || c.op.Nack? || c.op.Bury?)
    requires Advancing(cfg, c, s, p) && Solo(cfg, s, p, s') && p in s'.workers && s'.workers[p].pc.Idle?
    ensures Reported(cfg, s, p, s', Expected(cfg, c, t).1)
  {
    hide ObjectsOf, Chain, Told, Serves;
    NotIdle(cfg, s, p, s');
    var a: Action :| a.Serve? && a.pid == p && a.fault == Pass && Serves(cfg, s, a, s');
    ServedParts(cfg, s, a, s');
    EndingReply(cfg, c, s.workers[p], a.call, a.reply, s.now, s.clock, a.token, t);
  }

  lemma ServedParts(cfg: Config, s: State, a: Action, s': State)
    requires a.Serve? && a.fault == Pass && Serves(cfg, s, a, s')
    ensures a.pid in s.workers && a.pid in s'.workers && Pending(s.workers[a.pid].pc, a.call)
    ensures Answers(s.store, a.call, a.reply)
    ensures s'.workers[a.pid] == Resume(cfg, s.workers[a.pid], a.call, a.reply, s.now, s.clock, a.token)
  {}

  lemma EndingReply(cfg: Config, c: Holding, w: Worker, call: Call, reply: Reply, now: nat, clock: nat, token: Token,
                    t: nat)
    requires HoldingOk(c) && (c.op.CommitOutput? || c.op.Nack? || c.op.Bury?)
    requires Pursuing(cfg, c, w.pc) && Pending(w.pc, call) && Answers(c.store, call, reply)
    requires Resume(cfg, w, call, reply, now, clock, token).pc.Idle?
    ensures Reports(cfg, w.pc, reply) == Some(Expected(cfg, c, t).1)
  {
    hide ObjectsOf, Quits, Told;
    ObjectsAre(cfg, c.store, c.h.job, c.n);
    HeldIs(cfg, c);
    DeadIs(cfg, c);
  }

  lemma DeadIs(cfg: Config, c: Holding)
    requires HoldingOk(c)
    ensures Held(cfg, c).dead == DeathOf(c.store, c.h.job, c.n)
  {}

  /** A holder's operation that runs alone and without faults ends with the job's objects as the
      atomic operation leaves them, with the renewed handle it grants, the delivery it reports and,
      for an output commit, a nack or a burial, the outcome it returns. */
  lemma HoldersAreAtomic(cfg: Config, states: seq<State>, p: Pid, n: nat, h: Handle, op: Operation)
    requires SoloRun(cfg, states, p) && p in states[0].workers && states[0].workers[p].pc == Started(cfg, op)
    requires HoldingOk(Holding(states[0].store, n, h, op, states[0].workers[p].handles, states[0].delivered,
                             states[0].workers[p].id))
    requires var last := states[|states| - 1]; p in last.workers && last.workers[p].pc == Idle
    ensures var last := states[|states| - 1];
            var c := Holding(states[0].store, n, h, op, states[0].workers[p].handles, states[0].delivered,
                             states[0].workers[p].id);
            Finished(cfg, c, last.store, last.workers[p].handles, last.delivered)
    ensures var c := Holding(states[0].store, n, h, op, states[0].workers[p].handles, states[0].delivered,
                             states[0].workers[p].id);
            op.CommitOutput? || op.Nack? || op.Bury? ==>
              |states| > 1 && Reported(cfg, states[|states| - 2], p, states[|states| - 1], Expected(cfg, c, 0).1)
  {
    hide ObjectsOf;
    var c := Holding(states[0].store, n, h, op, states[0].workers[p].handles, states[0].delivered,
                             states[0].workers[p].id);
    PursuitStarts(cfg, c);
    HolderAdvances(cfg, states, p, c, |states| - 1);
    var last := states[|states| - 1];
    if last.store == c.store && Pursuing(cfg, c, last.workers[p].pc) && last.workers[p].handles == c.handles
       && last.delivered == c.delivered {
      assert Expected(cfg, c, 0).0 == Held(cfg, c);
      FinishedBy(cfg, c, last.store, c.handles, c.delivered, 0, n);
    }
    if op.CommitOutput? || op.Nack? || op.Bury? {
      HolderAdvances(cfg, states, p, c, |states| - 2);
      assert Solo(cfg, states[|states| - 2], p, states[|states| - 2 + 1]);
      EndReports(cfg, states[|states| - 2], p, c, last, 0);
    }
  }

  /** So a nack whose fail record is not there yet stores exactly the one asked for, and nothing else. */
  lemma NackIsExact(cfg: Config, states: seq<State>, p: Pid, n: nat, h: Handle, reason: nat, until: nat)
    returns (t: nat)
    requires SoloRun(cfg, states, p) && p in states[0].workers
    requires states[0].workers[p].pc == Started(cfg, Nack(h, reason, until))
    requires HoldingOk(Holding(states[0].store, n, h, Nack(h, reason, until), states[0].workers[p].handles,
                               states[0].delivered, states[0].workers[p].id))
    requires FailKey(h.job, h.generation) !in states[0].store
    requires var last := states[|states| - 1]; p in last.workers && last.workers[p].pc == Idle
    ensures var fail := Fail(h.job, h.generation, h.attempt, reason, until);
            states[|states| - 1].store == states[0].store[FailKey(h.job, h.generation) := Object(fail, t)]
  {
    hide HoldingOk, Finished, Reported, Solo;
    var c := Holding(states[0].store, n, h, Nack(h, reason, until), states[0].workers[p].handles,
                     states[0].delivered, states[0].workers[p].id);
    var last := states[|states| - 1];
    HoldersAreAtomic(cfg, states, p, n, h, c.op);
    t := NackFinishes(cfg, c, last.store, last.workers[p].handles, last.delivered);
  }

  lemma NackFinishes(cfg: Config, c: Holding, store: Store, handles: set<Handle>, delivered: set<Delivery>)
    returns (t: nat)
    requires HoldingOk(c) && c.op.Nack? && FailKey(c.h.job, c.h.generation) !in c.store
    requires Finished(cfg, c, store, handles, delivered)
    ensures var fail := Fail(c.h.job, c.h.generation, c.h.attempt, c.op.reason, c.op.retryNotBefore);
            store == c.store[FailKey(c.h.job, c.h.generation) := Object(fail, t)]
  {
    hide ObjectsOf, Chain, Told;
    var m;
    t, m :| && Chain(store, c.h.job, m) && ObjectsOf(cfg, store, c.h.job, m) == Expected(cfg, c, t).0
            && Wrote(c, t, store);
    HeldIs(cfg, c);
    ObjectsAre(cfg, store, c.h.job, m);
    assert c.h.generation in Expected(cfg, c, t).0.fails;
  }
}
