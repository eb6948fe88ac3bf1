/** What workers are told is true. In every run, under every interleaving and fault, an enqueue, output
    commit, nack, burial or acknowledgment that ends tells its caller what the store holds, and one
    whose call was lost does not end but looks again. */
module ProtocolOutcomes {
  import opened Wrappers
  import opened Protocol
  import opened ProtocolInvariant
  import opened ProtocolPreservation
  import opened ProtocolRuns
  import opened ProtocolOrigins
  import opened JobObjects

  // ---------- A key lost to another writer is held ----------

  /** What a comparison reads is there. */
  predicate Comparing(store: Store, pc: Pc) {
    match pc
    case EnqueueCompare(k, _) => k.JobKey? && k in store
    case AckCompare(h, _) => ReceiptKey(h.job) in store
    case AckEquivalent(h, _) => ReceiptKey(h.job) in store
    case BuryCompare(h) => DeadKey(h.job) in store
    case Put(k, _, _, _, stage) => stage.Reading? ==> k in store
    case _ => true
  }

  /** The purpose of a write names its key. */
  predicate Keyed(pc: Pc) {
    pc.Put? ==>
      && !pc.key.TailKey?
      && match pc.purpose
         case ForEnqueue => pc.key.JobKey?
         case ForReceipt(h, _) => pc.key == ReceiptKey(h.job)
         case ForBurial(h) => pc.key == DeadKey(h.job)
         case _ => true
  }

  lemma FromKeyed(op: Operation, id: nat, pc: Pc)
    requires PcFrom(op, id, pc)
    ensures Keyed(pc)
  {}

  lemma PutCompares(s: State, pc: Pc, call: Call, reply: Reply)
    requires pc.Put? && Pending(pc, call) && Truthful(s, call, reply) && Keyed(pc) && Comparing(s.store, pc)
    ensures Comparing(s.store, AfterPut(pc, reply))
  {}

  lemma ResumeCompares(cfg: Config, s: State, w: Worker, call: Call, reply: Reply, now: nat, clock: nat, token: Token)
    requires Pending(w.pc, call) && Truthful(s, call, reply) && Comparing(s.store, w.pc) && Keyed(w.pc)
    ensures Comparing(s.store, Resume(cfg, w, call, reply, now, clock, token).pc)
  {
    hide Raised, AfterTail, AfterFail, AfterPut, AfterJob, SameReceipt;
    if w.pc.Put? {
      PutCompares(s, w.pc, call, reply);
    } else if w.pc.Gather? {
      assert !Resume(cfg, w, call, reply, now, clock, token).pc.AckCompare?;
    } else if w.pc.ReadJob? {
      JobCompares(s.store, w.id, w.pc, reply, token);
    } else if w.pc.ReadFail? {
      FailCompares(cfg, s.store, w.pc, reply);
    }
  }

  lemma JobCompares(store: Store, id: nat, pc: Pc, reply: Reply, token: Token)
    requires pc.ReadJob?
    ensures Comparing(store, AfterJob(id, pc, reply, token))
  {}

  lemma FailCompares(cfg: Config, store: Store, pc: Pc, reply: Reply)
    requires pc.ReadFail?
    ensures Comparing(store, AfterFail(cfg, pc, reply))
  {}

  ghost predicate Compares(s: State) {
    forall p :: p in s.workers ==> Comparing(s.store, s.workers[p].pc)
  }

  lemma StepCompares(cfg: Config, states: seq<State>, k: nat, a: Action)
    requires k + 1 < |states| && AllAsked(cfg, states, k) && Compares(states[k])
    requires Step(cfg, states[k], a, states[k + 1]) && Grows(states[k], states[k + 1])
    ensures Compares(states[k + 1])
  {
    hide Pending, Resume, Completes, Answers, Truthful, PcFrom, Asked, ObjectAsked;
    var s, s' := states[k], states[k + 1];
    forall p | p in s'.workers ensures Comparing(s'.store, s'.workers[p].pc) {
      if p in s.workers {
        var w := s.workers[p];
        assert PcAsked(cfg, states, k, p, w);
        PcIsKeyed(cfg, states, k, p, w);
        ComparingStays(s, s', w.pc);
        if a.Serve? && p == a.pid {
          ServeIsTruthful(cfg, s, a, s');
          ResumeCompares(cfg, s', w, a.call, Delivered(a.fault, a.reply), s.now, s.clock, a.token);
        } else if a.Start? && p == a.pid {
          StartCompares(cfg, s'.store, a.op);
        }
      }
    }
  }

  lemma ComparingStays(s: State, s': State, pc: Pc)
    requires Grows(s, s') && Keyed(pc) && Comparing(s.store, pc)
    ensures Comparing(s'.store, pc)
  {}

  lemma PcIsKeyed(cfg: Config, states: seq<State>, k: nat, p: Pid, w: Worker)
    requires PcAsked(cfg, states, k, p, w)
    ensures Keyed(w.pc)
  {
    hide Asked, PcFrom;
    if !w.pc.Idle? {
      var op :| Asked(cfg, states, k, p, op) && PcFrom(op, w.id, w.pc);
      FromKeyed(op, w.id, w.pc);
    }
  }

  lemma StartCompares(cfg: Config, store: Store, op: Operation)
    ensures Comparing(store, Started(cfg, op))
  {}

  lemma {:induction false} RunCompares(cfg: Config, states: seq<State>, k: nat)
    requires Run(cfg, states) && k < |states|
    ensures Compares(states[k])
  {
    hide Inv, Step, AllAsked;
    if k > 0 {
      RunCompares(cfg, states, k - 1);
      RunAsks(cfg, states, k - 1);
      var a := StepGrows(cfg, states, k - 1);
      StepCompares(cfg, states, k - 1, a);
    }
  }

  // ---------- What is told ----------

  /** Telling `b` of the operation is true of the store. */
  ghost predicate TrueOf(cfg: Config, op: Operation, b: bool, store: Store) {
    match op
    case Enqueue(j, max, nb, payload) =>
      JobKey(j) in store && (b <==> store[JobKey(j)].record == Job(j, max, nb, payload))
    case CommitOutput(h, name, body) =>
      && OutputKey(h.job, name) in store && store[OutputKey(h.job, name)].record.Output?
      && (b <==> cfg.sha(store[OutputKey(h.job, name)].record.body) == cfg.sha(body))
    case Nack(h, _, _) => b && FailKey(h.job, h.generation) in store
    case Bury(h, _) =>
      var there := DeadKey(h.job) in store && store[DeadKey(h.job)].record.Dead?
                   && store[DeadKey(h.job)].record.generation == h.generation
                   && store[DeadKey(h.job)].record.attempt == h.attempt;
      if b then there else ReceiptKey(h.job) in store || (DeadKey(h.job) in store && !there)
    case _ => false
  }

  lemma ReportIsTrue(cfg: Config, s: State, op: Operation, id: nat, pc: Pc, call: Call, reply: Reply, b: bool)
    requires PcFrom(op, id, pc) && Pending(pc, call) && Truthful(s, call, reply) && Reports(cfg, pc, reply) == Some(b)
    ensures TrueOf(cfg, op, b, s.store)
  {}

  /** In every run, whatever an enqueue, an output commit, a nack or a burial reports is true of the
      store right after the call that ends it, of the very operation that was asked for. */
  lemma OutcomesAreTrue(cfg: Config, states: seq<State>, k: nat, a: Action, b: bool) returns (op: Operation)
    requires Run(cfg, states) && k + 1 < |states| && a.Serve? && Serves(cfg, states[k], a, states[k + 1])
    requires Reports(cfg, states[k].workers[a.pid].pc, Delivered(a.fault, a.reply)) == Some(b)
    ensures Asked(cfg, states, k, a.pid, op) && TrueOf(cfg, op, b, states[k + 1].store)
  {
    hide Inv, Asked, PcFrom, Reports, TrueOf, Resume, Completes, Answers, ObjectAsked, Pending;
    var s, s' := states[k], states[k + 1];
    var w := s.workers[a.pid];
    RunAsks(cfg, states, k);
    assert PcAsked(cfg, states, k, a.pid, w);
    PendingIsBusy(w.pc, a.call);
    op :| Asked(cfg, states, k, a.pid, op) && PcFrom(op, w.id, w.pc);
    ServeIsTruthful(cfg, s, a, s');
    ReportIsTrue(cfg, s', op, w.id, w.pc, a.call, Delivered(a.fault, a.reply), b);
  }

  /** The receipt there is of the completed state that the acknowledgment presents. */
  predicate Completed(store: Store, h: Handle, o: seq<CommittedOutput>) {
    && ReceiptKey(h.job) in store && store[ReceiptKey(h.job)].record.Receipt?
    && store[ReceiptKey(h.job)].record.payload == h.payload
    && store[ReceiptKey(h.job)].record.outputs == Digests(o)
  }

  lemma AckIsTrue(cfg: Config, s: State, w: Worker, h: Handle, o: seq<CommittedOutput>, call: Call, reply: Reply,
                  now: nat, clock: nat, token: Token)
    requires PcFrom(Acknowledge(h, o), w.id, w.pc) && Pending(w.pc, call) && Truthful(s, call, reply)
    requires w.pc.Put? || w.pc.AckCompare? || w.pc.AckEquivalent?
    requires w.pc.Put? ==> w.pc.purpose.ForReceipt?
    requires Comparing(s.store, w.pc) && (ReceiptKey(h.job) in s.store ==> s.store[ReceiptKey(h.job)].record.Receipt?)
    requires Resume(cfg, w, call, reply, now, clock, token).pc.Idle?
    ensures Completes(w.pc, reply).Some? <==> Completed(s.store, h, o)
    ensures Completes(w.pc, reply).Some? ==> Completes(w.pc, reply).value == Delivery(h.job, Digests(o))
  {}

  // ---------- Nothing lost ends an operation ----------

  /** The reply never came. */
  predicate NoReply(reply: Reply) {
    reply == Transport || reply == Unknown
  }

  /** A write or comparison whose reply never came goes on: it is not told to have succeeded or failed. */
  lemma LostReplyGoesOn(cfg: Config, w: Worker, call: Call, reply: Reply, now: nat, clock: nat, token: Token)
    requires Pending(w.pc, call) && NoReply(reply)
    requires || w.pc.Put? || w.pc.CommitPut? || w.pc.CommitRead? || w.pc.AckOutput? || w.pc.AckCompare?
             || w.pc.AckEquivalent? || w.pc.BuryCompare? || w.pc.EnqueueCompare? || w.pc.FloorPut? || w.pc.FloorGate?
    ensures !Resume(cfg, w, call, reply, now, clock, token).pc.Idle?
    ensures Completes(w.pc, reply).None? && Reports(cfg, w.pc, reply).None?
  {
    hide SameReceipt, EquivalentReceipt;
  }

  /** And one whose reply came ends with a report. */
  lemma EndIsReported(cfg: Config, s: State, op: Operation, w: Worker, call: Call, reply: Reply, now: nat, clock: nat,
                      token: Token)
    requires PcFrom(op, w.id, w.pc) && Pending(w.pc, call) && Truthful(s, call, reply) && !NoReply(reply)
    requires op.Enqueue? || op.CommitOutput? || op.Nack? || op.Bury?
    requires Comparing(s.store, w.pc) && (w.pc.CommitRead? && call.key in s.store ==> s.store[call.key].record.Output?)
    requires Resume(cfg, w, call, reply, now, clock, token).pc.Idle?
    ensures Reports(cfg, w.pc, reply).Some?
  {}

  // ---------- Over whole runs ----------

  /** What holds of a worker and its call at any step of any run. */
  lemma Served(cfg: Config, states: seq<State>, k: nat, a: Action) returns (op: Operation)
    requires Run(cfg, states) && k + 1 < |states| && a.Serve? && Serves(cfg, states[k], a, states[k + 1])
    ensures var w, store := states[k].workers[a.pid], states[k + 1].store;
            && PcFrom(op, w.id, w.pc) && Truthful(states[k + 1], a.call, Delivered(a.fault, a.reply))
            && Comparing(store, w.pc) && Inv(cfg, states[k + 1]) && Typed(states[k + 1])
  {
    hide Inv, Asked, PcFrom, Resume, Completes, Answers, ObjectAsked, Pending, Truthful, Typed;
    var s, s' := states[k], states[k + 1];
    var w := s.workers[a.pid];
    RunAsks(cfg, states, k);
    RunCompares(cfg, states, k);
    RunKeepsInv(cfg, states, k + 1);
    RunKeepsTyped(cfg, states, k + 1);
    assert PcAsked(cfg, states, k, a.pid, w);
    PcIsKeyed(cfg, states, k, a.pid, w);
    PendingIsBusy(w.pc, a.call);
    op :| Asked(cfg, states, k, a.pid, op) && PcFrom(op, w.id, w.pc);
    ServeIsTruthful(cfg, s, a, s');
    ServedGrows(cfg, s, a, s');
    ComparingStays(s, s', w.pc);
  }

  lemma ServedGrows(cfg: Config, s: State, a: Action, s': State)
    requires Inv(cfg, s) && a.Serve? && Serves(cfg, s, a, s')
    ensures Grows(s, s')
  {
    ServeGrows(cfg, s, a, s');
  }

  /** In every run, an acknowledgment that ends past its guards reports the delivery exactly when the
      receipt stored is of the completed state it presents. */
  lemma AcksAreTrue(cfg: Config, states: seq<State>, k: nat, a: Action, h: Handle, o: seq<CommittedOutput>)
    requires Run(cfg, states) && k + 1 < |states| && a.Serve? && Serves(cfg, states[k], a, states[k + 1])
    requires var pc := states[k].workers[a.pid].pc;
             || pc == AckCompare(h, o) || pc == AckEquivalent(h, o)
             || (pc.Put? && pc.purpose == ForReceipt(h, o))
    requires states[k + 1].workers[a.pid].pc.Idle?
    ensures var told := Completes(states[k].workers[a.pid].pc, Delivered(a.fault, a.reply));
            && (told.Some? <==> Completed(states[k + 1].store, h, o))
            && (told.Some? ==> told.value == Delivery(h.job, Digests(o)))
  {
    hide Inv, Typed, PcFrom, Comparing, Truthful, Completes, Resume, Completed, Pending, Answers;
    var op := Served(cfg, states, k, a);
    var s, s' := states[k], states[k + 1];
    AckingIs(op, s.workers[a.pid], h, o);
    ReceiptTyped(cfg, s', h.job);
    AckIsTrue(cfg, s', s.workers[a.pid], h, o, a.call, Delivered(a.fault, a.reply), s.now, s.clock, a.token);
  }

  lemma AckingIs(op: Operation, w: Worker, h: Handle, o: seq<CommittedOutput>)
    requires PcFrom(op, w.id, w.pc)
    requires || w.pc == AckCompare(h, o) || w.pc == AckEquivalent(h, o)
             || (w.pc.Put? && w.pc.purpose == ForReceipt(h, o))
    ensures op == Acknowledge(h, o)
  {}

  lemma ReceiptTyped(cfg: Config, s: State, j: JobId)
    requires Inv(cfg, s)
    ensures ReceiptKey(j) in s.store ==> s.store[ReceiptKey(j)].record.Receipt?
  {}

  /** In every run, an enqueue, output commit, nack or burial that a reply ends reports an outcome. */
  lemma EndsAreReported(cfg: Config, states: seq<State>, k: nat, a: Action)
    requires Run(cfg, states) && k + 1 < |states| && a.Serve? && Serves(cfg, states[k], a, states[k + 1])
    requires states[k + 1].workers[a.pid].pc.Idle? && !NoReply(Delivered(a.fault, a.reply))
    requires var pc := states[k].workers[a.pid].pc;
             || pc.EnqueueCompare? || pc.CommitPut? || pc.CommitRead? || pc.BuryReceipt? || pc.BuryCompare?
             || (pc.Put? && (pc.purpose.ForEnqueue? || pc.purpose.ForFail? || pc.purpose.ForBurial?))
    ensures Reports(cfg, states[k].workers[a.pid].pc, Delivered(a.fault, a.reply)).Some?
  {
    hide Inv, PcFrom, Comparing, Truthful, Reports, Resume, Answers, Completes;
    var op := Served(cfg, states, k, a);
    var s, s' := states[k], states[k + 1];
    var w := s.workers[a.pid];
    ReportingIs(op, w);
    assert w.pc.CommitRead? ==> a.call == Get(OutputKey(w.pc.handle.job, w.pc.name));
    EndIsReported(cfg, s', op, w, a.call, Delivered(a.fault, a.reply), s.now, s.clock, a.token);
  }

  lemma ReportingIs(op: Operation, w: Worker)
    requires PcFrom(op, w.id, w.pc)
    requires || w.pc.EnqueueCompare? || w.pc.CommitPut? || w.pc.CommitRead? || w.pc.BuryReceipt? || w.pc.BuryCompare?
             || (w.pc.Put? && (w.pc.purpose.ForEnqueue? || w.pc.purpose.ForFail? || w.pc.purpose.ForBurial?))
    ensures op.Enqueue? || op.CommitOutput? || op.Nack? || op.Bury?
  {}
}
