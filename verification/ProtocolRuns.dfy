/** The invariant over whole runs. */
module ProtocolRuns {
  import opened Protocol
  import opened ProtocolInvariant
  import opened ProtocolPreservation

  // ---------- Serving a call ----------

  lemma ServeGrows(cfg: Config, s: State, a: Action, s': State)
    requires a.Serve? && Serves(cfg, s, a, s')
    requires forall p :: p in s.workers ==> WorkerOk(cfg, s, p, s.workers[p])
    ensures Grows(s, s')
  {
    var w := s.workers[a.pid];
    if a.call.PutIfAbsent? && !w.pc.Put? {
      assert !a.call.key.ReceiptKey? && !a.call.key.DeadKey?;
    }
    assert Resume(cfg, w, a.call, Delivered(a.fault, a.reply), s.now, s.clock, a.token).id == w.id;
  }

  lemma ServeIsTruthful(cfg: Config, s: State, a: Action, s': State)
    requires a.Serve? && Serves(cfg, s, a, s')
    ensures Truthful(s', a.call, Delivered(a.fault, a.reply))
  {}

  /** Taking over behind a floor the store clock vouches for: the new store time exceeds it. */
  lemma TakeoverIsGood(cfg: Config, s: State, p: Pid, c: ClaimRecord, s': State)
    requires Grows(s, s') && Admissible(cfg, s, p, c)
    requires ClaimKey(c.job, c.generation) !in s.store && ClaimKey(c.job, c.generation) in s'.store
    requires s'.store[ClaimKey(c.job, c.generation)].record == Claim(c)
    requires c.generation > 1 ==> TimeOf(s.store, c.job, c.generation - 1) <= s.clock
    ensures GoodClaim(cfg, s', c.job, c.generation)
  {
    AdmissibleStays(cfg, s, s', p, c);
  }

  lemma RenewalIsGood(cfg: Config, s: State, p: Pid, h: Handle, s': State)
    requires Grows(s, s') && p in s.workers && HandleOk(s, p, h) && h.time <= s.clock
    requires GoodClaim(cfg, s, h.job, h.generation)
    requires ClaimKey(h.job, h.generation + 1) !in s.store && ClaimKey(h.job, h.generation + 1) in s'.store
    requires s'.store[ClaimKey(h.job, h.generation + 1)].record == Claim(RenewalRecord(s.workers[p].id, h))
    ensures GoodClaim(cfg, s', h.job, h.generation + 1)
  {
    HandleStays(s, s', p, h);
    GoodClaimStays(cfg, s, s', h.job, h.generation);
  }

  /** The record a write adds is the one its program counter promised. */
  lemma NewClaimIsGood(cfg: Config, s: State, p: Pid, pc: Pc, s': State, j: JobId, g: nat)
    requires Grows(s, s') && StoreOk(cfg, s) && p in s.workers && pc.Put? && PutOk(cfg, s, p, pc)
    requires pc.key == ClaimKey(j, g) && ClaimKey(j, g) in s'.store && ClaimKey(j, g) !in s.store
    requires s'.store[ClaimKey(j, g)].record == pc.record
    ensures GoodClaim(cfg, s', j, g)
  {
    if pc.purpose.ForClaim? {
      TakeoverIsGood(cfg, s, p, pc.record.claim, s');
    } else {
      RenewalIsGood(cfg, s, p, pc.purpose.handle, s');
    }
  }

  lemma GoodClaimStays(cfg: Config, s: State, s': State, j: JobId, g: nat)
    requires Grows(s, s') && GoodClaim(cfg, s, j, g)
    ensures GoodClaim(cfg, s', j, g)
  {}

  lemma GoodReceiptStays(cfg: Config, s: State, s': State, r: Record, j: JobId)
    requires Grows(s, s') && GoodReceipt(cfg, s.store, r, j)
    ensures GoodReceipt(cfg, s'.store, r, j)
  {
    forall i | 0 <= i < |r.outputs|
      ensures HasOutput(cfg, s'.store, j, r.outputs[i])
    {
      OutputsStay(cfg, s, s', j, r.outputs[i]);
    }
  }

  lemma NewReceiptIsGood(cfg: Config, s: State, a: Action, s': State, j: JobId)
    requires a.Serve? && Serves(cfg, s, a, s') && Grows(s, s')
    requires WorkerOk(cfg, s, a.pid, s.workers[a.pid])
    requires ReceiptKey(j) in s'.store && ReceiptKey(j) !in s.store
    ensures GoodReceipt(cfg, s'.store, s'.store[ReceiptKey(j)].record, j)
  {
    var pc := s.workers[a.pid].pc;
    assert a.call.key == ReceiptKey(j) && pc.Put? && PutOk(cfg, s, a.pid, pc);
    var h, o := pc.purpose.handle, pc.purpose.outputs;
    VerifiedStays(cfg, s, s', h, o, |o|);
    forall i | 0 <= i < |Digests(o)|
      ensures HasOutput(cfg, s'.store, j, Digests(o)[i])
    {
      assert Digests(o)[i] == o[i].digest;
    }
  }

  lemma NewDeadIsGood(cfg: Config, s: State, a: Action, s': State, j: JobId)
    requires a.Serve? && Serves(cfg, s, a, s') && Grows(s, s')
    requires WorkerOk(cfg, s, a.pid, s.workers[a.pid])
    requires DeadKey(j) in s'.store && DeadKey(j) !in s.store
    ensures DeadKey(j) in s'.stamps && GoodDead(s', s'.store[DeadKey(j)].record, j, s'.stamps[DeadKey(j)].seen)
  {
    var pc := s.workers[a.pid].pc;
    assert a.call.key == DeadKey(j) && pc.Put? && PutOk(cfg, s, a.pid, pc);
    if pc.purpose.ForExhaustion? {
      ExhaustedStays(s, s', pc.record, j, pc.purpose.seen);
    }
  }

  lemma ServeKeepsChains(cfg: Config, s: State, a: Action, s': State)
    requires a.Serve? && Serves(cfg, s, a, s') && Grows(s, s')
    requires StoreOk(cfg, s) && WorkerOk(cfg, s, a.pid, s.workers[a.pid])
    ensures ChainsOk(cfg, s')
  {
    forall j, g | ClaimKey(j, g) in s'.store
      ensures GoodClaim(cfg, s', j, g)
    {
      if ClaimKey(j, g) in s.store {
        GoodClaimStays(cfg, s, s', j, g);
      } else {
        NewClaimIsGood(cfg, s, a.pid, s.workers[a.pid].pc, s', j, g);
      }
    }
  }

  lemma ServeKeepsReceipts(cfg: Config, s: State, a: Action, s': State)
    requires a.Serve? && Serves(cfg, s, a, s') && Grows(s, s')
    requires ReceiptsOk(cfg, s) && WorkerOk(cfg, s, a.pid, s.workers[a.pid])
    ensures ReceiptsOk(cfg, s')
  {
    forall j | ReceiptKey(j) in s'.store
      ensures GoodReceipt(cfg, s'.store, s'.store[ReceiptKey(j)].record, j)
    {
      if ReceiptKey(j) in s.store {
        GoodReceiptStays(cfg, s, s', s.store[ReceiptKey(j)].record, j);
      } else {
        NewReceiptIsGood(cfg, s, a, s', j);
      }
    }
  }

  lemma ServeKeepsDead(cfg: Config, s: State, a: Action, s': State)
    requires a.Serve? && Serves(cfg, s, a, s') && Grows(s, s')
    requires DeadOk(s) && WorkerOk(cfg, s, a.pid, s.workers[a.pid])
    ensures DeadOk(s')
  {
    forall j | DeadKey(j) in s'.store
      ensures DeadKey(j) in s'.stamps && GoodDead(s', s'.store[DeadKey(j)].record, j, s'.stamps[DeadKey(j)].seen)
    {
      if DeadKey(j) !in s.store {
        NewDeadIsGood(cfg, s, a, s', j);
      } else if s.stamps[DeadKey(j)].seen > 0 {
        ExhaustedStays(s, s', s.store[DeadKey(j)].record, j, s.stamps[DeadKey(j)].seen);
      }
    }
  }

  lemma ServeKeepsStore(cfg: Config, s: State, a: Action, s': State)
    requires a.Serve? && Serves(cfg, s, a, s') && Grows(s, s')
    requires StoreOk(cfg, s) && WorkerOk(cfg, s, a.pid, s.workers[a.pid])
    ensures StoreOk(cfg, s')
  {
    ServeKeepsChains(cfg, s, a, s');
    ServeKeepsReceipts(cfg, s, a, s');
    ServeKeepsDead(cfg, s, a, s');
  }

  /** A terminal write after a guard that saw the other key absent crosses it. */
  lemma ServeKeepsStamps(cfg: Config, s: State, a: Action, s': State)
    requires a.Serve? && Serves(cfg, s, a, s')
    requires StampsOk(s) && WorkerOk(cfg, s, a.pid, s.workers[a.pid])
    ensures StampsOk(s')
  {
    forall j: JobId
      ensures Stamped(s', ReceiptKey(j)) && Stamped(s', DeadKey(j)) && Crossed(s', j)
    {
      assert Crossed(s, j);
      var pc := s.workers[a.pid].pc;
      if a.call.PutIfAbsent? && (a.call.key == ReceiptKey(j) || a.call.key == DeadKey(j)) {
        assert pc.Put? && PutOk(cfg, s, a.pid, pc);
      }
    }
  }

  lemma ServeKeepsDelivered(cfg: Config, s: State, a: Action, s': State)
    requires a.Serve? && Serves(cfg, s, a, s') && Grows(s, s')
    requires DeliveredOk(s) && WorkerOk(cfg, s, a.pid, s.workers[a.pid])
    ensures DeliveredOk(s')
  {
    ServeIsTruthful(cfg, s, a, s');
    var pc := s.workers[a.pid].pc;
    if pc.Put? && pc.purpose.ForReceipt? {
      assert PutOk(cfg, s, a.pid, pc);
    }
  }

  lemma ServeKeepsWorkers(cfg: Config, s: State, a: Action, s': State)
    requires a.Serve? && Serves(cfg, s, a, s') && Grows(s, s') && StoreOk(cfg, s')
    requires forall p :: p in s.workers ==> WorkerOk(cfg, s, p, s.workers[p])
    ensures forall p :: p in s'.workers ==> WorkerOk(cfg, s', p, s'.workers[p])
  {
    forall p | p in s'.workers
      ensures WorkerOk(cfg, s', p, s'.workers[p])
    {
      WorkerStays(cfg, s, s', p, s.workers[p]);
      if p == a.pid {
        var w, reply := s.workers[p], Delivered(a.fault, a.reply);
        ServeIsTruthful(cfg, s, a, s');
        ChainTimesHold(cfg, s');
        WorkerResumes(cfg, s', p, w, a.call, reply, s.now, a.token);
        assert Resume(cfg, w, a.call, reply, s.now, s.clock, a.token)
            == Resume(cfg, w, a.call, reply, s.now, s'.clock, a.token);
      }
    }
  }

  lemma ChainTimesHold(cfg: Config, s: State)
    requires StoreOk(cfg, s)
    ensures StoreTimes(s) && ChainTimes(s) && JobsTyped(s)
  {
    forall j, g | ClaimKey(j, g) in s.store
      ensures g >= 1 && s.store[ClaimKey(j, g)].time <= s.clock
    {
      assert GoodClaim(cfg, s, j, g);
    }
  }

  // ---------- The other actions ----------

  lemma StoreStays(cfg: Config, s: State, s': State)
    requires Grows(s, s') && StoreOk(cfg, s)
    requires forall k :: k in s'.store && !k.TailKey? ==> k in s.store
    ensures StoreOk(cfg, s')
  {
    forall j, g | ClaimKey(j, g) in s'.store
      ensures GoodClaim(cfg, s', j, g)
    {
      GoodClaimStays(cfg, s, s', j, g);
    }
    forall j | ReceiptKey(j) in s'.store
      ensures GoodReceipt(cfg, s'.store, s'.store[ReceiptKey(j)].record, j)
    {
      GoodReceiptStays(cfg, s, s', s.store[ReceiptKey(j)].record, j);
    }
    forall j | DeadKey(j) in s'.store
      ensures DeadKey(j) in s'.stamps && GoodDead(s', s'.store[DeadKey(j)].record, j, s'.stamps[DeadKey(j)].seen)
    {
      if s.stamps[DeadKey(j)].seen > 0 {
        ExhaustedStays(s, s', s.store[DeadKey(j)].record, j, s.stamps[DeadKey(j)].seen);
      }
    }
  }

  lemma StartedIsOk(cfg: Config, s: State, p: Pid, op: Operation)
    requires p in s.workers && WorkerOk(cfg, s, p, s.workers[p]) && Startable(s.workers[p], op)
    ensures PcOk(cfg, s, p, Started(cfg, op))
  {}

  lemma QuietGrows(cfg: Config, s: State, a: Action, s': State)
    requires !a.Serve? && Step(cfg, s, a, s')
    ensures Grows(s, s')
    ensures forall k :: k in s'.store && !k.TailKey? ==> k in s.store
    ensures s'.stamps == s.stamps && s'.now == s.now && s'.delivered == s.delivered
  {}

  lemma QuietKeepsWorkers(cfg: Config, s: State, a: Action, s': State)
    requires !a.Serve? && Step(cfg, s, a, s') && Grows(s, s')
    requires forall p :: p in s.workers ==> WorkerOk(cfg, s, p, s.workers[p])
    ensures forall p :: p in s'.workers ==> WorkerOk(cfg, s', p, s'.workers[p])
  {
    forall p | p in s'.workers
      ensures WorkerOk(cfg, s', p, s'.workers[p])
    {
      if p in s.workers {
        WorkerStays(cfg, s, s', p, s.workers[p]);
        if a.Start? && a.pid == p {
          StartedIsOk(cfg, s, p, a.op);
          PcStays(cfg, s, s', p, Started(cfg, a.op));
        }
      }
    }
  }

  /** The actions that write nothing but a hint. */
  lemma QuietKeepsInv(cfg: Config, s: State, a: Action, s': State)
    requires !a.Serve? && Step(cfg, s, a, s') && Inv(cfg, s)
    ensures Inv(cfg, s')
  {
    QuietGrows(cfg, s, a, s');
    StoreStays(cfg, s, s');
    QuietKeepsWorkers(cfg, s, a, s');
    forall j: JobId
      ensures Stamped(s', ReceiptKey(j)) && Stamped(s', DeadKey(j)) && Crossed(s', j)
    {
      assert Crossed(s, j);
    }
  }

  /** Every action keeps the invariant. */
  lemma StepKeepsInv(cfg: Config, s: State, a: Action, s': State)
    requires Step(cfg, s, a, s') && Inv(cfg, s)
    ensures Inv(cfg, s')
  {
    if a.Serve? {
      ServeGrows(cfg, s, a, s');
      ServeKeepsStore(cfg, s, a, s');
      ServeKeepsStamps(cfg, s, a, s');
      ServeKeepsDelivered(cfg, s, a, s');
      ServeKeepsWorkers(cfg, s, a, s');
    } else {
      QuietKeepsInv(cfg, s, a, s');
    }
  }

  lemma InitIsOk(cfg: Config, s: State)
    requires Init(s)
    ensures Inv(cfg, s)
  {
    assert forall j: JobId :: Stamped(s, ReceiptKey(j)) && Stamped(s, DeadKey(j)) && Crossed(s, j);
  }

  /** Every state of every run satisfies the invariant. */
  lemma {:induction false} RunKeepsInv(cfg: Config, states: seq<State>, i: nat)
    requires Run(cfg, states) && i < |states|
    ensures Inv(cfg, states[i])
  {
    if i == 0 {
      InitIsOk(cfg, states[0]);
    } else {
      RunKeepsInv(cfg, states, i - 1);
      assert Next(cfg, states[i - 1], states[i - 1 + 1]);
      var a :| Step(cfg, states[i - 1], a, states[i]);
      StepKeepsInv(cfg, states[i - 1], a, states[i]);
    }
  }
}
