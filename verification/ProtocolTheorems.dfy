/** What the invariant gives of every run: chains without gaps, attempts counted and bounded,
    leases that never overlap, hints that change nothing, outputs before receipts, deliveries
    that agree, and the exact window in which two terminal records can meet. */
module ProtocolTheorems {
  import opened Wrappers
  import opened Protocol
  import opened ProtocolInvariant
  import opened ProtocolPreservation
  import opened ProtocolRuns

  // ---------- Chains ----------

  lemma {:induction false} ChainHasNoGap(cfg: Config, s: State, j: JobId, g: nat, i: nat)
    requires ChainsOk(cfg, s) && ClaimKey(j, g) in s.store && 1 <= i <= g
    ensures ClaimAt(s.store, j, i) && GoodClaim(cfg, s, j, i)
    decreases g
  {
    assert GoodClaim(cfg, s, j, g);
    if i < g {
      ChainHasNoGap(cfg, s, j, g - 1, i);
    }
  }

  lemma {:induction false} TimesIncrease(cfg: Config, s: State, j: JobId, i: nat, g: nat)
    requires ChainsOk(cfg, s) && ClaimKey(j, g) in s.store && 1 <= i < g
    ensures ClaimAt(s.store, j, i) && ClaimAt(s.store, j, g)
    ensures TimeOf(s.store, j, i) < TimeOf(s.store, j, g)
    decreases g
  {
    assert GoodClaim(cfg, s, j, g);
    if i < g - 1 {
      TimesIncrease(cfg, s, j, i, g - 1);
    }
  }

  /** The guard a takeover must pass never falls along a chain, saturation included. */
  lemma {:induction false} GuardsNeverFall(cfg: Config, s: State, j: JobId, i: nat, g: nat)
    requires ChainsOk(cfg, s) && ClaimKey(j, g) in s.store && 1 <= i <= g
    ensures ClaimAt(s.store, j, i) && ClaimAt(s.store, j, g)
    ensures ExpiryGuard(cfg, s.store, j, i) <= ExpiryGuard(cfg, s.store, j, g)
    decreases g
  {
    assert GoodClaim(cfg, s, j, g);
    if i < g {
      GuardsNeverFall(cfg, s, j, i, g - 1);
      assert Linked(cfg, s.store, j, g);
    }
  }

  /** The takeover records among generations 1 to g. */
  function Takeovers(store: Store, j: JobId, g: nat): nat {
    if g == 0 then 0
    else Takeovers(store, j, g - 1) + (if ClaimAt(store, j, g) && !ClaimOf(store, j, g).continuation then 1 else 0)
  }

  lemma {:induction false} AttemptsCountTakeovers(cfg: Config, s: State, j: JobId, g: nat)
    requires ChainsOk(cfg, s) && ClaimKey(j, g) in s.store
    ensures ClaimAt(s.store, j, g) && ClaimOf(s.store, j, g).attempt == Takeovers(s.store, j, g)
  {
    assert GoodClaim(cfg, s, j, g);
    if g > 1 {
      AttemptsCountTakeovers(cfg, s, j, g - 1);
    } else {
      assert Takeovers(s.store, j, 0) == 0;
    }
  }

  predicate IsTail(store: Store, j: JobId, n: nat) {
    && (n > 0 ==> ClaimAt(store, j, n))
    && ClaimKey(j, n + 1) !in store
  }

  /** In every run each chain is generations 1..n, and `attempt` is the number of takeovers so
      far, never above the job's maximum. */
  lemma ChainInvariant(cfg: Config, states: seq<State>, k: nat, j: JobId, g: nat)
    requires Run(cfg, states) && k < |states| && ClaimKey(j, g) in states[k].store
    ensures forall i :: 1 <= i <= g ==> ClaimAt(states[k].store, j, i)
    ensures g >= 1 && ClaimAt(states[k].store, j, g)
    ensures ClaimOf(states[k].store, j, g).generation == g
    ensures ClaimOf(states[k].store, j, g).attempt == Takeovers(states[k].store, j, g)
    ensures JobKey(j) in states[k].store && states[k].store[JobKey(j)].record.Job?
    ensures 1 <= Takeovers(states[k].store, j, g) <= states[k].store[JobKey(j)].record.maximumAttempts
  {
    RunKeepsInv(cfg, states, k);
    var s := states[k];
    assert GoodClaim(cfg, s, j, g);
    forall i | 1 <= i <= g
      ensures ClaimAt(s.store, j, i)
    {
      ChainHasNoGap(cfg, s, j, g, i);
    }
    AttemptsCountTakeovers(cfg, s, j, g);
  }

  // ---------- Leases ----------

  /** The worker that drew a generation's token. */
  function OwnerOf(s: State, j: JobId, g: nat): Pid
    requires ClaimAt(s.store, j, g) && ClaimOf(s.store, j, g).token in s.owner
  {
    s.owner[ClaimOf(s.store, j, g).token]
  }

  lemma {:induction false} TakeoverBetweenOwners(cfg: Config, s: State, j: JobId, i: nat, g: nat) returns (t: nat)
    requires ChainsOk(cfg, s) && ClaimKey(j, g) in s.store && 1 <= i < g
    requires ClaimAt(s.store, j, i) && ClaimAt(s.store, j, g)
    requires ClaimOf(s.store, j, i).token != ClaimOf(s.store, j, g).token
    ensures i < t <= g && ClaimAt(s.store, j, t) && !ClaimOf(s.store, j, t).continuation
    decreases g
  {
    assert GoodClaim(cfg, s, j, g);
    if ClaimOf(s.store, j, g).continuation {
      t := TakeoverBetweenOwners(cfg, s, j, i, g - 1);
    } else {
      t := g;
    }
  }

  /** A takeover's store time, plus the skew guard, is past the guard of every earlier generation. */
  lemma TakeoverFollowsAll(cfg: Config, s: State, j: JobId, i: nat, t: nat)
    requires ChainsOk(cfg, s) && ClaimKey(j, t) in s.store && 1 <= i < t
    requires ClaimAt(s.store, j, t) && !ClaimOf(s.store, j, t).continuation
    ensures ClaimAt(s.store, j, i)
    ensures ExpiryGuard(cfg, s.store, j, i) < TimeOf(s.store, j, t) + cfg.skew
  {
    assert GoodClaim(cfg, s, j, t);
    GuardsNeverFall(cfg, s, j, i, t - 1);
    assert TakesOver(cfg, s.store, ClaimOf(s.store, j, t), j, t - 1);
  }

  /** Lease exclusion over whole runs, for any watermark and any hint: of two generations of one
      job drawn by different workers, the later one's store time is past the earlier one's
      expiry. Where time + lease + skew would exceed a u64, it is past U64_MAX - skew. */
  lemma LeaseExclusion(cfg: Config, states: seq<State>, k: nat, j: JobId, i: nat, g: nat)
    requires Run(cfg, states) && k < |states|
    requires 1 <= i < g && ClaimKey(j, g) in states[k].store
    ensures ClaimAt(states[k].store, j, i) && ClaimAt(states[k].store, j, g)
    ensures ClaimOf(states[k].store, j, i).token in states[k].owner
            && ClaimOf(states[k].store, j, g).token in states[k].owner
    ensures OwnerOf(states[k], j, i) != OwnerOf(states[k], j, g) ==>
              var expiry := TimeOf(states[k].store, j, i) + ClaimOf(states[k].store, j, i).lease;
              && (expiry + cfg.skew <= U64_MAX ==> expiry < TimeOf(states[k].store, j, g))
              && (expiry + cfg.skew > U64_MAX ==> U64_MAX < TimeOf(states[k].store, j, g) + cfg.skew)
  {
    RunKeepsInv(cfg, states, k);
    var s := states[k];
    ChainHasNoGap(cfg, s, j, g, i);
    ChainHasNoGap(cfg, s, j, g, g);
    if OwnerOf(s, j, i) != OwnerOf(s, j, g) {
      var t := TakeoverBetweenOwners(cfg, s, j, i, g);
      TakeoverFollowsAll(cfg, s, j, i, t);
      if t < g {
        TimesIncrease(cfg, s, j, t, g);
      }
    }
  }

  /** No two workers ever hold handles on the same generation of a job. */
  lemma CustodyIsExclusive(cfg: Config, states: seq<State>, k: nat, p: Pid, q: Pid, h: Handle, h': Handle)
    requires Run(cfg, states) && k < |states|
    requires p in states[k].workers && h in states[k].workers[p].handles
    requires q in states[k].workers && h' in states[k].workers[q].handles
    requires h.job == h'.job && h.generation == h'.generation
    ensures p == q && h.token == h'.token && h.attempt == h'.attempt && h.time == h'.time
  {
    RunKeepsInv(cfg, states, k);
    assert HandleOk(states[k], p, h);
    assert HandleOk(states[k], q, h');
  }

  // ---------- Hints ----------

  /** Whatever the hints say, a claim that commits extends the tail of that instant, and a
      takeover carries that tail's own store time, lease and attempt. */
  lemma ClaimExtendsTheTail(cfg: Config, states: seq<State>, k: nat, j: JobId, g: nat)
    requires Run(cfg, states) && k + 1 < |states|
    requires ClaimKey(j, g) !in states[k].store && ClaimKey(j, g) in states[k + 1].store
    ensures g >= 1 && IsTail(states[k].store, j, g - 1) && ClaimAt(states[k + 1].store, j, g)
    ensures g > 1 ==>
              var c := ClaimOf(states[k + 1].store, j, g);
              if c.continuation then Continues(states[k].store, c, j, g - 1)
              else TakesOver(cfg, states[k].store, c, j, g - 1)
  {
    hide Resume, Pending, Completes, Answers, Serves, Step, WorkerOk, ReceiptsOk, DeadOk, DeliveredOk, StampsOk;
    RunKeepsInv(cfg, states, k);
    RunKeepsInv(cfg, states, k + 1);
    var s, s' := states[k], states[k + 1];
    assert Next(cfg, s, s');
    var a :| Step(cfg, s, a, s');
    assert GoodClaim(cfg, s', j, g);
    OneNewClaim(cfg, s, a, s', j, g);
    if g > 1 {
      assert GoodClaim(cfg, s, j, g - 1);
    }
  }

  lemma OneNewClaim(cfg: Config, s: State, a: Action, s': State, j: JobId, g: nat)
    requires Step(cfg, s, a, s') && ClaimKey(j, g) !in s.store && ClaimKey(j, g) in s'.store
    ensures s'.store == s.store[ClaimKey(j, g) := s'.store[ClaimKey(j, g)]]
  {
    hide Resume, Pending, Completes, Answers;
  }

  /** A dead record appears by a burial or an exhaustion. An exhaustion rests on listed evidence:
      its generation was the tail when the store clock read `seen`, that tail had used every
      attempt, and its lease with the skew guard was over at the dead record's own store time. */
  lemma ExhaustionIsListed(cfg: Config, states: seq<State>, k: nat, a: Action, j: JobId)
    requires Run(cfg, states) && k + 1 < |states| && Step(cfg, states[k], a, states[k + 1])
    requires DeadKey(j) !in states[k].store && DeadKey(j) in states[k + 1].store
    ensures a.Serve? && a.pid in states[k].workers && states[k].workers[a.pid].pc.Put?
    ensures var purpose := states[k].workers[a.pid].pc.purpose;
            && (purpose.ForExhaustion? || purpose.ForBurial?)
            && (purpose.ForExhaustion? ==>
                  && var store := states[k + 1].store;
                  && var dead := store[DeadKey(j)];
                  && purpose.seen > 0 && Exhausted(store, dead.record, j, purpose.seen)
                  && ExpiryGuard(cfg, store, j, dead.record.generation) < dead.time + cfg.skew)
  {
    hide Resume;
    RunKeepsInv(cfg, states, k);
    var s, s' := states[k], states[k + 1];
    var w := s.workers[a.pid];
    ServeGrows(cfg, s, a, s');
    assert PcOk(cfg, s, a.pid, w.pc);
    if w.pc.purpose.ForExhaustion? {
      ExhaustedStays(s, s', w.pc.record, j, w.pc.purpose.seen);
    }
  }

  predicate BackedOff(store: Store, j: JobId, g: nat, floor: nat) {
    FailKey(j, g) in store && store[FailKey(j, g)].record.Fail? && floor < store[FailKey(j, g)].record.retryNotBefore
  }

  /** The gates of a claim that rest on generation `g`: its fail record and its lease. */
  predicate Declined(cfg: Config, store: Store, j: JobId, g: nat, floor: nat)
    requires ClaimAt(store, j, g)
  {
    BackedOff(store, j, g, floor) || floor < ExpiryGuard(cfg, store, j, g)
  }

  /** An older hinted generation declines what the tail would not exactly when it is its fail record
      that declines; its lease never does. */
  lemma StaleHintDeclinesExactly(cfg: Config, states: seq<State>, k: nat, j: JobId, hinted: nat, tail: nat, floor: nat)
    requires Run(cfg, states) && k < |states|
    requires 1 <= hinted <= tail && ClaimKey(j, tail) in states[k].store
    ensures ClaimAt(states[k].store, j, hinted) && ClaimAt(states[k].store, j, tail)
    ensures var store := states[k].store;
            Declined(cfg, store, j, hinted, floor) && !Declined(cfg, store, j, tail, floor)
            <==> BackedOff(store, j, hinted, floor) && !Declined(cfg, store, j, tail, floor)
  {
    hide Run;
    RunKeepsInv(cfg, states, k);
    GuardsNeverFall(cfg, states[k], j, hinted, tail);
  }

  // ---------- Outputs and deliveries ----------

  /** Each digest in a receipt is that of an object stored under the job's outputs, and the
      receipt speaks for a claim in the job's chain. */
  lemma OutputsPrecedeReceipts(cfg: Config, states: seq<State>, k: nat, j: JobId, d: Digest)
    requires Run(cfg, states) && k < |states| && ReceiptKey(j) in states[k].store
    ensures states[k].store[ReceiptKey(j)].record.Receipt?
    ensures d in states[k].store[ReceiptKey(j)].record.outputs ==> HasOutput(cfg, states[k].store, j, d)
    ensures Evidenced(states[k].store, j, states[k].store[ReceiptKey(j)].record.generation,
                      states[k].store[ReceiptKey(j)].record.attempt)
  {
    RunKeepsInv(cfg, states, k);
    assert GoodReceipt(cfg, states[k].store, states[k].store[ReceiptKey(j)].record, j);
  }

  /** Any two deliveries of one job, by any workers, report the same output digests, which are
      those of the receipt. */
  lemma DeliveriesAgree(cfg: Config, states: seq<State>, k: nat, d: Delivery, d': Delivery)
    requires Run(cfg, states) && k < |states|
    requires d in states[k].delivered && d' in states[k].delivered && d.job == d'.job
    ensures d.outputs == d'.outputs
    ensures ReceiptKey(d.job) in states[k].store && states[k].store[ReceiptKey(d.job)].record.Receipt?
    ensures states[k].store[ReceiptKey(d.job)].record.outputs == d.outputs
  {
    RunKeepsInv(cfg, states, k);
  }

  // ---------- Terminal records ----------

  predicate BothTerminals(s: State, j: JobId) {
    ReceiptKey(j) in s.store && DeadKey(j) in s.store
  }

  /** At store-call granularity a receipt and a dead record coexist only if both writers' guard
      reads came before both writes, whichever of the three writers they were. */
  lemma TerminalsOnlyCross(cfg: Config, states: seq<State>, k: nat, j: JobId)
    requires Run(cfg, states) && k < |states| && BothTerminals(states[k], j)
    ensures ReceiptKey(j) in states[k].stamps && DeadKey(j) in states[k].stamps
    ensures var r, d := states[k].stamps[ReceiptKey(j)], states[k].stamps[DeadKey(j)];
            r.guard < r.put && r.guard < d.put && d.guard < r.put && d.guard < d.put
  {
    RunKeepsInv(cfg, states, k);
    assert Crossed(states[k], j);
  }

  /** Only stored objects are stamped. */
  lemma {:induction false} StampsAreStored(cfg: Config, states: seq<State>, k: nat, key: Key)
    requires Run(cfg, states) && k < |states| && key in states[k].stamps && !key.TailKey?
    ensures key in states[k].store
  {
    if k > 0 {
      assert Next(cfg, states[k - 1], states[k - 1 + 1]);
      var a :| Step(cfg, states[k - 1], a, states[k]);
      if key in states[k - 1].stamps {
        StampsAreStored(cfg, states, k - 1, key);
      }
    }
  }

  /** A terminal write leaves both records exactly when the other one was written between this
      writer's guard read and its put. */
  lemma TerminalWriteCrossesExactly(cfg: Config, states: seq<State>, k: nat, j: JobId, own: Key, other: Key)
    requires Run(cfg, states) && k + 1 < |states|
    requires (own == ReceiptKey(j) && other == DeadKey(j)) || (own == DeadKey(j) && other == ReceiptKey(j))
    requires own !in states[k].store && own in states[k + 1].store
    ensures own in states[k + 1].stamps
    ensures var stamps := states[k + 1].stamps;
            BothTerminals(states[k + 1], j)
            <==> other in stamps && stamps[own].guard < stamps[other].put < stamps[own].put
  {
    RunKeepsInv(cfg, states, k);
    RunKeepsInv(cfg, states, k + 1);
    assert Next(cfg, states[k], states[k + 1]);
    var a :| Step(cfg, states[k], a, states[k + 1]);
    ServeGrows(cfg, states[k], a, states[k + 1]);
    assert Crossed(states[k], j) && Crossed(states[k + 1], j);
    if other in states[k + 1].stamps {
      StampsAreStored(cfg, states, k + 1, other);
    }
  }

  /** Operations run one at a time: at most one worker is inside one. */
  ghost predicate Atomic(s: State) {
    forall p, q :: p in s.workers && q in s.workers && s.workers[p].pc != Idle && s.workers[q].pc != Idle ==> p == q
  }

  ghost predicate AtomicRun(cfg: Config, states: seq<State>) {
    Run(cfg, states) && forall i :: 0 <= i < |states| ==> Atomic(states[i])
  }

  /** The terminal key a program counter has found absent and relies on. */
  predicate ReliesOn(pc: Pc, k: Key) {
    match pc
    case Gather(sc, r, _, _) => r == Some(Absent) && k == ReceiptKey(sc.job)
    case TailRecord(sc, _, _, _) => k == ReceiptKey(sc.job)
    case ReadFail(sc, _, _) => k == ReceiptKey(sc.job)
    case ReadJob(sc, _, _) => k == ReceiptKey(sc.job)
    case Relist(sc, _) => k == ReceiptKey(sc.job)
    case AckOutput(h, _, _, _) => k == DeadKey(h.job)
    case Put(ReceiptKey(j), _, _, _, _) => k == DeadKey(j)
    case Put(DeadKey(j), _, _, _, _) => k == ReceiptKey(j)
    case Put(_, _, ForClaim(sc, _, _), _, _) => k == ReceiptKey(sc.job)
    case _ => false
  }

  ghost predicate Exclusive(s: State) {
    && (forall j :: !BothTerminals(s, j))
    && (forall p, k :: p in s.workers && ReliesOn(s.workers[p].pc, k) ==> k !in s.store)
  }

  /** A program counter comes to rely on a key only by having just seen it absent. */
  lemma ResumeRelies(cfg: Config, s: State, w: Worker, call: Call, reply: Reply, now: nat, clock: nat, token: Token,
                     k: Key)
    requires Pending(w.pc, call) && Truthful(s, call, reply)
    requires w.pc.Put? && w.pc.purpose.ForClaim? ==> w.pc.key.ClaimKey?
    requires ReliesOn(Resume(cfg, w, call, reply, now, clock, token).pc, k)
    ensures ReliesOn(w.pc, k) || k !in s.store
  {
    if w.pc.Put? {
      PutRelies(cfg, w, call, reply, now, clock, token, k);
    } else if w.pc.Gather? {
      GatherRelies(cfg, s, w, call, reply, now, clock, token, k);
    }
  }

  lemma PutRelies(cfg: Config, w: Worker, call: Call, reply: Reply, now: nat, clock: nat, token: Token, k: Key)
    requires w.pc.Put? && Pending(w.pc, call) && (w.pc.purpose.ForClaim? ==> w.pc.key.ClaimKey?)
    requires ReliesOn(Resume(cfg, w, call, reply, now, clock, token).pc, k)
    ensures ReliesOn(w.pc, k)
  {}

  lemma GatherRelies(cfg: Config, s: State, w: Worker, call: Call, reply: Reply, now: nat, clock: nat, token: Token,
                     k: Key)
    requires w.pc.Gather? && Pending(w.pc, call) && Truthful(s, call, reply)
    requires ReliesOn(Resume(cfg, w, call, reply, now, clock, token).pc, k)
    ensures ReliesOn(w.pc, k) || k !in s.store
  {
    assert reply == NotFound || ReliesOn(w.pc, k);
  }

  /** Serving the only busy worker: a terminal write finds the other terminal key absent. */
  lemma AtomicWrite(cfg: Config, s: State, a: Action, s': State, j: JobId)
    requires a.Serve? && Serves(cfg, s, a, s') && PcOk(cfg, s, a.pid, s.workers[a.pid].pc) && Exclusive(s)
    ensures !BothTerminals(s', j)
  {
    var pc := s.workers[a.pid].pc;
    if a.call.PutIfAbsent? && a.call.key == ReceiptKey(j) {
      assert ReliesOn(pc, DeadKey(j));
    } else if a.call.PutIfAbsent? && a.call.key == DeadKey(j) {
      assert ReliesOn(pc, ReceiptKey(j));
    }
    assert !BothTerminals(s, j);
  }

  lemma AtomicRelies(cfg: Config, s: State, a: Action, s': State, k: Key)
    requires a.Serve? && Serves(cfg, s, a, s') && PcOk(cfg, s, a.pid, s.workers[a.pid].pc) && Exclusive(s)
    requires ReliesOn(s'.workers[a.pid].pc, k)
    ensures k !in s'.store
  {
    var w := s.workers[a.pid];
    ServeIsTruthful(cfg, s, a, s');
    ResumeRelies(cfg, s', w, a.call, Delivered(a.fault, a.reply), s.now, s.clock, a.token, k);
  }

  lemma AtomicServe(cfg: Config, s: State, a: Action, s': State)
    requires a.Serve? && Serves(cfg, s, a, s') && PcOk(cfg, s, a.pid, s.workers[a.pid].pc) && Exclusive(s) && Atomic(s)
    ensures Exclusive(s')
  {
    forall j
      ensures !BothTerminals(s', j)
    {
      AtomicWrite(cfg, s, a, s', j);
    }
    forall p, k | p in s'.workers && ReliesOn(s'.workers[p].pc, k)
      ensures k !in s'.store
    {
      AtomicRelies(cfg, s, a, s', k);
    }
  }

  lemma AtomicQuiet(cfg: Config, s: State, a: Action, s': State)
    requires !a.Serve? && Step(cfg, s, a, s') && Exclusive(s)
    ensures Exclusive(s')
  {
    assert forall j :: BothTerminals(s', j) ==> BothTerminals(s, j);
  }

  /** With operations run one at a time no run leaves both a receipt and a dead record. */
  lemma {:induction false} AtomicRunsAreExclusive(cfg: Config, states: seq<State>, k: nat)
    requires AtomicRun(cfg, states) && k < |states|
    ensures Exclusive(states[k])
  {
    if k > 0 {
      AtomicRunsAreExclusive(cfg, states, k - 1);
      RunKeepsInv(cfg, states, k - 1);
      assert Next(cfg, states[k - 1], states[k - 1 + 1]);
      var a :| Step(cfg, states[k - 1], a, states[k]);
      if a.Serve? {
        AtomicServe(cfg, states[k - 1], a, states[k]);
      } else {
        AtomicQuiet(cfg, states[k - 1], a, states[k]);
      }
    }
  }

  lemma AtomicTerminalExclusivity(cfg: Config, states: seq<State>, k: nat, j: JobId)
    requires AtomicRun(cfg, states) && k < |states|
    ensures !BothTerminals(states[k], j)
  {
    AtomicRunsAreExclusive(cfg, states, k);
  }
}
