/** One job's objects in the protocol's store, seen as the atomic operations see them, and the
    uninterrupted steps of one worker. Every reachable store has such objects. */
module JobObjects {
  import opened Wrappers
  import opened Protocol
  import opened ProtocolInvariant
  import opened ProtocolRuns
  import opened ProtocolTheorems
  import A = OracleRefinement

  // ---------- A job's objects in the store ----------

  /** The job is enqueued, its chain is generations 1..n, and each key holds its own kind of record. */
  ghost predicate Chain(store: Store, j: JobId, n: nat) {
    && n <= U32_MAX
    && JobKey(j) in store && store[JobKey(j)].record.Job?
    && (forall i :: 1 <= i <= n ==> ClaimAt(store, j, i))
    && (forall g :: g > n ==> ClaimKey(j, g) !in store)
    && (forall g: nat :: FailKey(j, g) in store ==> store[FailKey(j, g)].record.Fail? && 1 <= g <= n)
    && (forall name :: OutputKey(j, name) in store ==> store[OutputKey(j, name)].record.Output?)
    && (ReceiptKey(j) in store ==> store[ReceiptKey(j)].record.Receipt?)
    && (DeadKey(j) in store ==> store[DeadKey(j)].record.Dead?)
  }

  ghost function ClaimsOf(store: Store, j: JobId, n: nat): seq<A.StoredClaim>
    requires Chain(store, j, n)
  {
    seq(n, i requires 0 <= i < n => StoredAt(store, j, i + 1))
  }

  ghost function StoredAt(store: Store, j: JobId, g: nat): A.StoredClaim
    requires ClaimAt(store, j, g)
  {
    A.StoredClaim(TimeOf(store, j, g), ClaimOf(store, j, g).attempt, ClaimOf(store, j, g).lease)
  }

  ghost function FailsOf(store: Store, j: JobId, n: nat): map<nat, nat>
    requires Chain(store, j, n)
  {
    map g | 1 <= g <= n && FailKey(j, g) in store :: store[FailKey(j, g)].record.retryNotBefore
  }

  ghost function OutputsOf(cfg: Config, store: Store, j: JobId, n: nat): map<nat, Digest>
    requires Chain(store, j, n)
  {
    map k | k in store && k.OutputKey? && k.job == j :: k.name := cfg.sha(store[OutputKey(j, k.name)].record.body)
  }

  ghost function ReceiptOf(store: Store, j: JobId, n: nat): Option<A.Mark>
    requires Chain(store, j, n)
  {
    if ReceiptKey(j) !in store then None
    else
      var r := store[ReceiptKey(j)].record;
      Some(A.Mark(r.generation, r.attempt, r.payload, r.outputs))
  }

  ghost function DeathOf(store: Store, j: JobId, n: nat): Option<A.Death>
    requires Chain(store, j, n)
  {
    if DeadKey(j) !in store then None
    else
      var d := store[DeadKey(j)].record;
      Some(A.Death(d.generation, d.attempt, d.reason))
  }

  ghost function ObjectsOf(cfg: Config, store: Store, j: JobId, n: nat): A.Objects
    requires Chain(store, j, n)
  {
    A.Objects(store[JobKey(j)].record.maximumAttempts, store[JobKey(j)].record.notBefore, ClaimsOf(store, j, n),
              FailsOf(store, j, n), OutputsOf(cfg, store, j, n), ReceiptOf(store, j, n), DeathOf(store, j, n))
  }

  /** What the objects say of the store. */
  lemma ObjectsAre(cfg: Config, store: Store, j: JobId, n: nat)
    requires Chain(store, j, n)
    ensures var o := ObjectsOf(cfg, store, j, n);
            && |o.claims| == n
            && (forall g :: 1 <= g <= n ==> ClaimAt(store, j, g) && o.claims[g - 1] == StoredAt(store, j, g))
            && A.TailOf(o) == (if n == 0 then A.StoredClaim(0, 0, 0) else StoredAt(store, j, n))
            && (forall g: nat :: g in o.fails <==> FailKey(j, g) in store)
            && (forall g: nat :: g in o.fails ==> o.fails[g] == store[FailKey(j, g)].record.retryNotBefore)
            && (forall name :: name in o.outputs <==> OutputKey(j, name) in store)
            && (forall name :: name in o.outputs ==> o.outputs[name] == cfg.sha(store[OutputKey(j, name)].record.body))
            && (A.Terminated(o) <==> ReceiptKey(j) in store || DeadKey(j) in store)
            && (o.receipt.Some? <==> ReceiptKey(j) in store) && (o.dead.Some? <==> DeadKey(j) in store)
            && o.maximumAttempts == store[JobKey(j)].record.maximumAttempts
            && o.notBefore == store[JobKey(j)].record.notBefore
  {
    var o := ObjectsOf(cfg, store, j, n);
    forall name ensures name in o.outputs <==> OutputKey(j, name) in store {
      assert OutputKey(j, name) in store ==> OutputKey(j, name).name in o.outputs;
    }
  }

  // ---------- One more object ----------

  lemma ChainGrows(store: Store, j: JobId, n: nat, k: Key, x: Object)
    requires Chain(store, j, n) && k !in store && x.record.Fail? == k.FailKey? && x.record.Output? == k.OutputKey?
    requires x.record.Receipt? == k.ReceiptKey? && x.record.Dead? == k.DeadKey? && !k.JobKey?
    requires !k.ClaimKey? && (k.FailKey? && k.job == j ==> 1 <= k.generation <= n)
    ensures Chain(store[k := x], j, n)
    ensures ClaimsOf(store[k := x], j, n) == ClaimsOf(store, j, n)
  {
    var after := store[k := x];
    forall i | 1 <= i <= n ensures ClaimAt(after, j, i) {
      assert ClaimAt(store, j, i);
    }
    assert Chain(after, j, n);
    forall i | 0 <= i < n ensures ClaimsOf(after, j, n)[i] == ClaimsOf(store, j, n)[i] {
      assert ClaimAt(store, j, i + 1);
    }
  }

  /** A new claim at the end of the chain. */
  lemma ClaimAdded(cfg: Config, store: Store, j: JobId, n: nat, r: ClaimRecord, t: nat)
    requires Chain(store, j, n) && n < U32_MAX
    ensures var after := store[ClaimKey(j, n + 1) := Object(Claim(r), t)];
            && Chain(after, j, n + 1)
            && var o := ObjectsOf(cfg, store, j, n);
            ObjectsOf(cfg, after, j, n + 1) == o.(claims := o.claims + [A.StoredClaim(t, r.attempt, r.lease)])
  {
    var after := store[ClaimKey(j, n + 1) := Object(Claim(r), t)];
    forall i | 1 <= i <= n + 1 ensures ClaimAt(after, j, i) {
      assert i <= n ==> ClaimAt(store, j, i);
    }
    assert Chain(after, j, n + 1);
    forall i | 0 <= i < n ensures ClaimsOf(after, j, n + 1)[i] == ClaimsOf(store, j, n)[i] {
      assert ClaimAt(store, j, i + 1);
    }
    assert ClaimsOf(after, j, n + 1) == ClaimsOf(store, j, n) + [A.StoredClaim(t, r.attempt, r.lease)];
    assert FailsOf(after, j, n + 1) == FailsOf(store, j, n);
    SameOutputs(cfg, store, after, j, n, n + 1);
  }

  lemma SameOutputs(cfg: Config, store: Store, after: Store, j: JobId, n: nat, m: nat)
    requires Chain(store, j, n) && Chain(after, j, m)
    requires forall name :: OutputKey(j, name) in store <==> OutputKey(j, name) in after
    requires forall name :: OutputKey(j, name) in store ==> store[OutputKey(j, name)] == after[OutputKey(j, name)]
    ensures OutputsOf(cfg, store, j, n) == OutputsOf(cfg, after, j, m)
  {
    ObjectsAre(cfg, store, j, n);
    ObjectsAre(cfg, after, j, m);
  }

  lemma DeadAdded(cfg: Config, store: Store, j: JobId, n: nat, r: Record, t: nat)
    requires Chain(store, j, n) && DeadKey(j) !in store && r.Dead?
    ensures var after := store[DeadKey(j) := Object(r, t)];
            && Chain(after, j, n)
            && ObjectsOf(cfg, after, j, n)
               == ObjectsOf(cfg, store, j, n).(dead := Some(A.Death(r.generation, r.attempt, r.reason)))
  {
    var after := store[DeadKey(j) := Object(r, t)];
    ChainGrows(store, j, n, DeadKey(j), Object(r, t));
    assert FailsOf(after, j, n) == FailsOf(store, j, n);
    SameOutputs(cfg, store, after, j, n, n);
  }

  lemma ReceiptAdded(cfg: Config, store: Store, j: JobId, n: nat, r: Record, t: nat)
    requires Chain(store, j, n) && ReceiptKey(j) !in store && r.Receipt?
    ensures var after := store[ReceiptKey(j) := Object(r, t)];
            && Chain(after, j, n)
            && ObjectsOf(cfg, after, j, n)
               == ObjectsOf(cfg, store, j, n).(receipt := Some(A.Mark(r.generation, r.attempt, r.payload, r.outputs)))
  {
    var after := store[ReceiptKey(j) := Object(r, t)];
    ChainGrows(store, j, n, ReceiptKey(j), Object(r, t));
    assert FailsOf(after, j, n) == FailsOf(store, j, n);
    SameOutputs(cfg, store, after, j, n, n);
  }

  lemma FailAdded(cfg: Config, store: Store, j: JobId, n: nat, g: nat, r: Record, t: nat)
    requires Chain(store, j, n) && FailKey(j, g) !in store && r.Fail? && 1 <= g <= n
    ensures var after := store[FailKey(j, g) := Object(r, t)];
            && Chain(after, j, n)
            && var o := ObjectsOf(cfg, store, j, n);
            ObjectsOf(cfg, after, j, n) == o.(fails := o.fails[g := r.retryNotBefore])
  {
    var after := store[FailKey(j, g) := Object(r, t)];
    ChainGrows(store, j, n, FailKey(j, g), Object(r, t));
    assert FailsOf(after, j, n) == FailsOf(store, j, n)[g := r.retryNotBefore];
    SameOutputs(cfg, store, after, j, n, n);
  }

  lemma OutputAdded(cfg: Config, store: Store, j: JobId, n: nat, name: nat, r: Record, t: nat)
    requires Chain(store, j, n) && OutputKey(j, name) !in store && r.Output?
    ensures var after := store[OutputKey(j, name) := Object(r, t)];
            && Chain(after, j, n)
            && var o := ObjectsOf(cfg, store, j, n);
            ObjectsOf(cfg, after, j, n) == o.(outputs := o.outputs[name := cfg.sha(r.body)])
  {
    var after := store[OutputKey(j, name) := Object(r, t)];
    ChainGrows(store, j, n, OutputKey(j, name), Object(r, t));
    assert FailsOf(after, j, n) == FailsOf(store, j, n);
    ObjectsAre(cfg, store, j, n);
    ObjectsAre(cfg, after, j, n);
    assert OutputsOf(cfg, after, j, n) == OutputsOf(cfg, store, j, n)[name := cfg.sha(r.body)];
  }

  // ---------- Uninterrupted runs ----------

  /** One fault-free call of worker `p`, nobody else moving. */
  ghost predicate Solo(cfg: Config, s: State, p: Pid, s': State) {
    exists a: Action :: a.Serve? && a.pid == p && a.fault == Pass && Serves(cfg, s, a, s')
  }

  ghost predicate SoloRun(cfg: Config, states: seq<State>, p: Pid) {
    |states| > 0 && forall i :: 0 <= i < |states| - 1 ==> Solo(cfg, states[i], p, states[i + 1])
  }

  /** The step's reply makes the worker report `r`. */
  ghost predicate Reported(cfg: Config, s: State, p: Pid, s': State, r: bool) {
    exists a: Action :: a.Serve? && a.pid == p && a.fault == Pass && Serves(cfg, s, a, s')
                        && Reports(cfg, s.workers[p].pc, a.reply) == Some(r)
  }

  /** The parts of a step that the arguments below need. */
  lemma SoloStep(cfg: Config, s: State, p: Pid, s': State) returns (call: Call, reply: Reply, time: nat, token: Token)
    requires Solo(cfg, s, p, s')
    ensures p in s.workers && p in s'.workers && Pending(s.workers[p].pc, call) && Answers(s.store, call, reply)
    ensures s'.workers[p] == Resume(cfg, s.workers[p], call, reply, s.now, s.clock, token)
    ensures s'.store == Applied(s.store, call, time) && s.clock < time <= U64_MAX
    ensures s'.delivered == match Completes(s.workers[p].pc, reply)
                            case Some(d) => s.delivered + {d}
                            case None => s.delivered
    ensures !call.PutIfAbsent? || call.key in s.store ==> s'.clock == s.clock && s'.store == s.store
  {
    var a: Action :| a.Serve? && a.pid == p && a.fault == Pass && Serves(cfg, s, a, s');
    call, reply, time, token := a.call, a.reply, a.time, a.token;
  }

  lemma SoloKeepsInv(cfg: Config, s: State, p: Pid, s': State)
    requires Inv(cfg, s) && Solo(cfg, s, p, s')
    ensures Inv(cfg, s')
  {
    hide Inv, Serves;
    var a: Action :| a.Serve? && a.pid == p && a.fault == Pass && Serves(cfg, s, a, s');
    StepKeepsInv(cfg, s, a, s');
  }

  // ---------- Every reachable store has such objects ----------

  /** Fail records are of claimed generations, outputs are outputs and generations fit their keys,
      and so do those about to be written. */
  ghost predicate Typed(s: State) {
    && (forall j, g :: FailKey(j, g) in s.store ==> s.store[FailKey(j, g)].record.Fail? && ClaimKey(j, g) in s.store)
    && (forall j, name :: OutputKey(j, name) in s.store ==> s.store[OutputKey(j, name)].record.Output?)
    && (forall j, g: nat :: ClaimKey(j, g) in s.store ==> g <= U32_MAX)
    && (forall p :: p in s.workers ==> TypedPc(s.store, s.workers[p].pc))
  }

  predicate TypedPc(store: Store, pc: Pc) {
    match pc
    case RenewReceipt(h) => h.generation < U32_MAX
    case RenewDead(h) => h.generation < U32_MAX
    case Put(k, r, purpose, _, _) =>
      && (purpose.ForFail? ==> k.FailKey? && r.Fail? && ClaimKey(k.job, k.generation) in store)
      && (k.ClaimKey? ==> k.generation <= U32_MAX)
    case _ => true
  }

  lemma ResumeKeepsTyped(cfg: Config, w: Worker, call: Call, reply: Reply, now: nat, clock: nat, token: Token,
                         store: Store)
    requires Pending(w.pc, call) && TypedPc(store, w.pc)
    ensures TypedPc(store, Resume(cfg, w, call, reply, now, clock, token).pc)
  {
    hide Raised, SameReceipt, EquivalentReceipt;
  }

  lemma ServeKeepsTyped(cfg: Config, s: State, a: Action, s': State)
    requires Inv(cfg, s) && Typed(s) && a.Serve? && Serves(cfg, s, a, s')
    ensures Typed(s')
  {
    hide Resume, Completes, Answers, Inv;
    var w := s.workers[a.pid];
    ResumeKeepsTyped(cfg, w, a.call, Delivered(a.fault, a.reply), s.now, s.clock, a.token, s.store);
    if a.call.PutIfAbsent? {
      PendingTyped(cfg, s, a.pid, a.call);
    }
    forall p | p in s'.workers ensures TypedPc(s'.store, s'.workers[p].pc) {
      if p != a.pid {
        assert TypedPc(s.store, s.workers[p].pc);
      }
    }
  }

  lemma PendingTyped(cfg: Config, s: State, p: Pid, call: Call)
    requires Inv(cfg, s) && Typed(s) && p in s.workers && Pending(s.workers[p].pc, call) && call.PutIfAbsent?
    ensures call.key.FailKey? ==> call.record.Fail? && ClaimKey(call.key.job, call.key.generation) in s.store
    ensures call.key.OutputKey? ==> call.record.Output?
    ensures call.key.ClaimKey? ==> call.key.generation <= U32_MAX
  {
    assert WorkerOk(cfg, s, p, s.workers[p]);
    assert TypedPc(s.store, s.workers[p].pc);
  }

  lemma QuietKeepsTyped(cfg: Config, s: State, a: Action, s': State)
    requires Inv(cfg, s) && Typed(s) && !a.Serve? && Step(cfg, s, a, s')
    ensures Typed(s')
  {
    hide Resume, Serves, StoreOk, StampsOk, DeliveredOk, PcOk;
    forall p | p in s'.workers ensures TypedPc(s'.store, s'.workers[p].pc) {
      if p in s.workers {
        assert TypedPc(s.store, s.workers[p].pc);
        assert WorkerOk(cfg, s, p, s.workers[p]);
      }
    }
  }

  lemma {:induction false} RunKeepsTyped(cfg: Config, states: seq<State>, i: nat)
    requires Run(cfg, states) && i < |states|
    ensures Typed(states[i])
  {
    hide Inv, Step, Typed;
    if i == 0 {
      InitIsTyped(states[0]);
    } else {
      RunKeepsTyped(cfg, states, i - 1);
      RunKeepsInv(cfg, states, i - 1);
      assert Next(cfg, states[i - 1], states[i - 1 + 1]);
      var a :| Step(cfg, states[i - 1], a, states[i]);
      if a.Serve? {
        StepServes(cfg, states[i - 1], a, states[i]);
        ServeKeepsTyped(cfg, states[i - 1], a, states[i]);
      } else {
        QuietKeepsTyped(cfg, states[i - 1], a, states[i]);
      }
    }
  }

  lemma InitIsTyped(s: State)
    requires Init(s)
    ensures Typed(s)
  {}

  lemma StepServes(cfg: Config, s: State, a: Action, s': State)
    requires a.Serve? && Step(cfg, s, a, s')
    ensures Serves(cfg, s, a, s')
  {}

  lemma {:induction false} FindTail(cfg: Config, s: State, j: JobId, i: nat) returns (n: nat)
    requires ChainsOk(cfg, s) && forall g :: 1 <= g <= i ==> ClaimAt(s.store, j, g)
    ensures (forall g :: 1 <= g <= n ==> ClaimAt(s.store, j, g)) && ClaimKey(j, n + 1) !in s.store
    decreases |set k | k in s.store && k.ClaimKey? && k.job == j && k.generation > i|
  {
    if ClaimKey(j, i + 1) in s.store {
      assert GoodClaim(cfg, s, j, i + 1);
      var here := set k | k in s.store && k.ClaimKey? && k.job == j && k.generation > i;
      var next := set k | k in s.store && k.ClaimKey? && k.job == j && k.generation > i + 1;
      assert ClaimKey(j, i + 1) in here && next == here - {ClaimKey(j, i + 1)};
      n := FindTail(cfg, s, j, i + 1);
    } else {
      n := i;
    }
  }

  /** In every run, every enqueued job's objects form a chain. */
  lemma ReachableChain(cfg: Config, states: seq<State>, k: nat, j: JobId) returns (n: nat)
    requires Run(cfg, states) && k < |states| && JobKey(j) in states[k].store
    ensures Inv(cfg, states[k]) && Chain(states[k].store, j, n)
  {
    RunKeepsInv(cfg, states, k);
    RunKeepsTyped(cfg, states, k);
    var s := states[k];
    n := FindTail(cfg, s, j, 0);
    forall g | g > n ensures ClaimKey(j, g) !in s.store {
      if ClaimKey(j, g) in s.store {
        ChainHasNoGap(cfg, s, j, g, n + 1);
      }
    }
    forall g: nat | FailKey(j, g) in s.store ensures 1 <= g <= n {
      assert GoodClaim(cfg, s, j, g);
    }
    assert n > 0 ==> ClaimAt(s.store, j, n);
  }
}
