/** What a tail hint can change: a claim that runs alone ends as the atomic claim does, except exactly
    where the hint leads to an older generation whose fail record is not over. A run shows it. */
module ProtocolHint {
  import opened Wrappers
  import opened Protocol
  import opened ProtocolInvariant
  import opened ProtocolOverlap
  import opened JobObjects
  import opened ProtocolAtomic

  // ---------- Where a hint refuses what the tail would grant ----------

  /** The store and the worker's handles are as the atomic claim leaves them, at some store time. */
  ghost predicate AsAtomic(cfg: Config, c: Terms, store: Store, handles: set<Handle>)
    requires TermsOk(c)
  {
    exists t, m :: Chain(store, c.job, m) && ObjectsOf(cfg, store, c.job, m) == Atomic(cfg, c, t).0
                   && Leaves(c, Atomic(cfg, c, t).1, t, store, handles)
  }

  /** The hint leads to an older generation whose fail record is not over, while the tail passes
      every gate. */
  ghost predicate Delayed(cfg: Config, c: Terms)
    requires TermsOk(c)
  {
    HintRefuses(cfg, c) && HintedGeneration(cfg, c).value < c.n && Atomic(cfg, c, 0) != (Target(cfg, c), None)
  }

  lemma ChainIsUnique(store: Store, j: JobId, n: nat, m: nat)
    requires Chain(store, j, n) && Chain(store, j, m)
    ensures n == m
  {
    assert n < m ==> ClaimAt(store, j, m);
    assert m < n ==> ClaimAt(store, j, n);
  }

  /** The atomic claim refuses, exhausts or grants whatever store time its write would get. */
  lemma AtomicShape(cfg: Config, c: Terms, t: nat, t': nat)
    requires TermsOk(c)
    ensures Atomic(cfg, c, t).1 == Atomic(cfg, c, t').1
    ensures Atomic(cfg, c, t).0 == Target(cfg, c) <==> Atomic(cfg, c, t') == (Target(cfg, c), None)
  {
    hide ObjectsOf;
    ObjectsAre(cfg, c.store, c.job, c.n);
  }

  /** Without such a delay the outcome expected is the atomic one. */
  lemma ExpectedIsAtomic(cfg: Config, c: Terms, t: nat)
    requires TermsOk(c) && !Delayed(cfg, c)
    ensures Expected(cfg, c, t) == Atomic(cfg, c, t)
  {
    hide ObjectsOf;
    AtomicShape(cfg, c, t, 0);
    if HintRefuses(cfg, c) && HintedGeneration(cfg, c).value == c.n {
      ObjectsAre(cfg, c.store, c.job, c.n);
    }
  }

  lemma EndedExactly(cfg: Config, c: Terms, store: Store, handles: set<Handle>)
    requires TermsOk(c) && Ended(cfg, c, store, handles)
    ensures AsAtomic(cfg, c, store, handles) <==> !Delayed(cfg, c)
  {
    hide ObjectsOf, Chain, Leaves, Expected, Atomic;
    var t, m :| Chain(store, c.job, m) && ObjectsOf(cfg, store, c.job, m) == Expected(cfg, c, t).0
                && Leaves(c, Expected(cfg, c, t).1, t, store, handles);
    if !Delayed(cfg, c) {
      ExpectedIsAtomic(cfg, c, t);
    } else if AsAtomic(cfg, c, store, handles) {
      var t', m' :| Chain(store, c.job, m') && ObjectsOf(cfg, store, c.job, m') == Atomic(cfg, c, t').0
                    && Leaves(c, Atomic(cfg, c, t').1, t', store, handles);
      ChainIsUnique(store, c.job, m, m');
      RefusedByHint(cfg, c, t);
      AtomicShape(cfg, c, t', 0);
    }
  }

  lemma RefusedByHint(cfg: Config, c: Terms, t: nat)
    requires TermsOk(c) && HintRefuses(cfg, c)
    ensures Expected(cfg, c, t) == (Target(cfg, c), None)
  {}

  /** A handle the atomic claim grants is one the worker did not hold. */
  lemma GrantIsNew(cfg: Config, s: State, p: Pid, c: Terms, t: nat, store: Store, handles: set<Handle>)
    requires TermsOk(c) && Inv(cfg, s) && s.store == c.store && p in s.workers && s.workers[p].handles == c.handles
    requires Atomic(cfg, c, t).1.Some? && Leaves(c, Atomic(cfg, c, t).1, t, store, handles)
    ensures handles != c.handles
  {
    hide ObjectsOf;
    ObjectsAre(cfg, c.store, c.job, c.n);
    var (g, a) := Atomic(cfg, c, t).1.value;
    var token :|
      && store == c.store[ClaimKey(c.job, g) := Object(Claim(Granted(c, a, token)), t)]
      && handles == c.handles + {Handle(c.job, g, a, token, c.lease, t, c.store[JobKey(c.job)].record.payload)};
    var h := Handle(c.job, g, a, token, c.lease, t, c.store[JobKey(c.job)].record.payload);
    assert WorkerOk(cfg, s, p, s.workers[p]);
    assert h in c.handles ==> HandleOk(s, p, h);
  }

  /** A claim that runs alone and without faults does not end as the atomic claim exactly when the
      hint delays it, and then it ends without the handle that the atomic claim grants. */
  lemma HintDelaysExactly(cfg: Config, states: seq<State>, p: Pid, j: JobId, n: nat, floor: nat, lease: nat)
    requires SoloRun(cfg, states, p) && Inv(cfg, states[0]) && Chain(states[0].store, j, n)
    requires p in states[0].workers && states[0].workers[p].pc == Started(cfg, TryClaim(j, floor, lease))
    requires var last := states[|states| - 1]; p in last.workers && last.workers[p].pc == Idle
    ensures var last := states[|states| - 1];
            var c := Terms(states[0].store, states[0].clock, j, n, floor, lease, states[0].workers[p].handles,
                           states[0].workers[p].id);
            && (!AsAtomic(cfg, c, last.store, last.workers[p].handles) <==> Delayed(cfg, c))
            && (Atomic(cfg, c, 0).1.Some? && last.workers[p].handles == c.handles
                <==> Atomic(cfg, c, 0).1.Some? && Delayed(cfg, c))
  {
    hide Inv, ObjectsOf, Chain, Leaves, Expected, Atomic, Delayed;
    var last := states[|states| - 1];
    var c := Terms(states[0].store, states[0].clock, j, n, floor, lease, states[0].workers[p].handles,
                           states[0].workers[p].id);
    ClaimIsAtomic(cfg, states, p, j, n, floor, lease);
    EndedExactly(cfg, c, last.store, last.workers[p].handles);
    var t, m :| Chain(last.store, c.job, m) && ObjectsOf(cfg, last.store, c.job, m) == Expected(cfg, c, t).0
                && Leaves(c, Expected(cfg, c, t).1, t, last.store, last.workers[p].handles);
    AtomicShape(cfg, c, t, 0);
    if Atomic(cfg, c, 0).1.Some? {
      if Delayed(cfg, c) {
        DelayedIsRefused(cfg, c, t, last.store, last.workers[p].handles);
      } else {
        ExpectedIsAtomic(cfg, c, t);
        GrantIsNew(cfg, states[0], p, c, t, last.store, last.workers[p].handles);
      }
    }
  }

  lemma DelayedIsRefused(cfg: Config, c: Terms, t: nat, store: Store, handles: set<Handle>)
    requires TermsOk(c) && Delayed(cfg, c) && Leaves(c, Expected(cfg, c, t).1, t, store, handles)
    ensures handles == c.handles
  {
    RefusedByHint(cfg, c, t);
  }

  // ---------- A run in which it does ----------

  /** The holder of generation 1 stands before its renewal's write. */
  lemma RenewGuarded(cfg: Config, s: State, pid: Pid, h: Handle) returns (s': State, pc: Pc)
    requires Reached(cfg, s) && s.clock < 900 && pid in s.workers && s.workers[pid].pc == Idle
    requires h in s.workers[pid].handles && h.job == JOB && h.generation == 1
    requires ReceiptKey(JOB) !in s.store && DeadKey(JOB) !in s.store
    ensures Reached(cfg, s') && s'.clock == s.clock && s'.store == s.store
    ensures s'.workers == s.workers[pid := s.workers[pid].(pc := pc)]
    ensures pc.Put? && pc.key == ClaimKey(JOB, 2) && pc.record == Claim(RenewalRecord(s.workers[pid].id, h))
    ensures pc.stage == Putting
  {
    hide Reached;
    var op := Renew(h);
    var s1 := Begun(cfg, s, pid, op);
    Start1(cfg, s, pid, op);
    Serve1(cfg, s1, pid, Head(ReceiptKey(JOB)), NotFound);
    var s2 := Answered(cfg, s1, pid, Head(ReceiptKey(JOB)), NotFound);
    assert s2.workers[pid].pc == RenewDead(h);
    Serve1(cfg, s2, pid, Head(DeadKey(JOB)), NotFound);
    s' := Answered(cfg, s2, pid, Head(DeadKey(JOB)), NotFound);
    pc := s'.workers[pid].pc;
    assert s'.workers == s.workers[pid := s.workers[pid].(pc := pc)];
  }

  /** And renews. */
  lemma Renew1(cfg: Config, s: State, pid: Pid, h: Handle) returns (s': State, c: ClaimRecord)
    requires Reached(cfg, s) && s.clock < 900 && pid in s.workers && s.workers[pid].pc == Idle
    requires h in s.workers[pid].handles && h.job == JOB && h.generation == 1 && ClaimKey(JOB, 2) !in s.store
    requires ReceiptKey(JOB) !in s.store && DeadKey(JOB) !in s.store
    ensures Reached(cfg, s') && s'.clock == s.clock + 1 && c.attempt == h.attempt && c.lease == h.lease
    ensures s'.store == s.store[ClaimKey(JOB, 2) := Object(Claim(c), s.clock + 1)]
    ensures forall q :: q in s.workers && q != pid ==> q in s'.workers && s'.workers[q] == s.workers[q]
  {
    hide Reached;
    var s1, pc := RenewGuarded(cfg, s, pid, h);
    c := RenewalRecord(s.workers[pid].id, h);
    s' := Write1(cfg, s1, pid);
  }

  /** The holder of generation 1 gives it back until 1000. */
  lemma Nack1(cfg: Config, s: State, pid: Pid, h: Handle) returns (s': State, fail: Record)
    requires Reached(cfg, s) && s.clock < 900 && pid in s.workers && s.workers[pid].pc == Idle
    requires h in s.workers[pid].handles && h.job == JOB && h.generation == 1 && FailKey(JOB, 1) !in s.store
    ensures Reached(cfg, s') && s'.clock == s.clock + 1 && s'.workers == s.workers
    ensures fail.Fail? && fail.retryNotBefore == 1000
    ensures s'.store == s.store[FailKey(JOB, 1) := Object(fail, s.clock + 1)]
  {
    hide Reached;
    var op := Nack(h, 1, 1000);
    var s1 := Begun(cfg, s, pid, op);
    Start1(cfg, s, pid, op);
    fail := s1.workers[pid].pc.record;
    s' := Write1(cfg, s1, pid);
    assert s'.workers == s.workers;
  }

  /** The hint is set back to generation 1 and the store clock moves to 600. */
  lemma SetBack(cfg: Config, s: State) returns (s': State)
    requires Reached(cfg, s) && s.clock < 600
    ensures Reached(cfg, s') && s'.clock == 600 && s'.workers == s.workers
    ensures s'.store == s.store[TailKey(JOB) := Object(Hint(Some(1)), 2)]
  {
    var hint := Object(Hint(Some(1)), 2);
    var s1 := s.(store := s.store[TailKey(JOB) := hint]);
    Extend(cfg, s, SetHint(JOB, Some(hint)), s1);
    s' := s1.(clock := 600);
    Extend(cfg, s1, Tick(600), s');
  }

  /** The store at which the claim below starts. */
  ghost predicate GivenBack(store: Store) {
    && JobKey(JOB) in store && store[JobKey(JOB)].record == JobOf(3)
    && (forall g :: ClaimKey(JOB, g) in store <==> g == 1 || g == 2)
    && ClaimAt(store, JOB, 1) && ClaimAt(store, JOB, 2)
    && TimeOf(store, JOB, 2) < 600 && ClaimOf(store, JOB, 2).attempt == 1 && ClaimOf(store, JOB, 2).lease == 0
    && (forall g: nat :: FailKey(JOB, g) in store <==> g == 1)
    && store[FailKey(JOB, 1)].record.Fail? && store[FailKey(JOB, 1)].record.retryNotBefore == 1000
    && (forall name :: OutputKey(JOB, name) !in store) && ReceiptKey(JOB) !in store && DeadKey(JOB) !in store
    && TailKey(JOB) in store && store[TailKey(JOB)].record == Hint(Some(1))
  }

  /** The job enqueued and claimed by worker 0 with an instantly expiring lease. */
  lemma HeldReached(cfg: Config) returns (s: State, h: Handle, c: ClaimRecord)
    ensures Reached(cfg, s) && s.clock == 3 && c.attempt == 1 && c.lease == 0
    ensures s.store == map[JobKey(JOB) := Object(JobOf(3), 1), BeaconKey(0) := Object(Beacon, 2),
                           ClaimKey(JOB, 1) := Object(Claim(c), 3)]
    ensures 0 in s.workers && 1 in s.workers && s.workers[1] == Worker(1, {}, {}, Idle)
    ensures s.workers[0].pc == Idle && h in s.workers[0].handles
    ensures h.job == JOB && h.generation == 1 && h.attempt == 1 && h.lease == 0
  {
    hide Reached, Resume, Pending, Completes, Serves;
    var s1 := Setup(cfg, 3);
    var s2 := EstablishFloor1(cfg, s1, 0);
    s, h, c := ProtocolOverlap.FirstClaim(cfg, s2, 0, 2, 3);
  }

  /** Then given back until 1000, and renewed. */
  lemma RenewedReached(cfg: Config) returns (s: State, c: ClaimRecord, fail: Record, c2: ClaimRecord)
    ensures Reached(cfg, s) && s.clock == 5 && 1 in s.workers && s.workers[1] == Worker(1, {}, {}, Idle)
    ensures fail.Fail? && fail.retryNotBefore == 1000 && c2.attempt == 1 && c2.lease == 0
    ensures s.store == Renewals(c, fail, c2)
  {
    hide Reached, Resume, Pending, Completes, Serves;
    var s1, h;
    s1, h, c := HeldReached(cfg);
    var s2;
    s2, fail := Nack1(cfg, s1, 0, h);
    s, c2 := Renew1(cfg, s2, 0, h);
  }

  function Renewals(c: ClaimRecord, fail: Record, c2: ClaimRecord): Store {
    map[JobKey(JOB) := Object(JobOf(3), 1), BeaconKey(0) := Object(Beacon, 2), ClaimKey(JOB, 1) := Object(Claim(c), 3),
        FailKey(JOB, 1) := Object(fail, 4), ClaimKey(JOB, 2) := Object(Claim(c2), 5)]
  }

  lemma RenewalsGivenBack(c: ClaimRecord, fail: Record, c2: ClaimRecord, t: nat)
    requires fail.Fail? && fail.retryNotBefore == 1000 && c2.attempt == 1 && c2.lease == 0
    ensures var hinted := Renewals(c, fail, c2)[TailKey(JOB) := Object(Hint(Some(1)), 2)];
            GivenBack(hinted[BeaconKey(1) := Object(Beacon, t)])
  {}

  lemma GivenBackReached(cfg: Config) returns (s: State)
    requires cfg.skew == 0
    ensures Reached(cfg, s) && s.clock == 601 && GivenBack(s.store)
    ensures 1 in s.workers && s.workers[1] == Worker(1, {601}, {}, Idle)
  {
    hide Reached, GivenBack;
    var s1, c, fail, c2 := RenewedReached(cfg);
    var s2 := SetBack(cfg, s1);
    s := EstablishFloor1(cfg, s2, 1);
    RenewalsGivenBack(c, fail, c2, 601);
    assert {} + {601} == {601};
  }

  /** There the hint refuses what the atomic claim grants. */
  lemma GivenBackDelays(cfg: Config, c: Terms)
    requires cfg.hints && cfg.skew == 0 && GivenBack(c.store) && c.job == JOB && c.n == 2 && c.floor == 601
    ensures TermsOk(c) && Delayed(cfg, c) && forall t :: Atomic(cfg, c, t).1 == Some((3, 2))
  {
    hide ObjectsOf;
    ObjectsAre(cfg, c.store, c.job, c.n);
  }

  /** One fault-free call appended to a run. */
  lemma Append(cfg: Config, states: seq<State>, k: nat, call: Call, reply: Reply) returns (more: seq<State>)
    requires Run(cfg, states) && k < |states| && SoloRun(cfg, states[k..], 1)
    requires var s := states[|states| - 1];
             && (forall t :: t in s.owner ==> t < s.now) && s.clock < 999
             && 1 in s.workers && Pending(s.workers[1].pc, call) && Answers(s.store, call, reply)
    ensures more == states + [Answered(cfg, states[|states| - 1], 1, call, reply)]
    ensures Run(cfg, more) && SoloRun(cfg, more[k..], 1)
    ensures var s := more[|more| - 1]; forall t :: t in s.owner ==> t < s.now
  {
    hide Resume, Completes, Pending;
    var s := states[|states| - 1];
    var s' := Answered(cfg, s, 1, call, reply);
    more := states + [s'];
    var a := Serve(1, call, Pass, reply, s.clock + 1, s.now);
    assert Serves(cfg, s, a, s');
    assert Step(cfg, s, a, s') && Solo(cfg, s, 1, s');
    forall i | 0 <= i < |more| - 1 ensures Next(cfg, more[i], more[i + 1]) {
      assert i < |states| - 1 ==> Next(cfg, states[i], states[i + 1]);
    }
    var tail := states[k..];
    forall i | 0 <= i < |more[k..]| - 1 ensures Solo(cfg, more[k..][i], 1, more[k..][i + 1]) {
      assert i < |tail| - 1 ==> Solo(cfg, tail[i], 1, tail[i + 1]);
    }
  }

  /** A run that ends with such a claim begun. */
  lemma Begin(cfg: Config) returns (states: seq<State>)
    requires cfg.skew == 0
    ensures Run(cfg, states)
    ensures var s := states[|states| - 1];
            && s.clock == 601 && GivenBack(s.store) && (forall t :: t in s.owner ==> t < s.now)
            && 1 in s.workers && s.workers[1] == Worker(1, {601}, {}, Started(cfg, TryClaim(JOB, 601, 0)))
  {
    var s := GivenBackReached(cfg);
    var op := TryClaim(JOB, 601, 0);
    Start1(cfg, s, 1, op);
    var s' := Begun(cfg, s, 1, op);
    states :| Run(cfg, states) && states[|states| - 1] == s';
  }

  /** The claim's five calls: both guards, the hint, the hinted generation and its fail record. */
  lemma ClaimAlone(cfg: Config, states: seq<State>) returns (more: seq<State>)
    requires cfg.hints && cfg.skew == 0 && Run(cfg, states) && states != []
    requires var s := states[|states| - 1];
             && s.clock == 601 && GivenBack(s.store) && (forall t :: t in s.owner ==> t < s.now)
             && 1 in s.workers && s.workers[1] == Worker(1, {601}, {}, Started(cfg, TryClaim(JOB, 601, 0)))
    ensures Run(cfg, more) && states <= more && SoloRun(cfg, more[|states| - 1..], 1)
    ensures var last := more[|more| - 1];
            && 1 in last.workers && last.workers[1] == Worker(1, {601}, {}, Idle)
            && last.store == states[|states| - 1].store
  {
    hide Run, SoloRun, IsPage;
    var k, s := |states| - 1, states[|states| - 1];
    Alone(cfg, states);
    var r1 := Append(cfg, states, k, Head(ReceiptKey(JOB)), NotFound);
    var scan := Scan(JOB, 601, 0, s.now);
    var s1 := r1[|r1| - 1];
    assert s1.workers[1] == Worker(1, {601}, {}, Gather(scan, Some(Absent), None, ReadHint)) && s1.store == s.store;
    var r2 := Append(cfg, r1, k, Head(DeadKey(JOB)), NotFound);
    var s2 := r2[|r2| - 1];
    assert s2.workers[1] == Worker(1, {601}, {}, Gather(scan, Some(Absent), Some(Absent), ReadHint));
    assert s2.store == s.store;
    more := HintFollowed(cfg, r2, k, scan);
  }

  lemma HintFollowed(cfg: Config, states: seq<State>, k: nat, scan: Scan) returns (more: seq<State>)
    requires cfg.hints && cfg.skew == 0 && Run(cfg, states) && k < |states| && SoloRun(cfg, states[k..], 1)
    requires scan.job == JOB && scan.floor == 601
    requires var s := states[|states| - 1];
             && s.clock == 601 && GivenBack(s.store) && (forall t :: t in s.owner ==> t < s.now) && 1 in s.workers
             && s.workers[1] == Worker(1, {601}, {}, Gather(scan, Some(Absent), Some(Absent), ReadHint))
    ensures Run(cfg, more) && states <= more && SoloRun(cfg, more[k..], 1)
    ensures var last := more[|more| - 1];
            && 1 in last.workers && last.workers[1] == Worker(1, {601}, {}, Idle)
            && last.store == states[|states| - 1].store
  {
    hide Run, SoloRun, IsPage;
    var s := states[|states| - 1];
    var hint, claim, fail := s.store[TailKey(JOB)], s.store[ClaimKey(JOB, 1)], s.store[FailKey(JOB, 1)];
    var r1 := Append(cfg, states, k, Get(TailKey(JOB)), Found(hint));
    var s1 := r1[|r1| - 1];
    assert s1.workers[1] == Worker(1, {601}, {}, Gather(scan, Some(Absent), Some(Absent), ReadHinted(1)));
    assert s1.store == s.store;
    var r2 := Append(cfg, r1, k, Get(ClaimKey(JOB, 1)), Found(claim));
    var s2 := r2[|r2| - 1];
    var e := Evidence(1, claim.time, claim.record.claim.attempt, claim.record.claim.lease, 601);
    assert s2.workers[1] == Worker(1, {601}, {}, ReadFail(scan, e, true)) && s2.store == s.store;
    more := Append(cfg, r2, k, Get(FailKey(JOB, 1)), Found(fail));
  }

  lemma Alone(cfg: Config, states: seq<State>)
    requires states != []
    ensures SoloRun(cfg, states[|states| - 1..], 1)
  {}

  /** A run with hints on: generation 1 is claimed, given back until 1000 and renewed to generation 2,
      the hint names generation 1, and at floor 601 a claim runs alone. It ends idle, without a handle
      and with the store unchanged, where the atomic claim takes over as generation 3, attempt 2. */
  lemma StaleHintDelays(cfg: Config) returns (states: seq<State>, k: nat, c: Terms)
    requires cfg.hints && cfg.skew == 0
    ensures Run(cfg, states) && k < |states| && SoloRun(cfg, states[k..], 1)
    ensures 1 in states[k].workers && states[k].workers[1].pc == Started(cfg, TryClaim(JOB, 601, 0))
    ensures c == Terms(states[k].store, states[k].clock, JOB, 2, 601, 0, states[k].workers[1].handles,
                       states[k].workers[1].id)
    ensures TermsOk(c) && Delayed(cfg, c) && forall t :: Atomic(cfg, c, t).1 == Some((3, 2))
    ensures var last := states[|states| - 1];
            && 1 in last.workers && last.workers[1].pc == Idle
            && last.workers[1].handles == c.handles && last.store == c.store
  {
    hide Run, SoloRun, GivenBack, Delayed, Atomic, TermsOk;
    states := Begin(cfg);
    k := |states| - 1;
    var s := states[k];
    c := Terms(s.store, s.clock, JOB, 2, 601, 0, s.workers[1].handles, s.workers[1].id);
    GivenBackDelays(cfg, c);
    states := ClaimAlone(cfg, states);
  }
}
